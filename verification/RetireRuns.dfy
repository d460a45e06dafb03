/**
  Retirement comes about: every use that a queue's slot accounts for is in a generation that is
  open with uses pending, closed by a barrier still listed, or retired; a forced visit or a full
  batch closes the generation, and a visit that finds the barrier complete retires it.
*/
module RetireRuns {
  import opened RetireModel
  import opened RetireWorld
  import opened RetireTokens
  import opened RetireSafety

  // ---------------------------------------------------------------- polling

  /** Polling retires up to each fence that answers, frees those fences, and does nothing else. */
  lemma {:induction false} PollRetires(rq: RetireQueue, k: nat, seen: set<nat>)
    requires k <= |rq.fences|
    ensures Answers(rq, Poll(rq, k, seen), k, seen)
    ensures forall j :: 0 <= j < |rq.fences| && (j >= k || !Seen(rq.fences[j], seen)) ==> Poll(rq, k, seen).fences[j] == rq.fences[j]
  {
    if k > 0 { PollRetires(rq, k - 1, seen); }
  }

  // ---------------------------------------------------------------- the generations of one slot

  /** A barrier that closes the generation is listed. */
  predicate Barred(rq: RetireQueue, g: nat) {
    exists k :: 0 <= k < |rq.fences| && rq.fences[k].Fence? && rq.fences[k].generation == g
  }

  predicate Shut(rq: RetireQueue, g: nat) {
    g <= rq.retiredGeneration || (g < rq.openGeneration && Barred(rq, g))
  }

  /** The generation is on its way: open with uses pending, closed by a listed barrier, or retired. */
  predicate Awaits(rq: RetireQueue, g: nat) {
    Shut(rq, g) || (g == rq.openGeneration && rq.pendingUses > 0)
  }

  lemma PollAwaits(rq: RetireQueue, seen: set<nat>, g: nat)
    ensures Shut(rq, g) ==> Shut(Poll(rq, |rq.fences|, seen), g)
    ensures Awaits(rq, g) ==> Awaits(Poll(rq, |rq.fences|, seen), g)
  {
    PollRetires(rq, |rq.fences|, seen);
    if Barred(rq, g) {
      var k :| 0 <= k < |rq.fences| && rq.fences[k].Fence? && rq.fences[k].generation == g;
      assert Seen(rq.fences[k], seen) || Poll(rq, |rq.fences|, seen).fences[k] == rq.fences[k];
    }
  }

  lemma CloseAwaits(rq: RetireQueue, pos: nat, ok: bool, g: nat)
    ensures Shut(rq, g) ==> Shut(CloseGeneration(rq, pos, ok), g)
    ensures Awaits(rq, g) ==> Awaits(CloseGeneration(rq, pos, ok), g)
    ensures Closes(rq, ok) && Awaits(rq, g) ==> Shut(CloseGeneration(rq, pos, ok), g)
  {
    if Closes(rq, ok) {
      var free, r := FreeFence(rq.fences, 0), CloseGeneration(rq, pos, ok);
      assert r.fences[free] == Fence(pos, rq.openGeneration);
      if Barred(rq, g) {
        var k :| 0 <= k < |rq.fences| && rq.fences[k].Fence? && rq.fences[k].generation == g;
        assert r.fences[k] == rq.fences[k];
      }
    }
  }

  lemma VisitAwaits(rq: RetireQueue, force: bool, pos: nat, d: Driver, g: nat)
    ensures Shut(rq, g) ==> Shut(Visit(rq, force, pos, d), g)
    ensures Awaits(rq, g) ==> Awaits(Visit(rq, force, pos, d), g)
  {
    PollAwaits(rq, d.seen, g);
    CloseAwaits(Poll(rq, |rq.fences|, d.seen), pos, d.barrierOk, g);
    hide Poll, CloseGeneration, Awaits, Shut;
  }

  lemma UseAwaits(rq: RetireQueue, i: nat, pos: nat, d: Driver, g: nat)
    ensures Shut(rq, g) ==> Shut(UseSlot(rq, i, pos, d).0, g)
    ensures Awaits(rq, g) ==> Awaits(UseSlot(rq, i, pos, d).0, g)
  {
    PollAwaits(rq, d.seen, g);
    CloseAwaits(Counted(rq, d), pos, d.barrierOk, g);
    hide Poll, CloseGeneration;
  }

  /** A token's own generation is on its way from the start. */
  lemma IssuedAwaits(rq: RetireQueue, i: nat, pos: nat, d: Driver, gpu: Gpu, counter: nat)
    requires SlotOk(rq, gpu, counter) && i < MAX_QUEUES && counter < INCARNATION_SPAN
    ensures var (rq', token) := UseSlot(rq, i, pos, d); token != 0 ==> Awaits(rq', GenerationOf(token))
  {
    var polled := Poll(rq, |rq.fences|, d.seen);
    if polled.openGeneration < GENERATION_SPAN {
      PackUnpacks(i + 1, polled.incarnation, polled.openGeneration);
      CloseAwaits(Counted(rq, d), pos, d.barrierOk, polled.openGeneration);
      hide Poll, CloseGeneration, Pack, GenerationOf;
      assert Awaits(Counted(rq, d), polled.openGeneration);
    }
  }

  /** There is room for a barrier once the fences that answer are free. */
  predicate HasRoom(rq: RetireQueue, seen: set<nat>) {
    exists k :: 0 <= k < |rq.fences| && (rq.fences[k].NoFence? || Seen(rq.fences[k], seen))
  }

  lemma RoomAfterPoll(rq: RetireQueue, seen: set<nat>)
    requires HasRoom(rq, seen)
    ensures FreeFence(Poll(rq, |rq.fences|, seen).fences, 0) < |rq.fences|
  {
    PollRetires(rq, |rq.fences|, seen);
    var k :| 0 <= k < |rq.fences| && (rq.fences[k].NoFence? || Seen(rq.fences[k], seen));
    assert Poll(rq, |rq.fences|, seen).fences[k] == NoFence;
  }

  /** A forced visit closes what is open. */
  lemma ForcedVisitCloses(rq: RetireQueue, pos: nat, d: Driver, g: nat)
    requires rq.owner.Owner? && Awaits(rq, g) && d.barrierOk && HasRoom(rq, d.seen)
    ensures Shut(Visit(rq, true, pos, d), g)
  {
    RoomAfterPoll(rq, d.seen);
    PollAwaits(rq, d.seen, g);
    CloseAwaits(Poll(rq, |rq.fences|, d.seen), pos, d.barrierOk, g);
    hide Poll, CloseGeneration, HasRoom;
  }

  /** So does the use that fills a batch. */
  lemma FullBatchCloses(rq: RetireQueue, i: nat, pos: nat, d: Driver, g: nat)
    requires rq.owner.Owner? && Awaits(rq, g) && d.barrierOk && HasRoom(rq, d.seen)
    requires rq.pendingUses >= BATCH_USES - 1 && rq.openGeneration < GENERATION_SPAN
    ensures Shut(UseSlot(rq, i, pos, d).0, g)
  {
    RoomAfterPoll(rq, d.seen);
    PollAwaits(rq, d.seen, g);
    CloseAwaits(Counted(rq, d), pos, d.barrierOk, g);
    hide Poll, CloseGeneration, HasRoom;
  }

  /** Every barrier listed for the generation answers complete. */
  predicate Answered(rq: RetireQueue, seen: set<nat>, g: nat) {
    forall k :: 0 <= k < |rq.fences| && rq.fences[k].Fence? && rq.fences[k].generation == g ==> rq.fences[k].pos in seen
  }

  /** A visit that finds the barrier of a closed generation complete retires it. */
  lemma AnsweredVisitRetires(rq: RetireQueue, force: bool, pos: nat, d: Driver, g: nat)
    requires Shut(rq, g) && Answered(rq, d.seen, g)
    ensures g <= Visit(rq, force, pos, d).retiredGeneration
  {
    PollRetires(rq, |rq.fences|, d.seen);
    if Barred(rq, g) {
      var k :| 0 <= k < |rq.fences| && rq.fences[k].Fence? && rq.fences[k].generation == g;
      assert Seen(rq.fences[k], d.seen);
    }
  }

  // ---------------------------------------------------------------- every use, in every run

  function SlotOf(w: World, u: Use): RetireQueue
    requires Current(w.reg, u.token)
  {
    w.reg.slots[TagOf(u.token) - 1]
  }

  /** No use that its slot still accounts for is forgotten. */
  predicate AllAwait(w: World) {
    forall u :: u in w.issued && Current(w.reg, u.token) ==> Awaits(SlotOf(w, u), GenerationOf(u.token))
  }

  predicate TouchesRegistry(s: Step) {
    s.NoteStep? || s.TokenStep? || s.PeekStep? || s.DrainedStep?
  }

  lemma RegistryUntouched(w: World, s: Step)
    requires !TouchesRegistry(s)
    ensures var r := Next(w, s); r.reg.slots == w.reg.slots && r.reg.count == w.reg.count && r.issued == w.issued
  {
    hide Consume, RetireRecord, Evict, IssueToken, Note, Reset, CancelEviction;
    if May(w, s) {
      match s
      case CommitStep(_, _) =>
      case WaitedStep(_, _) =>
      case _ =>
    }
  }

  /** What happened to the slot of a use: it kept what was on its way, and what was closed. */
  ghost predicate Follows(w: World, r: World, u: Use) {
    Current(r.reg, u.token) ==>
      && Current(w.reg, u.token)
      && (Awaits(SlotOf(w, u), GenerationOf(u.token)) ==> Awaits(SlotOf(r, u), GenerationOf(u.token)))
      && (Shut(SlotOf(w, u), GenerationOf(u.token)) ==> Shut(SlotOf(r, u), GenerationOf(u.token)))
  }

  /** A registered queue gets an incarnation that no token has. */
  lemma NoteFollows(w: World, queue: nat, refused: bool, u: Use)
    requires Inv(w) && u in w.issued
    ensures var r := w.(reg := Note(w.reg, queue, refused).0); Follows(w, r, u) && (Current(w.reg, u.token) ==> Current(r.reg, u.token))
  {
    assert UseOk(w.reg, w.gpu, u);
    hide Awaits, Shut, Tracks;
  }

  lemma PeekFollows(w: World, i: nat, force: bool, d: Driver, u: Use)
    requires May(w, PeekStep(i, force, d))
    ensures var r := Next(w, PeekStep(i, force, d)); Follows(w, r, u) && (Current(w.reg, u.token) ==> Current(r.reg, u.token))
  {
    var rq := w.reg.slots[i];
    VisitAwaits(rq, force, Length(w.gpu.lengths, rq.owner.queue), d, GenerationOf(u.token));
    hide Awaits, Shut, Poll, CloseGeneration;
  }

  lemma UsedFollows(v: World, i: nat, pos: nat, d: Driver, u: Use)
    requires i < v.reg.count <= |v.reg.slots|
    ensures var r := v.(reg := v.reg.(slots := v.reg.slots[i := UseSlot(v.reg.slots[i], i, pos, d).0]));
      Follows(v, r, u) && (Current(v.reg, u.token) ==> Current(r.reg, u.token))
  {
    UseAwaits(v.reg.slots[i], i, pos, d, GenerationOf(u.token));
    hide Awaits, Shut, Poll, CloseGeneration, Pack;
  }

  lemma TokenFollows(w: World, work: Work, refused: bool, d: Driver, u: Use)
    requires Inv(w) && TokenMay(w, work, refused, d) && u in w.issued
    ensures var r := Next(w, TokenStep(work, refused, d)); Follows(w, r, u) && (Current(w.reg, u.token) ==> Current(r.reg, u.token))
  {
    var (noted, i) := Note(w.reg, work.queue, refused);
    NoteFollows(w, work.queue, refused, u);
    if i < MAX_QUEUES {
      NotedIsHonest(w, work.queue, refused, d);
      UsedFollows(w.(reg := noted), i, Length(w.gpu.lengths, work.queue), d, u);
    }
    hide Inv, Note, UseSlot, Awaits, Shut;
  }

  /** Only a drain that succeeds ends an incarnation; nothing else loses a use that is on its way. */
  lemma StepFollows(w: World, s: Step, u: Use)
    requires Inv(w) && u in w.issued
    ensures Follows(w, Next(w, s), u) && u in Next(w, s).issued
    ensures s != DrainedStep(true) && Current(w.reg, u.token) ==> Current(Next(w, s).reg, u.token)
  {
    hide Inv, Awaits, Shut;
    if !TouchesRegistry(s) {
      RegistryUntouched(w, s);
    } else if May(w, s) {
      match s
      case NoteStep(queue, refused) => NoteFollows(w, queue, refused, u);
      case TokenStep(work, refused, d) => TokenFollows(w, work, refused, d, u);
      case PeekStep(i, force, d) => PeekFollows(w, i, force, d, u);
      case DrainedStep(ok) =>
    }
  }

  /** A new token's generation is on its way. */
  lemma NewTokenAwaits(w: World, work: Work, refused: bool, d: Driver, u: Use)
    requires Inv(w) && TokenMay(w, work, refused, d)
    requires u in Next(w, TokenStep(work, refused, d)).issued && u !in w.issued
    ensures var r := Next(w, TokenStep(work, refused, d));
      Current(r.reg, u.token) && Awaits(SlotOf(r, u), GenerationOf(u.token))
  {
    var (noted, i) := Note(w.reg, work.queue, refused);
    if i < MAX_QUEUES {
      NoteKeeps(w, work.queue, refused);
      NotedIsHonest(w, work.queue, refused, d);
      var pos := Length(w.gpu.lengths, work.queue);
      assert SlotOk(noted.slots[i], w.gpu, noted.counter);
      IssuedAwaits(noted.slots[i], i, pos, d, w.gpu, noted.counter);
      IssuedIsTracked(noted.slots[i], i, w.gpu, noted.counter, d, work);
      IncarnationStays(noted.slots[i], i, pos, d);
      hide Inv, UseSlot, Awaits, SlotOk, Tracks;
    }
  }

  lemma IncarnationStays(rq: RetireQueue, i: nat, pos: nat, d: Driver)
    ensures UseSlot(rq, i, pos, d).0.incarnation == rq.incarnation
  {}

  lemma StepAwaits(w: World, s: Step)
    requires Inv(w) && AllAwait(w)
    ensures AllAwait(Next(w, s))
  {
    hide Inv, Awaits, Shut;
    var r := Next(w, s);
    forall u | u in r.issued && Current(r.reg, u.token) ensures Awaits(SlotOf(r, u), GenerationOf(u.token)) {
      if u in w.issued {
        StepFollows(w, s, u);
      } else {
        OnlyTokensIssue(w, s);
        NewTokenAwaits(w, s.work, s.refused, s.d, u);
      }
    }
  }

  lemma OnlyTokensIssue(w: World, s: Step)
    ensures s.TokenStep? || Next(w, s).issued == w.issued
    ensures s.TokenStep? ==> TokenMay(w, s.work, s.refused, s.d) || Next(w, s).issued == w.issued
  {
    if !TouchesRegistry(s) { RegistryUntouched(w, s); }
  }

  /** In every run no use is forgotten: its generation is open, closed by a listed barrier, or retired. */
  lemma {:induction false} EveryUseAwaits(w: World, steps: seq<Step>)
    requires Inv(w) && AllAwait(w)
    ensures Inv(RunWorld(w, steps)) && AllAwait(RunWorld(w, steps))
    decreases |steps|
  {
    if steps != [] {
      StepKeeps(w, steps[0]);
      StepAwaits(w, steps[0]);
      hide Inv, AllAwait, Next;
      EveryUseAwaits(Next(w, steps[0]), steps[1..]);
    }
  }

  lemma {:induction false} SlotIsFound(reg: Registry, queue: nat, i: nat, k: nat)
    requires i <= k < reg.count <= |reg.slots| && reg.slots[k].owner == Owner(queue)
    ensures FindSlot(reg, queue, i) <= k
    decreases k - i
  {
    if i < k { SlotIsFound(reg, queue, i + 1, k); }
  }

  predicate IsTracked(reg: Registry, queue: nat)
    requires reg.count <= |reg.slots|
  {
    exists k :: 0 <= k < reg.count && reg.slots[k].owner == Owner(queue)
  }

  /**
    While the registry accepts queues, a use gets a token of its own queue's slot, unless the queue
    cannot be registered or has used up its generations.
  */
  lemma TokenIsIssued(w: World, work: Work, d: Driver) returns (u: Use)
    requires Inv(w) && TokenMay(w, work, false, d) && w.reg.accepting
    requires IsTracked(w.reg, work.queue) || (w.reg.count < MAX_QUEUES && w.reg.counter < INCARNATION_SPAN - 1)
    requires forall k :: 0 <= k < w.reg.count && w.reg.slots[k].owner == Owner(work.queue) ==> w.reg.slots[k].openGeneration < GENERATION_SPAN
    ensures var r := Next(w, TokenStep(work, false, d));
      && u.token != 0 && u.work == work && u in r.issued && Current(r.reg, u.token)
      && SlotOf(r, u).owner == Owner(work.queue)
  {
    hide Inv, Note, IsTracked, UseSlot, Poll;
    var (noted, i) := Note(w.reg, work.queue, false);
    SlotForUse(w, work.queue);
    var pos := Length(w.gpu.lengths, work.queue);
    SlotTokens(noted.slots[i], i, pos, d);
    u := Use(UseSlot(noted.slots[i], i, pos, d).1, work);
  }

  /** The slot that a queue is given or has. */
  lemma SlotForUse(w: World, queue: nat)
    requires Inv(w) && w.reg.accepting
    requires IsTracked(w.reg, queue) || (w.reg.count < MAX_QUEUES && w.reg.counter < INCARNATION_SPAN - 1)
    requires forall k :: 0 <= k < w.reg.count && w.reg.slots[k].owner == Owner(queue) ==> w.reg.slots[k].openGeneration < GENERATION_SPAN
    ensures var (noted, i) := Note(w.reg, queue, false);
      && i < MAX_QUEUES && i < noted.count <= |noted.slots| && noted.slots[i].owner == Owner(queue)
      && noted.slots[i].openGeneration < GENERATION_SPAN && noted.slots[i].incarnation < INCARNATION_SPAN
  {
    NoteKeeps(w, queue, false);
    var (noted, i) := Note(w.reg, queue, false);
    if IsTracked(w.reg, queue) {
      var k :| 0 <= k < w.reg.count && w.reg.slots[k].owner == Owner(queue);
      SlotIsFound(w.reg, queue, 0, k);
    }
    assert i < w.reg.count || w.reg.slots[i] == Blank();
    assert SlotOk(noted.slots[i], w.gpu, noted.counter);
  }

  /** While generations are left a slot gives tokens of its own. */
  lemma SlotTokens(rq: RetireQueue, i: nat, pos: nat, d: Driver)
    requires i < MAX_QUEUES && rq.openGeneration < GENERATION_SPAN && rq.incarnation < INCARNATION_SPAN
    ensures var (rq', token) := UseSlot(rq, i, pos, d);
      token != 0 && TagOf(token) == i + 1 && IncarnationOf(token) == rq'.incarnation && rq'.owner == rq.owner
  {
    PollKeepsOpen(rq, d.seen);
    PackUnpacks(i + 1, rq.incarnation, rq.openGeneration);
    IncarnationStays(rq, i, pos, d);
    hide Poll, Pack, TagOf, IncarnationOf;
    assert Pack(i + 1, rq.incarnation, rq.openGeneration) != 0 by { assert TagOf(0) == 0 by { TagOfNothing(); } }
  }

  lemma TagOfNothing()
    ensures TagOf(0) == 0
  {}

  lemma PollKeepsOpen(rq: RetireQueue, seen: set<nat>)
    ensures var r := Poll(rq, |rq.fences|, seen); r.openGeneration == rq.openGeneration && r.incarnation == rq.incarnation
  {}

  // ---------------------------------------------------------------- from a use to its retirement

  /** What is closed stays closed, or becomes retired, while its incarnation lasts. */
  lemma {:induction false} StaysShut(w: World, steps: seq<Step>, u: Use)
    requires Inv(w) && u in w.issued && Current(w.reg, u.token) && Shut(SlotOf(w, u), GenerationOf(u.token))
    requires DrainedStep(true) !in steps
    ensures var r := RunWorld(w, steps);
      Inv(r) && u in r.issued && Current(r.reg, u.token) && Shut(SlotOf(r, u), GenerationOf(u.token))
    decreases |steps|
  {
    if steps != [] {
      StepKeeps(w, steps[0]);
      StepFollows(w, steps[0], u);
      hide Inv, Shut, Next, Current;
      StaysShut(Next(w, steps[0]), steps[1..], u);
    }
  }

  /** A snapshot that writes down a retired generation completes its tokens. */
  lemma StampCompletes(rq: RetireQueue, gpu: Gpu, counter: nat, token: nat, completed: seq<nat>)
    requires SlotOk(rq, gpu, counter) && rq.incarnation == IncarnationOf(token) && GenerationOf(token) <= rq.retiredGeneration
    requires 1 <= TagOf(token) <= |completed| && completed[TagOf(token) - 1] == Stamp(rq.incarnation, rq.retiredGeneration)
    ensures TokenComplete(token, completed)
  {
    StampUnpacks(rq.incarnation, rq.retiredGeneration);
  }

  /**
    A use that was issued a token, in any run: after a forced visit of its slot that can place a
    barrier, and any further steps without a reset, a visit that finds the barrier complete writes
    a snapshot entry with which the token counts as complete.
  */
  lemma UseIsRetired(before: seq<Step>, u: Use, first: Driver, between: seq<Step>, force: bool, last: Driver) returns (stamp: nat)
    requires var w := RunWorld(Initial(), before);
      && u in w.issued && Current(w.reg, u.token) && May(w, PeekStep(TagOf(u.token) - 1, true, first))
      && first.barrierOk && HasRoom(SlotOf(w, u), first.seen)
    requires DrainedStep(true) !in between
    requires var w := RunWorld(Initial(), before);
      var v := RunWorld(Next(w, PeekStep(TagOf(u.token) - 1, true, first)), between);
      && May(v, PeekStep(TagOf(u.token) - 1, force, last))
      && Answered(v.reg.slots[TagOf(u.token) - 1], last.seen, GenerationOf(u.token))
    ensures var w := RunWorld(Initial(), before);
      var v := RunWorld(Next(w, PeekStep(TagOf(u.token) - 1, true, first)), between);
      (TagOf(u.token) - 1, stamp) in Next(v, PeekStep(TagOf(u.token) - 1, force, last)).stamps
    ensures forall completed: seq<nat> :: TagOf(u.token) <= |completed| && completed[TagOf(u.token) - 1] == stamp ==>
              TokenComplete(u.token, completed)
  {
    var i, w := TagOf(u.token) - 1, RunWorld(Initial(), before);
    InitialInv();
    assert AllAwait(Initial());
    EveryUseAwaits(Initial(), before);
    stamp := RetiredBy(w, u, first, between, force, last);
  }

  lemma RetiredBy(w: World, u: Use, first: Driver, between: seq<Step>, force: bool, last: Driver) returns (stamp: nat)
    requires Inv(w) && AllAwait(w)
    requires u in w.issued && Current(w.reg, u.token) && May(w, PeekStep(TagOf(u.token) - 1, true, first))
    requires first.barrierOk && HasRoom(SlotOf(w, u), first.seen) && DrainedStep(true) !in between
    requires var v := RunWorld(Next(w, PeekStep(TagOf(u.token) - 1, true, first)), between);
      && May(v, PeekStep(TagOf(u.token) - 1, force, last))
      && Answered(v.reg.slots[TagOf(u.token) - 1], last.seen, GenerationOf(u.token))
    ensures var v := RunWorld(Next(w, PeekStep(TagOf(u.token) - 1, true, first)), between);
      (TagOf(u.token) - 1, stamp) in Next(v, PeekStep(TagOf(u.token) - 1, force, last)).stamps
    ensures forall completed: seq<nat> :: TagOf(u.token) <= |completed| && completed[TagOf(u.token) - 1] == stamp ==>
              TokenComplete(u.token, completed)
  {
    var i, g := TagOf(u.token) - 1, GenerationOf(u.token);
    var n := Next(w, PeekStep(i, true, first));
    StepKeeps(w, PeekStep(i, true, first));
    StepFollows(w, PeekStep(i, true, first), u);
    ForcedVisitCloses(w.reg.slots[i], Length(w.gpu.lengths, w.reg.slots[i].owner.queue), first, g);
    assert Shut(SlotOf(n, u), g);
    StaysShut(n, between, u);
    var v := RunWorld(n, between);
    stamp := LastVisit(v, u, force, last);
  }

  lemma LastVisit(v: World, u: Use, force: bool, last: Driver) returns (stamp: nat)
    requires Inv(v) && u in v.issued && Current(v.reg, u.token) && Shut(SlotOf(v, u), GenerationOf(u.token))
    requires May(v, PeekStep(TagOf(u.token) - 1, force, last)) && Answered(SlotOf(v, u), last.seen, GenerationOf(u.token))
    ensures (TagOf(u.token) - 1, stamp) in Next(v, PeekStep(TagOf(u.token) - 1, force, last)).stamps
    ensures forall completed: seq<nat> :: TagOf(u.token) <= |completed| && completed[TagOf(u.token) - 1] == stamp ==>
              TokenComplete(u.token, completed)
  {
    var i, g := TagOf(u.token) - 1, GenerationOf(u.token);
    var s := PeekStep(i, force, last);
    StepKeeps(v, s);
    StepFollows(v, s, u);
    var r := Next(v, s);
    AnsweredVisitRetires(v.reg.slots[i], force, Length(v.gpu.lengths, v.reg.slots[i].owner.queue), last, g);
    stamp := Stamp(r.reg.slots[i].incarnation, r.reg.slots[i].retiredGeneration);
    assert SlotOk(r.reg.slots[i], r.gpu, r.reg.counter);
    forall completed: seq<nat> | TagOf(u.token) <= |completed| && completed[i] == stamp ensures TokenComplete(u.token, completed) {
      StampCompletes(r.reg.slots[i], r.gpu, r.reg.counter, u.token, completed);
    }
  }

  // ---------------------------------------------------------------- from two snapshots to the reclaimed page

  /** A snapshot's visits to the slots from `i` on. */
  function Visits(i: nat, n: nat, force: bool, ds: seq<Driver>): seq<Step>
    requires i <= n <= |ds|
    decreases n - i
  {
    if i == n then [] else [PeekStep(i, force, ds[i])] + Visits(i + 1, n, force, ds)
  }

  /** Each of the visits can be made and can place the barrier it may want. */
  predicate Closing(w: World, i: nat, n: nat, ds: seq<Driver>)
    requires i <= n <= |ds|
    decreases n - i
  {
    i == n ||
    (&& May(w, PeekStep(i, true, ds[i])) && ds[i].barrierOk && HasRoom(w.reg.slots[i], ds[i].seen)
     && Closing(Next(w, PeekStep(i, true, ds[i])), i + 1, n, ds))
  }

  /** Each of the visits can be made and finds every barrier of its slot complete. */
  predicate Finding(w: World, i: nat, n: nat, force: bool, ds: seq<Driver>)
    requires i <= n <= |ds|
    decreases n - i
  {
    i == n ||
    (&& May(w, PeekStep(i, force, ds[i]))
     && (forall k :: 0 <= k < |w.reg.slots[i].fences| && w.reg.slots[i].fences[k].Fence? ==> w.reg.slots[i].fences[k].pos in ds[i].seen)
     && Finding(Next(w, PeekStep(i, force, ds[i])), i + 1, n, force, ds))
  }

  /** What the snapshot writes down, slot by slot. */
  function Written(w: World, i: nat, n: nat, force: bool, ds: seq<Driver>): (r: seq<nat>)
    requires i <= n <= |ds| && Finding(w, i, n, force, ds)
    ensures |r| == n - i
    decreases n - i
  {
    if i == n then []
    else
      var v := Next(w, PeekStep(i, force, ds[i]));
      [Stamp(v.reg.slots[i].incarnation, v.reg.slots[i].retiredGeneration)] + Written(v, i + 1, n, force, ds)
  }

  lemma {:induction false} VisitsDrainNothing(i: nat, n: nat, force: bool, ds: seq<Driver>)
    requires i <= n <= |ds|
    ensures DrainedStep(true) !in Visits(i, n, force, ds)
    decreases n - i
  {
    if i < n { VisitsDrainNothing(i + 1, n, force, ds); }
  }

  predicate IsShut(w: World, u: Use) {
    u in w.issued && Current(w.reg, u.token) && Shut(SlotOf(w, u), GenerationOf(u.token))
  }

  /** A forced snapshot closes the generation of every use so far. */
  lemma {:induction false} SnapshotCloses(w: World, i: nat, n: nat, ds: seq<Driver>, u: Use)
    requires Inv(w) && AllAwait(w) && i <= n <= |ds| && Closing(w, i, n, ds)
    requires u in w.issued && Current(w.reg, u.token) && i < TagOf(u.token) <= n
    ensures IsShut(RunWorld(w, Visits(i, n, true, ds)), u)
    decreases n - i
  {
    var s := PeekStep(i, true, ds[i]);
    var rest := Visits(i + 1, n, true, ds);
    assert Visits(i, n, true, ds)[1..] == rest;
    StepKeeps(w, s);
    StepAwaits(w, s);
    StepFollows(w, s, u);
    if TagOf(u.token) == i + 1 {
      ForcedVisitCloses(w.reg.slots[i], Length(w.gpu.lengths, w.reg.slots[i].owner.queue), ds[i], GenerationOf(u.token));
      VisitsDrainNothing(i + 1, n, true, ds);
      hide Inv, Next, Shut;
      StaysShut(Next(w, s), rest, u);
    } else {
      hide Inv, Next, AllAwait, Current;
      SnapshotCloses(Next(w, s), i + 1, n, ds, u);
    }
  }

  lemma StampsStay(w: World, s: Step)
    ensures w.stamps <= Next(w, s).stamps
  {
    hide Consume, RetireRecord, Evict, IssueToken, Note, Reset, CancelEviction, Visit;
    if May(w, s) {
      match s
      case CommitStep(_, _) =>
      case WaitedStep(_, _) =>
      case _ =>
    }
  }

  lemma {:induction false} StampsThrough(w: World, steps: seq<Step>)
    ensures w.stamps <= RunWorld(w, steps).stamps
    decreases |steps|
  {
    if steps != [] {
      StampsStay(w, steps[0]);
      hide Next;
      StampsThrough(Next(w, steps[0]), steps[1..]);
    }
  }

  /** What the snapshot wrote for a slot is what the slot said. */
  lemma {:induction false} SnapshotWrites(w: World, i: nat, n: nat, force: bool, ds: seq<Driver>, j: nat)
    requires i <= j < n <= |ds| && Finding(w, i, n, force, ds)
    ensures (j, Written(w, i, n, force, ds)[j - i]) in RunWorld(w, Visits(i, n, force, ds)).stamps
    decreases n - i
  {
    var v, written := Next(w, PeekStep(i, force, ds[i])), Written(w, i, n, force, ds);
    assert Visits(i, n, force, ds)[1..] == Visits(i + 1, n, force, ds);
    PeekWrites(w, i, force, ds[i]);
    StampsThrough(v, Visits(i + 1, n, force, ds));
    hide Next, May, Stamp;
    if j > i {
      SnapshotWrites(v, i + 1, n, force, ds, j);
      assert written[j - i] == Written(v, i + 1, n, force, ds)[j - (i + 1)];
    }
  }

  /** The snapshot that finds the barriers complete writes an entry that completes every closed token. */
  lemma {:induction false} SnapshotCompletes(w: World, i: nat, n: nat, force: bool, ds: seq<Driver>, u: Use, completed: seq<nat>)
    requires Inv(w) && i <= n <= |ds| && Finding(w, i, n, force, ds) && IsShut(w, u) && i < TagOf(u.token) <= n
    requires |completed| == n && completed[i..] == Written(w, i, n, force, ds)
    ensures TokenComplete(u.token, completed)
    decreases n - i
  {
    var s, written := PeekStep(i, force, ds[i]), Written(w, i, n, force, ds);
    StepKeeps(w, s);
    assert completed[i] == written[0] && completed[i + 1..] == written[1..];
    VisitedToken(w, i, force, ds[i], u, completed);
    hide Inv, Next, May, Stamp, IsShut, TokenComplete;
    if TagOf(u.token) > i + 1 { SnapshotCompletes(Next(w, s), i + 1, n, force, ds, u, completed); }
  }

  lemma PeekWrites(w: World, i: nat, force: bool, d: Driver)
    requires May(w, PeekStep(i, force, d))
    ensures var v := Next(w, PeekStep(i, force, d));
      (i, Stamp(v.reg.slots[i].incarnation, v.reg.slots[i].retiredGeneration)) in v.stamps
  {}

  lemma VisitedToken(w: World, i: nat, force: bool, d: Driver, u: Use, completed: seq<nat>)
    requires Inv(w) && May(w, PeekStep(i, force, d)) && IsShut(w, u) && i < TagOf(u.token) && i < |completed|
    requires forall k :: 0 <= k < |w.reg.slots[i].fences| && w.reg.slots[i].fences[k].Fence? ==> w.reg.slots[i].fences[k].pos in d.seen
    requires var v := Next(w, PeekStep(i, force, d));
      completed[i] == Stamp(v.reg.slots[i].incarnation, v.reg.slots[i].retiredGeneration)
    ensures IsShut(Next(w, PeekStep(i, force, d)), u)
    ensures TagOf(u.token) == i + 1 ==> TokenComplete(u.token, completed)
  {
    var s, g := PeekStep(i, force, d), GenerationOf(u.token);
    StepKeeps(w, s);
    StepFollows(w, s, u);
    var v := Next(w, s);
    if TagOf(u.token) == i + 1 {
      AnsweredVisitRetires(w.reg.slots[i], force, Length(w.gpu.lengths, w.reg.slots[i].owner.queue), d, g);
      assert SlotOk(v.reg.slots[i], v.gpu, v.reg.counter);
      StampCompletes(v.reg.slots[i], v.gpu, v.reg.counter, u.token, completed);
    }
  }

  /** What the page remembers was issued before the first of the two snapshots. */
  predicate Remembered(w: World, page: Page) {
    forall j :: 0 <= j < |page.tokens| ==> IssuedToken(w.issued, page.tokens[j]) && Current(w.reg, page.tokens[j])
  }

  lemma UseOfToken(w: World, page: Page, j: nat) returns (u: Use)
    requires Remembered(w, page) && j < |page.tokens|
    ensures u in w.issued && u.token == page.tokens[j] && Current(w.reg, u.token)
  {
    assert IssuedToken(w.issued, page.tokens[j]);
    u :| u in w.issued && u.token == page.tokens[j];
  }

  /**
    In any run: after a forced snapshot that can place its barriers, any further steps without a
    reset, and a snapshot that finds the barriers complete, a page that is idle and was used by
    nobody since the first snapshot may be frozen, and the commit that follows frees it.
  */
  lemma QuietPageIsReclaimed(before: seq<Step>, p: nat, first: seq<Driver>, between: seq<Step>, force: bool, last: seq<Driver>)
    requires var w := RunWorld(Initial(), before); w.reg.count <= |first| && w.reg.count <= |last| && Closing(w, 0, w.reg.count, first)
    requires DrainedStep(true) !in between
    requires var (w, n) := (RunWorld(Initial(), before), RunWorld(Initial(), before).reg.count);
      var v := RunWorld(RunWorld(w, Visits(0, n, true, first)), between);
      && Finding(v, 0, n, force, last)
      && var x := RunWorld(v, Visits(0, n, force, last));
         p in x.pages && Idle(x.pages[p]) && !x.pages[p].unknown && Remembered(w, x.pages[p])
    ensures var (w, n) := (RunWorld(Initial(), before), RunWorld(Initial(), before).reg.count);
      var v := RunWorld(RunWorld(w, Visits(0, n, true, first)), between);
      var (x, freeze) := (RunWorld(v, Visits(0, n, force, last)), FreezeStep(p, Written(v, 0, n, force, last)));
      var y := Next(Next(x, freeze), CommitStep(|x.candidates|, Freed));
      && May(x, freeze) && Unmaps(Next(x, freeze), CommitStep(|x.candidates|, Freed))
      && p in y.pages && y.pages[p].handle == 0 && y.pages[p].tokens == []
  {
    InitialInv();
    assert AllAwait(Initial());
    EveryUseAwaits(Initial(), before);
    var w := RunWorld(Initial(), before);
    Reclaimed(w, p, first, between, force, last);
  }

  lemma TagIsListed(w: World, u: Use)
    requires Current(w.reg, u.token)
    ensures 1 <= TagOf(u.token) <= w.reg.count
  {}

  lemma ShutThrough(w: World, first: seq<Driver>, between: seq<Step>, u: Use)
    requires Inv(w) && AllAwait(w) && w.reg.count <= |first| && Closing(w, 0, w.reg.count, first) && DrainedStep(true) !in between
    requires u in w.issued && Current(w.reg, u.token)
    ensures IsShut(RunWorld(RunWorld(w, Visits(0, w.reg.count, true, first)), between), u)
  {
    SnapshotCloses(w, 0, w.reg.count, first, u);
    RunIsSafe(w, Visits(0, w.reg.count, true, first));
    StaysShut(RunWorld(w, Visits(0, w.reg.count, true, first)), between, u);
  }

  lemma Reclaimed(w: World, p: nat, first: seq<Driver>, between: seq<Step>, force: bool, last: seq<Driver>)
    requires Inv(w) && AllAwait(w) && w.reg.count <= |first| && w.reg.count <= |last| && Closing(w, 0, w.reg.count, first)
    requires DrainedStep(true) !in between
    requires var v := RunWorld(RunWorld(w, Visits(0, w.reg.count, true, first)), between);
      && Finding(v, 0, w.reg.count, force, last)
      && var x := RunWorld(v, Visits(0, w.reg.count, force, last));
         p in x.pages && Idle(x.pages[p]) && !x.pages[p].unknown && Remembered(w, x.pages[p])
    ensures var v := RunWorld(RunWorld(w, Visits(0, w.reg.count, true, first)), between);
      var (x, freeze) := (RunWorld(v, Visits(0, w.reg.count, force, last)), FreezeStep(p, Written(v, 0, w.reg.count, force, last)));
      var y := Next(Next(x, freeze), CommitStep(|x.candidates|, Freed));
      && May(x, freeze) && Unmaps(Next(x, freeze), CommitStep(|x.candidates|, Freed))
      && p in y.pages && y.pages[p].handle == 0 && y.pages[p].tokens == []
  {
    hide Inv, AllAwait, Next, Unmaps, RunWorld, Visits, Closing, Finding, TokenComplete;
    var n := w.reg.count;
    var v := RunWorld(RunWorld(w, Visits(0, n, true, first)), between);
    var (x, completed) := (RunWorld(v, Visits(0, n, force, last)), Written(v, 0, n, force, last));
    RunIsSafe(w, Visits(0, n, true, first));
    RunIsSafe(RunWorld(w, Visits(0, n, true, first)), between);
    assert completed[0..] == completed;
    forall j | 0 <= j < |x.pages[p].tokens| ensures TokenComplete(x.pages[p].tokens[j], completed) {
      var u := UseOfToken(w, x.pages[p], j);
      ShutThrough(w, first, between, u);
      TagIsListed(w, u);
      SnapshotCompletes(v, 0, n, force, last, u, completed);
    }
    forall j | 0 <= j < n ensures (j, completed[j]) in x.stamps { SnapshotWrites(v, 0, n, force, last, j); }
    assert May(x, FreezeStep(p, completed));
    RetiredPageIsReclaimed(x, p, completed);
  }
}
