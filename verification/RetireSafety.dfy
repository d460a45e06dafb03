/**
  Asynchronous reclaim never unmaps a page before every use recorded for it is done, in any
  interleaving of the steps of RetireWorld.
*/
module RetireSafety {
  import opened RetireModel
  import opened RetireWorld
  import opened RetireTokens

  // ---------------------------------------------------------------- the invariant

  predicate RegOk(w: World) {
    && |w.reg.slots| == MAX_QUEUES && w.reg.count <= MAX_QUEUES && w.reg.counter < INCARNATION_SPAN
    && (forall i :: 0 <= i < w.reg.count ==> SlotOk(w.reg.slots[i], w.gpu, w.reg.counter))
    && (forall i :: w.reg.count <= i < MAX_QUEUES ==> w.reg.slots[i] == Blank())
  }

  /** The token's slot is still in the incarnation that issued it. */
  predicate Current(reg: Registry, token: nat) {
    1 <= TagOf(token) <= reg.count && reg.count <= |reg.slots| &&
    reg.slots[TagOf(token) - 1].incarnation == IncarnationOf(token)
  }

  /** A use is tracked by its slot, or belongs to a past incarnation and is done. */
  predicate UseOk(reg: Registry, gpu: Gpu, u: Use) {
    && 1 <= TagOf(u.token) <= MAX_QUEUES && IncarnationOf(u.token) <= reg.counter
    && (if Current(reg, u.token) then Tracks(reg.slots[TagOf(u.token) - 1], gpu, GenerationOf(u.token), u.work)
        else u.work in gpu.done)
    && (TagOf(u.token) <= reg.count <= |reg.slots| ==>
          IncarnationOf(u.token) <= reg.slots[TagOf(u.token) - 1].incarnation)
  }

  /** What a snapshot said is still true: the uses it retired are done, and no new ones join them. */
  predicate StampOk(w: World, i: nat, stamp: nat) {
    && stamp / GENERATION_SPAN <= w.reg.counter
    && (i < w.reg.count <= |w.reg.slots| && w.reg.slots[i].incarnation == stamp / GENERATION_SPAN ==>
          stamp % GENERATION_SPAN <= w.reg.slots[i].retiredGeneration)
    && forall u :: u in w.issued && Retires(i, stamp, u.token) ==> u.work in w.gpu.done
  }

  /** The snapshot entry of slot `i` counts the token's generation among the retired ones. */
  predicate Retires(i: nat, stamp: nat, token: nat) {
    && TagOf(token) == i + 1 && IncarnationOf(token) == stamp / GENERATION_SPAN
    && GenerationOf(token) <= stamp % GENERATION_SPAN
  }

  predicate DrainOk(w: World) {
    && (!w.drain.Calm? ==> !w.reg.accepting)
    && (w.drain.Draining? ==> forall u :: u in w.issued ==> u.work in w.gpu.done || Covered(w.drain.marks, u.work))
  }

  /** The page remembers the use: by a token at least as late, or by being poisoned. */
  predicate Remembers(page: Page, issued: set<Use>, u: Use) {
    page.unknown ||
    (u in issued && exists j :: 0 <= j < |page.tokens| && TagOf(page.tokens[j]) == TagOf(u.token) && u.token <= page.tokens[j])
  }

  predicate IssuedToken(issued: set<Use>, token: nat) {
    exists u :: u in issued && u.token == token
  }

  predicate TokensOk(page: Page, issued: set<Use>) {
    forall j :: 0 <= j < |page.tokens| ==> IssuedToken(issued, page.tokens[j])
  }

  predicate PagesOk(pages: map<nat, Page>, uses: map<nat, set<Use>>, issued: set<Use>, nextPage: nat) {
    && (forall p :: p in pages ==> p < nextPage && TokensOk(pages[p], issued) && (pages[p].evicting ==> IsMapped(pages[p])))
    && (forall p :: p in uses ==> p < nextPage)
    && (forall p, u :: p in pages && p in uses && u in uses[p] ==> Remembers(pages[p], issued, u))
  }

  predicate Settled(u: Use, done: set<Work>) {
    u.work in done
  }

  /** A candidate that still names its page's freeze knows that the page's uses are done, or will be once waited for. */
  predicate CandidateOk(w: World, c: Candidate) {
    && c.page < w.nextPage
    && (c.page in w.pages ==> c.generation <= w.pages[c.page].generation)
    && (c.page in w.pages && StillFrozen(w.pages[c.page], c) ==>
          match c.stage
          case Frozen => !w.pages[c.page].unknown
          case Waiting(marks) => forall u :: u in UsesOf(w, c.page) ==> Settled(u, w.gpu.done) || Covered(marks, u.work)
          case Ready => forall u :: u in UsesOf(w, c.page) ==> Settled(u, w.gpu.done)
          case Spent => true)
  }

  ghost predicate Inv(w: World) {
    && RegOk(w) && GpuOk(w.gpu)
    && (forall u :: u in w.issued ==> UseOk(w.reg, w.gpu, u))
    && (forall s :: s in w.stamps ==> StampOk(w, s.0, s.1))
    && DrainOk(w)
    && PagesOk(w.pages, w.uses, w.issued, w.nextPage)
    && (forall i :: 0 <= i < |w.candidates| ==> CandidateOk(w, w.candidates[i]))
  }

  lemma InitialInv()
    ensures Inv(Initial())
  {}

  // ---------------------------------------------------------------- why reclaim may trust a snapshot

  /** A completed token settles every use it dominates: of its own generation or earlier, or of a past incarnation. */
  lemma CompleteTokenSettles(w: World, u: Use, token: nat, completed: seq<nat>)
    requires Inv(w) && u in w.issued && TagOf(token) == TagOf(u.token) && u.token <= token
    requires IssuedToken(w.issued, token)
    requires TokenComplete(token, completed) && forall i :: 0 <= i < |completed| ==> (i, completed[i]) in w.stamps
    ensures u.work in w.gpu.done
  {
    var i := TagOf(token) - 1;
    var s := (i, completed[i]);
    assert s in w.stamps && StampOk(w, s.0, s.1);
    PackOrder(u.token, token);
    var v :| v in w.issued && v.token == token;
    assert UseOk(w.reg, w.gpu, u) && UseOk(w.reg, w.gpu, v);
  }

  /** Retirement is complete only when every recorded use is done. */
  lemma RetiredMeansDone(w: World, p: nat, completed: seq<nat>)
    requires Inv(w) && p in w.pages && RetireComplete(w.pages[p], completed)
    requires forall i :: 0 <= i < |completed| ==> (i, completed[i]) in w.stamps
    ensures UsesDone(w, p)
  {
    var page := w.pages[p];
    forall u | u in UsesOf(w, p) ensures u.work in w.gpu.done {
      assert Remembers(page, w.issued, u);
      var j :| 0 <= j < |page.tokens| && TagOf(page.tokens[j]) == TagOf(u.token) && u.token <= page.tokens[j];
      assert TokensOk(page, w.issued);
      CompleteTokenSettles(w, u, page.tokens[j], completed);
    }
  }

  // ---------------------------------------------------------------- growth of the device and of the issued tokens

  lemma UseGrows(reg: Registry, gpu: Gpu, gpu': Gpu, u: Use)
    requires UseOk(reg, gpu, u) && Grew(gpu, gpu')
    ensures UseOk(reg, gpu', u)
  {}

  lemma TokensGrow(page: Page, issued: set<Use>, issued': set<Use>)
    requires TokensOk(page, issued) && issued <= issued'
    ensures TokensOk(page, issued')
  {
    forall j | 0 <= j < |page.tokens| ensures IssuedToken(issued', page.tokens[j]) {
      assert IssuedToken(issued, page.tokens[j]);
      var u :| u in issued && u.token == page.tokens[j];
      assert u in issued';
    }
  }

  lemma PagesGrow(w: World, issued': set<Use>)
    requires PagesOk(w.pages, w.uses, w.issued, w.nextPage) && w.issued <= issued'
    ensures PagesOk(w.pages, w.uses, issued', w.nextPage)
  {
    forall p | p in w.pages ensures TokensOk(w.pages[p], issued') { TokensGrow(w.pages[p], w.issued, issued'); }
    forall p, u | p in w.pages && p in w.uses && u in w.uses[p] ensures Remembers(w.pages[p], issued', u) {
      assert Remembers(w.pages[p], w.issued, u);
    }
  }

  lemma CandidateGrows(w: World, w': World, c: Candidate)
    requires CandidateOk(w, c)
    requires w'.pages == w.pages && w'.uses == w.uses && w'.nextPage == w.nextPage && w.gpu.done <= w'.gpu.done
    ensures CandidateOk(w', c)
  {
    assert UsesOf(w', c.page) == UsesOf(w, c.page);
  }

  /** When only the device grew, everything stands. */
  lemma DeviceGrows(w: World, gpu': Gpu)
    requires Inv(w) && GpuOk(gpu') && Grew(w.gpu, gpu')
    ensures Inv(w.(gpu := gpu'))
  {
    var w' := w.(gpu := gpu');
    forall i | 0 <= i < w.reg.count ensures SlotOk(w.reg.slots[i], gpu', w.reg.counter) {
      assert SlotOk(w.reg.slots[i], w.gpu, w.reg.counter);
    }
    forall u | u in w.issued ensures UseOk(w.reg, gpu', u) { UseGrows(w.reg, w.gpu, gpu', u); }
    forall s | s in w.stamps ensures StampOk(w', s.0, s.1) { assert StampOk(w, s.0, s.1); }
    forall i | 0 <= i < |w.candidates| ensures CandidateOk(w', w.candidates[i]) { CandidateGrows(w, w', w.candidates[i]); }
  }

  // ---------------------------------------------------------------- registry steps

  function WithSlot(w: World, i: nat, rq: RetireQueue, gpu: Gpu): World
    requires i < |w.reg.slots|
  {
    w.(reg := w.reg.(slots := w.reg.slots[i := rq]), gpu := gpu)
  }

  /** A slot in the same incarnation that tracks what it tracked, and retired no less. */
  ghost predicate Carries(w: World, i: nat, rq: RetireQueue, gpu: Gpu)
    requires i < |w.reg.slots|
  {
    && SlotOk(rq, gpu, w.reg.counter) && GpuOk(gpu) && Grew(w.gpu, gpu)
    && rq.incarnation == w.reg.slots[i].incarnation
    && w.reg.slots[i].retiredGeneration <= rq.retiredGeneration
    && forall u :: u in w.issued && TagOf(u.token) == i + 1 && Current(w.reg, u.token) ==>
         Tracks(rq, gpu, GenerationOf(u.token), u.work)
  }

  lemma SlotUses(w: World, i: nat, rq: RetireQueue, gpu: Gpu, u: Use)
    requires Inv(w) && i < w.reg.count && Carries(w, i, rq, gpu) && u in w.issued
    ensures UseOk(WithSlot(w, i, rq, gpu).reg, gpu, u)
  {
    assert UseOk(w.reg, w.gpu, u);
    if Current(w.reg, u.token) && TagOf(u.token) != i + 1 {
      GrewTracks(w.reg.slots[TagOf(u.token) - 1], w.gpu, gpu, 0, 0, GenerationOf(u.token), u.work);
    }
  }

  lemma SlotStamps(w: World, i: nat, rq: RetireQueue, gpu: Gpu, s: (nat, nat))
    requires Inv(w) && i < w.reg.count && Carries(w, i, rq, gpu) && s in w.stamps
    ensures StampOk(WithSlot(w, i, rq, gpu), s.0, s.1)
  {
    assert StampOk(w, s.0, s.1);
  }

  lemma SlotReplaced(w: World, i: nat, rq: RetireQueue, gpu: Gpu)
    requires Inv(w) && i < w.reg.count && Carries(w, i, rq, gpu)
    ensures Inv(WithSlot(w, i, rq, gpu))
  {
    var w' := WithSlot(w, i, rq, gpu);
    forall j | 0 <= j < w.reg.count ensures SlotOk(w'.reg.slots[j], gpu, w.reg.counter) {
      assert SlotOk(w.reg.slots[j], w.gpu, w.reg.counter);
    }
    forall u | u in w.issued ensures UseOk(w'.reg, gpu, u) { SlotUses(w, i, rq, gpu, u); }
    forall s | s in w.stamps ensures StampOk(w', s.0, s.1) { SlotStamps(w, i, rq, gpu, s); }
    forall j | 0 <= j < |w.candidates| ensures CandidateOk(w', w.candidates[j]) { CandidateGrows(w, w', w.candidates[j]); }
  }

  lemma NoteKeeps(w: World, queue: nat, refused: bool)
    requires Inv(w)
    ensures Inv(w.(reg := Note(w.reg, queue, refused).0))
  {
    var reg' := Note(w.reg, queue, refused).0;
    var w' := w.(reg := reg');
    if reg' != w.reg {
      forall j | 0 <= j < reg'.count ensures SlotOk(reg'.slots[j], w.gpu, reg'.counter) {
        if j < w.reg.count { assert SlotOk(w.reg.slots[j], w.gpu, w.reg.counter); } else { assert w.reg.slots[j] == Blank(); }
      }
      forall u | u in w.issued ensures UseOk(reg', w.gpu, u) { assert UseOk(w.reg, w.gpu, u); }
      forall s | s in w.stamps ensures StampOk(w', s.0, s.1) { assert StampOk(w, s.0, s.1); }
      forall j | 0 <= j < |w.candidates| ensures CandidateOk(w', w.candidates[j]) { CandidateGrows(w, w', w.candidates[j]); }
    }
  }

  lemma AcceptKeeps(w: World, accepting: bool, drain: Drain)
    requires Inv(w) && (!drain.Calm? ==> !accepting) && (drain.Draining? ==> drain == w.drain)
    ensures Inv(w.(reg := w.reg.(accepting := accepting), drain := drain))
  {
    var w' := w.(reg := w.reg.(accepting := accepting), drain := drain);
    forall u | u in w.issued ensures UseOk(w'.reg, w.gpu, u) { assert UseOk(w.reg, w.gpu, u); }
    forall s | s in w.stamps ensures StampOk(w', s.0, s.1) { assert StampOk(w, s.0, s.1); }
    forall j | 0 <= j < |w.candidates| ensures CandidateOk(w', w.candidates[j]) { CandidateGrows(w, w', w.candidates[j]); }
  }

  /** A newly issued token joins: its slot tracks it and no snapshot has retired its generation. */
  lemma IssueKeeps(w: World, u: Use)
    requires Inv(w) && w.drain.Calm? && UseOk(w.reg, w.gpu, u) && Current(w.reg, u.token)
    requires w.reg.slots[TagOf(u.token) - 1].retiredGeneration < GenerationOf(u.token)
    ensures Inv(w.(issued := w.issued + {u}))
  {
    var w' := w.(issued := w.issued + {u});
    forall s | s in w.stamps ensures StampOk(w', s.0, s.1) { assert StampOk(w, s.0, s.1); }
    PagesGrow(w, w'.issued);
    forall j | 0 <= j < |w.candidates| ensures CandidateOk(w', w.candidates[j]) { CandidateGrows(w, w', w.candidates[j]); }
  }

  lemma UseCarries(w: World, i: nat, d: Driver)
    requires Inv(w) && i < w.reg.count && SeenDone(w.reg.slots[i], w.gpu, d.seen)
    ensures var rq := w.reg.slots[i];
      Carries(w, i, UseSlot(rq, i, Length(w.gpu.lengths, rq.owner.queue), d).0, UseGpu(rq, w.gpu, d))
  {
    var rq := w.reg.slots[i];
    assert SlotOk(rq, w.gpu, w.reg.counter);
    SubmitKeeps(w.gpu, rq.owner.queue);
    UseKeepsSlot(rq, i, w.gpu, w.reg.counter, d);
    forall u | u in w.issued && TagOf(u.token) == i + 1 && Current(w.reg, u.token)
      ensures Tracks(UseSlot(rq, i, Length(w.gpu.lengths, rq.owner.queue), d).0, UseGpu(rq, w.gpu, d), GenerationOf(u.token), u.work)
    {
      assert UseOk(w.reg, w.gpu, u);
      UseTracks(rq, i, w.gpu, w.reg.counter, d, GenerationOf(u.token), u.work);
    }
    SlotGrowth(rq, i, w.gpu, d);
  }

  lemma SlotGrowth(rq: RetireQueue, i: nat, gpu: Gpu, d: Driver)
    requires rq.owner.Owner?
    ensures var rq' := UseSlot(rq, i, Length(gpu.lengths, rq.owner.queue), d).0;
      rq'.incarnation == rq.incarnation && rq.retiredGeneration <= rq'.retiredGeneration
    ensures Grew(gpu, gpu)
  {}

  lemma VisitCarries(w: World, i: nat, force: bool, d: Driver)
    requires Inv(w) && i < w.reg.count && SeenDone(w.reg.slots[i], w.gpu, d.seen)
    ensures var rq := w.reg.slots[i];
      Carries(w, i, Visit(rq, force, Length(w.gpu.lengths, rq.owner.queue), d), VisitGpu(rq, force, w.gpu, d))
  {
    var rq := w.reg.slots[i];
    assert SlotOk(rq, w.gpu, w.reg.counter);
    SubmitKeeps(w.gpu, rq.owner.queue);
    VisitKeepsSlot(rq, force, w.gpu, w.reg.counter, d);
    forall u | u in w.issued && TagOf(u.token) == i + 1 && Current(w.reg, u.token)
      ensures Tracks(Visit(rq, force, Length(w.gpu.lengths, rq.owner.queue), d), VisitGpu(rq, force, w.gpu, d), GenerationOf(u.token), u.work)
    {
      assert UseOk(w.reg, w.gpu, u);
      VisitTracks(rq, force, w.gpu, w.reg.counter, d, GenerationOf(u.token), u.work);
    }
  }

  lemma PeekKeeps(w: World, i: nat, force: bool, d: Driver)
    requires Inv(w) && May(w, PeekStep(i, force, d))
    ensures Inv(PeekDo(w, i, force, d))
  {
    var rq := w.reg.slots[i];
    VisitCarries(w, i, force, d);
    var rq' := Visit(rq, force, Length(w.gpu.lengths, rq.owner.queue), d);
    var v := WithSlot(w, i, rq', VisitGpu(rq, force, w.gpu, d));
    SlotReplaced(w, i, rq', VisitGpu(rq, force, w.gpu, d));
    assert Closes(Poll(rq, |rq.fences|, d.seen), d.barrierOk) ==> Poll(rq, |rq.fences|, d.seen).pendingUses > 0;
    StampAdded(v, i);
  }

  /** What a slot says now may be written down. */
  lemma StampAdded(v: World, i: nat)
    requires Inv(v) && i < v.reg.count
    ensures var rq := v.reg.slots[i]; Inv(v.(stamps := v.stamps + {(i, Stamp(rq.incarnation, rq.retiredGeneration))}))
  {
    var rq := v.reg.slots[i];
    var w' := v.(stamps := v.stamps + {(i, Stamp(rq.incarnation, rq.retiredGeneration))});
    assert SlotOk(rq, v.gpu, v.reg.counter);
    StampUnpacks(rq.incarnation, rq.retiredGeneration);
    FreshStampOk(v, i);
    forall s | s in w'.stamps ensures StampOk(w', s.0, s.1) { assert s in v.stamps ==> StampOk(v, s.0, s.1); }
    forall j | 0 <= j < |v.candidates| ensures CandidateOk(w', v.candidates[j]) { CandidateGrows(v, w', v.candidates[j]); }
  }

  lemma FreshStampOk(v: World, i: nat)
    requires Inv(v) && i < v.reg.count
    ensures StampOk(v, i, Stamp(v.reg.slots[i].incarnation, v.reg.slots[i].retiredGeneration))
  {
    var rq := v.reg.slots[i];
    assert SlotOk(rq, v.gpu, v.reg.counter);
    StampUnpacks(rq.incarnation, rq.retiredGeneration);
    var stamp := Stamp(rq.incarnation, rq.retiredGeneration);
    forall u | u in v.issued && Retires(i, stamp, u.token) ensures u.work in v.gpu.done { assert UseOk(v.reg, v.gpu, u); }
  }

  lemma TokenKeeps(w: World, work: Work, refused: bool, d: Driver)
    requires Inv(w) && TokenMay(w, work, refused, d)
    ensures Inv(TokenDo(w, work, refused, d))
  {
    var (noted, i) := Note(w.reg, work.queue, refused);
    NoteKeeps(w, work.queue, refused);
    var v := w.(reg := noted);
    if i < MAX_QUEUES {
      var rq := noted.slots[i];
      NotedIsHonest(w, work.queue, refused, d);
      UseCarries(v, i, d);
      var pos := Length(w.gpu.lengths, work.queue);
      var (rq', token) := UseSlot(rq, i, pos, d);
      SlotReplaced(v, i, rq', UseGpu(rq, w.gpu, d));
      var x := WithSlot(v, i, rq', UseGpu(rq, w.gpu, d));
      assert SlotOk(rq, v.gpu, v.reg.counter);
      IssuedIsTracked(rq, i, w.gpu, v.reg.counter, d, work);
      if token != 0 {
        assert SlotOk(x.reg.slots[i], x.gpu, x.reg.counter);
        IssueKeeps(x, Use(token, work));
      }
    }
  }

  /** The slot found or made for a queue is that queue's, and its events answer honestly. */
  lemma NotedIsHonest(w: World, queue: nat, refused: bool, d: Driver)
    requires Inv(w) && Note(w.reg, queue, refused).1 < MAX_QUEUES
    requires forall pos :: pos in d.seen ==> Work(queue, pos) in w.gpu.done
    ensures var (noted, i) := Note(w.reg, queue, refused);
      && i < noted.count && noted.slots[i].owner == Owner(queue) && w.reg.accepting
      && SeenDone(noted.slots[i], w.gpu, d.seen)
  {}

  // ---------------------------------------------------------------- draining and forgetting the registry

  lemma {:induction false} QueuesInclude(reg: Registry, k: nat, i: nat)
    requires i < k <= |reg.slots| && reg.slots[i].owner.Owner?
    ensures reg.slots[i].owner.queue in QueuesOf(reg, k)
  {
    if i < k - 1 { QueuesInclude(reg, k - 1, i); }
  }

  /** A wait that starts now covers every issued use that is not done yet. */
  lemma WaitCovers(w: World, u: Use)
    requires Inv(w) && u in w.issued
    ensures u.work in w.gpu.done || Covered(MarksNow(w), u.work)
  {
    assert UseOk(w.reg, w.gpu, u);
    if Current(w.reg, u.token) { QueuesInclude(w.reg, w.reg.count, TagOf(u.token) - 1); }
  }

  lemma DrainKeeps(w: World)
    requires Inv(w) && w.drain.Closing?
    ensures Inv(w.(drain := Draining(MarksNow(w))))
  {
    var w' := w.(drain := Draining(MarksNow(w)));
    forall u | u in w.issued ensures u.work in w.gpu.done || Covered(MarksNow(w), u.work) { WaitCovers(w, u); }
    forall s | s in w.stamps ensures StampOk(w', s.0, s.1) { assert StampOk(w, s.0, s.1); }
    forall j | 0 <= j < |w.candidates| ensures CandidateOk(w', w.candidates[j]) { CandidateGrows(w, w', w.candidates[j]); }
  }

  /** After a successful drain nothing issued is outstanding, so the registry may forget its queues. */
  lemma ResetKeeps(w: World)
    requires Inv(w) && w.drain.Draining? && MarksDone(w.drain.marks, w.gpu.done)
    ensures Inv(w.(reg := Reset(w.reg), drain := Calm))
  {
    var w' := w.(reg := Reset(w.reg), drain := Calm);
    forall u | u in w.issued ensures UseOk(w'.reg, w.gpu, u) {
      assert UseOk(w.reg, w.gpu, u);
      assert u.work == Work(u.work.queue, u.work.pos);
    }
    forall s | s in w.stamps ensures StampOk(w', s.0, s.1) { assert StampOk(w, s.0, s.1); }
    forall j | 0 <= j < |w.candidates| ensures CandidateOk(w', w.candidates[j]) { CandidateGrows(w, w', w.candidates[j]); }
  }

  // ---------------------------------------------------------------- page steps

  /** A changed page is not frozen any more, or newly frozen, or knows no more uses than it did. */
  predicate Keeps(page: Page, page': Page, uses: set<Use>, uses': set<Use>) {
    && page.generation <= page'.generation
    && (page'.evicting && page'.generation == page.generation ==>
          page.evicting && uses' <= uses && page'.unknown == page.unknown)
  }

  ghost predicate SameElsewhere(uses: map<nat, set<Use>>, uses': map<nat, set<Use>>, p: nat) {
    forall q :: q != p ==> (q in uses' <==> q in uses) && (q in uses' ==> uses'[q] == uses[q])
  }

  function WithPage(w: World, p: nat, page: Page, uses: map<nat, set<Use>>): World {
    w.(pages := w.pages[p := page], uses := uses)
  }

  ghost predicate PageFits(w: World, page: Page, uses: set<Use>) {
    TokensOk(page, w.issued) && forall u :: u in uses ==> Remembers(page, w.issued, u)
  }

  lemma PageReplaced(w: World, p: nat, page: Page, uses: map<nat, set<Use>>)
    requires Inv(w) && p in w.pages && SameElsewhere(w.uses, uses, p)
    requires Keeps(w.pages[p], page, UsesOf(w, p), if p in uses then uses[p] else {})
    requires PageFits(w, page, if p in uses then uses[p] else {}) && (page.evicting ==> IsMapped(page))
    ensures Inv(WithPage(w, p, page, uses))
  {
    var w' := WithPage(w, p, page, uses);
    forall q | q in w'.pages ensures TokensOk(w'.pages[q], w.issued) { assert q != p ==> TokensOk(w.pages[q], w.issued); }
    forall q, u | q in w'.pages && q in uses && u in uses[q] ensures Remembers(w'.pages[q], w.issued, u) {
      assert q != p ==> Remembers(w.pages[q], w.issued, u);
    }
    forall s | s in w.stamps ensures StampOk(w', s.0, s.1) { assert StampOk(w, s.0, s.1); }
    forall j | 0 <= j < |w.candidates| ensures CandidateOk(w', w.candidates[j]) {
      CandidateReplaced(w, p, page, uses, w.candidates[j]);
    }
  }

  lemma CandidateReplaced(w: World, p: nat, page: Page, uses: map<nat, set<Use>>, c: Candidate)
    requires CandidateOk(w, c) && p in w.pages && SameElsewhere(w.uses, uses, p)
    requires Keeps(w.pages[p], page, UsesOf(w, p), if p in uses then uses[p] else {})
    ensures CandidateOk(WithPage(w, p, page, uses), c)
  {
    if c.page != p { assert UsesOf(WithPage(w, p, page, uses), c.page) == UsesOf(w, c.page); }
  }

  lemma PageFitsNow(w: World, p: nat)
    requires Inv(w) && p in w.pages
    ensures PageFits(w, w.pages[p], UsesOf(w, p))
  {}

  /** Changing anything but tokens and poison leaves the page's memory of its uses alone. */
  lemma SameMemory(w: World, page: Page, page': Page, uses: set<Use>)
    requires PageFits(w, page, uses) && page'.tokens == page.tokens && (page.unknown ==> page'.unknown)
    ensures PageFits(w, page', uses)
  {
    forall u | u in uses ensures Remembers(page', w.issued, u) { assert Remembers(page, w.issued, u); }
    assert forall j :: 0 <= j < |page.tokens| ==> IssuedToken(w.issued, page.tokens[j]);
  }

  // ---------------------------------------------------------------- recording a use

  lemma RecordKeepsTokens(page: Page, issued: set<Use>, token: nat)
    requires TokensOk(page, issued) && (token != 0 ==> IssuedToken(issued, token))
    ensures TokensOk(RetireRecord(page, token), issued)
  {
    var r := RetireRecord(page, token);
    forall j | 0 <= j < |r.tokens| ensures IssuedToken(issued, r.tokens[j]) {
      if j < |page.tokens| { assert IssuedToken(issued, page.tokens[j]); }
    }
  }

  lemma RecordRemembersOld(page: Page, issued: set<Use>, token: nat, u: Use)
    requires Remembers(page, issued, u)
    ensures Remembers(RetireRecord(page, token), issued, u)
  {
    var r := RetireRecord(page, token);
    if !page.unknown && !r.unknown {
      var j :| 0 <= j < |page.tokens| && TagOf(page.tokens[j]) == TagOf(u.token) && u.token <= page.tokens[j];
      assert j < |r.tokens| && TagOf(r.tokens[j]) == TagOf(u.token) && u.token <= r.tokens[j];
    }
  }

  lemma RecordRemembersNew(page: Page, issued: set<Use>, u: Use)
    requires u in issued && u.token != 0
    ensures Remembers(RetireRecord(page, u.token), issued, u)
  {
    var r := RetireRecord(page, u.token);
    var i := FindTag(page.tokens, TagOf(u.token), 0);
    if i < |page.tokens| {
      assert u.token <= r.tokens[i] && TagOf(r.tokens[i]) == TagOf(u.token);
    } else if !r.unknown {
      assert r.tokens[|page.tokens|] == u.token;
    }
  }

  /** Consuming with a use: what was remembered still is, and the use is too unless a capture hides it. */
  lemma ConsumeFits(w: World, page: Page, uses: set<Use>, u: Use, shields: bool)
    requires PageFits(w, page, uses) && InHand(w, u)
    ensures PageFits(w, Consume(page, u.token, shields), uses)
    ensures (u.token == 0 && shields && page.capture > 0) || PageFits(w, Consume(page, u.token, shields), uses + {u})
  {
    var q := CancelEviction(page);
    SameMemory(w, page, q, uses);
    if u.token != 0 {
      RecordKeepsTokens(q, w.issued, u.token);
      RecordRemembersNew(q, w.issued, u);
      forall v | v in uses ensures Remembers(RetireRecord(q, u.token), w.issued, v) {
        RecordRemembersOld(q, w.issued, u.token, v);
      }
    } else {
      SameMemory(w, q, q.(unknown := true), uses);
    }
  }

  /** A page that was consumed is not frozen. */
  lemma ConsumeThaws(page: Page, token: nat, shields: bool)
    ensures !Consume(page, token, shields).evicting && page.generation <= Consume(page, token, shields).generation
  {}

  lemma ConsumeKeeps(w: World, p: nat, u: Use, shields: bool, page: Page)
    requires Inv(w) && p in w.pages && InHand(w, u)
    requires page.tokens == Consume(w.pages[p], u.token, shields).tokens
    requires page.unknown == Consume(w.pages[p], u.token, shields).unknown
    requires !page.evicting && page.generation == Consume(w.pages[p], u.token, shields).generation
    ensures Inv(SetPage(ConsumeDo(w, p, u, shields), p, page))
  {
    PageFitsNow(w, p);
    var uses := ConsumeDo(w, p, u, shields).uses;
    ConsumeFits(w, w.pages[p], UsesOf(w, p), u, shields);
    ConsumeThaws(w.pages[p], u.token, shields);
    SameMemory(w, Consume(w.pages[p], u.token, shields), page, if p in uses then uses[p] else {});
    PageReplaced(w, p, page, uses);
    var x := Consume(w.pages[p], u.token, shields);
    assert w.pages[p := x][p := page] == w.pages[p := page];
  }

  /** Steps that change a page's pins, holds or mapping but not what it remembers. */
  lemma SamePageKeeps(w: World, p: nat, page: Page)
    requires Inv(w) && p in w.pages
    requires page.tokens == w.pages[p].tokens && (w.pages[p].unknown ==> page.unknown)
    requires Keeps(w.pages[p], page, UsesOf(w, p), UsesOf(w, p)) && (page.evicting ==> IsMapped(page))
    ensures Inv(SetPage(w, p, page))
  {
    PageFitsNow(w, p);
    SameMemory(w, w.pages[p], page, UsesOf(w, p));
    PageReplaced(w, p, page, w.uses);
  }

  lemma NewPageKeeps(w: World)
    requires Inv(w)
    ensures Inv(PageDo(w, NewPageStep))
  {
    var w' := PageDo(w, NewPageStep);
    forall s | s in w.stamps ensures StampOk(w', s.0, s.1) { assert StampOk(w, s.0, s.1); }
    forall j | 0 <= j < |w.candidates| ensures CandidateOk(w', w.candidates[j]) { assert CandidateOk(w, w.candidates[j]); }
  }

  lemma ForgetKeeps(w: World, p: nat)
    requires Inv(w)
    ensures Inv(w.(pages := w.pages - {p}))
  {
    var w' := w.(pages := w.pages - {p});
    forall s | s in w.stamps ensures StampOk(w', s.0, s.1) { assert StampOk(w, s.0, s.1); }
    forall j | 0 <= j < |w.candidates| ensures CandidateOk(w', w.candidates[j]) { assert CandidateOk(w, w.candidates[j]); }
  }

  /** Freeing a page forgets its tokens and its uses together. */
  lemma EvictKeeps(w: World, p: nat, reply: EvictReply)
    requires Inv(w) && p in w.pages
    ensures Inv(SetPage(w, p, Evict(w.pages[p], reply)).(uses := if reply.Freed? then w.uses[p := {}] else w.uses))
  {
    PageFitsNow(w, p);
    var uses := if reply.Freed? then w.uses[p := {}] else w.uses;
    if !reply.Freed? { SameMemory(w, w.pages[p], Evict(w.pages[p], reply), UsesOf(w, p)); }
    PageReplaced(w, p, Evict(w.pages[p], reply), uses);
  }

  lemma PinStepKeeps(w: World, p: nat)
    requires Inv(w) && p in w.pages
    ensures Inv(SetPage(w, p, CancelEviction(w.pages[p]).(pins := w.pages[p].pins + 1)))
    ensures w.pages[p].pins > 0 ==> Inv(SetPage(w, p, w.pages[p].(pins := w.pages[p].pins - 1)))
  {
    SamePageKeeps(w, p, CancelEviction(w.pages[p]).(pins := w.pages[p].pins + 1));
    if w.pages[p].pins > 0 { SamePageKeeps(w, p, w.pages[p].(pins := w.pages[p].pins - 1)); }
  }

  lemma CreateStepKeeps(w: World, p: nat, handle: nat)
    requires Inv(w) && p in w.pages
    ensures Inv(SetPage(w, p, w.pages[p].(handle := handle, mapping := Mapped, evicting := false,
                                          serial := w.pages[p].serial + 1, pins := w.pages[p].pins + 1)))
  {
    SamePageKeeps(w, p, w.pages[p].(handle := handle, mapping := Mapped, evicting := false,
                                    serial := w.pages[p].serial + 1, pins := w.pages[p].pins + 1));
  }

  lemma AcquireStepKeeps(w: World, p: nat, kind: Kind)
    requires Inv(w) && p in w.pages
    ensures Inv(SetPage(w, p, SetHolds(CancelEviction(w.pages[p]), kind, HoldsOf(w.pages[p], kind) + 1)))
  {
    SamePageKeeps(w, p, SetHolds(CancelEviction(w.pages[p]), kind, HoldsOf(w.pages[p], kind) + 1));
  }

  lemma MappingStepKeeps(w: World, s: Step)
    requires Inv(w) && PageMay(w, s) && (s.RestoreStep? || s.LoseStep? || s.FreeIdleStep?)
    ensures Inv(PageDo(w, s))
  {
    match s
    case RestoreStep(p) => SamePageKeeps(w, p, w.pages[p].(mapping := Mapped));
    case LoseStep(p, page') => SamePageKeeps(w, p, page');
    case FreeIdleStep(p, reply) => EvictKeeps(w, p, reply);
  }

  lemma UnpinStepKeeps(w: World, p: nat, use: Use)
    requires Inv(w) && PageMay(w, UnpinStep(p, use))
    ensures Inv(PageDo(w, UnpinStep(p, use)))
  {
    ConsumeThaws(w.pages[p], use.token, true);
    ConsumeKeeps(w, p, use, true, Consume(w.pages[p], use.token, true).(pins := w.pages[p].pins - 1));
  }

  lemma RegisterStepKeeps(w: World, p: nat, use: Use)
    requires Inv(w) && PageMay(w, RegisterStep(p, use))
    ensures Inv(PageDo(w, RegisterStep(p, use)))
  {
    ConsumeThaws(w.pages[p], use.token, true);
    ConsumeKeeps(w, p, use, true, Consume(w.pages[p], use.token, true));
    assert SetPage(ConsumeDo(w, p, use, true), p, Consume(w.pages[p], use.token, true)) == ConsumeDo(w, p, use, true);
  }

  lemma ReleaseStepKeeps(w: World, p: nat, kind: Kind, use: Use)
    requires Inv(w) && PageMay(w, ReleaseStep(p, kind, use))
    ensures Inv(PageDo(w, ReleaseStep(p, kind, use)))
  {
    ConsumeThaws(w.pages[p], use.token, false);
    ConsumeKeeps(w, p, use, false, SetHolds(Consume(w.pages[p], use.token, false), kind, HoldsOf(w.pages[p], kind) - 1));
  }

  /** The steps of the pages other than freezing. */
  predicate OnPage(s: Step) {
    s.NewPageStep? || s.ForgetPageStep? || s.PinStep? || s.CreateStep? || s.RestoreStep? || s.LoseStep? ||
    s.DropPinStep? || s.UnpinStep? || s.RegisterStep? || s.AcquireStep? || s.ReleaseStep? || s.FreeIdleStep?
  }

  lemma LeaseStepKeeps(w: World, s: Step)
    requires Inv(w) && PageMay(w, s) && (s.PinStep? || s.DropPinStep? || s.CreateStep? || s.AcquireStep?)
    ensures Inv(PageDo(w, s))
  {
    hide Inv;
    match s
    case PinStep(p) => PinStepKeeps(w, p);
    case DropPinStep(p) => PinStepKeeps(w, p);
    case CreateStep(p, handle) => CreateStepKeeps(w, p, handle);
    case AcquireStep(p, kind) => AcquireStepKeeps(w, p, kind);
  }

  lemma PageStepKeeps(w: World, s: Step)
    requires Inv(w) && PageMay(w, s) && OnPage(s)
    ensures Inv(PageDo(w, s))
  {
    if s.NewPageStep? { NewPageKeeps(w); }
    else if s.ForgetPageStep? { ForgetKeeps(w, s.page); }
    else if s.UnpinStep? { UnpinStepKeeps(w, s.page, s.use); }
    else if s.RegisterStep? { RegisterStepKeeps(w, s.page, s.use); }
    else if s.ReleaseStep? { ReleaseStepKeeps(w, s.page, s.kind, s.use); }
    else if s.RestoreStep? || s.LoseStep? || s.FreeIdleStep? { MappingStepKeeps(w, s); }
    else { LeaseStepKeeps(w, s); }
  }

  // ---------------------------------------------------------------- candidates

  /** A new candidate, or a new stage of one, that is sound. */
  lemma CandidatesReplaced(w: World, cs: seq<Candidate>)
    requires Inv(w) && forall j :: 0 <= j < |cs| ==> CandidateOk(w, cs[j])
    ensures Inv(w.(candidates := cs))
  {
    var w' := w.(candidates := cs);
    forall s | s in w.stamps ensures StampOk(w', s.0, s.1) { assert StampOk(w, s.0, s.1); }
    forall j | 0 <= j < |cs| ensures CandidateOk(w', cs[j]) { CandidateGrows(w, w', cs[j]); }
  }

  lemma StageKeeps(w: World, c: nat, stage: Stage)
    requires Inv(w) && c < |w.candidates| && CandidateOk(w, w.candidates[c].(stage := stage))
    ensures Inv(SetStage(w, c, stage))
  {
    var cs := w.candidates[c := w.candidates[c].(stage := stage)];
    forall j | 0 <= j < |cs| ensures CandidateOk(w, cs[j]) { assert CandidateOk(w, w.candidates[j]); }
    CandidatesReplaced(w, cs);
  }

  lemma FreezeKeeps(w: World, p: nat, stage: Stage)
    requires Inv(w) && p in w.pages && Idle(w.pages[p])
    requires (stage == Frozen && !w.pages[p].unknown) || (stage == Ready && UsesDone(w, p))
    ensures Inv(SetStage(Freeze(w, p), |w.candidates|, stage)) && (stage == Frozen ==> Inv(Freeze(w, p)))
  {
    var page := w.pages[p].(evicting := true, generation := w.pages[p].generation + 1);
    SamePageKeeps(w, p, page);
    var v := SetPage(w, p, page);
    var cs := w.candidates + [Candidate(p, page.handle, page.serial, page.generation, stage)];
    assert UsesOf(v, p) == UsesOf(w, p);
    forall j | 0 <= j < |cs| ensures CandidateOk(v, cs[j]) {
      if j < |w.candidates| { assert CandidateOk(v, v.candidates[j]); }
    }
    CandidatesReplaced(v, cs);
    assert SetStage(Freeze(w, p), |w.candidates|, stage).candidates == cs;
  }

  lemma WaitKeeps(w: World, c: nat)
    requires Inv(w) && May(w, WaitStep(c))
    ensures Inv(SetStage(w, c, Waiting(MarksNow(w))))
  {
    var cand := w.candidates[c];
    assert CandidateOk(w, cand);
    if cand.page in w.pages && StillFrozen(w.pages[cand.page], cand) {
      forall u | u in UsesOf(w, cand.page) ensures Settled(u, w.gpu.done) || Covered(MarksNow(w), u.work) {
        assert Remembers(w.pages[cand.page], w.issued, u);
        WaitCovers(w, u);
      }
    }
    StageKeeps(w, c, Waiting(MarksNow(w)));
  }

  lemma WaitedKeeps(w: World, c: nat)
    requires Inv(w) && May(w, WaitedStep(c, true))
    ensures Inv(SetStage(w, c, Ready))
  {
    var cand := w.candidates[c];
    assert CandidateOk(w, cand);
    if cand.page in w.pages && StillFrozen(w.pages[cand.page], cand) {
      forall u | u in UsesOf(w, cand.page) ensures Settled(u, w.gpu.done) {
        assert u.work == Work(u.work.queue, u.work.pos);
      }
    }
    StageKeeps(w, c, Ready);
  }

  lemma CancelKeeps(w: World, c: nat)
    requires Inv(w) && c < |w.candidates|
    ensures Inv(CancelDo(w, c))
  {
    var cand := w.candidates[c];
    assert CandidateOk(w, cand);
    StageKeeps(w, c, Spent);
    var spent := SetStage(w, c, Spent);
    if cand.page in w.pages && StillFrozen(w.pages[cand.page], cand) {
      SamePageKeeps(spent, cand.page, CancelEviction(w.pages[cand.page]));
    }
  }

  lemma CommitKeeps(w: World, c: nat, reply: EvictReply)
    requires Inv(w) && c < |w.candidates|
    ensures Inv(CommitDo(w, c, reply))
  {
    var cand := w.candidates[c];
    assert CandidateOk(w, cand);
    StageKeeps(w, c, Spent);
    var spent := SetStage(w, c, Spent);
    if cand.page in w.pages {
      var page := w.pages[cand.page];
      if Committable(page, cand) {
        EvictKeeps(spent, cand.page, reply);
      } else if StillFrozen(page, cand) {
        SamePageKeeps(spent, cand.page, if StopsLate(page, cand) then page.(evicting := false) else CancelEviction(page));
      }
    }
  }

  // ---------------------------------------------------------------- the theorem

  predicate OnDevice(s: Step) {
    s.SubmitStep? || s.CompleteStep? || s.AcceptStep? || s.NoteStep? || s.TokenStep? || s.PeekStep?
  }

  lemma DeviceStepKeeps(w: World, s: Step)
    requires Inv(w) && May(w, s) && OnDevice(s)
    ensures Inv(Do(w, s))
  {
    match s
    case SubmitStep(queue) => SubmitKeeps(w.gpu, queue); DeviceGrows(w, Submit(w.gpu, queue));
    case CompleteStep(work) => CompleteKeeps(w.gpu, work); DeviceGrows(w, w.gpu.(done := w.gpu.done + {work}));
    case AcceptStep => AcceptKeeps(w, true, w.drain);
    case NoteStep(queue, refused) => NoteKeeps(w, queue, refused);
    case TokenStep(work, refused, d) => TokenKeeps(w, work, refused, d);
    case PeekStep(i, force, d) => PeekKeeps(w, i, force, d);
  }

  lemma DrainStepKeeps(w: World, s: Step)
    requires Inv(w) && May(w, s) && (s.CloseStep? || s.DrainStep? || s.DrainedStep?)
    ensures Inv(Do(w, s))
  {
    match s
    case CloseStep => AcceptKeeps(w, false, Closing);
    case DrainStep => DrainKeeps(w);
    case DrainedStep(ok) => if ok { ResetKeeps(w); } else { AcceptKeeps(w, w.reg.accepting, Calm); }
  }

  lemma FreezeStepKeeps(w: World, s: Step)
    requires Inv(w) && s.FreezeStep? && May(w, s)
    ensures Inv(Do(w, s))
  {
    hide Inv;
    RetiredMeansDone(w, s.page, s.completed);
    FreezeKeeps(w, s.page, Ready);
  }

  lemma FreezesKeep(w: World, s: Step)
    requires Inv(w) && May(w, s) && (s.FreezeStep? || s.FreezeReferenceStep?)
    ensures Inv(Do(w, s))
  {
    hide Inv;
    match s
    case FreezeStep(_, _) => FreezeStepKeeps(w, s);
    case FreezeReferenceStep(p) => FreezeKeeps(w, p, Frozen);
  }

  lemma ReclaimStepKeeps(w: World, s: Step)
    requires Inv(w) && May(w, s)
    requires s.FreezeStep? || s.FreezeReferenceStep? || s.WaitStep? || s.WaitedStep? || s.CommitStep?
    ensures Inv(Do(w, s))
  {
    hide Inv;
    if s.FreezeStep? || s.FreezeReferenceStep? {
      hide May, Do;
      FreezesKeep(w, s);
    } else {
      match s
      case WaitStep(c) => WaitKeeps(w, c);
      case WaitedStep(c, ok) => if ok { WaitedKeeps(w, c); } else { CancelKeeps(w, c); }
      case CommitStep(c, reply) => CommitKeeps(w, c, reply);
    }
  }

  lemma StepKeeps(w: World, s: Step)
    requires Inv(w)
    ensures Inv(Next(w, s))
  {
    hide Inv;
    if May(w, s) {
      if OnDevice(s) { DeviceStepKeeps(w, s); }
      else if OnPage(s) { PageStepKeeps(w, s); assert Do(w, s) == PageDo(w, s); }
      else if s.CloseStep? || s.DrainStep? || s.DrainedStep? { DrainStepKeeps(w, s); }
      else { ReclaimStepKeeps(w, s); }
    }
  }

  /** The driver's unmap is reached only for a page all of whose recorded uses are done. */
  lemma UnmapIsSafe(w: World, s: Step)
    requires Inv(w) && Unmaps(w, s)
    ensures UsesDone(w, w.candidates[s.candidate].page)
  {
    assert CandidateOk(w, w.candidates[s.candidate]);
  }

  function RunWorld(w: World, steps: seq<Step>): World
    decreases |steps|
  {
    if steps == [] then w else RunWorld(Next(w, steps[0]), steps[1..])
  }

  /** No step of the run unmaps a page with an unfinished recorded use. */
  predicate NeverUnmapsEarly(w: World, steps: seq<Step>)
    decreases |steps|
  {
    steps == [] ||
    ((Unmaps(w, steps[0]) ==> UsesDone(w, w.candidates[steps[0].candidate].page)) &&
     NeverUnmapsEarly(Next(w, steps[0]), steps[1..]))
  }

  lemma {:induction false} RunIsSafe(w: World, steps: seq<Step>)
    requires Inv(w)
    ensures Inv(RunWorld(w, steps)) && NeverUnmapsEarly(w, steps)
    decreases |steps|
  {
    if steps != [] {
      StepKeeps(w, steps[0]);
      if Unmaps(w, steps[0]) { UnmapIsSafe(w, steps[0]); }
      RunIsSafe(Next(w, steps[0]), steps[1..]);
    }
  }

  /** In every interleaving from the start. */
  lemma ReclaimIsSafe(steps: seq<Step>)
    ensures NeverUnmapsEarly(Initial(), steps)
  {
    InitialInv();
    RunIsSafe(Initial(), steps);
  }

  /** And it does reclaim: a page whose tokens a snapshot completes is freed if nothing comes between. */
  lemma RetiredPageIsReclaimed(w: World, p: nat, completed: seq<nat>)
    requires May(w, FreezeStep(p, completed))
    ensures var v := Next(w, FreezeStep(p, completed));
      && Unmaps(v, CommitStep(|w.candidates|, Freed)) && v.candidates[|w.candidates|].page == p
      && var x := Next(v, CommitStep(|w.candidates|, Freed));
         p in x.pages && x.pages[p].handle == 0 && x.pages[p].tokens == [] && UsesOf(x, p) == {}
  {
    var v := Next(w, FreezeStep(p, completed));
    assert v.candidates[|w.candidates|].stage == Ready;
    assert Committable(v.pages[p], v.candidates[|w.candidates|]);
  }

  /** A use recorded between the freeze and the commit saves the page. */
  lemma UseSavesPage(w: World, p: nat, completed: seq<nat>, use: Use)
    requires May(w, FreezeStep(p, completed)) && InHand(w, use)
    ensures var v := Next(Next(w, FreezeStep(p, completed)), PinStep(p));
      && May(v, UnpinStep(p, use))
      && !Unmaps(Next(v, UnpinStep(p, use)), CommitStep(|w.candidates|, Freed))
  {
    var f := Next(w, FreezeStep(p, completed));
    var v := Next(f, PinStep(p));
    assert v.pages[p].pins == 1 && !v.pages[p].evicting;
    ConsumeThaws(v.pages[p], use.token, true);
  }
}
