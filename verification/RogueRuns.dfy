/**
  What becomes of a hand-off, over whole runs: a candidate that nobody freed since it was
  registered ends as a listed rogue with the references made for it, one that was freed ends
  undone, and a rogue stays listed until the late free that drops every reference it holds.
*/
module RogueRuns {
  import opened RefModel
  import opened RogueModel
  import opened RogueSafety

  // ---------------------------------------------------------------- a candidate that waits for its hand-off

  /** The newest candidate of the pointer is waiting for its hand-off, freed by its owner or not. */
  ghost predicate Waits(w: World, ptr: nat, freed: bool) {
    exists i :: FirstCandidate(w.registry.candidates, ptr, i) && w.registry.candidates[i] == Candidate(ptr, freed)
  }

  predicate NoRogueAt(w: World, ptr: nat) {
    forall i :: 0 <= i < |w.registry.rogues| ==> w.registry.rogues[i].ptr != ptr
  }

  /** The step does not register, unregister or decide a candidate of the pointer. */
  predicate Ignores(w: World, s: Step, ptr: nat) {
    && s != RegisterStep(ptr) && s != UnregisterStep(ptr)
    && !(s.HandoffDecide? && s.id in w.handoffs && w.handoffs[s.id].ptr == ptr)
  }

  lemma FirstAfterRemoval(candidates: seq<Candidate>, ptr: nat, i: int, k: nat)
    requires FirstCandidate(candidates, ptr, i) && k < |candidates| && k != i
    ensures var j := if k < i then i - 1 else i;
      FirstCandidate(RemoveAt(candidates, k), ptr, j) && RemoveAt(candidates, k)[j] == candidates[i]
  {}

  lemma RegisteredWaits(w: World, ptr: nat)
    ensures Waits(Next(w, RegisterStep(ptr)), ptr, false)
  {
    assert FirstCandidate(Next(w, RegisterStep(ptr)).registry.candidates, ptr, 0);
  }

  // ---------------------------------------------------------------- what each step does to the lists

  predicate TouchesLists(s: Step) {
    s.RegisterStep? || s.UnregisterStep? || s.HandoffDecide? || s.FreeBegin? || s.FreeEnd?
  }

  lemma ListsUntouched(w: World, s: Step)
    requires !TouchesLists(s)
    ensures Next(w, s).registry == w.registry
  {
    hide PageUnref, MapReference, PageRef, PageAlloc, RangeUnref, SetAddress, Decide, BeginFree, EndFree;
    if May(w, s) {
      match s
      case HandoffRef(_, _) =>
      case HandoffUndo(_, _, _) =>
      case FreePage(_, _) =>
      case _ =>
    }
  }

  lemma MarkedLists(g: Registry, p: nat, ptr: nat, i: int)
    requires FirstCandidate(g.candidates, ptr, i) && (p == ptr ==> forall k :: 0 <= k < |g.rogues| ==> g.rogues[k].ptr != ptr)
    ensures var c := BeginFree(g, p).0.candidates;
      FirstCandidate(c, ptr, i) && c[i] == Candidate(ptr, g.candidates[i].freed || p == ptr)
  {}

  lemma ClaimedLists(g: Registry, p: nat)
    ensures var r := BeginFree(g, p).0.rogues; |r| == |g.rogues| && forall k :: 0 <= k < |r| ==> r[k].ptr == g.rogues[k].ptr
  {}

  /** A late free marks the waiting candidate, unless a rogue is listed for the pointer. */
  lemma FreeMarks(w: World, p: nat, ptr: nat, freed: bool)
    requires Waits(w, ptr, freed) && (p == ptr ==> NoRogueAt(w, ptr))
    ensures Waits(Next(w, FreeBegin(p)), ptr, freed || p == ptr)
    ensures NoRogueAt(w, ptr) ==> NoRogueAt(Next(w, FreeBegin(p)), ptr)
  {
    assert Next(w, FreeBegin(p)).registry == BeginFree(w.registry, p).0;
    hide Next, BeginFree, FirstCandidate;
    var i :| FirstCandidate(w.registry.candidates, ptr, i) && w.registry.candidates[i] == Candidate(ptr, freed);
    MarkedLists(w.registry, p, ptr, i);
    ClaimedLists(w.registry, p);
  }

  lemma UnregisterLeaves(w: World, p: nat, ptr: nat, freed: bool)
    requires Waits(w, ptr, freed) && p != ptr
    ensures Waits(Next(w, UnregisterStep(p)), ptr, freed)
  {
    var i :| FirstCandidate(w.registry.candidates, ptr, i) && w.registry.candidates[i] == Candidate(ptr, freed);
    var k := FindCandidate(w.registry.candidates, p, 0);
    if k < |w.registry.candidates| {
      FirstAfterRemoval(w.registry.candidates, ptr, i, k);
    }
  }

  lemma RegisterLeaves(w: World, p: nat, ptr: nat, freed: bool)
    requires Waits(w, ptr, freed) && p != ptr
    ensures Waits(Next(w, RegisterStep(p)), ptr, freed)
  {
    var i :| FirstCandidate(w.registry.candidates, ptr, i) && w.registry.candidates[i] == Candidate(ptr, freed);
    var after := Next(w, RegisterStep(p)).registry.candidates;
    assert forall j :: 0 < j < |after| ==> after[j] == w.registry.candidates[j - 1];
    assert FirstCandidate(after, ptr, i + 1);
  }

  lemma DecideLeaves(w: World, id: nat, ptr: nat, freed: bool)
    requires Waits(w, ptr, freed) && HandoffMay(w, HandoffDecide(id)) && w.handoffs[id].ptr != ptr
    ensures Waits(Next(w, HandoffDecide(id)), ptr, freed)
    ensures NoRogueAt(w, ptr) ==> NoRogueAt(Next(w, HandoffDecide(id)), ptr)
  {
    var g := Decide(w.registry, RogueOf(w, id)).0;
    assert Next(w, HandoffDecide(id)).registry == g;
    hide Next, HandoffMay;
    DecidedRogues(w.registry, RogueOf(w, id));
    var i :| FirstCandidate(w.registry.candidates, ptr, i) && w.registry.candidates[i] == Candidate(ptr, freed);
    var k := FindCandidate(w.registry.candidates, w.handoffs[id].ptr, 0);
    if k < |w.registry.candidates| {
      assert g.candidates == RemoveAt(w.registry.candidates, k);
      hide Decide, RemoveAt;
      FirstAfterRemoval(w.registry.candidates, ptr, i, k);
    }
  }

  lemma DecidedRogues(g: Registry, rogue: Rogue)
    ensures forall i :: 0 <= i < |Decide(g, rogue).0.rogues| ==>
              Decide(g, rogue).0.rogues[i] == rogue || Decide(g, rogue).0.rogues[i] in g.rogues
  {}

  lemma EndLeaves(w: World, s: Step, ptr: nat, freed: bool)
    requires Waits(w, ptr, freed) && s.FreeEnd?
    ensures Waits(Next(w, s), ptr, freed) && (NoRogueAt(w, ptr) ==> NoRogueAt(Next(w, s), ptr))
  {
    hide RangeUnref;
    if May(w, s) { assert Next(w, s).registry == EndFree(w.registry, s.id); }
    hide May, FreeDo;
  }

  lemma StillWaits(w: World, s: Step, ptr: nat, freed: bool)
    requires Waits(w, ptr, freed) && Ignores(w, s, ptr) && (s == FreeBegin(ptr) ==> NoRogueAt(w, ptr))
    ensures Waits(Next(w, s), ptr, freed || s == FreeBegin(ptr))
    ensures NoRogueAt(w, ptr) ==> NoRogueAt(Next(w, s), ptr)
  {
    hide Waits, FirstCandidate;
    if !TouchesLists(s) {
      ListsUntouched(w, s);
      SameLists(w, Next(w, s), ptr, freed);
    } else {
      match s
      case RegisterStep(p) => RegisterLeaves(w, p, ptr, freed);
      case UnregisterStep(p) => UnregisterLeaves(w, p, ptr, freed);
      case HandoffDecide(id) => if HandoffMay(w, s) { DecideLeaves(w, id, ptr, freed); }
      case FreeBegin(p) => FreeMarks(w, p, ptr, freed);
      case FreeEnd(_, _) => EndLeaves(w, s, ptr, freed);
    }
  }

  lemma SameLists(w: World, w': World, ptr: nat, freed: bool)
    requires w'.registry == w.registry
    ensures Waits(w', ptr, freed) <==> Waits(w, ptr, freed)
    ensures NoRogueAt(w', ptr) <==> NoRogueAt(w, ptr)
  {}

  // ---------------------------------------------------------------- from the registration to the decision

  /** None of the steps registers, unregisters or decides a candidate of the pointer. */
  predicate AllIgnore(w: World, steps: seq<Step>, ptr: nat)
    decreases |steps|
  {
    steps == [] || (Ignores(w, steps[0], ptr) && AllIgnore(Next(w, steps[0]), steps[1..], ptr))
  }

  lemma {:induction false} WaitsThrough(w: World, steps: seq<Step>, ptr: nat, freed: bool)
    requires Waits(w, ptr, freed) && AllIgnore(w, steps, ptr) && (FreeBegin(ptr) in steps ==> NoRogueAt(w, ptr))
    ensures Waits(Run(w, steps), ptr, freed || FreeBegin(ptr) in steps)
    decreases |steps|
  {
    if steps != [] {
      assert steps == [steps[0]] + steps[1..];
      StillWaits(w, steps[0], ptr, freed);
      hide Waits, Next, NoRogueAt;
      WaitsThrough(Next(w, steps[0]), steps[1..], ptr, freed || steps[0] == FreeBegin(ptr));
    }
  }

  /** The hand-off became a listed rogue with the references made for it. */
  predicate BecameRogue(w: World, r: World, id: nat)
    requires id in w.handoffs
  {
    && r.registry.rogues == [Rogue(id, w.handoffs[id].range, w.handoffs[id].ptr, w.handoffs[id].made, false)] + w.registry.rogues
    && r.handoffs == w.handoffs - {id} && r.store == w.store && r.owner == w.owner && r.holders == w.holders
  }

  /** The hand-off is to be undone from its first reference on, and no rogue was listed. */
  predicate BecameUndone(w: World, r: World, id: nat)
    requires id in w.handoffs
  {
    && r.registry.rogues == w.registry.rogues
    && r.handoffs == w.handoffs[id := w.handoffs[id].(stage := Undoing(0, true))] && r.store == w.store && r.owner == w.owner
  }

  lemma DecisionFollows(w: World, id: nat, freed: bool)
    requires HandoffMay(w, HandoffDecide(id)) && Waits(w, w.handoffs[id].ptr, freed)
    ensures var r := Next(w, HandoffDecide(id)); if freed then BecameUndone(w, r, id) else BecameRogue(w, r, id)
  {
    var ptr := w.handoffs[id].ptr;
    var i :| FirstCandidate(w.registry.candidates, ptr, i) && w.registry.candidates[i] == Candidate(ptr, freed);
    assert i == FindCandidate(w.registry.candidates, ptr, 0);
  }

  /** A pointer that nobody registered is not taken over. */
  lemma UnknownIsUndone(w: World, id: nat)
    requires HandoffMay(w, HandoffDecide(id)) && NoCandidate(w.registry.candidates, w.handoffs[id].ptr)
    ensures BecameUndone(w, Next(w, HandoffDecide(id)), id)
  {}

  /**
    From the registration of a candidate, through any steps of anybody that do not register,
    unregister or decide one of the same pointer, to the decision: if nobody freed the pointer
    meanwhile the hand-off becomes a rogue with the references made, and if somebody did it is undone.
  */
  lemma HandoffFollowsFrees(w: World, steps: seq<Step>, ptr: nat, id: nat)
    requires var v := Next(w, RegisterStep(ptr)); AllIgnore(v, steps, ptr) && (FreeBegin(ptr) in steps ==> NoRogueAt(w, ptr))
    requires var v := Run(Next(w, RegisterStep(ptr)), steps); HandoffMay(v, HandoffDecide(id)) && v.handoffs[id].ptr == ptr
    ensures var v := Run(Next(w, RegisterStep(ptr)), steps);
      var r := Next(v, HandoffDecide(id));
      if FreeBegin(ptr) in steps then BecameUndone(v, r, id) else BecameRogue(v, r, id)
  {
    var v := Next(w, RegisterStep(ptr));
    RegisteredWaits(w, ptr);
    assert v.registry.rogues == w.registry.rogues;
    WaitsThrough(v, steps, ptr, false);
    hide Waits, BecameUndone, BecameRogue;
    DecisionFollows(Run(v, steps), id, FreeBegin(ptr) in steps);
  }

  // ---------------------------------------------------------------- a declined hand-off

  predicate NotListed(w: World, id: nat) {
    forall i :: 0 <= i < |w.registry.rogues| ==> w.registry.rogues[i].id != id
  }

  /** The first references were dropped, or all of them when the hand-off is over; it is no rogue. */
  predicate Declined(w: World, id: nat, made: seq<nat>) {
    && id < w.nextId && NotListed(w, id)
    && if id in w.handoffs then
         && w.handoffs[id].made == made && w.handoffs[id].stage.Undoing? && w.handoffs[id].stage.next <= |made|
         && forall j :: 0 <= j < w.handoffs[id].stage.next ==> made[j] in w.drops
       else forall j :: 0 <= j < |made| ==> made[j] in w.drops
  }

  predicate OfHandoff(s: Step, id: nat) {
    match s
    case HandoffRef(i, _) => i == id
    case HandoffName(i) => i == id
    case HandoffRange(i) => i == id
    case HandoffDecide(i) => i == id
    case HandoffUndo(i, _, _) => i == id
    case _ => false
  }

  lemma DropsStay(w: World, s: Step, d: nat)
    requires d in w.drops
    ensures d in Next(w, s).drops
  {
    hide PageUnref, MapReference, PageRef, PageAlloc, RangeUnref, SetAddress, Decide, BeginFree, EndFree;
    if May(w, s) {
      match s
      case HandoffRef(_, _) =>
      case HandoffUndo(_, _, _) =>
      case FreePage(_, _) =>
      case _ =>
    }
  }

  /** Nobody else touches a hand-off. */
  lemma HandoffStays(w: World, s: Step, id: nat)
    requires id < w.nextId && !OfHandoff(s, id)
    ensures var r := Next(w, s);
      id < r.nextId && (id in r.handoffs <==> id in w.handoffs) && (id in w.handoffs ==> r.handoffs[id] == w.handoffs[id])
  {
    hide PageUnref, MapReference, PageRef, PageAlloc, RangeUnref, SetAddress, Decide, BeginFree, EndFree, Register, Unregister;
    if May(w, s) {
      if ByGraph(s) { SameHandoffs(w, s); }
      else if ByFree(s) { SameHandoffsFree(w, s); }
      else {
        match s
        case HandoffRef(_, _) =>
        case HandoffUndo(_, _, _) =>
        case _ =>
      }
    }
  }

  lemma SameIds(g: Registry, p: nat)
    ensures var r := BeginFree(g, p).0.rogues; |r| == |g.rogues| && forall k :: 0 <= k < |r| ==> r[k].id == g.rogues[k].id
  {}

  lemma FewerIds(g: Registry, id: nat)
    ensures forall k :: 0 <= k < |EndFree(g, id).rogues| ==> EndFree(g, id).rogues[k] in g.rogues
  {}

  lemma OnlyDecidesList(w: World, s: Step, id: nat)
    requires NotListed(w, id) && !OfHandoff(s, id)
    ensures NotListed(Next(w, s), id)
  {
    if !TouchesLists(s) {
      ListsUntouched(w, s);
    } else {
      hide RangeUnref, BeginFree, EndFree, Decide;
      match s
      case HandoffDecide(i) =>
        if HandoffMay(w, s) {
          assert Next(w, s).registry == Decide(w.registry, RogueOf(w, i)).0;
          DecidedRogues(w.registry, RogueOf(w, i));
        }
      case FreeBegin(p) =>
        assert Next(w, s).registry == BeginFree(w.registry, p).0;
        SameIds(w.registry, p);
      case FreeEnd(i, _) =>
        if May(w, s) {
          assert Next(w, s).registry == EndFree(w.registry, i);
          FewerIds(w.registry, i);
        }
      case _ =>
    }
  }

  lemma UndoGoesOn(w: World, id: nat, reply: Reply, rangeOk: bool, made: seq<nat>)
    requires Declined(w, id, made)
    ensures Declined(Next(w, HandoffUndo(id, reply, rangeOk)), id, made)
  {
    hide PageUnref, RangeUnref;
    var s := HandoffUndo(id, reply, rangeOk);
    if May(w, s) {
      ListsUntouched(w, s);
      var next := w.handoffs[id].stage.next;
      forall j | 0 <= j < next ensures made[j] in Next(w, s).drops { DropsStay(w, s, made[j]); }
      if next < |made| { assert Next(w, s).drops == w.drops + [made[next]]; }
    }
  }

  lemma DeclinedStep(w: World, s: Step, id: nat, made: seq<nat>)
    requires Declined(w, id, made)
    ensures Declined(Next(w, s), id, made)
  {
    if OfHandoff(s, id) {
      if s.HandoffUndo? { UndoGoesOn(w, id, s.reply, s.rangeOk, made); } else { assert !May(w, s); }
    } else {
      hide Next;
      HandoffStays(w, s, id);
      OnlyDecidesList(w, s, id);
      forall j | 0 <= j < |made| && made[j] in w.drops ensures made[j] in Next(w, s).drops { DropsStay(w, s, made[j]); }
    }
  }

  /** A declined hand-off is never listed, and is over only when every reference it made was dropped. */
  lemma {:induction false} DeclinedIsUndone(w: World, steps: seq<Step>, id: nat, made: seq<nat>)
    requires Declined(w, id, made)
    ensures Declined(Run(w, steps), id, made)
    decreases |steps|
  {
    if steps != [] {
      DeclinedStep(w, steps[0], id, made);
      hide Declined, Next;
      DeclinedIsUndone(Next(w, steps[0]), steps[1..], id, made);
    }
  }

  lemma UndoneIsDeclined(w: World, r: World, id: nat)
    requires WorldInv(w) && id in w.handoffs && BecameUndone(w, r, id) && r.nextId == w.nextId
    ensures Declined(r, id, w.handoffs[id].made)
  {
    assert HandoffOk(w, id, w.handoffs[id]);
    forall i | 0 <= i < |w.registry.rogues| ensures w.registry.rogues[i].id != id { assert RogueOk(w, w.registry.rogues[i]); }
  }

  // ---------------------------------------------------------------- a rogue that nobody frees

  /** Nobody has begun to free the rogue. */
  predicate Rests(w: World, rogue: Rogue) {
    rogue in w.registry.rogues && !rogue.freeing
  }

  lemma RestingIsUnclaimed(w: World, rogue: Rogue)
    requires WorldInv(w) && Rests(w, rogue)
    ensures rogue.id !in w.freers && rogue.id < w.nextId && rogue.id !in w.handoffs
  {
    var i :| 0 <= i < |w.registry.rogues| && w.registry.rogues[i] == rogue;
    assert RogueOk(w, w.registry.rogues[i]);
  }

  lemma ClaimLeaves(w: World, p: nat, rogue: Rogue)
    requires Rests(w, rogue) && p != rogue.ptr
    ensures Rests(Next(w, FreeBegin(p)), rogue)
  {
    assert Next(w, FreeBegin(p)).registry == BeginFree(w.registry, p).0;
    var i :| 0 <= i < |w.registry.rogues| && w.registry.rogues[i] == rogue;
    assert BeginFree(w.registry, p).0.rogues[i] == rogue;
  }

  lemma RemovedLeaves(rogues: seq<Rogue>, rogue: Rogue, k: nat)
    requires rogue in rogues && k < |rogues| && rogues[k] != rogue
    ensures rogue in RemoveAt(rogues, k)
  {
    var i :| 0 <= i < |rogues| && rogues[i] == rogue;
    if i < k { assert RemoveAt(rogues, k)[i] == rogue; } else { assert RemoveAt(rogues, k)[i - 1] == rogue; }
  }

  lemma RestsOn(w: World, s: Step, rogue: Rogue)
    requires WorldInv(w) && Rests(w, rogue) && s != FreeBegin(rogue.ptr)
    ensures Rests(Next(w, s), rogue)
  {
    hide WorldInv;
    RestingIsUnclaimed(w, rogue);
    if !TouchesLists(s) {
      ListsUntouched(w, s);
    } else {
      hide RangeUnref;
      match s
      case HandoffDecide(id) => if HandoffMay(w, s) { ListedInFront(w, id, rogue); }
      case FreeBegin(p) => ClaimLeaves(w, p, rogue);
      case FreeEnd(id, _) =>
        if May(w, s) {
          assert Next(w, s).registry == EndFree(w.registry, id);
          RemovedLeaves(w.registry.rogues, rogue, FindId(w.registry.rogues, id, 0));
        }
      case _ =>
    }
  }

  predicate Backs(s: Store, address: nat, alloc: nat) {
    address in s.mapped && s.mapped[address] == alloc
  }

  lemma ListedInFront(w: World, id: nat, rogue: Rogue)
    requires HandoffMay(w, HandoffDecide(id)) && rogue in w.registry.rogues
    ensures rogue in Next(w, HandoffDecide(id)).registry.rogues
  {
    assert Next(w, HandoffDecide(id)).registry == Decide(w.registry, RogueOf(w, id)).0;
  }

  /**
    Until somebody begins to free it, a rogue stays listed as it was handed off, and each of its
    addresses stays backed by the allocation it was handed off with.
  */
  lemma {:induction false} UnfreedRogueStays(w: World, steps: seq<Step>, rogue: Rogue)
    requires WorldInv(w) && Rests(w, rogue) && FreeBegin(rogue.ptr) !in steps
    ensures var v := Run(w, steps);
      && Rests(v, rogue)
      && forall r :: r in rogue.pages && r in w.store.refs ==>
           && r in v.store.refs && v.store.refs[r] == w.store.refs[r]
           && (w.store.refs[r].address != 0 ==> Backs(v.store, w.store.refs[r].address, w.store.refs[r].alloc))
    decreases |steps|
  {
    if steps == [] {
      forall r | r in rogue.pages && r in w.store.refs && w.store.refs[r].address != 0
        ensures Backs(w.store, w.store.refs[r].address, w.store.refs[r].alloc)
      {
        assert AddressOk(w.store, r);
      }
    } else {
      var s := steps[0];
      StepKeeps(w, s);
      RestsOn(w, s, rogue);
      forall r | r in rogue.pages && r in w.store.refs
        ensures r in Next(w, s).store.refs && Next(w, s).store.refs[r] == w.store.refs[r]
      {
        RestingRefStays(w, s, rogue, r);
      }
      hide WorldInv, Next, Rests;
      UnfreedRogueStays(Next(w, s), steps[1..], rogue);
    }
  }

  lemma RestingRefStays(w: World, s: Step, rogue: Rogue, r: nat)
    requires WorldInv(w) && Rests(w, rogue) && r in rogue.pages && r in w.store.refs
    ensures r in Next(w, s).store.refs && Next(w, s).store.refs[r] == w.store.refs[r]
  {
    var i :| 0 <= i < |w.registry.rogues| && w.registry.rogues[i] == rogue;
    assert RogueOk(w, w.registry.rogues[i]);
    var j :| 0 <= j < |rogue.pages| && rogue.pages[j] == r;
    hide Inv, OwnersOk, RangesOk, HandoffsOk;
    if s.FreePage? && s.id == rogue.id { assert !May(w, s); } else { OwnedRefStays(w, s, r); }
  }

  // ---------------------------------------------------------------- the whole life of a hand-off

  lemma {:induction false} RunThrough(w: World, before: seq<Step>, after: seq<Step>)
    ensures Run(w, before + after) == Run(Run(w, before), after)
    decreases |before|
  {
    if before == [] {
      assert before + after == after;
    } else {
      assert (before + after)[1..] == before[1..] + after;
      RunThrough(Next(w, before[0]), before[1..], after);
    }
  }

  /**
    A candidate that is registered, handed off and decided, with anything else in between and after:
    if its pointer was freed before the decision, the hand-off is never listed and is over only when
    every reference it made was dropped; otherwise it is listed with those references, and until its
    pointer is freed it stays listed and each address it was given stays backed as it was.
  */
  lemma HandoffEnds(w: World, steps: seq<Step>, more: seq<Step>, ptr: nat, id: nat)
    requires WorldInv(w)
    requires var v := Next(w, RegisterStep(ptr)); AllIgnore(v, steps, ptr) && (FreeBegin(ptr) in steps ==> NoRogueAt(w, ptr))
    requires var v := Run(Next(w, RegisterStep(ptr)), steps); HandoffMay(v, HandoffDecide(id)) && v.handoffs[id].ptr == ptr
    ensures var v := Run(Next(w, RegisterStep(ptr)), steps);
      var (r, h) := (Run(Next(v, HandoffDecide(id)), more), v.handoffs[id]);
      if FreeBegin(ptr) in steps then Declined(r, id, h.made)
      else FreeBegin(ptr) !in more ==>
        && Rests(r, Rogue(id, h.range, ptr, h.made, false))
        && forall p :: p in h.made && p in v.store.refs && v.store.refs[p].address != 0 ==>
             Backs(r.store, v.store.refs[p].address, v.store.refs[p].alloc)
  {
    var v := Run(Next(w, RegisterStep(ptr)), steps);
    var d := Next(v, HandoffDecide(id));
    StepKeeps(w, RegisterStep(ptr));
    RunKeeps(Next(w, RegisterStep(ptr)), steps);
    StepKeeps(v, HandoffDecide(id));
    HandoffFollowsFrees(w, steps, ptr, id);
    NumbersStay(v, id);
    hide WorldInv, Next, Run, Declined, AllIgnore, HandoffMay;
    if FreeBegin(ptr) in steps {
      UndoneIsDeclined(v, d, id);
      DeclinedIsUndone(d, more, id, v.handoffs[id].made);
    } else if FreeBegin(ptr) !in more {
      UnfreedRogueStays(d, more, Rogue(id, v.handoffs[id].range, ptr, v.handoffs[id].made, false));
    }
  }

  lemma NumbersStay(w: World, id: nat)
    requires HandoffMay(w, HandoffDecide(id))
    ensures Next(w, HandoffDecide(id)).nextId == w.nextId
  {}

  // ---------------------------------------------------------------- a late free that runs to its end

  /** The late free of the rogue has dropped the first `k` of its references. */
  predicate Freeing(w: World, id: nat, pages: seq<nat>, k: nat) {
    && id in w.freers && w.freers[id] == k <= |pages|
    && exists i :: 0 <= i < |w.registry.rogues| && w.registry.rogues[i].id == id && w.registry.rogues[i].pages == pages
  }

  function PageFrees(id: nat, replies: seq<Reply>): seq<Step> {
    seq(|replies|, i requires 0 <= i < |replies| => FreePage(id, replies[i]))
  }

  lemma TheRogue(w: World, id: nat, pages: seq<nat>, k: nat) returns (i: nat)
    requires WorldInv(w) && Freeing(w, id, pages, k)
    ensures i == FindId(w.registry.rogues, id, 0) < |w.registry.rogues|
    ensures w.registry.rogues[i].pages == pages && RogueOk(w, w.registry.rogues[i])
  {
    i :| 0 <= i < |w.registry.rogues| && w.registry.rogues[i].id == id && w.registry.rogues[i].pages == pages;
    assert RogueOk(w, w.registry.rogues[i]);
  }

  lemma NextPageFreed(w: World, id: nat, pages: seq<nat>, k: nat, reply: Reply)
    requires WorldInv(w) && Freeing(w, id, pages, k) && k < |pages|
    ensures Freeing(Next(w, FreePage(id, reply)), id, pages, k + 1)
  {
    var i := TheRogue(w, id, pages, k);
    assert RefOk(w.store, pages[k]);
    hide WorldInv, PageUnref, RogueOk;
    ListsUntouched(w, FreePage(id, reply));
    assert Live(w.store, pages[k]) && FreeMay(w, FreePage(id, reply));
    assert Next(w, FreePage(id, reply)).registry.rogues[i].pages == pages;
  }

  lemma {:induction false} PagesFreed(w: World, id: nat, pages: seq<nat>, k: nat, replies: seq<Reply>)
    requires WorldInv(w) && Freeing(w, id, pages, k) && |replies| == |pages| - k
    ensures var r := Run(w, PageFrees(id, replies)); WorldInv(r) && Freeing(r, id, pages, |pages|)
    decreases |replies|
  {
    hide WorldInv, Freeing, Next;
    var steps := PageFrees(id, replies);
    if replies == [] {
      assert steps == [];
      FreeingAtMost(w, id, pages, k);
    } else {
      assert steps[0] == FreePage(id, replies[0]) && steps[1..] == PageFrees(id, replies[1..]);
      NextPageFreed(w, id, pages, k, replies[0]);
      StepKeeps(w, steps[0]);
      PagesFreed(Next(w, steps[0]), id, pages, k + 1, replies[1..]);
    }
  }

  lemma FreeingAtMost(w: World, id: nat, pages: seq<nat>, k: nat)
    requires Freeing(w, id, pages, k)
    ensures k <= |pages|
  {}

  lemma ClaimStarts(w: World, ptr: nat, i: nat)
    requires WorldInv(w) && i == FindRogue(w.registry.rogues, ptr, 0) < |w.registry.rogues| && !w.registry.rogues[i].freeing
    ensures Freeing(Next(w, FreeBegin(ptr)), w.registry.rogues[i].id, w.registry.rogues[i].pages, 0)
  {
    hide WorldInv;
    assert Next(w, FreeBegin(ptr)).registry.rogues[i].pages == w.registry.rogues[i].pages;
  }

  lemma FreeEnds(w: World, id: nat, pages: seq<nat>, ok: bool)
    requires WorldInv(w) && Freeing(w, id, pages, |pages|)
    ensures var r := Next(w, FreeEnd(id, ok));
      && NotListed(r, id) && id !in r.freers && forall j :: 0 <= j < |pages| ==> pages[j] in r.drops
  {
    var i := TheRogue(w, id, pages, |pages|);
    hide Inv, OwnersOk, RangesOk, HandoffsOk, RangeUnref;
    assert FreeMay(w, FreeEnd(id, ok));
    assert Next(w, FreeEnd(id, ok)).registry.rogues == RemoveAt(w.registry.rogues, i);
  }

  /**
    The late free of the rogue that is listed first for a pointer, when nobody began it before and
    whatever the driver answers: every reference the rogue holds is dropped and it leaves the list.
  */
  lemma LateFreeFinishes(w: World, ptr: nat, i: nat, replies: seq<Reply>, ok: bool)
    requires WorldInv(w) && i < |w.registry.rogues| && w.registry.rogues[i].ptr == ptr && !w.registry.rogues[i].freeing
    requires forall j :: 0 <= j < i ==> w.registry.rogues[j].ptr != ptr
    requires |replies| == |w.registry.rogues[i].pages|
    ensures var (rogue, r) := (w.registry.rogues[i], Run(w, [FreeBegin(ptr)] + PageFrees(w.registry.rogues[i].id, replies) + [FreeEnd(w.registry.rogues[i].id, ok)]));
      NotListed(r, rogue.id) && rogue.id !in r.freers && forall j :: 0 <= j < |rogue.pages| ==> rogue.pages[j] in r.drops
  {
    hide WorldInv, Freeing, Next, NotListed, FindId;
    var id, pages := w.registry.rogues[i].id, w.registry.rogues[i].pages;
    var v := Next(w, FreeBegin(ptr));
    ClaimStarts(w, ptr, i);
    StepKeeps(w, FreeBegin(ptr));
    PagesFreed(v, id, pages, 0, replies);
    var x := Run(v, PageFrees(id, replies));
    FreeEnds(x, id, pages, ok);
    RunThrough(w, [FreeBegin(ptr)] + PageFrees(id, replies), [FreeEnd(id, ok)]);
    RunThrough(w, [FreeBegin(ptr)], PageFrees(id, replies));
    assert Run(w, [FreeBegin(ptr)]) == v by { assert [FreeBegin(ptr)][1..] == []; }
    assert Run(x, [FreeEnd(id, ok)]) == Next(x, FreeEnd(id, ok)) by { assert [FreeEnd(id, ok)][1..] == []; }
  }

  // ---------------------------------------------------------------- a hand-off that runs to its decision

  /** What a hand-off is to take over: pages that the caller has mapped side by side, the pointer in the first. */
  predicate Covered(w: World, range: nat, ptr: nat, sources: seq<nat>, first: nat, bytes: nat) {
    && HandoffMay(w, HandoffStart(range, ptr, sources))
    && bytes == w.store.allocs[w.store.refs[sources[0]].alloc].bytes
    && first <= ptr < first + bytes && first >= w.ranges[range].address && (first - w.ranges[range].address) % bytes == 0
    && forall j :: 0 <= j < |sources| ==> SourceAt(w.store, sources[j], first + j * bytes)
  }

  predicate SourceAt(s: Store, source: nat, address: nat) {
    Live(s, source) && Backs(s, address, s.refs[source].alloc)
  }

  /** `k` references are made and `named` of them have their addresses. */
  predicate UnderWay(w: World, v: World, id: nat, range: nat, ptr: nat, sources: seq<nat>, first: nat, bytes: nat, k: nat, named: nat) {
    && id == w.nextId && id in v.handoffs && range in v.ranges && range in v.holders
    && Unmoved(w.store, v.store)
    && var h := v.handoffs[id];
    && h == Handoff(range, ptr, first, bytes, sources, h.made, h.stage) && |h.made| == k <= |sources|
    && (forall j :: 0 <= j < k ==> h.made[j] in v.store.refs && h.made[j] !in w.store.refs)
    && (forall j :: 0 <= j < k ==> sources[j] in w.store.refs && v.store.refs[h.made[j]].alloc == w.store.refs[sources[j]].alloc)
    && (forall j :: 0 <= j < k ==> v.store.refs[h.made[j]].address == if j < named then first + j * bytes else 0)
    && (forall i, j :: 0 <= i < j < k ==> h.made[i] != h.made[j])
  }

  /** What there was in the ledger is still there, and the mappings are the same. */
  predicate Unmoved(s: Store, t: Store) {
    && t.mapped == s.mapped && s.nextRef <= t.nextRef
    && (forall r :: r in t.refs ==> r < t.nextRef)
    && (forall r :: r in s.refs ==> r in t.refs && t.refs[r] == s.refs[r])
    && (forall a :: a in s.allocs ==> a in t.allocs)
  }

  lemma FirstIsUnder(ptr: nat, base: nat, bytes: nat, first: nat)
    requires base <= first <= ptr < first + bytes && (first - base) % bytes == 0
    ensures FirstAddress(ptr, base, bytes) == first
  {
    var q := (first - base) / bytes;
    assert first - base == q * bytes;
    assert (ptr - base) == q * bytes + (ptr - first);
    Remainder(ptr - base, q, bytes, ptr - first);
  }

  lemma Multiple(d: nat, e: int)
    requires d > 0
    ensures (e >= 1 ==> d * e >= d) && (e <= -1 ==> d * e + d <= 0)
  {}

  lemma Remainder(n: nat, q: nat, d: nat, r: nat)
    requires r < d && n == q * d + r
    ensures n % d == r
  {
    var e := n / d - q;
    assert d * e == r - n % d;
    Multiple(d, e);
  }

  /** The hand-off starts at the page that the pointer is in. */
  lemma StartsUnderWay(w: World, range: nat, ptr: nat, sources: seq<nat>, first: nat, bytes: nat)
    requires WorldInv(w) && Covered(w, range, ptr, sources, first, bytes)
    ensures UnderWay(w, Next(w, HandoffStart(range, ptr, sources)), w.nextId, range, ptr, sources, first, bytes, 0, 0)
    ensures Next(w, HandoffStart(range, ptr, sources)).handoffs[w.nextId].stage == Making
  {
    FirstIsUnder(ptr, w.ranges[range].address, bytes, first);
    forall r | r in w.store.refs ensures r < w.store.nextRef { assert RefOk(w.store, r); }
  }

  lemma NextReference(w: World, v: World, id: nat, range: nat, ptr: nat, sources: seq<nat>, first: nat, bytes: nat, k: nat)
    requires UnderWay(w, v, id, range, ptr, sources, first, bytes, k, 0) && k < |sources| && v.handoffs[id].stage == Making
    requires forall j :: 0 <= j < |sources| ==> SourceAt(w.store, sources[j], first + j * bytes)
    ensures var v' := Next(v, HandoffRef(id, true));
      && UnderWay(w, v', id, range, ptr, sources, first, bytes, k + 1, 0)
      && v'.handoffs[id].stage == if k + 1 == |sources| then Naming(0) else Making
  {
    assert SourceAt(w.store, sources[k], first + k * bytes);
    assert Live(v.store, sources[k]);
    var v' := Next(v, HandoffRef(id, true));
    var r := v.store.nextRef;
    assert v'.store == PageRef(v.store, sources[k], 0).0;
    assert v'.handoffs[id].made == v.handoffs[id].made + [r];
    assert r !in w.store.refs;
  }

  lemma NextName(w: World, v: World, id: nat, range: nat, ptr: nat, sources: seq<nat>, first: nat, bytes: nat, k: nat)
    requires UnderWay(w, v, id, range, ptr, sources, first, bytes, |sources|, k) && k < |sources| && v.handoffs[id].stage == Naming(k)
    requires forall j :: 0 <= j < |sources| ==> SourceAt(w.store, sources[j], first + j * bytes)
    ensures var v' := Next(v, HandoffName(id));
      && UnderWay(w, v', id, range, ptr, sources, first, bytes, |sources|, k + 1)
      && v'.handoffs[id].stage == Naming(k + 1)
  {
    assert SourceAt(w.store, sources[k], first + k * bytes);
    var h := v.handoffs[id];
    assert MayName(v, h) && AddressOf(h, k) == first + k * bytes;
    var v' := Next(v, HandoffName(id));
    assert v'.store == SetAddress(v.store, h.made[k], first + k * bytes);
    assert v'.handoffs[id] == h.(stage := Naming(k + 1)) && v'.ranges == v.ranges && v'.holders == v.holders;
    hide Next, MayName, AddressOf, SourceAt;
  }

  function References(id: nat, n: nat): seq<Step> {
    seq(n, i => HandoffRef(id, true))
  }

  function Names(id: nat, n: nat): seq<Step> {
    seq(n, i => HandoffName(id))
  }

  lemma {:induction false} AllReferences(w: World, v: World, id: nat, range: nat, ptr: nat, sources: seq<nat>, first: nat, bytes: nat, k: nat)
    requires UnderWay(w, v, id, range, ptr, sources, first, bytes, k, 0) && k < |sources| && v.handoffs[id].stage == Making
    requires forall j :: 0 <= j < |sources| ==> SourceAt(w.store, sources[j], first + j * bytes)
    ensures var x := Run(v, References(id, |sources| - k));
      UnderWay(w, x, id, range, ptr, sources, first, bytes, |sources|, 0) && x.handoffs[id].stage == Naming(0)
    decreases |sources| - k
  {
    hide UnderWay, Next, SourceAt;
    var steps := References(id, |sources| - k);
    NextReference(w, v, id, range, ptr, sources, first, bytes, k);
    assert steps[0] == HandoffRef(id, true) && steps[1..] == References(id, |sources| - k - 1);
    if k + 1 < |sources| {
      AllReferences(w, Next(v, steps[0]), id, range, ptr, sources, first, bytes, k + 1);
    }
  }

  lemma {:induction false} AllNames(w: World, v: World, id: nat, range: nat, ptr: nat, sources: seq<nat>, first: nat, bytes: nat, k: nat)
    requires UnderWay(w, v, id, range, ptr, sources, first, bytes, |sources|, k) && k <= |sources| && v.handoffs[id].stage == Naming(k)
    requires forall j :: 0 <= j < |sources| ==> SourceAt(w.store, sources[j], first + j * bytes)
    ensures var x := Run(v, Names(id, |sources| - k));
      UnderWay(w, x, id, range, ptr, sources, first, bytes, |sources|, |sources|) && x.handoffs[id].stage == Naming(|sources|)
    decreases |sources| - k
  {
    hide UnderWay, Next, SourceAt;
    var steps := Names(id, |sources| - k);
    if k < |sources| {
      NextName(w, v, id, range, ptr, sources, first, bytes, k);
      assert steps[0] == HandoffName(id) && steps[1..] == Names(id, |sources| - k - 1);
      AllNames(w, Next(v, steps[0]), id, range, ptr, sources, first, bytes, k + 1);
    }
  }

  lemma RangeTaken(w: World, v: World, id: nat, range: nat, ptr: nat, sources: seq<nat>, first: nat, bytes: nat)
    requires UnderWay(w, v, id, range, ptr, sources, first, bytes, |sources|, |sources|) && v.handoffs[id].stage == Naming(|sources|)
    ensures var x := Next(v, HandoffRange(id));
      UnderWay(w, x, id, range, ptr, sources, first, bytes, |sources|, |sources|) && HandoffMay(x, HandoffDecide(id))
  {}

  function HandoffSteps(id: nat, range: nat, ptr: nat, sources: seq<nat>): seq<Step> {
    [HandoffStart(range, ptr, sources)] + References(id, |sources|) + Names(id, |sources|) + [HandoffRange(id)]
  }

  /** The hand-off holds a new reference to the allocation behind each page, at the page's own address. */
  predicate Prepared(w: World, x: World, id: nat, range: nat, ptr: nat, sources: seq<nat>, first: nat, bytes: nat) {
    && HandoffMay(x, HandoffDecide(id)) && x.handoffs[id].range == range && x.handoffs[id].ptr == ptr
    && |x.handoffs[id].made| == |sources|
    && forall j :: 0 <= j < |sources| ==>
         && x.handoffs[id].made[j] in x.store.refs && x.handoffs[id].made[j] !in w.store.refs && sources[j] in w.store.refs
         && x.store.refs[x.handoffs[id].made[j]] == Ref(w.store.refs[sources[j]].alloc, first + j * bytes)
  }

  lemma PreparedAtEnd(w: World, x: World, id: nat, range: nat, ptr: nat, sources: seq<nat>, first: nat, bytes: nat)
    requires UnderWay(w, x, id, range, ptr, sources, first, bytes, |sources|, |sources|) && HandoffMay(x, HandoffDecide(id))
    ensures Prepared(w, x, id, range, ptr, sources, first, bytes)
  {}

  lemma RunOne(w: World, s: Step)
    ensures Run(w, [s]) == Next(w, s)
  {
    assert [s][1..] == [];
  }

  /** The run in its four parts. */
  lemma HandoffInParts(w: World, id: nat, range: nat, ptr: nat, sources: seq<nat>)
    ensures Run(w, HandoffSteps(id, range, ptr, sources)) ==
            Next(Run(Run(Next(w, HandoffStart(range, ptr, sources)), References(id, |sources|)), Names(id, |sources|)), HandoffRange(id))
  {
    hide Next, Run;
    var s, n := HandoffStart(range, ptr, sources), |sources|;
    RunThrough(w, [s] + References(id, n) + Names(id, n), [HandoffRange(id)]);
    RunThrough(w, [s] + References(id, n), Names(id, n));
    RunThrough(w, [s], References(id, n));
    RunOne(w, s);
    RunOne(Run(Run(Next(w, s), References(id, n)), Names(id, n)), HandoffRange(id));
  }

  /**
    A hand-off of pages that the caller has mapped side by side, when the host never runs out of
    memory, comes to its decision with one new reference to the allocation behind each page, at the
    page's own address.
  */
  lemma HandoffReachesDecision(w: World, range: nat, ptr: nat, sources: seq<nat>, first: nat, bytes: nat)
    requires WorldInv(w) && Covered(w, range, ptr, sources, first, bytes)
    ensures Prepared(w, Run(w, HandoffSteps(w.nextId, range, ptr, sources)), w.nextId, range, ptr, sources, first, bytes)
  {
    hide WorldInv, Next, Covered, UnderWay, Prepared, HandoffSteps, SourceAt, Run;
    AllCovered(w, range, ptr, sources, first, bytes);
    StartsUnderWay(w, range, ptr, sources, first, bytes);
    HandoffInParts(w, w.nextId, range, ptr, sources);
    PreparedThrough(w, Next(w, HandoffStart(range, ptr, sources)), w.nextId, range, ptr, sources, first, bytes);
  }

  lemma PreparedThrough(w: World, v: World, id: nat, range: nat, ptr: nat, sources: seq<nat>, first: nat, bytes: nat)
    requires UnderWay(w, v, id, range, ptr, sources, first, bytes, 0, 0) && v.handoffs[id].stage == Making && |sources| > 0
    requires forall j :: 0 <= j < |sources| ==> SourceAt(w.store, sources[j], first + j * bytes)
    ensures Prepared(w, Next(Run(Run(v, References(id, |sources|)), Names(id, |sources|)), HandoffRange(id)), id, range, ptr, sources,
                     first, bytes)
  {
    hide UnderWay, Next, SourceAt, Run, References, Names, Prepared, HandoffMay;
    var n := |sources|;
    AllReferences(w, v, id, range, ptr, sources, first, bytes, 0);
    var x := Run(v, References(id, n));
    AllNames(w, x, id, range, ptr, sources, first, bytes, 0);
    var y := Run(x, Names(id, n));
    RangeTaken(w, y, id, range, ptr, sources, first, bytes);
    PreparedAtEnd(w, Next(y, HandoffRange(id)), id, range, ptr, sources, first, bytes);
  }

  lemma AllCovered(w: World, range: nat, ptr: nat, sources: seq<nat>, first: nat, bytes: nat)
    requires Covered(w, range, ptr, sources, first, bytes)
    ensures |sources| > 0 && forall j :: 0 <= j < |sources| ==> SourceAt(w.store, sources[j], first + j * bytes)
  {}
}
