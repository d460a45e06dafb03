/**
  When the recorder's state is exactly what the innermost recording frame means.  A frame that
  replays does not tell the recorder what it takes and frees, so a break above it leaves the
  recorder with whatever the frame held at that moment.
*/
module GraphExact {
  import opened GraphModel
  import opened GraphTree
  import opened GraphSafety
  import opened GraphRuns
  import opened GraphRebuild

  /** The request finds no event under a replaying frame. */
  predicate Breaks(g: Graph, q: Request) {
    && !g.failed && !q.RootReq? && g.stack != [] && Top(g).cursor < |g.es|
    && !Top(g).recording && Find(g.es, Top(g).cursor, KeyOf(q)).Nothing?
  }

  /** The innermost recording frame, or -1. */
  function Recorder(stack: seq<Frame>): (h: int)
    ensures -1 <= h < |stack|
    ensures h >= 0 ==> stack[h].recording
    ensures forall i :: h < i < |stack| ==> !stack[i].recording
  {
    if stack == [] then -1
    else if stack[|stack| - 1].recording then |stack| - 1
    else Recorder(stack[..|stack| - 1])
  }

  /**
    From frame `lo` to frame `hi`: every scope was entered with exactly its caller's state, and
    below frame `hi` no replaying frame holds anything.
  */
  predicate Calm(g: Graph, lo: nat, hi: int)
    requires hi < |g.stack|
  {
    && (forall i :: lo < i <= hi ==> EnteredExactly(g, i))
    && (forall i :: lo <= i < hi && !g.stack[i].recording ==> HeldBy(Mean(g, i)) == {})
  }

  /** The recorder holds exactly what the innermost recording frame means, and will when frame `k` records again. */
  predicate Settled(g: Graph, k: nat) {
    var h := Recorder(g.stack);
    k <= h && g.alloc == Mean(g, h).alloc && Calm(g, k, h)
  }

  // ---------------------------------------------------------------- the frames that a step leaves alone

  /** The first `n` frames are the same and mean the same. */
  predicate SameFrames(g: Graph, r: Graph, n: nat) {
    && n <= |g.stack| && n <= |r.stack|
    && forall i :: 0 <= i < n ==>
         && r.stack[i].recording == g.stack[i].recording && Mean(r, i) == Mean(g, i)
         && (i > 0 ==> (EnteredExactly(r, i) <==> EnteredExactly(g, i)))
  }

  lemma FramesKept(g: Graph, r: Graph, n: nat)
    requires Inv(g) && Grown(g.es, r.es) && n <= |g.stack| && n <= |r.stack|
    requires forall i :: 0 <= i < n ==> r.stack[i] == g.stack[i]
    ensures SameFrames(g, r, n)
  {
    forall i | 0 <= i < n
      ensures Mean(r, i) == Mean(g, i) && (i > 0 ==> (EnteredExactly(r, i) <==> EnteredExactly(g, i)))
    {
      FrameSem(g, i);
      MeaningStable(g.es, r.es, g.stack[i].cursor);
      if i > 0 {
        FrameSem(g, i - 1);
        MeaningStable(g.es, r.es, g.stack[i - 1].cursor);
      }
    }
  }

  lemma RecorderIs(stack: seq<Frame>, h: int)
    requires -1 <= h < |stack| && (h >= 0 ==> stack[h].recording)
    requires forall i :: h < i < |stack| ==> !stack[i].recording
    ensures Recorder(stack) == h
  {}

  /** A step that touches neither the recorder nor the frames up to the one that records. */
  lemma SettledUntouched(g: Graph, r: Graph, k: nat)
    requires Recorder(r.stack) == Recorder(g.stack) && r.alloc == g.alloc
    requires SameFrames(g, r, Recorder(g.stack) + 1)
    ensures Settled(r, k) <==> Settled(g, k)
  {}

  // ---------------------------------------------------------------- each step that does not break

  lemma AdvanceSettled(g: Graph, node: nat, k: nat)
    requires Inv(g) && g.stack != [] && !Top(g).recording
    ensures Settled(Advance(g, node), k) <==> Settled(g, k)
  {
    var r, h := Advance(g, node), Recorder(g.stack);
    RecorderIs(r.stack, h);
    FramesKept(g, r, h + 1);
    SettledUntouched(g, r, k);
  }

  lemma EnterSettled(g: Graph, scope: nat, k: nat)
    requires Inv(g) && g.stack != []
    ensures Settled(Enter(g, scope), k) <==> Settled(g, k)
  {
    var r, h := Enter(g, scope), Recorder(g.stack);
    RecorderIs(r.stack, h);
    FramesKept(g, r, h + 1);
    SettledUntouched(g, r, k);
  }

  lemma CloseSettled(g: Graph, k: nat)
    requires Inv(g) && g.stack != [] && !Top(g).recording
    ensures Settled(Close(g), k) <==> Settled(g, k)
  {
    var r, h := Close(g), Recorder(g.stack);
    RecorderIs(r.stack, h);
    FramesKept(g, r, h + 1);
    SettledUntouched(g, r, k);
  }

  /** The innermost frame changes its own meaning and the recorder's state alike. */
  lemma TopSettled(g: Graph, r: Graph, k: nat)
    requires Inv(g) && Grown(g.es, r.es) && g.stack != [] && Top(g).recording && |r.stack| == |g.stack| && Top(r).recording
    requires forall i :: 0 <= i < |g.stack| - 1 ==> r.stack[i] == g.stack[i]
    requires Mean(r, |g.stack| - 1).scope == Mean(g, |g.stack| - 1).scope
    requires r.alloc == Mean(r, |g.stack| - 1).alloc <==> g.alloc == Mean(g, |g.stack| - 1).alloc
    ensures Settled(r, k) <==> Settled(g, k)
  {
    hide Inv, Grown, Mean, EnteredExactly, Recorder;
    var top := |g.stack| - 1;
    FramesKept(g, r, top);
    EntrySame(g, r, top);
    RecorderIs(g.stack, top);
    RecorderIs(r.stack, top);
    assert Calm(r, k, top) <==> Calm(g, k, top);
  }

  lemma EntrySame(g: Graph, r: Graph, top: nat)
    requires Inv(g) && Grown(g.es, r.es) && top < |g.stack| && top < |r.stack|
    requires forall i :: 0 <= i < top ==> r.stack[i] == g.stack[i]
    requires Mean(r, top).scope == Mean(g, top).scope
    ensures top > 0 ==> (EnteredExactly(r, top) <==> EnteredExactly(g, top))
  {
    FrameSem(g, top);
    if top > 0 {
      FrameSem(g, top - 1);
      MeaningStable(g.es, r.es, g.stack[top - 1].cursor);
    }
    hide Inv, Meaning;
  }

  lemma TakeSettled(g: Graph, size: nat, place: Place, k: nat)
    requires Inv(g) && !g.failed && g.stack != [] && Top(g).cursor < |g.es| && Top(g).recording
    requires PlaceOk(g, size, place) && place.Place?
    ensures Settled(RecordTake(g, place.loc, size, place.space, place.physCount, place.smallPages), k) <==> Settled(g, k)
  {
    var r, top := RecordTake(g, place.loc, size, place.space, place.physCount, place.smallPages), |g.stack| - 1;
    RecordTakeKeeps(g, place.loc, size, place.space, place.physCount, place.smallPages);
    AppendGrows(g.es, Top(g).cursor, Take(place.loc, size));
    assert FrameOk(g, top);
    ApplyKeepsScope(Mean(g, top), |g.es|, Take(place.loc, size));
    var e := Entry(Units(place.loc, size), Top(g).depth, |g.es|);
    PutIsInjective(g.alloc, Mean(g, top).alloc, place.loc, e);
    TopSettled(g, r, k);
  }

  lemma PutIsInjective(a: Alloc, b: Alloc, loc: Loc, e: Entry)
    requires loc !in a && loc !in b
    ensures a[loc := e] == b[loc := e] <==> a == b
  {
    assert a[loc := e] - {loc} == a && b[loc := e] - {loc} == b;
  }

  lemma CutIsInjective(a: Alloc, b: Alloc, loc: Loc)
    requires loc in a && loc in b && a[loc] == b[loc]
    ensures a - {loc} == b - {loc} <==> a == b
  {
    assert (a - {loc})[loc := a[loc]] == a && (b - {loc})[loc := b[loc]] == b;
  }

  lemma DropSettled(g: Graph, loc: Loc, k: nat)
    requires Inv(g) && !g.failed && g.stack != [] && Top(g).cursor < |g.es| && Top(g).recording
    requires Holds(g, |g.stack| - 1, loc)
    ensures Settled(RecordDrop(g, loc), k) <==> Settled(g, k)
  {
    hide Inv, Settled, Holds;
    var r, top := RecordDrop(g, loc), |g.stack| - 1;
    RecordDropKeeps(g, loc);
    DropShape(g, loc);
    ApplyKeepsScope(Mean(g, top), |g.es|, Drop(loc));
    hide RecordDrop, Meaning, Grown;
    CutIsInjective(g.alloc, Mean(g, top).alloc, loc);
    TopSettled(g, r, k);
  }

  lemma DropShape(g: Graph, loc: Loc)
    requires Inv(g) && !g.failed && g.stack != [] && Top(g).cursor < |g.es| && Top(g).recording
    requires Holds(g, |g.stack| - 1, loc)
    ensures var r, top := RecordDrop(g, loc), |g.stack| - 1;
      && loc in g.alloc && loc in Mean(g, top).alloc && g.alloc[loc] == Mean(g, top).alloc[loc]
      && r.alloc == g.alloc - {loc} && Grown(g.es, r.es) && |r.stack| == |g.stack| && Top(r).recording
      && forall i :: 0 <= i < top ==> r.stack[i] == g.stack[i]
  {
    DropIsEffective(g, loc);
    AppendGrows(g.es, Top(g).cursor, Drop(loc));
    hide Inv, Meaning, Grown;
  }

  /** A new scope starts from the recorder's state, so the recorder is exact in it whatever it was before. */
  lemma NewScope(g: Graph, name: string)
    requires Inv(g) && !g.failed && g.stack != [] && Top(g).cursor < |g.es| && Top(g).recording
    ensures var r := RecordCall(g, name);
      && Inv(r) && Grown(g.es, r.es) && |r.stack| == |g.stack| + 1 && Top(r).recording && r.alloc == g.alloc && !r.failed
      && Mean(r, |g.stack|) == Sem(g.alloc, [], |g.stack| + 1, |g.es| + 1)
      && Mean(r, |g.stack| - 1) == Mean(g, |g.stack| - 1)
      && (EnteredExactly(r, |g.stack|) <==> g.alloc == Mean(g, |g.stack| - 1).alloc)
  {
    RecordCallKeeps(g, name);
    AppendGrows(g.es, Top(g).cursor, Call(name, |g.es| + 1));
    assert FrameOk(g, |g.stack| - 1);
  }

  lemma CallSettled(g: Graph, name: string, k: nat)
    requires Inv(g) && !g.failed && g.stack != [] && Top(g).cursor < |g.es| && Top(g).recording && k < |g.stack|
    ensures Settled(RecordCall(g, name), k) <==> Settled(g, k)
  {
    hide Inv, RecordCall, Mean, EnteredExactly, Grown, Recorder;
    var r, top := RecordCall(g, name), |g.stack| - 1;
    NewScope(g, name);
    assert forall i :: 0 <= i <= top ==> r.stack[i] == g.stack[i] by { CallFrames(g, name); }
    FramesKept(g, r, top + 1);
    RecorderIs(g.stack, top);
    RecorderIs(r.stack, top + 1);
    assert Calm(r, k, top + 1) <==> Calm(g, k, top) && EnteredExactly(r, top + 1);
  }

  lemma CallFrames(g: Graph, name: string)
    requires g.stack != [] && Top(g).cursor < |g.es|
    ensures |RecordCall(g, name).stack| == |g.stack| + 1
    ensures forall i :: 0 <= i < |g.stack| ==> RecordCall(g, name).stack[i] == g.stack[i]
  {}

  // ---------------------------------------------------------------- leaving a recording frame

  lemma ExtendsBoth(a: Alloc, b: Alloc)
    requires Extends(a, b) && Extends(b, a)
    ensures a == b
  {}

  /** Scopes entered exactly by frames that hold nothing all mean what the lowest one does. */
  lemma {:induction false} NothingAdded(g: Graph, lo: nat, hi: nat)
    requires Inv(g) && lo <= hi < |g.stack|
    requires forall i :: lo < i <= hi ==> EnteredExactly(g, i) && HeldBy(Mean(g, i)) == {}
    ensures Mean(g, hi).alloc == Mean(g, lo).alloc
  {
    hide Inv, Mean, HeldBy, SemOk;
    if lo < hi {
      NothingAdded(g, lo, hi - 1);
      EmptyHolds(g, hi);
    }
  }

  lemma EmptyHolds(g: Graph, i: nat)
    requires Inv(g) && i < |g.stack|
    ensures SemOk(g.es, g.space, Mean(g, i))
    ensures HeldBy(Mean(g, i)) == {} <==> Mean(g, i).alloc == g.es[Mean(g, i).scope].kind.snapshot
    ensures HeldBy(Mean(g, i)) == {} <==> Mean(g, i).tracked == []
  {
    FrameSem(g, i);
    NothingTracked(g.es, g.space, Mean(g, i));
    EmptyFrameIsSnapshot(g.es, g.space, Mean(g, i));
  }

  /** If the innermost frame means no more than frame `lo`, nothing was added in between. */
  lemma NothingBetween(g: Graph, lo: nat, hi: nat, i: nat)
    requires Inv(g) && lo < i <= hi < |g.stack| && Mean(g, hi).alloc == Mean(g, lo).alloc
    ensures EnteredExactly(g, i) && HeldBy(Mean(g, i)) == {}
  {
    InnerExtends(g, i, hi);
    InnerExtends(g, lo, i - 1);
    EmptyHolds(g, i);
    assert FrameOk(g, i);
    var snap := g.es[Mean(g, i).scope].kind.snapshot;
    hide Inv, SemOk;
    ExtendsTransitive(snap, Mean(g, i - 1).alloc, Mean(g, lo).alloc);
    ExtendsTransitive(Mean(g, i).alloc, snap, Mean(g, lo).alloc);
    ExtendsBoth(Mean(g, i).alloc, Mean(g, hi).alloc);
    ExtendsBoth(snap, Mean(g, i).alloc);
    ExtendsTransitive(snap, Mean(g, i - 1).alloc, Mean(g, lo).alloc);
    ExtendsTransitive(Mean(g, i - 1).alloc, Mean(g, lo).alloc, Mean(g, lo).alloc);
    ExtendsBoth(snap, Mean(g, i - 1).alloc);
  }

  /** A recording frame that leaves gives its recorder's state to the next recording frame, over those that replay. */
  lemma EndSettled(g: Graph, k: nat)
    requires Inv(g) && !g.failed && g.stack != [] && Top(g).cursor < |g.es| && Top(g).recording
    requires Mean(g, |g.stack| - 1).tracked == [] && k <= Recorder(RecordEnd(g).stack)
    ensures Settled(RecordEnd(g), k) <==> Settled(g, k)
  {
    hide Inv, RecordEnd, Mean, EnteredExactly, Recorder, SemOk, HeldBy, Calm;
    var r, top := RecordEnd(g), |g.stack| - 1;
    var h := Recorder(r.stack);
    EndFrames(g, k);
    EmptyHolds(g, top);
    if Calm(g, k, top) { EndUncovers(g, k, h); }
    if g.alloc == Mean(g, h).alloc && Calm(g, k, h) { EndCovers(g, k, h); }
  }

  lemma EndFrames(g: Graph, k: nat)
    requires Inv(g) && !g.failed && g.stack != [] && Top(g).cursor < |g.es| && Top(g).recording
    requires k <= Recorder(RecordEnd(g).stack)
    ensures var r := RecordEnd(g); var h := Recorder(r.stack);
      && h < |g.stack| - 1 && g.stack[h].recording && (forall i :: h < i < |g.stack| - 1 ==> !g.stack[i].recording)
      && Recorder(g.stack) == |g.stack| - 1
      && (Settled(r, k) <==> g.alloc == Mean(g, h).alloc && Calm(g, k, h))
  {
    hide Inv, Grown, RecordEnd, Mean, EnteredExactly, Recorder;
    var r, top := RecordEnd(g), |g.stack| - 1;
    var h := Recorder(r.stack);
    EndShape(g);
    FramesKept(g, r, top);
    RecorderIs(g.stack, top);
    assert forall i :: h < i < top ==> !r.stack[i].recording;
    assert Calm(r, k, h) <==> Calm(g, k, h);
  }

  lemma EndShape(g: Graph)
    requires g.stack != [] && Top(g).cursor < |g.es|
    ensures var r := RecordEnd(g);
      r.alloc == g.alloc && r.stack == g.stack[..|g.stack| - 1] && Grown(g.es, r.es) && r.failed == g.failed
  {
    AppendGrows(g.es, Top(g).cursor, End);
  }

  lemma EndUncovers(g: Graph, k: nat, h: nat)
    requires Inv(g) && k <= h < |g.stack| - 1 && Calm(g, k, |g.stack| - 1)
    requires HeldBy(Mean(g, |g.stack| - 1)) == {} && forall i :: h < i < |g.stack| - 1 ==> !g.stack[i].recording
    ensures Mean(g, |g.stack| - 1).alloc == Mean(g, h).alloc && Calm(g, k, h)
  {
    hide Inv, Mean, EnteredExactly;
    NothingAdded(g, h, |g.stack| - 1);
  }

  lemma EndCovers(g: Graph, k: nat, h: nat)
    requires Inv(g) && !g.failed && k <= h < |g.stack| - 1 && g.stack[h].recording && Calm(g, k, h)
    requires Top(g).recording && g.alloc == Mean(g, h).alloc && HeldBy(Mean(g, |g.stack| - 1)) == {}
    ensures g.alloc == Mean(g, |g.stack| - 1).alloc && Calm(g, k, |g.stack| - 1)
  {
    hide Inv, Mean, EnteredExactly;
    var top := |g.stack| - 1;
    RecorderIsLower(g, h);
    forall i | h < i <= top ensures EnteredExactly(g, i) && HeldBy(Mean(g, i)) == {} { NothingBetween(g, h, top, i); }
  }

  lemma RecorderIsLower(g: Graph, h: nat)
    requires Inv(g) && !g.failed && h < |g.stack| - 1 && Top(g).recording && g.alloc == Mean(g, h).alloc
    ensures g.alloc == Mean(g, |g.stack| - 1).alloc
  {
    var top := |g.stack| - 1;
    assert FrameOk(g, top);
    hide Inv, Mean, FrameOk;
    InnerExtends(g, h, top);
    ExtendsBoth(g.alloc, Mean(g, top).alloc);
  }

  // ---------------------------------------------------------------- any step

  /** What a break leaves: the recorder is exact, so only the frames below the one that broke matter. */
  lemma BreakSettles(g: Graph, k: nat)
    requires Inv(g) && !g.failed && g.stack != [] && !Top(g).recording && !g.assertBreaks && k < |g.stack|
    ensures Settled(Ready(g), k) <==> Calm(g, k, |g.stack| - 1)
  {
    var r, top := Ready(g), |g.stack| - 1;
    ReadyKeeps(g);
    FramesKept(g, r, top);
    EntrySame(g, r, top);
    assert r.alloc == Mean(r, top).alloc;
    hide Inv, Mean, EnteredExactly, Recorder, Ready;
    assert Recorder(r.stack) == top;
    assert Calm(r, k, top) <==> Calm(g, k, top);
  }

  /** A request that breaks does what it would have done on the rebuilt state. */
  lemma BreakThenStep(g: Graph, q: Request)
    requires Inv(g) && Breaks(g, q) && !Step(g, q).0.failed
    ensures !Ready(g).failed && Step(g, q) == Step(Ready(g), q) && !g.assertBreaks && !Breaks(Ready(g), q)
  {
    ReadyKeeps(g);
    hide Inv;
  }

  lemma StepSettled(g: Graph, ledger: Ledger, q: Request, k: nat)
    requires Inv(g) && Agrees(g, ledger) && Fair(ledger, q) && Sound(g, q)
    requires !Breaks(g, q) && !Step(g, q).0.failed && k <= Recorder(g.stack) && k <= Recorder(Step(g, q).0.stack)
    ensures Settled(Step(g, q).0, k) <==> Settled(g, k)
  {
    CursorOk(g);
    match q
    case AllocReq(size, place) => if g.stack != [] { AllocSettled(g, size, place, k); }
    case FreeReq(loc) => if g.stack != [] { FreeSettled(g, ledger, loc, k); }
    case PushReq(name) => if g.stack != [] { PushSettled(g, name, k); }
    case PopReq => if g.stack != [] { PopSettled(g, k); }
    case RootReq =>
  }

  lemma AllocSettled(g: Graph, size: nat, place: Place, k: nat)
    requires Inv(g) && !g.failed && g.stack != [] && Top(g).cursor < |g.es| && PlaceOk(Ready(g), size, place)
    requires !Breaks(g, AllocReq(size, place)) && !DoAlloc(g, size, place).0.failed
    ensures Settled(DoAlloc(g, size, place).0, k) <==> Settled(g, k)
  {
    hide Inv, Settled;
    if Top(g).recording {
      TakeSettled(g, size, place, k);
    } else {
      AdvanceSettled(g, Find(g.es, Top(g).cursor, KTake(size >= SMALL_LIMIT, size)).node, k);
    }
  }

  /** A recorded free that does not fail the graph frees what its own frame holds. */
  lemma RecordedFreeIsHeld(g: Graph, ledger: Ledger, loc: Loc)
    requires Inv(g) && !g.failed && g.stack != [] && Top(g).cursor < |g.es| && Top(g).recording
    requires Agrees(g, ledger) && Fair(ledger, FreeReq(loc)) && !DoFree(g, loc).0.failed
    ensures Holds(g, |g.stack| - 1, loc)
  {
    hide Inv;
    if loc !in ledger[|ledger| - 1] {
      var j :| 0 <= j < |ledger| && loc in ledger[j];
      assert Holds(g, j, loc);
      DropOutsideFails(g, loc, j);
    }
  }

  lemma FreeSettled(g: Graph, ledger: Ledger, loc: Loc, k: nat)
    requires Inv(g) && !g.failed && g.stack != [] && Top(g).cursor < |g.es| && Agrees(g, ledger) && Fair(ledger, FreeReq(loc))
    requires !Breaks(g, FreeReq(loc)) && !DoFree(g, loc).0.failed
    ensures Settled(DoFree(g, loc).0, k) <==> Settled(g, k)
  {
    hide Inv, Settled;
    if Top(g).recording {
      RecordedFreeIsHeld(g, ledger, loc);
      DropSettled(g, loc, k);
    } else {
      AdvanceSettled(g, Find(g.es, Top(g).cursor, KDrop(loc)).node, k);
    }
  }

  lemma PushSettled(g: Graph, name: string, k: nat)
    requires Inv(g) && !g.failed && g.stack != [] && Top(g).cursor < |g.es| && k <= Recorder(g.stack)
    requires !Breaks(g, PushReq(name)) && !DoPush(g, name).0.failed
    ensures Settled(DoPush(g, name).0, k) <==> Settled(g, k)
  {
    hide Inv, Settled;
    var found := Find(g.es, Top(g).cursor, KCall(name));
    if found.Child? { EnterSettled(g, g.es[found.node].kind.scope, k); } else { CallSettled(g, name, k); }
  }

  lemma PopSettled(g: Graph, k: nat)
    requires Inv(g) && !g.failed && g.stack != [] && Top(g).cursor < |g.es|
    requires !Breaks(g, PopReq) && !DoPop(g).0.failed && k <= Recorder(DoPop(g).0.stack)
    ensures Settled(DoPop(g).0, k) <==> Settled(g, k)
  {
    hide Inv, Settled, Recorder, Mean;
    if Top(g).recording {
      TrackedIs(g);
      EndSettled(g, k);
    } else {
      CloseSettled(g, k);
    }
  }

  lemma TrackedIs(g: Graph)
    requires Inv(g) && g.stack != [] && Top(g).recording
    ensures Top(g).tracked == Mean(g, |g.stack| - 1).tracked
  {
    assert FrameOk(g, |g.stack| - 1);
  }

  // ---------------------------------------------------------------- runs

  datatype Broke = Never | Under(g: Graph)

  /** The state in which the last break of a run happened. */
  function LastBreak(g: Graph, qs: seq<Request>): Broke
    decreases |qs|
  {
    if qs == [] then Never
    else
      var later := LastBreak(Step(g, qs[0]).0, qs[1..]);
      if later == Never && Breaks(g, qs[0]) then Under(g) else later
  }

  /** Frame `k` stays open throughout the run. */
  predicate StaysOpen(g: Graph, qs: seq<Request>, k: nat)
    decreases |qs|
  {
    k < |g.stack| && (qs == [] || StaysOpen(Step(g, qs[0]).0, qs[1..], k))
  }

  lemma RecorderIsAtLeast(stack: seq<Frame>, k: nat)
    requires k < |stack| && stack[k].recording
    ensures k <= Recorder(stack)
  {}

  /** A recording frame goes on recording while it is open. */
  lemma StaysRecording(g: Graph, q: Request, k: nat)
    requires k < |g.stack| && g.stack[k].recording && k < |Step(g, q).0.stack|
    ensures Step(g, q).0.stack[k].recording
  {
    if k + 1 < |g.stack| { OuterFrameKept(g, q, k); } else { TopStaysRecording(g, q); }
  }

  lemma TopStaysRecording(g: Graph, q: Request)
    requires g.stack != [] && Top(g).recording && |Step(g, q).0.stack| >= |g.stack|
    ensures Step(g, q).0.stack[|g.stack| - 1].recording
  {
    match q
    case AllocReq(size, place) =>
    case FreeReq(loc) =>
    case _ =>
  }

  /** The last break decides what the recorder holds when frame `k` is on top again. */
  lemma {:induction false} LastBreakDecides(g: Graph, ledger: Ledger, qs: seq<Request>, k: nat)
    requires Inv(g) && Agrees(g, ledger) && FairRun(g, ledger, qs) && StaysOpen(g, qs, k) && g.stack[k].recording
    ensures var r := Run(g, ledger, qs).0; var last := LastBreak(g, qs);
      !r.failed ==>
        && k < |r.stack| && r.stack[k].recording
        && (last.Under? ==> k < |last.g.stack|)
        && (Settled(r, k) <==> if last.Under? then Calm(last.g, k, |last.g.stack| - 1) else Settled(g, k))
    decreases |qs|
  {
    hide Inv, Agrees, Fair, Sound, Settled, Calm, Record, Breaks, Step;
    if qs != [] {
      var (r, answer) := Step(g, qs[0]);
      var books := Record(ledger, qs[0], answer, r.failed);
      StepKeeps(g, ledger, qs[0]);
      StaysRecording(g, qs[0], k);
      LastBreakDecides(r, books, qs[1..], k);
      if r.failed { FailedRun(r, books, qs[1..]); } else { FirstStepDecides(g, ledger, qs[0], k); }
    }
  }

  lemma FirstStepDecides(g: Graph, ledger: Ledger, q: Request, k: nat)
    requires Inv(g) && Agrees(g, ledger) && Fair(ledger, q) && Sound(g, q) && k < |g.stack| && g.stack[k].recording
    requires !Step(g, q).0.failed && k < |Step(g, q).0.stack| && Step(g, q).0.stack[k].recording
    ensures Settled(Step(g, q).0, k) <==> if Breaks(g, q) then Calm(g, k, |g.stack| - 1) else Settled(g, k)
  {
    RecorderIsAtLeast(g.stack, k);
    RecorderIsAtLeast(Step(g, q).0.stack, k);
    if Breaks(g, q) {
      BreakThenStep(g, q);
      ReadyAgrees(g, ledger);
      BreakSettles(g, k);
      ReadyStack(g, k);
      StepSettled(Ready(g), ledger, q, k);
    } else {
      StepSettled(g, ledger, q, k);
    }
  }

  lemma ReadyStack(g: Graph, k: nat)
    requires k < |g.stack|
    ensures |Ready(g).stack| == |g.stack| && (g.stack[k].recording ==> k <= Recorder(Ready(g).stack))
    ensures Ready(Ready(g)) == Ready(g) || Ready(g).failed
  {
    if g.stack[k].recording { RecorderIsAtLeast(Ready(g).stack, k); }
  }

  /**
    Frame `k` records on exactly its state; anything happens in it and in frames above it, and it
    is the innermost frame again.  The recorder's state is still exactly the frame's if and only
    if at the last break every scope above the frame had been entered with exactly its caller's
    state and no replaying frame in between held anything.
  */
  lemma StaleIffHeldAtLastBreak(g: Graph, ledger: Ledger, qs: seq<Request>, k: nat)
    requires Inv(g) && Agrees(g, ledger) && FairRun(g, ledger, qs) && StaysOpen(g, qs, k)
    requires Exact(g) && |g.stack| == k + 1
    ensures var r := Run(g, ledger, qs).0; var last := LastBreak(g, qs);
      !r.failed && |r.stack| == k + 1 ==>
        && (last.Under? ==> k < |last.g.stack|)
        && (Exact(r) <==> (last.Under? ==> Calm(last.g, k, |last.g.stack| - 1)))
  {
    hide Inv, Agrees, FairRun, StaysOpen, Run, LastBreak, Mean, EnteredExactly;
    LastBreakDecides(g, ledger, qs, k);
  }

  // ---------------------------------------------------------------- runs that never go stale

  /** The call's scope was recorded on exactly what its caller means. */
  predicate CallExact(es: Events, n: nat)
    requires n < |es| && es[n].kind.Call?
  {
    var scope := es[n].kind.scope;
    scope < |es| && es[scope].kind.Scope? && es[scope].kind.snapshot == Meaning(es, es[n].prev).alloc
  }

  predicate TreeExact(es: Events) {
    forall n :: 0 <= n < |es| && es[n].kind.Call? ==> CallExact(es, n)
  }

  predicate EntriesExact(g: Graph) {
    forall i :: 0 < i < |g.stack| ==> EnteredExactly(g, i)
  }

  /** Every scope, open or not, was recorded from exactly its caller's state, and the recorder is exact too. */
  predicate Orderly(g: Graph) {
    TreeExact(g.es) && EntriesExact(g) && (Recorder(g.stack) >= 0 ==> Settled(g, 0))
  }

  /** The request does not break the innermost frame while a frame that replays below it holds something. */
  predicate Tidy(g: Graph, ledger: Ledger, q: Request) {
    Breaks(g, q) ==> forall i :: 0 <= i < |g.stack| - 1 && i < |ledger| && !g.stack[i].recording ==> ledger[i] == {}
  }

  lemma CreatedIsOrderly(assertBreaks: bool)
    ensures Orderly(Created(assertBreaks)) && Exact(Created(assertBreaks))
  {}

  lemma TreeExactGrows(es: Events, sp: Space, es': Events)
    requires TreeOk(es, sp) && TreeExact(es) && Grown(es, es')
    requires forall n :: |es| <= n < |es'| && es'[n].kind.Call? ==> CallExact(es', n)
    ensures TreeExact(es')
  {
    forall n | 0 <= n < |es'| && es'[n].kind.Call? ensures CallExact(es', n) {
      if n < |es| {
        assert NodeOk(es, sp, n) && CallExact(es, n);
        MeaningStable(es, es', es[n].prev);
      }
    }
  }

  lemma EntriesKept(g: Graph, r: Graph)
    requires Inv(g) && EntriesExact(g) && Grown(g.es, r.es) && |r.stack| <= |g.stack| + 1
    requires forall i :: 0 <= i < |r.stack| - 1 ==> i < |g.stack| && r.stack[i] == g.stack[i]
    requires |r.stack| > 1 ==> EnteredExactly(r, |r.stack| - 1)
    ensures EntriesExact(r)
  {
    hide Inv, Grown, Mean, EnteredExactly;
    if r.stack != [] { FramesKept(g, r, |r.stack| - 1); }
  }

  /** Entering a known scope of an exact tree is an exact entry. */
  lemma EnterExactly(g: Graph, call: nat)
    requires Inv(g) && g.stack != [] && Top(g).cursor < |g.es| && TreeExact(g.es)
    requires call < |g.es| && call in g.es[Top(g).cursor].next && g.es[call].kind.Call?
    ensures EnteredExactly(Enter(g, g.es[call].kind.scope), |g.stack|)
  {
    assert NodeOk(g.es, g.space, Top(g).cursor);
    assert CallExact(g.es, call);
  }

  /** The events and frames after a step that does not break. */
  lemma StepStructure(g: Graph, ledger: Ledger, q: Request)
    requires Inv(g) && Agrees(g, ledger) && Fair(ledger, q) && Sound(g, q) && !Breaks(g, q) && !Step(g, q).0.failed
    requires TreeExact(g.es) && EntriesExact(g)
    requires g.stack != [] && Top(g).recording ==> g.alloc == Mean(g, |g.stack| - 1).alloc
    ensures TreeExact(Step(g, q).0.es) && EntriesExact(Step(g, q).0)
  {
    CursorOk(g);
    match q
    case AllocReq(size, place) => if g.stack != [] { AllocStructure(g, size, place); }
    case FreeReq(loc) => if g.stack != [] { FreeStructure(g, ledger, loc); }
    case PushReq(name) => if g.stack != [] { PushStructure(g, name); }
    case PopReq => if g.stack != [] { PopStructure(g); }
    case RootReq =>
  }

  lemma SameScopeSameEntry(g: Graph, r: Graph)
    requires Inv(g) && EntriesExact(g) && Grown(g.es, r.es) && g.stack != [] && |r.stack| == |g.stack|
    requires forall i :: 0 <= i < |r.stack| - 1 ==> r.stack[i] == g.stack[i]
    requires Mean(r, |g.stack| - 1).scope == Mean(g, |g.stack| - 1).scope
    ensures EntriesExact(r)
  {
    EntrySame(g, r, |g.stack| - 1);
    EntriesKept(g, r);
  }

  lemma AllocStructure(g: Graph, size: nat, place: Place)
    requires Inv(g) && !g.failed && g.stack != [] && Top(g).cursor < |g.es| && PlaceOk(Ready(g), size, place)
    requires !Breaks(g, AllocReq(size, place)) && !DoAlloc(g, size, place).0.failed && TreeExact(g.es) && EntriesExact(g)
    ensures TreeExact(DoAlloc(g, size, place).0.es) && EntriesExact(DoAlloc(g, size, place).0)
  {
    var top := |g.stack| - 1;
    if Top(g).recording {
      RecordTakeKeeps(g, place.loc, size, place.space, place.physCount, place.smallPages);
      AppendGrows(g.es, Top(g).cursor, Take(place.loc, size));
      ApplyKeepsScope(Mean(g, top), |g.es|, Take(place.loc, size));
      TreeExactGrows(g.es, g.space, DoAlloc(g, size, place).0.es);
    } else {
      var node := Find(g.es, Top(g).cursor, KTake(size >= SMALL_LIMIT, size)).node;
      AdvanceKeeps(g, node);
      ApplyKeepsScope(Mean(g, top), node, g.es[node].kind);
    }
    hide Inv, Grown, EntriesExact, Mean, TreeExact;
    SameScopeSameEntry(g, DoAlloc(g, size, place).0);
  }

  lemma FreeStructure(g: Graph, ledger: Ledger, loc: Loc)
    requires Inv(g) && !g.failed && g.stack != [] && Top(g).cursor < |g.es| && Agrees(g, ledger) && Fair(ledger, FreeReq(loc))
    requires !Breaks(g, FreeReq(loc)) && !DoFree(g, loc).0.failed && TreeExact(g.es) && EntriesExact(g)
    ensures TreeExact(DoFree(g, loc).0.es) && EntriesExact(DoFree(g, loc).0)
  {
    hide Inv, Grown, EntriesExact, Mean, TreeExact;
    FreeShape(g, ledger, loc);
    TreeExactOnly(g, DoFree(g, loc).0);
    SameScopeSameEntry(g, DoFree(g, loc).0);
  }

  lemma TreeExactOnly(g: Graph, r: Graph)
    requires Inv(g) && TreeExact(g.es) && Grown(g.es, r.es) && |r.es| <= |g.es| + 1
    requires |r.es| == |g.es| + 1 ==> !r.es[|g.es|].kind.Call?
    ensures TreeExact(r.es)
  {
    TreeExactGrows(g.es, g.space, r.es);
  }

  lemma FreeShape(g: Graph, ledger: Ledger, loc: Loc)
    requires Inv(g) && !g.failed && g.stack != [] && Top(g).cursor < |g.es| && Agrees(g, ledger) && Fair(ledger, FreeReq(loc))
    requires !Breaks(g, FreeReq(loc)) && !DoFree(g, loc).0.failed
    ensures var r, top := DoFree(g, loc).0, |g.stack| - 1;
      && Grown(g.es, r.es) && |r.es| <= |g.es| + 1 && |r.stack| == |g.stack|
      && (|r.es| == |g.es| + 1 ==> !r.es[|g.es|].kind.Call?)
      && (forall i :: 0 <= i < top ==> r.stack[i] == g.stack[i])
      && Mean(r, top).scope == Mean(g, top).scope
  {
    hide Inv, Fair, Agrees;
    var top := |g.stack| - 1;
    if Top(g).recording {
      RecordedFreeIsHeld(g, ledger, loc);
      RecordDropKeeps(g, loc);
      AppendGrows(g.es, Top(g).cursor, Drop(loc));
      ApplyKeepsScope(Mean(g, top), |g.es|, Drop(loc));
    } else {
      var node := Find(g.es, Top(g).cursor, KDrop(loc)).node;
      AdvanceKeeps(g, node);
      ApplyKeepsScope(Mean(g, top), node, g.es[node].kind);
    }
  }

  lemma PushStructure(g: Graph, name: string)
    requires Inv(g) && !g.failed && g.stack != [] && Top(g).cursor < |g.es| && TreeExact(g.es) && EntriesExact(g)
    requires !Breaks(g, PushReq(name)) && !DoPush(g, name).0.failed
    requires Top(g).recording ==> g.alloc == Mean(g, |g.stack| - 1).alloc
    ensures TreeExact(DoPush(g, name).0.es) && EntriesExact(DoPush(g, name).0)
  {
    hide Inv, Grown, EntriesExact, Mean, EnteredExactly, TreeExact;
    var found, r := Find(g.es, Top(g).cursor, KCall(name)), DoPush(g, name).0;
    if found.Child? {
      EnterExactly(g, found.node);
      GrownIsReflexive(g.es);
    } else {
      NewScope(g, name);
      CallTreeExact(g, name);
    }
    EntriesKept(g, r);
  }

  lemma GrownIsReflexive(es: Events)
    ensures Grown(es, es)
  {}

  lemma CallTreeExact(g: Graph, name: string)
    requires Inv(g) && !g.failed && g.stack != [] && Top(g).cursor < |g.es| && Top(g).recording && TreeExact(g.es)
    requires g.alloc == Mean(g, |g.stack| - 1).alloc && Grown(g.es, RecordCall(g, name).es)
    ensures TreeExact(RecordCall(g, name).es)
  {
    var r := RecordCall(g, name);
    assert CallExact(r.es, |g.es|) by { MeaningStable(g.es, r.es, Top(g).cursor); }
    TreeExactGrows(g.es, g.space, r.es);
  }

  lemma PopStructure(g: Graph)
    requires Inv(g) && !g.failed && g.stack != [] && Top(g).cursor < |g.es| && TreeExact(g.es) && EntriesExact(g)
    requires !Breaks(g, PopReq) && !DoPop(g).0.failed
    ensures TreeExact(DoPop(g).0.es) && EntriesExact(DoPop(g).0)
  {
    hide Inv, Grown, Mean, EnteredExactly, TreeExact;
    var r := DoPop(g).0;
    PopShape(g);
    TreeExactOnly(g, r);
    FramesKept(g, r, |r.stack|);
  }

  lemma PopShape(g: Graph)
    requires g.stack != [] && Top(g).cursor < |g.es| && !Breaks(g, PopReq) && !g.failed && !DoPop(g).0.failed
    ensures var r := DoPop(g).0;
      && r.stack == g.stack[..|g.stack| - 1] && Grown(g.es, r.es) && |r.es| <= |g.es| + 1
      && (|r.es| == |g.es| + 1 ==> !r.es[|g.es|].kind.Call?)
  {
    AppendGrows(g.es, Top(g).cursor, End);
  }

  /** Without a break, no frame starts to record above frames that all replay. */
  lemma NoNewRecorder(g: Graph, q: Request)
    requires Inv(g) && Recorder(g.stack) == -1 && !Breaks(g, q) && !Step(g, q).0.failed
    ensures Recorder(Step(g, q).0.stack) == -1
  {
    CursorOk(g);
    RecorderIs(Step(g, q).0.stack, -1);
  }

  lemma QuietStepIsOrderly(g: Graph, ledger: Ledger, q: Request)
    requires Inv(g) && Agrees(g, ledger) && Fair(ledger, q) && Sound(g, q) && Orderly(g)
    requires !Breaks(g, q) && !Step(g, q).0.failed
    ensures Orderly(Step(g, q).0)
  {
    hide Inv, Agrees, Fair, Sound, Breaks, Step, TreeExact, EntriesExact;
    StepStructure(g, ledger, q);
    if Recorder(g.stack) < 0 { NoNewRecorder(g, q); }
    else if Recorder(Step(g, q).0.stack) >= 0 { StepSettled(g, ledger, q, 0); }
  }

  lemma ReadyIsOrderly(g: Graph, ledger: Ledger, q: Request)
    requires Inv(g) && Agrees(g, ledger) && Orderly(g) && Breaks(g, q) && Tidy(g, ledger, q) && !g.assertBreaks
    ensures Orderly(Ready(g))
  {
    ReadyKeeps(g);
    FramesKept(g, Ready(g), |g.stack| - 1);
    EntrySame(g, Ready(g), |g.stack| - 1);
    hide Inv, Mean, EnteredExactly, TreeExact, Recorder;
    assert Calm(g, 0, |g.stack| - 1);
    BreakSettles(g, 0);
  }

  lemma StepIsOrderly(g: Graph, ledger: Ledger, q: Request)
    requires Inv(g) && Agrees(g, ledger) && Fair(ledger, q) && Sound(g, q) && Orderly(g) && Tidy(g, ledger, q)
    ensures !Step(g, q).0.failed ==> Orderly(Step(g, q).0)
  {
    hide Inv, Agrees, Fair, Tidy, Orderly;
    if !Step(g, q).0.failed {
      if Breaks(g, q) {
        BreakThenStep(g, q);
        ReadyAgrees(g, ledger);
        ReadyIsOrderly(g, ledger, q);
        hide Step;
        QuietStepIsOrderly(Ready(g), ledger, q);
      } else {
        QuietStepIsOrderly(g, ledger, q);
      }
    }
  }

  predicate TidyRun(g: Graph, ledger: Ledger, qs: seq<Request>)
    decreases |qs|
  {
    qs == [] ||
    (Tidy(g, ledger, qs[0]) &&
     var (r, answer) := Step(g, qs[0]);
     TidyRun(r, Record(ledger, qs[0], answer, r.failed), qs[1..]))
  }

  /**
    In a run in which no frame breaks above a replaying frame that holds something, every scope is
    recorded from exactly its caller's state and whatever records does so on exactly its state.
  */
  lemma {:induction false} TidyRunIsExact(g: Graph, ledger: Ledger, qs: seq<Request>)
    requires Inv(g) && Agrees(g, ledger) && FairRun(g, ledger, qs) && TidyRun(g, ledger, qs) && Orderly(g)
    ensures var r := Run(g, ledger, qs).0;
      !r.failed ==> Orderly(r) && (r.stack != [] && Top(r).recording ==> Exact(r))
    decreases |qs|
  {
    hide Inv, Agrees, Fair, Sound, Tidy, Record, Step;
    if qs != [] {
      var (r, answer) := Step(g, qs[0]);
      var books := Record(ledger, qs[0], answer, r.failed);
      StepKeeps(g, ledger, qs[0]);
      StepIsOrderly(g, ledger, qs[0]);
      if r.failed { FailedRun(r, books, qs[1..]); } else { TidyRunIsExact(r, books, qs[1..]); }
    }
  }

  // ---------------------------------------------------------------- rebuilding is recording

  /**
    A frame recorded directly from its scope, by any takes, frees and balanced scopes, against the
    same frame replayed later to the same event and breaking there.  The tracked allocations are
    the same, and the state that is rebuilt is the one that direct recording had if and only if
    direct recording was not left stale by a break inside it; without any break it always is.
  */
  lemma RebuildingIsRecording(g: Graph, name: string, ledger: Ledger, qs: seq<Request>, s: Graph)
    requires Inv(g) && !g.failed && g.stack != [] && Top(g).cursor < |g.es| && Top(g).recording
    requires Agrees(RecordCall(g, name), ledger) && FairRun(RecordCall(g, name), ledger, qs)
    requires StaysOpen(RecordCall(g, name), qs, |g.stack|)
    requires var r := Run(RecordCall(g, name), ledger, qs).0;
      && !r.failed && |r.stack| == |g.stack| + 1
      && Inv(s) && !s.failed && s.stack != [] && !Top(s).recording && !s.assertBreaks
      && Grown(r.es, s.es) && Top(s).cursor == Top(r).cursor
    ensures var r := Run(RecordCall(g, name), ledger, qs).0; var last := LastBreak(RecordCall(g, name), qs);
      && Top(Ready(s)).tracked == Top(r).tracked
      && (last.Under? ==> |g.stack| < |last.g.stack|)
      && (Ready(s).alloc == r.alloc <==> (last.Under? ==> Calm(last.g, |g.stack|, |last.g.stack| - 1)))
  {
    hide Inv, Run, RecordCall, Agrees, Fair, LastBreak, StaysOpen, FairRun, AllApart, Calm, Ready, Mean, Grown;
    var c := RecordCall(g, name);
    NewScope(g, name);
    RunIsSafe(c, ledger, qs);
    StaysRecordingRun(c, ledger, qs, |g.stack|);
    StaleIffHeldAtLastBreak(c, ledger, qs, |g.stack|);
    RebuiltMeans(Run(c, ledger, qs).0, s);
  }

  lemma RebuiltMeans(r: Graph, s: Graph)
    requires Inv(r) && r.stack != [] && Top(r).recording
    requires Inv(s) && !s.failed && s.stack != [] && !Top(s).recording && !s.assertBreaks
    requires Grown(r.es, s.es) && Top(s).cursor == Top(r).cursor
    ensures Ready(s).alloc == Mean(r, |r.stack| - 1).alloc && Top(Ready(s)).tracked == Top(r).tracked
  {
    FrameSem(r, |r.stack| - 1);
    assert FrameOk(r, |r.stack| - 1);
    MeaningStable(r.es, s.es, Top(r).cursor);
  }

  lemma {:induction false} StaysRecordingRun(g: Graph, ledger: Ledger, qs: seq<Request>, k: nat)
    requires StaysOpen(g, qs, k) && g.stack[k].recording
    ensures k < |Run(g, ledger, qs).0.stack| && Run(g, ledger, qs).0.stack[k].recording
    decreases |qs|
  {
    if qs != [] {
      var (r, answer) := Step(g, qs[0]);
      StaysRecording(g, qs[0], k);
      hide Step;
      StaysRecordingRun(r, Record(ledger, qs[0], answer, r.failed), qs[1..], k);
    }
  }
}
