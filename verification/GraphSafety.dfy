/**
  Safety of the allocation-graph compiler over whole runs: whatever mixture of recording,
  replay and broken replay produced them, the allocations a client holds share no physical
  page and no byte of the small heap.
*/
module GraphSafety {
  import opened GraphModel
  import opened GraphTree

  // ---------------------------------------------------------------- the invariant of a graph

  function Mean(g: Graph, k: nat): Sem
    requires k < |g.stack|
  {
    Meaning(g.es, g.stack[k].cursor)
  }

  /** The scope was entered with everything the caller means still in place. */
  predicate EnteredFrom(es: Events, scope: nat, caller: Sem) {
    scope < |es| && es[scope].kind.Scope? && Extends(es[scope].kind.snapshot, caller.alloc)
  }

  predicate FrameOk(g: Graph, k: nat)
    requires k < |g.stack|
  {
    var f, s := g.stack[k], Mean(g, k);
    && f.cursor < |g.es| && !g.es[f.cursor].kind.End? && !g.es[f.cursor].kind.Call?
    && s.depth == f.depth == k + 1
    && (k > 0 ==> EnteredFrom(g.es, s.scope, Mean(g, k - 1)))
    && f.tracked == (if f.recording then s.tracked else [])
    && (f.recording && !g.failed ==> Extends(g.alloc, s.alloc))
  }

  predicate RecorderOk(g: Graph) {
    AllocOk(g.space, g.alloc) && forall l :: l in g.alloc ==> MadeBy(g.es, l, g.alloc[l])
  }

  predicate Inv(g: Graph) {
    && TreeOk(g.es, g.space)
    && (forall k :: 0 <= k < |g.stack| ==> FrameOk(g, k))
    && (!g.failed ==> RecorderOk(g))
  }

  lemma CreatedInv(assertBreaks: bool)
    ensures Inv(Created(assertBreaks))
  {
    var g := Created(assertBreaks);
    assert NodeOk(g.es, g.space, 0);
  }

  // ---------------------------------------------------------------- frames extend one another

  lemma ExtendsTransitive(a: Alloc, b: Alloc, c: Alloc)
    requires Extends(a, b) && Extends(b, c)
    ensures Extends(a, c)
  {}

  lemma FrameSem(g: Graph, k: nat)
    requires Inv(g) && k < |g.stack|
    ensures SemOk(g.es, g.space, Mean(g, k)) && g.stack[k].cursor < |g.es|
  {
    assert FrameOk(g, k);
    assert NodeOk(g.es, g.space, g.stack[k].cursor);
  }

  /** What an outer frame means is part of what every inner frame was entered with. */
  lemma {:induction false} InnerSnapshotExtends(g: Graph, j: nat, k: nat)
    requires Inv(g) && j < k < |g.stack|
    ensures EnteredFrom(g.es, Mean(g, k).scope, Mean(g, j))
  {
    assert FrameOk(g, k);
    if j < k - 1 {
      InnerSnapshotExtends(g, j, k - 1);
      FrameSem(g, k - 1);
      var snap := g.es[Mean(g, k).scope].kind.snapshot;
      ExtendsTransitive(Mean(g, k - 1).alloc, g.es[Mean(g, k - 1).scope].kind.snapshot, Mean(g, j).alloc);
      ExtendsTransitive(snap, Mean(g, k - 1).alloc, Mean(g, j).alloc);
    }
  }

  lemma InnerExtends(g: Graph, j: nat, k: nat)
    requires Inv(g) && j <= k < |g.stack|
    ensures Extends(Mean(g, k).alloc, Mean(g, j).alloc)
  {
    if j < k {
      InnerSnapshotExtends(g, j, k);
      FrameSem(g, k);
      ExtendsTransitive(Mean(g, k).alloc, g.es[Mean(g, k).scope].kind.snapshot, Mean(g, j).alloc);
    }
  }

  // ---------------------------------------------------------------- what clients hold

  /** The frame made the allocation and has not freed it. */
  predicate Holds(g: Graph, k: nat, loc: Loc)
    requires k < |g.stack|
  {
    loc in Mean(g, k).alloc && Mean(g, k).alloc[loc].ev > Mean(g, k).scope
  }

  function UnitsOf(g: Graph, k: nat, loc: Loc): nat
    requires k < |g.stack| && Holds(g, k, loc)
  {
    Mean(g, k).alloc[loc].units
  }

  /** An outer frame's allocation is still there, unchanged and not owned, in every inner frame. */
  lemma HeldOutside(g: Graph, j: nat, k: nat, loc: Loc)
    requires Inv(g) && j < k < |g.stack| && Holds(g, j, loc)
    ensures loc in Mean(g, k).alloc && Mean(g, k).alloc[loc] == Mean(g, j).alloc[loc]
    ensures !Holds(g, k, loc) && Mean(g, k).alloc[loc].depth == j + 1
  {
    InnerSnapshotExtends(g, j, k);
    FrameSem(g, k);
    FrameSem(g, j);
    assert FrameOk(g, j);
    assert Accounted(g.es[Mean(g, j).scope].kind.snapshot, Mean(g, j), loc);
  }

  /** Any two allocations held by any frames of the stack are apart. */
  lemma HeldAreApart(g: Graph, j: nat, l: Loc, k: nat, m: Loc)
    requires Inv(g) && j <= k < |g.stack| && Holds(g, j, l) && Holds(g, k, m) && (j, l) != (k, m)
    ensures Apart(g.space, l, UnitsOf(g, j, l), m, UnitsOf(g, k, m))
    ensures EntryOk(g.space, l, UnitsOf(g, j, l)) && l != m
  {
    hide Inv;
    FrameSem(g, k);
    FrameSem(g, j);
    if j < k { HeldOutside(g, j, k, l); }
  }

  // ---------------------------------------------------------------- steps that leave the tree alone

  /** A frame keeps its invariant when the arena and the space grow around it. */
  lemma FrameStable(g: Graph, g': Graph, k: nat)
    requires Inv(g) && k < |g.stack| && k < |g'.stack| && g'.stack[k] == g.stack[k]
    requires k > 0 ==> g'.stack[k - 1].cursor == g.stack[k - 1].cursor
    requires Grown(g.es, g'.es)
    requires g.stack[k].recording && !g'.failed ==> Extends(g'.alloc, Mean(g, k).alloc)
    ensures FrameOk(g', k) && Mean(g', k) == Mean(g, k)
  {
    assert FrameOk(g, k);
    MeaningStable(g.es, g'.es, g.stack[k].cursor);
    if k > 0 {
      assert FrameOk(g, k - 1);
      MeaningStable(g.es, g'.es, g.stack[k - 1].cursor);
    }
  }

  lemma ReadyKeeps(g: Graph)
    requires Inv(g) && !g.failed && g.stack != []
    ensures Inv(Ready(g)) && Ready(g).es == g.es && Ready(g).space == g.space && |Ready(g).stack| == |g.stack|
    ensures forall k :: 0 <= k < |g.stack| ==> Mean(Ready(g), k) == Mean(g, k)
    ensures !Ready(g).failed ==> Top(Ready(g)).recording
  {
    var r, top := Ready(g), |g.stack| - 1;
    if r != g && !g.assertBreaks {
      RebuiltKeeps(g);
    } else {
      forall k | 0 <= k < |g.stack| ensures FrameOk(r, k) { assert FrameOk(g, k); }
    }
  }

  lemma RebuiltKeeps(g: Graph)
    requires Inv(g) && !g.failed && g.stack != [] && !Top(g).recording && !g.assertBreaks
    ensures Inv(StartRecording(g))
    ensures forall k :: 0 <= k < |g.stack| ==> Mean(StartRecording(g), k) == Mean(g, k)
  {
    var top := |g.stack| - 1;
    forall k | 0 <= k < top ensures FrameOk(StartRecording(g), k) && Mean(StartRecording(g), k) == Mean(g, k) {
      OuterSeesRebuilt(g, k);
    }
    RebuiltTop(g);
    hide TreeOk, FrameOk, RecorderOk, Mean;
  }

  lemma OuterSeesRebuilt(g: Graph, k: nat)
    requires Inv(g) && !g.failed && g.stack != [] && !Top(g).recording && !g.assertBreaks && k < |g.stack| - 1
    ensures FrameOk(StartRecording(g), k) && Mean(StartRecording(g), k) == Mean(g, k)
  {
    InnerExtends(g, k, |g.stack| - 1);
    FrameStable(g, StartRecording(g), k);
  }

  lemma RebuiltTop(g: Graph)
    requires Inv(g) && !g.failed && g.stack != [] && !Top(g).recording && !g.assertBreaks
    ensures var r, top := StartRecording(g), |g.stack| - 1;
      FrameOk(r, top) && RecorderOk(r) && Mean(r, top) == Mean(g, top)
  {
    FrameSem(g, |g.stack| - 1);
    assert FrameOk(g, |g.stack| - 1);
    hide TreeOk;
  }

  /** Following a matched event keeps the invariant. */
  lemma AdvanceKeeps(g: Graph, node: nat)
    requires Inv(g) && !g.failed && g.stack != [] && !Top(g).recording
    requires Top(g).cursor < |g.es| && node < |g.es| && node in g.es[Top(g).cursor].next
    requires g.es[node].kind.Take? || g.es[node].kind.Drop?
    ensures Inv(Advance(g, node))
    ensures Mean(Advance(g, node), |g.stack| - 1) == Apply(Mean(g, |g.stack| - 1), node, g.es[node].kind)
  {
    var r, top := Advance(g, node), |g.stack| - 1;
    forall k | 0 <= k < top ensures FrameOk(r, k) { assert FrameOk(g, k); FrameStable(g, r, k); }
    AdvanceTop(g, node);
  }

  lemma AdvanceTop(g: Graph, node: nat)
    requires Inv(g) && !g.failed && g.stack != [] && !Top(g).recording
    requires Top(g).cursor < |g.es| && node < |g.es| && node in g.es[Top(g).cursor].next
    requires g.es[node].kind.Take? || g.es[node].kind.Drop?
    ensures FrameOk(Advance(g, node), |g.stack| - 1)
    ensures Mean(Advance(g, node), |g.stack| - 1) == Apply(Mean(g, |g.stack| - 1), node, g.es[node].kind)
  {
    var top := |g.stack| - 1;
    assert FrameOk(g, top);
    assert NodeOk(g.es, g.space, Top(g).cursor);
    ApplyKeepsScope(Mean(g, top), node, g.es[node].kind);
  }

  lemma ApplyKeepsScope(s: Sem, n: nat, kind: Kind)
    ensures Apply(s, n, kind).scope == s.scope && Apply(s, n, kind).depth == s.depth
  {}

  // ---------------------------------------------------------------- recording

  /** An outer recording frame means nothing at a place where the inner frame may allocate or free. */
  lemma OutsideOf(g: Graph, k: nat, loc: Loc)
    requires Inv(g) && k + 1 < |g.stack|
    requires loc !in Mean(g, |g.stack| - 1).alloc || Holds(g, |g.stack| - 1, loc)
    ensures loc !in Mean(g, k).alloc
  {
    var top := |g.stack| - 1;
    InnerSnapshotExtends(g, k, top);
    FoundIsNotHeld(g, top, loc);
  }

  lemma FoundIsNotHeld(g: Graph, k: nat, loc: Loc)
    requires Inv(g) && k < |g.stack|
    ensures Mean(g, k).scope < |g.es| && g.es[Mean(g, k).scope].kind.Scope?
    ensures loc in g.es[Mean(g, k).scope].kind.snapshot ==> loc in Mean(g, k).alloc && !Holds(g, k, loc)
  {
    FrameSem(g, k);
    SnapshotIsOlder(g.es, g.space, Mean(g, k), loc);
  }

  lemma SnapshotIsOlder(es: Events, sp: Space, s: Sem, loc: Loc)
    requires SemOk(es, sp, s)
    ensures loc in es[s.scope].kind.snapshot ==> loc in s.alloc && s.alloc[loc].ev < s.scope
  {
    if loc in es[s.scope].kind.snapshot { assert s.alloc[loc] == es[s.scope].kind.snapshot[loc]; }
  }

  lemma RecordTakeKeeps(g: Graph, loc: Loc, bytes: nat, sp: Space, phys: nat, small: nat)
    requires Inv(g) && !g.failed && g.stack != [] && Top(g).cursor < |g.es| && Top(g).recording
    requires Grows(g.space, sp) && CanTake(sp, g.alloc, loc, Units(loc, bytes))
    ensures Inv(RecordTake(g, loc, bytes, sp, phys, small))
    ensures Mean(RecordTake(g, loc, bytes, sp, phys, small), |g.stack| - 1) ==
            Apply(Mean(g, |g.stack| - 1), |g.es|, Take(loc, bytes))
  {
    RecordTakeTree(g, loc, bytes, sp, phys, small);
    RecordTakeTop(g, loc, bytes, sp, phys, small);
    RecordTakeRecorder(g, loc, bytes, sp, phys, small);
    forall k | 0 <= k < |g.stack| - 1 ensures FrameOk(RecordTake(g, loc, bytes, sp, phys, small), k) {
      RecordTakeOuter(g, loc, bytes, sp, phys, small, k);
    }
  }

  lemma RecordTakeTree(g: Graph, loc: Loc, bytes: nat, sp: Space, phys: nat, small: nat)
    requires Inv(g) && !g.failed && g.stack != [] && Top(g).cursor < |g.es| && Top(g).recording
    requires Grows(g.space, sp) && CanTake(sp, g.alloc, loc, Units(loc, bytes))
    ensures var r := RecordTake(g, loc, bytes, sp, phys, small);
      && !r.failed && |r.stack| == |g.stack| && TreeOk(r.es, r.space) && r.stack[|r.stack| - 1].cursor == |g.es|
      && Meaning(r.es, |g.es|) == Apply(Mean(g, |g.stack| - 1), |g.es|, Take(loc, bytes))
    ensures CanTake(sp, Mean(g, |g.stack| - 1).alloc, loc, Units(loc, bytes))
  {
    assert FrameOk(g, |g.stack| - 1);
    TakeFitsMeaning(g, loc, Units(loc, bytes), sp);
    AppendKeeps(g.es, g.space, Top(g).cursor, Take(loc, bytes), sp);
  }

  lemma RecordTakeTop(g: Graph, loc: Loc, bytes: nat, sp: Space, phys: nat, small: nat)
    requires Inv(g) && !g.failed && g.stack != [] && Top(g).cursor < |g.es| && Top(g).recording
    requires Grows(g.space, sp) && CanTake(sp, g.alloc, loc, Units(loc, bytes))
    requires Meaning(Append(g.es, Top(g).cursor, Take(loc, bytes)), |g.es|) ==
             Apply(Mean(g, |g.stack| - 1), |g.es|, Take(loc, bytes))
    ensures FrameOk(RecordTake(g, loc, bytes, sp, phys, small), |g.stack| - 1)
  {
    var r, top := RecordTake(g, loc, bytes, sp, phys, small), |g.stack| - 1;
    assert FrameOk(g, top);
    AppendGrows(g.es, Top(g).cursor, Take(loc, bytes));
    TopStable(g, r, top);
    ApplyKeepsScope(Mean(g, top), |g.es|, Take(loc, bytes));
  }

  lemma RecordTakeOuter(g: Graph, loc: Loc, bytes: nat, sp: Space, phys: nat, small: nat, k: nat)
    requires Inv(g) && !g.failed && g.stack != [] && Top(g).cursor < |g.es| && Top(g).recording
    requires Grows(g.space, sp) && CanTake(sp, g.alloc, loc, Units(loc, bytes))
    requires k + 1 < |g.stack| && loc !in Mean(g, |g.stack| - 1).alloc
    ensures FrameOk(RecordTake(g, loc, bytes, sp, phys, small), k)
  {
    OutsideOf(g, k, loc);
    assert FrameOk(g, k);
    AppendGrows(g.es, Top(g).cursor, Take(loc, bytes));
    FrameStable(g, RecordTake(g, loc, bytes, sp, phys, small), k);
  }

  lemma RecordTakeRecorder(g: Graph, loc: Loc, bytes: nat, sp: Space, phys: nat, small: nat)
    requires RecorderOk(g) && g.stack != [] && Top(g).cursor < |g.es|
    requires Grows(g.space, sp) && CanTake(sp, g.alloc, loc, Units(loc, bytes))
    ensures RecorderOk(RecordTake(g, loc, bytes, sp, phys, small))
  {
    var r := RecordTake(g, loc, bytes, sp, phys, small);
    AppendGrows(g.es, Top(g).cursor, Take(loc, bytes));
    AllocStable(g.space, sp, g.alloc);
    AddedIsApart(sp, g.alloc, loc, r.alloc[loc]);
    MadeStable(g, r, loc);
  }

  lemma TakeFitsMeaning(g: Graph, loc: Loc, units: nat, sp: Space)
    requires Inv(g) && !g.failed && g.stack != [] && Top(g).recording && CanTake(sp, g.alloc, loc, units)
    ensures CanTake(sp, Mean(g, |g.stack| - 1).alloc, loc, units)
  {
    assert FrameOk(g, |g.stack| - 1);
  }

  lemma MadeStable(g: Graph, r: Graph, loc: Loc)
    requires RecorderOk(g) && Grown(g.es, r.es)
    requires forall l :: l in r.alloc && l != loc ==> l in g.alloc && r.alloc[l] == g.alloc[l]
    requires loc in r.alloc ==> MadeBy(r.es, loc, r.alloc[loc])
    ensures forall l :: l in r.alloc ==> MadeBy(r.es, l, r.alloc[l])
  {
    forall l | l in r.alloc ensures MadeBy(r.es, l, r.alloc[l]) {
      if l != loc { assert MadeBy(g.es, l, g.alloc[l]); }
    }
  }

  /** The innermost frame's entry condition survives growth below it. */
  lemma TopStable(g: Graph, r: Graph, top: nat)
    requires Inv(g) && top < |g.stack| && |r.stack| == |g.stack| && Grown(g.es, r.es)
    requires top > 0 ==> r.stack[top - 1] == g.stack[top - 1]
    ensures top > 0 ==> EnteredFrom(r.es, Mean(g, top).scope, Mean(r, top - 1))
  {
    assert FrameOk(g, top);
    if top > 0 {
      assert FrameOk(g, top - 1);
      MeaningStable(g.es, r.es, g.stack[top - 1].cursor);
    }
  }

  /** Freeing an allocation the frame holds always succeeds while recording. */
  lemma RecordDropKeeps(g: Graph, loc: Loc)
    requires Inv(g) && !g.failed && g.stack != [] && Top(g).cursor < |g.es| && Top(g).recording
    requires Holds(g, |g.stack| - 1, loc)
    ensures Inv(RecordDrop(g, loc)) && !RecordDrop(g, loc).failed
    ensures Mean(RecordDrop(g, loc), |g.stack| - 1) == Apply(Mean(g, |g.stack| - 1), |g.es|, Drop(loc))
  {
    RecordDropTree(g, loc);
    RecordDropTop(g, loc);
    RecordDropRecorder(g, loc);
    forall k | 0 <= k < |g.stack| - 1 ensures FrameOk(RecordDrop(g, loc), k) { RecordDropOuter(g, loc, k); }
  }

  lemma RecordDropTree(g: Graph, loc: Loc)
    requires Inv(g) && !g.failed && g.stack != [] && Top(g).cursor < |g.es| && Top(g).recording
    requires Holds(g, |g.stack| - 1, loc)
    ensures var r := RecordDrop(g, loc);
      && !r.failed && r.space == g.space && |r.stack| == |g.stack| && TreeOk(r.es, r.space)
      && r.stack[|r.stack| - 1].cursor == |g.es|
      && Meaning(r.es, |g.es|) == Apply(Mean(g, |g.stack| - 1), |g.es|, Drop(loc))
    ensures g.alloc[loc] == Mean(g, |g.stack| - 1).alloc[loc]
  {
    DropIsEffective(g, loc);
    AppendKeeps(g.es, g.space, Top(g).cursor, Drop(loc), g.space);
  }

  lemma RecordDropOuter(g: Graph, loc: Loc, k: nat)
    requires Inv(g) && !g.failed && g.stack != [] && Top(g).cursor < |g.es| && Top(g).recording
    requires Holds(g, |g.stack| - 1, loc) && !RecordDrop(g, loc).failed && k + 1 < |g.stack|
    ensures FrameOk(RecordDrop(g, loc), k)
  {
    OutsideOf(g, k, loc);
    assert FrameOk(g, k);
    AppendGrows(g.es, Top(g).cursor, Drop(loc));
    FrameStable(g, RecordDrop(g, loc), k);
  }

  lemma DroppedIsApart(sp: Space, a: Alloc, loc: Loc)
    requires AllocOk(sp, a)
    ensures AllocOk(sp, a - {loc})
  {}

  lemma RecordDropRecorder(g: Graph, loc: Loc)
    requires RecorderOk(g) && g.stack != [] && Top(g).cursor < |g.es| && !RecordDrop(g, loc).failed
    ensures RecorderOk(RecordDrop(g, loc))
  {
    AppendGrows(g.es, Top(g).cursor, Drop(loc));
    DroppedIsApart(g.space, g.alloc, loc);
    hide AllocOk;
    MadeStable(g, RecordDrop(g, loc), loc);
  }

  lemma RecordDropTop(g: Graph, loc: Loc)
    requires Inv(g) && !g.failed && g.stack != [] && Top(g).cursor < |g.es| && Top(g).recording
    requires Holds(g, |g.stack| - 1, loc) && !RecordDrop(g, loc).failed
    requires g.alloc[loc] == Mean(g, |g.stack| - 1).alloc[loc]
    requires Meaning(Append(g.es, Top(g).cursor, Drop(loc)), |g.es|) == Apply(Mean(g, |g.stack| - 1), |g.es|, Drop(loc))
    ensures FrameOk(RecordDrop(g, loc), |g.stack| - 1)
  {
    var r, top := RecordDrop(g, loc), |g.stack| - 1;
    assert FrameOk(g, top);
    AppendGrows(g.es, Top(g).cursor, Drop(loc));
    TopStable(g, r, top);
    ApplyKeepsScope(Mean(g, top), |g.es|, Drop(loc));
  }

  lemma DropIsEffective(g: Graph, loc: Loc)
    requires Inv(g) && !g.failed && g.stack != [] && Top(g).recording && Holds(g, |g.stack| - 1, loc)
    ensures FrameOk(g, |g.stack| - 1)
    ensures loc in g.alloc && g.alloc[loc] == Mean(g, |g.stack| - 1).alloc[loc]
    ensures g.alloc[loc].depth == Top(g).depth && g.alloc[loc].ev in Top(g).tracked
  {
    var top := |g.stack| - 1;
    assert FrameOk(g, top);
    FrameSem(g, top);
    assert Accounted(g.es[Mean(g, top).scope].kind.snapshot, Mean(g, top), loc);
  }

  /** Freeing an allocation of an outer frame fails the graph and records nothing. */
  lemma DropOutsideFails(g: Graph, loc: Loc, j: nat)
    requires Inv(g) && !g.failed && g.stack != [] && Top(g).cursor < |g.es| && Top(g).recording
    requires j + 1 < |g.stack| && Holds(g, j, loc)
    ensures RecordDrop(g, loc) == Fail(g) && Inv(Fail(g))
  {
    var top := |g.stack| - 1;
    assert FrameOk(g, top);
    HeldOutside(g, j, top, loc);
    FailKeeps(g, g.space, g.physCount, g.smallPages);
  }

  lemma FailKeeps(g: Graph, sp: Space, phys: nat, small: nat)
    requires Inv(g) && Grows(g.space, sp)
    ensures Inv(Fail(g.(space := sp, physCount := phys, smallPages := small)))
  {
    var r := Fail(g.(space := sp, physCount := phys, smallPages := small));
    forall n | 0 <= n < |g.es| ensures NodeOk(r.es, sp, n) {
      assert NodeOk(g.es, g.space, n);
      SemStable(g.es, g.space, g.es, sp, Meaning(g.es, n));
    }
    forall k | 0 <= k < |g.stack| ensures FrameOk(r, k) {
      assert FrameOk(g, k);
      assert k > 0 ==> Mean(r, k - 1) == Mean(g, k - 1);
    }
  }

  // ---------------------------------------------------------------- scopes

  lemma EnterKeeps(g: Graph, call: nat)
    requires Inv(g) && !g.failed && g.stack != [] && Top(g).cursor < |g.es| && call < |g.es|
    requires call in g.es[Top(g).cursor].next && g.es[call].kind.Call?
    ensures Inv(Enter(g, g.es[call].kind.scope))
    ensures Mean(Enter(g, g.es[call].kind.scope), |g.stack|).tracked == []
    ensures forall k :: 0 <= k < |g.stack| ==> Mean(Enter(g, g.es[call].kind.scope), k) == Mean(g, k)
  {
    var r, top := Enter(g, g.es[call].kind.scope), |g.stack| - 1;
    assert NodeOk(g.es, g.space, call);
    assert NodeOk(g.es, g.space, Top(g).cursor);
    forall k | 0 <= k < |g.stack| ensures FrameOk(r, k) { assert FrameOk(g, k); FrameStable(g, r, k); }
    assert FrameOk(g, top);
    assert FrameOk(r, top + 1);
  }

  lemma RecordCallKeeps(g: Graph, name: string)
    requires Inv(g) && !g.failed && g.stack != [] && Top(g).cursor < |g.es| && Top(g).recording
    ensures Inv(RecordCall(g, name))
    ensures Mean(RecordCall(g, name), |g.stack|).tracked == []
    ensures forall k :: 0 <= k < |g.stack| ==> Mean(RecordCall(g, name), k) == Mean(g, k)
  {
    var r := RecordCall(g, name);
    CallTree(g, name);
    CallFrame(g, name);
    CallRecorder(g, name);
    forall k | 0 <= k < |g.stack| ensures FrameOk(r, k) && Mean(r, k) == Mean(g, k) { CallOuter(g, name, k); }
    hide TreeOk, FrameOk, RecorderOk, Mean;
  }

  lemma CallOuter(g: Graph, name: string, k: nat)
    requires Inv(g) && !g.failed && g.stack != [] && Top(g).cursor < |g.es| && Top(g).recording && k < |g.stack|
    requires Grown(g.es, RecordCall(g, name).es)
    ensures FrameOk(RecordCall(g, name), k) && Mean(RecordCall(g, name), k) == Mean(g, k)
  {
    hide TreeOk, AllocOk;
    assert FrameOk(g, k);
    FrameStable(g, RecordCall(g, name), k);
  }

  lemma CallRecorder(g: Graph, name: string)
    requires Inv(g) && !g.failed && g.stack != [] && Top(g).cursor < |g.es| && Top(g).recording
    requires Grown(g.es, RecordCall(g, name).es)
    ensures RecorderOk(RecordCall(g, name))
  {
    hide TreeOk, AllocOk;
    forall l | l in g.alloc ensures MadeBy(RecordCall(g, name).es, l, g.alloc[l]) { assert MadeBy(g.es, l, g.alloc[l]); }
  }

  lemma CallTree(g: Graph, name: string)
    requires Inv(g) && !g.failed && g.stack != [] && Top(g).cursor < |g.es| && Top(g).recording
    ensures TreeOk(RecordCall(g, name).es, g.space) && Grown(g.es, RecordCall(g, name).es)
  {
    assert FrameOk(g, |g.stack| - 1);
    hide TreeOk, AllocOk;
    CallKeeps(g.es, g.space, Top(g).cursor, name, g.alloc, Top(g).depth + 1);
    AppendGrows(g.es, Top(g).cursor, Call(name, |g.es| + 1));
  }

  lemma CallFrame(g: Graph, name: string)
    requires Inv(g) && !g.failed && g.stack != [] && Top(g).cursor < |g.es| && Top(g).recording
    ensures FrameOk(RecordCall(g, name), |g.stack|) && Mean(RecordCall(g, name), |g.stack|).tracked == []
  {
    var r, top := RecordCall(g, name), |g.stack| - 1;
    assert FrameOk(g, top);
    CallKeeps(g.es, g.space, Top(g).cursor, name, g.alloc, Top(g).depth + 1);
    hide TreeOk, AllocOk;
    AppendGrows(g.es, Top(g).cursor, Call(name, |g.es| + 1));
    FrameStable(g, r, top);
  }

  lemma CloseKeeps(g: Graph)
    requires Inv(g) && g.stack != []
    ensures Inv(Close(g))
    ensures forall k :: 0 <= k < |g.stack| - 1 ==> Mean(Close(g), k) == Mean(g, k)
  {
    var r := Close(g);
    forall k | 0 <= k < |r.stack| ensures FrameOk(r, k) { assert FrameOk(g, k); FrameStable(g, r, k); }
  }

  lemma RecordEndKeeps(g: Graph)
    requires Inv(g) && !g.failed && g.stack != [] && Top(g).cursor < |g.es| && Top(g).recording
    requires Mean(g, |g.stack| - 1).tracked == []
    ensures Inv(RecordEnd(g))
    ensures forall k :: 0 <= k < |g.stack| - 1 ==> Mean(RecordEnd(g), k) == Mean(g, k)
  {
    var top := |g.stack| - 1;
    var ended := g.(es := Append(g.es, Top(g).cursor, End));
    assert FrameOk(g, top);
    AppendKeeps(g.es, g.space, Top(g).cursor, End, g.space);
    AppendGrows(g.es, Top(g).cursor, End);
    forall k | 0 <= k < |g.stack| ensures FrameOk(ended, k) && Mean(ended, k) == Mean(g, k) {
      assert FrameOk(g, k);
      FrameStable(g, ended, k);
    }
    forall l | l in g.alloc ensures MadeBy(ended.es, l, g.alloc[l]) { assert MadeBy(g.es, l, g.alloc[l]); }
    CloseKeeps(ended);
  }

  lemma PushRootKeeps(g: Graph)
    requires Inv(g) && !g.failed && g.stack == []
    ensures Inv(PushRoot(g)) && Mean(PushRoot(g), 0).tracked == []
  {
    assert NodeOk(g.es, g.space, 0);
    assert FrameOk(PushRoot(g), 0);
  }
}
