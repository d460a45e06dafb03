/**
  Every step of the compiler with leaks keeps the invariant: replayed and recorded allocations,
  frees, scopes, and frames that are left with allocations still live.
*/
module GraphWorldSteps {
  import opened GraphModel
  import opened GraphTree
  import opened GraphSafety
  import opened GraphRuns
  import opened GraphLeaks
  import opened GraphCollect
  import opened GraphSmall
  import opened GraphWorld
  import opened GraphWorldSafety
  import F = GraphFinalize

  // ---------------------------------------------------------------- steps that only shrink what is held

  /** Whatever a frame holds now it held before, and it is the same. */
  ghost predicate NothingNew(g: Graph, r: Graph) {
    forall k, l :: 0 <= k < |r.stack| && Holds(r, k, l) ==> k < |g.stack| && Holds(g, k, l) && UnitsOf(r, k, l) == UnitsOf(g, k, l)
  }

  lemma FewerHeld(w: World, r: Graph)
    requires WorldInv(w) && Inv(r) && TreeShape(r, w.gone) && r.space == w.g.space && r.physCount == w.g.physCount
    requires r.smallPages == w.g.smallPages && NothingNew(w.g, r)
    ensures WorldInv(w.(g := r))
  {
    var w' := w.(g := r);
    forall k, l | 0 <= k < |r.stack| && Holds(r, k, l) ensures Fits(w', l, UnitsOf(r, k, l)) {
      assert Fits(w, l, UnitsOf(w.g, k, l));
    }
    forall i | 0 <= i < |w.leaks| ensures LeakOk(w', w.leaks[i]) { assert LeakOk(w, w.leaks[i]); }
    hide Severed, F.BackingOk, LeakOk, LeaksApart, RoguesOk, Fits;
  }

  lemma SameMeansNothingNew(g: Graph, r: Graph)
    requires |r.stack| <= |g.stack| && forall k :: 0 <= k < |r.stack| ==> Mean(r, k) == Mean(g, k)
    ensures NothingNew(g, r)
  {}

  lemma DroppedMeansNothingNew(g: Graph, r: Graph, n: nat, loc: Loc)
    requires g.stack != [] && |r.stack| == |g.stack| && forall k :: 0 <= k < |r.stack| - 1 ==> Mean(r, k) == Mean(g, k)
    requires Mean(r, |g.stack| - 1) == Apply(Mean(g, |g.stack| - 1), n, Drop(loc))
    ensures NothingNew(g, r)
  {}

  lemma OpenedMeansNothingNew(g: Graph, r: Graph)
    requires |r.stack| == |g.stack| + 1 && forall k :: 0 <= k < |g.stack| ==> Mean(r, k) == Mean(g, k)
    requires HeldBy(Mean(r, |g.stack|)) == {}
    ensures NothingNew(g, r)
  {
    forall l ensures !Holds(r, |g.stack|, l) { assert l !in HeldBy(Mean(r, |g.stack|)); }
  }

  // ---------------------------------------------------------------- shapes of the single steps

  lemma AdvanceShape(g: Graph, gone: set<nat>, c: nat)
    requires Severed(g, gone) && Sized(g.es) && g.stack != [] && Top(g).cursor < |g.es| && c in g.es[Top(g).cursor].next
    ensures TreeShape(Advance(g, c), gone)
  {
    assert ListsNone(g.es, Top(g).cursor, gone);
  }

  lemma ReadyShape(g: Graph, gone: set<nat>)
    requires Severed(g, gone) && Sized(g.es) && !g.failed && g.stack != []
    ensures TreeShape(Ready(g), gone) && Inv(Ready(g)) && Ready(g).es == g.es && Ready(g).space == g.space
    ensures Ready(g).physCount == g.physCount && Ready(g).smallPages == g.smallPages && |Ready(g).stack| == |g.stack| && Top(Ready(g)).cursor == Top(g).cursor
    ensures forall k :: 0 <= k < |g.stack| ==> Mean(Ready(g), k) == Mean(g, k)
    ensures !Ready(g).failed ==> Top(Ready(g)).recording
  {
    ReadyKeeps(g);
    hide Inv, Rooted, Detached, Sized;
    assert forall k :: 0 <= k < |g.stack| ==> Ready(g).stack[k].cursor == g.stack[k].cursor;
  }

  lemma ReadyWorld(w: World)
    requires WorldInv(w) && !w.g.failed && w.g.stack != []
    ensures WorldInv(w.(g := Ready(w.g)))
  {
    ReadyShape(w.g, w.gone);
    SameMeansNothingNew(w.g, Ready(w.g));
    hide Inv, TreeShape, Ready;
    FewerHeld(w, Ready(w.g));
  }

  lemma RecordedShape(g: Graph, gone: set<nat>, r: Graph, kind: Kind)
    requires Severed(g, gone) && Sized(g.es) && g.stack != [] && Top(g).cursor < |g.es|
    requires kind.Take? || kind.Drop?
    requires kind.Take? ==> (kind.loc.Large? <==> kind.bytes >= SMALL_LIMIT)
    requires r.es == Append(g.es, Top(g).cursor, kind) && |r.stack| == |g.stack| && Top(r).cursor == |g.es|
    requires forall k :: 0 <= k < |g.stack| - 1 ==> r.stack[k] == g.stack[k]
    ensures TreeShape(r, gone)
  {
    CursorIsOpen(g);
    AppendShapes(g.es, Top(g).cursor, kind, gone);
    hide Inv, Rooted, Detached, Sized, Append;
  }

  // ---------------------------------------------------------------- frees

  lemma MatchedFree(w: World, c: nat, loc: Loc)
    requires WorldInv(w) && !w.g.failed && w.g.stack != [] && Top(w.g).cursor < |w.g.es| && !Top(w.g).recording
    requires c < |w.g.es| && c in w.g.es[Top(w.g).cursor].next && w.g.es[c].kind == Drop(loc)
    ensures WorldInv(w.(g := Advance(w.g, c)))
  {
    AdvanceKeeps(w.g, c);
    AdvanceShape(w.g, w.gone, c);
    OuterMeans(w.g, Advance(w.g, c));
    DroppedMeansNothingNew(w.g, Advance(w.g, c), c, loc);
    hide Inv, TreeShape, Advance;
    FewerHeld(w, Advance(w.g, c));
  }

  lemma RecordedFree(w: World, loc: Loc)
    requires WorldInv(w) && !w.g.failed && w.g.stack != [] && Top(w.g).cursor < |w.g.es| && Top(w.g).recording
    requires Holds(w.g, |w.g.stack| - 1, loc)
    ensures WorldInv(w.(g := RecordDrop(w.g, loc)))
  {
    var r := RecordDrop(w.g, loc);
    RecordDropKeeps(w.g, loc);
    DroppedIs(w.g, loc);
    hide RecordDrop;
    RecordedShape(w.g, w.gone, r, Drop(loc));
    AppendGrows(w.g.es, Top(w.g).cursor, Drop(loc));
    hide Append, HeldFit, LeaksOk, RoguesOk, F.BackingOk;
    OuterMeans(w.g, r);
    DroppedMeansNothingNew(w.g, r, |w.g.es|, loc);
    hide Inv, TreeShape;
    FewerHeld(w, r);
  }

  lemma DroppedIs(g: Graph, loc: Loc)
    requires g.stack != [] && Top(g).cursor < |g.es| && !RecordDrop(g, loc).failed
    ensures var r := RecordDrop(g, loc);
      && r.es == Append(g.es, Top(g).cursor, Drop(loc)) && r.space == g.space && r.physCount == g.physCount && r.smallPages == g.smallPages
      && |r.stack| == |g.stack| && Top(r).cursor == |g.es| && forall k :: 0 <= k < |g.stack| - 1 ==> r.stack[k] == g.stack[k]
  {}

  lemma FreeKeepsWorld(w: World, ledger: Ledger, loc: Loc)
    requires WorldInv(w) && !w.g.failed && w.g.stack != [] && Top(w.g).cursor < |w.g.es|
    requires Agrees(w.g, ledger) && Fair(ledger, FreeReq(loc))
    ensures var (r, answer) := DoFree(w.g, loc);
      !r.failed ==> WorldInv(w.(g := r)) && Agrees(r, Record(ledger, FreeReq(loc), answer, r.failed))
  {
    FreeKeeps(w.g, ledger, loc);
    var found := if Top(w.g).recording then Nothing else Find(w.g.es, Top(w.g).cursor, KDrop(loc));
    if found.Child? {
      MatchedFree(w, found.node, loc);
    } else {
      ReadyWorld(w);
      ReadyAgrees(w.g, ledger);
      if !Ready(w.g).failed && !RecordDrop(Ready(w.g), loc).failed {
        DropIsOwn(Ready(w.g), ledger, loc);
        RecordedFree(w.(g := Ready(w.g)), loc);
      }
    }
  }

  /** A recorded free that does not fail frees an allocation of the innermost frame. */
  lemma DropIsOwn(g: Graph, ledger: Ledger, loc: Loc)
    requires Inv(g) && !g.failed && g.stack != [] && Agrees(g, ledger) && Top(g).cursor < |g.es| && Top(g).recording
    requires Fair(ledger, FreeReq(loc)) && !RecordDrop(g, loc).failed
    ensures Holds(g, |g.stack| - 1, loc)
  {
    hide Inv, RecordDrop;
    var k :| 0 <= k < |ledger| && loc in ledger[k];
    assert Holds(g, k, loc);
    if k + 1 < |g.stack| { DropOutsideFails(g, loc, k); }
  }

  // ---------------------------------------------------------------- entering scopes

  lemma PushKeepsWorld(w: World, ledger: Ledger, name: string)
    requires WorldInv(w) && !w.g.failed && w.g.stack != [] && Top(w.g).cursor < |w.g.es| && Agrees(w.g, ledger)
    ensures var (r, answer) := DoPush(w.g, name);
      !r.failed ==> WorldInv(w.(g := r)) && Agrees(r, Record(ledger, PushReq(name), answer, r.failed))
  {
    PushKeeps(w.g, ledger, name);
    var found := Find(w.g.es, Top(w.g).cursor, KCall(name));
    if found.Child? {
      EnterWorld(w, found.node);
    } else {
      ReadyWorld(w);
      if !Ready(w.g).failed { ReadyShape(w.g, w.gone); RecordedCall(w.(g := Ready(w.g)), name); }
    }
  }

  lemma EnterWorld(w: World, call: nat)
    requires WorldInv(w) && !w.g.failed && w.g.stack != [] && Top(w.g).cursor < |w.g.es| && call < |w.g.es|
    requires call in w.g.es[Top(w.g).cursor].next && w.g.es[call].kind.Call?
    ensures WorldInv(w.(g := Enter(w.g, w.g.es[call].kind.scope)))
  {
    var r := Enter(w.g, w.g.es[call].kind.scope);
    assert NodeOk(w.g.es, w.g.space, call);
    EnterKeeps(w.g, call);
    FreshFrame(r);
    OpenedMeansNothingNew(w.g, r);
    assert TreeShape(r, w.gone) by { hide Inv, Rooted, Sized; }
    hide Inv, TreeShape;
    FewerHeld(w, r);
  }

  lemma RecordedCall(w: World, name: string)
    requires WorldInv(w) && !w.g.failed && w.g.stack != [] && Top(w.g).cursor < |w.g.es| && Top(w.g).recording
    ensures WorldInv(w.(g := RecordCall(w.g, name)))
  {
    var r := RecordCall(w.g, name);
    RecordCallKeeps(w.g, name);
    FreshFrame(r);
    OpenedMeansNothingNew(w.g, r);
    CallShape(w.g, w.gone, name);
    hide Inv, TreeShape;
    FewerHeld(w, r);
  }

  lemma CallShape(g: Graph, gone: set<nat>, name: string)
    requires Severed(g, gone) && Sized(g.es) && g.stack != [] && Top(g).cursor < |g.es|
    ensures TreeShape(RecordCall(g, name), gone)
  {
    CursorIsOpen(g);
    CallShapes(g.es, Top(g).cursor, name, g.alloc, Top(g).depth + 1, gone);
    hide Inv, Rooted, Detached, Sized, Append;
  }

  lemma RootKeepsWorld(w: World)
    requires WorldInv(w) && !w.g.failed && w.g.stack == []
    ensures WorldInv(w.(g := PushRoot(w.g))) && Agrees(PushRoot(w.g), [{}])
  {
    PushRootKeeps(w.g);
    FreshFrame(PushRoot(w.g));
    OpenedMeansNothingNew(w.g, PushRoot(w.g));
    assert TreeShape(PushRoot(w.g), w.gone) by { assert NodeOk(w.g.es, w.g.space, 0); }
    hide Inv, TreeShape;
    FewerHeld(w, PushRoot(w.g));
  }
}
