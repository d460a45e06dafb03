/**
  A frame that still holds allocations when it is left: they become candidates, one after the
  other, and their events leave the tree.  The invariant survives, the outer frames do not
  notice, and afterwards the frame holds nothing.
*/
module GraphCollect {
  import opened GraphModel
  import opened GraphTree
  import opened GraphSafety
  import opened GraphRuns
  import opened GraphLeaks

  /** One allocation of the innermost frame leaves the tree. */
  function SeverTop(g: Graph, e: nat): Graph
    requires g.stack != [] && e < |g.es|
  {
    var f := Top(g);
    WithTop(g.(es := Sever(g.es, e)),
            f.(cursor := if f.cursor == e then g.es[e].prev else f.cursor, tracked := Untrack(f.tracked, e)))
  }

  predicate CursorsLive(g: Graph, gone: set<nat>) {
    forall k :: 0 <= k < |g.stack| ==> g.stack[k].cursor !in gone
  }

  /** The tree of a graph that may have lost events. */
  predicate Severed(g: Graph, gone: set<nat>) {
    Inv(g) && Rooted(g.es) && Detached(g.es, gone) && CursorsLive(g, gone)
  }

  predicate Leaving(g: Graph, e: nat) {
    !g.failed && g.stack != [] && Top(g).recording && e in Top(g).tracked && e < |g.es| && g.es[e].kind.Take?
  }

  lemma LeavingMeans(g: Graph, e: nat, gone: set<nat>)
    requires Severed(g, gone) && Leaving(g, e)
    ensures e in Mean(g, |g.stack| - 1).tracked && Holds(g, |g.stack| - 1, g.es[e].kind.loc)
    ensures Mean(g, |g.stack| - 1).alloc[g.es[e].kind.loc].ev == e && e !in gone
  {
    var top := |g.stack| - 1;
    assert FrameOk(g, top);
    FrameSem(g, top);
    assert LiveEvent(g.es, Mean(g, top).alloc, e);
    LivePath(g.es, gone, g.stack[top].cursor);
  }

  /** No outer frame knows the event of an allocation that the innermost frame holds. */
  lemma OuterIgnores(g: Graph, e: nat, gone: set<nat>, k: nat)
    requires Severed(g, gone) && Leaving(g, e) && k + 1 < |g.stack|
    ensures g.stack[k].cursor != e && e !in Mean(g, k).tracked
    ensures forall l :: l in Mean(g, k).alloc && Mean(g, k).alloc[l].ev > Mean(g, k).scope ==> Mean(g, k).alloc[l].ev != e
  {
    hide Inv, Rooted, Detached, CursorsLive;
    var s := Mean(g, k);
    LeavingMeans(g, e, gone);
    FrameSem(g, k);
    forall l | l in s.alloc && s.alloc[l].ev > s.scope ensures s.alloc[l].ev != e {
      assert MadeBy(g.es, l, s.alloc[l]);
      HeldOutside(g, k, |g.stack| - 1, l);
    }
    forall x | x in s.tracked ensures x != e { assert LiveEvent(g.es, s.alloc, x); }
    if g.es[g.stack[k].cursor].kind.Take? { TakeAtCursor(g, k); }
  }

  lemma TakeAtCursor(g: Graph, k: nat)
    requires Inv(g) && k < |g.stack| && g.stack[k].cursor < |g.es| && g.es[g.stack[k].cursor].kind.Take?
    ensures var loc := g.es[g.stack[k].cursor].kind.loc;
      loc in Mean(g, k).alloc && Mean(g, k).alloc[loc].ev == g.stack[k].cursor > Mean(g, k).scope
  {
    var c := g.stack[k].cursor;
    assert NodeOk(g.es, g.space, c);
    MeaningScope(g.es, g.es[c].prev);
    ApplyKeepsScope(Meaning(g.es, g.es[c].prev), c, g.es[c].kind);
  }

  lemma UntouchedByCut(s: Sem, t: Sem, e: nat, found: Alloc)
    requires Trims(s, t, {e}, found) && e !in s.tracked
    requires forall l :: l in s.alloc ==> if s.alloc[l].ev > s.scope then s.alloc[l].ev != e else l in found
    ensures t == s
  {
    WithoutMeans(s.tracked, {e});
    assert t.alloc == s.alloc;
  }

  lemma OuterKeeps(g: Graph, e: nat, gone: set<nat>, k: nat)
    requires Severed(g, gone) && Leaving(g, e) && k + 1 < |g.stack|
    ensures Mean(SeverTop(g, e), k) == Mean(g, k)
  {
    OuterIgnores(g, e, gone, k);
    LeavingMeans(g, e, gone);
    FrameSem(g, k);
    var s := Mean(g, k);
    SeverTrims(g.es, g.space, e, g.stack[k].cursor);
    forall l | l in s.alloc && s.alloc[l].ev <= s.scope ensures l in g.es[s.scope].kind.snapshot {
      assert Accounted(g.es[s.scope].kind.snapshot, s, l);
    }
    UntouchedByCut(s, Mean(SeverTop(g, e), k), e, g.es[s.scope].kind.snapshot);
  }

  lemma {:induction false} WithoutOne(t: seq<nat>, e: nat)
    requires NoDuplicates(t)
    ensures Without(t, {e}) == Untrack(t, e)
  {
    if t != [] {
      assert NoDuplicates(t[1..]) && t[0] !in t[1..];
      WithoutOne(t[1..], e);
      if t[0] == e { WithoutMeans(t[1..], {e}); }
    }
  }

  lemma HeldAfterCut(es: Events, sp: Space, s: Sem, t: Sem, e: nat)
    requires SemOk(es, sp, s) && e in s.tracked && e < |es| && es[e].kind.Take?
    requires Trims(s, t, {e}, es[s.scope].kind.snapshot)
    ensures t.tracked == Untrack(s.tracked, e) && HeldBy(t) == HeldBy(s) - {es[e].kind.loc}
  {
    WithoutOne(s.tracked, e);
    assert LiveEvent(es, s.alloc, e);
    forall l | l in s.alloc && s.alloc[l].ev == e ensures l == es[e].kind.loc { assert MadeBy(es, l, s.alloc[l]); }
  }

  /** What the innermost frame means afterwards. */
  lemma TopTrims(g: Graph, e: nat, gone: set<nat>)
    requires Severed(g, gone) && Leaving(g, e)
    ensures var (s, t) := (Mean(g, |g.stack| - 1), Mean(SeverTop(g, e), |g.stack| - 1));
      && s.scope < |g.es| && g.es[s.scope].kind.Scope? && Trims(s, t, {e}, g.es[s.scope].kind.snapshot)
      && t.tracked == Untrack(s.tracked, e) && HeldBy(t) == HeldBy(s) - {g.es[e].kind.loc}
  {
    var top := |g.stack| - 1;
    LeavingMeans(g, e, gone);
    FrameSem(g, top);
    if g.stack[top].cursor == e { AtSevered(g.es, g.space, e); } else { SeverTrims(g.es, g.space, e, g.stack[top].cursor); }
    hide Severed, SemOk, Trims, Sever, Meaning;
    HeldAfterCut(g.es, g.space, Mean(g, top), Mean(SeverTop(g, e), top), e);
  }

  lemma TopFrameOk(g: Graph, e: nat, gone: set<nat>)
    requires Severed(g, gone) && Leaving(g, e)
    ensures FrameOk(SeverTop(g, e), |g.stack| - 1)
  {
    var top := |g.stack| - 1;
    assert FrameOk(g, top);
    TopTrims(g, e, gone);
    if top > 0 { OuterKeeps(g, e, gone, top - 1); }
    TopCursor(g, e, gone);
    hide Inv, Meaning, Sever;
    TrimmedFrame(g, SeverTop(g, e), e);
  }

  lemma TopCursor(g: Graph, e: nat, gone: set<nat>)
    requires Severed(g, gone) && Leaving(g, e)
    ensures var c := SeverTop(g, e).stack[|g.stack| - 1].cursor; c < |g.es| && !g.es[c].kind.End? && !g.es[c].kind.Call?
    ensures |SeverTop(g, e).es| == |g.es| && forall n :: 0 <= n < |g.es| ==> SeverTop(g, e).es[n].kind == g.es[n].kind
  {
    assert FrameOk(g, |g.stack| - 1);
    assert NodeOk(g.es, g.space, e);
    SeverThins(g.es, e);
    hide TreeOk, NodeOk, Meaning, Detached, Sever;
  }

  lemma TrimmedFrame(g: Graph, r: Graph, e: nat)
    requires g.stack != [] && |r.stack| == |g.stack| && FrameOk(g, |g.stack| - 1) && !g.failed && !r.failed && r.alloc == g.alloc
    requires |r.es| == |g.es| && forall n :: 0 <= n < |g.es| ==> r.es[n].kind == g.es[n].kind
    requires Top(r).cursor < |g.es| && !g.es[Top(r).cursor].kind.End? && !g.es[Top(r).cursor].kind.Call?
    requires Top(g).recording && Top(r) == Top(g).(cursor := Top(r).cursor, tracked := Untrack(Top(g).tracked, e))
    requires Mean(g, |g.stack| - 1).scope < |g.es| && g.es[Mean(g, |g.stack| - 1).scope].kind.Scope?
    requires Trims(Mean(g, |g.stack| - 1), Mean(r, |g.stack| - 1), {e}, g.es[Mean(g, |g.stack| - 1).scope].kind.snapshot)
    requires Mean(r, |g.stack| - 1).tracked == Untrack(Mean(g, |g.stack| - 1).tracked, e)
    requires |g.stack| > 1 ==> Mean(r, |g.stack| - 2) == Mean(g, |g.stack| - 2)
    ensures FrameOk(r, |g.stack| - 1)
  {
    hide Mean;
  }

  lemma OuterFrameOk(g: Graph, e: nat, gone: set<nat>, k: nat)
    requires Severed(g, gone) && Leaving(g, e) && k + 1 < |g.stack|
    ensures FrameOk(SeverTop(g, e), k) && Mean(SeverTop(g, e), k) == Mean(g, k)
    ensures SeverTop(g, e).stack[k].cursor !in gone + {e}
  {
    assert FrameOk(g, k);
    OuterKeeps(g, e, gone, k);
    if k > 0 { OuterKeeps(g, e, gone, k - 1); }
    OuterIgnores(g, e, gone, k);
    SeverThins(g.es, e);
    hide Inv, TreeOk, AllocOk, Meaning, Sever;
  }

  lemma SeverTopKeeps(g: Graph, e: nat, gone: set<nat>)
    requires Severed(g, gone) && Leaving(g, e)
    ensures Severed(SeverTop(g, e), gone + {e})
    ensures forall k :: 0 <= k < |g.stack| - 1 ==> Mean(SeverTop(g, e), k) == Mean(g, k)
    ensures HeldBy(Mean(SeverTop(g, e), |g.stack| - 1)) == HeldBy(Mean(g, |g.stack| - 1)) - {g.es[e].kind.loc}
  {
    SeverTopTree(g, e, gone);
    TopFrameOk(g, e, gone);
    TopTrims(g, e, gone);
    var r, top := SeverTop(g, e), |g.stack| - 1;
    forall k | 0 <= k < top ensures FrameOk(r, k) && Mean(r, k) == Mean(g, k) && r.stack[k].cursor !in gone + {e} {
      OuterFrameOk(g, e, gone, k);
    }
    hide TreeOk, FrameOk, RecorderOk, Mean, HeldBy, Rooted, Detached;
  }

  lemma SeverTopTree(g: Graph, e: nat, gone: set<nat>)
    requires Severed(g, gone) && Leaving(g, e)
    ensures var r := SeverTop(g, e);
      && TreeOk(r.es, r.space) && Rooted(r.es) && Detached(r.es, gone + {e}) && RecorderOk(r)
      && r.stack[|g.stack| - 1].cursor !in gone + {e}
  {
    LeavingMeans(g, e, gone);
    assert NodeOk(g.es, g.space, e);
    hide NodeOk, FrameOk, Holds;
    SeverKeeps(g.es, g.space, e, gone);
    SeverThins(g.es, e);
    hide TreeOk, Sever;
    RecorderStays(g, SeverTop(g, e));
  }

  lemma RecorderStays(g: Graph, r: Graph)
    requires RecorderOk(g) && r.alloc == g.alloc && r.space == g.space && |r.es| == |g.es|
    requires forall n :: 0 <= n < |g.es| ==> r.es[n].kind == g.es[n].kind
    ensures RecorderOk(r)
  {
    forall l | l in r.alloc ensures MadeBy(r.es, l, r.alloc[l]) { assert MadeBy(g.es, l, g.alloc[l]); }
  }

  // ---------------------------------------------------------------- other steps beside severed events

  /** Small requests are placed in the small heap and large ones on pages of their own. */
  predicate Sized(es: Events) {
    forall n :: 0 <= n < |es| && es[n].kind.Take? ==> (es[n].kind.loc.Large? <==> es[n].kind.bytes >= SMALL_LIMIT)
  }

  predicate TreeShape(g: Graph, gone: set<nat>) {
    Rooted(g.es) && Detached(g.es, gone) && CursorsLive(g, gone) && Sized(g.es)
  }

  lemma CursorIsOpen(g: Graph)
    requires Inv(g) && g.stack != []
    ensures Top(g).cursor < |g.es| && !g.es[Top(g).cursor].kind.End? && !g.es[Top(g).cursor].kind.Call?
  {
    assert FrameOk(g, |g.stack| - 1);
  }

  lemma AppendShapes(es: Events, cursor: nat, kind: Kind, gone: set<nat>)
    requires Rooted(es) && Detached(es, gone) && Sized(es) && cursor < |es| && cursor !in gone
    requires !es[cursor].kind.End? && !es[cursor].kind.Call? && !kind.Scope?
    requires kind.Take? ==> (kind.loc.Large? <==> kind.bytes >= SMALL_LIMIT)
    ensures Rooted(Append(es, cursor, kind)) && Detached(Append(es, cursor, kind), gone) && Sized(Append(es, cursor, kind))
    ensures |es| !in gone
  {
    var es' := Append(es, cursor, kind);
    forall n | 0 <= n < |es'| ensures ListsNone(es', n, gone) { if n < |es| { assert ListsNone(es, n, gone); } }
  }

  lemma CallShapes(es: Events, cursor: nat, name: string, snapshot: Alloc, depth: nat, gone: set<nat>)
    requires Rooted(es) && Detached(es, gone) && Sized(es) && cursor < |es| && cursor !in gone
    requires !es[cursor].kind.End? && !es[cursor].kind.Call?
    ensures var es' := Append(es, cursor, Call(name, |es| + 1)) + [Event(Scope(snapshot, depth), 0, [])];
      Rooted(es') && Detached(es', gone) && Sized(es') && |es| + 1 !in gone
  {
    var mid := Append(es, cursor, Call(name, |es| + 1));
    AppendShapes(es, cursor, Call(name, |es| + 1), gone);
    var es' := mid + [Event(Scope(snapshot, depth), 0, [])];
    forall n | 0 <= n < |es'| ensures ListsNone(es', n, gone) { if n < |mid| { assert ListsNone(mid, n, gone); } }
  }

  lemma SeverShapes(g: Graph, e: nat, gone: set<nat>)
    requires Severed(g, gone) && Leaving(g, e) && Sized(g.es)
    ensures TreeShape(SeverTop(g, e), gone + {e})
  {
    SeverTopKeeps(g, e, gone);
    SeverThins(g.es, e);
    hide Inv, Rooted, Detached, CursorsLive;
  }

  lemma ScrubShapes(es: Events, dead: set<nat>)
    requires Sized(es)
    ensures Sized(Scrub(es, dead))
  {
    ScrubThins(es, dead);
    forall n | 0 <= n < |es| ensures KindThinned(es[n].kind, Scrub(es, dead)[n].kind) {}
  }
}
