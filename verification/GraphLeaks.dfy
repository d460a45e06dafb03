/**
  Allocations that outlive their frame.  The frame's events are severed from the tree, their
  children moving up to the parent, and a finalization takes them out of every snapshot.  Both
  take away from what the nodes mean exactly the leaked allocations, and leave the tree sound.
*/
module GraphLeaks {
  import opened GraphModel
  import opened GraphTree
  import opened GraphSafety
  import opened GraphRuns

  // ---------------------------------------------------------------- severing and scrubbing

  function Spliced(next: seq<nat>, e: nat, children: seq<nat>): (r: seq<nat>)
    ensures forall c :: c in r <==> (c in next && c != e) || (e in next && c in children)
  {
    if next == [] then [] else (if next[0] == e then children else [next[0]]) + Spliced(next[1..], e, children)
  }

  /** The event leaves the tree; its children move up.  The event itself stays in the arena, apart from the tree. */
  function Sever(es: Events, e: nat): (r: Events)
    requires e < |es|
    ensures |r| == |es|
  {
    seq(|es|, n requires 0 <= n < |es| =>
      if n == e then es[n].(next := [])
      else es[n].(prev := if es[n].prev == e then es[e].prev else es[n].prev,
                  next := if n == es[e].prev then Spliced(es[n].next, e, es[e].next) else es[n].next))
  }

  lemma {:induction false} SplicedOneMore(next: seq<nat>, i: nat, e: nat, children: seq<nat>)
    requires i < |next|
    ensures Spliced(next[..i + 1], e, children) == Spliced(next[..i], e, children) + (if next[i] == e then children else [next[i]])
  {
    if i > 0 {
      SplicedOneMore(next[1..], i - 1, e, children);
      assert next[..i + 1][1..] == next[1..][..i] && next[..i][1..] == next[1..][..i - 1];
    } else {
      assert next[..1][1..] == [];
    }
  }

  /** The parent's list of children is built anew, with the severed event's children in its place. */
  method SpliceChildren(next: seq<nat>, e: nat, children: seq<nat>) returns (spliced: seq<nat>)
    ensures spliced == Spliced(next, e, children)
  {
    spliced := [];
    for i := 0 to |next|
      invariant spliced == Spliced(next[..i], e, children)
    {
      SplicedOneMore(next, i, e, children);
      if next[i] == e {
        for k := 0 to |children|
          invariant spliced == Spliced(next[..i], e, children) + children[..k]
        {
          spliced := spliced + [children[k]];
        }
        assert children[..|children|] == children;
      } else {
        spliced := spliced + [next[i]];
      }
    }
    assert next[..|next|] == next;
  }

  function Shed(a: Alloc, dead: set<nat>): Alloc {
    map l | l in a && a[l].ev !in dead :: a[l]
  }

  /** Every snapshot without the dead allocations. */
  function Scrub(es: Events, dead: set<nat>): (r: Events)
    ensures |r| == |es|
  {
    seq(|es|, n requires 0 <= n < |es| =>
      if es[n].kind.Scope? then es[n].(kind := Scope(Shed(es[n].kind.snapshot, dead), es[n].kind.depth)) else es[n])
  }

  // ---------------------------------------------------------------- what is left of a state

  function Without(t: seq<nat>, cut: set<nat>): seq<nat> {
    if t == [] then [] else if t[0] in cut then Without(t[1..], cut) else [t[0]] + Without(t[1..], cut)
  }

  lemma {:induction false} WithoutMeans(t: seq<nat>, cut: set<nat>)
    ensures forall x :: x in Without(t, cut) <==> x in t && x !in cut
    ensures NoDuplicates(t) ==> NoDuplicates(Without(t, cut))
    ensures (forall x :: x in t ==> x !in cut) ==> Without(t, cut) == t
  {
    if t != [] {
      assert t == [t[0]] + t[1..];
      WithoutMeans(t[1..], cut);
      if NoDuplicates(t) { assert t[0] !in t[1..] && NoDuplicates(t[1..]); }
    }
  }

  /** `t` is `s` without the allocations of its own that were cut, and with what `found` left of those found on entry. */
  predicate Trims(s: Sem, t: Sem, cut: set<nat>, found: Alloc) {
    && t.depth == s.depth && t.scope == s.scope && t.tracked == Without(s.tracked, cut)
    && Extends(s.alloc, t.alloc)
    && forall l :: l in s.alloc ==> (l in t.alloc <==> if s.alloc[l].ev > s.scope then s.alloc[l].ev !in cut else l in found)
  }

  /** The same events, except that links moved and snapshots lost entries. */
  predicate Thinned(es: Events, es': Events) {
    |es'| == |es| && forall n :: 0 <= n < |es| ==> KindThinned(es[n].kind, es'[n].kind)
  }

  predicate KindThinned(kind: Kind, kind': Kind) {
    if kind.Scope? then kind'.Scope? && kind'.depth == kind.depth && Extends(kind.snapshot, kind'.snapshot) else kind' == kind
  }

  lemma TrimmedIsOk(es: Events, es': Events, sp: Space, s: Sem, t: Sem, cut: set<nat>)
    requires SemOk(es, sp, s) && Thinned(es, es') && Trims(s, t, cut, es'[s.scope].kind.snapshot)
    ensures SemOk(es', sp, t)
  {
    assert KindThinned(es[s.scope].kind, es'[s.scope].kind);
    var snap, snap' := es[s.scope].kind.snapshot, es'[s.scope].kind.snapshot;
    WithoutMeans(s.tracked, cut);
    forall l | l in t.alloc ensures Accounted(snap', t, l) && MadeBy(es', l, t.alloc[l]) {
      assert Accounted(snap, s, l) && MadeBy(es, l, s.alloc[l]);
      assert KindThinned(es[s.alloc[l].ev].kind, es'[s.alloc[l].ev].kind);
    }
    forall x | x in t.tracked ensures x > t.scope && LiveEvent(es', t.alloc, x) {
      assert LiveEvent(es, s.alloc, x);
      assert KindThinned(es[x].kind, es'[x].kind);
    }
    forall l | l in snap' ensures l in t.alloc && t.alloc[l] == snap'[l] && snap'[l].ev < s.scope {
      assert l in snap && s.alloc[l] == snap[l];
    }
  }

  lemma {:induction false} UntrackWithout(t: seq<nat>, e: nat, cut: set<nat>)
    requires NoDuplicates(t)
    ensures Without(Untrack(t, e), cut) == if e in cut then Without(t, cut) else Untrack(Without(t, cut), e)
  {
    if t != [] {
      assert NoDuplicates(t[1..]) && t[0] !in t[1..];
      UntrackWithout(t[1..], e, cut);
      WithoutMeans(t[1..], cut);
      if t[0] == e { NotTracked(Without(t[1..], cut), e); }
    }
  }

  lemma {:induction false} NotTracked(t: seq<nat>, e: nat)
    requires e !in t
    ensures Untrack(t, e) == t
  {
    if t != [] { NotTracked(t[1..], e); }
  }

  /** An event that was not cut keeps the relation. */
  lemma ApplyTrims(es: Events, sp: Space, s: Sem, t: Sem, n: nat, kind: Kind, cut: set<nat>, found: Alloc)
    requires SemOk(es, sp, s) && Trims(s, t, cut, found) && s.scope < n && n !in cut && Follows(es, kind, s)
    ensures Trims(Apply(s, n, kind), Apply(t, n, kind), cut, found)
  {
    match kind
    case Drop(loc) => DropTrims(es, sp, s, t, n, loc, cut, found);
    case _ =>
  }

  lemma DropTrims(es: Events, sp: Space, s: Sem, t: Sem, n: nat, loc: Loc, cut: set<nat>, found: Alloc)
    requires SemOk(es, sp, s) && Trims(s, t, cut, found) && Follows(es, Drop(loc), s)
    ensures Trims(Apply(s, n, Drop(loc)), Apply(t, n, Drop(loc)), cut, found)
  {
    if loc in s.alloc { UntrackWithout(s.tracked, s.alloc[loc].ev, cut); }
  }

  /** The event that was cut keeps the relation by not being applied. */
  lemma CutTrims(s: Sem, t: Sem, n: nat, loc: Loc, bytes: nat, cut: set<nat>, found: Alloc)
    requires Trims(s, t, cut, found) && s.scope < n && n in cut && loc !in s.alloc
    ensures Trims(Apply(s, n, Take(loc, bytes)), t, cut, found)
  {
    assert Without([n] + s.tracked, cut) == Without(s.tracked, cut) by { assert ([n] + s.tracked)[1..] == s.tracked; }
  }

  // ---------------------------------------------------------------- severing

  lemma {:induction false} TrackedIsBefore(es: Events, n: nat)
    ensures forall x :: x in Meaning(es, n).tracked ==> x <= n
  {
    if n < |es| && !es[n].kind.Scope? && es[n].prev < n {
      TrackedIsBefore(es, es[n].prev);
      var s := Meaning(es, es[n].prev);
      if es[n].kind.Drop? && es[n].kind.loc in s.alloc { UntrackIsPart(s.tracked, s.alloc[es[n].kind.loc].ev); }
    }
  }

  lemma {:induction false} UntrackIsPart(t: seq<nat>, e: nat)
    ensures forall x :: x in Untrack(t, e) ==> x in t
  {
    if t != [] { UntrackIsPart(t[1..], e); }
  }

  /** A state none of whose own events were cut is its own trim. */
  lemma UncutTrims(es: Events, sp: Space, s: Sem, cut: set<nat>)
    requires SemOk(es, sp, s) && forall x :: x in s.tracked ==> x !in cut
    ensures Trims(s, s, cut, es[s.scope].kind.snapshot)
  {
    WithoutMeans(s.tracked, cut);
    forall l | l in s.alloc ensures if s.alloc[l].ev > s.scope then s.alloc[l].ev !in cut else l in es[s.scope].kind.snapshot {
      assert Accounted(es[s.scope].kind.snapshot, s, l);
    }
  }

  predicate Backward(es: Events) {
    forall n :: 0 <= n < |es| && !es[n].kind.Scope? ==> es[n].prev < n
  }

  lemma TreeIsBackward(es: Events, sp: Space)
    requires TreeOk(es, sp)
    ensures Backward(es)
  {
    forall n | 0 <= n < |es| && !es[n].kind.Scope? ensures es[n].prev < n { assert NodeOk(es, sp, n); }
  }

  lemma {:induction false} SeverBefore(es: Events, e: nat, n: nat)
    requires Backward(es) && e < |es| && n <= e
    ensures Meaning(Sever(es, e), n) == Meaning(es, n)
  {
    if !es[n].kind.Scope? { SeverBefore(es, e, es[n].prev); }
  }

  lemma SeverThins(es: Events, e: nat)
    requires e < |es|
    ensures Thinned(es, Sever(es, e))
    ensures forall n :: 0 <= n < |es| ==> Sever(es, e)[n].kind == es[n].kind
  {}

  /** What a node means afterwards: the same without the severed allocation, if it was on the node's path. */
  lemma {:induction false} SeverTrims(es: Events, sp: Space, e: nat, n: nat)
    requires TreeOk(es, sp) && e < |es| && es[e].kind.Take? && n < |es| && n != e
    ensures Meaning(es, n).scope < |es| && es[Meaning(es, n).scope].kind.Scope?
    ensures Trims(Meaning(es, n), Meaning(Sever(es, e), n), {e}, es[Meaning(es, n).scope].kind.snapshot)
    decreases n, 1
  {
    assert NodeOk(es, sp, n);
    TreeIsBackward(es, sp);
    if n < e {
      SeverBefore(es, e, n);
      TrackedIsBefore(es, n);
      UncutTrims(es, sp, Meaning(es, n), {e});
    } else if es[n].kind.Scope? {
      UncutTrims(es, sp, Meaning(es, n), {e});
    } else {
      PrevTrims(es, sp, e, n);
      var p, p' := es[n].prev, Sever(es, e)[n].prev;
      assert NodeOk(es, sp, p);
      MeaningScope(es, p);
      ApplyTrims(es, sp, Meaning(es, p), Meaning(Sever(es, e), p'), n, es[n].kind, {e}, es[Meaning(es, p).scope].kind.snapshot);
      ApplyKeepsScope(Meaning(es, p), n, es[n].kind);
    }
  }

  lemma {:induction false} PrevTrims(es: Events, sp: Space, e: nat, n: nat)
    requires TreeOk(es, sp) && e < |es| && es[e].kind.Take? && e < n < |es| && !es[n].kind.Scope?
    ensures var (p, p') := (es[n].prev, Sever(es, e)[n].prev);
      && p < n && p' < n && Meaning(es, p).scope < |es| && es[Meaning(es, p).scope].kind.Scope?
      && Trims(Meaning(es, p), Meaning(Sever(es, e), p'), {e}, es[Meaning(es, p).scope].kind.snapshot)
    decreases n, 0
  {
    assert NodeOk(es, sp, n);
    if es[n].prev != e { SeverTrims(es, sp, e, es[n].prev); } else { AtSevered(es, sp, e); }
  }

  lemma AtSevered(es: Events, sp: Space, e: nat)
    requires TreeOk(es, sp) && e < |es| && es[e].kind.Take?
    ensures var p := es[e].prev;
      && p < e && Meaning(es, e).scope < |es| && es[Meaning(es, e).scope].kind.Scope?
      && Trims(Meaning(es, e), Meaning(Sever(es, e), p), {e}, es[Meaning(es, e).scope].kind.snapshot)
  {
    var p := es[e].prev;
    assert NodeOk(es, sp, e);
    assert NodeOk(es, sp, p);
    TreeIsBackward(es, sp);
    SeverBefore(es, e, p);
    TrackedIsBefore(es, p);
    UncutTrims(es, sp, Meaning(es, p), {e});
    MeaningScope(es, p);
    CutTrims(Meaning(es, p), Meaning(es, p), e, es[e].kind.loc, es[e].kind.bytes, {e}, es[Meaning(es, p).scope].kind.snapshot);
    ApplyKeepsScope(Meaning(es, p), e, es[e].kind);
  }

  /** No event follows the end of a frame or a call. */
  predicate Rooted(es: Events) {
    forall n :: 0 <= n < |es| && !es[n].kind.Scope? ==> es[n].prev < |es| && !es[es[n].prev].kind.End? && !es[es[n].prev].kind.Call?
  }

  /** The severed events are allocations that no event follows and no node lists. */
  predicate Detached(es: Events, gone: set<nat>) {
    && (forall d :: d in gone ==> d < |es| && es[d].kind.Take?)
    && (forall n :: 0 <= n < |es| && !es[n].kind.Scope? ==> es[n].prev !in gone)
    && (forall n :: 0 <= n < |es| ==> ListsNone(es, n, gone))
  }

  predicate ListsNone(es: Events, n: nat, gone: set<nat>)
    requires n < |es|
  {
    forall c :: c in es[n].next ==> c !in gone
  }

  lemma SeverLinks(es: Events, sp: Space, e: nat, n: nat)
    requires TreeOk(es, sp) && Rooted(es) && e < |es| && es[e].kind.Take? && n < |es|
    ensures Linked(Sever(es, e), n)
  {
    var es', p := Sever(es, e), es[e].prev;
    assert NodeOk(es, sp, n);
    assert NodeOk(es, sp, e);
    hide SemOk, Follows, Meaning;
    if n != e {
      forall c | c in es'[n].next ensures n < c < |es'| && es'[c].prev == n && !es'[c].kind.Scope? {
        if n != p { assert c in es[n].next; } else { assert (c in es[p].next && c != e) || c in es[e].next; }
      }
    }
  }

  lemma FollowsTrims(es: Events, es': Events, kind: Kind, s: Sem, t: Sem, cut: set<nat>, found: Alloc)
    requires Follows(es, kind, s) && Trims(s, t, cut, found) && |es'| == |es| && forall n :: 0 <= n < |es| ==> es'[n].kind == es[n].kind
    ensures Follows(es', kind, t)
  {}

  lemma SeverFollows(es: Events, sp: Space, e: nat, n: nat)
    requires TreeOk(es, sp) && e < |es| && es[e].kind.Take? && n < |es| && !es[n].kind.Scope?
    ensures Follows(Sever(es, e), es[n].kind, Meaning(Sever(es, e), Sever(es, e)[n].prev))
  {
    assert NodeOk(es, sp, n);
    TreeIsBackward(es, sp);
    if n <= e {
      var p := es[n].prev;
      assert NodeOk(es, sp, p);
      SeverBefore(es, e, p);
      UncutTrims(es, sp, Meaning(es, p), {});
      FollowsTrims(es, Sever(es, e), es[n].kind, Meaning(es, p), Meaning(es, p), {}, es[Meaning(es, p).scope].kind.snapshot);
    } else {
      PrevTrims(es, sp, e, n);
      FollowsTrims(es, Sever(es, e), es[n].kind, Meaning(es, es[n].prev), Meaning(Sever(es, e), Sever(es, e)[n].prev), {e},
                   es[Meaning(es, es[n].prev).scope].kind.snapshot);
    }
  }

  lemma SeverSem(es: Events, sp: Space, e: nat, n: nat)
    requires TreeOk(es, sp) && e < |es| && es[e].kind.Take? && n < |es|
    ensures SemOk(Sever(es, e), sp, Meaning(Sever(es, e), n))
  {
    assert NodeOk(es, sp, n);
    SeverThins(es, e);
    if n == e {
      TreeIsBackward(es, sp);
      SeverBefore(es, e, n);
      UncutTrims(es, sp, Meaning(es, n), {});
      TrimmedIsOk(es, Sever(es, e), sp, Meaning(es, n), Meaning(es, n), {});
    } else {
      SeverTrims(es, sp, e, n);
      TrimmedIsOk(es, Sever(es, e), sp, Meaning(es, n), Meaning(Sever(es, e), n), {e});
    }
  }

  /** Severing an allocation keeps the tree sound. */
  lemma SeverKeeps(es: Events, sp: Space, e: nat, gone: set<nat>)
    requires TreeOk(es, sp) && Rooted(es) && Detached(es, gone) && e < |es| && es[e].kind.Take? && e !in gone
    ensures TreeOk(Sever(es, e), sp) && Rooted(Sever(es, e)) && Detached(Sever(es, e), gone + {e})
  {
    var es' := Sever(es, e);
    SeverThins(es, e);
    forall n | 0 <= n < |es| ensures NodeOk(es', sp, n) {
      SeverLinks(es, sp, e, n);
      SeverSem(es, sp, e, n);
      if !es[n].kind.Scope? { SeverFollows(es, sp, e, n); }
    }
    hide NodeOk;
    SeverDetaches(es, sp, e, gone);
  }

  lemma SeverLists(es: Events, sp: Space, e: nat, gone: set<nat>, n: nat)
    requires NodeOk(es, sp, n) && e < |es| && NodeOk(es, sp, e) && ListsNone(es, n, gone) && ListsNone(es, e, gone)
    requires es[e].kind.Take?
    ensures ListsNone(Sever(es, e), n, gone + {e})
  {
    assert Linked(es, n) && Linked(es, e);
    var es', p := Sever(es, e), es[e].prev;
    assert es'[e].next == [];
    if n != e {
      forall c | c in es'[n].next ensures c !in gone + {e} {
        if n == p { assert (c in es[p].next && c != e) || c in es[e].next; } else { assert c in es[n].next; }
      }
    }
  }

  lemma SeverDetaches(es: Events, sp: Space, e: nat, gone: set<nat>)
    requires TreeOk(es, sp) && Rooted(es) && Detached(es, gone) && e < |es| && es[e].kind.Take? && e !in gone
    ensures Rooted(Sever(es, e)) && Detached(Sever(es, e), gone + {e})
  {
    hide NodeOk, ListsNone, Spliced;
    TreeIsBackward(es, sp);
    assert NodeOk(es, sp, e);
    forall n | 0 <= n < |es| ensures ListsNone(Sever(es, e), n, gone + {e}) {
      assert NodeOk(es, sp, n);
      SeverLists(es, sp, e, gone, n);
    }
  }

  // ---------------------------------------------------------------- scrubbing

  lemma ScrubThins(es: Events, dead: set<nat>)
    ensures Thinned(es, Scrub(es, dead))
    ensures forall n :: 0 <= n < |es| ==> Scrub(es, dead)[n].prev == es[n].prev && Scrub(es, dead)[n].next == es[n].next
  {}

  lemma {:induction false} ScrubTrims(es: Events, sp: Space, dead: set<nat>, n: nat)
    requires TreeOk(es, sp) && n < |es|
    ensures Meaning(es, n).scope < |es| && es[Meaning(es, n).scope].kind.Scope?
    ensures Trims(Meaning(es, n), Meaning(Scrub(es, dead), n), {}, Shed(es[Meaning(es, n).scope].kind.snapshot, dead))
  {
    assert NodeOk(es, sp, n);
    ScrubThins(es, dead);
    if !es[n].kind.Scope? {
      var p := es[n].prev;
      assert NodeOk(es, sp, p);
      ScrubTrims(es, sp, dead, p);
      MeaningScope(es, p);
      ApplyTrims(es, sp, Meaning(es, p), Meaning(Scrub(es, dead), p), n, es[n].kind, {},
                 Shed(es[Meaning(es, p).scope].kind.snapshot, dead));
      ApplyKeepsScope(Meaning(es, p), n, es[n].kind);
    }
  }

  /** No severed event is on the path to a node of the tree. */
  lemma {:induction false} LivePath(es: Events, gone: set<nat>, n: nat)
    requires Detached(es, gone) && n !in gone
    ensures forall x :: x in Meaning(es, n).tracked ==> x !in gone
  {
    if n < |es| && !es[n].kind.Scope? && es[n].prev < n {
      LivePath(es, gone, es[n].prev);
      var s := Meaning(es, es[n].prev);
      if es[n].kind.Drop? && es[n].kind.loc in s.alloc { UntrackIsPart(s.tracked, s.alloc[es[n].kind.loc].ev); }
    }
  }

  /** What is left of a state after scrubbing has nothing dead in it. */
  lemma ScrubbedIsClean(es: Events, sp: Space, dead: set<nat>, s: Sem, t: Sem)
    requires SemOk(es, sp, s) && Trims(s, t, {}, Shed(es[s.scope].kind.snapshot, dead))
    requires forall x :: x in s.tracked ==> x !in dead
    ensures forall l :: l in t.alloc ==> t.alloc[l].ev !in dead
  {
    forall l | l in t.alloc ensures t.alloc[l].ev !in dead { assert Accounted(es[s.scope].kind.snapshot, s, l); }
  }

  lemma ScrubFollows(es: Events, sp: Space, dead: set<nat>, gone: set<nat>, n: nat)
    requires TreeOk(es, sp) && Detached(es, gone) && dead <= gone && n < |es| && !es[n].kind.Scope?
    ensures Follows(Scrub(es, dead), es[n].kind, Meaning(Scrub(es, dead), es[n].prev))
  {
    var p := es[n].prev;
    assert NodeOk(es, sp, n);
    assert NodeOk(es, sp, p);
    ScrubTrims(es, sp, dead, p);
    LivePath(es, gone, p);
    ScrubbedIsClean(es, sp, dead, Meaning(es, p), Meaning(Scrub(es, dead), p));
  }

  /** Scrubbing severed allocations out of every snapshot keeps the tree sound. */
  lemma ScrubKeeps(es: Events, sp: Space, dead: set<nat>, gone: set<nat>)
    requires TreeOk(es, sp) && Rooted(es) && Detached(es, gone) && dead <= gone
    ensures TreeOk(Scrub(es, dead), sp) && Rooted(Scrub(es, dead)) && Detached(Scrub(es, dead), gone)
  {
    var es' := Scrub(es, dead);
    ScrubThins(es, dead);
    forall n | 0 <= n < |es| ensures NodeOk(es', sp, n) {
      assert NodeOk(es, sp, n);
      ScrubTrims(es, sp, dead, n);
      TrimmedIsOk(es, es', sp, Meaning(es, n), Meaning(es', n), {});
      if !es[n].kind.Scope? { ScrubFollows(es, sp, dead, gone, n); }
    }
    hide NodeOk, Detached;
    ScrubDetaches(es, dead, gone);
  }

  lemma ScrubDetaches(es: Events, dead: set<nat>, gone: set<nat>)
    requires Detached(es, gone)
    ensures Detached(Scrub(es, dead), gone)
  {
    forall n | 0 <= n < |es| ensures ListsNone(Scrub(es, dead), n, gone) { assert ListsNone(es, n, gone); }
  }
}
