/**
  The invariant of the event tree: every node means a state in which all allocations are
  apart, everything the scope found on entry is still there, and the tracked list names
  exactly what the scope itself holds.
*/
module GraphTree {
  import opened GraphModel

  predicate AllocOk(sp: Space, a: Alloc) {
    && (forall l :: l in a ==> EntryOk(sp, l, a[l].units))
    && (forall l, k :: l in a && k in a && l != k ==> Apart(sp, l, a[l].units, k, a[k].units))
  }

  /** The entry is the one its event made. */
  predicate MadeBy(es: Events, l: Loc, e: Entry) {
    && e.ev < |es| && es[e.ev].kind.Take? && es[e.ev].kind.loc == l
    && e.units == Units(l, es[e.ev].kind.bytes)
  }

  /** `e` is the event of an allocation that is live in `a`. */
  predicate LiveEvent(es: Events, a: Alloc, e: nat) {
    e < |es| && es[e].kind.Take? && es[e].kind.loc in a && a[es[e].kind.loc].ev == e
  }

  predicate NoDuplicates(t: seq<nat>) {
    forall i, j :: 0 <= i < j < |t| ==> t[i] != t[j]
  }

  predicate Extends(a: Alloc, b: Alloc) {
    forall l :: l in b ==> l in a && a[l] == b[l]
  }

  /** What an entry of a frame's state can be: found on entry, or made by the frame and tracked. */
  predicate Accounted(snapshot: Alloc, s: Sem, l: Loc)
    requires l in s.alloc
  {
    if s.alloc[l].ev > s.scope then s.alloc[l].ev in s.tracked && s.alloc[l].depth == s.depth
    else l in snapshot && snapshot[l] == s.alloc[l]
  }

  predicate SemOk(es: Events, sp: Space, s: Sem) {
    && AllocOk(sp, s.alloc)
    && s.scope < |es| && es[s.scope].kind.Scope? && es[s.scope].kind.depth == s.depth
    && Extends(s.alloc, es[s.scope].kind.snapshot)
    && (forall l :: l in es[s.scope].kind.snapshot ==> es[s.scope].kind.snapshot[l].ev < s.scope)
    && (forall l :: l in s.alloc ==> MadeBy(es, l, s.alloc[l]))
    && (forall l :: l in s.alloc ==> Accounted(es[s.scope].kind.snapshot, s, l))
    && NoDuplicates(s.tracked)
    && (forall e :: e in s.tracked ==> e > s.scope && LiveEvent(es, s.alloc, e))
  }

  predicate Linked(es: Events, n: nat)
    requires n < |es|
  {
    && (!es[n].kind.Scope? ==> es[n].prev < n)
    && (forall c :: c in es[n].next ==> n < c < |es| && es[c].prev == n && !es[c].kind.Scope?)
    && (es[n].kind.End? ==> es[n].next == [])
    && (es[n].kind.Call? ==> es[n].next == [] && es[n].kind.scope < |es| && es[es[n].kind.scope].kind.Scope?)
  }

  /** What makes an event sound after the state it follows. */
  predicate Follows(es: Events, kind: Kind, s: Sem) {
    match kind
    case Scope(_, _) => true
    case Take(loc, _) => loc !in s.alloc
    case Drop(loc) => loc in s.alloc ==> s.alloc[loc].ev > s.scope
    case Call(_, scope) =>
      && scope < |es| && es[scope].kind.Scope?
      && es[scope].kind.depth == s.depth + 1 && Extends(es[scope].kind.snapshot, s.alloc)
    case End => s.tracked == []
  }

  predicate NodeOk(es: Events, sp: Space, n: nat) {
    && n < |es|
    && Linked(es, n)
    && SemOk(es, sp, Meaning(es, n))
    && Follows(es, es[n].kind, Meaning(es, es[n].prev))
  }

  predicate TreeOk(es: Events, sp: Space) {
    && |es| > 0 && es[0].kind.Scope? && es[0].kind.depth == 1 && es[0].kind.snapshot == map[]
    && forall n :: 0 <= n < |es| ==> NodeOk(es, sp, n)
  }

  // ---------------------------------------------------------------- growing the arena changes no meaning

  /** `es'` has the events of `es`, except that nodes may have gained children. */
  predicate Grown(es: Events, es': Events) {
    && |es| <= |es'|
    && forall n :: 0 <= n < |es| ==> es'[n].kind == es[n].kind && es'[n].prev == es[n].prev
  }

  lemma {:induction false} MeaningStable(es: Events, es': Events, n: nat)
    requires Grown(es, es') && n < |es|
    ensures Meaning(es', n) == Meaning(es, n)
  {
    if !es[n].kind.Scope? && es[n].prev < n {
      MeaningStable(es, es', es[n].prev);
    }
  }

  lemma ApartStable(sp: Space, sp': Space, l: Loc, lu: nat, k: Loc, ku: nat)
    requires Grows(sp, sp') && EntryOk(sp, l, lu) && EntryOk(sp, k, ku)
    ensures EntryOk(sp', l, lu)
    ensures Apart(sp, l, lu, k, ku) ==> Apart(sp', l, lu, k, ku)
  {
    assert forall i :: 0 <= i < |sp.vaPhys| ==> sp'.vaPhys[i] == sp.vaPhys[i];
  }

  lemma AllocStable(sp: Space, sp': Space, a: Alloc)
    requires Grows(sp, sp') && AllocOk(sp, a)
    ensures AllocOk(sp', a)
  {
    forall l, k | l in a && k in a
      ensures EntryOk(sp', l, a[l].units) && (l != k ==> Apart(sp', l, a[l].units, k, a[k].units))
    {
      ApartStable(sp, sp', l, a[l].units, k, a[k].units);
    }
    forall l | l in a ensures EntryOk(sp', l, a[l].units) { ApartStable(sp, sp', l, a[l].units, l, a[l].units); }
  }

  lemma SemStable(es: Events, sp: Space, es': Events, sp': Space, s: Sem)
    requires Grown(es, es') && Grows(sp, sp') && SemOk(es, sp, s)
    ensures SemOk(es', sp', s)
  {
    AllocStable(sp, sp', s.alloc);
    forall l | l in s.alloc ensures MadeBy(es', l, s.alloc[l]) { assert MadeBy(es, l, s.alloc[l]); }
    forall e | e in s.tracked ensures e > s.scope && LiveEvent(es', s.alloc, e) { assert LiveEvent(es, s.alloc, e); }
  }

  // ---------------------------------------------------------------- applying one event

  lemma {:induction false} UntrackMeans(t: seq<nat>, e: nat)
    requires NoDuplicates(t)
    ensures NoDuplicates(Untrack(t, e))
    ensures forall x :: x in Untrack(t, e) <==> x in t && x != e
  {
    if t != [] {
      var rest := t[1..];
      assert t == [t[0]] + rest;
      assert NoDuplicates(rest);
      assert t[0] !in rest;
      UntrackMeans(rest, e);
    }
  }

  lemma TakeIsOk(es: Events, sp: Space, es': Events, sp': Space, s: Sem, loc: Loc, bytes: nat)
    requires SemOk(es, sp, s) && Grown(es, es') && Grows(sp, sp')
    requires |es'| == |es| + 1 && es'[|es|].kind == Take(loc, bytes)
    requires CanTake(sp', s.alloc, loc, Units(loc, bytes))
    ensures SemOk(es', sp', Apply(s, |es|, Take(loc, bytes)))
  {
    var n := |es|;
    SemStable(es, sp, es', sp', s);
    AddedIsApart(sp', s.alloc, loc, Entry(Units(loc, bytes), s.depth, n));
    forall e | e in s.tracked ensures e < n { assert LiveEvent(es, s.alloc, e); }
    TakeEntries(es', sp', s, loc, bytes, n);
    TakeTracked(es', sp', s, loc, bytes, n);
  }

  lemma TakeEntries(es: Events, sp: Space, s: Sem, loc: Loc, bytes: nat, n: nat)
    requires SemOk(es, sp, s) && loc !in s.alloc
    requires s.scope < n < |es| && es[n].kind == Take(loc, bytes)
    ensures var t := Apply(s, n, Take(loc, bytes));
      && Extends(t.alloc, es[s.scope].kind.snapshot)
      && (forall l :: l in t.alloc ==> MadeBy(es, l, t.alloc[l]))
      && (forall l :: l in t.alloc ==> Accounted(es[s.scope].kind.snapshot, t, l))
  {
    var t := Apply(s, n, Take(loc, bytes));
    forall l | l in t.alloc ensures MadeBy(es, l, t.alloc[l]) && Accounted(es[s.scope].kind.snapshot, t, l) {
      if l != loc { assert Accounted(es[s.scope].kind.snapshot, s, l); }
    }
  }

  lemma TakeTracked(es: Events, sp: Space, s: Sem, loc: Loc, bytes: nat, n: nat)
    requires SemOk(es, sp, s) && loc !in s.alloc && (forall e :: e in s.tracked ==> e < n)
    requires s.scope < n < |es| && es[n].kind == Take(loc, bytes)
    ensures var t := Apply(s, n, Take(loc, bytes));
      NoDuplicates(t.tracked) && forall e :: e in t.tracked ==> e > t.scope && LiveEvent(es, t.alloc, e)
  {
    var t := Apply(s, n, Take(loc, bytes));
    forall e | e in t.tracked ensures e > t.scope && LiveEvent(es, t.alloc, e) {
      if e != n { assert LiveEvent(es, s.alloc, e); }
    }
    assert forall i :: 0 <= i < |s.tracked| ==> s.tracked[i] in s.tracked;
  }

  lemma AddedIsApart(sp: Space, a: Alloc, loc: Loc, e: Entry)
    requires AllocOk(sp, a) && CanTake(sp, a, loc, e.units)
    ensures AllocOk(sp, a[loc := e])
  {
    var b := a[loc := e];
    forall l, k | l in b && k in b && l != k ensures Apart(sp, l, b[l].units, k, b[k].units) {
      if l == loc { assert k in a; } else if k == loc { assert l in a; assert Apart(sp, loc, e.units, l, a[l].units); }
    }
  }

  lemma DropIsOk(es: Events, sp: Space, es': Events, s: Sem, loc: Loc)
    requires SemOk(es, sp, s) && Grown(es, es')
    requires loc in s.alloc ==> s.alloc[loc].ev > s.scope
    ensures SemOk(es', sp, Apply(s, |es|, Drop(loc)))
  {
    if loc in s.alloc { LiveDropIsOk(es, sp, es', s, loc); } else { SemStable(es, sp, es', sp, s); }
  }

  lemma LiveDropIsOk(es: Events, sp: Space, es': Events, s: Sem, loc: Loc)
    requires SemOk(es, sp, s) && Grown(es, es')
    requires loc in s.alloc && s.alloc[loc].ev > s.scope
    ensures SemOk(es', sp, Apply(s, |es|, Drop(loc)))
  {
    SemStable(es, sp, es', sp, s);
    var t := Apply(s, |es|, Drop(loc));
    UntrackMeans(s.tracked, s.alloc[loc].ev);
    forall l | l in t.alloc ensures Accounted(es[s.scope].kind.snapshot, t, l) { DropAccounts(es, sp, s, loc, l); }
    forall x | x in t.tracked ensures LiveEvent(es', t.alloc, x) { assert LiveEvent(es', s.alloc, x); }
    assert loc !in es[s.scope].kind.snapshot;
  }

  /** What is left after a drop is accounted for as before. */
  lemma DropAccounts(es: Events, sp: Space, s: Sem, loc: Loc, l: Loc)
    requires SemOk(es, sp, s) && loc in s.alloc && l in s.alloc && l != loc
    ensures Accounted(es[s.scope].kind.snapshot, Apply(s, |es|, Drop(loc)), l)
  {
    UntrackMeans(s.tracked, s.alloc[loc].ev);
    assert Accounted(es[s.scope].kind.snapshot, s, l);
    assert MadeBy(es, l, s.alloc[l]) && MadeBy(es, loc, s.alloc[loc]);
  }

  // ---------------------------------------------------------------- appending keeps the tree sound

  lemma AppendGrows(es: Events, cursor: nat, kind: Kind)
    requires cursor < |es|
    ensures Grown(es, Append(es, cursor, kind))
    ensures Append(es, cursor, kind)[|es|] == Event(kind, cursor, [])
  {}

  lemma NodeStable(es: Events, sp: Space, cursor: nat, kind: Kind, sp': Space, n: nat)
    requires NodeOk(es, sp, n) && Grows(sp, sp') && cursor < |es| && !kind.Scope?
    requires es[cursor].kind.End? ==> false
    requires es[cursor].kind.Call? ==> false
    ensures NodeOk(Append(es, cursor, kind), sp', n)
  {
    var es' := Append(es, cursor, kind);
    AppendGrows(es, cursor, kind);
    MeaningStable(es, es', n);
    SemStable(es, sp, es', sp', Meaning(es, n));
    if !es[n].kind.Scope? { MeaningStable(es, es', es[n].prev); }
    LinkedStable(es, cursor, kind, n);
    FollowsStable(es, es', es[n].kind, Meaning(es, es[n].prev));
  }

  lemma LinkedStable(es: Events, cursor: nat, kind: Kind, n: nat)
    requires n < |es| && Linked(es, n) && cursor < |es| && !kind.Scope?
    requires !es[cursor].kind.End? && !es[cursor].kind.Call?
    ensures Linked(Append(es, cursor, kind), n)
  {
    var es' := Append(es, cursor, kind);
    forall c | c in es'[n].next ensures n < c < |es'| && es'[c].prev == n && !es'[c].kind.Scope? {
      if c != |es| { assert c in es[n].next; }
    }
  }

  lemma FollowsStable(es: Events, es': Events, kind: Kind, s: Sem)
    requires Grown(es, es') && Follows(es, kind, s)
    ensures Follows(es', kind, s)
  {}

  /** A sound event appended at a cursor that is not a leaf by nature keeps the tree sound. */
  lemma AppendKeeps(es: Events, sp: Space, cursor: nat, kind: Kind, sp': Space)
    requires TreeOk(es, sp) && Grows(sp, sp') && cursor < |es|
    requires !es[cursor].kind.End? && !es[cursor].kind.Call?
    requires kind.Take? || kind.Drop? || kind.End?
    requires Follows(es, kind, Meaning(es, cursor))
    requires kind.Take? ==> CanTake(sp', Meaning(es, cursor).alloc, kind.loc, Units(kind.loc, kind.bytes))
    ensures TreeOk(Append(es, cursor, kind), sp')
    ensures Meaning(Append(es, cursor, kind), |es|) == Apply(Meaning(es, cursor), |es|, kind)
  {
    var es' := Append(es, cursor, kind);
    AppendGrows(es, cursor, kind);
    assert NodeOk(es, sp, cursor);
    NewNodeOk(es, sp, cursor, kind, sp');
    forall n | 0 <= n < |es| ensures NodeOk(es', sp', n) {
      assert NodeOk(es, sp, n);
      NodeStable(es, sp, cursor, kind, sp', n);
    }
    OneMore(es', sp', |es|);
  }

  lemma OneMore(es: Events, sp: Space, k: nat)
    requires k + 1 == |es| && NodeOk(es, sp, k) && forall n :: 0 <= n < k ==> NodeOk(es, sp, n)
    ensures forall n :: 0 <= n < |es| ==> NodeOk(es, sp, n)
  {}

  lemma NewNodeOk(es: Events, sp: Space, cursor: nat, kind: Kind, sp': Space)
    requires cursor < |es| && NodeOk(es, sp, cursor) && Grows(sp, sp')
    requires kind.Take? || kind.Drop? || kind.End?
    requires Follows(es, kind, Meaning(es, cursor))
    requires kind.Take? ==> CanTake(sp', Meaning(es, cursor).alloc, kind.loc, Units(kind.loc, kind.bytes))
    ensures NodeOk(Append(es, cursor, kind), sp', |es|)
    ensures Meaning(Append(es, cursor, kind), |es|) == Apply(Meaning(es, cursor), |es|, kind)
  {
    var es' := Append(es, cursor, kind);
    AppendGrows(es, cursor, kind);
    MeaningStable(es, es', cursor);
    AppliedIsOk(es, sp, es', sp', Meaning(es, cursor), kind);
    FollowsStable(es, es', kind, Meaning(es, cursor));
  }

  lemma AppliedIsOk(es: Events, sp: Space, es': Events, sp': Space, s: Sem, kind: Kind)
    requires SemOk(es, sp, s) && Grown(es, es') && Grows(sp, sp') && |es'| == |es| + 1 && es'[|es|].kind == kind
    requires kind.Take? || kind.Drop? || kind.End?
    requires Follows(es, kind, s)
    requires kind.Take? ==> CanTake(sp', s.alloc, kind.loc, Units(kind.loc, kind.bytes))
    ensures SemOk(es', sp', Apply(s, |es|, kind))
  {
    match kind
    case Take(loc, bytes) => TakeIsOk(es, sp, es', sp', s, loc, bytes);
    case Drop(loc) =>
      DropIsOk(es, sp, es', s, loc);
      SemStable(es', sp, es', sp', Apply(s, |es|, kind));
    case End => SemStable(es, sp, es', sp', s);
  }

  /** Recording a call adds two nodes: the call and its scope, whose snapshot is the recorder's state. */
  lemma CallKeeps(es: Events, sp: Space, cursor: nat, name: string, snapshot: Alloc, depth: nat)
    requires TreeOk(es, sp) && cursor < |es|
    requires !es[cursor].kind.End? && !es[cursor].kind.Call?
    requires AllocOk(sp, snapshot) && Extends(snapshot, Meaning(es, cursor).alloc) && depth == Meaning(es, cursor).depth + 1
    requires forall l :: l in snapshot ==> MadeBy(es, l, snapshot[l])
    ensures TreeOk(Append(es, cursor, Call(name, |es| + 1)) + [Event(Scope(snapshot, depth), 0, [])], sp)
  {
    var es' := Append(es, cursor, Call(name, |es| + 1)) + [Event(Scope(snapshot, depth), 0, [])];
    assert NodeOk(es, sp, cursor);
    CallShape(es, cursor, name, snapshot, depth);
    hide Append, NodeOk, Grown, Follows, AllocOk, Meaning, MadeBy;
    AllSideBySide(es, es', sp, cursor);
    CallNodeOk(es, es', sp, cursor, name);
    ScopeNodeOk(es, es', sp, snapshot, depth);
    TwoMore(es', sp, |es|);
  }

  lemma CallShape(es: Events, cursor: nat, name: string, snapshot: Alloc, depth: nat)
    requires cursor < |es| && Extends(snapshot, Meaning(es, cursor).alloc) && depth == Meaning(es, cursor).depth + 1
    requires !es[cursor].kind.End? && !es[cursor].kind.Call?
    ensures var es' := Append(es, cursor, Call(name, |es| + 1)) + [Event(Scope(snapshot, depth), 0, [])];
      && Grown(es, es') && |es'| == |es| + 2
      && (forall k :: 0 <= k < |es| ==> es'[k].next == if k == cursor then es[k].next + [|es|] else es[k].next)
      && es'[|es|] == Event(Call(name, |es| + 1), cursor, [])
      && es'[|es| + 1] == Event(Scope(snapshot, depth), 0, [])
      && Follows(es', Call(name, |es| + 1), Meaning(es, cursor))
  {
    hide Meaning;
    AppendGrows(es, cursor, Call(name, |es| + 1));
  }

  lemma AllSideBySide(es: Events, es': Events, sp: Space, cursor: nat)
    requires TreeOk(es, sp) && cursor < |es| && Grown(es, es') && |es'| == |es| + 2
    requires !es[cursor].kind.End? && !es[cursor].kind.Call?
    requires forall k :: 0 <= k < |es| ==> es'[k].next == if k == cursor then es[k].next + [|es|] else es[k].next
    requires es'[|es|].prev == cursor && !es'[|es|].kind.Scope?
    ensures forall n :: 0 <= n < |es| ==> NodeOk(es', sp, n)
  {
    forall n | 0 <= n < |es| ensures NodeOk(es', sp, n) {
      assert NodeOk(es, sp, n);
      hide NodeOk, Grown;
      SideBySide(es, es', sp, cursor, n);
    }
  }

  lemma TwoMore(es: Events, sp: Space, k: nat)
    requires k + 2 == |es| && NodeOk(es, sp, k) && NodeOk(es, sp, k + 1) && forall n :: 0 <= n < k ==> NodeOk(es, sp, n)
    ensures forall n :: 0 <= n < |es| ==> NodeOk(es, sp, n)
  {}

  lemma CallNodeOk(es: Events, es': Events, sp: Space, cursor: nat, name: string)
    requires cursor < |es| && NodeOk(es, sp, cursor) && Grown(es, es') && |es'| == |es| + 2
    requires es'[|es|] == Event(Call(name, |es| + 1), cursor, [])
    requires Follows(es', Call(name, |es| + 1), Meaning(es, cursor))
    ensures NodeOk(es', sp, |es|)
  {
    MeaningStable(es, es', cursor);
    SemStable(es, sp, es', sp, Meaning(es, cursor));
  }

  lemma ScopeNodeOk(es: Events, es': Events, sp: Space, snapshot: Alloc, depth: nat)
    requires Grown(es, es') && |es'| == |es| + 2 && es'[|es| + 1] == Event(Scope(snapshot, depth), 0, [])
    requires AllocOk(sp, snapshot) && forall l :: l in snapshot ==> MadeBy(es, l, snapshot[l])
    ensures NodeOk(es', sp, |es| + 1)
  {
    forall l | l in snapshot ensures MadeBy(es', l, snapshot[l]) { assert MadeBy(es, l, snapshot[l]); }
  }

  /** An old node is as sound beside a recorded call as it was. */
  lemma SideBySide(es: Events, es': Events, sp: Space, cursor: nat, n: nat)
    requires NodeOk(es, sp, n) && cursor < |es| && Grown(es, es') && |es'| == |es| + 2
    requires !es[cursor].kind.End? && !es[cursor].kind.Call?
    requires forall k :: 0 <= k < |es| ==> es'[k].next == if k == cursor then es[k].next + [|es|] else es[k].next
    requires es'[|es|].prev == cursor && !es'[|es|].kind.Scope?
    ensures NodeOk(es', sp, n)
  {
    MeaningStable(es, es', n);
    SemStable(es, sp, es', sp, Meaning(es, n));
    if !es[n].kind.Scope? { MeaningStable(es, es', es[n].prev); }
    FollowsStable(es, es', es[n].kind, Meaning(es, es[n].prev));
    forall c | c in es'[n].next ensures n < c < |es'| && es'[c].prev == n && !es'[c].kind.Scope? {
      if c != |es| { assert c in es[n].next; }
    }
  }

  // ---------------------------------------------------------------- what a frame leaves behind

  /** A frame that holds nothing of its own means exactly the state it was entered with. */
  lemma EmptyFrameIsSnapshot(es: Events, sp: Space, s: Sem)
    requires SemOk(es, sp, s)
    ensures s.tracked == [] <==> s.alloc == es[s.scope].kind.snapshot
  {
    var snap := es[s.scope].kind.snapshot;
    if s.tracked == [] {
      forall l ensures (l in s.alloc <==> l in snap) && (l in snap ==> s.alloc[l] == snap[l]) {
        if l in s.alloc { assert Accounted(snap, s, l); }
      }
    } else {
      assert s.tracked[0] in s.tracked && LiveEvent(es, s.alloc, s.tracked[0]);
      var l := es[s.tracked[0]].kind.loc;
      assert s.alloc[l].ev == s.tracked[0] > s.scope;
    }
  }
}
