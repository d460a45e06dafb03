/**
  Safety with leaks: in every run that has not failed, no two live things, be they held by an
  open frame, left behind as a candidate, or owned by a rogue, share a page object or a byte.
*/
module GraphWorldSafety {
  import opened GraphModel
  import opened GraphTree
  import opened GraphSafety
  import opened GraphRuns
  import opened GraphLeaks
  import opened GraphCollect
  import opened GraphSmall
  import opened GraphWorld
  import F = GraphFinalize

  // ---------------------------------------------------------------- the invariant

  predicate Ties(g: Graph, b: F.Backing) {
    && |b.vaPhys| == |g.space.vaPhys| && |b.pages| == g.physCount <= |g.space.vaPhys| && HeapOk(g)
    && forall i :: 0 <= i < |b.vaPhys| ==> g.space.vaPhys[i] == b.vaPhys[i]
  }

  predicate AwayFromLeak(sp: Space, loc: Loc, units: nat, k: Leak) {
    && (loc.Large? && k.loc.Large? ==> Apart(sp, loc, units, k.loc, k.units))
    && (loc.Small? && k.loc.Small? && !k.freed ==> Clear(Span(k.loc.offset, k.bytes), loc.offset, units))
  }

  predicate AwayFromRogue(loc: Loc, bytes: nat, r: Rogue) {
    loc.Small? && r.loc.Small? ==> Clear(Span(r.loc.offset, r.bytes), loc.offset, bytes)
  }

  predicate NoHole(b: F.Backing, loc: Loc, units: nat) {
    loc.Large? ==> forall i :: loc.va <= i < loc.va + units && i < |b.holes| ==> b.holes[i] == 0
  }

  /** An allocation may be handed out: it is away from everything that leaked. */
  predicate Fits(w: World, loc: Loc, units: nat) {
    && EntryOk(w.g.space, loc, units) && NoHole(w.b, loc, units)
    && (forall i :: 0 <= i < |w.leaks| ==> AwayFromLeak(w.g.space, loc, units, w.leaks[i]))
    && (forall i :: 0 <= i < |w.rogues| ==> AwayFromRogue(loc, units, w.rogues[i]))
  }

  ghost predicate HeldFit(w: World) {
    forall k, l :: 0 <= k < |w.g.stack| && Holds(w.g, k, l) ==> Fits(w, l, UnitsOf(w.g, k, l))
  }

  predicate LeakOk(w: World, k: Leak) {
    && EntryOk(w.g.space, k.loc, k.units) && NoHole(w.b, k.loc, k.units) && k.ev in w.gone
    && (k.loc.Small? ==> 0 < k.bytes <= k.units)
    && (k.loc.Small? && !k.freed ==> forall i :: 0 <= i < |w.rogues| ==> AwayFromRogue(k.loc, k.bytes, w.rogues[i]))
  }

  predicate LeaksApart(sp: Space, k: Leak, m: Leak) {
    && (k.loc.Large? && m.loc.Large? ==> Apart(sp, k.loc, k.units, m.loc, m.units))
    && (k.loc.Small? && m.loc.Small? && !k.freed && !m.freed ==> Clear(Span(m.loc.offset, m.bytes), k.loc.offset, k.bytes))
  }

  predicate LeaksOk(w: World) {
    && (forall i :: 0 <= i < |w.leaks| ==> LeakOk(w, w.leaks[i]))
    && (forall i, j :: 0 <= i < j < |w.leaks| ==> LeaksApart(w.g.space, w.leaks[i], w.leaks[j]))
  }

  predicate RogueOk(b: F.Backing, r: Rogue) {
    if r.loc.Large? then forall va :: r.loc.va <= va < r.loc.va + r.units ==> va in b.held
    else r.bytes > 0 && r.loc.offset + r.bytes <= HEAP
  }

  ghost predicate RoguesApart(b: F.Backing, r: Rogue, q: Rogue) {
    && (r.loc.Large? && q.loc.Large? ==>
          forall i, j :: Covers(r, i) && Covers(q, j) && i in b.held && j in b.held ==> b.held[i] != b.held[j])
    && AwayFromRogue(r.loc, r.bytes, q)
  }

  ghost predicate RoguesOk(b: F.Backing, rogues: seq<Rogue>) {
    && (forall i :: 0 <= i < |rogues| ==> RogueOk(b, rogues[i]))
    && (forall i, j :: 0 <= i < j < |rogues| ==> RoguesApart(b, rogues[i], rogues[j]))
  }

  /** The small heap never shrinks, so what leaked from it stays inside. */
  predicate RoguesInside(limit: nat, rogues: seq<Rogue>) {
    forall i :: 0 <= i < |rogues| && rogues[i].loc.Small? ==> rogues[i].loc.offset + rogues[i].bytes <= limit
  }

  ghost predicate WorldInv(w: World) {
    && Severed(w.g, w.gone) && Sized(w.g.es)
    && F.BackingOk(w.b) && Ties(w.g, w.b)
    && HeldFit(w) && LeaksOk(w) && RoguesOk(w.b, w.rogues) && RoguesInside(w.g.space.limit, w.rogues)
  }

  // ---------------------------------------------------------------- what the invariant is for

  datatype Live = Held(k: nat, loc: Loc) | Leaked(i: nat) | Lost(i: nat)

  predicate Alive(w: World, t: Live) {
    match t
    case Held(k, loc) => k < |w.g.stack| && Holds(w.g, k, loc)
    case Leaked(i) => i < |w.leaks| && !w.leaks[i].freed
    case Lost(i) => i < |w.rogues|
  }

  function LocOf(w: World, t: Live): Loc
    requires Alive(w, t)
  {
    match t
    case Held(_, loc) => loc
    case Leaked(i) => w.leaks[i].loc
    case Lost(i) => w.rogues[i].loc
  }

  /** The virtual pages of a large thing; the bytes of a small one. */
  function SizeOf(w: World, t: Live): nat
    requires Alive(w, t)
  {
    match t
    case Held(k, loc) => UnitsOf(w.g, k, loc)
    case Leaked(i) => if w.leaks[i].loc.Large? then w.leaks[i].units else w.leaks[i].bytes
    case Lost(i) => if w.rogues[i].loc.Large? then w.rogues[i].units else w.rogues[i].bytes
  }

  /** What a virtual page of the thing is mapped to: by its rogue, or by the graph. */
  function ObjectAt(w: World, t: Live, va: nat): F.Slot {
    if t.Lost? then (if va in w.b.held then F.MappedTo(w.b.held[va]) else F.Unmapped)
    else if va < |w.b.mapped| then w.b.mapped[va] else F.Unmapped
  }

  predicate OnPage(w: World, t: Live, va: nat)
    requires Alive(w, t)
  {
    LocOf(w, t).Large? && LocOf(w, t).va <= va < LocOf(w, t).va + SizeOf(w, t)
  }

  predicate OnByte(w: World, t: Live, x: nat)
    requires Alive(w, t)
  {
    LocOf(w, t).Small? && LocOf(w, t).offset <= x < LocOf(w, t).offset + SizeOf(w, t)
  }

  /** No two live things share memory, and every page of each is mapped. */
  ghost predicate MemorySafe(w: World) {
    && (forall t, va :: Alive(w, t) && OnPage(w, t, va) ==> ObjectAt(w, t, va).MappedTo?)
    && (forall t, u, i, j :: Alive(w, t) && Alive(w, u) && t != u && OnPage(w, t, i) && OnPage(w, u, j) ==>
          ObjectAt(w, t, i) != ObjectAt(w, u, j))
    && (forall t, u, x :: Alive(w, t) && Alive(w, u) && t != u && OnByte(w, t, x) ==> !OnByte(w, u, x))
  }

  /** Something of the graph's is on the page that its virtual page names. */
  lemma GraphObject(w: World, loc: Loc, units: nat, va: nat)
    requires WorldInv(w) && loc.Large? && EntryOk(w.g.space, loc, units) && NoHole(w.b, loc, units) && loc.va <= va < loc.va + units
    ensures va < |w.b.vaPhys| && w.b.vaPhys[va] < |w.b.pages| && w.b.mapped[va] == F.MappedTo(w.b.pages[w.b.vaPhys[va]])
  {
    hide Severed, HeldFit, LeaksOk, RoguesOk;
  }

  lemma LiveObject(w: World, t: Live, va: nat)
    requires WorldInv(w) && Alive(w, t) && OnPage(w, t, va)
    ensures ObjectAt(w, t, va).MappedTo?
    ensures !t.Lost? ==> va < |w.b.vaPhys| && w.b.vaPhys[va] < |w.b.pages| && ObjectAt(w, t, va) == F.MappedTo(w.b.pages[w.b.vaPhys[va]])
    ensures t.Lost? ==> va in w.b.held && ObjectAt(w, t, va) == F.MappedTo(w.b.held[va])
  {
    match t
    case Held(k, loc) =>
      assert Fits(w, loc, UnitsOf(w.g, k, loc));
      GraphObject(w, loc, UnitsOf(w.g, k, loc), va);
    case Leaked(i) =>
      assert LeakOk(w, w.leaks[i]);
      GraphObject(w, w.leaks[i].loc, w.leaks[i].units, va);
    case Lost(i) => assert RogueOk(w.b, w.rogues[i]);
  }

  function Rank(t: Live): nat {
    match t case Held(_, _) => 0 case Leaked(_) => 1 case Lost(_) => 2
  }

  /** Two live things of the graph are on different pages. */
  lemma GraphPagesApart(w: World, t: Live, u: Live, i: nat, j: nat)
    requires WorldInv(w) && Alive(w, t) && Alive(w, u) && t != u && OnPage(w, t, i) && OnPage(w, u, j)
    requires Rank(t) <= Rank(u) < 2
    ensures ObjectAt(w, t, i) != ObjectAt(w, u, j)
  {
    LiveObject(w, t, i);
    LiveObject(w, u, j);
    match (t, u)
    case (Held(k, l), Held(m, n)) =>
      if k <= m { HeldAreApart(w.g, k, l, m, n); } else { HeldAreApart(w.g, m, n, k, l); }
    case (Held(k, l), Leaked(n)) =>
      assert Fits(w, l, UnitsOf(w.g, k, l));
      assert AwayFromLeak(w.g.space, l, UnitsOf(w.g, k, l), w.leaks[n]);
    case (Leaked(m), Leaked(n)) =>
      if m < n { assert LeaksApart(w.g.space, w.leaks[m], w.leaks[n]); } else { assert LeaksApart(w.g.space, w.leaks[n], w.leaks[m]); }
  }

  lemma PagesApart(w: World, t: Live, u: Live, i: nat, j: nat)
    requires WorldInv(w) && Alive(w, t) && Alive(w, u) && t != u && OnPage(w, t, i) && OnPage(w, u, j)
    requires Rank(t) <= Rank(u)
    ensures ObjectAt(w, t, i) != ObjectAt(w, u, j)
  {
    if !u.Lost? {
      GraphPagesApart(w, t, u, i, j);
    } else {
      LiveObject(w, t, i);
      LiveObject(w, u, j);
      if t.Lost? {
        if t.i < u.i { assert RoguesApart(w.b, w.rogues[t.i], w.rogues[u.i]); } else { assert RoguesApart(w.b, w.rogues[u.i], w.rogues[t.i]); }
      }
    }
  }

  lemma HeldBytesApart(w: World, k: nat, l: Loc, u: Live, x: nat)
    requires WorldInv(w) && Alive(w, Held(k, l)) && Alive(w, u) && Held(k, l) != u && OnByte(w, Held(k, l), x)
    ensures !OnByte(w, u, x)
  {
    assert Fits(w, l, UnitsOf(w.g, k, l));
    match u
    case Held(m, n) =>
      if k <= m { HeldAreApart(w.g, k, l, m, n); } else { HeldAreApart(w.g, m, n, k, l); }
    case Leaked(n) => assert AwayFromLeak(w.g.space, l, UnitsOf(w.g, k, l), w.leaks[n]);
    case Lost(n) => assert AwayFromRogue(l, UnitsOf(w.g, k, l), w.rogues[n]);
  }

  lemma BytesApart(w: World, t: Live, u: Live, x: nat)
    requires WorldInv(w) && Alive(w, t) && Alive(w, u) && t != u && OnByte(w, t, x) && Rank(t) <= Rank(u)
    ensures !OnByte(w, u, x)
  {
    match (t, u)
    case (Held(k, l), _) => HeldBytesApart(w, k, l, u, x);
    case (Leaked(m), Leaked(n)) =>
      if m < n { assert LeaksApart(w.g.space, w.leaks[m], w.leaks[n]); } else { assert LeaksApart(w.g.space, w.leaks[n], w.leaks[m]); }
    case (Leaked(m), Lost(n)) => assert LeakOk(w, w.leaks[m]) && AwayFromRogue(w.leaks[m].loc, w.leaks[m].bytes, w.rogues[n]);
    case (Lost(m), Lost(n)) =>
      if m < n { assert RoguesApart(w.b, w.rogues[m], w.rogues[n]); } else { assert RoguesApart(w.b, w.rogues[n], w.rogues[m]); }
  }

  /** The invariant is enough: nothing live shares memory with anything else live. */
  lemma WorldIsMemorySafe(w: World)
    requires WorldInv(w)
    ensures MemorySafe(w)
  {
    forall t, va | Alive(w, t) && OnPage(w, t, va) ensures ObjectAt(w, t, va).MappedTo? { LiveObject(w, t, va); }
    forall t, u, i, j | Alive(w, t) && Alive(w, u) && t != u && OnPage(w, t, i) && OnPage(w, u, j)
      ensures ObjectAt(w, t, i) != ObjectAt(w, u, j)
    {
      if Rank(t) <= Rank(u) { PagesApart(w, t, u, i, j); } else { PagesApart(w, u, t, j, i); }
    }
    forall t, u, x | Alive(w, t) && Alive(w, u) && t != u && OnByte(w, t, x) ensures !OnByte(w, u, x) {
      if Rank(t) <= Rank(u) { BytesApart(w, t, u, x); } else { if OnByte(w, u, x) { BytesApart(w, u, t, x); } }
    }
  }
}
