/**
  What the compiler owes.  A client writes down each pointer with the size it asked for and the
  page objects that the pointer then led to, and strikes it out only when it gives it back; leaving
  a frame strikes nothing out.  In every run each pointer in the book is alive at that size on those
  very page objects, be it held, a candidate or a rogue, and everything alive is in the book.
*/
module GraphWorldOwed {
  import opened GraphModel
  import opened GraphTree
  import opened GraphSafety
  import opened GraphRuns
  import opened GraphAsked
  import opened GraphLeaks
  import opened GraphCollect
  import opened GraphSmall
  import opened GraphWorld
  import opened GraphWorldSafety
  import opened GraphWorldSteps
  import opened GraphWorldAllocs
  import opened GraphWorldPops
  import opened GraphWorldRuns
  import F = GraphFinalize

  // ---------------------------------------------------------------- the same thing in two worlds

  /** Where a live thing is and how large, whoever owns it. */
  function Thing(w: World, t: Live): Rogue
    requires Alive(w, t)
  {
    match t
    case Held(k, loc) => Rogue(loc, UnitsOf(w.g, k, loc), BytesOf(w.g, k, loc))
    case Leaked(i) => AsRogue(w.leaks[i])
    case Lost(i) => w.rogues[i]
  }

  /** The same place and extent, on the same page objects. */
  ghost predicate Same(w: World, t: Live, r: World, u: Live) {
    && Alive(w, t) && Alive(r, u) && Thing(r, u) == Thing(w, t)
    && forall va: nat :: Covers(Thing(w, t), va) ==> ObjectAt(r, u, va) == ObjectAt(w, t, va)
  }

  /** The thing is still alive in `r`, as something other than `not`. */
  ghost predicate SurvivesBeside(w: World, t: Live, r: World, not: Live) {
    exists u :: u != not && Same(w, t, r, u)
  }

  ghost predicate Survives(w: World, t: Live, r: World) {
    exists u :: Same(w, t, r, u)
  }

  /** Everything alive in `w` is still alive in `r`. */
  ghost predicate Carries(w: World, r: World) {
    forall t :: Alive(w, t) ==> Survives(w, t, r)
  }

  ghost predicate CarriesBut(w: World, r: World, lost: Live) {
    forall t :: Alive(w, t) && t != lost ==> Survives(w, t, r)
  }

  ghost predicate CarriesBeside(w: World, r: World, not: Live) {
    forall t :: Alive(w, t) ==> SurvivesBeside(w, t, r, not)
  }

  lemma SameIsMutual(w: World, t: Live, r: World, u: Live)
    requires Same(w, t, r, u)
    ensures Same(r, u, w, t)
  {}

  lemma CarriesOn(w: World, v: World, r: World)
    requires Carries(w, v) && Carries(v, r)
    ensures Carries(w, r)
  {
    forall t | Alive(w, t) ensures Survives(w, t, r) {
      assert Survives(w, t, v);
      var u :| Same(w, t, v, u);
      assert Survives(v, u, r);
      var x :| Same(v, u, r, x);
      assert Same(w, t, r, x);
    }
  }

  // ---------------------------------------------------------------- steps that leave all memory in place

  predicate MappedGrows(a: F.Backing, b: F.Backing) {
    && |a.mapped| <= |b.mapped| && b.held == a.held
    && forall va :: 0 <= va < |a.mapped| ==> b.mapped[va] == a.mapped[va]
  }

  predicate Beside(w: World, r: World) {
    r.leaks == w.leaks && r.rogues == w.rogues && MappedGrows(w.b, r.b)
  }

  lemma ObjectStays(w: World, t: Live, va: nat)
    requires WorldInv(w) && Alive(w, t) && Covers(Thing(w, t), va) && !t.Lost?
    ensures va < |w.b.mapped|
  {
    match t
    case Held(k, loc) => assert Fits(w, loc, UnitsOf(w.g, k, loc));
    case Leaked(i) => assert LeakOk(w, w.leaks[i]);
  }

  lemma HeldCarries(w: World, r: World, k: nat, l: Loc)
    requires WorldInv(w) && Beside(w, r) && SameHeld(w.g, r.g, k, l)
    ensures Same(w, Held(k, l), r, Held(k, l)) && Same(r, Held(k, l), w, Held(k, l))
  {
    forall va: nat | Covers(Thing(w, Held(k, l)), va) ensures va < |w.b.mapped| { ObjectStays(w, Held(k, l), va); }
    hide WorldInv, Holds, UnitsOf, BytesOf;
  }

  lemma OtherCarries(w: World, r: World, t: Live)
    requires WorldInv(w) && Beside(w, r) && !t.Held? && (Alive(w, t) || Alive(r, t))
    ensures Same(w, t, r, t) && Same(r, t, w, t)
  {
    assert Alive(w, t) && Alive(r, t);
    forall va: nat | Covers(Thing(w, t), va) && t.Leaked? ensures va < |w.b.mapped| { ObjectStays(w, t, va); }
    hide WorldInv;
  }

  lemma SameHeldIsMutual(g: Graph, r: Graph, k: nat, l: Loc)
    requires SameHeld(g, r, k, l)
    ensures SameHeld(r, g, k, l)
  {}

  /** What the frames hold stayed, except perhaps for one allocation that was there before. */
  lemma FewerCarry(w: World, r: World, j: nat, loc: Loc)
    requires WorldInv(w) && Beside(w, r) && HoldsAllBut(w.g, r.g, j, loc) && HoldsAll(r.g, w.g)
    ensures CarriesBut(w, r, Held(j, loc))
    ensures j < |r.g.stack| && !Holds(r.g, j, loc) ==> CarriesBeside(r, w, Held(j, loc))
    ensures Carries(r, w)
  {
    forall t | Alive(w, t) && t != Held(j, loc) ensures Survives(w, t, r) {
      if t.Held? { assert SameHeld(w.g, r.g, t.k, t.loc); HeldCarries(w, r, t.k, t.loc); } else { OtherCarries(w, r, t); }
    }
    forall t | Alive(r, t) ensures Same(r, t, w, t) {
      if t.Held? {
        assert SameHeld(r.g, w.g, t.k, t.loc);
        SameHeldIsMutual(r.g, w.g, t.k, t.loc);
        HeldCarries(w, r, t.k, t.loc);
      } else {
        OtherCarries(w, r, t);
      }
    }
    hide Same, WorldInv, Beside, HoldsAll, HoldsAllBut;
  }

  lemma AllCarry(w: World, r: World)
    requires WorldInv(w) && Beside(w, r) && HoldsAll(w.g, r.g) && HoldsAll(r.g, w.g)
    ensures Carries(w, r) && Carries(r, w)
  {
    FewerCarry(w, r, |w.g.stack|, Small(0));
    hide Survives, WorldInv, Beside, HoldsAll;
  }

  /** The frames hold one more. */
  lemma OneMoreCarries(w: World, r: World, j: nat, loc: Loc)
    requires WorldInv(w) && Beside(w, r) && HoldsAll(w.g, r.g) && HoldsAllBut(r.g, w.g, j, loc)
    ensures Carries(w, r) && CarriesBut(r, w, Held(j, loc))
  {
    forall t | Alive(w, t) ensures Survives(w, t, r) {
      if t.Held? { assert SameHeld(w.g, r.g, t.k, t.loc); HeldCarries(w, r, t.k, t.loc); } else { OtherCarries(w, r, t); }
    }
    forall t | Alive(r, t) && t != Held(j, loc) ensures Survives(r, t, w) {
      if t.Held? {
        assert SameHeld(r.g, w.g, t.k, t.loc);
        SameHeldIsMutual(r.g, w.g, t.k, t.loc);
        HeldCarries(w, r, t.k, t.loc);
      } else {
        OtherCarries(w, r, t);
      }
    }
  }

  // ---------------------------------------------------------------- a frame hands over what it holds

  /** The frames hold what they held, but for the candidate. */
  lemma SeveredEntry(g: Graph, e: nat, gone: set<nat>, k: nat, l: Loc)
    requires Severed(g, gone) && Leaving(g, e) && k < |g.stack|
    ensures Holds(SeverTop(g, e), k, l) <==> Holds(g, k, l) && (k, l) != (|g.stack| - 1, g.es[e].kind.loc)
    ensures Holds(SeverTop(g, e), k, l) ==> Mean(SeverTop(g, e), k).alloc[l] == Mean(g, k).alloc[l]
  {
    hide Severed, Sever, Meaning, Trims;
    var top := |g.stack| - 1;
    SeverTopKeeps(g, e, gone);
    if k == top {
      TopTrims(g, e, gone);
      CutEntry(Mean(g, top), Mean(SeverTop(g, e), top), e, g.es[Mean(g, top).scope].kind.snapshot, g.es[e].kind.loc, l);
    }
  }

  lemma CutEntry(s: Sem, t: Sem, e: nat, found: Alloc, loc: Loc, l: Loc)
    requires Trims(s, t, {e}, found) && HeldBy(t) == HeldBy(s) - {loc}
    ensures l in t.alloc ==> l in s.alloc && t.alloc[l] == s.alloc[l]
    ensures (l in t.alloc && t.alloc[l].ev > t.scope) <==> (l in s.alloc && s.alloc[l].ev > s.scope && l != loc)
  {
    hide Without;
    assert l in HeldBy(t) <==> l in HeldBy(s) && l != loc;
  }

  lemma SeveredHolds(g: Graph, e: nat, gone: set<nat>)
    requires Severed(g, gone) && Leaving(g, e)
    ensures HoldsAllBut(g, SeverTop(g, e), |g.stack| - 1, g.es[e].kind.loc) && HoldsAll(SeverTop(g, e), g)
    ensures !Holds(SeverTop(g, e), |g.stack| - 1, g.es[e].kind.loc)
  {
    hide Inv, Rooted, Detached, CursorsLive, Meaning, Mean, Sever, Holds;
    var r, top := SeverTop(g, e), |g.stack| - 1;
    SeverThins(g.es, e);
    SeveredEntry(g, e, gone, top, g.es[e].kind.loc);
    forall k, l | 0 <= k < |g.stack| && Holds(g, k, l) && (k, l) != (top, g.es[e].kind.loc) ensures SameHeld(g, r, k, l) {
      SeveredEntry(g, e, gone, k, l);
      StillTheSame(g, r, k, l);
    }
    forall k, l | 0 <= k < |r.stack| && Holds(r, k, l) ensures SameHeld(r, g, k, l) {
      SeveredEntry(g, e, gone, k, l);
      StillTheSame(g, r, k, l);
    }
  }

  /** The candidate is what the frame held. */
  lemma ForsakenIsSame(w: World, e: nat)
    requires WorldInv(w) && Leaving(w.g, e)
    ensures Same(w, Held(|w.g.stack| - 1, w.g.es[e].kind.loc), Forsake(w, e), Leaked(0))
  {
    ForsakenWasHeld(w, e);
    LeavingMeans(w.g, e, w.gone);
  }

  /** Everything else is where it was; candidates have moved up by one. */
  lemma OtherOfForsaken(w: World, e: nat, t: Live)
    requires WorldInv(w) && Leaving(w.g, e) && Alive(w, t) && t != Held(|w.g.stack| - 1, w.g.es[e].kind.loc)
    ensures Same(w, t, Forsake(w, e), if t.Leaked? then Leaked(t.i + 1) else t)
  {
    if t.Held? {
      SeveredHolds(w.g, e, w.gone);
      assert SameHeld(w.g, SeverTop(w.g, e), t.k, t.loc);
    }
  }

  lemma SeveredOf(w: World)
    requires WorldInv(w)
    ensures Severed(w.g, w.gone)
  {}

  lemma ForsakeCarries(w: World, e: nat)
    requires WorldInv(w) && Leaving(w.g, e)
    ensures Carries(w, Forsake(w, e)) && Carries(Forsake(w, e), w)
  {
    hide WorldInv, Same, Thing;
    var r, loc, top := Forsake(w, e), w.g.es[e].kind.loc, |w.g.stack| - 1;
    ForsakenIsSame(w, e);
    forall t | Alive(w, t) ensures Survives(w, t, r) { if t != Held(top, loc) { OtherOfForsaken(w, e, t); } }
    SeveredHolds(w.g, e, w.gone) by { SeveredOf(w); }
    forall u | Alive(r, u) ensures Survives(r, u, w) {
      if u == Leaked(0) {
        SameIsMutual(w, Held(top, loc), r, u);
      } else {
        var t := if u.Leaked? then Leaked(u.i - 1) else u;
        if u.Held? { assert SameHeld(r.g, w.g, u.k, u.loc); }
        OtherOfForsaken(w, e, t);
        SameIsMutual(w, t, r, u);
      }
    }
  }

  lemma SelfCarries(w: World)
    ensures Carries(w, w)
  {
    assert forall t :: Alive(w, t) ==> Same(w, t, w, t);
  }

  /** One candidate is collected: what the others need to be collected. */
  lemma OneCollected(w: World, ledger: Ledger)
    requires WorldInv(w) && !w.g.failed && w.g.stack != [] && Top(w.g).recording && Agrees(w.g, ledger) && Top(w.g).tracked != []
    ensures Leaving(w.g, Top(w.g).tracked[0])
    ensures |ledger| == |w.g.stack|
    ensures var v := Forsake(w, Top(w.g).tracked[0]);
      && WorldInv(v) && Agrees(v.g, ledger[|ledger| - 1 := HeldBy(Mean(v.g, |w.g.stack| - 1))]) && Collect(w) == Collect(v)
  {
    hide WorldInv, Inv, Agrees;
    NextLeaves(w.g) by { InvOf(w); }
    var e := Top(w.g).tracked[0];
    ForsakeKeeps(w, e);
    ForsakenAgrees(w, ledger, e);
  }

  lemma ForsakenAgrees(w: World, ledger: Ledger, e: nat)
    requires WorldInv(w) && Leaving(w.g, e) && Agrees(w.g, ledger)
    ensures |ledger| == |w.g.stack|
    ensures Agrees(Forsake(w, e).g, ledger[|ledger| - 1 := HeldBy(Mean(Forsake(w, e).g, |w.g.stack| - 1))])
  {
    SeverTopKeeps(w.g, e, w.gone);
    hide WorldInv, Mean, HeldBy;
  }

  lemma {:induction false} CollectCarries(w: World, ledger: Ledger)
    requires WorldInv(w) && !w.g.failed && w.g.stack != [] && Top(w.g).recording && Agrees(w.g, ledger)
    ensures Carries(w, Collect(w)) && Carries(Collect(w), w)
    decreases |Top(w.g).tracked|
  {
    hide WorldInv, Carries, Agrees, HeldBy;
    if Top(w.g).tracked == [] {
      SelfCarries(w);
    } else {
      OneCollected(w, ledger);
      var e := Top(w.g).tracked[0];
      var v := Forsake(w, e);
      ForsakeCarries(w, e);
      CollectCarries(v, ledger[|ledger| - 1 := HeldBy(Mean(v.g, |w.g.stack| - 1))]);
      CarriesOn(w, v, Collect(w));
      CarriesOn(Collect(w), v, w);
    }
  }

  // ---------------------------------------------------------------- candidates become rogues

  lemma {:induction false} OwnedBecomes(leaks: seq<Leak>, i: nat)
    requires i < |leaks| && Owned(leaks[i])
    ensures AsRogue(leaks[i]) in NewRogues(leaks)
  {
    if i > 0 { OwnedBecomes(leaks[1..], i - 1); }
  }

  /** The rogue stands where its candidate stood, on the page objects the candidate was mapped to. */
  lemma BecomesSame(w: World, i: nat, j: nat)
    requires WorldInv(w) && w.g.stack == [] && i < |w.leaks| && Owned(w.leaks[i])
    requires j < |NewRogues(w.leaks)| && NewRogues(w.leaks)[j] == AsRogue(w.leaks[i])
    ensures Same(w, Leaked(i), Settle(w), Lost(j))
  {
    var r, k := Settle(w), w.leaks[i];
    assert r.rogues[j] == AsRogue(k);
    forall va: nat | Covers(AsRogue(k), va) ensures ObjectAt(r, Lost(j), va) == ObjectAt(w, Leaked(i), va) {
      OwnedIsHeld(w, i, va);
      assert LeakOk(w, k);
      GraphObject(w, k.loc, k.units, va);
    }
  }

  lemma OldRogueSame(w: World, i: nat)
    requires WorldInv(w) && w.g.stack == [] && i < |w.rogues|
    ensures Same(w, Lost(i), Settle(w), Lost(|NewRogues(w.leaks)| + i))
  {
    var r, j := Settle(w), |NewRogues(w.leaks)| + i;
    assert r.rogues[j] == w.rogues[i];
    assert RogueOk(w.b, w.rogues[i]);
    forall va: nat | Covers(w.rogues[i], va) ensures ObjectAt(r, Lost(j), va) == ObjectAt(w, Lost(i), va) { OldRogueStays(w, va); }
  }

  lemma {:induction false} RoguesWereOwned(leaks: seq<Leak>)
    ensures forall r :: r in NewRogues(leaks) ==> exists i :: 0 <= i < |leaks| && Owned(leaks[i]) && r == AsRogue(leaks[i])
  {
    if leaks != [] {
      RoguesWereOwned(leaks[1..]);
      forall r | r in NewRogues(leaks[1..]) ensures exists i :: 0 < i < |leaks| && Owned(leaks[i]) && r == AsRogue(leaks[i]) {
        var i :| 0 <= i < |leaks[1..]| && Owned(leaks[1..][i]) && r == AsRogue(leaks[1..][i]);
        assert leaks[i + 1] == leaks[1..][i];
      }
    }
  }

  lemma SettleCarries(w: World)
    requires WorldInv(w) && w.g.stack == []
    ensures Carries(w, Settle(w)) && Carries(Settle(w), w)
  {
    var r, news := Settle(w), NewRogues(w.leaks);
    forall t | Alive(w, t) ensures Survives(w, t, r) {
      if t.Leaked? {
        OwnedBecomes(w.leaks, t.i);
        var j :| 0 <= j < |news| && news[j] == AsRogue(w.leaks[t.i]);
        BecomesSame(w, t.i, j);
      } else {
        OldRogueSame(w, t.i);
      }
    }
    RoguesWereOwned(w.leaks);
    forall u | Alive(r, u) ensures Survives(r, u, w) {
      if u.i < |news| {
        assert news[u.i] in news;
        var i :| 0 <= i < |w.leaks| && Owned(w.leaks[i]) && news[u.i] == AsRogue(w.leaks[i]);
        BecomesSame(w, i, u.i);
        SameIsMutual(w, Leaked(i), r, u);
      } else {
        OldRogueSame(w, u.i - |news|);
        SameIsMutual(w, Lost(u.i - |news|), r, u);
      }
    }
  }

  // ---------------------------------------------------------------- a frame is left

  lemma LeftCarries(w: World, settles: bool)
    requires WorldInv(w)
    ensures var r := Left(w, settles).0; !r.g.failed ==> Carries(w, r) && Carries(r, w)
  {
    if w.g.stack == [] && w.leaks != [] && settles {
      SettleCarries(w);
    } else {
      SelfCarries(w);
    }
  }

  lemma ReadyCarries(w: World)
    requires WorldInv(w) && !w.g.failed && w.g.stack != []
    ensures Carries(w, w.(g := Ready(w.g))) && Carries(w.(g := Ready(w.g)), w)
  {
    ReadyHolds(w.g);
    AllCarry(w, w.(g := Ready(w.g)));
  }

  lemma ClosedCarries(w: World)
    requires WorldInv(w) && w.g.stack != [] && HeldBy(Mean(w.g, |w.g.stack| - 1)) == {}
    ensures Carries(w, w.(g := Close(w.g))) && Carries(w.(g := Close(w.g)), w)
  {
    ClosedFrameHolds(w.g);
    AllCarry(w, w.(g := Close(w.g)));
  }

  lemma EndedCarries(w: World)
    requires WorldInv(w) && !w.g.failed && w.g.stack != [] && Top(w.g).cursor < |w.g.es| && Top(w.g).recording
    requires HeldBy(Mean(w.g, |w.g.stack| - 1)) == {}
    ensures Carries(w, w.(g := RecordEnd(w.g))) && Carries(w.(g := RecordEnd(w.g)), w)
  {
    EndedFrameHolds(w.g);
    AllCarry(w, w.(g := RecordEnd(w.g)));
  }

  /** A frame that ends by replay holds nothing. */
  lemma EndHoldsNothing(g: Graph, c: nat)
    requires Inv(g) && g.stack != [] && Top(g).cursor < |g.es| && c < |g.es| && c in g.es[Top(g).cursor].next && g.es[c].kind.End?
    ensures HeldBy(Mean(g, |g.stack| - 1)) == {}
  {
    assert NodeOk(g.es, g.space, Top(g).cursor);
    assert NodeOk(g.es, g.space, c);
    FrameSem(g, |g.stack| - 1);
    NothingTracked(g.es, g.space, Mean(g, |g.stack| - 1));
  }

  lemma CollectedPopCarries(w: World, ledger: Ledger, settles: bool)
    requires WorldInv(w) && !w.g.failed && w.g.stack != [] && Top(w.g).recording && Agrees(w.g, ledger)
    ensures var c := Collect(w);
      && !c.g.failed && c.g.stack != [] && Top(c.g).cursor < |c.g.es|
      && var r := Left(c.(g := RecordEnd(c.g)), settles).0; !r.g.failed ==> Carries(w, r) && Carries(r, w)
  {
    var c := Collect(w);
    CollectKeeps(w, ledger);
    CollectCarries(w, ledger);
    CursorOk(c.g);
    var less := ledger[|ledger| - 1 := {}];
    assert HeldBy(Mean(c.g, |c.g.stack| - 1)) == {};
    EndedWorld(c, less);
    EndedCarries(c);
    var d := c.(g := RecordEnd(c.g));
    LeftCarries(d, settles);
    var r := Left(d, settles).0;
    hide WorldInv, Carries, Collect, RecordEnd, Left, Agrees;
    if !r.g.failed {
      CarriesOn(w, c, d);
      CarriesOn(w, d, r);
      CarriesOn(d, c, w);
      CarriesOn(r, d, w);
    }
  }

  /**
    Leaving a frame forgets nothing and moves nothing: what the frames held, the candidates that
    nobody freed and the rogues are all still alive, at their places, with their extents and on
    their page objects; and nothing else has come to life.
  */
  lemma PopCarries(w: World, ledger: Ledger, settles: bool)
    requires WorldInv(w) && !w.g.failed && w.g.stack != [] && Top(w.g).cursor < |w.g.es| && Agrees(w.g, ledger)
    ensures var r := AskPop(w, settles).0; !r.g.failed ==> Carries(w, r) && Carries(r, w)
  {
    var found := if Top(w.g).recording then Nothing else Find(w.g.es, Top(w.g).cursor, KEnd);
    var r := AskPop(w, settles).0;
    if found.Child? {
      EndHoldsNothing(w.g, found.node);
      ClosedWorld(w, ledger);
      ClosedCarries(w);
      var c := w.(g := Close(w.g));
      LeftCarries(c, settles);
      hide WorldInv, Carries, Close, Left, Agrees;
      if !r.g.failed { CarriesOn(w, c, r); CarriesOn(r, c, w); }
    } else {
      ReadyWorld(w);
      ReadyAgrees(w.g, ledger);
      ReadyCarries(w);
      var c := w.(g := Ready(w.g));
      hide WorldInv, Carries, Ready, Left, Agrees, Collect, RecordEnd;
      if !c.g.failed {
        CollectedPopCarries(c, ledger, settles);
        if !r.g.failed { CarriesOn(w, c, r); CarriesOn(r, c, w); }
      }
    }
  }

  // ---------------------------------------------------------------- one thing at a place

  predicate Sizable(x: Rogue) {
    x.units > 0 && (x.loc.Small? ==> x.bytes > 0)
  }

  /** What the graph holds or handed over is of some size. */
  lemma GraphThingIsSizable(w: World, t: Live)
    requires WorldInv(w) && Alive(w, t) && !t.Lost?
    ensures Sizable(Thing(w, t))
  {
    match t
    case Held(k, l) => HeldIsSizable(w.g, k, l) by { InvOf(w); }
    case Leaked(i) => assert LeakOk(w, w.leaks[i]);
  }

  lemma HeldIsSizable(g: Graph, k: nat, l: Loc)
    requires Inv(g) && k < |g.stack| && Holds(g, k, l)
    ensures UnitsOf(g, k, l) > 0 && BytesOf(g, k, l) > 0
  {
    HeldEventExists(g, k, l);
    assert AlignUp(0, PAGE) == 0 && AlignUp(0, SMALL_ALIGN) == 0;
    hide Inv, Holds, AlignUp;
  }

  /** No two live things start at the same place. */
  lemma PlaceIsUnique(w: World, t: Live, u: Live)
    requires WorldInv(w) && Alive(w, t) && Alive(w, u) && Thing(w, t).loc == Thing(w, u).loc
    requires Sizable(Thing(w, t)) && Sizable(Thing(w, u))
    ensures t == u
  {
    hide WorldInv, Holds, MemorySafe;
    var loc := Thing(w, t).loc;
    assert LocOf(w, t) == loc == LocOf(w, u) && SizeOf(w, t) > 0 && SizeOf(w, u) > 0;
    if loc.Large? {
      assert OnPage(w, t, loc.va) && OnPage(w, u, loc.va);
      ObjectOfPlace(w, t, loc.va);
      ObjectOfPlace(w, u, loc.va);
      NoSharedPage(w, t, u, loc.va);
    } else {
      NoSharedByte(w, t, u, loc.offset);
    }
  }

  lemma NoSharedPage(w: World, t: Live, u: Live, va: nat)
    requires WorldInv(w) && Alive(w, t) && Alive(w, u) && OnPage(w, t, va) && OnPage(w, u, va) && ObjectAt(w, t, va) == ObjectAt(w, u, va)
    ensures t == u
  {
    WorldIsMemorySafe(w);
    hide WorldInv;
  }

  lemma NoSharedByte(w: World, t: Live, u: Live, x: nat)
    requires WorldInv(w) && Alive(w, t) && Alive(w, u) && OnByte(w, t, x) && OnByte(w, u, x)
    ensures t == u
  {
    WorldIsMemorySafe(w);
    hide WorldInv;
  }

  /** Which object it is depends only on the place: a rogue and the graph never both have one. */
  lemma ObjectOfPlace(w: World, t: Live, va: nat)
    requires WorldInv(w) && Alive(w, t) && OnPage(w, t, va)
    ensures va in w.b.held <==> t.Lost?
    ensures va < |w.b.mapped| && ObjectAt(w, t, va) == if va in w.b.held then F.MappedTo(w.b.held[va]) else w.b.mapped[va]
  {
    LiveObject(w, t, va);
  }

  // ---------------------------------------------------------------- what is left behind

  /**
    What the frame that is left still held, and every candidate that nobody freed, is afterwards a
    candidate or, after the outermost frame, a rogue, with the same place and extent; a rogue holds
    each page of it with the object the page was mapped to.
  */
  lemma LeftBehind(w: World, ledger: Ledger, settles: bool, t: Live) returns (u: Live)
    requires WorldInv(w) && !w.g.failed && w.g.stack != [] && Top(w.g).cursor < |w.g.es| && Agrees(w.g, ledger)
    requires Alive(w, t) && (t.Leaked? || t.Held?) && (t.Held? ==> t.k == |w.g.stack| - 1) && !AskPop(w, settles).0.g.failed
    ensures Same(w, t, AskPop(w, settles).0, u) && !u.Held? && (|w.g.stack| == 1 ==> u.Lost?)
    ensures u.Lost? ==> forall va: nat :: Covers(Thing(w, t), va) ==>
              va in AskPop(w, settles).0.b.held && F.MappedTo(AskPop(w, settles).0.b.held[va]) == ObjectAt(w, t, va)
  {
    var r := AskPop(w, settles).0;
    PopCarries(w, ledger, settles);
    PopKeepsWorld(w, ledger, settles);
    LeftNoLeaks(w, settles);
    hide AskPop, WorldInv;
    assert Survives(w, t, r);
    u :| Same(w, t, r, u);
    OuterIsOther(w, r, ledger, t, u);
    if u.Lost? { assert RogueOk(r.b, r.rogues[u.i]) by { RogueIsOk(r, u.i); } }
    assert u.Leaked? ==> r.leaks != [];
    assert |w.g.stack| == 1 ==> r.g.stack == [];
  }

  lemma RogueIsOk(w: World, i: nat)
    requires WorldInv(w) && i < |w.rogues|
    ensures RogueOk(w.b, w.rogues[i])
  {}

  lemma LeftNoLeaks(w: World, settles: bool)
    requires w.g.stack != [] && Top(w.g).cursor < |w.g.es| && F.Shape(w.b)
    ensures var (r, answer) := AskPop(w, settles); answer == Done && r.g.stack == [] ==> r.leaks == []
  {}

  /** What an outer frame holds afterwards is none of it. */
  lemma OuterIsOther(w: World, r: World, ledger: Ledger, t: Live, u: Live)
    requires WorldInv(w) && w.g.stack != [] && Agrees(w.g, ledger) && Agrees(r.g, ledger[..|ledger| - 1])
    requires Alive(w, t) && (t.Leaked? || t.Held?) && (t.Held? ==> t.k == |w.g.stack| - 1) && Same(w, t, r, u)
    ensures !u.Held?
  {
    if u.Held? {
      var v := Held(u.k, u.loc);
      assert u.loc in HeldBy(Mean(r.g, u.k)) && u.loc in HeldBy(Mean(w.g, u.k));
      assert Alive(w, v);
      GraphThingIsSizable(w, t);
      GraphThingIsSizable(w, v);
      PlaceIsUnique(w, t, v);
      assert false;
    }
  }

  // ---------------------------------------------------------------- the book

  /** The size asked for with a pointer, and the page objects it led to when it was handed out. */
  datatype Debt = Debt(size: nat, objects: seq<F.Slot>)

  type Debts = map<Loc, Debt>

  predicate Serves(w: World, t: Live, d: Debt)
    requires Alive(w, t)
  {
    var x := Thing(w, t);
    && IsOf(x.loc, x.units, x.bytes, d.size) && Sizable(x)
    && (x.loc.Large? ==> |d.objects| == x.units && forall i :: 0 <= i < x.units ==> d.objects[i] == ObjectAt(w, t, x.loc.va + i))
  }

  ghost predicate Stands(w: World, loc: Loc) {
    exists t :: Alive(w, t) && Thing(w, t).loc == loc
  }

  /** Everything alive is in the book, at the size asked and on the objects handed out; everything in the book is alive. */
  ghost predicate Owes(w: World, owed: Debts) {
    && (forall t :: Alive(w, t) ==> Thing(w, t).loc in owed && Serves(w, t, owed[Thing(w, t).loc]))
    && (forall l :: l in owed ==> Stands(w, l))
  }

  /** The objects that the graph has mapped at a place. */
  function Behind(w: World, loc: Loc, units: nat): seq<F.Slot> {
    if loc.Large? then seq(units, i requires 0 <= i < units => if loc.va + i < |w.b.mapped| then w.b.mapped[loc.va + i] else F.Unmapped)
    else []
  }

  /** The client's bookkeeping: a pointer is struck out when it is given back, and at no other time. */
  function Owing(owed: Debts, w: World, d: Deed, r: World, answer: Answer): Debts {
    match d
    case Ask(q, _) =>
      if q.AllocReq? && answer.Pointer? then owed[answer.loc := Debt(q.size, Behind(r, answer.loc, Units(answer.loc, q.size)))]
      else if q.FreeReq? && answer == Done then owed - {q.loc}
      else owed
    case FreeLeak(i) => if i < |w.leaks| && !w.leaks[i].freed then owed - {w.leaks[i].loc} else owed
    case RogueDies(i) => if i < |w.rogues| then owed - {w.rogues[i].loc} else owed
    case Revive(_) => owed
  }

  lemma SameServes(w: World, t: Live, r: World, u: Live, d: Debt)
    requires Same(w, t, r, u) && Serves(w, t, d)
    ensures Serves(r, u, d)
  {
    var x := Thing(w, t);
    if x.loc.Large? {
      forall i | 0 <= i < x.units ensures d.objects[i] == ObjectAt(r, u, x.loc.va + i) {
        assert Covers(x, x.loc.va + i);
      }
    }
    hide Thing, ObjectAt, IsOf;
  }

  lemma SameStands(w: World, r: World, loc: Loc)
    requires Carries(w, r) && Stands(w, loc)
    ensures Stands(r, loc)
  {
    var t :| Alive(w, t) && Thing(w, t).loc == loc;
    assert Survives(w, t, r);
  }

  lemma OwesAsBefore(w: World, r: World, owed: Debts)
    requires Owes(w, owed) && Carries(w, r) && Carries(r, w)
    ensures Owes(r, owed)
  {
    hide Thing, ObjectAt, Serves, Alive;
    forall u | Alive(r, u) ensures Thing(r, u).loc in owed && Serves(r, u, owed[Thing(r, u).loc]) {
      assert Survives(r, u, w);
      var t :| Same(r, u, w, t);
      SameIsMutual(r, u, w, t);
      SameServes(w, t, r, u, owed[Thing(w, t).loc]);
    }
    forall l | l in owed ensures Stands(r, l) { SameStands(w, r, l); }
  }

  /** One more pointer is handed out, at a place where nothing else is. */
  lemma OwesOneMore(w: World, r: World, owed: Debts, t0: Live, d: Debt)
    requires WorldInv(r) && Owes(w, owed) && Carries(w, r) && CarriesBut(r, w, t0)
    requires Alive(r, t0) && Serves(r, t0, d)
    ensures Owes(r, owed[Thing(r, t0).loc := d])
  {
    hide Thing, ObjectAt, Alive, WorldInv, IsOf;
    var loc := Thing(r, t0).loc;
    forall u | Alive(r, u) && u != t0 ensures Thing(r, u).loc in owed && Thing(r, u).loc != loc && Serves(r, u, owed[Thing(r, u).loc]) {
      assert Survives(r, u, w);
      var t :| Same(r, u, w, t);
      SameIsMutual(r, u, w, t);
      SameServes(w, t, r, u, owed[Thing(w, t).loc]);
      if Thing(r, u).loc == loc { PlaceIsUnique(r, u, t0); }
    }
    forall l | l in owed[loc := d] ensures Stands(r, l) { if l != loc { SameStands(w, r, l); } }
  }

  /** One is given back. */
  lemma OwesOneLess(w: World, r: World, owed: Debts, t0: Live)
    requires WorldInv(w) && Owes(w, owed) && CarriesBut(w, r, t0) && CarriesBeside(r, w, t0) && Alive(w, t0)
    ensures Owes(r, owed - {Thing(w, t0).loc})
  {
    hide Thing, ObjectAt, Alive, WorldInv, IsOf;
    var loc := Thing(w, t0).loc;
    forall u | Alive(r, u) ensures Thing(r, u).loc in owed && Thing(r, u).loc != loc && Serves(r, u, owed[Thing(r, u).loc]) {
      assert SurvivesBeside(r, u, w, t0);
      var t :| t != t0 && Same(r, u, w, t);
      SameIsMutual(r, u, w, t);
      SameServes(w, t, r, u, owed[Thing(w, t).loc]);
      if Thing(r, u).loc == loc { PlaceIsUnique(w, t, t0); }
    }
    forall l | l in owed && l != loc ensures Stands(r, l) {
      assert Stands(w, l);
      var t :| Alive(w, t) && Thing(w, t).loc == l;
      assert Survives(w, t, r);
    }
  }

  // ---------------------------------------------------------------- each deed

  /** The new pointer serves its request. */
  lemma NewServes(r: World, k: nat, loc: Loc, size: nat)
    requires WorldInv(r) && k < |r.g.stack| && Holds(r.g, k, loc) && (loc.Large? <==> size >= SMALL_LIMIT)
    requires UnitsOf(r.g, k, loc) == Units(loc, size) && BytesOf(r.g, k, loc) == size
    ensures Serves(r, Held(k, loc), Debt(size, Behind(r, loc, Units(loc, size))))
  {
    GraphThingIsSizable(r, Held(k, loc));
    hide WorldInv, Holds, UnitsOf, BytesOf, Units, FewestFor;
    if size <= WORD - PAGE { UnitsAreFewest(loc, size); }
  }

  lemma TakenOwes(w: World, r: World, owed: Debts, k: nat, loc: Loc, size: nat)
    requires WorldInv(w) && WorldInv(r) && Beside(w, r) && Owes(w, owed)
    requires HoldsAll(w.g, r.g) && HoldsAllBut(r.g, w.g, k, loc) && k < |r.g.stack| && Holds(r.g, k, loc)
    requires (loc.Large? <==> size >= SMALL_LIMIT) && UnitsOf(r.g, k, loc) == Units(loc, size) && BytesOf(r.g, k, loc) == size
    ensures Owes(r, owed[loc := Debt(size, Behind(r, loc, Units(loc, size)))])
  {
    OneMoreCarries(w, r, k, loc);
    NewServes(r, k, loc, size);
    assert Alive(r, Held(k, loc)) && Thing(r, Held(k, loc)).loc == loc;
    hide WorldInv, Holds, Serves, Carries, CarriesBut, Owes, HoldsAll, HoldsAllBut, Beside, Behind;
    OwesOneMore(w, r, owed, Held(k, loc), Debt(size, Behind(r, loc, Units(loc, size))));
  }

  lemma ReplayedOwes(w: World, owed: Debts, c: nat, size: nat)
    requires WorldInv(w) && !w.g.failed && w.g.stack != [] && Top(w.g).cursor < |w.g.es| && !Top(w.g).recording && Owes(w, owed)
    requires c < |w.g.es| && c in w.g.es[Top(w.g).cursor].next && w.g.es[c].kind.Take? && w.g.es[c].kind.bytes == size
    requires (w.g.es[c].kind.loc.Large? <==> size >= SMALL_LIMIT) && WorldInv(w.(g := Advance(w.g, c)))
    ensures var (r, loc) := (w.(g := Advance(w.g, c)), w.g.es[c].kind.loc);
      Owes(r, owed[loc := Debt(size, Behind(r, loc, Units(loc, size)))])
  {
    var r, loc := w.(g := Advance(w.g, c)), w.g.es[c].kind.loc;
    MatchedTakeHolds(w.g, c) by { InvOf(w); }
    hide WorldInv, Advance, Holds, Owes, Behind;
    TakenOwes(w, r, owed, |w.g.stack| - 1, loc, size);
  }

  lemma RecordedOwes(w: World, owed: Debts, size: nat, place: Place)
    requires WorldInv(w) && !w.g.failed && w.g.stack != [] && Top(w.g).cursor < |w.g.es| && Top(w.g).recording && Owes(w, owed)
    requires PlaceOk(w.g, size, place) && place.Place? && PlaceFits(w, size, place) && WorldInv(Recorded(w, size, place))
    ensures var r := Recorded(w, size, place); Owes(r, owed[place.loc := Debt(size, Behind(r, place.loc, Units(place.loc, size)))])
  {
    var r, loc := Recorded(w, size, place), place.loc;
    RecordedTakeHolds(w.g, loc, size, place.space, place.physCount, place.smallPages) by { InvOf(w); }
    ExtendedIs(w, place);
    assert Beside(w, r);
    assert |r.g.stack| == |w.g.stack|;
    hide WorldInv, Recorded, Holds, Owes, Behind, CanTake, Beside, Extended;
    TakenOwes(w, r, owed, |w.g.stack| - 1, loc, size);
  }

  lemma AllocOwes(w: World, owed: Debts, size: nat, place: Place)
    requires WorldInv(w) && !w.g.failed && w.g.stack != [] && Top(w.g).cursor < |w.g.es| && Owes(w, owed)
    requires !Ready(w.g).failed ==> SoundPlace(w, size, place)
    requires var r := AskAlloc(w, size, place).0; !r.g.failed ==> WorldInv(r)
    ensures var (r, answer) := AskAlloc(w, size, place); !r.g.failed ==> Owes(r, Owing(owed, w, Ask(AllocReq(size, place), false), r, answer))
  {
    hide WorldInv, Owes, Append, Extended, Ready, PlaceOk, PlaceFits, Behind, Available;
    var next := w.g.es[Top(w.g).cursor].next;
    var i := if Top(w.g).recording then |next| else FindOffer(w, next, KTake(size >= SMALL_LIMIT, size), 0);
    if i < |next| {
      ReplayedOwes(w, owed, next[i], size);
    } else {
      var v := w.(g := Ready(w.g));
      ReadyWorld(w);
      ReadyCarries(w);
      OwesAsBefore(w, v, owed);
      ReadyFactsOf(w);
      if !v.g.failed && place.Place? { RecordedOwes(v, owed, size, place); }
    }
  }

  lemma ReadyFactsOf(w: World)
    requires WorldInv(w) && !w.g.failed && w.g.stack != []
    ensures Ready(w.g).stack != [] && Ready(w.g).es == w.g.es && Top(Ready(w.g)).cursor == Top(w.g).cursor
    ensures !Ready(w.g).failed ==> Top(Ready(w.g)).recording
  {}

  lemma GivenBackOwes(w: World, g: Graph, owed: Debts, loc: Loc)
    requires WorldInv(w) && w.g.stack != [] && Owes(w, owed) && Holds(w.g, |w.g.stack| - 1, loc)
    requires HoldsAllBut(w.g, g, |w.g.stack| - 1, loc) && HoldsAll(g, w.g)
    requires |g.stack| == |w.g.stack| && !Holds(g, |w.g.stack| - 1, loc)
    ensures Owes(w.(g := g), owed - {loc})
  {
    var r, t0 := w.(g := g), Held(|w.g.stack| - 1, loc);
    FewerCarry(w, r, |w.g.stack| - 1, loc);
    assert Alive(w, t0) && Thing(w, t0).loc == loc;
    hide WorldInv, Holds, Owes, Carries, CarriesBut, CarriesBeside;
    OwesOneLess(w, r, owed, t0);
  }

  lemma FreeOwes(w: World, owed: Debts, loc: Loc, k: nat)
    requires WorldInv(w) && !w.g.failed && k < |w.g.stack| && Holds(w.g, k, loc) && Top(w.g).cursor < |w.g.es| && Owes(w, owed)
    ensures var (g, answer) := DoFree(w.g, loc); answer == Done && (!g.failed ==> Owes(w.(g := g), owed - {loc}))
  {
    hide WorldInv, Inv, Owes, Meaning, Ready, RecordDrop, HoldsAll, HoldsAllBut;
    InvOf(w);
    var top := |w.g.stack| - 1;
    var found := if Top(w.g).recording then Nothing else Find(w.g.es, Top(w.g).cursor, KDrop(loc));
    if found.Child? {
      MatchedDropIsOwn(w.g, found.node, loc, k);
      MatchedDropHolds(w.g, found.node, loc);
      GivenBackOwes(w, Advance(w.g, found.node), owed, loc);
    } else {
      ReadyWorld(w);
      ReadyCarries(w);
      ReadyFactsOf(w);
      ReadyKeeps(w.g);
      OwesAsBefore(w, w.(g := Ready(w.g)), owed);
      if !Ready(w.g).failed { RecordedFreeOwes(w.(g := Ready(w.g)), owed, loc, k); }
    }
  }

  lemma RecordedFreeOwes(w: World, owed: Debts, loc: Loc, k: nat)
    requires WorldInv(w) && !w.g.failed && k < |w.g.stack| && Holds(w.g, k, loc) && Owes(w, owed)
    requires Top(w.g).cursor < |w.g.es| && Top(w.g).recording
    ensures var g := RecordDrop(w.g, loc); !g.failed ==> Owes(w.(g := g), owed - {loc})
  {
    hide WorldInv, Inv, Owes, Holds, RecordDrop, HoldsAll, HoldsAllBut;
    InvOf(w);
    if k == |w.g.stack| - 1 {
      RecordedDropHolds(w.g, loc);
      GivenBackOwes(w, RecordDrop(w.g, loc), owed, loc);
    } else {
      DropOutsideFails(w.g, loc, k);
    }
  }

  lemma PushOwes(w: World, owed: Debts, name: string)
    requires WorldInv(w) && !w.g.failed && w.g.stack != [] && Top(w.g).cursor < |w.g.es| && Owes(w, owed)
    ensures var g := DoPush(w.g, name).0; !g.failed ==> Owes(w.(g := g), owed)
  {
    hide WorldInv, Inv, Owes, Ready, RecordCall, Enter, HoldsAll;
    InvOf(w);
    var found := Find(w.g.es, Top(w.g).cursor, KCall(name));
    if found.Child? {
      EnteredHolds(w.g, found.node);
      var r := w.(g := Enter(w.g, w.g.es[found.node].kind.scope));
      AllCarry(w, r);
      OwesAsBefore(w, r, owed);
    } else {
      var v := w.(g := Ready(w.g));
      ReadyWorld(w);
      ReadyCarries(w);
      ReadyFactsOf(w);
      OwesAsBefore(w, v, owed);
      if !v.g.failed {
        InvOf(v);
        CalledHolds(v.g, name);
        AllCarry(v, v.(g := RecordCall(v.g, name)));
        OwesAsBefore(v, v.(g := RecordCall(v.g, name)), owed);
      }
    }
  }

  lemma RootOwes(w: World, owed: Debts)
    requires WorldInv(w) && !w.g.failed && w.g.stack == [] && Owes(w, owed)
    ensures Owes(w.(g := PushRoot(w.g)), owed)
  {
    hide WorldInv, Inv, Owes, HoldsAll;
    InvOf(w);
    PushRootKeeps(w.g);
    FreshFrame(PushRoot(w.g));
    OpenedHolds(w.g, PushRoot(w.g));
    AllCarry(w, w.(g := PushRoot(w.g)));
    OwesAsBefore(w, w.(g := PushRoot(w.g)), owed);
  }

  // ---------------------------------------------------------------- outside the frames

  lemma FreeLeakOwes(w: World, owed: Debts, i: nat)
    requires WorldInv(w) && i < |w.leaks| && Owes(w, owed)
    ensures var r := w.(leaks := w.leaks[i := w.leaks[i].(freed := true)]);
      Owes(r, if w.leaks[i].freed then owed else owed - {w.leaks[i].loc})
  {
    hide WorldInv, Alive, Thing, Same, Owes;
    var r := w.(leaks := w.leaks[i := w.leaks[i].(freed := true)]);
    forall t ensures Alive(w, t) && t != Leaked(i) ==> Same(w, t, r, t) { FreedSame(w, i, t); }
    forall t ensures Alive(r, t) ==> t != Leaked(i) && Same(r, t, w, t) { FreedSame(w, i, t); }
    FreedIsGone(w, i);
    if w.leaks[i].freed { OwesAsBefore(w, r, owed); } else { OwesOneLess(w, r, owed, Leaked(i)); }
  }

  lemma FreedIsGone(w: World, i: nat)
    requires i < |w.leaks|
    ensures Alive(w, Leaked(i)) <==> !w.leaks[i].freed
    ensures !w.leaks[i].freed ==> Thing(w, Leaked(i)).loc == w.leaks[i].loc
  {}

  lemma FreedSame(w: World, i: nat, t: Live)
    requires i < |w.leaks|
    ensures var r := w.(leaks := w.leaks[i := w.leaks[i].(freed := true)]);
      && (Alive(w, t) && t != Leaked(i) ==> Same(w, t, r, t))
      && (Alive(r, t) ==> t != Leaked(i) && Same(r, t, w, t))
  {
    hide Mean, BytesOf, UnitsOf;
  }

  /** Another rogue moves down in the list, and keeps its objects. */
  lemma OtherRogueSame(w: World, i: nat, j: nat)
    requires WorldInv(w) && i < |w.rogues| && j < |w.rogues| && i != j
    ensures Same(w, Lost(j), WithoutRogue(w, i), Lost(if j < i then j else j - 1))
  {
    OthersKeep(w.b, w.rogues, i, j);
    assert RogueOk(w.b, w.rogues[j]);
    assert WithoutRogue(w, i).rogues[if j < i then j else j - 1] == w.rogues[j];
    hide HeldFit, LeaksOk, Severed, F.BackingOk, RoguesOk;
  }

  lemma GraphThingStays(w: World, i: nat, t: Live)
    requires i < |w.rogues| && !t.Lost? && (Alive(w, t) || Alive(WithoutRogue(w, i), t))
    ensures Same(w, t, WithoutRogue(w, i), t) && Same(WithoutRogue(w, i), t, w, t)
  {
    hide Mean, BytesOf, UnitsOf;
  }

  lemma RogueDiesCarries(w: World, i: nat)
    requires WorldInv(w) && i < |w.rogues|
    ensures CarriesBut(w, WithoutRogue(w, i), Lost(i)) && CarriesBeside(WithoutRogue(w, i), w, Lost(i))
  {
    hide WorldInv, Same, Thing;
    var r := WithoutRogue(w, i);
    forall t | Alive(w, t) && t != Lost(i) ensures Survives(w, t, r) {
      if t.Lost? { OtherRogueSame(w, i, t.i); } else { GraphThingStays(w, i, t); }
    }
    forall u | Alive(r, u) ensures SurvivesBeside(r, u, w, Lost(i)) {
      if u.Lost? {
        var j := if u.i < i then u.i else u.i + 1;
        OtherRogueSame(w, i, j);
        SameIsMutual(w, Lost(j), r, u);
      } else {
        GraphThingStays(w, i, u);
      }
    }
  }

  lemma RogueDiesOwes(w: World, owed: Debts, i: nat)
    requires WorldInv(w) && i < |w.rogues| && Owes(w, owed)
    ensures Owes(WithoutRogue(w, i), owed - {w.rogues[i].loc})
  {
    RogueDiesCarries(w, i);
    assert Alive(w, Lost(i)) && Thing(w, Lost(i)).loc == w.rogues[i].loc;
    hide WorldInv, Alive, Thing, Owes, CarriesBut, CarriesBeside, WithoutRogue;
    OwesOneLess(w, WithoutRogue(w, i), owed, Lost(i));
  }

  /** Taking an address back changes no mapping that anything alive has. */
  lemma ReviveOwes(w: World, owed: Debts, va: nat)
    requires WorldInv(w) && va < |w.b.vaPhys| && va !in w.b.held && Owes(w, owed)
    ensures Owes(w.(b := F.Revived(w.b, va)), owed)
  {
    var r := w.(b := F.Revived(w.b, va));
    forall t | Alive(w, t) ensures Same(w, t, r, t) && Same(r, t, w, t) {
      forall x: nat | Covers(Thing(w, t), x) && !t.Lost? ensures ObjectAt(r, t, x) == ObjectAt(w, t, x) { RevivedObject(w, t, x, va); }
    }
    assert forall t :: Alive(r, t) <==> Alive(w, t);
    hide WorldInv, Alive, Thing, Same, Owes;
    OwesAsBefore(w, r, owed);
  }

  lemma RevivedObject(w: World, t: Live, x: nat, va: nat)
    requires WorldInv(w) && Alive(w, t) && !t.Lost? && Covers(Thing(w, t), x) && va < |w.b.vaPhys| && va !in w.b.held
    ensures ObjectAt(w.(b := F.Revived(w.b, va)), t, x) == ObjectAt(w, t, x)
  {
    assert OnPage(w, t, x);
    LiveObject(w, t, x);
  }

  // ---------------------------------------------------------------- any deed, any run

  lemma AskOwes(w: World, ledger: Ledger, owed: Debts, q: Request, settles: bool)
    requires WorldInv(w) && !w.g.failed && Agrees(w.g, ledger) && DeedOk(w, ledger, Ask(q, settles)) && Owes(w, owed)
    ensures var (r, answer) := Do(w, Ask(q, settles)); !r.g.failed ==> Owes(r, Owing(owed, w, Ask(q, settles), r, answer))
  {
    assert |ledger| == |w.g.stack|;
    AskKeeps(w, ledger, q, settles);
    hide WorldInv, Owes, AskPop, AskAlloc, DoFree, DoPush, Carries;
    CursorOk(w.g) by { InvOf(w); }
    if q.RootReq? {
      if w.g.stack == [] { RootOwes(w, owed); }
    } else if w.g.stack != [] {
      match q
      case AllocReq(size, place) => AllocOwes(w, owed, size, place);
      case FreeReq(loc) =>
        var k :| 0 <= k < |ledger| && loc in ledger[k];
        assert Holds(w.g, k, loc);
        FreeOwes(w, owed, loc, k);
      case PushReq(name) => PushOwes(w, owed, name);
      case PopReq =>
        PopCarries(w, ledger, settles);
        if !AskPop(w, settles).0.g.failed { OwesAsBefore(w, AskPop(w, settles).0, owed); }
    }
  }

  lemma DeedOwes(w: World, ledger: Ledger, owed: Debts, d: Deed)
    requires WorldInv(w) && !w.g.failed && Agrees(w.g, ledger) && DeedOk(w, ledger, d) && Owes(w, owed)
    ensures var (r, answer) := Do(w, d); !r.g.failed ==> Owes(r, Owing(owed, w, d, r, answer))
  {
    match d
    case FreeLeak(i) => if i < |w.leaks| { FreeLeakOwes(w, owed, i); }
    case RogueDies(i) => if i < |w.rogues| { RogueDiesOwes(w, owed, i); }
    case Revive(va) => if va < |w.b.vaPhys| && va !in w.b.held { ReviveOwes(w, owed, va); }
    case Ask(q, settles) => AskOwes(w, ledger, owed, q, settles);
  }

  /** The client's book after the deeds. */
  function OwedAfter(w: World, owed: Debts, ds: seq<Deed>): Debts
    requires F.Shape(w.b)
    decreases |ds|
  {
    if ds == [] then owed
    else
      var (r, answer) := Do(w, ds[0]);
      if F.Shape(r.b) then OwedAfter(r, Owing(owed, w, ds[0], r, answer), ds[1..]) else Owing(owed, w, ds[0], r, answer)
  }

  /**
    In every run that has not failed, each pointer handed out and not given back is alive, however
    often frames were left meanwhile, at the size asked for and on the page objects it first led to;
    and everything alive was handed out and not given back.
  */
  lemma {:induction false} EveryDebtStands(w: World, ledger: Ledger, owed: Debts, ds: seq<Deed>)
    requires WorldInv(w) && !w.g.failed && Agrees(w.g, ledger) && FairDeeds(w, ledger, ds) && Owes(w, owed)
    ensures var r := RunWorld(w, ledger, ds).0; !r.g.failed ==> Owes(r, OwedAfter(w, owed, ds))
    decreases |ds|
  {
    if ds != [] {
      DeedKeeps(w, ledger, ds[0]);
      DeedOwes(w, ledger, owed, ds[0]);
      var (r, answer) := Do(w, ds[0]);
      hide Do, Owes, DeedOk, WorldInv, Owing;
      if F.Shape(r.b) {
        var books := BooksAfter(ledger, ds[0], answer);
        if r.g.failed { FailureIsFinal(r, books, ds[1..]); }
        else { EveryDebtStands(r, books, Owing(owed, w, ds[0], r, answer), ds[1..]); }
      }
    }
  }

  /** A new graph owes nothing. */
  lemma NewWorldOwes(assertBreaks: bool)
    ensures Owes(NewWorld(assertBreaks), map[])
  {
    var w := NewWorld(assertBreaks);
    NewWorldInv(assertBreaks);
    forall t ensures !Alive(w, t) {
      if t.Held? && t.k == 0 { assert (t.loc in HeldBy(Mean(w.g, 0))) <==> Holds(w.g, 0, t.loc); }
    }
  }
}
