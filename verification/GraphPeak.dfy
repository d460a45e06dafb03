/**
  How many large physical pages are ever created: exactly the largest number that the recorder
  ever held live at once; and, when no allocation is recorded on a stale state, exactly the
  largest number live at any node of the event tree.
*/
module GraphPeak {
  import opened GraphModel
  import opened GraphTree
  import opened GraphSafety
  import opened GraphRuns
  import opened GraphRebuild
  import opened GraphPages

  function LiveCount(g: Graph): nat {
    |LivePages(g.space, g.alloc, g.physCount)|
  }

  /** Pages live at a node of the tree. */
  function NodeCount(g: Graph, n: nat): nat {
    |LivePages(g.space, Meaning(g.es, n).alloc, g.physCount)|
  }

  function Max(a: nat, b: nat): nat {
    if a < b then b else a
  }

  lemma LiveCountIsBounded(sp: Space, a: Alloc, count: nat)
    ensures |LivePages(sp, a, count)| <= count
  {
    UpToSize(count);
    SubsetSize(LivePages(sp, a, count), UpTo(count));
  }

  // ---------------------------------------------------------------- one recorded allocation

  /** The pages behind the new allocation join the live ones. */
  lemma LiveAfterTake(sp: Space, a: Alloc, loc: Loc, e: Entry, count: nat)
    requires loc !in a
    ensures LivePages(sp, a[loc := e], count) ==
            LivePages(sp, a, count) + (set p: nat | p < count && Backs(sp, loc, e.units, p))
  {
    var b := a[loc := e];
    forall p: nat | p < count ensures Live(sp, b, p) <==> Live(sp, a, p) || Backs(sp, loc, e.units, p) {
      if Live(sp, a, p) {
        var l :| l in a && Backs(sp, l, a[l].units, p);
        assert l in b && b[l] == a[l];
      }
      if Backs(sp, loc, e.units, p) { assert loc in b; }
    }
  }

  /** More virtual and physical pages change nothing for what is already placed. */
  lemma LiveAfterGrowth(sp: Space, sp': Space, a: Alloc, count: nat, count': nat)
    requires Grows(sp, sp') && InRange(sp.vaPhys, count) && count <= count'
    requires forall l :: l in a ==> EntryOk(sp, l, a[l].units)
    ensures LivePages(sp', a, count') == LivePages(sp, a, count)
  {
    forall p: nat | p < count' ensures Live(sp', a, p) <==> p < count && Live(sp, a, p) {
      if Live(sp', a, p) {
        var l :| l in a && Backs(sp', l, a[l].units, p);
        assert EntryOk(sp, l, a[l].units);
        var i :| l.va <= i < l.va + a[l].units && i < |sp'.vaPhys| && sp'.vaPhys[i] == p;
        assert sp.vaPhys[i] == p;
        assert Backs(sp, l, a[l].units, p);
      }
      if p < count && Live(sp, a, p) {
        var l :| l in a && Backs(sp, l, a[l].units, p);
        var i :| l.va <= i < l.va + a[l].units && i < |sp.vaPhys| && sp.vaPhys[i] == p;
        assert sp'.vaPhys[i] == p;
        assert Backs(sp', l, a[l].units, p);
      }
    }
  }

  /** Taking a large place creates pages exactly when more are live than exist. */
  lemma TakeKeepsPeak(g: Graph, size: nat, driver: Driver, e: Entry)
    requires PagesOk(g) && AllocOk(g.space, g.alloc) && SMALL_LIMIT <= size <= WORD - PAGE
    requires LargePlace(g, size, driver).Place? && e.units == Units(Large(0), size)
    ensures var pl := LargePlace(g, size, driver);
      && InRange(pl.space.vaPhys, pl.physCount) && pl.physCount <= |pl.space.vaPhys|
      && pl.physCount == Max(g.physCount, |LivePages(pl.space, g.alloc[pl.loc := e], pl.physCount)|)
  {
    LargePlaceIsOk(g, size, driver);
    var bars := Bars(LivePages(g.space, g.alloc, g.physCount), {}, {});
    match FirstWindow(g.space.vaPhys, bars, e.units, 0)
    case At(va) => LiveCountIsBounded(g.space, g.alloc[Large(va) := e], g.physCount);
    case NoWindow => assert bars.live + {} == bars.live; FreshTakeKeepsPeak(g, e);
  }

  /** The space after fresh virtual pages were backed by the chosen physical ones. */
  function FreshSpace(g: Graph, units: nat): Space {
    g.space.(vaPhys := g.space.vaPhys + Ints(Choose(LivePages(g.space, g.alloc, g.physCount), g.physCount, units).chosen))
  }

  function FreshCount(g: Graph, units: nat): nat {
    Choose(LivePages(g.space, g.alloc, g.physCount), g.physCount, units).count
  }

  lemma FreshSpaceIsOk(g: Graph, units: nat)
    requires PagesOk(g)
    ensures InRange(FreshSpace(g, units).vaPhys, FreshCount(g, units))
    ensures g.physCount <= FreshCount(g, units) <= |FreshSpace(g, units).vaPhys|
  {
    var live := LivePages(g.space, g.alloc, g.physCount);
    ChooseIsLowest(live, g.physCount, units);
    ChooseCount(live, g.physCount, units);
    LiveCountIsBounded(g.space, g.alloc, g.physCount);
    var c := Choose(live, g.physCount, units);
    assert forall i :: 0 <= i < |c.chosen| ==> c.chosen[i] in Elements(c.chosen);
  }

  /** The live pages after the allocation: those before it and the chosen ones. */
  lemma FreshLive(g: Graph, e: Entry)
    requires PagesOk(g) && AllocOk(g.space, g.alloc) && Large(|g.space.vaPhys|) !in g.alloc
    ensures var live := LivePages(g.space, g.alloc, g.physCount);
      LivePages(FreshSpace(g, e.units), g.alloc[Large(|g.space.vaPhys|) := e], FreshCount(g, e.units)) ==
      live + Elements(Choose(live, g.physCount, e.units).chosen)
  {
    var live := LivePages(g.space, g.alloc, g.physCount);
    FreshSpaceIsOk(g, e.units);
    ChooseIsLowest(live, g.physCount, e.units);
    LiveAfterGrowth(g.space, FreshSpace(g, e.units), g.alloc, g.physCount, FreshCount(g, e.units));
    LiveAfterTake(FreshSpace(g, e.units), g.alloc, Large(|g.space.vaPhys|), e, FreshCount(g, e.units));
    BackedByChosen(g.space, Choose(live, g.physCount, e.units).chosen, FreshCount(g, e.units));
  }

  lemma FreshTakeKeepsPeak(g: Graph, e: Entry)
    requires PagesOk(g) && AllocOk(g.space, g.alloc) && Large(|g.space.vaPhys|) !in g.alloc
    ensures InRange(FreshSpace(g, e.units).vaPhys, FreshCount(g, e.units))
    ensures FreshCount(g, e.units) <= |FreshSpace(g, e.units).vaPhys|
    ensures FreshCount(g, e.units) == Max(g.physCount,
      |LivePages(FreshSpace(g, e.units), g.alloc[Large(|g.space.vaPhys|) := e], FreshCount(g, e.units))|)
  {
    var live := LivePages(g.space, g.alloc, g.physCount);
    FreshSpaceIsOk(g, e.units);
    FreshLive(g, e);
    ChooseIsLowest(live, g.physCount, e.units);
    ChooseCount(live, g.physCount, e.units);
    ElementsSize(Choose(live, g.physCount, e.units).chosen);
    LiveCountIsBounded(g.space, g.alloc, g.physCount);
  }

  lemma BackedByChosen(space: Space, chosen: seq<nat>, count: nat)
    requires Below(Elements(chosen), count)
    ensures var sp := space.(vaPhys := space.vaPhys + Ints(chosen));
      (set p: nat | p < count && Backs(sp, Large(|space.vaPhys|), |chosen|, p)) == Elements(chosen)
  {
    var n := |space.vaPhys|;
    var sp := space.(vaPhys := space.vaPhys + Ints(chosen));
    forall p: nat | p < count ensures Backs(sp, Large(n), |chosen|, p) <==> p in chosen {
      if p in chosen {
        var i :| 0 <= i < |chosen| && chosen[i] == p;
        assert sp.vaPhys[n + i] == p;
      }
    }
  }
}
