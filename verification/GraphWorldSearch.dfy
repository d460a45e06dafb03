/**
  The searches among leaks: the window search steers clear of black holes and candidates' pages,
  the small-heap search of everything that leaked small, so whatever they find is sound.
*/
module GraphWorldSearch {
  import opened GraphModel
  import opened GraphTree
  import opened GraphSafety
  import opened GraphRuns
  import opened GraphLeaks
  import opened GraphCollect
  import opened GraphPages
  import opened GraphSmall
  import opened GraphPlaced
  import opened GraphWorld
  import opened GraphWorldSafety
  import opened GraphWorldSteps
  import opened GraphWorldAllocs
  import F = GraphFinalize

  // ---------------------------------------------------------------- large allocations

  predicate LeakCovers(w: World, va: nat) {
    exists j :: 0 <= j < |w.leaks| && w.leaks[j].loc.Large? && w.leaks[j].loc.va <= va < w.leaks[j].loc.va + w.leaks[j].units
  }

  predicate LeakHas(w: World, p: int) {
    exists j :: 0 <= j < |w.leaks| && HasPage(w.g.space, w.leaks[j], p)
  }

  /** What the window search must not touch. */
  function BarsOf(w: World): Bars {
    Bars(LivePages(w.g.space, w.g.alloc, w.g.physCount),
         set va | 0 <= va < |w.b.holes| && (w.b.holes[va] != 0 || LeakCovers(w, va)),
         set p | 0 <= p < w.g.physCount && LeakHas(w, p))
  }

  lemma WorldPages(w: World)
    requires WorldInv(w)
    ensures PagesOk(w.g)
  {}

  /** A page that the search may use is in no candidate. */
  lemma PageAwayFromLeaks(w: World, place: Place, units: nat, i: nat)
    requires WorldInv(w) && Grows(w.g.space, place.space) && place.Place? && place.loc.Large? && i < |w.leaks|
    requires place.loc.va + units <= |place.space.vaPhys|
    requires forall p :: place.loc.va <= p < place.loc.va + units ==> !LeakHas(w, place.space.vaPhys[p])
    ensures AwayFromLeak(place.space, place.loc, units, w.leaks[i])
  {
    var k := w.leaks[i];
    assert LeakOk(w, k);
    if k.loc.Large? {
      forall p, q | place.loc.va <= p < place.loc.va + units && k.loc.va <= q < k.loc.va + k.units
        ensures place.space.vaPhys[p] != place.space.vaPhys[q]
      {
        assert place.space.vaPhys[q] == w.g.space.vaPhys[q];
        assert HasPage(w.g.space, k, w.g.space.vaPhys[q]) && LeakHas(w, w.g.space.vaPhys[q]);
      }
    }
  }

  lemma WindowClear(w: World, va: nat, units: nat)
    requires WorldInv(w) && WindowFits(w.g.space.vaPhys, BarsOf(w), va, units)
    ensures forall p :: va <= p < va + units ==> !LeakHas(w, w.g.space.vaPhys[p]) && (p < |w.b.holes| ==> w.b.holes[p] == 0)
  {
    WorldPages(w);
    forall p | va <= p < va + units ensures !LeakHas(w, w.g.space.vaPhys[p]) && (p < |w.b.holes| ==> w.b.holes[p] == 0) {
      assert PageFree(w.g.space.vaPhys, BarsOf(w), p);
    }
  }

  lemma FreshClear(w: World, chosen: seq<nat>)
    requires WorldInv(w) && Elements(chosen) !! BarsOf(w).roguePhys
    ensures forall i :: 0 <= i < |chosen| ==> !LeakHas(w, chosen[i])
  {
    forall i | 0 <= i < |chosen| ensures !LeakHas(w, chosen[i]) {
      assert chosen[i] in Elements(chosen);
      if LeakHas(w, chosen[i]) { LeakPageExists(w, chosen[i]); }
    }
  }

  lemma LeakPageExists(w: World, p: int)
    requires WorldInv(w) && LeakHas(w, p)
    ensures 0 <= p < w.g.physCount
  {
    WorldPages(w);
    var j :| 0 <= j < |w.leaks| && HasPage(w.g.space, w.leaks[j], p);
    assert LeakOk(w, w.leaks[j]);
  }

  lemma PlaceFitsIf(w: World, size: nat, place: Place)
    requires WorldInv(w) && place.Place? && place.loc.Large? && PlaceBacked(w.g, place) && Grows(w.g.space, place.space)
    requires EntryOk(place.space, place.loc, Units(place.loc, size))
    requires forall p :: place.loc.va <= p < place.loc.va + Units(place.loc, size) ==>
               !LeakHas(w, place.space.vaPhys[p]) && (p < |w.b.holes| ==> w.b.holes[p] == 0)
    ensures PlaceFits(w, size, place)
  {
    var units := Units(place.loc, size);
    var w' := w.(g := w.g.(space := place.space), b := Extended(w.b, place.space.vaPhys, place.physCount));
    ExtendedIs(w, place);
    forall i | 0 <= i < |w.leaks| ensures AwayFromLeak(place.space, place.loc, units, w.leaks[i]) {
      PageAwayFromLeaks(w, place, units, i);
    }
    hide WorldInv, Extended, LeakHas;
    assert Fits(w', place.loc, units);
  }

  lemma LargeIsSound(w: World, size: nat, driver: Driver)
    requires WorldInv(w) && !w.g.failed && SMALL_LIMIT <= size <= WORD - PAGE
    ensures PlaceOk(w.g, size, PlaceBeside(w.g, BarsOf(w), size, driver)) && PlaceFits(w, size, PlaceBeside(w.g, BarsOf(w), size, driver))
  {
    var bars, pages, place := BarsOf(w), Units(Large(0), size), PlaceBeside(w.g, BarsOf(w), size, driver);
    WorldPages(w);
    PlaceBesideIsOk(w.g, bars, size, driver);
    if place.Place? {
      hide WorldInv, BarsOf, LeakHas;
      match FirstWindow(w.g.space.vaPhys, bars, pages, 0)
      case At(va) =>
        WindowClear(w, va, pages);
        WindowBacked(w, place);
        PlaceFitsIf(w, size, place);
      case NoWindow => FreshIsSound(w, size, driver);
    }
  }

  lemma WindowBacked(w: World, place: Place)
    requires WorldInv(w) && place.Place? && place.space == w.g.space && place.physCount == w.g.physCount && place.smallPages == w.g.smallPages
    ensures PlaceBacked(w.g, place)
  {
    WorldPages(w);
  }

  lemma FreshIsSound(w: World, size: nat, driver: Driver)
    requires WorldInv(w) && !w.g.failed && SMALL_LIMIT <= size <= WORD - PAGE
    requires FreshPlace(w.g, BarsOf(w), Units(Large(0), size), driver).Place?
    requires PlaceOk(w.g, size, FreshPlace(w.g, BarsOf(w), Units(Large(0), size), driver))
    ensures PlaceFits(w, size, FreshPlace(w.g, BarsOf(w), Units(Large(0), size), driver))
  {
    var bars, pages := BarsOf(w), Units(Large(0), size);
    var place := FreshPlace(w.g, bars, pages, driver);
    var chosen := Choose(bars.live + bars.roguePhys, w.g.physCount, pages).chosen;
    WorldPages(w);
    ChooseIsLowest(bars.live + bars.roguePhys, w.g.physCount, pages);
    ChooseAtMost(bars.live + bars.roguePhys, w.g.physCount, pages);
    assert place.space == w.g.space.(vaPhys := w.g.space.vaPhys + Ints(chosen));
    FreshClear(w, chosen);
    FreshBacked(w, place, chosen);
    hide WorldInv, BarsOf, LeakHas, Choose, FreshPlace;
    FreshFits(w, size, place, chosen);
  }

  lemma FreshFits(w: World, size: nat, place: Place, chosen: seq<nat>)
    requires WorldInv(w) && place.Place? && place.loc == Large(|w.g.space.vaPhys|) && PlaceBacked(w.g, place)
    requires place.space == w.g.space.(vaPhys := w.g.space.vaPhys + Ints(chosen)) && |chosen| == Units(place.loc, size)
    requires PlaceOk(w.g, size, place) && forall i :: 0 <= i < |chosen| ==> !LeakHas(w, chosen[i])
    ensures PlaceFits(w, size, place)
  {
    assert |w.b.holes| == |w.g.space.vaPhys|;
    hide WorldInv, LeakHas;
    assert forall p :: |w.g.space.vaPhys| <= p < |place.space.vaPhys| ==> place.space.vaPhys[p] == chosen[p - |w.g.space.vaPhys|];
    PlaceFitsIf(w, size, place);
  }

  lemma {:induction false} ChooseAtMost(busy: set<nat>, count: nat, n: nat)
    ensures Choose(busy, count, n).count <= count + n
  {
    if n > 0 { ChooseAtMost(busy, count, n - 1); }
  }

  lemma FreshBacked(w: World, place: Place, chosen: seq<nat>)
    requires WorldInv(w) && place.Place? && place.space == w.g.space.(vaPhys := w.g.space.vaPhys + Ints(chosen))
    requires place.smallPages == w.g.smallPages && w.g.physCount <= place.physCount <= w.g.physCount + |chosen|
    requires Below(Elements(chosen), place.physCount)
    ensures PlaceBacked(w.g, place)
  {
    WorldPages(w);
    forall i | 0 <= i < |place.space.vaPhys| ensures 0 <= place.space.vaPhys[i] < place.physCount {
      if i >= |w.g.space.vaPhys| { assert chosen[i - |w.g.space.vaPhys|] in Elements(chosen); }
    }
  }

  // ---------------------------------------------------------------- small allocations

  function LeakSpans(leaks: seq<Leak>): seq<Span> {
    if leaks == [] then []
    else (if leaks[0].loc.Small? && leaks[0].loc.offset + leaks[0].bytes <= HEAP then [PageSpan(Span(leaks[0].loc.offset, leaks[0].bytes))] else [])
         + LeakSpans(leaks[1..])
  }

  function RogueSpans(rogues: seq<Rogue>): seq<Span> {
    if rogues == [] then []
    else (if rogues[0].loc.Small? && rogues[0].loc.offset + rogues[0].bytes <= HEAP then [PageSpan(Span(rogues[0].loc.offset, rogues[0].bytes))] else [])
         + RogueSpans(rogues[1..])
  }

  /** What the small-heap search scans: the live ranges, then the pages of rogues, then those of candidates. */
  function SpansAround(w: World): seq<Span> {
    Listing(w.g.alloc, w.g.space.limit) + RogueSpans(w.rogues) + LeakSpans(w.leaks)
  }

  function SmallPlaceAround(w: World, size: nat, reply: PageReply): Place
    requires SpansOk(SpansAround(w)) && w.g.space.limit < NONE
  {
    SmallPlace(w.g, SpansAround(w), size, reply)
  }

  /** A blocked span is whole pages: if it reaches past the end of the heap, it ends where the heap's last page does. */
  predicate Blocked(s: Span, limit: nat) {
    s.offset < limit < NONE && (EndOf(s) <= limit || EndOf(s) == AlignUp(limit, PAGE))
  }

  lemma PageSpanBlocked(offset: nat, bytes: nat, limit: nat)
    requires offset + bytes <= limit <= HEAP && bytes > 0
    ensures Blocked(PageSpan(Span(offset, bytes)), limit)
    ensures PageSpan(Span(offset, bytes)).offset <= offset && offset + bytes <= EndOf(PageSpan(Span(offset, bytes)))
  {
    AlignUpIsNext(offset + bytes, PAGE);
    AlignUpIsNext(limit, PAGE);
    RoundingUpKeepsOrder(offset + bytes, limit);
    if AlignUp(offset + bytes, PAGE) > limit { NextMultiple(AlignUp(offset + bytes, PAGE), limit); }
  }

  /** There is no other multiple between the end of the heap and the end of its last page. */
  lemma NextMultiple(x: nat, limit: nat)
    requires limit < x <= AlignUp(limit, PAGE) && x % PAGE == 0 && limit <= HEAP
    ensures x == AlignUp(limit, PAGE)
  {
    AlignUpIsNext(limit, PAGE);
  }

  lemma RoundingUpKeepsOrder(x: nat, y: nat)
    requires x <= y <= HEAP
    ensures AlignUp(x, PAGE) <= AlignUp(y, PAGE)
  {
    assert (x + PAGE - 1) % WORD == x + PAGE - 1 && (y + PAGE - 1) % WORD == y + PAGE - 1;
  }

  lemma {:induction false} LeakSpansAre(leaks: seq<Leak>, limit: nat)
    requires limit <= HEAP && forall i :: 0 <= i < |leaks| && leaks[i].loc.Small? ==> leaks[i].bytes > 0 && leaks[i].loc.offset + leaks[i].bytes <= limit
    ensures forall i :: 0 <= i < |LeakSpans(leaks)| ==> Blocked(LeakSpans(leaks)[i], limit)
    ensures forall i :: 0 <= i < |leaks| && leaks[i].loc.Small? ==> PageSpan(Span(leaks[i].loc.offset, leaks[i].bytes)) in LeakSpans(leaks)
  {
    if leaks != [] {
      LeakSpansAre(leaks[1..], limit);
      if leaks[0].loc.Small? { PageSpanBlocked(leaks[0].loc.offset, leaks[0].bytes, limit); }
      hide PageSpan, Blocked;
    }
  }

  lemma {:induction false} RogueSpansAre(rogues: seq<Rogue>, limit: nat)
    requires limit <= HEAP && forall i :: 0 <= i < |rogues| && rogues[i].loc.Small? ==> rogues[i].bytes > 0 && rogues[i].loc.offset + rogues[i].bytes <= limit
    ensures forall i :: 0 <= i < |RogueSpans(rogues)| ==> Blocked(RogueSpans(rogues)[i], limit)
    ensures forall i :: 0 <= i < |rogues| && rogues[i].loc.Small? ==> PageSpan(Span(rogues[i].loc.offset, rogues[i].bytes)) in RogueSpans(rogues)
  {
    if rogues != [] {
      RogueSpansAre(rogues[1..], limit);
      if rogues[0].loc.Small? { PageSpanBlocked(rogues[0].loc.offset, rogues[0].bytes, limit); }
      hide PageSpan, Blocked;
    }
  }

  /** Everything small that leaked lies inside the heap. */
  predicate LeaksInside(w: World) {
    && (forall i :: 0 <= i < |w.leaks| && w.leaks[i].loc.Small? ==>
          w.leaks[i].bytes > 0 && w.leaks[i].loc.offset + w.leaks[i].bytes <= w.g.space.limit)
    && (forall i :: 0 <= i < |w.rogues| && w.rogues[i].loc.Small? ==>
          w.rogues[i].bytes > 0 && w.rogues[i].loc.offset + w.rogues[i].bytes <= w.g.space.limit)
  }

  lemma WorldLeaksInside(w: World)
    requires WorldInv(w)
    ensures LeaksInside(w) && HeapOk(w.g)
  {
    forall i | 0 <= i < |w.leaks| && w.leaks[i].loc.Small?
      ensures w.leaks[i].bytes > 0 && w.leaks[i].loc.offset + w.leaks[i].bytes <= w.g.space.limit
    {
      assert LeakOk(w, w.leaks[i]);
    }
    forall i | 0 <= i < |w.rogues| && w.rogues[i].loc.Small? ensures w.rogues[i].bytes > 0 { assert RogueOk(w.b, w.rogues[i]); }
  }

  /** Past the end of the heap there is only the end of its last page. */
  function TopOf(limit: nat): nat {
    if AlignUp(limit, PAGE) > limit then AlignUp(limit, PAGE) else limit + 1
  }

  lemma SpansAroundOk(w: World)
    requires AllocOk(w.g.space, w.g.alloc) && HeapOk(w.g) && LeaksInside(w)
    ensures SpansOk(SpansAround(w)) && forall i :: 0 <= i < |SpansAround(w)| ==> EndOf(SpansAround(w)[i]) <= AlignUp(w.g.space.limit, PAGE)
    ensures EndsOk(SpansAround(w), w.g.space.limit, TopOf(w.g.space.limit))
  {
    AllBlocked(w);
    AlignUpIsNext(w.g.space.limit, PAGE);
    hide SpansAround;
    assert forall i :: 0 <= i < |SpansAround(w)| ==> Blocked(SpansAround(w)[i], w.g.space.limit);
  }

  lemma AllBlocked(w: World)
    requires AllocOk(w.g.space, w.g.alloc) && HeapOk(w.g) && LeaksInside(w)
    ensures forall i :: 0 <= i < |SpansAround(w)| ==> Blocked(SpansAround(w)[i], w.g.space.limit)
  {
    var limit := w.g.space.limit;
    ListingLists(w.g);
    LeakSpansAre(w.leaks, limit);
    RogueSpansAre(w.rogues, limit);
    assert forall i :: 0 <= i < |Listing(w.g.alloc, limit)| ==> Blocked(Listing(w.g.alloc, limit)[i], limit);
    hide Blocked, Listing, LeakSpans, RogueSpans, AllocOk, LeaksInside;
  }

  /**
    No page of anything that leaked is touched either, unless such a page reaches past the end of
    the heap and a live range that ends there hides it.
  */
  lemma BlockedPagesAreClear(w: World, bytes: nat)
    requires WorldInv(w) && !w.g.failed
    requires NoneOverhangs(SpansAround(w), w.g.space.limit) || exists o: nat :: Leads(SpansAround(w), w.g.space.limit, o)
    ensures SpansOk(SpansAround(w)) && w.g.space.limit < NONE
    ensures AllClear(SpansAround(w), SmallOffset(SpansAround(w), w.g.space.limit, bytes), bytes)
  {
    WorldLeaksInside(w);
    SpansAroundOk(w);
    hide WorldInv, SpansAround, Leads, SmallOffset, EndsOk, AllClear;
    AllSpansAreClear(SpansAround(w), w.g.space.limit, bytes, TopOf(w.g.space.limit));
  }

  /** What leaked shares no byte with the place found. */
  lemma LeakedIsClear(w: World, bytes: nat, inside: Span)
    requires SpansOk(SpansAround(w)) && w.g.space.limit < NONE && EndOf(inside) <= w.g.space.limit && EndOf(inside) <= HEAP
    requires PageSpan(inside) in SpansAround(w)
    ensures Clear(inside, SmallOffset(SpansAround(w), w.g.space.limit, bytes), bytes)
  {
    var i :| 0 <= i < |SpansAround(w)| && SpansAround(w)[i] == PageSpan(inside);
    RangeOnPages(inside.offset, inside.bytes);
    InsideSpanIsClear(SpansAround(w), w.g.space.limit, bytes, i, inside);
  }

  lemma SmallIsClear(w: World, bytes: nat)
    requires WorldInv(w) && !w.g.failed && bytes > 0
    ensures LeaksInside(w) && HeapOk(w.g) && AllocOk(w.g.space, w.g.alloc) && SpansOk(SpansAround(w))
    ensures forall i :: 0 <= i < |Listing(w.g.alloc, w.g.space.limit)| ==>
              Clear(Listing(w.g.alloc, w.g.space.limit)[i], SmallOffset(SpansAround(w), w.g.space.limit, bytes), bytes)
    ensures forall i :: 0 <= i < |w.leaks| && w.leaks[i].loc.Small? ==>
              Clear(Span(w.leaks[i].loc.offset, w.leaks[i].bytes), SmallOffset(SpansAround(w), w.g.space.limit, bytes), bytes)
    ensures forall i :: 0 <= i < |w.rogues| && w.rogues[i].loc.Small? ==>
              Clear(Span(w.rogues[i].loc.offset, w.rogues[i].bytes), SmallOffset(SpansAround(w), w.g.space.limit, bytes), bytes)
  {
    WorldLeaksInside(w);
    SpansAroundOk(w);
    ListingLists(w.g);
    LeakSpansAre(w.leaks, w.g.space.limit);
    RogueSpansAre(w.rogues, w.g.space.limit);
    var spans, live, limit := SpansAround(w), Listing(w.g.alloc, w.g.space.limit), w.g.space.limit;
    assert forall s :: s in RogueSpans(w.rogues) || s in LeakSpans(w.leaks) ==> s in spans;
    hide WorldInv, Listing, LeakSpans, RogueSpans, PageSpan, SmallOffset, Clear, Blocked;
    forall i | 0 <= i < |live| ensures Clear(live[i], SmallOffset(spans, limit, bytes), bytes) {
      assert spans[i] == live[i];
      LiveRangesAreClear(spans, limit, bytes, i);
    }
    forall i | 0 <= i < |w.leaks| && w.leaks[i].loc.Small?
      ensures Clear(Span(w.leaks[i].loc.offset, w.leaks[i].bytes), SmallOffset(spans, limit, bytes), bytes)
    {
      LeakedIsClear(w, bytes, Span(w.leaks[i].loc.offset, w.leaks[i].bytes));
    }
    forall i | 0 <= i < |w.rogues| && w.rogues[i].loc.Small?
      ensures Clear(Span(w.rogues[i].loc.offset, w.rogues[i].bytes), SmallOffset(spans, limit, bytes), bytes)
    {
      LeakedIsClear(w, bytes, Span(w.rogues[i].loc.offset, w.rogues[i].bytes));
    }
  }

  lemma SmallBacked(w: World, size: nat, reply: PageReply)
    requires WorldInv(w) && !w.g.failed && 0 < size < SMALL_LIMIT && SpansOk(SpansAround(w)) && w.g.space.limit < NONE
    requires SmallPlaceAround(w, size, reply).Place?
    ensures PlaceBacked(w.g, SmallPlaceAround(w, size, reply)) && Grows(w.g.space, SmallPlaceAround(w, size, reply).space)
  {
    WorldPages(w);
    WorldLeaksInside(w);
    SpansAroundOk(w);
    hide WorldInv, SpansAround;
    PlaceKeepsHeap(w.g, SpansAround(w), size, reply);
  }

  lemma SmallIsSound(w: World, size: nat, reply: PageReply)
    requires WorldInv(w) && !w.g.failed && 0 < size < SMALL_LIMIT
    ensures SpansOk(SpansAround(w)) && w.g.space.limit < NONE
    ensures PlaceOk(w.g, size, SmallPlaceAround(w, size, reply)) && PlaceFits(w, size, SmallPlaceAround(w, size, reply))
  {
    var bytes := AlignUp(size, SMALL_ALIGN);
    SmallUnits(size);
    SmallIsClear(w, bytes);
    ListingLists(w.g);
    var place := SmallPlaceAround(w, size, reply);
    if place.Place? {
      SmallBacked(w, size, reply);
      hide WorldInv, SpansAround, Listing, Extended;
      ClearCanTake(w.g, Listing(w.g.alloc, w.g.space.limit), place.loc.offset, bytes, place.space.limit);
      SmallFits(w, place, bytes);
    }
  }

  lemma SmallFits(w: World, place: Place, bytes: nat)
    requires place.Place? && place.loc.Small? && EntryOk(place.space, place.loc, bytes)
    requires forall i :: 0 <= i < |w.leaks| && w.leaks[i].loc.Small? ==>
               Clear(Span(w.leaks[i].loc.offset, w.leaks[i].bytes), place.loc.offset, bytes)
    requires forall i :: 0 <= i < |w.rogues| && w.rogues[i].loc.Small? ==>
               Clear(Span(w.rogues[i].loc.offset, w.rogues[i].bytes), place.loc.offset, bytes)
    ensures Fits(w.(g := w.g.(space := place.space), b := Extended(w.b, place.space.vaPhys, place.physCount)), place.loc, bytes)
  {}

  // ---------------------------------------------------------------- both

  function SearchAround(w: World, size: nat, driver: Driver, reply: PageReply): Place
    requires SpansOk(SpansAround(w)) && w.g.space.limit < NONE
  {
    if size >= SMALL_LIMIT then PlaceBeside(w.g, BarsOf(w), size, driver) else SmallPlaceAround(w, size, reply)
  }

  /** For every proper size the compiler's own searches find sound places, whatever leaked and however the driver answers. */
  lemma SearchIsSound(w: World, size: nat, driver: Driver, reply: PageReply)
    requires WorldInv(w) && !w.g.failed && w.g.stack != [] && !Ready(w.g).failed && Proper(size)
    ensures var r := w.(g := Ready(w.g));
      SpansOk(SpansAround(r)) && r.g.space.limit < NONE && SoundPlace(w, size, SearchAround(r, size, driver, reply))
  {
    var r := w.(g := Ready(w.g));
    ReadyWorld(w);
    hide WorldInv, PlaceOk, PlaceFits, SpansAround, BarsOf, Ready;
    SmallIsSound(r, 1, reply);
    if size >= SMALL_LIMIT { LargeIsSound(r, size, driver); } else { SmallIsSound(r, size, reply); }
  }
}
