/**
  Allocations beside leaks: a replayed one passes the filter, a recorded one is placed away from
  everything that leaked, and both keep the invariant.
*/
module GraphWorldAllocs {
  import opened GraphModel
  import opened GraphTree
  import opened GraphSafety
  import opened GraphRuns
  import opened GraphLeaks
  import opened GraphCollect
  import opened GraphSmall
  import opened GraphWorld
  import opened GraphWorldSafety
  import opened GraphWorldSteps
  import F = GraphFinalize

  // ---------------------------------------------------------------- replayed

  /** A small range is inside the pages it lies on. */
  lemma RangeOnPages(offset: nat, bytes: nat)
    requires offset + bytes <= HEAP
    ensures var p := PageSpan(Span(offset, bytes)); p.offset <= offset && offset + bytes <= EndOf(p)
  {
    AlignUpIsNext(offset + bytes, PAGE);
  }

  lemma OffPagesIsAway(o: nat, n: nat, offset: nat, bytes: nat)
    requires OffPages(o, n, offset, bytes) && offset + bytes <= HEAP
    ensures Clear(Span(offset, bytes), o, n)
  {
    RangeOnPages(offset, bytes);
  }

  lemma AvailableIsAwayFromLeak(w: World, loc: Loc, units: nat, i: nat)
    requires WorldInv(w) && EntryOk(w.g.space, loc, units) && Available(w, loc, units) && i < |w.leaks|
    ensures AwayFromLeak(w.g.space, loc, units, w.leaks[i])
  {
    var k := w.leaks[i];
    assert LeakOk(w, k);
    if loc.Small? && k.loc.Small? && !k.freed { OffPagesIsAway(loc.offset, units, k.loc.offset, k.bytes); }
    if loc.Large? && k.loc.Large? {
      forall p, q | loc.va <= p < loc.va + units && k.loc.va <= q < k.loc.va + k.units
        ensures w.g.space.vaPhys[p] != w.g.space.vaPhys[q]
      {
        assert !HasPage(w.g.space, k, w.g.space.vaPhys[p]);
      }
    }
  }

  /** What passes the filter is away from everything that leaked. */
  lemma AvailableFits(w: World, loc: Loc, units: nat)
    requires WorldInv(w) && EntryOk(w.g.space, loc, units) && Available(w, loc, units)
    ensures Fits(w, loc, units)
  {
    forall i | 0 <= i < |w.leaks| ensures AwayFromLeak(w.g.space, loc, units, w.leaks[i]) {
      AvailableIsAwayFromLeak(w, loc, units, i);
    }
    forall i | 0 <= i < |w.rogues| ensures AwayFromRogue(loc, units, w.rogues[i]) {
      var r := w.rogues[i];
      assert RogueOk(w.b, r);
      if loc.Small? && r.loc.Small? { OffPagesIsAway(loc.offset, units, r.loc.offset, r.bytes); }
    }
  }

  lemma TakenMeansOneNew(s: Sem, n: nat, loc: Loc, bytes: nat, l: Loc)
    requires l in Apply(s, n, Take(loc, bytes)).alloc
    ensures l != loc ==> l in s.alloc && Apply(s, n, Take(loc, bytes)).alloc[l] == s.alloc[l]
    ensures l == loc ==> Apply(s, n, Take(loc, bytes)).alloc[l].units == Units(loc, bytes)
  {}

  /** The innermost frame took one more allocation, which fits. */
  lemma OneMoreHeld(w: World, w': World, n: nat, loc: Loc, bytes: nat)
    requires HeldFit(w) && w.g.stack != [] && |w'.g.stack| == |w.g.stack|
    requires forall k :: 0 <= k < |w.g.stack| - 1 ==> Mean(w'.g, k) == Mean(w.g, k)
    requires Mean(w'.g, |w.g.stack| - 1) == Apply(Mean(w.g, |w.g.stack| - 1), n, Take(loc, bytes))
    requires forall l, u :: Fits(w, l, u) ==> Fits(w', l, u)
    requires Fits(w', loc, Units(loc, bytes))
    ensures HeldFit(w')
  {
    hide Fits;
    forall k, l | 0 <= k < |w'.g.stack| && Holds(w'.g, k, l) ensures Fits(w', l, UnitsOf(w'.g, k, l)) {
      if k == |w.g.stack| - 1 { TakenMeansOneNew(Mean(w.g, k), n, loc, bytes, l); }
      if k < |w.g.stack| - 1 || l != loc { assert Holds(w.g, k, l) && Fits(w, l, UnitsOf(w.g, k, l)); }
    }
  }

  lemma ReplayedAlloc(w: World, ledger: Ledger, c: nat)
    requires WorldInv(w) && !w.g.failed && w.g.stack != [] && Top(w.g).cursor < |w.g.es|
    requires !Top(w.g).recording && Agrees(w.g, ledger)
    requires c < |w.g.es| && c in w.g.es[Top(w.g).cursor].next && w.g.es[c].kind.Take?
    requires Available(w, w.g.es[c].kind.loc, Units(w.g.es[c].kind.loc, w.g.es[c].kind.bytes))
    ensures WorldInv(w.(g := Advance(w.g, c)))
    ensures Agrees(Advance(w.g, c), ledger[|ledger| - 1 := ledger[|ledger| - 1] + {w.g.es[c].kind.loc}])
  {
    var r, loc, bytes := Advance(w.g, c), w.g.es[c].kind.loc, w.g.es[c].kind.bytes;
    var w' := w.(g := r);
    MatchedTakeKeeps(w.g, ledger, c);
    AdvanceKeeps(w.g, c);
    AdvanceShape(w.g, w.gone, c);
    OuterMeans(w.g, r);
    assert EntryOk(w.g.space, loc, Units(loc, bytes)) by { FrameSem(r, |r.stack| - 1); }
    AvailableFits(w, loc, Units(loc, bytes));
    OneMoreHeld(w, w', c, loc, bytes);
    forall i | 0 <= i < |w.leaks| ensures LeakOk(w', w.leaks[i]) { assert LeakOk(w, w.leaks[i]); }
    hide Inv, TreeShape, Advance, HeldFit, F.BackingOk, LeakOk, LeaksApart, RoguesOk, Agrees;
  }

  // ---------------------------------------------------------------- recorded

  /** The pages that a place names exist, and the heap stays in its bounds. */
  predicate PlaceBacked(g: Graph, place: Place) {
    && g.physCount <= place.physCount <= |place.space.vaPhys| && place.space.limit <= place.smallPages * PAGE <= HEAP
    && forall i :: 0 <= i < |place.space.vaPhys| ==> 0 <= place.space.vaPhys[i] < place.physCount
  }

  predicate ExtendedShape(a: F.Backing, b: F.Backing, vaPhys: seq<int>, physCount: nat) {
    && |b.vaPhys| == |vaPhys| == |b.mapped| == |b.holes| && |b.pages| == physCount
    && |a.vaPhys| == |a.mapped| == |a.holes| <= |b.vaPhys| && |a.pages| <= |b.pages|
    && (forall i :: 0 <= i < |b.vaPhys| ==> vaPhys[i] == b.vaPhys[i] < |b.pages|)
    && (forall i :: 0 <= i < |a.vaPhys| ==> b.vaPhys[i] == a.vaPhys[i] && b.mapped[i] == a.mapped[i] && b.holes[i] == a.holes[i])
    && (forall i :: |a.vaPhys| <= i < |b.vaPhys| ==> b.holes[i] == 0 && b.mapped[i] == F.MappedTo(b.pages[b.vaPhys[i]]))
    && (forall p :: 0 <= p < |a.pages| ==> b.pages[p] == a.pages[p])
    && (forall p :: |a.pages| <= p < |b.pages| ==> b.pages[p] == a.nextPage + p - |a.pages|)
    && b.held == a.held && b.nextPage == a.nextPage + |b.pages| - |a.pages|
  }

  lemma ExtendedHasShape(a: F.Backing, vaPhys: seq<int>, physCount: nat)
    requires |a.vaPhys| == |a.mapped| == |a.holes| <= |vaPhys| && |a.pages| <= physCount
    requires forall i :: 0 <= i < |vaPhys| ==> 0 <= vaPhys[i] < physCount
    requires forall i :: 0 <= i < |a.vaPhys| ==> vaPhys[i] == a.vaPhys[i]
    ensures ExtendedShape(a, Extended(a, vaPhys, physCount), vaPhys, physCount)
  {
    hide MoreNumbers, MorePages, MoreMapped;
  }

  lemma ExtendedIs(w: World, place: Place)
    requires WorldInv(w) && Grows(w.g.space, place.space) && PlaceBacked(w.g, place)
    ensures ExtendedShape(w.b, Extended(w.b, place.space.vaPhys, place.physCount), place.space.vaPhys, place.physCount)
  {
    assert F.Shape(w.b);
    hide Severed, HeldFit, LeaksOk, RoguesOk, F.BackingOk, Extended, ExtendedShape;
    assert |w.g.space.vaPhys| <= |place.space.vaPhys|;
    assert forall i :: 0 <= i < |w.g.space.vaPhys| ==> place.space.vaPhys[i] == w.g.space.vaPhys[i];
    ExtendedHasShape(w.b, place.space.vaPhys, place.physCount);
  }

  /** New pages back new addresses; what a rogue holds is none of them. */
  lemma ExtendedKeeps(w: World, place: Place)
    requires WorldInv(w) && Grows(w.g.space, place.space) && PlaceBacked(w.g, place)
    ensures F.BackingOk(Extended(w.b, place.space.vaPhys, place.physCount))
  {
    ExtendedIs(w, place);
    hide Extended, Severed, HeldFit, LeaksOk, RoguesOk;
    var b := Extended(w.b, place.space.vaPhys, place.physCount);
    assert F.Shape(b);
  }

  /** A recorded place is away from everything that leaked. */
  predicate PlaceFits(w: World, size: nat, place: Place) {
    place.Place? ==>
      PlaceBacked(w.g, place) &&
      Fits(w.(g := w.g.(space := place.space), b := Extended(w.b, place.space.vaPhys, place.physCount)), place.loc,
           Units(place.loc, size))
  }

  lemma FitsAfterGrowth(w: World, w': World, loc: Loc, units: nat)
    requires Fits(w, loc, units) && Grows(w.g.space, w'.g.space) && w'.leaks == w.leaks && w'.rogues == w.rogues
    requires |w.b.holes| == |w.g.space.vaPhys| && |w.b.holes| <= |w'.b.holes|
    requires forall i :: 0 <= i < |w.b.holes| ==> w'.b.holes[i] == w.b.holes[i]
    requires forall i :: 0 <= i < |w.leaks| ==> EntryOk(w.g.space, w.leaks[i].loc, w.leaks[i].units)
    ensures Fits(w', loc, units)
  {
    ApartStable(w.g.space, w'.g.space, loc, units, loc, units);
    forall i | 0 <= i < |w.leaks| ensures AwayFromLeak(w'.g.space, loc, units, w.leaks[i]) {
      assert AwayFromLeak(w.g.space, loc, units, w.leaks[i]);
      ApartStable(w.g.space, w'.g.space, loc, units, w.leaks[i].loc, w.leaks[i].units);
    }
  }

  lemma LeaksAfterGrowth(w: World, w': World)
    requires LeaksOk(w) && Grows(w.g.space, w'.g.space) && w'.leaks == w.leaks && w'.rogues == w.rogues && w'.gone == w.gone
    requires |w.b.holes| == |w.g.space.vaPhys| && |w.b.holes| <= |w'.b.holes|
    requires forall i :: 0 <= i < |w.b.holes| ==> w'.b.holes[i] == w.b.holes[i]
    ensures LeaksOk(w')
  {
    forall i | 0 <= i < |w.leaks| ensures LeakOk(w', w.leaks[i]) {
      assert LeakOk(w, w.leaks[i]);
      ApartStable(w.g.space, w'.g.space, w.leaks[i].loc, w.leaks[i].units, w.leaks[i].loc, w.leaks[i].units);
    }
    forall i, j | 0 <= i < j < |w.leaks| ensures LeaksApart(w'.g.space, w.leaks[i], w.leaks[j]) {
      assert LeakOk(w, w.leaks[i]) && LeakOk(w, w.leaks[j]) && LeaksApart(w.g.space, w.leaks[i], w.leaks[j]);
      ApartStable(w.g.space, w'.g.space, w.leaks[i].loc, w.leaks[i].units, w.leaks[j].loc, w.leaks[j].units);
    }
  }

  function Recorded(w: World, size: nat, place: Place): World
    requires w.g.stack != [] && Top(w.g).cursor < |w.g.es| && place.Place?
  {
    w.(g := RecordTake(w.g, place.loc, size, place.space, place.physCount, place.smallPages),
       b := Extended(w.b, place.space.vaPhys, place.physCount))
  }

  lemma RecordedGraph(w: World, ledger: Ledger, size: nat, place: Place)
    requires WorldInv(w) && !w.g.failed && w.g.stack != [] && Top(w.g).cursor < |w.g.es| && Top(w.g).recording
    requires Agrees(w.g, ledger) && PlaceOk(w.g, size, place) && place.Place?
    ensures var r := Recorded(w, size, place).g;
      && Severed(r, w.gone) && Sized(r.es) && Agrees(r, ledger[|ledger| - 1 := ledger[|ledger| - 1] + {place.loc}])
      && |r.stack| == |w.g.stack| && (forall k :: 0 <= k < |r.stack| - 1 ==> Mean(r, k) == Mean(w.g, k))
      && Mean(r, |r.stack| - 1) == Apply(Mean(w.g, |r.stack| - 1), |w.g.es|, Take(place.loc, size))
  {
    var r := Recorded(w, size, place).g;
    RecordedTakeKeeps(w.g, ledger, size, place);
    RecordTakeKeeps(w.g, place.loc, size, place.space, place.physCount, place.smallPages);
    RecordedShape(w.g, w.gone, r, Take(place.loc, size));
    AppendGrows(w.g.es, Top(w.g).cursor, Take(place.loc, size));
    OuterMeans(w.g, r);
    hide Inv, Rooted, Detached, CursorsLive, Sized, Agrees, Mean, CanTake;
  }

  lemma RecordedAlloc(w: World, ledger: Ledger, size: nat, place: Place)
    requires WorldInv(w) && !w.g.failed && w.g.stack != [] && Top(w.g).cursor < |w.g.es| && Top(w.g).recording
    requires Agrees(w.g, ledger) && PlaceOk(w.g, size, place) && place.Place? && PlaceFits(w, size, place)
    ensures WorldInv(Recorded(w, size, place))
    ensures Agrees(Recorded(w, size, place).g, ledger[|ledger| - 1 := ledger[|ledger| - 1] + {place.loc}])
  {
    hide Severed, Agrees, Mean, HeldFit, LeaksOk, RoguesOk, F.BackingOk, CanTake;
    var w' := Recorded(w, size, place);
    RecordedGraph(w, ledger, size, place);
    ExtendedIs(w, place);
    ExtendedKeeps(w, place);
    RoguesUnmoved(w.b, w'.b, w.rogues);
    assert Ties(w'.g, w'.b) && Fits(w', place.loc, Units(place.loc, size));
    assert |w.b.holes| == |w.g.space.vaPhys|;
    hide Extended, Ties, Fits;
    LeaksAfterGrowth(w, w');
    RecordedHeldFit(w, w', |w.g.es|, place.loc, size);
  }

  lemma RecordedHeldFit(w: World, w': World, n: nat, loc: Loc, size: nat)
    requires HeldFit(w) && LeaksOk(w) && w.g.stack != [] && |w'.g.stack| == |w.g.stack|
    requires forall k :: 0 <= k < |w.g.stack| - 1 ==> Mean(w'.g, k) == Mean(w.g, k)
    requires Mean(w'.g, |w.g.stack| - 1) == Apply(Mean(w.g, |w.g.stack| - 1), n, Take(loc, size))
    requires Grows(w.g.space, w'.g.space) && w'.leaks == w.leaks && w'.rogues == w.rogues
    requires |w.b.holes| == |w.g.space.vaPhys| && |w.b.holes| <= |w'.b.holes|
    requires forall i :: 0 <= i < |w.b.holes| ==> w'.b.holes[i] == w.b.holes[i]
    requires Fits(w', loc, Units(loc, size))
    ensures HeldFit(w')
  {
    forall i | 0 <= i < |w.leaks| ensures EntryOk(w.g.space, w.leaks[i].loc, w.leaks[i].units) { assert LeakOk(w, w.leaks[i]); }
    hide LeaksOk, HeldFit, Mean;
    forall l, u | Fits(w, l, u) ensures Fits(w', l, u) { FitsAfterGrowth(w, w', l, u); }
    OneMoreHeld(w, w', n, loc, size);
  }

  lemma RoguesUnmoved(b: F.Backing, b': F.Backing, rogues: seq<Rogue>)
    requires RoguesOk(b, rogues) && b'.held == b.held
    ensures RoguesOk(b', rogues)
  {
    forall i | 0 <= i < |rogues| ensures RogueOk(b', rogues[i]) { assert RogueOk(b, rogues[i]); }
    forall i, j | 0 <= i < j < |rogues| ensures RoguesApart(b', rogues[i], rogues[j]) { assert RoguesApart(b, rogues[i], rogues[j]); }
  }

  // ---------------------------------------------------------------- both

  /** The search places a recorded allocation beside everything the recorder knows and everything that leaked. */
  predicate SoundPlace(w: World, size: nat, place: Place)
    requires w.g.stack != []
  {
    PlaceOk(Ready(w.g), size, place) && PlaceFits(w.(g := Ready(w.g)), size, place)
  }

  lemma AllocKeepsWorld(w: World, ledger: Ledger, size: nat, place: Place)
    requires WorldInv(w) && !w.g.failed && w.g.stack != [] && Top(w.g).cursor < |w.g.es|
    requires Agrees(w.g, ledger) && (!Ready(w.g).failed ==> SoundPlace(w, size, place))
    ensures var (r, answer) := AskAlloc(w, size, place);
      !r.g.failed ==> WorldInv(r) && Agrees(r.g, Record(ledger, AllocReq(size, place), answer, false))
  {
    var next := w.g.es[Top(w.g).cursor].next;
    var i := if Top(w.g).recording then |next| else FindOffer(w, next, KTake(size >= SMALL_LIMIT, size), 0);
    if i < |next| {
      ReplayedAlloc(w, ledger, next[i]);
    } else {
      ReadyWorld(w);
      ReadyAgrees(w.g, ledger);
      if !Ready(w.g).failed && place.Place? { RecordedAlloc(w.(g := Ready(w.g)), ledger, size, place); }
    }
  }
}
