/**
  Runs of the compiler with its own searches: every recorded allocation goes where the window
  search or the small-heap search puts it, and the driver may refuse any call.
*/
module GraphPlaced {
  import opened GraphModel
  import opened GraphTree
  import opened GraphSafety
  import opened GraphRuns
  import opened GraphRebuild
  import opened GraphExact
  import opened GraphPages
  import opened GraphSmall
  import opened GraphPeak

  // ---------------------------------------------------------------- the sorted list of small ranges

  function Listing(a: Alloc, limit: nat): (spans: seq<Span>)
    ensures forall i :: 0 <= i < |spans| ==> spans[i].offset < limit && Small(spans[i].offset) in a &&
                                             a[Small(spans[i].offset)].units == spans[i].bytes
    ensures forall i, j :: 0 <= i < j < |spans| ==> spans[i].offset < spans[j].offset
    ensures forall o: nat :: o < limit && Small(o) in a ==> exists i :: 0 <= i < |spans| && spans[i].offset == o
  {
    if limit == 0 then []
    else
      var before := Listing(a, limit - 1);
      if Small(limit - 1) in a then
        var after := before + [Span(limit - 1, a[Small(limit - 1)].units)];
        assert forall i :: 0 <= i < |before| ==> after[i] == before[i];
        assert after[|before|].offset == limit - 1;
        after
      else before
  }

  lemma ListingLists(g: Graph)
    requires AllocOk(g.space, g.alloc) && g.space.limit < NONE
    ensures Lists(Listing(g.alloc, g.space.limit), g.alloc) && SpansOk(Listing(g.alloc, g.space.limit))
    ensures forall i :: 0 <= i < |Listing(g.alloc, g.space.limit)| ==>
              EndOf(Listing(g.alloc, g.space.limit)[i]) <= g.space.limit
  {
    var spans := Listing(g.alloc, g.space.limit);
    forall l | l in g.alloc && l.Small? ensures exists i :: 0 <= i < |spans| && spans[i].offset == l.offset {
      assert EntryOk(g.space, l, g.alloc[l].units);
    }
    ListsAreLaidOut(g.space, g.alloc, spans);
  }

  // ---------------------------------------------------------------- requests with the driver's answers

  datatype Command = Command(q: Request, driver: Driver, reply: PageReply)

  function PlaceFor(g: Graph, size: nat, driver: Driver, reply: PageReply): Place
    requires g.space.limit < NONE
  {
    if size >= SMALL_LIMIT then LargePlace(g, size, driver)
    else
      var spans := Listing(g.alloc, g.space.limit);
      SmallPlace(g, spans, size, reply)
  }

  /** A size whose rounding neither vanishes nor wraps around 64 bits. */
  predicate Proper(size: nat) {
    0 < size <= WORD - PAGE
  }

  /** The request is of a proper size and was placed by the compiler's own search. */
  predicate Placed(g: Graph, c: Command) {
    c.q.AllocReq? && !g.failed && g.stack != [] ==>
      Proper(c.q.size) && (Ready(g).space.limit < NONE ==> c.q.place == PlaceFor(Ready(g), c.q.size, c.driver, c.reply))
  }

  predicate Whole(g: Graph) {
    Inv(g) && (!g.failed ==> PagesOk(g) && HeapOk(g))
  }

  lemma CreatedIsWhole(assertBreaks: bool)
    ensures Whole(Created(assertBreaks)) && LiveCount(Created(assertBreaks)) == 0
  {
    CreatedInv(assertBreaks);
    LiveCountIsBounded(Space([], 0), map[], 0);
  }

  /** The searches find sound places exactly for proper sizes. */
  lemma SearchIsSoundIffProper(g: Graph, size: nat, driver: Driver, reply: PageReply)
    requires AllocOk(g.space, g.alloc) && PagesOk(g) && HeapOk(g) && size < WORD
    ensures PlaceFor(g, size, driver, reply).Place? ==>
              (PlaceOk(g, size, PlaceFor(g, size, driver, reply)) <==> Proper(size))
    ensures PlaceFor(g, size, driver, reply).NoPlace? ==> PlaceOk(g, size, PlaceFor(g, size, driver, reply))
  {
    if size >= SMALL_LIMIT {
      LargePlaceIsOk(g, size, driver);
    } else {
      ListingLists(g);
      SmallPlaceIsOk(g, Listing(g.alloc, g.space.limit), size, reply);
    }
  }

  lemma ReadyWhole(g: Graph)
    requires Whole(g) && !g.failed && g.stack != []
    ensures PagesOk(Ready(g)) && HeapOk(Ready(g)) && AllocOk(Ready(g).space, Ready(g).alloc)
    ensures Ready(g).physCount == g.physCount && Ready(g).smallPages == g.smallPages && Ready(g).space == g.space
  {
    ReadyKeeps(g);
  }

  lemma PlacedIsSound(g: Graph, c: Command)
    requires Whole(g) && Placed(g, c)
    ensures Sound(g, c.q)
  {
    if c.q.AllocReq? && !g.failed && g.stack != [] {
      ReadyWhole(g);
      SearchIsSoundIffProper(Ready(g), c.q.size, c.driver, c.reply);
    }
  }

  // ---------------------------------------------------------------- one step

  /** A step that records nothing large leaves the pages as they are. */
  lemma QuietStep(g: Graph, q: Request)
    requires !q.AllocReq?
    ensures Step(g, q).0.physCount == g.physCount && Step(g, q).0.space == g.space && Step(g, q).0.smallPages == g.smallPages
  {}

  /** What an allocation request does when it is recorded. */
  predicate Records(g: Graph, c: Command) {
    && c.q.AllocReq? && !g.failed && g.stack != [] && Top(g).cursor < |g.es|
    && (Top(g).recording || Find(g.es, Top(g).cursor, KTake(c.q.size >= SMALL_LIMIT, c.q.size)).Nothing?)
    && !Ready(g).failed && c.q.place.Place?
  }

  lemma RecordsMeans(g: Graph, c: Command)
    requires Records(g, c)
    ensures Step(g, c.q).0 == RecordTake(Ready(g), c.q.place.loc, c.q.size, c.q.place.space, c.q.place.physCount, c.q.place.smallPages)
  {}

  lemma ElseUnchanged(g: Graph, c: Command)
    requires c.q.AllocReq? && !Records(g, c)
    ensures var r := Step(g, c.q).0; r.failed || (r.physCount == g.physCount && r.space == g.space && r.smallPages == g.smallPages)
  {}

  /** Pages stay backed and mapped, and are created exactly as the recorder's live pages require. */
  lemma RecordedStep(g: Graph, c: Command)
    requires Whole(g) && Placed(g, c) && Records(g, c)
    ensures var r := Step(g, c.q).0; PagesOk(r) && HeapOk(r) && r.physCount == Max(g.physCount, LiveCount(r))
  {
    RecordsMeans(g, c);
    ReadyWhole(g);
    var pl, size, r := c.q.place, c.q.size, Ready(g);
    var e := Entry(Units(pl.loc, size), Top(r).depth, |r.es|);
    assert Step(g, c.q).0.alloc == r.alloc[pl.loc := e];
    if size >= SMALL_LIMIT {
      assert pl.loc.Large?;
      TakeKeepsPeak(r, size, c.driver, e);
    } else {
      ListingLists(r);
      SmallPlaceKeepsHeap(r, Listing(r.alloc, r.space.limit), size, c.reply);
      LiveCountIsBounded(pl.space, r.alloc[pl.loc := e], r.physCount);
    }
  }

  lemma StepIsWhole(g: Graph, ledger: Ledger, c: Command)
    requires Whole(g) && Agrees(g, ledger) && Fair(ledger, c.q) && Placed(g, c)
    ensures var (r, answer) := Step(g, c.q);
      && Whole(r) && Agrees(r, Record(ledger, c.q, answer, r.failed))
      && (!r.failed ==> r.physCount == Max(g.physCount, LiveCount(r)))
  {
    PlacedIsSound(g, c);
    StepKeeps(g, ledger, c.q);
    var r := Step(g, c.q).0;
    if Records(g, c) {
      RecordedStep(g, c);
    } else {
      if c.q.AllocReq? { ElseUnchanged(g, c); } else { QuietStep(g, c.q); }
      LiveCountIsBounded(r.space, r.alloc, r.physCount);
      assert !r.failed ==> !g.failed;
    }
  }

  // ---------------------------------------------------------------- runs

  predicate PlacedRun(g: Graph, ledger: Ledger, cs: seq<Command>)
    decreases |cs|
  {
    cs == [] ||
    (Fair(ledger, cs[0].q) && Placed(g, cs[0]) &&
     var (r, answer) := Step(g, cs[0].q);
     PlacedRun(r, Record(ledger, cs[0].q, answer, r.failed), cs[1..]))
  }

  function Requests(cs: seq<Command>): (qs: seq<Request>)
    ensures |qs| == |cs|
  {
    if cs == [] then [] else [cs[0].q] + Requests(cs[1..])
  }

  /** The most large pages the recorder held live in any state that the run visits. */
  function PeakOf(g: Graph, cs: seq<Command>): nat
    decreases |cs|
  {
    if cs == [] then LiveCount(g) else Max(LiveCount(g), PeakOf(Step(g, cs[0].q).0, cs[1..]))
  }

  /**
    In every run that has not failed, with any driver, any nesting and any mixture of recording
    and replay: everything held is apart, every byte handed out is on a page, and the physical
    pages in existence are those there were at the start or the peak of the recorder's live pages.
  */
  lemma {:induction false} PlacedRunIsSafe(g: Graph, ledger: Ledger, cs: seq<Command>)
    requires Whole(g) && Agrees(g, ledger) && PlacedRun(g, ledger, cs)
    ensures var (r, books) := Run(g, ledger, Requests(cs));
      && Whole(r) && Agrees(r, books) && AllApart(r, books)
      && (!r.failed ==> r.physCount == Max(g.physCount, PeakOf(g, cs)))
    decreases |cs|
  {
    LiveCountIsBounded(g.space, g.alloc, g.physCount);
    if cs == [] {
      LedgerApart(g, ledger);
    } else {
      StepIsWhole(g, ledger, cs[0]);
      var (r, answer) := Step(g, cs[0].q);
      assert Requests(cs)[0] == cs[0].q && Requests(cs)[1..] == Requests(cs[1..]);
      var ledger' := Record(ledger, cs[0].q, answer, r.failed);
      PlacedRunIsSafe(r, ledger', cs[1..]);
      if r.failed { FailedRun(r, ledger', Requests(cs[1..])); }
    }
  }

  /** From a new graph: exactly as many pages as were ever live at once. */
  lemma PagesArePeak(assertBreaks: bool, cs: seq<Command>)
    requires PlacedRun(Created(assertBreaks), [{}], cs)
    ensures var r := Run(Created(assertBreaks), [{}], Requests(cs)).0;
      !r.failed ==> r.physCount == PeakOf(Created(assertBreaks), cs)
  {
    var g := Created(assertBreaks);
    CreatedIsWhole(assertBreaks);
    FrameSem(g, 0);
    NothingTracked(g.es, g.space, Mean(g, 0));
    PlacedRunIsSafe(g, [{}], cs);
  }

  // ---------------------------------------------------------------- the peak over the tree

  /** Some node of the tree has as many pages live as were ever created. */
  predicate Reached(g: Graph) {
    g.physCount == 0 || exists n :: 0 <= n < |g.es| && NodeCount(g, n) == g.physCount
  }

  /** No allocation is recorded on a state that holds more than the frame means. */
  predicate CleanRun(g: Graph, cs: seq<Command>)
    decreases |cs|
  {
    cs == [] || ((Records(g, cs[0]) ==> Exact(Ready(g))) && CleanRun(Step(g, cs[0].q).0, cs[1..]))
  }

  lemma NodeCountStable(g: Graph, r: Graph, n: nat)
    requires Inv(g) && PagesOk(g) && n < |g.es|
    requires Grown(g.es, r.es) && Grows(g.space, r.space) && g.physCount <= r.physCount
    ensures NodeCount(r, n) == NodeCount(g, n)
  {
    assert NodeOk(g.es, g.space, n);
    MeaningStable(g.es, r.es, n);
    LiveAfterGrowth(g.space, r.space, Meaning(g.es, n).alloc, g.physCount, r.physCount);
  }

  /** When pages had to be created, the new node has all of them live. */
  lemma CleanTakeReaches(g: Graph, c: Command)
    requires Whole(g) && Placed(g, c) && Records(g, c) && Exact(Ready(g)) && Sound(g, c.q)
    ensures var r := Step(g, c.q).0; |r.es| == |g.es| + 1 && NodeCount(r, |g.es|) == LiveCount(r)
  {
    RecordsMeans(g, c);
    ReadyKeeps(g);
    var pl, r := c.q.place, Ready(g);
    TakeStaysExact(r, pl.loc, c.q.size, pl.space, pl.physCount, pl.smallPages);
  }

  lemma StepReaches(g: Graph, ledger: Ledger, c: Command)
    requires Whole(g) && Agrees(g, ledger) && Fair(ledger, c.q) && Placed(g, c) && Reached(g) && !g.failed
    requires Records(g, c) ==> Exact(Ready(g))
    ensures !Step(g, c.q).0.failed ==> Reached(Step(g, c.q).0)
  {
    var r := Step(g, c.q).0;
    if !r.failed {
      StepIsWhole(g, ledger, c);
      StepGrows(g, c.q);
      PlacedIsSound(g, c);
      SpaceGrows(g, c);
      if r.physCount > g.physCount {
        if !Records(g, c) { if c.q.AllocReq? { ElseUnchanged(g, c); } else { QuietStep(g, c.q); } }
        CleanTakeReaches(g, c);
      } else if g.physCount > 0 {
        var n :| 0 <= n < |g.es| && NodeCount(g, n) == g.physCount;
        NodeCountStable(g, r, n);
      }
    }
  }

  lemma SpaceGrows(g: Graph, c: Command)
    requires Whole(g) && Placed(g, c) && Sound(g, c.q)
    ensures !Step(g, c.q).0.failed ==> Grows(g.space, Step(g, c.q).0.space)
  {
    if Records(g, c) { RecordsMeans(g, c); ReadyKeeps(g); }
    else if c.q.AllocReq? { ElseUnchanged(g, c); } else { QuietStep(g, c.q); }
  }

  /** When every allocation is recorded on exactly what its frame means, the page count is that of some node. */
  lemma {:induction false} CleanRunReaches(g: Graph, ledger: Ledger, cs: seq<Command>)
    requires Whole(g) && Agrees(g, ledger) && PlacedRun(g, ledger, cs) && CleanRun(g, cs)
    requires !g.failed ==> Reached(g)
    ensures var r := Run(g, ledger, Requests(cs)).0;
      !r.failed ==> Reached(r) && forall n :: 0 <= n < |r.es| ==> NodeCount(r, n) <= r.physCount
    decreases |cs|
  {
    if cs == [] {
      forall n | 0 <= n < |g.es| ensures NodeCount(g, n) <= g.physCount {
        LiveCountIsBounded(g.space, Meaning(g.es, n).alloc, g.physCount);
      }
    } else {
      if !g.failed { StepReaches(g, ledger, cs[0]); }
      StepIsWhole(g, ledger, cs[0]);
      var (r, answer) := Step(g, cs[0].q);
      CleanRunReaches(r, Record(ledger, cs[0].q, answer, r.failed), cs[1..]);
      assert Requests(cs)[0] == cs[0].q && Requests(cs)[1..] == Requests(cs[1..]);
    }
  }

  lemma OrderlyRecordsExactly(g: Graph, c: Command)
    requires Inv(g) && Orderly(g) && Records(g, c)
    ensures Exact(Ready(g))
  {
    if !Top(g).recording { BreakIsExact(g); }
  }

  lemma {:induction false} NothingRecordsAfterFailure(g: Graph, cs: seq<Command>)
    requires g.failed
    ensures CleanRun(g, cs)
    decreases |cs|
  {
    if cs != [] { NothingRecordsAfterFailure(Step(g, cs[0].q).0, cs[1..]); }
  }

  lemma {:induction false} TidyRunIsClean(g: Graph, ledger: Ledger, cs: seq<Command>)
    requires Whole(g) && Agrees(g, ledger) && PlacedRun(g, ledger, cs) && TidyRun(g, ledger, Requests(cs)) && Orderly(g)
    ensures CleanRun(g, cs)
    decreases |cs|
  {
    if cs != [] {
      var (r, answer) := Step(g, cs[0].q);
      assert Requests(cs)[0] == cs[0].q && Requests(cs)[1..] == Requests(cs[1..]);
      PlacedIsSound(g, cs[0]);
      StepIsWhole(g, ledger, cs[0]);
      StepIsOrderly(g, ledger, cs[0].q);
      if Records(g, cs[0]) { OrderlyRecordsExactly(g, cs[0]); }
      hide Step, Whole, Orderly, Agrees, Records, Placed, Fair;
      if r.failed { NothingRecordsAfterFailure(r, cs[1..]); }
      else { TidyRunIsClean(r, Record(ledger, cs[0].q, answer, r.failed), cs[1..]); }
    }
  }

  /**
    From a new graph, when no frame breaks above a replaying frame that holds something, the number
    of pages created is the largest number live at any node of the tree, on every branch ever recorded.
  */
  lemma PagesArePeakOfTree(assertBreaks: bool, cs: seq<Command>)
    requires PlacedRun(Created(assertBreaks), [{}], cs) && TidyRun(Created(assertBreaks), [{}], Requests(cs))
    ensures var r := Run(Created(assertBreaks), [{}], Requests(cs)).0;
      !r.failed ==> Reached(r) && forall n :: 0 <= n < |r.es| ==> NodeCount(r, n) <= r.physCount
  {
    var g := Created(assertBreaks);
    CreatedIsWhole(assertBreaks);
    CreatedIsOrderly(assertBreaks);
    FrameSem(g, 0);
    NothingTracked(g.es, g.space, Mean(g, 0));
    TidyRunIsClean(g, [{}], cs);
    CleanRunReaches(g, [{}], cs);
  }
}
