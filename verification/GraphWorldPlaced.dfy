/**
  Whole runs of the compiler with leaks and with its own searches: a client asks for sizes, the
  driver answers as it likes, and the places are where the searches put them.
*/
module GraphWorldPlaced {
  import opened GraphModel
  import opened GraphSafety
  import opened GraphRuns
  import opened GraphPages
  import opened GraphSmall
  import opened GraphPlaced
  import opened GraphWorld
  import opened GraphWorldSafety
  import opened GraphWorldSteps
  import opened GraphWorldAllocs
  import opened GraphWorldRuns
  import opened GraphWorldOwed
  import opened GraphWorldSearch
  import F = GraphFinalize

  /** An allocation of some size with the driver's replies, or any deed that allocates nothing. */
  datatype Move = Want(size: nat, driver: Driver, reply: PageReply) | Other(d: Deed)

  /** Where the searches put a recorded allocation. */
  function PlaceIn(w: World, size: nat, driver: Driver, reply: PageReply): Place {
    var r := if w.g.stack == [] then w else w.(g := Ready(w.g));
    if SpansOk(SpansAround(r)) && r.g.space.limit < NONE then SearchAround(r, size, driver, reply)
    else NoPlace(w.g.space, w.g.physCount, w.g.smallPages)
  }

  function DeedOf(w: World, m: Move): Deed {
    match m
    case Want(size, driver, reply) => Ask(AllocReq(size, PlaceIn(w, size, driver, reply)), false)
    case Other(d) => d
  }

  /** Sizes neither vanish nor wrap, and a client frees only what an open frame holds. */
  predicate MoveOk(ledger: Ledger, m: Move) {
    match m
    case Want(size, _, _) => Proper(size)
    case Other(d) => d.Ask? ==> !d.q.AllocReq? && (d.q.FreeReq? ==> Fair(ledger, d.q))
  }

  lemma SearchedDeedOk(w: World, ledger: Ledger, m: Move)
    requires WorldInv(w) && MoveOk(ledger, m)
    ensures DeedOk(w, ledger, DeedOf(w, m))
  {
    if m.Want? && !w.g.failed && w.g.stack != [] && !Ready(w.g).failed {
      hide WorldInv, SoundPlace, SearchAround, SpansAround;
      SearchIsSound(w, m.size, m.driver, m.reply);
    }
  }

  // ---------------------------------------------------------------- runs

  predicate MovesOk(w: World, ledger: Ledger, ms: seq<Move>)
    requires F.Shape(w.b)
    decreases |ms|
  {
    ms == [] ||
    (MoveOk(ledger, ms[0]) &&
     var (r, answer) := Do(w, DeedOf(w, ms[0]));
     F.Shape(r.b) ==> MovesOk(r, BooksAfter(ledger, DeedOf(w, ms[0]), answer), ms[1..]))
  }

  /** What the moves do, one after the other. */
  function DeedsOf(w: World, ms: seq<Move>): seq<Deed>
    requires F.Shape(w.b)
    decreases |ms|
  {
    if ms == [] then []
    else
      var r := Do(w, DeedOf(w, ms[0])).0;
      [DeedOf(w, ms[0])] + if F.Shape(r.b) then DeedsOf(r, ms[1..]) else []
  }

  lemma {:induction false} SearchedDeedsAreFair(w: World, ledger: Ledger, ms: seq<Move>)
    requires WorldInv(w) && !w.g.failed && Agrees(w.g, ledger) && MovesOk(w, ledger, ms)
    ensures FairDeeds(w, ledger, DeedsOf(w, ms)) || RunWorld(w, ledger, DeedsOf(w, ms)).0.g.failed
    decreases |ms|
  {
    if ms != [] {
      var d, ds := DeedOf(w, ms[0]), DeedsOf(w, ms);
      assert ds[0] == d;
      SearchedDeedOk(w, ledger, ms[0]);
      DeedKeeps(w, ledger, d);
      var (r, answer) := Do(w, d);
      var books := BooksAfter(ledger, d, answer);
      hide Do, DeedOk, MoveOk, DeedOf, Agrees;
      if F.Shape(r.b) {
        assert ds[1..] == DeedsOf(r, ms[1..]);
        if r.g.failed { FailureIsFinal(r, books, ds[1..]); } else { SearchedDeedsAreFair(r, books, ms[1..]); }
      }
    }
  }

  /**
    From a new graph, for any client that asks for proper sizes and frees what it holds, any driver,
    and any leaks, late frees and new outermost frames in between: in every run that has not failed
    the open frames hold what the books say, each pointer not yet given back, be it held or left
    behind, is alive at the size asked for and on the page objects it first led to, nothing else is
    alive, and nothing alive shares memory with anything else alive.
  */
  lemma EveryRunIsSafe(assertBreaks: bool, ms: seq<Move>)
    requires MovesOk(NewWorld(assertBreaks), [{}], ms)
    ensures var (w, ds) := (NewWorld(assertBreaks), DeedsOf(NewWorld(assertBreaks), ms));
      var (r, books) := RunWorld(w, [{}], ds);
      !r.g.failed ==> Agrees(r.g, books) && Owes(r, OwedAfter(w, map[], ds)) && MemorySafe(r)
  {
    var w := NewWorld(assertBreaks);
    NewWorldInv(assertBreaks);
    NewWorldOwes(assertBreaks);
    SearchedDeedsAreFair(w, [{}], ms);
    var ds := DeedsOf(w, ms);
    hide WorldInv, MemorySafe, Owes, Agrees, NewWorld, DeedsOf;
    if FairDeeds(w, [{}], ds) {
      WorldRunIsSafe(w, [{}], ds);
      EveryDebtStands(w, [{}], map[], ds);
    }
  }
}
