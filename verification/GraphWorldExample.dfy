/**
  A concrete run in which the small-heap search returns bytes in a blocked page.  The root holds a
  range at the end of the heap; scope B leaves three ranges behind, on both pages; B is entered
  again and breaks, so that the recorder forgets them, and asks for 4 KiB.
*/
module GraphWorldExample {
  import opened GraphModel
  import opened GraphRuns
  import opened GraphLeaks
  import opened GraphCollect
  import opened GraphPages
  import opened GraphSmall
  import opened GraphPlaced
  import opened GraphRep
  import opened GraphWorld
  import opened GraphWorldRuns
  import opened GraphWorldSearch
  import opened GraphWorldPlaced

  const BIG := 0x3F_FFFF
  const HALF := 0x40_0000
  const TINY := 0x1000
  const END := 0x80_2000

  function Want4M(): Move {
    Want(BIG, Driver(0, false), Mapped)
  }

  function Want4K(): Move {
    Want(TINY, Driver(0, false), Mapped)
  }

  function Frees(offset: nat): Move {
    Other(Ask(FreeReq(Small(offset)), false))
  }

  function Asks(q: Request): Move {
    Other(Ask(q, false))
  }

  const Missed := [
    Want4M(), Want4M(), Want4K(), Want4K(), Frees(0), Frees(HALF), Frees(PAGE),
    Asks(PushReq("B")), Want4M(), Want4M(), Want4K(), Asks(PopReq), Asks(PushReq("B"))]

  // ---------------------------------------------------------------- the states of the run

  const B0 := NewWorld(false).b

  function Plain(g: Graph): World {
    World(g, {}, [], B0, [])
  }

  const A1: Alloc := map[Small(0) := Entry(HALF, 1, 1)]
  const A2 := A1[Small(HALF) := Entry(HALF, 1, 2)]
  const A3 := A2[Small(PAGE) := Entry(TINY, 1, 3)]
  const Last: Alloc := map[Small(PAGE + TINY) := Entry(TINY, 1, 4)]
  const A4 := A3[Small(PAGE + TINY) := Entry(TINY, 1, 4)]

  function G1(): Graph {
    Graph([Event(Scope(map[], 1), 0, [1]), Event(Take(Small(0), BIG), 0, [])],
      [Frame(1, [1], 1, true, false)], A1, Space([], HALF), 0, 1, false, false)
  }

  function G2(): Graph {
    G1().(es := G1().es[1 := Event(Take(Small(0), BIG), 0, [2])] + [Event(Take(Small(HALF), BIG), 1, [])],
      stack := [Frame(2, [2, 1], 1, true, false)], alloc := A2, space := Space([], PAGE))
  }

  function G3(): Graph {
    G2().(es := G2().es[2 := Event(Take(Small(HALF), BIG), 1, [3])] + [Event(Take(Small(PAGE), TINY), 2, [])],
      stack := [Frame(3, [3, 2, 1], 1, true, false)], alloc := A3, space := Space([], PAGE + TINY), smallPages := 2)
  }

  function G4(): Graph {
    G3().(es := G3().es[3 := Event(Take(Small(PAGE), TINY), 2, [4])] + [Event(Take(Small(PAGE + TINY), TINY), 3, [])],
      stack := [Frame(4, [4, 3, 2, 1], 1, true, false)], alloc := A4, space := Space([], END))
  }

  function G5(): Graph {
    G4().(es := G4().es[4 := Event(Take(Small(PAGE + TINY), TINY), 3, [5])] + [Event(Drop(Small(0)), 4, [])],
      stack := [Frame(5, [4, 3, 2], 1, true, false)], alloc := A4 - {Small(0)})
  }

  function G6(): Graph {
    G5().(es := G5().es[5 := Event(Drop(Small(0)), 4, [6])] + [Event(Drop(Small(HALF)), 5, [])],
      stack := [Frame(6, [4, 3], 1, true, false)], alloc := A4 - {Small(0), Small(HALF)})
  }

  function G7(): Graph {
    G6().(es := G6().es[6 := Event(Drop(Small(HALF)), 5, [7])] + [Event(Drop(Small(PAGE)), 6, [])],
      stack := [Frame(7, [4], 1, true, false)], alloc := Last)
  }

  const Holder := Frame(7, [4], 1, true, false)
  function G8(): Graph {
    G7().(es := G7().es[7 := Event(Drop(Small(PAGE)), 6, [8])] +
      [Event(Call("B", 9), 7, []), Event(Scope(Last, 2), 0, [])],
      stack := [Holder, Frame(9, [], 2, true, false)])
  }

  const A9 := Last[Small(0) := Entry(HALF, 2, 10)]
  const A10 := A9[Small(HALF) := Entry(HALF, 2, 11)]
  const A11 := A10[Small(PAGE) := Entry(TINY, 2, 12)]
  function G9(): Graph {
    G8().(es := G8().es[9 := Event(Scope(Last, 2), 0, [10])] + [Event(Take(Small(0), BIG), 9, [])],
      stack := [Holder, Frame(10, [10], 2, true, false)], alloc := A9)
  }

  function G10(): Graph {
    G9().(es := G9().es[10 := Event(Take(Small(0), BIG), 9, [11])] + [Event(Take(Small(HALF), BIG), 10, [])],
      stack := [Holder, Frame(11, [11, 10], 2, true, false)], alloc := A10)
  }

  function G11(): Graph {
    G10().(es := G10().es[11 := Event(Take(Small(HALF), BIG), 10, [12])] + [Event(Take(Small(PAGE), TINY), 11, [])],
      stack := [Holder, Frame(12, [12, 11, 10], 2, true, false)], alloc := A11)
  }

  function K1(): Graph {
    G11().(es := G11().es[11 := Event(Take(Small(HALF), BIG), 10, [])], stack := [Holder, Frame(11, [11, 10], 2, true, false)])
  }

  function K2(): Graph {
    K1().(es := K1().es[10 := Event(Take(Small(0), BIG), 9, [])][12 := Event(Take(Small(PAGE), TINY), 10, [])],
      stack := [Holder, Frame(10, [10], 2, true, false)])
  }

  function Cut(): Graph {
    K2().(es := K2().es[9 := Event(Scope(Last, 2), 0, [])][11 := Event(Take(Small(HALF), BIG), 9, [])]
      [12 := Event(Take(Small(PAGE), TINY), 9, [])],
      stack := [Holder, Frame(9, [], 2, true, false)])
  }

  const Left3 := [Leak(Small(0), HALF, BIG, 10, false), Leak(Small(HALF), HALF, BIG, 11, false), Leak(Small(PAGE), TINY, TINY, 12, false)]
  function G12(): Graph {
    Cut().(es := Cut().es[9 := Event(Scope(Last, 2), 0, [13])] + [Event(End, 9, [])], stack := [Holder])
  }

  function W12(): World {
    World(G12(), {10, 11, 12}, Left3, B0, [])
  }

  function W13(): World {
    W12().(g := G12().(stack := [Holder, Frame(9, [], 2, false, false)]))
  }


  // ---------------------------------------------------------------- the list of small ranges

  /** The listing is the one ascending list of the ranges below the limit. */
  lemma ListingIs(a: Alloc, limit: nat, spans: seq<Span>)
    requires Lists(spans, a) && forall l :: l in a && l.Small? ==> l.offset < limit
    ensures Listing(a, limit) == spans
  {
    var listing := Listing(a, limit);
    forall l | l in a && l.Small? ensures exists i :: 0 <= i < |listing| && listing[i].offset == l.offset {
      var o := l.offset;
      assert l == Small(o) && Small(o) in a;
      var i :| 0 <= i < |listing| && listing[i].offset == o;
    }
    ListsAreEqual(listing, spans, a);
  }

  // ---------------------------------------------------------------- one command after the other

  predicate Goes(w: World, ledger: Ledger, m: Move, r: World, ledger': Ledger) {
    && w.b == B0 && r.b == B0 && MoveOk(ledger, m)
    && Do(w, DeedOf(w, m)).0 == r && BooksAfter(ledger, DeedOf(w, m), Do(w, DeedOf(w, m)).1) == ledger'
  }

  lemma GoesOn(w: World, ledger: Ledger, ms: seq<Move>, r: World, ledger': Ledger)
    requires ms != [] && Goes(w, ledger, ms[0], r, ledger') && MovesOk(r, ledger', ms[1..])
    ensures MovesOk(w, ledger, ms) && RunWorld(w, ledger, DeedsOf(w, ms)).0 == RunWorld(r, ledger', DeedsOf(r, ms[1..])).0
  {
    assert DeedsOf(w, ms)[0] == DeedOf(w, ms[0]) && DeedsOf(w, ms)[1..] == DeedsOf(r, ms[1..]);
  }

  lemma Rounded()
    ensures AlignUp(BIG, SMALL_ALIGN) == HALF && AlignUp(TINY, SMALL_ALIGN) == TINY
    ensures AlignUp(HALF, PAGE) == PAGE && AlignUp(PAGE, PAGE) == PAGE && AlignUp(PAGE + TINY, PAGE) == 2 * PAGE && AlignUp(END, PAGE) == 2 * PAGE
  {}

  /** A recorded request without anything leaked goes where the search among the live ranges puts it. */
  lemma Searched(g: Graph, live: seq<Span>, size: nat, offset: nat, limit: nat, pages: nat)
    requires g.stack != [] && Top(g).recording && g.space.limit < NONE && g.space.vaPhys == [] && (size == BIG || size == TINY)
    requires Listing(g.alloc, g.space.limit) == live && SpansOk(live)
    requires SmallOffset(live, g.space.limit, AlignUp(size, SMALL_ALIGN)) == offset
    requires var end := offset + AlignUp(size, SMALL_ALIGN);
      if end <= g.space.limit then limit == g.space.limit && pages == g.smallPages
      else limit == end && pages == AlignUp(end, PAGE) / PAGE <= SMALL_PAGES && g.smallPages <= pages <= g.smallPages + 1
    ensures DeedOf(Plain(g), Want(size, Driver(0, false), Mapped)) ==
            Ask(AllocReq(size, Place(Small(offset), Space([], limit), g.physCount, pages)), false)
  {
    hide AlignUp, SmallOffset, SpansAround, SpansOk, Listing;
    var w := Plain(g);
    NothingLeaked(g);
    assert w.(g := Ready(g)) == w;
    assert PlaceIn(w, size, Driver(0, false), Mapped) == SmallPlace(g, live, size, Mapped);
  }

  lemma NothingLeaked(g: Graph)
    ensures SpansAround(Plain(g)) == Listing(g.alloc, g.space.limit)
  {
    assert RogueSpans([]) == [] && LeakSpans([]) == [];
  }

  lemma NoNewBacking()
    ensures Extended(B0, [], 0) == B0
  {}

  // ---------------------------------------------------------------- what the search answers

  /** The search among live ranges in order, hole by hole. */
  lemma SearchOne(spans: seq<Span>, limit: nat, bytes: nat)
    requires SpansOk(spans) && Layout(spans, limit) && limit < NONE && bytes > 0
    ensures var (best, stop) := Sweep(spans, limit, bytes, HoleStart(spans, 0), Best(limit, NONE));
      SmallOffset(spans, limit, bytes) == if best.hole < NONE then best.offset else if limit < stop then stop else limit
  {}

  lemma Search1()
    ensures SmallOffset([], 0, HALF) == 0
  {}

  lemma Search2()
    ensures SmallOffset([Span(0, HALF)], HALF, HALF) == HALF
  {
    var l := [Span(0, HALF)];
    SearchOne(l, HALF, HALF);
    SweepOne(l, HALF, HALF, 0, Best(HALF, NONE));
    SweepOne(l, HALF, HALF, 1, Best(HALF, NONE));
  }

  lemma Search3()
    ensures SmallOffset([Span(0, HALF), Span(HALF, HALF)], PAGE, TINY) == PAGE
  {
    var l := [Span(0, HALF), Span(HALF, HALF)];
    SearchOne(l, PAGE, TINY);
    SweepOne(l, PAGE, TINY, 0, Best(PAGE, NONE));
    SweepOne(l, PAGE, TINY, 1, Best(PAGE, NONE));
    SweepOne(l, PAGE, TINY, 2, Best(PAGE, NONE));
  }

  lemma Search4()
    ensures SmallOffset([Span(0, HALF), Span(HALF, HALF), Span(PAGE, TINY)], PAGE + TINY, TINY) == PAGE + TINY
  {
    var l, b := [Span(0, HALF), Span(HALF, HALF), Span(PAGE, TINY)], Best(PAGE + TINY, NONE);
    SearchOne(l, PAGE + TINY, TINY);
    SweepOne(l, PAGE + TINY, TINY, 0, b);
    SweepOne(l, PAGE + TINY, TINY, 1, b);
    SweepOne(l, PAGE + TINY, TINY, 2, b);
    SweepOne(l, PAGE + TINY, TINY, 3, b);
  }

  lemma Search9()
    ensures SmallOffset([Span(PAGE + TINY, TINY)], END, HALF) == 0
  {
    var l := [Span(PAGE + TINY, TINY)];
    SearchOne(l, END, HALF);
    SweepOne(l, END, HALF, 0, Best(END, NONE));
    SweepOne(l, END, HALF, 1, Best(0, PAGE + TINY));
  }

  lemma Search10()
    ensures SmallOffset([Span(0, HALF), Span(PAGE + TINY, TINY)], END, HALF) == HALF
  {
    var l := [Span(0, HALF), Span(PAGE + TINY, TINY)];
    SearchOne(l, END, HALF);
    SweepOne(l, END, HALF, 0, Best(END, NONE));
    SweepOne(l, END, HALF, 1, Best(END, NONE));
    SweepOne(l, END, HALF, 2, Best(HALF, HALF + TINY));
  }

  lemma Search11()
    ensures SmallOffset([Span(0, HALF), Span(HALF, HALF), Span(PAGE + TINY, TINY)], END, TINY) == PAGE
  {
    var l, b := [Span(0, HALF), Span(HALF, HALF), Span(PAGE + TINY, TINY)], Best(END, NONE);
    SearchOne(l, END, TINY);
    SweepOne(l, END, TINY, 0, b);
    SweepOne(l, END, TINY, 1, b);
    SweepOne(l, END, TINY, 2, b);
    SweepOne(l, END, TINY, 3, Best(PAGE, TINY));
  }

  // ---------------------------------------------------------------- the steps

  /** Where the search puts a recorded allocation, it is recorded. */
  lemma WantStep(g: Graph, live: seq<Span>, size: nat, offset: nat, limit: nat, pages: nat)
    requires !g.failed && g.stack != [] && Top(g).recording && Top(g).cursor < |g.es| && g.space.limit < NONE
    requires g.space.vaPhys == [] && g.physCount == 0 && (size == BIG || size == TINY) && SpansOk(live)
    requires Lists(live, g.alloc) && forall l :: l in g.alloc && l.Small? ==> l.offset < g.space.limit
    requires SmallOffset(live, g.space.limit, AlignUp(size, SMALL_ALIGN)) == offset
    requires var end := offset + AlignUp(size, SMALL_ALIGN);
      if end <= g.space.limit then limit == g.space.limit && pages == g.smallPages
      else limit == end && pages == AlignUp(end, PAGE) / PAGE <= SMALL_PAGES && g.smallPages <= pages <= g.smallPages + 1
    ensures Do(Plain(g), DeedOf(Plain(g), Want(size, Driver(0, false), Mapped))) ==
            (Plain(RecordTake(g, Small(offset), size, Space([], limit), 0, pages)), Pointer(Small(offset)))
  {
    hide AlignUp, SmallOffset, SpansOk, Listing, Lists, DeedOf, RecordTake, Extended;
    ListingIs(g.alloc, g.space.limit, live);
    Searched(g, live, size, offset, limit, pages);
    NoNewBacking();
  }

  /** A step that takes `size` bytes at `offset`. */
  lemma Takes(g: Graph, ledger: Ledger, live: seq<Span>, size: nat, offset: nat, g': Graph, ledger': Ledger)
    requires !g.failed && g.stack != [] && Top(g).recording && Top(g).cursor < |g.es| && g.space.limit < NONE
    requires g.space.vaPhys == [] && g.physCount == 0 && (size == BIG || size == TINY) && SpansOk(live)
    requires Lists(live, g.alloc) && forall l :: l in g.alloc && l.Small? ==> l.offset < g.space.limit
    requires SmallOffset(live, g.space.limit, AlignUp(size, SMALL_ALIGN)) == offset
    requires var end := offset + AlignUp(size, SMALL_ALIGN);
      if end <= g.space.limit then g'.space.limit == g.space.limit && g'.smallPages == g.smallPages
      else g'.space.limit == end && g'.smallPages == AlignUp(end, PAGE) / PAGE <= SMALL_PAGES
           && g.smallPages <= g'.smallPages <= g.smallPages + 1
    requires g' == RecordTake(g, Small(offset), size, Space([], g'.space.limit), 0, g'.smallPages)
    requires ledger != [] && ledger' == ledger[|ledger| - 1 := ledger[|ledger| - 1] + {Small(offset)}]
    ensures Goes(Plain(g), ledger, Want(size, Driver(0, false), Mapped), Plain(g'), ledger')
  {
    WantStep(g, live, size, offset, g'.space.limit, g'.smallPages);
    hide AlignUp, SmallOffset, SpansOk, Lists, RecordTake, Do, PlaceIn;
  }

  type Held = set<Loc>

  lemma Taken1()
    ensures G1() == RecordTake(Created(false), Small(0), BIG, Space([], HALF), 0, 1)
  {
    Rounded();
    var r := RecordTake(Created(false), Small(0), BIG, Space([], HALF), 0, 1);
    assert r.es[0].next == [1];
    assert [1] + [] == [1];
  }

  lemma Step1()
    ensures Goes(Plain(Created(false)), [{}], Want4M(), Plain(G1()), [{Small(0)}])
  {
    var live: seq<Span>, inner: Held := [], {};
    assert inner + {Small(0)} == {Small(0)};
    Rounded();
    Search1();
    Taken1();
    hide SmallOffset, AlignUp, RecordTake, Goes;
    Takes(Created(false), [{}], live, BIG, 0, G1(), [{Small(0)}]);
  }

  lemma Taken2()
    ensures G2() == RecordTake(G1(), Small(HALF), BIG, Space([], PAGE), 0, 1)
  {
    Rounded();
    var r := RecordTake(G1(), Small(HALF), BIG, Space([], PAGE), 0, 1);
    assert r.es[1].next == [2];
    assert [2] + [1] == [2, 1];
  }

  lemma Step2()
    ensures Goes(Plain(G1()), [{Small(0)}], Want4M(), Plain(G2()), [{Small(0), Small(HALF)}])
  {
    var live: seq<Span>, inner: Held := [Span(0, HALF)], {Small(0)};
    assert live[0].offset == 0;
    assert inner + {Small(HALF)} == {Small(0), Small(HALF)};
    Rounded();
    Search2();
    Taken2();
    hide SmallOffset, AlignUp, RecordTake, Goes;
    Takes(G1(), [{Small(0)}], live, BIG, HALF, G2(), [{Small(0), Small(HALF)}]);
  }

  lemma Taken3()
    ensures G3() == RecordTake(G2(), Small(PAGE), TINY, Space([], PAGE + TINY), 0, 2)
  {
    Rounded();
    var r := RecordTake(G2(), Small(PAGE), TINY, Space([], PAGE + TINY), 0, 2);
    assert r.es[2].next == [3];
    assert [3] + [2, 1] == [3, 2, 1];
  }

  lemma Step3()
    ensures Goes(Plain(G2()), [{Small(0), Small(HALF)}], Want4K(), Plain(G3()), [{Small(0), Small(HALF), Small(PAGE)}])
  {
    var live: seq<Span>, inner: Held := [Span(0, HALF), Span(HALF, HALF)], {Small(0), Small(HALF)};
    assert live[0].offset == 0;
    assert live[1].offset == HALF;
    assert inner + {Small(PAGE)} == {Small(0), Small(HALF), Small(PAGE)};
    Rounded();
    Search3();
    Taken3();
    hide SmallOffset, AlignUp, RecordTake, Goes;
    Takes(G2(), [{Small(0), Small(HALF)}], live, TINY, PAGE, G3(), [{Small(0), Small(HALF), Small(PAGE)}]);
  }

  lemma Taken4()
    ensures G4() == RecordTake(G3(), Small(PAGE + TINY), TINY, Space([], END), 0, 2)
  {
    Rounded();
    var r := RecordTake(G3(), Small(PAGE + TINY), TINY, Space([], END), 0, 2);
    assert r.es[3].next == [4];
    assert [4] + [3, 2, 1] == [4, 3, 2, 1];
  }

  lemma Step4()
    ensures Goes(Plain(G3()), [{Small(0), Small(HALF), Small(PAGE)}], Want4K(), Plain(G4()), [{Small(0), Small(HALF), Small(PAGE), Small(PAGE + TINY)}])
  {
    var live: seq<Span>, inner: Held := [Span(0, HALF), Span(HALF, HALF), Span(PAGE, TINY)], {Small(0), Small(HALF), Small(PAGE)};
    assert live[0].offset == 0;
    assert live[1].offset == HALF;
    assert live[2].offset == PAGE;
    assert inner + {Small(PAGE + TINY)} == {Small(0), Small(HALF), Small(PAGE), Small(PAGE + TINY)};
    Rounded();
    Search4();
    Taken4();
    hide SmallOffset, AlignUp, RecordTake, Goes;
    Takes(G3(), [{Small(0), Small(HALF), Small(PAGE)}], live, TINY, PAGE + TINY, G4(), [{Small(0), Small(HALF), Small(PAGE), Small(PAGE + TINY)}]);
  }

  /** A recorded free of what the root holds. */
  lemma Drops(g: Graph, held: set<Loc>, offset: nat, g': Graph, held': set<Loc>)
    requires !g.failed && g.stack != [] && Top(g).recording && Top(g).cursor < |g.es|
    requires g' == RecordDrop(g, Small(offset)) && !g'.failed && Small(offset) in held && held' == held - {Small(offset)}
    ensures Goes(Plain(g), [held], Frees(offset), Plain(g'), [held'])
  {
    assert Small(offset) in [held][0];
    assert [held][0 := held'] == [held'];
    hide RecordDrop;
  }

  lemma Freeing()
    ensures A4 - {Small(0)} - {Small(HALF)} == A4 - {Small(0), Small(HALF)}
    ensures A4 - {Small(0), Small(HALF)} - {Small(PAGE)} == Last
    ensures Small(0) in A4 && A4[Small(0)] == Entry(HALF, 1, 1) && Small(HALF) in A4 && A4[Small(HALF)] == Entry(HALF, 1, 2)
    ensures Small(PAGE) in A4 && A4[Small(PAGE)] == Entry(TINY, 1, 3)
  {
    var a := A4 - {Small(0), Small(HALF)} - {Small(PAGE)};
    assert forall l :: l in a <==> l == Small(PAGE + TINY);
  }

  /** The sizes of the arenas, and that nothing has failed. */
  lemma Arenas()
    ensures |G4().es| == 5 && |G5().es| == 6 && |G7().es| == 8 && |G8().es| == 10 && |G9().es| == 11
    ensures !G4().failed && !G5().failed && !G7().failed && !G8().failed && !G9().failed
    ensures G4().alloc == A4 && G5().alloc == A4 - {Small(0)} && G8().alloc == Last && G9().alloc == A9
    ensures G8().space == G9().space == Space([], END) && G8().physCount == G9().physCount == 0
    ensures G8().smallPages == G9().smallPages == 2
  {}

  lemma Untracks()
    ensures Untrack([4, 3, 2, 1], 1) == [4, 3, 2] && Untrack([4, 3, 2], 2) == [4, 3] && Untrack([4, 3], 3) == [4]
  {
    assert Untrack([1], 1) == [] && Untrack([2], 2) == [] && Untrack([3], 3) == [];
    assert Untrack([2, 1], 1) == [2] && Untrack([3, 2], 2) == [3];
    assert Untrack([3, 2, 1], 1) == [3, 2];
  }

  lemma Freed5()
    ensures G5() == RecordDrop(G4(), Small(0))
  {
    hide A4, Last;
    Freeing();
    var r := RecordDrop(G4(), Small(0));
    Untracks();
    assert r.es[4].next == [5];
    assert r.stack == G5().stack;
    assert r.alloc == G5().alloc;
  }

  lemma Step5()
    ensures Goes(Plain(G4()), [{Small(0), Small(HALF), Small(PAGE), Small(PAGE + TINY)}], Frees(0), Plain(G5()), [{Small(HALF), Small(PAGE), Small(PAGE + TINY)}])
  {
    var inner: Held := {Small(0), Small(HALF), Small(PAGE), Small(PAGE + TINY)};
    assert inner - {Small(0)} == {Small(HALF), Small(PAGE), Small(PAGE + TINY)};
    Freed5();
    hide RecordDrop, Goes;
    Drops(G4(), inner, 0, G5(), {Small(HALF), Small(PAGE), Small(PAGE + TINY)});
  }

  lemma Freed6()
    ensures G6() == RecordDrop(G5(), Small(HALF))
  {
    hide A4, Last;
    Freeing();
    hide G4;
    Arenas();
    var r := RecordDrop(G5(), Small(HALF));
    Untracks();
    assert r.es[5].next == [6];
    assert r.stack == G6().stack;
    assert r.alloc == G6().alloc;
  }

  lemma Step6()
    ensures Goes(Plain(G5()), [{Small(HALF), Small(PAGE), Small(PAGE + TINY)}], Frees(HALF), Plain(G6()), [{Small(PAGE), Small(PAGE + TINY)}])
  {
    var inner: Held := {Small(HALF), Small(PAGE), Small(PAGE + TINY)};
    assert inner - {Small(HALF)} == {Small(PAGE), Small(PAGE + TINY)};
    Freed6();
    hide RecordDrop, Goes;
    Drops(G5(), inner, HALF, G6(), {Small(PAGE), Small(PAGE + TINY)});
  }

  lemma Freed7()
    ensures G7() == RecordDrop(G6(), Small(PAGE))
  {
    hide A4, Last;
    Freeing();
    hide G5;
    Arenas();
    var r := RecordDrop(G6(), Small(PAGE));
    Untracks();
    assert r.es[6].next == [7];
    assert r.stack == G7().stack;
    assert r.alloc == G7().alloc;
  }

  lemma Step7()
    ensures Goes(Plain(G6()), [{Small(PAGE), Small(PAGE + TINY)}], Frees(PAGE), Plain(G7()), [{Small(PAGE + TINY)}])
  {
    var inner: Held := {Small(PAGE), Small(PAGE + TINY)};
    assert inner - {Small(PAGE)} == {Small(PAGE + TINY)};
    Freed7();
    hide RecordDrop, Goes;
    Drops(G6(), inner, PAGE, G7(), {Small(PAGE + TINY)});
  }

  lemma Step8()
    ensures Goes(Plain(G7()), [{Small(PAGE + TINY)}], Asks(PushReq("B")), Plain(G8()), [{Small(PAGE + TINY)}, {}])
  {
    var r := RecordCall(G7(), "B");
    assert r.es[7].next == [8] && |r.es| == 10;
    assert r.stack == G8().stack;
    assert r == G8();
    hide RecordCall;
  }

  lemma Taken9()
    ensures G9() == RecordTake(G8(), Small(0), BIG, Space([], END), 0, 2)
  {
    Rounded();
    var r := RecordTake(G8(), Small(0), BIG, Space([], END), 0, 2);
    assert r.es[9].next == [10];
    assert [10] + [] == [10];
  }

  lemma Step9()
    ensures Goes(Plain(G8()), [{Small(PAGE + TINY)}, {}], Want4M(), Plain(G9()), [{Small(PAGE + TINY)}, {Small(0)}])
  {
    hide G7;
    Arenas();
    var live: seq<Span>, inner: Held := [Span(PAGE + TINY, TINY)], {};
    assert live[0].offset == PAGE + TINY;
    assert inner + {Small(0)} == {Small(0)};
    Rounded();
    Search9();
    Taken9();
    hide SmallOffset, AlignUp, RecordTake, Goes;
    Takes(G8(), [{Small(PAGE + TINY)}, {}], live, BIG, 0, G9(), [{Small(PAGE + TINY)}, {Small(0)}]);
  }

  lemma Taken10()
    ensures G10() == RecordTake(G9(), Small(HALF), BIG, Space([], END), 0, 2)
  {
    Rounded();
    var r := RecordTake(G9(), Small(HALF), BIG, Space([], END), 0, 2);
    assert r.es[10].next == [11];
    assert [11] + [10] == [11, 10];
  }

  lemma Step10()
    ensures Goes(Plain(G9()), [{Small(PAGE + TINY)}, {Small(0)}], Want4M(), Plain(G10()), [{Small(PAGE + TINY)}, {Small(0), Small(HALF)}])
  {
    hide G8;
    Arenas();
    var live: seq<Span>, inner: Held := [Span(0, HALF), Span(PAGE + TINY, TINY)], {Small(0)};
    assert live[0].offset == 0;
    assert live[1].offset == PAGE + TINY;
    assert inner + {Small(HALF)} == {Small(0), Small(HALF)};
    Rounded();
    Search10();
    Taken10();
    hide SmallOffset, AlignUp, RecordTake, Goes;
    Takes(G9(), [{Small(PAGE + TINY)}, {Small(0)}], live, BIG, HALF, G10(), [{Small(PAGE + TINY)}, {Small(0), Small(HALF)}]);
  }

  lemma Taken11()
    ensures G11() == RecordTake(G10(), Small(PAGE), TINY, Space([], END), 0, 2)
  {
    Rounded();
    var r := RecordTake(G10(), Small(PAGE), TINY, Space([], END), 0, 2);
    assert r.es[11].next == [12];
    assert [12] + [11, 10] == [12, 11, 10];
  }

  lemma Step11()
    ensures Goes(Plain(G10()), [{Small(PAGE + TINY)}, {Small(0), Small(HALF)}], Want4K(), Plain(G11()), [{Small(PAGE + TINY)}, {Small(0), Small(HALF), Small(PAGE)}])
  {
    hide G9;
    Arenas();
    var live: seq<Span>, inner: Held := [Span(0, HALF), Span(HALF, HALF), Span(PAGE + TINY, TINY)], {Small(0), Small(HALF)};
    assert live[0].offset == 0;
    assert live[1].offset == HALF;
    assert live[2].offset == PAGE + TINY;
    assert inner + {Small(PAGE)} == {Small(0), Small(HALF), Small(PAGE)};
    Rounded();
    Search11();
    Taken11();
    hide SmallOffset, AlignUp, RecordTake, Goes;
    Takes(G10(), [{Small(PAGE + TINY)}, {Small(0), Small(HALF)}], live, TINY, PAGE, G11(), [{Small(PAGE + TINY)}, {Small(0), Small(HALF), Small(PAGE)}]);
  }

  // ---------------------------------------------------------------- B is left with three allocations, and entered again

  lemma Cut12()
    ensures SeverTop(G11(), 12) == K1()
  {
    var r := SeverTop(G11(), 12);
    assert G11().es[12] == Event(Take(Small(PAGE), TINY), 11, []) && G11().es[11] == Event(Take(Small(HALF), BIG), 10, [12]);
    assert Spliced([12], 12, []) == [];
    assert Untrack([12, 11, 10], 12) == [11, 10];
    assert forall n :: 0 <= n < 13 ==> r.es[n] == K1().es[n];
    assert r.es == K1().es;
  }

  lemma Cut11()
    ensures SeverTop(K1(), 11) == K2()
  {
    var r := SeverTop(K1(), 11);
    assert K1().es[11] == Event(Take(Small(HALF), BIG), 10, []) && K1().es[10] == Event(Take(Small(0), BIG), 9, [11]);
    assert K1().es[12] == Event(Take(Small(PAGE), TINY), 11, []);
    assert Spliced([11], 11, []) == [];
    assert Untrack([11, 10], 11) == [10];
    assert forall n :: 0 <= n < 13 ==> r.es[n] == K2().es[n];
    assert r.es == K2().es;
  }

  lemma Cut10()
    ensures SeverTop(K2(), 10) == Cut()
  {
    var r := SeverTop(K2(), 10);
    assert K2().es[10] == Event(Take(Small(0), BIG), 9, []) && K2().es[9] == Event(Scope(Last, 2), 0, [10]);
    assert K2().es[11] == Event(Take(Small(HALF), BIG), 10, []) && K2().es[12] == Event(Take(Small(PAGE), TINY), 10, []);
    assert Spliced([10], 10, []) == [];
    assert Untrack([10], 10) == [];
    assert forall n :: 0 <= n < 13 ==> r.es[n] == Cut().es[n];
    assert r.es == Cut().es;
  }

  lemma Collected()
    ensures Collect(Plain(G11())) == World(Cut(), {10, 11, 12}, Left3, B0, [])
  {
    Rounded();
    Cut12();
    Cut11();
    Cut10();
    var w := Plain(G11());
    var w1 := Forsake(w, 12);
    var w2 := Forsake(w1, 11);
    var w3 := Forsake(w2, 10);
    hide SeverTop, AlignUp;
    assert w1 == World(K1(), {12}, Left3[2..], B0, []);
    assert w2 == World(K2(), {11, 12}, Left3[1..], B0, []);
    assert w3 == World(Cut(), {10, 11, 12}, Left3, B0, []);
    assert Collect(w) == Collect(w1) == Collect(w2) == Collect(w3) == w3;
  }

  lemma Ended()
    ensures RecordEnd(Cut()) == G12()
  {
    var r := RecordEnd(Cut());
    assert r.es[9].next == [13];
    assert r.stack == [Holder];
  }

  lemma LeavesB()
    ensures Do(Plain(G11()), Ask(PopReq, false)) == (W12(), Done)
  {
    Collected();
    Ended();
    CutShape();
    hide Collect, RecordEnd, G11, Cut, G12;
  }

  lemma CutShape()
    ensures var (g, c) := (G11(), Cut());
      && !g.failed && g.stack != [] && Top(g).recording && Top(g).cursor < |g.es|
      && c.stack != [] && Top(c).cursor < |c.es| && G12().stack != []
  {}

  lemma Step12()
    ensures Goes(Plain(G11()), [{Small(PAGE + TINY)}, {Small(0), Small(HALF), Small(PAGE)}], Asks(PopReq), W12(), [{Small(PAGE + TINY)}])
  {
    hide Do, G11, G12;
    LeavesB();
  }

  lemma Step13()
    ensures Goes(W12(), [{Small(PAGE + TINY)}], Asks(PushReq("B")), W13(), [{Small(PAGE + TINY)}, {}])
  {
    assert G12().es[7].next == [8] && G12().es[8] == Event(Call("B", 9), 7, []);
    assert Find(G12().es, 7, KCall("B")) == Child(8);
  }

  lemma RunOfMissed()
    ensures MovesOk(NewWorld(false), [{}], Missed)
    ensures RunWorld(NewWorld(false), [{}], DeedsOf(NewWorld(false), Missed)).0 == W13()
  {
    hide MovesOk, RunWorld, DeedsOf, Goes;
    SecondHalf();
    var h, p, q := Small(HALF), Small(PAGE), Small(PAGE + TINY);
    Step1(); Step2(); Step3(); Step4(); Step5(); Step6();
    GoesOn(Plain(G5()), [{h, p, q}], Missed[5..], Plain(G6()), [{p, q}]);
    GoesOn(Plain(G4()), [{Small(0), h, p, q}], Missed[4..], Plain(G5()), [{h, p, q}]);
    GoesOn(Plain(G3()), [{Small(0), h, p}], Missed[3..], Plain(G4()), [{Small(0), h, p, q}]);
    GoesOn(Plain(G2()), [{Small(0), h}], Missed[2..], Plain(G3()), [{Small(0), h, p}]);
    GoesOn(Plain(G1()), [{Small(0)}], Missed[1..], Plain(G2()), [{Small(0), h}]);
    assert Missed[0..] == Missed && NewWorld(false) == Plain(Created(false));
    GoesOn(NewWorld(false), [{}], Missed, Plain(G1()), [{Small(0)}]);
  }

  lemma NothingLeft(w: World, ledger: Ledger)
    requires w.b == B0
    ensures MovesOk(w, ledger, []) && RunWorld(w, ledger, DeedsOf(w, [])).0 == w
  {}

  lemma SecondHalf()
    ensures MovesOk(Plain(G6()), [{Small(PAGE), Small(PAGE + TINY)}], Missed[6..])
    ensures RunWorld(Plain(G6()), [{Small(PAGE), Small(PAGE + TINY)}], DeedsOf(Plain(G6()), Missed[6..])).0 == W13()
  {
    hide MovesOk, RunWorld, DeedsOf, Goes;
    LastSteps();
    var h, p, q := Small(HALF), Small(PAGE), Small(PAGE + TINY);
    Step7(); Step8(); Step9();
    GoesOn(Plain(G8()), [{q}, {}], Missed[8..], Plain(G9()), [{q}, {Small(0)}]);
    GoesOn(Plain(G7()), [{q}], Missed[7..], Plain(G8()), [{q}, {}]);
    GoesOn(Plain(G6()), [{p, q}], Missed[6..], Plain(G7()), [{q}]);
  }

  lemma LastSteps()
    ensures MovesOk(Plain(G9()), [{Small(PAGE + TINY)}, {Small(0)}], Missed[9..])
    ensures RunWorld(Plain(G9()), [{Small(PAGE + TINY)}, {Small(0)}], DeedsOf(Plain(G9()), Missed[9..])).0 == W13()
  {
    hide MovesOk, RunWorld, DeedsOf, Goes;
    NothingLeft(W13(), [{Small(PAGE + TINY)}, {}]);
    assert Missed[13..] == [];
    var h, p, q := Small(HALF), Small(PAGE), Small(PAGE + TINY);
    Step10(); Step11(); Step12(); Step13();
    GoesOn(W12(), [{q}], Missed[12..], W13(), [{q}, {}]);
    GoesOn(Plain(G11()), [{q}, {Small(0), h, p}], Missed[11..], W12(), [{q}]);
    GoesOn(Plain(G10()), [{q}, {Small(0), h}], Missed[10..], Plain(G11()), [{q}, {Small(0), h, p}]);
    GoesOn(Plain(G9()), [{q}, {Small(0)}], Missed[9..], Plain(G10()), [{q}, {Small(0), h}]);
  }

  // ---------------------------------------------------------------- the search that misses a page

  const Pages := [Span(PAGE + TINY, TINY), Span(0, PAGE), Span(0, PAGE), Span(PAGE, PAGE)]

  lemma Rebuilt()
    ensures Ready(W13().g) == W13().g.(alloc := Last, stack := [Holder, Frame(9, [], 2, true, true)])
  {
    assert W13().g.es[9].kind == Scope(Last, 2);
  }

  lemma SpansOfW13()
    ensures SpansAround(W13().(g := Ready(W13().g))) == Pages
  {
    hide Listing, Ready, LeakSpans, Lists;
    Rebuilt();
    var live := [Span(PAGE + TINY, TINY)];
    LastIsListed(live);
    ListingIs(Last, END, live);
    LeakedPages();
    W13Limits();
    assert RogueSpans([]) == [];
  }

  lemma W13Limits()
    ensures W13().g.space == Space([], END) && W13().leaks == Left3 && W13().rogues == []
    ensures !W13().g.failed && W13().g.smallPages == 2 && W13().g.physCount == 0 && W13().b == B0
    ensures W13().g.stack == [Holder, Frame(9, [], 2, false, false)] && |W13().g.es| == 14
    ensures W13().g.es[9].next == [13] && W13().g.es[13].kind == End && !W13().g.assertBreaks
  {}

  lemma LastIsListed(live: seq<Span>)
    requires live == [Span(PAGE + TINY, TINY)]
    ensures Lists(live, Last)
  {
    assert live[0].offset == PAGE + TINY;
  }

  lemma LeakedPages()
    ensures LeakSpans(Left3) == [Span(0, PAGE), Span(0, PAGE), Span(PAGE, PAGE)]
  {
    assert AlignUp(BIG, PAGE) == PAGE && AlignUp(HALF + BIG, PAGE) == PAGE && AlignUp(PAGE + TINY, PAGE) == 2 * PAGE;
    assert PageSpan(Span(0, BIG)) == Span(0, PAGE);
    assert PageSpan(Span(HALF, BIG)) == Span(0, PAGE);
    assert PageSpan(Span(PAGE, TINY)) == Span(PAGE, PAGE);
    assert LeakSpans(Left3[3..]) == [];
    assert LeakSpans(Left3[2..]) == [Span(PAGE, PAGE)];
    assert LeakSpans(Left3[1..]) == [Span(0, PAGE), Span(PAGE, PAGE)];
  }

  /** The scan meets the range at the end of the heap before the pages, and keeps its end. */
  lemma SearchMisses()
    ensures SmallOffset(Pages, END, TINY) == END
  {
    assert Scan(0, Pages, 0) == Seen(NONE, 0);
    assert Scan(0, Pages, 1) == Seen(PAGE + TINY, END);
    assert Scan(0, Pages, 2) == Seen(0, END);
    assert Scan(0, Pages, 3) == Seen(0, END);
    assert Scan(0, Pages, 4) == Seen(0, END);
    assert Sweep(Pages, END, TINY, END, Best(END, NONE)) == (Best(END, NONE), END);
    assert Sweep(Pages, END, TINY, 0, Best(END, NONE)) == (Best(END, NONE), END);
  }

  /** After the run, 4 KiB more are handed out on the page of a candidate that nobody has freed. */
  lemma BlockedPageIsReached()
    ensures MovesOk(NewWorld(false), [{}], Missed)
    ensures var w := RunWorld(NewWorld(false), [{}], DeedsOf(NewWorld(false), Missed)).0;
      && w.b == B0 && !w.g.failed && |w.leaks| == 3 && w.leaks[2] == Leak(Small(PAGE), TINY, TINY, 12, false)
      && var answer := Do(w, DeedOf(w, Want4K())).1;
        answer.Pointer? && answer.loc.Small? && !OffPages(answer.loc.offset, TINY, PAGE, TINY)
  {
    hide MovesOk, RunWorld, DeedsOf, Do, DeedOf, W13;
    RunOfMissed();
    W13Limits();
    LastStep();
    assert AlignUp(PAGE + TINY, PAGE) == 2 * PAGE;
  }

  lemma LastStep()
    ensures Do(W13(), DeedOf(W13(), Want4K())).1 == Pointer(Small(END))
  {
    hide SpansAround, Ready, SmallOffset, AlignUp, Extended, RecordTake, W13, PlaceIn;
    W13Limits();
    Rebuilt();
    NoMatch();
    LastPlace();
  }

  lemma NoMatch()
    ensures FindOffer(W13(), [13], KTake(false, TINY), 0) == 1
  {
    hide W13, Available;
    W13Limits();
    assert !Offers(W13(), 13, KTake(false, TINY));
    assert FindOffer(W13(), [13], KTake(false, TINY), 1) == 1;
  }

  lemma LastPlace()
    ensures var place := PlaceIn(W13(), TINY, Driver(0, false), Mapped); place.Place? && place.loc == Small(END)
  {
    hide SpansAround, Ready, SmallOffset, AlignUp, W13;
    W13Limits();
    Rebuilt();
    SpansOfW13();
    SearchMisses();
    RoundedEnd();
    assert SpansOk(Pages);
  }

  lemma RoundedEnd()
    ensures AlignUp(TINY, SMALL_ALIGN) == TINY && AlignUp(END + TINY, PAGE) == 2 * PAGE
  {}
}
