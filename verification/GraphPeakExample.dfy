/**
  A concrete run in which more pages are created than any node of the tree has live: scope B breaks
  inside A, which replays and holds a page, and the root then allocates on the stale state.
*/
module GraphPeakExample {
  import opened GraphModel
  import opened GraphTree
  import opened GraphRuns
  import opened GraphPages
  import opened GraphSmall
  import opened GraphPeak
  import opened GraphPlaced
  import opened GraphExample

  function Plain(q: Request): Command {
    Command(q, Driver(1, false), Mapped)
  }

  const First := AllocReq(PAGE, FirstPlace)
  const Second := AllocReq(PAGE, SecondPlace)

  /** The first pass records A, with a page held around B; the second breaks B by a new scope C. */
  const Missing := [
    Plain(PushReq("A")), Plain(First), Plain(PushReq("B")), Plain(PopReq), Plain(FreeReq(Large(0))), Plain(PopReq),
    Plain(PushReq("A")), Plain(First), Plain(PushReq("B")), Plain(PushReq("C")), Plain(PopReq), Plain(PopReq),
    Plain(FreeReq(Large(0))), Plain(PopReq), Plain(Second)]

  // ---------------------------------------------------------------- the states of the run

  const Root := Frame(0, [], 1, true, false)
  const OnePage := Space([0], 0)

  const S1 := Graph([Event(Scope(map[], 1), 0, [1]), Event(Call("A", 2), 0, []), Event(Scope(map[], 2), 0, [])],
                    [Root, Frame(2, [], 2, true, false)], map[], Space([], 0), 0, 0, false, false)
  const S2 := Graph([Event(Scope(map[], 1), 0, [1]), Event(Call("A", 2), 0, []), Event(Scope(map[], 2), 0, [3]),
                     Event(Take(Large(0), PAGE), 2, [])],
                    [Root, Frame(3, [3], 2, true, false)], Held, OnePage, 1, 0, false, false)
  const S4 := InB.(es := InB.es[5 := Event(Scope(Held, 3), 0, [6])] + [Event(End, 5, [])], stack := InB.stack[..2])
  const S5 := S4.(es := S4.es[3 := Event(Take(Large(0), PAGE), 2, [4, 7])] + [Event(Drop(Large(0)), 3, [])],
                  stack := [Root, Frame(7, [], 2, true, false)], alloc := map[])
  const S7 := Recorded.(stack := [Root, Frame(2, [], 2, false, false)])
  const S8 := Recorded.(stack := [Root, Frame(3, [], 2, false, false)])
  const S9 := Recorded.(stack := [Root, Frame(3, [], 2, false, false), Frame(5, [], 3, false, false)])
  const S10 := S9.(es := Recorded.es[5 := Event(Scope(Held, 3), 0, [6, 9])] +
                         [Event(Call("C", 10), 5, []), Event(Scope(Held, 4), 0, [])],
                   stack := [Root, Frame(3, [], 2, false, false), Frame(5, [], 3, true, true), Frame(10, [], 4, true, false)],
                   alloc := Held)
  const S11 := S10.(es := S10.es[10 := Event(Scope(Held, 4), 0, [11])] + [Event(End, 10, [])], stack := S10.stack[..3])
  const S12 := S11.(es := S11.es[5 := Event(Scope(Held, 3), 0, [6, 9, 12])] + [Event(End, 5, [])], stack := S11.stack[..2])
  const S13 := S12.(stack := [Root, Frame(7, [], 2, false, false)])
  const S14 := S12.(stack := [Root])
  const S15 := S14.(es := S14.es[0 := Event(Scope(map[], 1), 0, [1, 13])] + [Event(Take(Large(1), PAGE), 0, [])],
                    stack := [Frame(13, [13], 1, true, false)], alloc := Held[Large(1) := Entry(1, 1, 13)],
                    space := Space([0, 1], 0), physCount := 2)

  const ZERO: set<Loc> := {Large(0)}

  /** One command of a fair, placed run with the ledger before and after it. */
  predicate Goes(g: Graph, ledger: Ledger, c: Command, r: Graph, ledger': Ledger) {
    && Fair(ledger, c.q) && Placed(g, c) && Step(g, c.q).0 == r
    && Record(ledger, c.q, Step(g, c.q).1, r.failed) == ledger'
  }

  lemma GoesOn(g: Graph, ledger: Ledger, cs: seq<Command>, r: Graph, ledger': Ledger)
    requires cs != [] && Goes(g, ledger, cs[0], r, ledger') && PlacedRun(r, ledger', cs[1..])
    ensures PlacedRun(g, ledger, cs) && Run(g, ledger, Requests(cs)) == Run(r, ledger', Requests(cs[1..]))
  {
    assert Requests(cs)[0] == cs[0].q && Requests(cs)[1..] == Requests(cs[1..]);
  }

  lemma Ledgers()
    ensures var e: set<Loc> := {};
      e + {Large(0)} == ZERO && ZERO - {Large(0)} == e && e + {Large(1)} == {Large(1)} &&
      [e, e][1 := ZERO] == [e, ZERO] && [e, ZERO][1 := e] == [e, e] && [e][0 := {Large(1)}] == [{Large(1)}]
  {}

  lemma Step1()
    ensures Goes(Created(false), [{}], Plain(PushReq("A")), S1, [{}, {}])
  {
    var r := Step(Created(false), PushReq("A")).0;
    assert r.es[0].next == [1] && |r.es| == 3;
    assert r.es == S1.es;
  }

  lemma Step2()
    ensures Goes(S1, [{}, {}], Plain(First), S2, [{}, ZERO])
  {
    Ledgers();
    FreshOn(S1, 0);
    var r := Step(S1, First).0;
    assert Units(Large(0), PAGE) == 1;
    assert r.es[2].next == [3] && |r.es| == 4;
    assert [3] + [] == [3];
    assert r.es == S2.es;
    assert r == S2;
  }

  lemma Step3()
    ensures Goes(S2, [{}, ZERO], Plain(PushReq("B")), InB, [{}, ZERO, {}])
  {
    var r := Step(S2, PushReq("B")).0;
    assert r.es[3].next == [4] && |r.es| == 6;
    assert r.es == InB.es;
    assert r.stack == InB.stack;
  }

  lemma Step4()
    ensures Goes(InB, [{}, ZERO, {}], Plain(PopReq), S4, [{}, ZERO])
  {
    var r := Step(InB, PopReq).0;
    assert r.es[5].next == [6];
  }

  lemma Step5()
    ensures Goes(S4, [{}, ZERO], Plain(FreeReq(Large(0))), S5, [{}, {}])
  {
    Ledgers();
    var r := Step(S4, FreeReq(Large(0))).0;
    assert [{}, ZERO][1] == ZERO;
    assert Untrack([3], 3) == [];
    assert r.es[3].next == [4, 7];
    assert r.stack == S5.stack;
    assert r.alloc == map[];
  }

  lemma Step6()
    ensures Goes(S5, [{}, {}], Plain(PopReq), Recorded, [{}])
  {
    var r := Step(S5, PopReq).0;
    assert r.es[7].next == [8] && |r.es| == 9;
    assert r.es == Recorded.es;
    assert r.stack == [Root];
  }

  lemma Step7()
    ensures Goes(Recorded, [{}], Plain(PushReq("A")), S7, [{}, {}])
  {}

  lemma Step8()
    ensures Goes(S7, [{}, {}], Plain(First), S8, [{}, ZERO])
  {
    Ledgers();
    ReusedOn(Ready(S7));
  }

  lemma Step9()
    ensures Goes(S8, [{}, ZERO], Plain(PushReq("B")), S9, [{}, ZERO, {}])
  {}

  lemma Step10()
    ensures Goes(S9, [{}, ZERO, {}], Plain(PushReq("C")), S10, [{}, ZERO, {}, {}])
  {
    var r := Step(S9, PushReq("C")).0;
    assert Meaning(S9.es, 5) == Sem(Held, [], 3, 5);
    assert r.es[5].next == [6, 9] && |r.es| == 11;
    assert r.es == S10.es;
    assert r.stack == S10.stack;
  }

  lemma Step11()
    ensures Goes(S10, [{}, ZERO, {}, {}], Plain(PopReq), S11, [{}, ZERO, {}])
  {
    var r := Step(S10, PopReq).0;
    assert r.es[10].next == [11];
  }

  lemma Step12()
    ensures Goes(S11, [{}, ZERO, {}], Plain(PopReq), S12, [{}, ZERO])
  {
    var r := Step(S11, PopReq).0;
    assert r.es[5].next == [6, 9, 12];
  }

  lemma Step13()
    ensures Goes(S12, [{}, ZERO], Plain(FreeReq(Large(0))), S13, [{}, {}])
  {
    Ledgers();
    assert [{}, ZERO][1] == ZERO;
    assert S12.es[3] == Recorded.es[3] && S12.es[4] == Recorded.es[4] && S12.es[7] == Recorded.es[7];
  }

  lemma Step14()
    ensures Goes(S13, [{}, {}], Plain(PopReq), S14, [{}])
  {
    assert S13.es[7] == Recorded.es[7] && S13.es[8] == Recorded.es[8];
  }

  lemma Step15()
    ensures Goes(S14, [{}], Plain(Second), S15, [{Large(1)}])
  {
    Ledgers();
    FreshOn(S14, 1);
    var r := Step(S14, Second).0;
    assert Units(Large(1), PAGE) == 1;
    assert r.es[0].next == [1, 13];
    assert [13] + [] == [13];
    assert r.stack == S15.stack;
  }

  // ---------------------------------------------------------------- where the search goes

  /** With every page live, a page goes to a fresh virtual page behind a new physical one. */
  lemma FreshOn(g: Graph, n: nat)
    requires n <= 1 && g.space == Space(if n == 0 then [] else [0], 0) && g.physCount == n && g.smallPages == 0
    requires g.alloc == if n == 0 then map[] else Held
    ensures PlaceFor(g, PAGE, Driver(1, false), Mapped) == if n == 0 then First.place else Second.place
  {
    var live := LivePages(g.space, g.alloc, n);
    if n == 1 {
      assert g.space.vaPhys[0] == 0;
      assert Backs(g.space, Large(0), 1, 0);
      assert Large(0) in g.alloc && g.alloc[Large(0)].units == 1;
      assert Live(g.space, g.alloc, 0);
      assert 0 in live;
    }
    assert live == if n == 0 then {} else {0};
    assert Units(Large(0), PAGE) == 1;
    var bars := Bars(live, {}, {});
    if n == 1 {
      assert !PageFree(g.space.vaPhys, bars, 0);
      assert !WindowFits(g.space.vaPhys, bars, 0, 1);
    }
    assert FirstWindow(g.space.vaPhys, bars, 1, 0) == NoWindow;
    assert live + {} == live;
    var c := Choose(live, n, 0);
    assert live + Elements(c.chosen) == live;
    assert NextFree(live, n, 0) == n;
    assert Choose(live, n, 1) == Choice([n], n + 1);
    assert g.space.vaPhys + Ints([n]) == if n == 0 then [0] else [0, 1];
  }

  lemma ReusedOn(g: Graph)
    requires g.space == OnePage && g.alloc == map[] && g.physCount == 1 && g.smallPages == 0
    ensures PlaceFor(g, PAGE, Driver(1, false), Mapped) == First.place
  {
    var live := LivePages(g.space, g.alloc, 1);
    assert live == {};
    assert Units(Large(0), PAGE) == 1;
    assert WindowFits(g.space.vaPhys, Bars(live, {}, {}), 0, 1);
  }

  // ---------------------------------------------------------------- what is live at each node

  /** A state with at most one allocation, of one page, has at most one page live. */
  lemma OneIsLive(sp: Space, a: Alloc, va: nat, count: nat)
    requires va < |sp.vaPhys| && sp.vaPhys[va] >= 0
    requires forall l :: l in a ==> l == Large(va) && a[l].units == 1
    ensures |LivePages(sp, a, count)| <= 1
  {
    forall p | p in LivePages(sp, a, count) ensures p == sp.vaPhys[va] {
      var l :| l in a && Backs(sp, l, a[l].units, p);
    }
    SubsetSize(LivePages(sp, a, count), {sp.vaPhys[va] as nat});
  }

  lemma EarlyNodes()
    ensures var es := S15.es;
      && Meaning(es, 0).alloc == map[] && Meaning(es, 1).alloc == map[] && Meaning(es, 2).alloc == map[]
      && Meaning(es, 3).alloc == Held && Meaning(es, 4).alloc == Held && Meaning(es, 5).alloc == Held
      && Meaning(es, 7).alloc == map[] && Meaning(es, 8).alloc == map[]
  {
    var es := S15.es;
    assert es[0].kind == Scope(map[], 1) && es[2].kind == Scope(map[], 2) && es[5].kind == Scope(Held, 3);
    assert es[3] == Event(Take(Large(0), PAGE), 2, [4, 7]);
    assert Units(Large(0), PAGE) == 1;
    assert Meaning(es, 2).alloc == map[];
    assert Meaning(es, 3).alloc == Held;
  }

  lemma LateNodes()
    ensures var es := S15.es;
      && |es| == 14
      && Meaning(es, 6).alloc == Held && Meaning(es, 9).alloc == Held && Meaning(es, 10).alloc == Held
      && Meaning(es, 11).alloc == Held && Meaning(es, 12).alloc == Held
      && Meaning(es, 13).alloc == map[Large(1) := Entry(1, 1, 13)]
  {
    var es := S15.es;
    assert es[0].kind == Scope(map[], 1) && es[5].kind == Scope(Held, 3) && es[10].kind == Scope(Held, 4);
    assert es[13] == Event(Take(Large(1), PAGE), 0, []);
    assert Units(Large(1), PAGE) == 1;
  }

  /** No node means more than one page. */
  lemma NodesAreSmall(n: nat)
    requires n < |S15.es|
    ensures NodeCount(S15, n) <= 1
  {
    EarlyNodes();
    LateNodes();
    hide Meaning;
    OneIsLive(S15.space, Meaning(S15.es, n).alloc, if n == 13 then 1 else 0, S15.physCount);
  }

  /** Two pages are created, and no node of the tree has more than one live. */
  lemma TreePeakIsMissed()
    ensures PlacedRun(Created(false), [{}], Missing)
    ensures var r := Run(Created(false), [{}], Requests(Missing)).0;
      !r.failed && r.physCount == 2 && forall n :: 0 <= n < |r.es| ==> NodeCount(r, n) < r.physCount
  {
    hide PlacedRun, Run, Requests, Goes, NodeCount;
    FromCreated();
    forall n | 0 <= n < |S15.es| ensures NodeCount(S15, n) < 2 { NodesAreSmall(n); }
  }

  lemma FromCreated()
    ensures PlacedRun(Created(false), [{}], Missing) && Run(Created(false), [{}], Requests(Missing)).0 == S15
  {
    hide PlacedRun, Run, Requests, Goes;
    FromRecorded();
    Step1(); Step2(); Step3(); Step4(); Step5(); Step6();
    GoesOn(S5, [{}, {}], Missing[5..], Recorded, [{}]);
    GoesOn(S4, [{}, ZERO], Missing[4..], S5, [{}, {}]);
    GoesOn(InB, [{}, ZERO, {}], Missing[3..], S4, [{}, ZERO]);
    GoesOn(S2, [{}, ZERO], Missing[2..], InB, [{}, ZERO, {}]);
    GoesOn(S1, [{}, {}], Missing[1..], S2, [{}, ZERO]);
    assert Missing[0..] == Missing;
    GoesOn(Created(false), [{}], Missing, S1, [{}, {}]);
  }

  lemma NothingLeft(g: Graph, ledger: Ledger)
    ensures PlacedRun(g, ledger, []) && Run(g, ledger, Requests([])).0 == g
  {}

  lemma FromRecorded()
    ensures PlacedRun(Recorded, [{}], Missing[6..]) && Run(Recorded, [{}], Requests(Missing[6..])).0 == S15
  {
    NothingLeft(S15, [{Large(1)}]);
    hide PlacedRun, Run, Requests, Goes;
    Step7(); Step8(); Step9(); Step10(); Step11(); Step12(); Step13(); Step14(); Step15();
    assert Missing[15..] == [];
    GoesOn(S14, [{}], Missing[14..], S15, [{Large(1)}]);
    GoesOn(S13, [{}, {}], Missing[13..], S14, [{}]);
    GoesOn(S12, [{}, ZERO], Missing[12..], S13, [{}, {}]);
    GoesOn(S11, [{}, ZERO, {}], Missing[11..], S12, [{}, ZERO]);
    GoesOn(S10, [{}, ZERO, {}, {}], Missing[10..], S11, [{}, ZERO, {}]);
    GoesOn(S9, [{}, ZERO, {}], Missing[9..], S10, [{}, ZERO, {}, {}]);
    GoesOn(S8, [{}, ZERO], Missing[8..], S9, [{}, ZERO, {}]);
    GoesOn(S7, [{}, {}], Missing[7..], S8, [{}, ZERO]);
    GoesOn(Recorded, [{}], Missing[6..], S7, [{}, {}]);
  }
}
