/**
  A concrete run after which a balanced, leak-free push and pop has left the recorder's state
  different from what the caller means: scope A replays holding one page, scope B breaks inside
  it, A frees the page by replay and ends, and the page is still marked live for the root frame.
*/
module GraphExample {
  import opened GraphModel

  const ONE_PAGE := PAGE
  const FirstPlace := Place(Large(0), Space([0], 0), 1, 0)
  const SecondPlace := Place(Large(1), Space([0, 1], 0), 2, 0)

  function Then(g: Graph, q: Request): Graph {
    Step(g, q).0
  }

  /** The root records A, which allocates, calls B and frees. */
  const Recorded :=
    Graph([Event(Scope(map[], 1), 0, [1]),
           Event(Call("A", 2), 0, []), Event(Scope(map[], 2), 0, [3]),
           Event(Take(Large(0), ONE_PAGE), 2, [4, 7]),
           Event(Call("B", 5), 3, []), Event(Scope(map[Large(0) := Entry(1, 2, 3)], 3), 0, [6]), Event(End, 5, []),
           Event(Drop(Large(0)), 3, [8]), Event(End, 7, [])],
          [Frame(0, [], 1, true, false)], map[], Space([0], 0), 1, 0, false, false)

  const Held := map[Large(0) := Entry(1, 2, 3)]

  /** Inside B for the first time. */
  const InB :=
    Graph([Event(Scope(map[], 1), 0, [1]),
           Event(Call("A", 2), 0, []), Event(Scope(map[], 2), 0, [3]),
           Event(Take(Large(0), ONE_PAGE), 2, [4]),
           Event(Call("B", 5), 3, []), Event(Scope(Held, 3), 0, [])],
          [Frame(0, [], 1, true, false), Frame(3, [3], 2, true, false), Frame(5, [], 3, true, false)],
          Held, Space([0], 0), 1, 0, false, false)

  lemma ToInB()
    ensures Then(Then(Then(Created(false), PushReq("A")), AllocReq(ONE_PAGE, FirstPlace)), PushReq("B")) == InB
  {
    var g1 := Then(Created(false), PushReq("A"));
    assert g1.es[0].next == [1] && |g1.es| == 3;
    assert g1.es == [Event(Scope(map[], 1), 0, [1]), Event(Call("A", 2), 0, []), Event(Scope(map[], 2), 0, [])];
    var g2 := Then(g1, AllocReq(ONE_PAGE, FirstPlace));
    assert Units(Large(0), ONE_PAGE) == 1;
    assert g2.es[2].next == [3] && |g2.es| == 4;
    assert [3] + [] == [3];
    assert g2.stack == [Frame(0, [], 1, true, false), Frame(3, [3], 2, true, false)];
    assert g2.alloc == Held;
    var g3 := Then(g2, PushReq("B"));
    assert g3.es[3].next == [4] && |g3.es| == 6;
    assert g3.es == InB.es;
  }

  lemma FromInB()
    ensures Then(Then(Then(InB, PopReq), FreeReq(Large(0))), PopReq) == Recorded
  {
    var g4 := Then(InB, PopReq);
    assert g4.es[5].next == [6] && |g4.es| == 7;
    assert g4.stack == [Frame(0, [], 1, true, false), Frame(3, [3], 2, true, false)];
    var g5 := Then(g4, FreeReq(Large(0)));
    assert g5.es[3].next == [4, 7] && |g5.es| == 8;
    assert Untrack([3], 3) == [];
    assert g5.stack == [Frame(0, [], 1, true, false), Frame(7, [], 2, true, false)];
    assert g5.alloc == map[];
    var g6 := Then(g5, PopReq);
    assert g6.es[7].next == [8] && |g6.es| == 9;
    assert g6.es == Recorded.es;
  }

  /** B breaks inside the replaying A. */
  const Broken :=
    Recorded.(es := Recorded.es[5 := Event(Scope(Held, 3), 0, [6, 9])] + [Event(Take(Large(1), ONE_PAGE), 5, [])],
              stack := [Frame(0, [], 1, true, false), Frame(3, [], 2, false, false), Frame(9, [9], 3, true, true)],
              alloc := Held[Large(1) := Entry(1, 3, 9)], space := Space([0, 1], 0), physCount := 2)

  lemma ToInnerCall()
    ensures Then(Then(Then(Recorded, PushReq("A")), AllocReq(ONE_PAGE, FirstPlace)), PushReq("B")) ==
            Recorded.(stack := [Frame(0, [], 1, true, false), Frame(3, [], 2, false, false), Frame(5, [], 3, false, false)])
  {
    var g1 := Then(Recorded, PushReq("A"));
    assert g1 == Recorded.(stack := [Frame(0, [], 1, true, false), Frame(2, [], 2, false, false)]);
    var g2 := Then(g1, AllocReq(ONE_PAGE, FirstPlace));
    assert g2 == Recorded.(stack := [Frame(0, [], 1, true, false), Frame(3, [], 2, false, false)]);
  }

  lemma ToBroken()
    ensures Then(Recorded.(stack := [Frame(0, [], 1, true, false), Frame(3, [], 2, false, false), Frame(5, [], 3, false, false)]),
                 AllocReq(ONE_PAGE, SecondPlace)) == Broken
  {
    var g3 := Recorded.(stack := [Frame(0, [], 1, true, false), Frame(3, [], 2, false, false), Frame(5, [], 3, false, false)]);
    var g4 := Then(g3, AllocReq(ONE_PAGE, SecondPlace));
    assert Units(Large(1), ONE_PAGE) == 1;
    assert Meaning(Recorded.es, 5) == Sem(Held, [], 3, 5);
    assert [9] + [] == [9];
    assert g4.stack == Broken.stack;
    assert g4.es[5].next == [6, 9] && |g4.es| == 10;
    assert g4.es == Broken.es;
  }

  lemma LeavingB(g: Graph)
    requires g == Then(Then(Broken, FreeReq(Large(1))), PopReq)
    ensures !g.failed && g.stack == [Frame(0, [], 1, true, false), Frame(3, [], 2, false, false)] && g.alloc == Held
    ensures |g.es| > 8 && g.es[0].kind == Recorded.es[0].kind
    ensures g.es[3] == Recorded.es[3] && g.es[4] == Recorded.es[4] && g.es[7] == Recorded.es[7] && g.es[8] == Recorded.es[8]
  {
    var g5 := Then(Broken, FreeReq(Large(1)));
    assert Untrack([9], 9) == [];
    assert g5.stack == [Frame(0, [], 1, true, false), Frame(3, [], 2, false, false), Frame(10, [], 3, true, true)];
    assert g5.alloc == Held;
  }

  lemma LeavingA(g: Graph)
    requires !g.failed && g.stack == [Frame(0, [], 1, true, false), Frame(3, [], 2, false, false)] && |g.es| > 8
    requires g.es[3] == Recorded.es[3] && g.es[4] == Recorded.es[4] && g.es[7] == Recorded.es[7] && g.es[8] == Recorded.es[8]
    ensures Then(Then(g, FreeReq(Large(0))), PopReq) == g.(stack := [Frame(0, [], 1, true, false)])
  {
    var g7 := Then(g, FreeReq(Large(0)));
    assert g7.stack == [Frame(0, [], 1, true, false), Frame(7, [], 2, false, false)];
  }

  lemma FromBroken()
    ensures
      var g := Then(Then(Then(Then(Broken, FreeReq(Large(1))), PopReq), FreeReq(Large(0))), PopReq);
      !g.failed && g.stack == Recorded.stack && g.alloc == Held && Meaning(g.es, 0).alloc == map[]
  {
    var g6 := Then(Then(Broken, FreeReq(Large(1))), PopReq);
    LeavingB(g6);
    LeavingA(g6);
  }

  /** A replays, B breaks inside it, A frees and ends: the page is still live for the recorder and dead for the root. */
  lemma StaleStateIsReached()
    ensures
      var r := Then(Then(Then(Created(false), PushReq("A")), AllocReq(ONE_PAGE, FirstPlace)), PushReq("B"));
      var recorded := Then(Then(Then(r, PopReq), FreeReq(Large(0))), PopReq);
      var inner := Then(Then(Then(recorded, PushReq("A")), AllocReq(ONE_PAGE, FirstPlace)), PushReq("B"));
      var broken := Then(inner, AllocReq(ONE_PAGE, SecondPlace));
      var g := Then(Then(Then(Then(broken, FreeReq(Large(1))), PopReq), FreeReq(Large(0))), PopReq);
      && !g.failed && |g.stack| == 1 && g.stack[0].recording
      && g.alloc == map[Large(0) := Entry(1, 2, 3)] && Meaning(g.es, g.stack[0].cursor).alloc == map[]
  {
    ToInB();
    FromInB();
    ToInnerCall();
    ToBroken();
    FromBroken();
  }
}
