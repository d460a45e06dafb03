/**
  Whole runs of the allocation-graph compiler against a client that keeps its own books:
  the frames' states are exactly what the client holds, everything held is apart, and abort
  registers exactly what is held.
*/
module GraphRuns {
  import opened GraphModel
  import opened GraphTree
  import opened GraphSafety

  /** One set of live allocations per open frame, as the client would write it down. */
  type Ledger = seq<set<Loc>>

  function HeldBy(s: Sem): set<Loc> {
    set l | l in s.alloc && s.alloc[l].ev > s.scope
  }

  predicate Agrees(g: Graph, ledger: Ledger) {
    && |ledger| == |g.stack|
    && forall k :: 0 <= k < |ledger| ==> ledger[k] == HeldBy(Mean(g, k))
  }

  /** The client's bookkeeping from the answers alone; a free that failed the graph leaves the graph responsible. */
  function Record(ledger: Ledger, q: Request, answer: Answer, failed: bool): Ledger {
    match (q, answer)
    case (RootReq, Done) => [{}]
    case (PushReq(_), Done) => ledger + [{}]
    case (PopReq, Done) => if ledger == [] then [] else ledger[..|ledger| - 1]
    case (AllocReq(_, _), Pointer(loc)) => if ledger == [] then [] else ledger[|ledger| - 1 := ledger[|ledger| - 1] + {loc}]
    case (FreeReq(loc), Done) =>
      if failed || ledger == [] then ledger else ledger[|ledger| - 1 := ledger[|ledger| - 1] - {loc}]
    case _ => ledger
  }

  /** A client frees only what it holds, and leaves no frame that still holds something. */
  predicate Fair(ledger: Ledger, q: Request) {
    match q
    case FreeReq(loc) => exists k :: 0 <= k < |ledger| && loc in ledger[k]
    case PopReq => ledger != [] ==> ledger[|ledger| - 1] == {}
    case _ => true
  }

  /** The search places a recorded allocation beside everything the recorder knows. */
  predicate Sound(g: Graph, q: Request) {
    q.AllocReq? && !g.failed && g.stack != [] ==> PlaceOk(Ready(g), q.size, q.place)
  }

  lemma CursorOk(g: Graph)
    requires Inv(g)
    ensures g.stack != [] ==> Top(g).cursor < |g.es|
  {
    if g.stack != [] { assert FrameOk(g, |g.stack| - 1); }
  }

  lemma HeldAfterTake(s: Sem, n: nat, loc: Loc, bytes: nat)
    requires n > s.scope
    ensures HeldBy(Apply(s, n, Take(loc, bytes))) == HeldBy(s) + {loc}
  {
    var t := Apply(s, n, Take(loc, bytes));
    assert forall l :: l in t.alloc <==> l == loc || l in s.alloc;
  }

  lemma HeldAfterDrop(s: Sem, n: nat, loc: Loc)
    ensures HeldBy(Apply(s, n, Drop(loc))) == HeldBy(s) - {loc}
  {}

  lemma NothingTracked(es: Events, sp: Space, s: Sem)
    requires SemOk(es, sp, s)
    ensures s.tracked == [] <==> HeldBy(s) == {}
  {
    if s.tracked != [] {
      assert s.tracked[0] in s.tracked && LiveEvent(es, s.alloc, s.tracked[0]);
      assert es[s.tracked[0]].kind.loc in HeldBy(s);
    } else {
      forall l | l in s.alloc ensures s.alloc[l].ev <= s.scope { assert Accounted(es[s.scope].kind.snapshot, s, l); }
    }
  }

  lemma ScopeIsBefore(g: Graph, k: nat)
    requires Inv(g) && k < |g.stack|
    ensures Mean(g, k).scope <= g.stack[k].cursor < |g.es|
  {
    assert FrameOk(g, k);
    MeaningScope(g.es, g.stack[k].cursor);
  }

  lemma {:induction false} MeaningScope(es: Events, n: nat)
    ensures Meaning(es, n).scope <= n
  {
    if n < |es| && !es[n].kind.Scope? && es[n].prev < n {
      MeaningScope(es, es[n].prev);
      ApplyKeepsScope(Meaning(es, es[n].prev), n, es[n].kind);
    }
  }

  // ---------------------------------------------------------------- each request

  /** What remains to be shown for a step that changes only the innermost frame's state. */
  lemma TopAgrees(g: Graph, r: Graph, ledger: Ledger, held: set<Loc>)
    requires Inv(g) && g.stack != [] && Agrees(g, ledger)
    requires |r.stack| == |g.stack| && Grown(g.es, r.es)
    requires forall k :: 0 <= k < |g.stack| - 1 ==> r.stack[k].cursor == g.stack[k].cursor
    requires HeldBy(Mean(r, |g.stack| - 1)) == held
    ensures Agrees(r, ledger[|ledger| - 1 := held])
  {
    forall k | 0 <= k < |g.stack| - 1 ensures Mean(r, k) == Mean(g, k) {
      assert FrameOk(g, k);
      MeaningStable(g.es, r.es, g.stack[k].cursor);
    }
  }

  lemma OuterMeans(g: Graph, r: Graph)
    requires Inv(g) && g.stack != [] && |r.stack| == |g.stack| && Grown(g.es, r.es)
    requires forall k :: 0 <= k < |g.stack| - 1 ==> r.stack[k].cursor == g.stack[k].cursor
    ensures forall k :: 0 <= k < |g.stack| - 1 ==> Mean(r, k) == Mean(g, k)
  {
    forall k | 0 <= k < |g.stack| - 1 ensures Mean(r, k) == Mean(g, k) {
      assert FrameOk(g, k);
      MeaningStable(g.es, r.es, g.stack[k].cursor);
    }
  }

  lemma MatchedTakeKeeps(g: Graph, ledger: Ledger, node: nat)
    requires Inv(g) && !g.failed && g.stack != [] && Agrees(g, ledger) && Top(g).cursor < |g.es| && !Top(g).recording
    requires node < |g.es| && node in g.es[Top(g).cursor].next && g.es[node].kind.Take?
    ensures Inv(Advance(g, node))
    ensures Agrees(Advance(g, node), ledger[|ledger| - 1 := ledger[|ledger| - 1] + {g.es[node].kind.loc}])
  {
    AdvanceKeeps(g, node);
    assert NodeOk(g.es, g.space, Top(g).cursor);
    ScopeIsBefore(g, |g.stack| - 1);
    HeldAfterTake(Mean(g, |g.stack| - 1), node, g.es[node].kind.loc, g.es[node].kind.bytes);
    TopAgrees(g, Advance(g, node), ledger, ledger[|ledger| - 1] + {g.es[node].kind.loc});
  }

  lemma RecordedTakeKeeps(g: Graph, ledger: Ledger, size: nat, place: Place)
    requires Inv(g) && !g.failed && g.stack != [] && Agrees(g, ledger) && Top(g).cursor < |g.es| && Top(g).recording
    requires PlaceOk(g, size, place) && place.Place?
    ensures var r := RecordTake(g, place.loc, size, place.space, place.physCount, place.smallPages);
      Inv(r) && Agrees(r, ledger[|ledger| - 1 := ledger[|ledger| - 1] + {place.loc}])
  {
    var r := RecordTake(g, place.loc, size, place.space, place.physCount, place.smallPages);
    RecordTakeKeeps(g, place.loc, size, place.space, place.physCount, place.smallPages);
    ScopeIsBefore(g, |g.stack| - 1);
    HeldAfterTake(Mean(g, |g.stack| - 1), |g.es|, place.loc, size);
    AppendGrows(g.es, Top(g).cursor, Take(place.loc, size));
    TopAgrees(g, r, ledger, ledger[|ledger| - 1] + {place.loc});
  }

  lemma ReadyAgrees(g: Graph, ledger: Ledger)
    requires Inv(g) && !g.failed && g.stack != [] && Agrees(g, ledger)
    ensures Inv(Ready(g)) && Agrees(Ready(g), ledger)
    ensures Ready(g).es == g.es && |Ready(g).stack| == |g.stack| && Top(Ready(g)).cursor == Top(g).cursor
    ensures !Ready(g).failed ==> Top(Ready(g)).recording
  {
    ReadyKeeps(g);
  }

  lemma FailAgrees(g: Graph, ledger: Ledger, sp: Space, phys: nat, small: nat)
    requires Inv(g) && Agrees(g, ledger) && Grows(g.space, sp)
    ensures var r := Fail(g.(space := sp, physCount := phys, smallPages := small)); Inv(r) && Agrees(r, ledger)
  {
    FailKeeps(g, sp, phys, small);
  }

  lemma AllocKeeps(g: Graph, ledger: Ledger, size: nat, place: Place)
    requires Inv(g) && !g.failed && g.stack != [] && Agrees(g, ledger) && Top(g).cursor < |g.es|
    requires PlaceOk(Ready(g), size, place)
    ensures var (r, answer) := DoAlloc(g, size, place);
      Inv(r) && Agrees(r, Record(ledger, AllocReq(size, place), answer, r.failed))
  {
    var found := if Top(g).recording then Nothing else Find(g.es, Top(g).cursor, KTake(size >= SMALL_LIMIT, size));
    if found.Child? {
      MatchedTakeKeeps(g, ledger, found.node);
    } else {
      ReadyAgrees(g, ledger);
      if !Ready(g).failed {
        if place.NoPlace? {
          FailAgrees(Ready(g), ledger, place.space, place.physCount, place.smallPages);
        } else {
          RecordedTakeKeeps(Ready(g), ledger, size, place);
        }
      }
    }
  }

  lemma MatchedDropKeeps(g: Graph, ledger: Ledger, node: nat)
    requires Inv(g) && !g.failed && g.stack != [] && Agrees(g, ledger) && Top(g).cursor < |g.es| && !Top(g).recording
    requires node < |g.es| && node in g.es[Top(g).cursor].next && g.es[node].kind.Drop?
    ensures Inv(Advance(g, node))
    ensures Agrees(Advance(g, node), ledger[|ledger| - 1 := ledger[|ledger| - 1] - {g.es[node].kind.loc}])
  {
    AdvanceKeeps(g, node);
    HeldAfterDrop(Mean(g, |g.stack| - 1), node, g.es[node].kind.loc);
    TopAgrees(g, Advance(g, node), ledger, ledger[|ledger| - 1] - {g.es[node].kind.loc});
  }

  lemma RecordedDropKeeps(g: Graph, ledger: Ledger, loc: Loc)
    requires Inv(g) && !g.failed && g.stack != [] && Agrees(g, ledger) && Top(g).cursor < |g.es| && Top(g).recording
    requires loc in ledger[|ledger| - 1]
    ensures Inv(RecordDrop(g, loc)) && !RecordDrop(g, loc).failed
    ensures Agrees(RecordDrop(g, loc), ledger[|ledger| - 1 := ledger[|ledger| - 1] - {loc}])
  {
    assert Holds(g, |g.stack| - 1, loc);
    RecordDropKeeps(g, loc);
    HeldAfterDrop(Mean(g, |g.stack| - 1), |g.es|, loc);
    AppendGrows(g.es, Top(g).cursor, Drop(loc));
    TopAgrees(g, RecordDrop(g, loc), ledger, ledger[|ledger| - 1] - {loc});
  }

  lemma FreeKeeps(g: Graph, ledger: Ledger, loc: Loc)
    requires Inv(g) && !g.failed && g.stack != [] && Agrees(g, ledger) && Top(g).cursor < |g.es|
    requires Fair(ledger, FreeReq(loc))
    ensures var (r, answer) := DoFree(g, loc);
      Inv(r) && Agrees(r, Record(ledger, FreeReq(loc), answer, r.failed))
  {
    var found := if Top(g).recording then Nothing else Find(g.es, Top(g).cursor, KDrop(loc));
    if found.Child? {
      MatchedDropKeeps(g, ledger, found.node);
    } else {
      ReadyAgrees(g, ledger);
      if !Ready(g).failed {
        if loc in ledger[|ledger| - 1] {
          RecordedDropKeeps(Ready(g), ledger, loc);
        } else {
          var k :| 0 <= k < |ledger| && loc in ledger[k];
          assert Holds(Ready(g), k, loc);
          DropOutsideFails(Ready(g), loc, k);
        }
      }
    }
  }

  lemma PushKeeps(g: Graph, ledger: Ledger, name: string)
    requires Inv(g) && !g.failed && g.stack != [] && Agrees(g, ledger) && Top(g).cursor < |g.es|
    ensures var (r, answer) := DoPush(g, name);
      Inv(r) && Agrees(r, Record(ledger, PushReq(name), answer, r.failed))
  {
    var found := Find(g.es, Top(g).cursor, KCall(name));
    if found.Child? {
      EnterKeeps(g, found.node);
      FreshFrame(Enter(g, g.es[found.node].kind.scope));
    } else {
      var r := Ready(g);
      ReadyKeeps(g);
      if !r.failed {
        RecordCallKeeps(r, name);
        FreshFrame(RecordCall(r, name));
      }
    }
  }

  lemma FreshFrame(g: Graph)
    requires Inv(g) && g.stack != [] && Mean(g, |g.stack| - 1).tracked == []
    ensures HeldBy(Mean(g, |g.stack| - 1)) == {}
  {
    FrameSem(g, |g.stack| - 1);
    NothingTracked(g.es, g.space, Mean(g, |g.stack| - 1));
  }

  /** The same for a recording frame that holds nothing, its end being recorded. */
  lemma EndedKeeps(g: Graph, ledger: Ledger)
    requires Inv(g) && !g.failed && g.stack != [] && Agrees(g, ledger) && Top(g).cursor < |g.es| && Top(g).recording
    requires ledger[|ledger| - 1] == {}
    ensures Inv(RecordEnd(g)) && Agrees(RecordEnd(g), ledger[..|ledger| - 1])
  {
    hide Inv, SemOk;
    var top := |g.stack| - 1;
    FrameSem(g, top);
    NothingTracked(g.es, g.space, Mean(g, top));
    RecordEndKeeps(g);
  }

  /** A frame is left, and the outer books stand. */
  lemma ClosedKeeps(g: Graph, ledger: Ledger)
    requires Inv(g) && g.stack != [] && Agrees(g, ledger)
    ensures Inv(Close(g)) && Agrees(Close(g), ledger[..|ledger| - 1])
  {
    CloseKeeps(g);
    hide Inv;
  }

  /** A frame that the break makes record has nothing tracked when its book is empty. */
  lemma BrokenIsEmpty(g: Graph, ledger: Ledger)
    requires Inv(g) && !g.failed && g.stack != [] && Agrees(g, ledger) && Top(g).cursor < |g.es| && !Ready(g).failed
    requires ledger[|ledger| - 1] == {}
    ensures var r := Ready(g);
      Inv(r) && Agrees(r, ledger) && r.stack != [] && Top(r).cursor < |r.es| && Top(r).recording && Top(r).tracked == []
  {
    var r, top := Ready(g), |g.stack| - 1;
    ReadyKeeps(g);
    FrameSem(g, top);
    NothingTracked(g.es, g.space, Mean(g, top));
    assert FrameOk(r, top);
  }

  lemma PopKeeps(g: Graph, ledger: Ledger)
    requires Inv(g) && !g.failed && g.stack != [] && Agrees(g, ledger) && Top(g).cursor < |g.es|
    requires Fair(ledger, PopReq)
    ensures var (r, answer) := DoPop(g);
      Inv(r) && Agrees(r, Record(ledger, PopReq, answer, r.failed))
  {
    hide Inv, Ready, Close, RecordEnd, FindChild;
    assert |ledger| == |g.stack|;
    var found := if Top(g).recording then Nothing else Find(g.es, Top(g).cursor, KEnd);
    if found.Child? {
      ClosedKeeps(g, ledger);
    } else {
      ReadyKeeps(g);
      if !Ready(g).failed {
        BrokenIsEmpty(g, ledger);
        hide Agrees;
        EndedKeeps(Ready(g), ledger);
      }
    }
  }

  lemma StepKeeps(g: Graph, ledger: Ledger, q: Request)
    requires Inv(g) && Agrees(g, ledger) && Fair(ledger, q) && Sound(g, q)
    ensures var (r, answer) := Step(g, q);
      Inv(r) && Agrees(r, Record(ledger, q, answer, r.failed))
  {
    CursorOk(g);
    if !g.failed {
      if q.RootReq? {
        if g.stack == [] {
          PushRootKeeps(g);
          FreshFrame(PushRoot(g));
        }
      } else if g.stack != [] {
        match q
        case AllocReq(size, place) => AllocKeeps(g, ledger, size, place);
        case FreeReq(loc) => FreeKeeps(g, ledger, loc);
        case PushReq(name) => PushKeeps(g, ledger, name);
        case PopReq => PopKeeps(g, ledger);
      }
    }
  }

  // ---------------------------------------------------------------- runs

  predicate FairRun(g: Graph, ledger: Ledger, qs: seq<Request>)
    decreases |qs|
  {
    qs == [] ||
    (Fair(ledger, qs[0]) && Sound(g, qs[0]) &&
     var (r, answer) := Step(g, qs[0]);
     FairRun(r, Record(ledger, qs[0], answer, r.failed), qs[1..]))
  }

  function Run(g: Graph, ledger: Ledger, qs: seq<Request>): (Graph, Ledger)
    decreases |qs|
  {
    if qs == [] then (g, ledger)
    else
      var (r, answer) := Step(g, qs[0]);
      Run(r, Record(ledger, qs[0], answer, r.failed), qs[1..])
  }

  lemma {:induction false} FailedRun(g: Graph, ledger: Ledger, qs: seq<Request>)
    requires g.failed
    ensures Run(g, ledger, qs).0.failed
    decreases |qs|
  {
    if qs != [] {
      var (r, answer) := Step(g, qs[0]);
      FailedRun(r, Record(ledger, qs[0], answer, r.failed), qs[1..]);
    }
  }

  /** No two allocations of the ledger, of whatever frames, share a physical page or a byte of the small heap. */
  ghost predicate AllApart(g: Graph, ledger: Ledger) {
    forall j, k, l, m ::
      0 <= j <= k < |ledger| && l in ledger[j] && m in ledger[k] && (j, l) != (k, m) ==>
        && j < |g.stack| && k < |g.stack| && Holds(g, j, l) && Holds(g, k, m)
        && l != m && Apart(g.space, l, UnitsOf(g, j, l), m, UnitsOf(g, k, m))
  }

  lemma LedgerApart(g: Graph, ledger: Ledger)
    requires Inv(g) && Agrees(g, ledger)
    ensures AllApart(g, ledger)
  {
    forall j, k, l, m | 0 <= j <= k < |ledger| && l in ledger[j] && m in ledger[k] && (j, l) != (k, m)
      ensures Holds(g, j, l) && Holds(g, k, m)
      ensures l != m && Apart(g.space, l, UnitsOf(g, j, l), m, UnitsOf(g, k, m))
    {
      assert l in HeldBy(Mean(g, j)) && m in HeldBy(Mean(g, k));
      HeldAreApart(g, j, l, k, m);
    }
  }

  /**
    In every run of a client that frees what it holds and leaves frames empty, at any nesting and
    whether addresses came from recording, replay or a replay that broke, all live allocations are apart.
  */
  lemma {:induction false} RunIsSafe(g: Graph, ledger: Ledger, qs: seq<Request>)
    requires Inv(g) && Agrees(g, ledger) && FairRun(g, ledger, qs)
    ensures var (r, books) := Run(g, ledger, qs); Inv(r) && Agrees(r, books) && AllApart(r, books)
    decreases |qs|
  {
    if qs == [] {
      LedgerApart(g, ledger);
    } else {
      StepKeeps(g, ledger, qs[0]);
      var (r, answer) := Step(g, qs[0]);
      RunIsSafe(r, Record(ledger, qs[0], answer, r.failed), qs[1..]);
    }
  }
}
