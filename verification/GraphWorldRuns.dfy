/**
  Whole runs of the compiler with leaks, from a new graph, through any number of outermost
  frames: nothing live ever shares memory with anything else live.  The places of recorded
  allocations are given here, and only have to be sound; GraphWorldPlaced.dfy finds them by search.
*/
module GraphWorldRuns {
  import opened GraphModel
  import opened GraphTree
  import opened GraphSafety
  import opened GraphRuns
  import opened GraphLeaks
  import opened GraphCollect
  import opened GraphSmall
  import opened GraphWorld
  import opened GraphWorldSafety
  import opened GraphWorldSteps
  import opened GraphWorldAllocs
  import opened GraphWorldPops
  import F = GraphFinalize

  // ---------------------------------------------------------------- what happens outside the frames

  lemma FreeLeakKeeps(w: World, i: nat)
    requires WorldInv(w) && i < |w.leaks|
    ensures WorldInv(w.(leaks := w.leaks[i := w.leaks[i].(freed := true)]))
  {
    var w' := w.(leaks := w.leaks[i := w.leaks[i].(freed := true)]);
    forall k, l | 0 <= k < |w.g.stack| && Holds(w.g, k, l) ensures Fits(w', l, UnitsOf(w.g, k, l)) {
      assert Fits(w, l, UnitsOf(w.g, k, l));
      assert AwayFromLeak(w.g.space, l, UnitsOf(w.g, k, l), w.leaks[i]);
    }
    FreedLeaksOk(w, i);
    hide Severed, F.BackingOk, LeaksOk, RoguesOk, Fits;
  }

  lemma FreedLeaksOk(w: World, i: nat)
    requires LeaksOk(w) && i < |w.leaks|
    ensures LeaksOk(w.(leaks := w.leaks[i := w.leaks[i].(freed := true)]))
  {
    var w' := w.(leaks := w.leaks[i := w.leaks[i].(freed := true)]);
    forall j | 0 <= j < |w.leaks| ensures LeakOk(w', w'.leaks[j]) { assert LeakOk(w, w.leaks[j]); }
    forall j, k | 0 <= j < k < |w.leaks| ensures LeaksApart(w'.g.space, w'.leaks[j], w'.leaks[k]) {
      assert LeaksApart(w.g.space, w.leaks[j], w.leaks[k]);
    }
  }

  lemma DeadRogueBacking(b: F.Backing, r: Rogue)
    requires F.BackingOk(b)
    ensures F.BackingOk(b.(held := map va | va in b.held && !Covers(r, va) :: b.held[va]))
  {}

  /** The other rogues keep what they hold. */
  lemma OthersKeep(b: F.Backing, rogues: seq<Rogue>, i: nat, j: nat)
    requires RoguesOk(b, rogues) && i < |rogues| && j < |rogues| && i != j
    ensures RogueOk(b.(held := map va | va in b.held && !Covers(rogues[i], va) :: b.held[va]), rogues[j])
  {
    assert RogueOk(b, rogues[j]);
    if rogues[j].loc.Large? {
      forall va | Covers(rogues[j], va) ensures va in b.held && !Covers(rogues[i], va) {
        if i < j { assert RoguesApart(b, rogues[i], rogues[j]); } else { assert RoguesApart(b, rogues[j], rogues[i]); }
      }
    }
  }

  lemma OtherRoguesOk(b: F.Backing, rogues: seq<Rogue>, i: nat)
    requires RoguesOk(b, rogues) && i < |rogues|
    ensures RoguesOk(b.(held := map va | va in b.held && !Covers(rogues[i], va) :: b.held[va]), rogues[..i] + rogues[i + 1..])
  {
    var b' := b.(held := map va | va in b.held && !Covers(rogues[i], va) :: b.held[va]);
    var rest := rogues[..i] + rogues[i + 1..];
    forall k | 0 <= k < |rest| ensures RogueOk(b', rest[k]) { OthersKeep(b, rogues, i, if k < i then k else k + 1); }
    forall j, k | 0 <= j < k < |rest| ensures RoguesApart(b', rest[j], rest[k]) {
      assert RoguesApart(b, rogues[if j < i then j else j + 1], rogues[if k < i then k else k + 1]);
    }
  }

  lemma RogueDiesKeeps(w: World, i: nat)
    requires WorldInv(w) && i < |w.rogues|
    ensures WorldInv(WithoutRogue(w, i))
  {
    var w' := WithoutRogue(w, i);
    DeadRogueBacking(w.b, w.rogues[i]);
    OtherRoguesOk(w.b, w.rogues, i);
    forall k | 0 <= k < |w'.rogues| ensures w'.rogues[k] in w.rogues {
      assert w'.rogues[k] == w.rogues[if k < i then k else k + 1];
    }
    hide Severed, F.BackingOk, RoguesOk;
    forall k, l | 0 <= k < |w.g.stack| && Holds(w.g, k, l) ensures Fits(w', l, UnitsOf(w.g, k, l)) {
      assert Fits(w, l, UnitsOf(w.g, k, l));
    }
    forall k | 0 <= k < |w.leaks| ensures LeakOk(w', w.leaks[k]) { assert LeakOk(w, w.leaks[k]); }
    hide Fits, LeakOk, LeaksApart;
  }

  lemma ReviveKeepsWorld(w: World, va: nat)
    requires WorldInv(w) && va < |w.b.vaPhys| && va !in w.b.held
    ensures WorldInv(w.(b := F.Revived(w.b, va)))
  {
    var w' := w.(b := F.Revived(w.b, va));
    F.ReviveKeeps(w.b, va);
    RoguesUnmoved(w.b, w'.b, w.rogues);
    forall k, l | 0 <= k < |w.g.stack| && Holds(w.g, k, l) ensures Fits(w', l, UnitsOf(w.g, k, l)) {
      assert Fits(w, l, UnitsOf(w.g, k, l));
    }
    forall k | 0 <= k < |w.leaks| ensures LeakOk(w', w.leaks[k]) { assert LeakOk(w, w.leaks[k]); }
    hide Severed, F.BackingOk, RoguesOk, Fits, LeakOk, LeaksApart;
  }

  // ---------------------------------------------------------------- any step

  /** A client frees only what an open frame holds, and the place given for a recorded allocation is sound. */
  predicate DeedOk(w: World, ledger: Ledger, d: Deed) {
    d.Ask? && !w.g.failed ==>
      match d.q
      case AllocReq(size, place) => w.g.stack != [] && !Ready(w.g).failed ==> SoundPlace(w, size, place)
      case FreeReq(loc) => Fair(ledger, d.q)
      case _ => true
  }

  function BooksAfter(ledger: Ledger, d: Deed, answer: Answer): Ledger {
    if d.Ask? then Record(ledger, d.q, answer, false) else ledger
  }

  lemma DeedKeeps(w: World, ledger: Ledger, d: Deed)
    requires WorldInv(w) && !w.g.failed && Agrees(w.g, ledger) && DeedOk(w, ledger, d)
    ensures var (r, answer) := Do(w, d); !r.g.failed ==> WorldInv(r) && Agrees(r.g, BooksAfter(ledger, d, answer))
  {
    match d
    case FreeLeak(i) => if i < |w.leaks| { FreeLeakKeeps(w, i); }
    case RogueDies(i) => if i < |w.rogues| { RogueDiesKeeps(w, i); }
    case Revive(va) => if va < |w.b.vaPhys| && va !in w.b.held { ReviveKeepsWorld(w, va); }
    case Ask(q, settles) => AskKeeps(w, ledger, q, settles);
  }

  lemma AskKeeps(w: World, ledger: Ledger, q: Request, settles: bool)
    requires WorldInv(w) && !w.g.failed && Agrees(w.g, ledger) && DeedOk(w, ledger, Ask(q, settles))
    ensures var (r, answer) := Do(w, Ask(q, settles)); !r.g.failed ==> WorldInv(r) && Agrees(r.g, Record(ledger, q, answer, false))
  {
    assert |ledger| == |w.g.stack|;
    hide Severed, F.BackingOk, HeldFit, LeaksOk, RoguesOk, Agrees;
    CursorOk(w.g) by { assert Inv(w.g) by { InvOf(w); } }
    if q.RootReq? {
      if w.g.stack == [] { RootKeepsWorld(w); }
    } else if w.g.stack != [] {
      match q
      case AllocReq(size, place) => AllocKeepsWorld(w, ledger, size, place);
      case FreeReq(loc) => FreeKeepsWorld(w, ledger, loc);
      case PushReq(name) => PushKeepsWorld(w, ledger, name);
      case PopReq => PopKeepsWorld(w, ledger, settles);
    }
  }

  lemma InvOf(w: World)
    requires WorldInv(w)
    ensures Inv(w.g)
  {}

  // ---------------------------------------------------------------- runs

  predicate FairDeeds(w: World, ledger: Ledger, ds: seq<Deed>)
    requires F.Shape(w.b)
    decreases |ds|
  {
    ds == [] ||
    (DeedOk(w, ledger, ds[0]) &&
     var (r, answer) := Do(w, ds[0]);
     F.Shape(r.b) ==> FairDeeds(r, BooksAfter(ledger, ds[0], answer), ds[1..]))
  }

  function RunWorld(w: World, ledger: Ledger, ds: seq<Deed>): (World, Ledger)
    requires F.Shape(w.b)
    decreases |ds|
  {
    if ds == [] then (w, ledger)
    else
      var (r, answer) := Do(w, ds[0]);
      if F.Shape(r.b) then RunWorld(r, BooksAfter(ledger, ds[0], answer), ds[1..]) else (r, BooksAfter(ledger, ds[0], answer))
  }

  lemma {:induction false} FailureIsFinal(w: World, ledger: Ledger, ds: seq<Deed>)
    requires F.Shape(w.b) && w.g.failed
    ensures RunWorld(w, ledger, ds).0.g.failed
    decreases |ds|
  {
    if ds != [] {
      var (r, answer) := Do(w, ds[0]);
      if F.Shape(r.b) { FailureIsFinal(r, BooksAfter(ledger, ds[0], answer), ds[1..]); }
    }
  }

  /**
    In every run that has not failed, leaks, late frees and new outermost frames included, the
    open frames hold what their clients' books say, and nothing live shares a page object or a
    byte with anything else live.
  */
  lemma {:induction false} WorldRunIsSafe(w: World, ledger: Ledger, ds: seq<Deed>)
    requires WorldInv(w) && !w.g.failed && Agrees(w.g, ledger) && FairDeeds(w, ledger, ds)
    ensures var (r, books) := RunWorld(w, ledger, ds); !r.g.failed ==> WorldInv(r) && Agrees(r.g, books) && MemorySafe(r)
    decreases |ds|
  {
    if ds == [] {
      WorldIsMemorySafe(w);
    } else {
      DeedKeeps(w, ledger, ds[0]);
      var (r, answer) := Do(w, ds[0]);
      hide Do, MemorySafe, DeedOk;
      if F.Shape(r.b) {
        var books := BooksAfter(ledger, ds[0], answer);
        if r.g.failed { FailureIsFinal(r, books, ds[1..]); } else { WorldRunIsSafe(r, books, ds[1..]); }
      }
    }
  }

  function NewWorld(assertBreaks: bool): World {
    World(Created(assertBreaks), {}, [], F.Backing([], [], [], [], map[], 1), [])
  }

  lemma NewWorldInv(assertBreaks: bool)
    ensures WorldInv(NewWorld(assertBreaks)) && Agrees(NewWorld(assertBreaks).g, [{}])
  {
    var g := Created(assertBreaks);
    CreatedInv(assertBreaks);
    FrameSem(g, 0);
    NothingTracked(g.es, g.space, Mean(g, 0));
    forall l ensures !Holds(g, 0, l) { assert l !in HeldBy(Mean(g, 0)); }
  }
}
