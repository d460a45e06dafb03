/**
  Leaving frames: what the frame still holds becomes candidates, and when the outermost frame is
  left the candidates that nobody freed become rogues with page objects of their own.
*/
module GraphWorldPops {
  import opened GraphModel
  import opened GraphTree
  import opened GraphSafety
  import opened GraphRuns
  import opened GraphLeaks
  import opened GraphCollect
  import opened GraphSmall
  import opened GraphWorld
  import opened GraphWorldSafety
  import opened GraphWorldSteps
  import opened GraphWorldAllocs
  import F = GraphFinalize

  // ---------------------------------------------------------------- one candidate

  lemma SmallBytesFit(loc: Loc, bytes: nat)
    requires loc.Small? && bytes < SMALL_LIMIT && Units(loc, bytes) > 0
    ensures 0 < bytes <= Units(loc, bytes)
  {
    AlignUpIsNext(bytes, SMALL_ALIGN);
  }

  /** What the new candidate was when it was held. */
  lemma ForsakenWasHeld(w: World, e: nat)
    requires WorldInv(w) && Leaving(w.g, e)
    ensures var (loc, bytes, top) := (w.g.es[e].kind.loc, w.g.es[e].kind.bytes, |w.g.stack| - 1);
      && Holds(w.g, top, loc) && UnitsOf(w.g, top, loc) == Units(loc, bytes) && Fits(w, loc, Units(loc, bytes))
      && (loc.Small? ==> 0 < bytes <= Units(loc, bytes)) && e !in w.gone
  {
    var loc, top := w.g.es[e].kind.loc, |w.g.stack| - 1;
    LeavingMeans(w.g, e, w.gone);
    assert Fits(w, loc, UnitsOf(w.g, top, loc));
    hide HeldFit, LeaksOk, RoguesOk, F.BackingOk;
    FrameSem(w.g, top);
    assert MadeBy(w.g.es, loc, Mean(w.g, top).alloc[loc]);
    if loc.Small? { SmallBytesFit(loc, w.g.es[e].kind.bytes); }
  }

  /** What is held after the hand-over was held before, and is not the candidate. */
  lemma StillHeld(g: Graph, e: nat, gone: set<nat>, k: nat, l: Loc)
    requires Severed(g, gone) && Leaving(g, e) && k < |g.stack| && Holds(SeverTop(g, e), k, l)
    ensures Holds(g, k, l) && UnitsOf(SeverTop(g, e), k, l) == UnitsOf(g, k, l)
    ensures (k, l) != (|g.stack| - 1, g.es[e].kind.loc)
  {
    SeverTopKeeps(g, e, gone);
    if k == |g.stack| - 1 {
      TopTrims(g, e, gone);
      assert l in HeldBy(Mean(SeverTop(g, e), k));
    }
  }

  /** The new candidate is apart from everything that is still held. */
  lemma ForsakenIsApart(w: World, e: nat, k: nat, l: Loc)
    requires WorldInv(w) && Leaving(w.g, e) && k < |w.g.stack| && Holds(w.g, k, l) && (k, l) != (|w.g.stack| - 1, w.g.es[e].kind.loc)
    ensures AwayFromLeak(w.g.space, l, UnitsOf(w.g, k, l), Forsake(w, e).leaks[0])
  {
    ForsakenWasHeld(w, e);
    HeldAreApart(w.g, k, l, |w.g.stack| - 1, w.g.es[e].kind.loc);
  }

  lemma ForsakeHeldFit(w: World, e: nat)
    requires WorldInv(w) && Leaving(w.g, e)
    ensures HeldFit(Forsake(w, e))
  {
    var w' := Forsake(w, e);
    forall k, l | 0 <= k < |w'.g.stack| && Holds(w'.g, k, l) ensures Fits(w', l, UnitsOf(w'.g, k, l)) {
      StillHeld(w.g, e, w.gone, k, l);
      assert Fits(w, l, UnitsOf(w.g, k, l));
      ForsakenIsApart(w, e, k, l);
    }
  }

  /** Candidates that were there before stay apart from the new one. */
  lemma ForsakenFromLeak(w: World, e: nat, i: nat)
    requires WorldInv(w) && Leaving(w.g, e) && i < |w.leaks|
    ensures LeaksApart(w.g.space, Forsake(w, e).leaks[0], w.leaks[i])
  {
    ForsakenWasHeld(w, e);
    assert AwayFromLeak(w.g.space, w.g.es[e].kind.loc, Units(w.g.es[e].kind.loc, w.g.es[e].kind.bytes), w.leaks[i]);
  }

  lemma ForsakeLeaksOk(w: World, e: nat)
    requires WorldInv(w) && Leaving(w.g, e)
    ensures LeaksOk(Forsake(w, e))
  {
    var w' := Forsake(w, e);
    ForsakenWasHeld(w, e);
    assert LeakOk(w', w'.leaks[0]);
    forall i | 0 <= i < |w.leaks| ensures LeakOk(w', w.leaks[i]) && LeaksApart(w.g.space, w'.leaks[0], w.leaks[i]) {
      assert LeakOk(w, w.leaks[i]);
      ForsakenFromLeak(w, e, i);
    }
    assert forall i :: 0 < i < |w'.leaks| ==> w'.leaks[i] == w.leaks[i - 1];
    assert forall i, j :: 0 <= i < j < |w.leaks| ==> LeaksApart(w.g.space, w.leaks[i], w.leaks[j]);
    hide LeakOk, LeaksApart, Severed, HeldFit, RoguesOk;
  }

  lemma ForsakeKeeps(w: World, e: nat)
    requires WorldInv(w) && Leaving(w.g, e)
    ensures WorldInv(Forsake(w, e))
  {
    ForsakeHeldFit(w, e);
    ForsakeLeaksOk(w, e);
    SeverTopKeeps(w.g, e, w.gone);
    SeverShapes(w.g, e, w.gone);
    hide Severed, HeldFit, LeaksOk, RoguesOk, F.BackingOk;
  }

  // ---------------------------------------------------------------- all of them

  lemma NextLeaves(g: Graph)
    requires Inv(g) && !g.failed && g.stack != [] && Top(g).recording && Top(g).tracked != []
    ensures Leaving(g, Top(g).tracked[0])
  {
    var top := |g.stack| - 1;
    assert FrameOk(g, top);
    FrameSem(g, top);
    assert LiveEvent(g.es, Mean(g, top).alloc, Mean(g, top).tracked[0]);
  }

  /** Handing everything over leaves the frame with nothing and the outer frames as they were. */
  lemma {:induction false} CollectKeeps(w: World, ledger: Ledger)
    requires WorldInv(w) && !w.g.failed && w.g.stack != [] && Top(w.g).recording && Agrees(w.g, ledger)
    ensures var c := Collect(w);
      && WorldInv(c) && !c.g.failed && |c.g.stack| == |w.g.stack| && Top(c.g).recording && Top(c.g).tracked == []
      && Agrees(c.g, ledger[|ledger| - 1 := {}])
    decreases |Top(w.g).tracked|
  {
    var top := |w.g.stack| - 1;
    if Top(w.g).tracked == [] {
      assert FrameOk(w.g, top);
      FreshFrame(w.g);
      assert ledger[|ledger| - 1 := {}] == ledger;
    } else {
      NextLeaves(w.g);
      var e := Top(w.g).tracked[0];
      ForsakeKeeps(w, e);
      SeverTopKeeps(w.g, e, w.gone);
      var less := ledger[|ledger| - 1 := HeldBy(Mean(Forsake(w, e).g, top))];
      hide WorldInv, SeverTop, Mean, HeldBy;
      assert Agrees(Forsake(w, e).g, less);
      CollectKeeps(Forsake(w, e), less);
      assert less[|less| - 1 := {}] == ledger[|ledger| - 1 := {}];
    }
  }

  // ---------------------------------------------------------------- the frame is left

  lemma ClosedWorld(w: World, ledger: Ledger)
    requires WorldInv(w) && w.g.stack != [] && Agrees(w.g, ledger)
    ensures WorldInv(w.(g := Close(w.g))) && Agrees(Close(w.g), ledger[..|ledger| - 1])
  {
    CloseKeeps(w.g);
    SameMeansNothingNew(w.g, Close(w.g));
    assert TreeShape(Close(w.g), w.gone);
    hide Inv, TreeShape, Close;
    FewerHeld(w, Close(w.g));
  }

  lemma EndShape(g: Graph, gone: set<nat>)
    requires Severed(g, gone) && Sized(g.es) && g.stack != [] && Top(g).cursor < |g.es|
    ensures TreeShape(RecordEnd(g), gone)
  {
    CursorIsOpen(g);
    AppendShapes(g.es, Top(g).cursor, End, gone);
    hide Inv, Rooted, Detached, Sized, Append;
  }

  lemma EndedWorld(w: World, ledger: Ledger)
    requires WorldInv(w) && !w.g.failed && w.g.stack != [] && Top(w.g).cursor < |w.g.es| && Top(w.g).recording
    requires Top(w.g).tracked == [] && Agrees(w.g, ledger)
    ensures WorldInv(w.(g := RecordEnd(w.g))) && Agrees(RecordEnd(w.g), ledger[..|ledger| - 1])
  {
    assert FrameOk(w.g, |w.g.stack| - 1);
    RecordEndKeeps(w.g);
    SameMeansNothingNew(w.g, RecordEnd(w.g));
    EndShape(w.g, w.gone);
    hide Inv, TreeShape, RecordEnd;
    FewerHeld(w, RecordEnd(w.g));
  }

  // ---------------------------------------------------------------- candidates become rogues

  function AsRogue(k: Leak): Rogue {
    Rogue(k.loc, k.units, k.bytes)
  }

  predicate SpanOf(leaks: seq<Leak>, s: F.Span, i: int) {
    0 <= i < |leaks| && leaks[i].loc.Large? && Owned(leaks[i]) && s == F.Span(leaks[i].loc.va, leaks[i].units, leaks[i].loc.va + 1)
  }

  lemma {:induction false} SpansAre(leaks: seq<Leak>, s: F.Span)
    ensures s in Spans(leaks) <==> exists i :: SpanOf(leaks, s, i)
  {
    if leaks != [] {
      SpansAre(leaks[1..], s);
      if i :| SpanOf(leaks[1..], s, i) { assert SpanOf(leaks, s, i + 1); }
      if i :| SpanOf(leaks, s, i) && i > 0 { assert SpanOf(leaks[1..], s, i - 1); }
      if SpanOf(leaks, s, 0) { assert s in Spans(leaks); }
      if s in Spans(leaks) && s !in Spans(leaks[1..]) { assert SpanOf(leaks, s, 0); }
    }
  }

  lemma SpansAreCandidates(w: World)
    requires WorldInv(w)
    ensures F.CandidatesOk(w.b, Spans(w.leaks))
  {
    var cs := Spans(w.leaks);
    forall i | 0 <= i < |cs|
      ensures cs[i].ptr != 0 && cs[i].va + cs[i].pages <= |w.b.vaPhys|
      ensures forall va: nat :: F.InSpan(cs[i], va) && va < |w.b.holes| ==> w.b.holes[va] == 0
    {
      SpansAre(w.leaks, cs[i]);
      assert cs[i] in cs;
      var k :| SpanOf(w.leaks, cs[i], k);
      assert LeakOk(w, w.leaks[k]);
    }
  }

  lemma {:induction false} CoveringFinds(cs: seq<F.Span>, s: F.Span, va: nat, i: nat)
    requires i <= |cs| && s in cs[i..] && F.InSpan(s, va)
    ensures F.Covering(cs, va, i) < |cs|
    decreases |cs| - i
  {
    if !F.InSpan(cs[i], va) {
      assert cs[i..] == [cs[i]] + cs[i + 1..];
      CoveringFinds(cs, s, va, i + 1);
    }
  }

  /** Every page of a large candidate nobody freed is its rogue's, with the object it was mapped to. */
  lemma OwnedIsHeld(w: World, i: nat, va: nat)
    requires WorldInv(w) && i < |w.leaks| && w.leaks[i].loc.Large? && Owned(w.leaks[i])
    requires w.leaks[i].loc.va <= va < w.leaks[i].loc.va + w.leaks[i].units
    ensures var b := F.Finalized(w.b, Spans(w.leaks));
      va < |w.b.vaPhys| && w.b.vaPhys[va] < |w.b.pages| && va in b.held && b.held[va] == w.b.pages[w.b.vaPhys[va]]
  {
    var k := w.leaks[i];
    var s := F.Span(k.loc.va, k.units, k.loc.va + 1);
    assert LeakOk(w, k) && SpanOf(w.leaks, s, i);
    SpansAre(w.leaks, s);
    assert Spans(w.leaks)[0..] == Spans(w.leaks);
    CoveringFinds(Spans(w.leaks), s, va, 0);
    SpansAreCandidates(w);
    GraphObject(w, k.loc, k.units, va);
    F.RoguesKeepBacking(w.b, Spans(w.leaks), va);
  }

  lemma NewRogueOk(w: World, i: nat)
    requires WorldInv(w) && i < |w.leaks| && Owned(w.leaks[i])
    ensures RogueOk(F.Finalized(w.b, Spans(w.leaks)), AsRogue(w.leaks[i]))
  {
    var k := w.leaks[i];
    assert LeakOk(w, k);
    if k.loc.Large? {
      forall va | k.loc.va <= va < k.loc.va + k.units ensures va in F.Finalized(w.b, Spans(w.leaks)).held { OwnedIsHeld(w, i, va); }
    }
  }

  lemma NewRoguesApart(w: World, i: nat, j: nat)
    requires WorldInv(w) && i < j < |w.leaks| && Owned(w.leaks[i]) && Owned(w.leaks[j])
    ensures RoguesApart(F.Finalized(w.b, Spans(w.leaks)), AsRogue(w.leaks[i]), AsRogue(w.leaks[j]))
  {
    var b, k, m := F.Finalized(w.b, Spans(w.leaks)), w.leaks[i], w.leaks[j];
    assert LeaksApart(w.g.space, k, m) && LeakOk(w, k) && LeakOk(w, m);
    if k.loc.Large? && m.loc.Large? {
      forall p, q | Covers(AsRogue(k), p) && Covers(AsRogue(m), q) && p in b.held && q in b.held ensures b.held[p] != b.held[q] {
        OwnedIsHeld(w, i, p);
        OwnedIsHeld(w, j, q);
        hide F.Finalized, HeldFit, Severed, LeaksOk, RoguesOk;
      }
    }
  }

  lemma OldRogueStays(w: World, va: nat)
    requires WorldInv(w) && va in w.b.held
    ensures var b := F.Finalized(w.b, Spans(w.leaks)); va in b.held && b.held[va] == w.b.held[va]
  {
    SpansAreCandidates(w);
    F.RoguesKeepBacking(w.b, Spans(w.leaks), va);
  }

  lemma OldRoguesOk(w: World)
    requires WorldInv(w)
    ensures RoguesOk(F.Finalized(w.b, Spans(w.leaks)), w.rogues)
  {
    var b := F.Finalized(w.b, Spans(w.leaks));
    forall va | va in w.b.held ensures va in b.held && b.held[va] == w.b.held[va] { OldRogueStays(w, va); }
    hide F.Finalized;
    forall i | 0 <= i < |w.rogues| ensures RogueOk(b, w.rogues[i]) { assert RogueOk(w.b, w.rogues[i]); }
    forall i, j | 0 <= i < j < |w.rogues| ensures RoguesApart(b, w.rogues[i], w.rogues[j]) {
      assert RoguesApart(w.b, w.rogues[i], w.rogues[j]) && RogueOk(w.b, w.rogues[i]) && RogueOk(w.b, w.rogues[j]);
    }
  }

  /** A new rogue is apart from an old one: the old one holds no page object of the graph. */
  lemma OldAndNewApart(w: World, i: nat, j: nat)
    requires WorldInv(w) && i < |w.rogues| && j < |w.leaks| && Owned(w.leaks[j])
    ensures RoguesApart(F.Finalized(w.b, Spans(w.leaks)), AsRogue(w.leaks[j]), w.rogues[i])
  {
    var b, r, k := F.Finalized(w.b, Spans(w.leaks)), w.rogues[i], w.leaks[j];
    assert RogueOk(w.b, r) && LeakOk(w, k);
    if r.loc.Large? && k.loc.Large? {
      forall p, q | Covers(AsRogue(k), p) && Covers(r, q) && p in b.held && q in b.held ensures b.held[p] != b.held[q] {
        OwnedIsHeld(w, j, p);
        OldRogueStays(w, q);
      }
    }
    if r.loc.Small? && k.loc.Small? { assert AwayFromRogue(k.loc, k.bytes, r); }
  }

  lemma JoinRogues(b: F.Backing, rs: seq<Rogue>, qs: seq<Rogue>)
    requires RoguesOk(b, rs) && RoguesOk(b, qs)
    requires forall i, j :: 0 <= i < |rs| && 0 <= j < |qs| ==> RoguesApart(b, rs[i], qs[j])
    ensures RoguesOk(b, rs + qs)
  {
    hide RogueOk, RoguesApart;
    var all := rs + qs;
    forall i, j | 0 <= i < j < |all| ensures RoguesApart(b, all[i], all[j]) {
      if j < |rs| { assert all[j] == rs[j]; } else { assert all[j] == qs[j - |rs|]; }
      if i < |rs| { assert all[i] == rs[i]; } else { assert all[i] == qs[i - |rs|]; }
    }
  }

  /** The candidates from `n` on, as rogues, given that they are sound and apart one by one. */
  lemma {:induction false} NewRoguesOk(b: F.Backing, leaks: seq<Leak>)
    requires forall i :: 0 <= i < |leaks| && Owned(leaks[i]) ==> RogueOk(b, AsRogue(leaks[i]))
    requires forall i, j :: 0 <= i < j < |leaks| && Owned(leaks[i]) && Owned(leaks[j]) ==>
               RoguesApart(b, AsRogue(leaks[i]), AsRogue(leaks[j]))
    ensures RoguesOk(b, NewRogues(leaks))
    ensures forall r :: r in NewRogues(leaks) ==> exists i :: 0 <= i < |leaks| && Owned(leaks[i]) && r == AsRogue(leaks[i])
  {
    hide RogueOk, RoguesApart;
    if leaks != [] {
      NewRoguesOk(b, leaks[1..]);
      var rest := NewRogues(leaks[1..]);
      forall r | r in rest ensures exists i :: 0 < i < |leaks| && Owned(leaks[i]) && r == AsRogue(leaks[i]) {
        var i :| 0 <= i < |leaks[1..]| && Owned(leaks[1..][i]) && r == AsRogue(leaks[1..][i]);
        assert leaks[i + 1] == leaks[1..][i];
      }
      if Owned(leaks[0]) {
        forall j | 0 <= j < |rest| ensures RoguesApart(b, AsRogue(leaks[0]), rest[j]) { assert rest[j] in rest; }
        JoinRogues(b, [AsRogue(leaks[0])], rest);
      }
    }
  }

  lemma SettledRogues(w: World)
    requires WorldInv(w)
    ensures RoguesOk(F.Finalized(w.b, Spans(w.leaks)), NewRogues(w.leaks) + w.rogues)
  {
    var b, news := F.Finalized(w.b, Spans(w.leaks)), NewRogues(w.leaks);
    OldRoguesOk(w);
    forall i | 0 <= i < |w.leaks| && Owned(w.leaks[i]) ensures RogueOk(b, AsRogue(w.leaks[i])) { NewRogueOk(w, i); }
    forall i, j | 0 <= i < j < |w.leaks| && Owned(w.leaks[i]) && Owned(w.leaks[j])
      ensures RoguesApart(b, AsRogue(w.leaks[i]), AsRogue(w.leaks[j]))
    {
      NewRoguesApart(w, i, j);
    }
    NewRoguesOk(b, w.leaks);
    forall i, j | 0 <= i < |news| && 0 <= j < |w.rogues| ensures RoguesApart(b, news[i], w.rogues[j]) {
      assert news[i] in news;
      var k :| 0 <= k < |w.leaks| && Owned(w.leaks[k]) && news[i] == AsRogue(w.leaks[k]);
      OldAndNewApart(w, j, k);
    }
    hide WorldInv, RoguesApart, F.Finalized, RoguesOk;
    JoinRogues(b, news, w.rogues);
  }

  lemma SettledGraph(w: World)
    requires WorldInv(w) && w.g.stack == []
    ensures Severed(Settle(w).g, w.gone) && Sized(Settle(w).g.es)
  {
    var dead := EventsOf(w.leaks);
    forall e | e in dead ensures e in w.gone {
      var i :| 0 <= i < |w.leaks| && w.leaks[i].ev == e;
      assert LeakOk(w, w.leaks[i]);
    }
    ScrubKeeps(w.g.es, w.g.space, dead, w.gone);
    ScrubShapes(w.g.es, dead);
    ScrubThins(w.g.es, dead);
    hide TreeOk, Rooted, Detached, F.BackingOk;
    ShedRecorder(w.g, Settle(w).g, dead);
  }

  lemma ShedRecorder(g: Graph, r: Graph, dead: set<nat>)
    requires (!g.failed ==> RecorderOk(g)) && Thinned(g.es, r.es) && r.space == g.space && r.alloc == Shed(g.alloc, dead)
    ensures !g.failed ==> RecorderOk(r)
  {
    if !g.failed {
      forall l | l in r.alloc ensures MadeBy(r.es, l, r.alloc[l]) {
        assert MadeBy(g.es, l, g.alloc[l]);
        assert KindThinned(g.es[g.alloc[l].ev].kind, r.es[g.alloc[l].ev].kind);
      }
    }
  }

  /** After the outermost frame: the candidates are rogues, or gone if they were freed, and nobody else lost anything. */
  lemma SettleKeeps(w: World)
    requires WorldInv(w) && w.g.stack == []
    ensures WorldInv(Settle(w))
  {
    SettledGraph(w);
    SpansAreCandidates(w);
    F.FinalizeKeeps(w.b, Spans(w.leaks));
    SettledRogues(w);
    SettledInside(w);
    assert Ties(Settle(w).g, Settle(w).b);
    hide Severed, F.BackingOk, RoguesOk, Ties, RoguesInside;
  }

  lemma SettledInside(w: World)
    requires WorldInv(w)
    ensures RoguesInside(w.g.space.limit, NewRogues(w.leaks) + w.rogues)
  {
    var news := NewRogues(w.leaks);
    FromLeaks(w.leaks);
    forall j | 0 <= j < |news| && news[j].loc.Small? ensures news[j].loc.offset + news[j].bytes <= w.g.space.limit {
      assert news[j] in news;
      var k :| 0 <= k < |w.leaks| && news[j] == AsRogue(w.leaks[k]);
      assert LeakOk(w, w.leaks[k]);
    }
  }

  lemma {:induction false} FromLeaks(leaks: seq<Leak>)
    ensures forall r :: r in NewRogues(leaks) ==> exists i :: 0 <= i < |leaks| && r == AsRogue(leaks[i])
  {
    if leaks != [] {
      FromLeaks(leaks[1..]);
      forall r | r in NewRogues(leaks[1..]) ensures exists i :: 0 < i < |leaks| && r == AsRogue(leaks[i]) {
        var i :| 0 <= i < |leaks[1..]| && r == AsRogue(leaks[1..][i]);
        assert leaks[i + 1] == leaks[1..][i];
      }
    }
  }

  lemma PopKeepsWorld(w: World, ledger: Ledger, settles: bool)
    requires WorldInv(w) && !w.g.failed && w.g.stack != [] && Top(w.g).cursor < |w.g.es| && Agrees(w.g, ledger)
    ensures var (r, answer) := AskPop(w, settles);
      !r.g.failed ==> answer == Done && WorldInv(r) && Agrees(r.g, ledger[..|ledger| - 1])
  {
    var found := if Top(w.g).recording then Nothing else Find(w.g.es, Top(w.g).cursor, KEnd);
    if found.Child? {
      ClosedWorld(w, ledger);
      LeftKeeps(w.(g := Close(w.g)), ledger[..|ledger| - 1], settles);
    } else {
      ReadyWorld(w);
      ReadyAgrees(w.g, ledger);
      if !Ready(w.g).failed { LeakingPop(w.(g := Ready(w.g)), ledger, settles); }
    }
  }

  lemma LeakingPop(w: World, ledger: Ledger, settles: bool)
    requires WorldInv(w) && !w.g.failed && w.g.stack != [] && Top(w.g).recording && Agrees(w.g, ledger)
    ensures var c := Collect(w);
      && !c.g.failed && c.g.stack != [] && Top(c.g).cursor < |c.g.es|
      && var (r, answer) := Left(c.(g := RecordEnd(c.g)), settles);
        !r.g.failed ==> answer == Done && WorldInv(r) && Agrees(r.g, ledger[..|ledger| - 1])
  {
    var c := Collect(w);
    CollectKeeps(w, ledger);
    CursorOk(c.g);
    var less := ledger[|ledger| - 1 := {}];
    EndedWorld(c, less);
    assert less[..|less| - 1] == ledger[..|ledger| - 1];
    LeftKeeps(c.(g := RecordEnd(c.g)), less[..|less| - 1], settles);
  }

  lemma LeftKeeps(w: World, ledger: Ledger, settles: bool)
    requires WorldInv(w) && Agrees(w.g, ledger)
    ensures var (r, answer) := Left(w, settles); !r.g.failed ==> answer == Done && WorldInv(r) && Agrees(r.g, ledger)
  {
    if w.g.stack == [] && w.leaks != [] && settles { SettleKeeps(w); }
  }
}
