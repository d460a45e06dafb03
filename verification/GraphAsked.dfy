/**
  The sizes that clients asked for.  A client writes down the size beside each pointer it gets,
  from its requests and the answers alone; in every run each held allocation, replayed or
  recorded, is of that size and of its size class, and nothing else is held.
*/
module GraphAsked {
  import opened GraphModel
  import opened GraphTree
  import opened GraphSafety
  import opened GraphRuns

  // ---------------------------------------------------------------- the book

  /** The size asked for with each pointer that was not given back. */
  type Sizes = map<Loc, nat>

  function Noted(sizes: Sizes, q: Request, answer: Answer, failed: bool): Sizes {
    match (q, answer)
    case (AllocReq(size, _), Pointer(loc)) => sizes[loc := size]
    case (FreeReq(loc), Done) => if failed then sizes else sizes - {loc}
    case _ => sizes
  }

  /** The bytes that the event of a held allocation names. */
  function BytesOf(g: Graph, k: nat, loc: Loc): nat
    requires k < |g.stack| && Holds(g, k, loc)
  {
    var ev := Mean(g, k).alloc[loc].ev;
    if ev < |g.es| && g.es[ev].kind.Take? then g.es[ev].kind.bytes else 0
  }

  /** The fewest whole pages, or steps of the small heap, that the size fits into. */
  predicate FewestFor(loc: Loc, units: nat, size: nat) {
    if loc.Large? then size <= units * PAGE < size + PAGE
    else size <= units < size + SMALL_ALIGN && units % SMALL_ALIGN == 0
  }

  /** The allocation is as large as was asked, as far as the rounding does not wrap, and where that size belongs. */
  predicate IsOf(loc: Loc, units: nat, bytes: nat, size: nat) {
    && bytes == size && (loc.Large? <==> size >= SMALL_LIMIT)
    && units == Units(loc, size) && (size <= WORD - PAGE ==> FewestFor(loc, units, size))
  }

  lemma UnitsAreFewest(loc: Loc, size: nat)
    requires size <= WORD - PAGE
    ensures FewestFor(loc, Units(loc, size), size)
  {
    if loc.Large? {
      var x := size + PAGE - 1;
      assert x % WORD == x && AlignUp(size, PAGE) == x - x % PAGE == x / PAGE * PAGE;
    } else {
      var x := size + SMALL_ALIGN - 1;
      assert x % WORD == x && AlignUp(size, SMALL_ALIGN) == x - x % SMALL_ALIGN == x / SMALL_ALIGN * SMALL_ALIGN;
    }
  }

  ghost predicate HeldSomewhere(g: Graph, loc: Loc, size: nat) {
    exists k :: 0 <= k < |g.stack| && Holds(g, k, loc) && IsOf(loc, UnitsOf(g, k, loc), BytesOf(g, k, loc), size)
  }

  /** The book names exactly what is held, with the sizes it has. */
  ghost predicate SizesHold(g: Graph, sizes: Sizes) {
    && (forall k, l :: 0 <= k < |g.stack| && Holds(g, k, l) ==> l in sizes)
    && (forall l :: l in sizes ==> HeldSomewhere(g, l, sizes[l]))
  }

  // ---------------------------------------------------------------- what a step does to what is held

  /** The frame of `r` holds the allocation that the same frame of `g` holds. */
  predicate SameHeld(g: Graph, r: Graph, k: nat, l: Loc) {
    && k < |g.stack| && Holds(g, k, l) && k < |r.stack| && Holds(r, k, l)
    && UnitsOf(r, k, l) == UnitsOf(g, k, l) && BytesOf(r, k, l) == BytesOf(g, k, l)
  }

  /** `r` holds everything that `g` holds, but for one allocation. */
  ghost predicate HoldsAllBut(g: Graph, r: Graph, j: nat, loc: Loc) {
    forall k, l :: 0 <= k < |g.stack| && Holds(g, k, l) && (k, l) != (j, loc) ==> SameHeld(g, r, k, l)
  }

  ghost predicate HoldsAll(g: Graph, r: Graph) {
    forall k, l :: 0 <= k < |g.stack| && Holds(g, k, l) ==> SameHeld(g, r, k, l)
  }

  predicate SameKinds(es: Events, es': Events) {
    |es| <= |es'| && forall n :: 0 <= n < |es| ==> es'[n].kind == es[n].kind
  }

  lemma HeldEventExists(g: Graph, k: nat, l: Loc)
    requires Inv(g) && k < |g.stack| && Holds(g, k, l)
    ensures var ev := Mean(g, k).alloc[l].ev;
      ev < |g.es| && g.es[ev].kind == Take(l, BytesOf(g, k, l)) && UnitsOf(g, k, l) == Units(l, BytesOf(g, k, l)) > 0
  {
    FrameSem(g, k);
    assert MadeBy(g.es, l, Mean(g, k).alloc[l]);
    assert EntryOk(g.space, l, UnitsOf(g, k, l));
  }

  /** An entry that stands for the same event means the same allocation. */
  lemma StillTheSame(g: Graph, r: Graph, k: nat, l: Loc)
    requires Inv(g) && k < |g.stack| && Holds(g, k, l) && SameKinds(g.es, r.es)
    requires k < |r.stack| && Holds(r, k, l) && Mean(r, k).alloc[l] == Mean(g, k).alloc[l]
    ensures SameHeld(g, r, k, l) && SameHeld(r, g, k, l)
  {
    HeldEventExists(g, k, l);
  }

  /** Frames that mean what they meant hold what they held. */
  lemma SameMeansSameHeld(g: Graph, r: Graph)
    requires Inv(g) && |r.stack| == |g.stack| && SameKinds(g.es, r.es)
    requires forall k :: 0 <= k < |g.stack| ==> Mean(r, k) == Mean(g, k)
    ensures HoldsAll(g, r) && HoldsAll(r, g)
  {
    forall k, l | 0 <= k < |g.stack| && Holds(g, k, l) ensures SameHeld(g, r, k, l) { StillTheSame(g, r, k, l); }
    forall k, l | 0 <= k < |r.stack| && Holds(r, k, l) ensures SameHeld(r, g, k, l) { StillTheSame(g, r, k, l); }
  }

  /** The innermost frame took one more. */
  lemma TookHolds(g: Graph, r: Graph, n: nat, loc: Loc, bytes: nat)
    requires Inv(g) && g.stack != [] && |r.stack| == |g.stack| && SameKinds(g.es, r.es)
    requires forall k :: 0 <= k < |g.stack| - 1 ==> Mean(r, k) == Mean(g, k)
    requires Mean(r, |g.stack| - 1) == Apply(Mean(g, |g.stack| - 1), n, Take(loc, bytes))
    requires n > Mean(g, |g.stack| - 1).scope && n < |r.es| && r.es[n].kind == Take(loc, bytes)
    requires loc !in Mean(g, |g.stack| - 1).alloc
    ensures HoldsAll(g, r) && HoldsAllBut(r, g, |g.stack| - 1, loc)
    ensures Holds(r, |g.stack| - 1, loc) && UnitsOf(r, |g.stack| - 1, loc) == Units(loc, bytes) && BytesOf(r, |g.stack| - 1, loc) == bytes
  {
    forall k, l | 0 <= k < |g.stack| && Holds(g, k, l) ensures SameHeld(g, r, k, l) { StillTheSame(g, r, k, l); }
    forall k, l | 0 <= k < |r.stack| && Holds(r, k, l) && (k, l) != (|g.stack| - 1, loc) ensures SameHeld(r, g, k, l) {
      StillTheSame(g, r, k, l);
    }
  }

  /** The innermost frame gave one back. */
  lemma DroppedHolds(g: Graph, r: Graph, n: nat, loc: Loc)
    requires Inv(g) && g.stack != [] && |r.stack| == |g.stack| && SameKinds(g.es, r.es)
    requires forall k :: 0 <= k < |g.stack| - 1 ==> Mean(r, k) == Mean(g, k)
    requires Mean(r, |g.stack| - 1) == Apply(Mean(g, |g.stack| - 1), n, Drop(loc))
    ensures HoldsAllBut(g, r, |g.stack| - 1, loc) && HoldsAll(r, g) && !Holds(r, |g.stack| - 1, loc)
  {
    forall k, l | 0 <= k < |g.stack| && Holds(g, k, l) && (k, l) != (|g.stack| - 1, loc) ensures SameHeld(g, r, k, l) {
      StillTheSame(g, r, k, l);
    }
    forall k, l | 0 <= k < |r.stack| && Holds(r, k, l) ensures SameHeld(r, g, k, l) { StillTheSame(g, r, k, l); }
  }

  lemma HoldsNothing(g: Graph, k: nat)
    requires k < |g.stack| && HeldBy(Mean(g, k)) == {}
    ensures forall l :: !Holds(g, k, l)
  {
    forall l ensures !Holds(g, k, l) { assert l !in HeldBy(Mean(g, k)); }
  }

  /** A frame that holds nothing was opened, or left. */
  lemma OpenedHolds(g: Graph, r: Graph)
    requires Inv(g) && |r.stack| == |g.stack| + 1 && SameKinds(g.es, r.es)
    requires forall k :: 0 <= k < |g.stack| ==> Mean(r, k) == Mean(g, k)
    requires HeldBy(Mean(r, |g.stack|)) == {}
    ensures HoldsAll(g, r) && HoldsAll(r, g)
  {
    HoldsNothing(r, |g.stack|);
    forall k, l | 0 <= k < |g.stack| && Holds(g, k, l) ensures SameHeld(g, r, k, l) { StillTheSame(g, r, k, l); }
    forall k, l | 0 <= k < |r.stack| && Holds(r, k, l) ensures SameHeld(r, g, k, l) {
      StillTheSame(g, r, k, l);
    }
  }

  lemma ClosedHolds(g: Graph, r: Graph)
    requires Inv(g) && g.stack != [] && |r.stack| == |g.stack| - 1 && SameKinds(g.es, r.es)
    requires forall k :: 0 <= k < |r.stack| ==> Mean(r, k) == Mean(g, k)
    requires HeldBy(Mean(g, |g.stack| - 1)) == {}
    ensures HoldsAll(g, r) && HoldsAll(r, g)
  {
    HoldsNothing(g, |r.stack|);
    forall k, l | 0 <= k < |g.stack| && Holds(g, k, l) ensures SameHeld(g, r, k, l) {
      StillTheSame(g, r, k, l);
    }
    forall k, l | 0 <= k < |r.stack| && Holds(r, k, l) ensures SameHeld(r, g, k, l) { StillTheSame(g, r, k, l); }
  }

  // ---------------------------------------------------------------- the book after a step

  lemma SizesUnchanged(g: Graph, r: Graph, sizes: Sizes)
    requires SizesHold(g, sizes) && HoldsAll(g, r) && HoldsAll(r, g)
    ensures SizesHold(r, sizes)
  {
    forall k, l | 0 <= k < |r.stack| && Holds(r, k, l) ensures l in sizes { assert SameHeld(r, g, k, l); }
    forall l | l in sizes ensures HeldSomewhere(r, l, sizes[l]) {
      var k :| 0 <= k < |g.stack| && Holds(g, k, l) && IsOf(l, UnitsOf(g, k, l), BytesOf(g, k, l), sizes[l]);
      assert SameHeld(g, r, k, l);
    }
  }

  lemma SizesOneMore(g: Graph, r: Graph, sizes: Sizes, j: nat, loc: Loc, size: nat)
    requires SizesHold(g, sizes) && HoldsAll(g, r) && HoldsAllBut(r, g, j, loc)
    requires j < |r.stack| && Holds(r, j, loc) && IsOf(loc, UnitsOf(r, j, loc), BytesOf(r, j, loc), size)
    ensures SizesHold(r, sizes[loc := size])
  {
    forall k, l | 0 <= k < |r.stack| && Holds(r, k, l) ensures l in sizes[loc := size] {
      if (k, l) != (j, loc) { assert SameHeld(r, g, k, l); }
    }
    var noted := sizes[loc := size];
    forall l | l in noted ensures HeldSomewhere(r, l, noted[l]) {
      if l != loc {
        var k :| 0 <= k < |g.stack| && Holds(g, k, l) && IsOf(l, UnitsOf(g, k, l), BytesOf(g, k, l), sizes[l]);
        assert SameHeld(g, r, k, l);
      }
    }
  }

  lemma SizesOneLess(g: Graph, r: Graph, sizes: Sizes, j: nat, loc: Loc)
    requires Inv(g) && SizesHold(g, sizes) && HoldsAllBut(g, r, j, loc) && HoldsAll(r, g)
    requires j < |g.stack| && Holds(g, j, loc) && j < |r.stack| && !Holds(r, j, loc)
    ensures SizesHold(r, sizes - {loc})
  {
    forall k, l | 0 <= k < |r.stack| && Holds(r, k, l) ensures l in sizes - {loc} {
      assert SameHeld(r, g, k, l);
      if l == loc { if k <= j { HeldAreApart(g, k, l, j, loc); } else { HeldAreApart(g, j, loc, k, l); } }
    }
    forall l | l in sizes - {loc} ensures HeldSomewhere(r, l, (sizes - {loc})[l]) {
      var k :| 0 <= k < |g.stack| && Holds(g, k, l) && IsOf(l, UnitsOf(g, k, l), BytesOf(g, k, l), sizes[l]);
      assert SameHeld(g, r, k, l);
    }
  }

  // ---------------------------------------------------------------- each request

  lemma ReadyHolds(g: Graph)
    requires Inv(g) && !g.failed && g.stack != []
    ensures HoldsAll(g, Ready(g)) && HoldsAll(Ready(g), g)
  {
    ReadyKeeps(g);
    SameMeansSameHeld(g, Ready(g));
  }

  /** A child of the cursor is made at a place where the frame has nothing. */
  lemma ChildIsFree(g: Graph, c: nat)
    requires Inv(g) && g.stack != [] && Top(g).cursor < |g.es|
    requires c < |g.es| && c in g.es[Top(g).cursor].next && g.es[c].kind.Take?
    ensures Mean(g, |g.stack| - 1).scope < c && g.es[c].kind.loc !in Mean(g, |g.stack| - 1).alloc
  {
    ScopeIsBefore(g, |g.stack| - 1);
    assert NodeOk(g.es, g.space, Top(g).cursor);
    assert NodeOk(g.es, g.space, c);
  }

  lemma MatchedTakeHolds(g: Graph, c: nat)
    requires Inv(g) && !g.failed && g.stack != [] && Top(g).cursor < |g.es| && !Top(g).recording
    requires c < |g.es| && c in g.es[Top(g).cursor].next && g.es[c].kind.Take?
    ensures var (r, top, loc, bytes) := (Advance(g, c), |g.stack| - 1, g.es[c].kind.loc, g.es[c].kind.bytes);
      && HoldsAll(g, r) && HoldsAllBut(r, g, top, loc)
      && Holds(r, top, loc) && UnitsOf(r, top, loc) == Units(loc, bytes) && BytesOf(r, top, loc) == bytes
  {
    AdvanceKeeps(g, c);
    ChildIsFree(g, c);
    OuterMeans(g, Advance(g, c));
    hide Inv, Advance, Holds;
    TookHolds(g, Advance(g, c), c, g.es[c].kind.loc, g.es[c].kind.bytes);
  }

  lemma RecordedTakeHolds(g: Graph, loc: Loc, size: nat, sp: Space, phys: nat, small: nat)
    requires Inv(g) && !g.failed && g.stack != [] && Top(g).cursor < |g.es| && Top(g).recording
    requires Grows(g.space, sp) && CanTake(sp, g.alloc, loc, Units(loc, size))
    ensures var (r, top) := (RecordTake(g, loc, size, sp, phys, small), |g.stack| - 1);
      && |r.stack| == |g.stack| && HoldsAll(g, r) && HoldsAllBut(r, g, top, loc)
      && Holds(r, top, loc) && UnitsOf(r, top, loc) == Units(loc, size) && BytesOf(r, top, loc) == size
  {
    var r, top := RecordTake(g, loc, size, sp, phys, small), |g.stack| - 1;
    RecordTakeKeeps(g, loc, size, sp, phys, small);
    AppendGrows(g.es, Top(g).cursor, Take(loc, size));
    ScopeIsBefore(g, top);
    TakeFitsMeaning(g, loc, Units(loc, size), sp);
    OuterMeans(g, r);
    hide Inv, Append, CanTake;
    TookHolds(g, r, |g.es|, loc, size);
  }

  lemma ReadyNotes(g: Graph, sizes: Sizes)
    requires Inv(g) && !g.failed && g.stack != [] && SizesHold(g, sizes)
    ensures var r := Ready(g);
      && Inv(r) && SizesHold(r, sizes) && |r.stack| == |g.stack| && r.es == g.es && Top(r).cursor == Top(g).cursor
      && (!r.failed ==> Top(r).recording) && forall k :: 0 <= k < |g.stack| ==> Mean(r, k) == Mean(g, k)
  {
    hide Inv, Mean, Meaning, SizesHold, HoldsAll;
    ReadyKeeps(g);
    ReadyHolds(g);
    SizesUnchanged(g, Ready(g), sizes);
  }

  lemma MatchedAllocNotes(g: Graph, sizes: Sizes, c: nat)
    requires Inv(g) && !g.failed && g.stack != [] && Top(g).cursor < |g.es| && !Top(g).recording && SizesHold(g, sizes)
    requires c < |g.es| && c in g.es[Top(g).cursor].next && g.es[c].kind.Take?
    requires g.es[c].kind.loc.Large? <==> g.es[c].kind.bytes >= SMALL_LIMIT
    ensures SizesHold(Advance(g, c), sizes[g.es[c].kind.loc := g.es[c].kind.bytes])
  {
    hide Inv, SizesHold, HoldsAll, HoldsAllBut, FewestFor, Units;
    MatchedTakeHolds(g, c);
    if g.es[c].kind.bytes <= WORD - PAGE { UnitsAreFewest(g.es[c].kind.loc, g.es[c].kind.bytes); }
    SizesOneMore(g, Advance(g, c), sizes, |g.stack| - 1, g.es[c].kind.loc, g.es[c].kind.bytes);
  }

  lemma RecordedAllocNotes(g: Graph, sizes: Sizes, size: nat, place: Place)
    requires Inv(g) && !g.failed && g.stack != [] && Top(g).cursor < |g.es| && Top(g).recording && SizesHold(g, sizes)
    requires PlaceOk(g, size, place) && place.Place?
    ensures SizesHold(RecordTake(g, place.loc, size, place.space, place.physCount, place.smallPages), sizes[place.loc := size])
  {
    hide Inv, SizesHold, HoldsAll, HoldsAllBut, RecordTake, FewestFor, Units;
    var r := RecordTake(g, place.loc, size, place.space, place.physCount, place.smallPages);
    RecordedTakeHolds(g, place.loc, size, place.space, place.physCount, place.smallPages);
    if size <= WORD - PAGE { UnitsAreFewest(place.loc, size); }
    SizesOneMore(g, r, sizes, |g.stack| - 1, place.loc, size);
  }

  lemma FailNotes(g: Graph, sizes: Sizes, sp: Space, phys: nat, small: nat)
    requires Inv(g) && SizesHold(g, sizes)
    ensures SizesHold(Fail(g.(space := sp, physCount := phys, smallPages := small)), sizes)
  {
    var r := Fail(g.(space := sp, physCount := phys, smallPages := small));
    assert forall k :: 0 <= k < |g.stack| ==> Mean(r, k) == Mean(g, k);
    hide Inv, Mean;
    SameMeansSameHeld(g, r);
    SizesUnchanged(g, r, sizes);
  }

  lemma AllocNotes(g: Graph, sizes: Sizes, size: nat, place: Place)
    requires Inv(g) && !g.failed && g.stack != [] && SizesHold(g, sizes) && Top(g).cursor < |g.es|
    requires PlaceOk(Ready(g), size, place)
    ensures var (r, answer) := DoAlloc(g, size, place); SizesHold(r, Noted(sizes, AllocReq(size, place), answer, r.failed))
  {
    hide Inv, SizesHold, Advance, RecordTake, Ready, PlaceOk, Fail;
    var found := if Top(g).recording then Nothing else Find(g.es, Top(g).cursor, KTake(size >= SMALL_LIMIT, size));
    if found.Child? {
      MatchedAllocNotes(g, sizes, found.node);
    } else {
      var r := Ready(g);
      ReadyNotes(g, sizes);
      if !r.failed {
        if place.Place? {
          RecordedAllocNotes(r, sizes, size, place);
        } else {
          FailNotes(r, sizes, place.space, place.physCount, place.smallPages);
        }
      }
    }
  }

  /** What a recorded path frees, the frame holds: an outer frame's allocation is never on it. */
  lemma MatchedDropIsOwn(g: Graph, c: nat, loc: Loc, k: nat)
    requires Inv(g) && g.stack != [] && Top(g).cursor < |g.es| && k < |g.stack| && Holds(g, k, loc)
    requires c < |g.es| && c in g.es[Top(g).cursor].next && g.es[c].kind == Drop(loc)
    ensures k == |g.stack| - 1
  {
    assert NodeOk(g.es, g.space, Top(g).cursor);
    assert NodeOk(g.es, g.space, c);
    if k < |g.stack| - 1 { HeldOutside(g, k, |g.stack| - 1, loc); }
  }

  lemma MatchedDropHolds(g: Graph, c: nat, loc: Loc)
    requires Inv(g) && !g.failed && g.stack != [] && Top(g).cursor < |g.es| && !Top(g).recording
    requires c < |g.es| && c in g.es[Top(g).cursor].next && g.es[c].kind == Drop(loc)
    ensures var (r, top) := (Advance(g, c), |g.stack| - 1); HoldsAllBut(g, r, top, loc) && HoldsAll(r, g) && !Holds(r, top, loc)
  {
    AdvanceKeeps(g, c);
    DroppedHolds(g, Advance(g, c), c, loc);
  }

  lemma RecordedDropHolds(g: Graph, loc: Loc)
    requires Inv(g) && !g.failed && g.stack != [] && Top(g).cursor < |g.es| && Top(g).recording
    requires Holds(g, |g.stack| - 1, loc)
    ensures var (r, top) := (RecordDrop(g, loc), |g.stack| - 1);
      !r.failed && HoldsAllBut(g, r, top, loc) && HoldsAll(r, g) && |r.stack| == |g.stack| && !Holds(r, top, loc)
  {
    var r := RecordDrop(g, loc);
    RecordDropKeeps(g, loc);
    AppendGrows(g.es, Top(g).cursor, Drop(loc));
    OuterMeans(g, r);
    hide Inv, Append;
    DroppedHolds(g, r, |g.es|, loc);
  }

  lemma FreeNotes(g: Graph, sizes: Sizes, loc: Loc, k: nat)
    requires Inv(g) && !g.failed && k < |g.stack| && Holds(g, k, loc) && SizesHold(g, sizes) && Top(g).cursor < |g.es|
    ensures var (r, answer) := DoFree(g, loc); answer == Done && SizesHold(r, if r.failed then sizes else sizes - {loc})
  {
    hide Inv, SizesHold, RecordDrop, Ready, Mean;
    var found := if Top(g).recording then Nothing else Find(g.es, Top(g).cursor, KDrop(loc));
    if found.Child? {
      MatchedFreeNotes(g, sizes, found.node, loc, k);
    } else {
      ReadyNotes(g, sizes);
      assert Mean(Ready(g), k) == Mean(g, k) && (Holds(Ready(g), k, loc) <==> Holds(g, k, loc));
      if !Ready(g).failed { RecordedFreeNotes(Ready(g), sizes, loc, k); }
    }
  }

  lemma MatchedFreeNotes(g: Graph, sizes: Sizes, c: nat, loc: Loc, k: nat)
    requires Inv(g) && !g.failed && g.stack != [] && SizesHold(g, sizes) && k < |g.stack| && Holds(g, k, loc)
    requires Top(g).cursor < |g.es| && !Top(g).recording
    requires c < |g.es| && c in g.es[Top(g).cursor].next && g.es[c].kind == Drop(loc)
    ensures SizesHold(Advance(g, c), sizes - {loc})
  {
    MatchedDropIsOwn(g, c, loc, k);
    MatchedDropHolds(g, c, loc);
    SizesOneLess(g, Advance(g, c), sizes, |g.stack| - 1, loc);
  }

  lemma RecordedFreeNotes(g: Graph, sizes: Sizes, loc: Loc, k: nat)
    requires Inv(g) && !g.failed && SizesHold(g, sizes) && k < |g.stack| && Holds(g, k, loc)
    requires Top(g).cursor < |g.es| && Top(g).recording
    ensures var r := RecordDrop(g, loc); SizesHold(r, if r.failed then sizes else sizes - {loc})
  {
    var top := |g.stack| - 1;
    if k == top {
      RecordedDropHolds(g, loc);
      SizesOneLess(g, RecordDrop(g, loc), sizes, top, loc);
    } else {
      DropOutsideFails(g, loc, k);
      FailNotes(g, sizes, g.space, g.physCount, g.smallPages);
    }
  }

  lemma EnteredHolds(g: Graph, call: nat)
    requires Inv(g) && !g.failed && g.stack != [] && Top(g).cursor < |g.es| && call < |g.es|
    requires call in g.es[Top(g).cursor].next && g.es[call].kind.Call?
    ensures var r := Enter(g, g.es[call].kind.scope); HoldsAll(g, r) && HoldsAll(r, g)
  {
    EnterKeeps(g, call);
    FreshFrame(Enter(g, g.es[call].kind.scope));
    OpenedHolds(g, Enter(g, g.es[call].kind.scope));
  }

  lemma CalledHolds(g: Graph, name: string)
    requires Inv(g) && !g.failed && g.stack != [] && Top(g).cursor < |g.es| && Top(g).recording
    ensures HoldsAll(g, RecordCall(g, name)) && HoldsAll(RecordCall(g, name), g)
  {
    RecordCallKeeps(g, name);
    FreshFrame(RecordCall(g, name));
    CallTree(g, name);
    hide Inv, Append;
    OpenedHolds(g, RecordCall(g, name));
  }

  lemma PushNotes(g: Graph, sizes: Sizes, name: string)
    requires Inv(g) && !g.failed && g.stack != [] && SizesHold(g, sizes) && Top(g).cursor < |g.es|
    ensures SizesHold(DoPush(g, name).0, sizes)
  {
    var found := Find(g.es, Top(g).cursor, KCall(name));
    if found.Child? {
      EnteredHolds(g, found.node);
      SizesUnchanged(g, Enter(g, g.es[found.node].kind.scope), sizes);
    } else {
      var r := Ready(g);
      ReadyNotes(g, sizes);
      if !r.failed {
        CalledHolds(r, name);
        SizesUnchanged(r, RecordCall(r, name), sizes);
      }
    }
  }

  lemma ClosedFrameHolds(g: Graph)
    requires Inv(g) && g.stack != [] && HeldBy(Mean(g, |g.stack| - 1)) == {}
    ensures HoldsAll(g, Close(g)) && HoldsAll(Close(g), g)
  {
    CloseKeeps(g);
    ClosedHolds(g, Close(g));
  }

  lemma EndedFrameHolds(g: Graph)
    requires Inv(g) && !g.failed && g.stack != [] && Top(g).cursor < |g.es| && Top(g).recording
    requires HeldBy(Mean(g, |g.stack| - 1)) == {}
    ensures HoldsAll(g, RecordEnd(g)) && HoldsAll(RecordEnd(g), g)
  {
    FrameSem(g, |g.stack| - 1);
    NothingTracked(g.es, g.space, Mean(g, |g.stack| - 1));
    RecordEndKeeps(g);
    AppendGrows(g.es, Top(g).cursor, End);
    ClosedHolds(g, RecordEnd(g));
  }

  lemma PopNotes(g: Graph, ledger: Ledger, sizes: Sizes)
    requires Inv(g) && !g.failed && g.stack != [] && Agrees(g, ledger) && SizesHold(g, sizes) && Top(g).cursor < |g.es|
    requires Fair(ledger, PopReq)
    ensures SizesHold(DoPop(g).0, sizes)
  {
    var found := if Top(g).recording then Nothing else Find(g.es, Top(g).cursor, KEnd);
    var top := |g.stack| - 1;
    if found.Child? {
      ClosedFrameHolds(g);
      SizesUnchanged(g, Close(g), sizes);
    } else {
      var r := Ready(g);
      ReadyNotes(g, sizes);
      if !r.failed {
        FrameSem(r, top);
        NothingTracked(r.es, r.space, Mean(r, top));
        assert FrameOk(r, top);
        EndedFrameHolds(r);
        SizesUnchanged(r, RecordEnd(r), sizes);
      }
    }
  }

  lemma StepNotes(g: Graph, ledger: Ledger, sizes: Sizes, q: Request)
    requires Inv(g) && Agrees(g, ledger) && SizesHold(g, sizes) && Fair(ledger, q) && Sound(g, q)
    ensures var (r, answer) := Step(g, q); SizesHold(r, Noted(sizes, q, answer, r.failed))
  {
    CursorOk(g);
    if !g.failed {
      if q.RootReq? {
        if g.stack == [] {
          PushRootKeeps(g);
          FreshFrame(PushRoot(g));
          OpenedHolds(g, PushRoot(g));
          SizesUnchanged(g, PushRoot(g), sizes);
        }
      } else if g.stack != [] {
        match q
        case AllocReq(size, place) => AllocNotes(g, sizes, size, place);
        case FreeReq(loc) =>
          var k :| 0 <= k < |ledger| && loc in ledger[k];
          assert Holds(g, k, loc);
          FreeNotes(g, sizes, loc, k);
        case PushReq(name) => PushNotes(g, sizes, name);
        case PopReq => PopNotes(g, ledger, sizes);
      }
    }
  }

  // ---------------------------------------------------------------- runs

  /** What the client has written down after the run. */
  function SizesAfter(g: Graph, sizes: Sizes, qs: seq<Request>): Sizes
    decreases |qs|
  {
    if qs == [] then sizes
    else
      var (r, answer) := Step(g, qs[0]);
      SizesAfter(r, Noted(sizes, qs[0], answer, r.failed), qs[1..])
  }

  /**
    In every run every pointer that was not given back is held by an open frame, with exactly the
    extent and in the class of the size asked with it, whether it was replayed or recorded; and
    nothing is held that no client asked for.
  */
  lemma {:induction false} SizesAreAsAsked(g: Graph, ledger: Ledger, sizes: Sizes, qs: seq<Request>)
    requires Inv(g) && Agrees(g, ledger) && SizesHold(g, sizes) && FairRun(g, ledger, qs)
    ensures SizesHold(Run(g, ledger, qs).0, SizesAfter(g, sizes, qs))
    decreases |qs|
  {
    if qs != [] {
      StepKeeps(g, ledger, qs[0]);
      StepNotes(g, ledger, sizes, qs[0]);
      var (r, answer) := Step(g, qs[0]);
      SizesAreAsAsked(r, Record(ledger, qs[0], answer, r.failed), Noted(sizes, qs[0], answer, r.failed), qs[1..]);
    }
  }
}
