/**
  Which recorded allocation a replaying frame hands out again once something leaked, told page
  by page: the first of the size asked for that shares no page with a live candidate or rogue.
*/
module GraphWorldOffers {
  import opened GraphModel
  import opened GraphTree
  import opened GraphSafety
  import opened GraphRuns
  import opened GraphCollect
  import opened GraphSmall
  import opened GraphWorld
  import opened GraphWorldSafety
  import F = GraphFinalize

  /** No 8 MiB page of the heap holds bytes of both. */
  predicate PagesApart(o: nat, n: nat, offset: nat, bytes: nat) {
    forall x, y :: o <= x < o + n && offset <= y < offset + bytes ==> x / PAGE != y / PAGE
  }

  /** No page of the allocation was given away, and none is shared with a large candidate. */
  predicate Untouched(w: World, va: nat, units: nat)
    requires va + units <= |w.g.space.vaPhys| && va + units <= |w.b.holes|
  {
    forall i :: va <= i < va + units ==> w.b.holes[i] == 0 && !Candidates(w, w.g.space.vaPhys[i])
  }

  predicate Candidates(w: World, page: int) {
    exists j, i :: 0 <= j < |w.leaks| && w.leaks[j].loc.Large? && w.leaks[j].loc.va <= i < w.leaks[j].loc.va + w.leaks[j].units &&
                   i < |w.g.space.vaPhys| && w.g.space.vaPhys[i] == page
  }

  predicate Usable(w: World, loc: Loc, units: nat)
    requires loc.Large? ==> loc.va + units <= |w.g.space.vaPhys| && loc.va + units <= |w.b.holes|
  {
    if loc.Large? then Untouched(w, loc.va, units)
    else
      && (forall j :: 0 <= j < |w.leaks| && w.leaks[j].loc.Small? && !w.leaks[j].freed ==>
            PagesApart(loc.offset, units, w.leaks[j].loc.offset, w.leaks[j].bytes))
      && (forall j :: 0 <= j < |w.rogues| && w.rogues[j].loc.Small? ==>
            PagesApart(loc.offset, units, w.rogues[j].loc.offset, w.rogues[j].bytes))
  }

  /** The child records an allocation of exactly this size that may be handed out. */
  predicate Serves(w: World, c: nat, size: nat) {
    && c < |w.g.es| && w.g.es[c].kind.Take?
    && w.g.es[c].kind.bytes == size && (w.g.es[c].kind.loc.Large? <==> size >= SMALL_LIMIT)
    && var loc := w.g.es[c].kind.loc; var units := Units(loc, size);
       (loc.Large? ==> loc.va + units <= |w.g.space.vaPhys| && loc.va + units <= |w.b.holes|) && Usable(w, loc, units)
  }

  // ---------------------------------------------------------------- pages of the heap

  lemma PageBounds(x: nat, p: nat)
    ensures x / PAGE < p <==> x < p * PAGE
    ensures p <= x / PAGE <==> p * PAGE <= x
  {}

  /** The scan's stretch test is the test on pages. */
  lemma OffPagesMeans(o: nat, n: nat, offset: nat, bytes: nat)
    requires n > 0 && bytes > 0 && offset + bytes <= HEAP
    ensures OffPages(o, n, offset, bytes) <==> PagesApart(o, n, offset, bytes)
  {
    var s := Span(offset, bytes);
    AlignUpIsNext(EndOf(s), PAGE);
    var first, end := offset / PAGE, AlignUp(EndOf(s), PAGE) / PAGE;
    var page := PageSpan(s);
    assert page.offset == first * PAGE && EndOf(page) == end * PAGE;
    if Clear(page, o, n) {
      forall x, y | o <= x < o + n && offset <= y < offset + bytes ensures x / PAGE != y / PAGE {
        PageBounds(x, first);
        PageBounds(x, end);
        PageBounds(y, first);
        PageBounds(y, end);
      }
    } else if o < first * PAGE {
      assert (first * PAGE) / PAGE == offset / PAGE;
    } else {
      var p := o / PAGE;
      PageBounds(o, first);
      PageBounds(o, end);
      var y := if p == first then offset else p * PAGE;
      PageBounds(y, p);
      PageBounds(y, p + 1);
      assert offset <= y < offset + bytes && y / PAGE == o / PAGE;
    }
  }

  // ---------------------------------------------------------------- what is handed out

  lemma UsableIsAvailable(w: World, loc: Loc, units: nat)
    requires WorldInv(w) && EntryOk(w.g.space, loc, units)
    ensures |w.b.holes| == |w.g.space.vaPhys|
    ensures Usable(w, loc, units) <==> Available(w, loc, units)
  {
    hide Severed, HeldFit, RoguesApart, LeaksApart;
    if loc.Small? {
      forall j | 0 <= j < |w.leaks| && w.leaks[j].loc.Small? && !w.leaks[j].freed
        ensures PagesApart(loc.offset, units, w.leaks[j].loc.offset, w.leaks[j].bytes)
                <==> OffPages(loc.offset, units, w.leaks[j].loc.offset, w.leaks[j].bytes)
      {
        assert LeakOk(w, w.leaks[j]);
        OffPagesMeans(loc.offset, units, w.leaks[j].loc.offset, w.leaks[j].bytes);
      }
      forall j | 0 <= j < |w.rogues| && w.rogues[j].loc.Small?
        ensures PagesApart(loc.offset, units, w.rogues[j].loc.offset, w.rogues[j].bytes)
                <==> OffPages(loc.offset, units, w.rogues[j].loc.offset, w.rogues[j].bytes)
      {
        assert RogueOk(w.b, w.rogues[j]);
        OffPagesMeans(loc.offset, units, w.rogues[j].loc.offset, w.rogues[j].bytes);
      }
    } else {
      forall i | loc.va <= i < loc.va + units
        ensures Candidates(w, w.g.space.vaPhys[i]) <==>
                exists j :: 0 <= j < |w.leaks| && HasPage(w.g.space, w.leaks[j], w.g.space.vaPhys[i])
      {
        CandidatesMeans(w, w.g.space.vaPhys[i]);
      }
    }
  }

  lemma CandidatesMeans(w: World, page: int)
    ensures Candidates(w, page) <==> exists j :: 0 <= j < |w.leaks| && HasPage(w.g.space, w.leaks[j], page)
  {}

  /** What a replayed child takes is inside the space. */
  lemma ChildIsThere(w: World, c: nat)
    requires WorldInv(w) && !w.g.failed && w.g.stack != [] && Top(w.g).cursor < |w.g.es| && !Top(w.g).recording
    requires c < |w.g.es| && c in w.g.es[Top(w.g).cursor].next && w.g.es[c].kind.Take?
    ensures EntryOk(w.g.space, w.g.es[c].kind.loc, Units(w.g.es[c].kind.loc, w.g.es[c].kind.bytes))
  {
    AdvanceKeeps(w.g, c);
    FrameSem(Advance(w.g, c), |w.g.stack| - 1);
    var s := Mean(Advance(w.g, c), |w.g.stack| - 1);
    assert w.g.es[c].kind.loc in s.alloc;
  }

  lemma ServesIsOffered(w: World, c: nat, size: nat)
    requires WorldInv(w) && !w.g.failed && w.g.stack != [] && Top(w.g).cursor < |w.g.es| && !Top(w.g).recording
    requires c in w.g.es[Top(w.g).cursor].next
    ensures Serves(w, c, size) <==> Offers(w, c, KTake(size >= SMALL_LIMIT, size))
  {
    hide WorldInv, Usable, Available;
    if c < |w.g.es| && w.g.es[c].kind.Take? {
      var loc, bytes := w.g.es[c].kind.loc, w.g.es[c].kind.bytes;
      ChildIsThere(w, c);
      UsableIsAvailable(w, loc, Units(loc, bytes));
    }
  }

  /**
    A replaying frame answers a request from the tree exactly when some child serves it, with the
    first such child, and changes nothing else; otherwise it breaks, as if it had no children.
  */
  lemma FirstServingIsHandedOut(w: World, size: nat, place: Place)
    requires WorldInv(w) && !w.g.failed && w.g.stack != [] && Top(w.g).cursor < |w.g.es| && !Top(w.g).recording
    ensures var (r, answer) := AskAlloc(w, size, place); var next := w.g.es[Top(w.g).cursor].next;
      && (forall i :: 0 <= i < |next| && Serves(w, next[i], size) && (forall j :: 0 <= j < i ==> !Serves(w, next[j], size)) ==>
            r == w.(g := Advance(w.g, next[i])) && answer == Pointer(w.g.es[next[i]].kind.loc))
      && ((forall i :: 0 <= i < |next| ==> !Serves(w, next[i], size)) ==> r.g.failed || Top(r.g).recording)
  {
    var next := w.g.es[Top(w.g).cursor].next;
    var key := KTake(size >= SMALL_LIMIT, size);
    var k := FindOffer(w, next, key, 0);
    forall i | 0 <= i < |next| ensures Serves(w, next[i], size) <==> Offers(w, next[i], key) { ServesIsOffered(w, next[i], size); }
    hide WorldInv, Serves, Offers;
    forall i | 0 <= i < |next| && Serves(w, next[i], size) && (forall j :: 0 <= j < i ==> !Serves(w, next[j], size))
      ensures i == k
    {
      assert Offers(w, next[i], key);
    }
  }

  // ---------------------------------------------------------------- nothing leaked

  predicate NothingLeaked(w: World) {
    w.leaks == [] && w.rogues == [] && forall i :: 0 <= i < |w.b.holes| ==> w.b.holes[i] == 0
  }

  lemma {:induction false} OffersAll(w: World, next: seq<nat>, key: Key, i: nat)
    requires NothingLeaked(w) && i <= |next|
    ensures FindOffer(w, next, key, i) == FindChild(w.g.es, next, key, i)
    decreases |next| - i
  {
    if i < |next| { OffersAll(w, next, key, i + 1); }
  }

  /** Until something leaks, allocating is what it is without leaks. */
  lemma PlainUntilLeaked(w: World, size: nat, place: Place)
    requires NothingLeaked(w) && w.g.stack != [] && Top(w.g).cursor < |w.g.es|
    ensures var (r, answer) := AskAlloc(w, size, place);
      (r.g, answer) == DoAlloc(w.g, size, place) && r.leaks == [] && r.rogues == []
  {
    OffersAll(w, w.g.es[Top(w.g).cursor].next, KTake(size >= SMALL_LIMIT, size), 0);
  }
}
