/**
  The allocation-graph compiler as the object its lock guards.  Its methods replay, record,
  break and rebuild in place; their contracts tie every field to the model.
*/
module GraphCompilers {
  import opened GraphModel
  import opened GraphTree
  import opened GraphSafety
  import opened GraphRuns
  import opened GraphRebuild
  import opened GraphPages
  import opened GraphSmall
  import opened GraphPeak
  import opened GraphPlaced
  import opened GraphRep
  import opened GraphTables

  /** Everything that stays true between calls of a graph that has not failed. */
  ghost predicate Faithful(g: Graph, t: Tables, saved: Saved) {
    && PagesOk(g) && HeapOk(g) && |g.space.vaPhys| <= MAX_PAGES && g.physCount <= MAX_PAGES
    && Shows(t, g.alloc, g.space, g.physCount)
    && SavedOk(g.es, saved, g.space, g.physCount) && DropsFind(g.es)
  }

  class GraphCompiler {
    var events: Events
    var saved: Saved
    var stack: seq<Frame>
    const physicalLive: array<bool>
    const virtualPages: array<VirtualPage>
    var smallRanges: seq<SmallRange>
    var used: int
    var vaPhys: seq<int>
    var smallSize: nat
    var physCount: nat
    var smallPages: nat
    const assertBreaks: bool
    var failed: bool
    // What the tables show, as the value that a recorded scope's event carries in the tree.
    var alloc: Alloc

    ghost function State(): Graph
      reads this
    {
      Graph(events, stack, alloc, Space(vaPhys, smallSize), physCount, smallPages, assertBreaks, failed)
    }

    function CurrentTables(): Tables
      reads this, physicalLive, virtualPages
    {
      Tables(virtualPages[..], physicalLive[..], smallRanges, used)
    }

    ghost predicate Valid()
      reads this, physicalLive, virtualPages
    {
      Inv(State()) && (!failed ==> Faithful(State(), CurrentTables(), saved))
    }

    constructor (assertBreaks: bool)
      ensures Valid() && fresh(physicalLive) && fresh(virtualPages) && State() == Created(assertBreaks)
    {
      physicalLive := new bool[MAX_PAGES](i => false);
      virtualPages := new VirtualPage[MAX_PAGES](i => NO_PAGE);
      events := [Event(Scope(map[], 1), 0, [])];
      stack := [Frame(0, [], 1, true, false)];
      smallRanges, used, vaPhys, smallSize, physCount, smallPages := [], 0, [], 0, 0, 0;
      this.assertBreaks, failed, alloc := assertBreaks, false, map[];
      saved := map[];
      new;
      saved := map[0 := Snapshot(virtualPages[..], physicalLive[..], smallRanges)];
      CreatedInv(assertBreaks);
      NothingUsed(virtualPages[..], |virtualPages[..]|);
      LiveCountIsBounded(Space([], 0), map[], 0);
    }

    // ---------------------------------------------------------------- finding and appending events

    /** The first child of the cursor that answers the key. */
    method FindEvent(key: Key) returns (found: Found)
      requires stack != [] && stack[|stack| - 1].cursor < |events|
      ensures found == Find(events, stack[|stack| - 1].cursor, key)
      ensures key.KTake? && found.Nothing? ==>
                forall c :: c in events[stack[|stack| - 1].cursor].next && c < |events| && events[c].kind.Take? ==>
                  events[c].kind.bytes != key.bytes || events[c].kind.loc.Large? != key.large
      ensures key.KTake? && found.Child? ==>
                && found.node in events[stack[|stack| - 1].cursor].next && found.node < |events| && events[found.node].kind.Take?
                && events[found.node].kind.bytes == key.bytes && events[found.node].kind.loc.Large? == key.large
    {
      var next := events[stack[|stack| - 1].cursor].next;
      var i := 0;
      while i < |next|
        invariant i <= |next| && FindChild(events, next, key, 0) == FindChild(events, next, key, i)
      {
        if next[i] < |events| && Matches(events[next[i]].kind, key) {
          return Child(next[i]);
        }
        i := i + 1;
      }
      return Nothing;
    }

    // ---------------------------------------------------------------- tables in place

    /** Sets the marks of the pages behind part of the virtual space. */
    method MarkPages(va: nat, n: nat, value: bool)
      requires va + n <= |vaPhys| && InRange(vaPhys, physicalLive.Length)
      modifies physicalLive
      ensures physicalLive[..] == Marked(old(physicalLive[..]), vaPhys, va, n, value)
    {
      ghost var before := physicalLive[..];
      for i := 0 to n
        invariant physicalLive[..] == Marked(before, vaPhys, va, i, value)
      {
        physicalLive[vaPhys[va + i]] := value;
      }
    }

    method InsertRange(range: SmallRange)
      modifies this`smallRanges
      ensures smallRanges == Inserted(old(smallRanges), range)
    {
      var i := 0;
      while i < |smallRanges| && smallRanges[i].offset < range.offset
        invariant i <= |smallRanges| && Position(smallRanges, range.offset, 0) == Position(smallRanges, range.offset, i)
      {
        i := i + 1;
      }
      smallRanges := smallRanges[..i] + [range] + smallRanges[i..];
    }

    method LocateRange(offset: nat) returns (i: nat)
      ensures i == Position(smallRanges, offset, 0)
    {
      i := 0;
      while i < |smallRanges| && smallRanges[i].offset < offset
        invariant i <= |smallRanges| && Position(smallRanges, offset, 0) == Position(smallRanges, offset, i)
      {
        i := i + 1;
      }
    }

    method TakeLargeTables(va: nat, e: Entry)
      requires virtualPages.Length == physicalLive.Length == MAX_PAGES && va < MAX_PAGES
      requires va + e.units <= |vaPhys| && InRange(vaPhys, MAX_PAGES)
      modifies this`used, physicalLive, virtualPages
      ensures CurrentTables() == TookLarge(old(CurrentTables()), vaPhys, va, e)
    {
      MarkPages(va, e.units, true);
      virtualPages[va] := VirtualPage(e.units, e.depth, e.ev);
      used := used + e.units * PAGE;
    }

    method DropLargeTables(va: nat)
      requires virtualPages.Length == physicalLive.Length == MAX_PAGES && va < MAX_PAGES
      requires va + virtualPages[va].span <= |vaPhys| && InRange(vaPhys, MAX_PAGES)
      modifies this`used, physicalLive, virtualPages
      ensures CurrentTables() == DroppedLarge(old(CurrentTables()), vaPhys, va)
    {
      var span := virtualPages[va].span;
      MarkPages(va, span, false);
      used := used - span * PAGE;
      virtualPages[va] := NO_PAGE;
    }

    method TakeSmallTables(o: nat, e: Entry)
      modifies this`used, this`smallRanges
      ensures CurrentTables() == TookSmall(old(CurrentTables()), o, e)
    {
      InsertRange(SmallRange(o, e.units, e.depth, e.ev));
      used := used + e.units;
    }

    method DropSmallTables(i: nat)
      requires i < |smallRanges|
      modifies this`used, this`smallRanges
      ensures CurrentTables() == DroppedSmall(old(CurrentTables()), i)
    {
      used := used - smallRanges[i].bytes;
      smallRanges := smallRanges[..i] + smallRanges[i + 1..];
    }

    // ---------------------------------------------------------------- rebuilding

    /** Takes an event off the frame's list of tracked allocations. */
    method Untracked(tracked: seq<nat>, e: nat) returns (rest: seq<nat>)
      ensures rest == Untrack(tracked, e)
    {
      var i := 0;
      while i < |tracked| && tracked[i] != e
        invariant i <= |tracked| && Untrack(tracked, e) == tracked[..i] + Untrack(tracked[i..], e)
      {
        assert tracked[i..] == [tracked[i]] + tracked[i + 1..] && tracked[..i] + [tracked[i]] == tracked[..i + 1];
        i := i + 1;
      }
      if i == |tracked| {
        return tracked;
      }
      assert tracked[i..][1..] == tracked[i + 1..];
      return tracked[..i] + tracked[i + 1..];
    }

    /** The bytes in use: a page for every set mark, and the bytes of every range. */
    method RecomputeUsed() returns (bytes: nat)
      requires physCount <= physicalLive.Length
      ensures bytes == AllocationUsed(physicalLive[..], physCount, smallRanges)
    {
      bytes := 0;
      for i := 0 to physCount
        invariant bytes == PAGE * MarkCount(physicalLive[..], i)
      {
        if physicalLive[i] {
          bytes := bytes + PAGE;
        }
      }
      for i := 0 to |smallRanges|
        invariant bytes == PAGE * MarkCount(physicalLive[..], physCount) + UsedRanges(smallRanges, i)
      {
        bytes := bytes + smallRanges[i].bytes;
      }
    }

    /** Puts a snapshot back in place of the current tables, and recomputes the bytes in use. */
    method RestoreTables(s: Snapshot)
      requires virtualPages.Length == physicalLive.Length == |s.pages| == |s.live| && physCount <= physicalLive.Length
      modifies this`used, this`smallRanges, physicalLive, virtualPages
      ensures CurrentTables() == Restored(s, physCount)
    {
      forall i | 0 <= i < physicalLive.Length { physicalLive[i] := s.live[i]; }
      forall i | 0 <= i < virtualPages.Length { virtualPages[i] := s.pages[i]; }
      smallRanges := s.ranges;
      assert physicalLive[..] == s.live && virtualPages[..] == s.pages;
      used := RecomputeUsed();
    }

    /** Applies one event of the path to the tables, without touching the driver. */
    method ApplyEvent(n: nat, depth: nat, tracked: seq<nat>) returns (tracked': seq<nat>)
      requires n < |events| && virtualPages.Length == physicalLive.Length == MAX_PAGES
      modifies this`used, this`smallRanges, physicalLive, virtualPages
      ensures Rebuilt(CurrentTables(), tracked') == DryApply(Rebuilt(old(CurrentTables()), tracked), vaPhys, depth, n, events[n].kind)
    {
      tracked' := tracked;
      match events[n].kind {
        case Take(loc, bytes) =>
          var e := Entry(Units(loc, bytes), depth, n);
          if loc.Large? {
            if loc.va < virtualPages.Length && loc.va + e.units <= |vaPhys| && InRange(vaPhys, physicalLive.Length) {
              TakeLargeTables(loc.va, e);
              tracked' := [n] + tracked;
            }
          } else {
            TakeSmallTables(loc.offset, e);
            tracked' := [n] + tracked;
          }
        case Drop(loc) =>
          tracked' := ApplyDrop(loc, tracked);
        case _ =>
      }
    }

    method ApplyDrop(loc: Loc, tracked: seq<nat>) returns (tracked': seq<nat>)
      requires virtualPages.Length == physicalLive.Length == MAX_PAGES
      modifies this`used, this`smallRanges, physicalLive, virtualPages
      ensures Rebuilt(CurrentTables(), tracked') == DryApply(Rebuilt(old(CurrentTables()), tracked), vaPhys, 0, 0, Drop(loc))
    {
      tracked' := tracked;
      if loc.Large? {
        if loc.va < virtualPages.Length && loc.va + virtualPages[loc.va].span <= |vaPhys| && InRange(vaPhys, physicalLive.Length) {
          tracked' := Untracked(tracked, virtualPages[loc.va].ev);
          DropLargeTables(loc.va);
        }
      } else {
        var i := LocateRange(loc.offset);
        if i < |smallRanges| {
          tracked' := Untracked(tracked, smallRanges[i].ev);
          DropSmallTables(i);
        }
      }
    }

    /** Rebuilds the tables from the snapshot of the node's scope and the path to the node. */
    method Materialize(n: nat, depth: nat) returns (tracked: seq<nat>)
      requires n < |events| && virtualPages.Length == physicalLive.Length == MAX_PAGES && physCount <= MAX_PAGES
      requires forall k :: 0 <= k < |events| ==>
                 if events[k].kind.Scope? then k in saved && |saved[k].pages| == |saved[k].live| == MAX_PAGES else events[k].prev < k
      modifies this`used, this`smallRanges, physicalLive, virtualPages
      ensures Rebuilt(CurrentTables(), tracked) == Rebuild(events, saved, vaPhys, physCount, depth, n)
      decreases n
    {
      if events[n].kind.Scope? {
        RestoreTables(saved[n]);
        return [];
      }
      tracked := Materialize(events[n].prev, depth);
      tracked := ApplyEvent(n, depth, tracked);
    }

    /** A break: the state is rebuilt and the frame records from here on. */
    method BeginRecording()
      requires Valid() && !failed && stack != [] && !stack[|stack| - 1].recording
      modifies this, physicalLive, virtualPages
      ensures Valid() && State() == StartRecording(old(State()))
    {
      hide Inv, Shows, PagesOk, HeapOk, SavedOk, DropsFind, TreeOk, Faithful, Meaning, Rebuild;
      ghost var g := State();
      ReadyKeeps(g);
      if assertBreaks {
        failed := true;
        return;
      }
      var top := |stack| - 1;
      BreakFacts(g, CurrentTables(), saved);
      var tracked := Materialize(stack[top].cursor, stack[top].depth);
      alloc := Meaning(events, stack[top].cursor).alloc;
      stack := stack[top := stack[top].(tracked := tracked, recording := true, broken := true)];
    }

    // ---------------------------------------------------------------- recording allocations

    /** The event, the tracking and the ghost state of a recorded allocation whose tables are already set. */
    method RecordEvent(loc: Loc, size: nat, ghost g: Graph, ghost space: Space, ghost count: nat, ghost small: nat)
      requires stack != [] && stack[|stack| - 1].cursor < |events|
      requires g.es == events && g.stack == stack && g.alloc == alloc && g.assertBreaks == assertBreaks && g.failed == failed
      requires space == Space(vaPhys, smallSize) && count == physCount && small == smallPages
      modifies this`events, this`stack, this`alloc
      ensures State() == RecordTake(g, loc, size, space, count, small)
    {
      var top, n := |stack| - 1, |events|;
      alloc := alloc[loc := Entry(Units(loc, size), stack[top].depth, n)];
      events := Append(events, stack[top].cursor, Take(loc, size));
      stack := stack[top := stack[top].(cursor := n, tracked := [n] + stack[top].tracked)];
    }

    /** Extends the heap to a new end, by one more mapped page if it needs one. */
    method GrowHeap(end: nat, reply: PageReply) returns (ok: bool)
      requires end > smallSize
      modifies this`smallSize, this`smallPages, this`failed
      ensures ok <==> AlignUp(end, PAGE) / PAGE <= SMALL_PAGES && (old(smallPages) >= AlignUp(end, PAGE) / PAGE || reply.Mapped?)
      ensures ok ==> failed == old(failed) && smallSize == end &&
                     smallPages == if old(smallPages) < AlignUp(end, PAGE) / PAGE then old(smallPages) + 1 else old(smallPages)
      ensures !ok ==> failed && smallSize == old(smallSize) &&
                      smallPages == if AlignUp(end, PAGE) / PAGE <= SMALL_PAGES && reply.NotMapped? then old(smallPages) + 1 else old(smallPages)
    {
      var pages := AlignUp(end, PAGE) / PAGE;
      if pages > SMALL_PAGES {
        failed := true;
        return false;
      }
      if smallPages < pages {
        if !reply.Mapped? {
          if reply.NotMapped? {
            smallPages := smallPages + 1;
          }
          failed := true;
          return false;
        }
        smallPages := smallPages + 1;
      }
      smallSize := end;
      return true;
    }

    /** Recording a small allocation: the smallest hole, or the end of the heap and perhaps one page more. */
    method RecordSmall(size: nat, reply: PageReply) returns (answer: Answer, ghost place: Place)
      requires Valid() && !failed && stack != [] && stack[|stack| - 1].recording && 0 < size < SMALL_LIMIT
      requires stack[|stack| - 1].cursor < |events|
      modifies this, physicalLive, virtualPages
      ensures Valid() && old(State()).space.limit < NONE && place == PlaceFor(old(State()), size, Driver(0, false), reply)
      ensures (State(), answer) == DoAlloc(old(State()), size, place)
    {
      hide Inv, Faithful, PlaceFor, DoAlloc, RecordTake, TookSmall, SpansOk, AlignUp, SmallPlace;
      ghost var g, t := State(), CurrentTables();
      place := SmallPlan(g, t, saved, size, reply);
      var offset, ok := ReserveSmall(size, reply, place);
      if !ok {
        return Error, place;
      }
      CommitSmall(offset, size, g, place);
      return Pointer(Small(offset)), place;
    }

    /** Finds the offset of a small allocation and extends the heap up to its end. */
    method ReserveSmall(size: nat, reply: PageReply, ghost place: Place) returns (offset: nat, ok: bool)
      requires SpansOk(SpansOf(smallRanges)) && smallSize < NONE && !failed
      requires place == SmallPlace(State(), SpansOf(smallRanges), size, reply)
      modifies this`smallSize, this`smallPages, this`failed
      ensures ok == place.Place?
      ensures ok ==> place.loc == Small(offset) && State() == old(State()).(space := place.space, smallPages := place.smallPages)
      ensures ok ==> place.physCount == physCount
      ensures !ok ==> State() == Fail(old(State()).(space := place.space, physCount := place.physCount, smallPages := place.smallPages))
    {
      hide SmallOffset;
      var bytes := AlignUp(size, SMALL_ALIGN);
      offset := FindOffset(SpansOf(smallRanges), smallSize, bytes);
      ok := true;
      if offset + bytes > smallSize {
        ok := GrowHeap(offset + bytes, reply);
      }
    }

    /** Enters a small allocation in the list and in the tree. */
    method CommitSmall(offset: nat, size: nat, ghost g: Graph, ghost place: Place)
      requires stack != [] && stack[|stack| - 1].cursor < |events|
      requires place.Place? && place.loc == Small(offset) && place.space == Space(vaPhys, smallSize)
      requires place.physCount == physCount && place.smallPages == smallPages
      requires State() == g.(space := place.space, smallPages := place.smallPages) && g.physCount == physCount
      modifies this`events, this`stack, this`alloc, this`smallRanges, this`used
      ensures State() == RecordTake(g, place.loc, size, place.space, place.physCount, place.smallPages)
      ensures CurrentTables() == TookSmall(old(CurrentTables()), offset,
                                           Entry(AlignUp(size, SMALL_ALIGN), g.stack[|g.stack| - 1].depth, |g.es|))
    {
      TakeSmallTables(offset, Entry(AlignUp(size, SMALL_ALIGN), stack[|stack| - 1].depth, |events|));
      RecordEvent(Small(offset), size, g, place.space, place.physCount, place.smallPages);
    }

    /** Recording a large allocation: a window of dead pages, or fresh virtual pages behind the known ones. */
    method RecordLarge(size: nat, driver: Driver) returns (answer: Answer, ghost place: Place)
      requires Valid() && !failed && stack != [] && stack[|stack| - 1].recording && SMALL_LIMIT <= size <= WORD - PAGE
      requires stack[|stack| - 1].cursor < |events|
      modifies this, physicalLive, virtualPages
      ensures Valid() && old(State()).space.limit < NONE && place == PlaceFor(old(State()), size, driver, Mapped)
      ensures (State(), answer) == DoAlloc(old(State()), size, place)
    {
      hide Inv, Faithful, PlaceFor, DoAlloc, RecordTake, TookLarge, LargePlace, LivePages, Behind, Marks, InRange;
      ghost var g, t := State(), CurrentTables();
      place := LargePlan(g, t, saved, size, driver);
      var va, ok := ReserveLarge(AlignUp(size, PAGE) / PAGE, driver, g, place);
      if !ok {
        return Error, place;
      }
      ghost var live := physicalLive[..];
      LargeRecorded(g, t, live, saved, size, driver, va);
      assert CurrentTables() == t.(live := live);
      CommitLarge(va, size, g, place);
      return Pointer(Large(va)), place;
    }

    /** Finds or makes the window, and leaves its pages marked beside the live ones. */
    method ReserveLarge(pages: nat, driver: Driver, ghost g: Graph, ghost place: Place) returns (va: nat, ok: bool)
      requires State() == g && !failed && PagesOk(g) && |vaPhys| <= MAX_PAGES && physicalLive.Length == MAX_PAGES
      requires physCount <= MAX_PAGES && Marks(physicalLive[..], LivePages(g.space, g.alloc, physCount))
      requires place == WindowPlace(g, pages, driver)
      modifies this`vaPhys, this`physCount, this`failed, physicalLive
      ensures ok == place.Place?
      ensures ok ==> place.loc == Large(va) && va + pages <= |vaPhys| && place.physCount == physCount && place.smallPages == smallPages
      ensures ok ==> State() == g.(space := place.space, physCount := place.physCount) && InRange(vaPhys, physCount)
      ensures ok ==> Marks(physicalLive[..], LivePages(g.space, g.alloc, g.physCount) + Behind(vaPhys, va, pages, physCount))
      ensures !ok ==> State() == Fail(g.(space := place.space, physCount := place.physCount, smallPages := place.smallPages))
    {
      ghost var bars := Bars(LivePages(g.space, g.alloc, physCount), {}, {});
      assert Below(bars.live, physCount);
      hide LivePages;
      var w := SearchWindow(physicalLive, vaPhys, bars, Rogues({}, {}), pages);
      LowestIsUnique(vaPhys, bars, pages, w, FirstWindow(vaPhys, bars, pages, 0));
      if w.At? {
        PagesOfIsBehind(vaPhys, w.va, pages, physCount);
        return w.va, true;
      }
      va := |vaPhys|;
      if va + pages > MAX_PAGES {
        failed := true;
        return va, false;
      }
      ok := FreshWindow(pages, driver, g, bars, place);
    }

    /** Backs fresh virtual pages, on the lowest free physical ones. */
    method FreshWindow(pages: nat, driver: Driver, ghost g: Graph, ghost bars: Bars, ghost place: Place) returns (ok: bool)
      requires State() == g && !failed && PagesOk(g) && physicalLive.Length == MAX_PAGES && |vaPhys| + pages <= MAX_PAGES
      requires Marks(physicalLive[..], bars.live) && Below(bars.live, physCount) && bars.rogueVa == {} && bars.roguePhys == {}
      requires place == FreshPlace(g, bars, pages, driver)
      modifies this`vaPhys, this`physCount, this`failed, physicalLive
      ensures ok == place.Place?
      ensures ok ==> place.loc == Large(|g.space.vaPhys|) && |vaPhys| == |g.space.vaPhys| + pages
      ensures ok ==> State() == g.(space := place.space, physCount := place.physCount) && InRange(vaPhys, physCount)
      ensures ok ==> Marks(physicalLive[..], bars.live + Behind(vaPhys, |g.space.vaPhys|, pages, physCount))
      ensures ok ==> place.physCount == physCount && place.smallPages == smallPages
      ensures !ok ==> State() == Fail(g.(space := place.space, physCount := place.physCount, smallPages := place.smallPages))
    {
      assert bars.live + bars.roguePhys == bars.live;
      hide Choose, Behind, LivePages, Live;
      vaPhys, physCount, ok := FillWindow(physicalLive, vaPhys, bars, Rogues({}, {}), physCount, pages, driver);
      if !ok {
        failed := true;
        return;
      }
      ChooseIsLowest(bars.live, g.physCount, pages);
      ChosenIsBehind(g.space, Choose(bars.live, g.physCount, pages).chosen, physCount);
      ChosenInRange(g.space.vaPhys, g.physCount, Choose(bars.live, g.physCount, pages).chosen, physCount);
    }

    /** Enters a large allocation in the page table and in the tree. */
    method CommitLarge(va: nat, size: nat, ghost g: Graph, ghost place: Place)
      requires stack != [] && stack[|stack| - 1].cursor < |events| && virtualPages.Length == physicalLive.Length == MAX_PAGES
      requires place.Place? && place.loc == Large(va) && place.space == Space(vaPhys, smallSize) && va < MAX_PAGES
      requires place.physCount == physCount && place.smallPages == smallPages == g.smallPages
      requires State() == g.(space := place.space, physCount := place.physCount)
      requires va + Units(Large(va), size) <= |vaPhys| && InRange(vaPhys, MAX_PAGES)
      modifies this`events, this`stack, this`alloc, this`used, physicalLive, virtualPages
      ensures State() == RecordTake(g, place.loc, size, place.space, place.physCount, place.smallPages)
      ensures CurrentTables() == TookLarge(old(CurrentTables()), place.space.vaPhys, va,
                                           Entry(Units(Large(va), size), g.stack[|g.stack| - 1].depth, |g.es|))
    {
      TakeLargeTables(va, Entry(Units(Large(va), size), stack[|stack| - 1].depth, |events|));
      RecordEvent(Large(va), size, g, place.space, place.physCount, place.smallPages);
    }

    // ---------------------------------------------------------------- the public operations

    /**
      An allocation: replayed when the cursor has a matching child, otherwise recorded.  Recording a
      size that vanishes or wraps when rounded up is the one step after which the state may be
      unsound; see SearchIsSoundIffProper.
    */
    method Allocate(size: nat, driver: Driver, reply: PageReply) returns (answer: Answer, ghost place: Place)
      requires Valid() && size < WORD
      modifies this, physicalLive, virtualPages
      ensures (State(), answer) == Step(old(State()), AllocReq(size, place))
      ensures !old(failed) && old(stack) != [] ==>
                Ready(old(State())).space.limit < NONE && place == PlaceFor(Ready(old(State())), size, driver, reply)
      ensures Proper(size) || events == old(events) ==> Valid()
    {
      ghost var g := State();
      place := NoPlace(g.space, 0, 0);
      if failed || stack == [] {
        return Declined, place;
      }
      CursorOk(g);
      ReadyFacts(g, CurrentTables(), saved);
      place := PlaceFor(Ready(g), size, driver, reply);
      AllocCases(g, size, place);
      hide Inv, Faithful, PlaceFor, Step, Ready, Follow, Advance;
      var found := ReplayOrRecord(KTake(size >= SMALL_LIMIT, size));
      if found.Child? {
        return Pointer(events[found.node].kind.loc), place;
      }
      if failed {
        return Error, place;
      }
      if 0 < size <= WORD - PAGE {
        answer, place := RecordAlloc(size, driver, reply);
      } else {
        answer, place := RecordImproper(size, driver, reply);
      }
    }

    /** Recording no bytes, or so many that rounding up leaves no pages: the search answers all the same. */
    method RecordImproper(size: nat, driver: Driver, reply: PageReply) returns (answer: Answer, ghost place: Place)
      requires Valid() && !failed && stack != [] && stack[|stack| - 1].recording && stack[|stack| - 1].cursor < |events|
      requires size == 0 || WORD - PAGE < size < WORD
      modifies this, physicalLive, virtualPages
      ensures old(State()).space.limit < NONE && place == PlaceFor(old(State()), size, driver, reply)
      ensures (State(), answer) == DoAlloc(old(State()), size, place) && events != old(events)
    {
      hide Inv, Faithful, PlaceFor, DoAlloc, RecordTake, TookSmall, TookLarge, SpansOk, AlignUp, SmallPlace, LargePlace, WindowPlace;
      ghost var g := State();
      if size == 0 {
        place := ZeroPlan(g, CurrentTables(), saved, driver, reply);
        var offset, ok := ReserveSmall(0, reply, place);
        CommitSmall(offset, 0, g, place);
        return Pointer(Small(offset)), place;
      }
      place := WrappedPlan(g, CurrentTables(), saved, size, driver, reply);
      var va, ok := ReserveLarge(0, driver, g, place);
      CommitLarge(va, size, g, place);
      return Pointer(Large(va)), place;
    }

    /** Follows the child that answers the key, if the cursor has one. */
    method TryReplay(key: Key) returns (found: Found)
      requires Valid() && !failed && stack != [] && !stack[|stack| - 1].recording && stack[|stack| - 1].cursor < |events|
      requires key.KTake? || key.KDrop?
      modifies this`stack
      ensures found == Find(events, old(stack)[|old(stack)| - 1].cursor, key)
      ensures Valid() && State() == if found.Child? then Advance(old(State()), found.node) else old(State())
    {
      hide Inv, Faithful, Find;
      found := FindEvent(key);
      if found.Child? {
        AdvanceFacts(State(), CurrentTables(), saved, found.node);
        var top := |stack| - 1;
        stack := stack[top := stack[top].(cursor := found.node)];
      }
    }

    /** Breaks the replay unless the frame records already. */
    method EnsureRecording()
      requires Valid() && !failed && stack != []
      modifies this, physicalLive, virtualPages
      ensures Valid() && State() == Ready(old(State()))
      ensures !failed ==> stack != [] && stack[|stack| - 1].recording
      ensures |stack| == |old(stack)| && stack[|stack| - 1].cursor == old(stack)[|stack| - 1].cursor && events == old(events)
    {
      hide Inv, Faithful;
      if !stack[|stack| - 1].recording {
        BeginRecording();
      }
    }

    /** Replays the event that answers the key, or makes the frame record. */
    method ReplayOrRecord(key: Key) returns (found: Found)
      requires Valid() && !failed && stack != [] && stack[|stack| - 1].cursor < |events| && (key.KTake? || key.KDrop?)
      modifies this, physicalLive, virtualPages
      ensures Valid() && events == old(events)
      ensures found == Follow(old(State()), key)
      ensures State() == if found.Child? then Advance(old(State()), found.node) else Ready(old(State()))
      ensures found.Nothing? && !failed ==> stack != [] && stack[|stack| - 1].recording && stack[|stack| - 1].cursor < |events|
    {
      hide Inv, Faithful, Ready, Find, Advance;
      found := Nothing;
      if !stack[|stack| - 1].recording {
        found := TryReplay(key);
        if found.Child? {
          return;
        }
      }
      EnsureRecording();
    }

    method RecordAlloc(size: nat, driver: Driver, reply: PageReply) returns (answer: Answer, ghost place: Place)
      requires Valid() && !failed && stack != [] && stack[|stack| - 1].recording && Proper(size)
      requires stack[|stack| - 1].cursor < |events|
      modifies this, physicalLive, virtualPages
      ensures Valid() && old(State()).space.limit < NONE && place == PlaceFor(old(State()), size, driver, reply)
      ensures (State(), answer) == DoAlloc(old(State()), size, place)
    {
      hide Inv, Faithful, DoAlloc, LargePlace, SmallPlace;
      if size < SMALL_LIMIT {
        answer, place := RecordSmall(size, reply);
      } else {
        answer, place := RecordLarge(size, driver);
      }
    }

    /**
      A free: replayed when the cursor has a matching child, otherwise recorded.  A pointer that no
      open frame holds fails the graph, at the latest; only then may the tree be left unsound.
    */
    method Free(loc: Loc) returns (answer: Answer)
      requires Valid() && (loc.Large? ==> loc.va < MAX_PAGES)
      modifies this, physicalLive, virtualPages
      ensures (State(), answer) == Step(old(State()), FreeReq(loc))
      ensures !failed || old(failed) || HeldByFrame(old(State()), loc) ==> Valid()
    {
      hide Inv, Faithful, DoFree, HeldByFrame;
      if failed || stack == [] {
        return Declined;
      }
      CursorOk(State());
      FreeOpen(loc);
      return Done;
    }

    method FreeOpen(loc: Loc)
      requires Valid() && !failed && stack != [] && stack[|stack| - 1].cursor < |events| && (loc.Large? ==> loc.va < MAX_PAGES)
      modifies this, physicalLive, virtualPages
      ensures (State(), Done) == DoFree(old(State()), loc)
      ensures !failed || HeldByFrame(old(State()), loc) ==> Valid()
    {
      hide Inv, Faithful, DoFree, Ready, Follow, Advance, RecordDrop, HeldByFrame;
      FreeCases(State(), loc);
      HeldWhenReady(State(), loc);
      var found := ReplayOrRecord(KDrop(loc));
      if found.Nothing? && !failed {
        RecordFree(loc);
      }
    }

    /** Recording a free: one of an unknown pointer or of another frame's allocation fails the graph. */
    method RecordFree(loc: Loc)
      requires Valid() && !failed && stack != [] && stack[|stack| - 1].recording && stack[|stack| - 1].cursor < |events|
      requires loc.Large? ==> loc.va < MAX_PAGES
      modifies this, physicalLive, virtualPages
      ensures State() == RecordDrop(old(State()), loc)
      ensures !failed || HeldByFrame(old(State()), loc) ==> Valid()
    {
      hide Inv, Faithful, RecordDrop, Shows, Dropped, InRange, HeldByFrame;
      ghost var g, t := State(), CurrentTables();
      DropPlan(g, t, saved, loc);
      var known, depth, e, i := FindAllocation(loc, g.alloc, g.space, g.physCount);
      if !known || depth != stack[|stack| - 1].depth {
        failed := true;
        return;
      }
      if e !in stack[|stack| - 1].tracked {
        RecordOrphanFree(loc, g);
        return;
      }
      DropTables(loc, i);
      RecordFreeEvent(loc, e, g);
    }

    /** The event is recorded before the allocation turns out to be no longer tracked. */
    method RecordOrphanFree(loc: Loc, ghost g: Graph)
      requires stack != [] && stack[|stack| - 1].cursor < |events| && State() == g && loc in alloc
      requires alloc[loc].depth == stack[|stack| - 1].depth && alloc[loc].ev !in stack[|stack| - 1].tracked
      modifies this`events, this`stack, this`failed
      ensures State() == RecordDrop(g, loc) && failed
    {
      var top, n := |stack| - 1, |events|;
      events := Append(events, stack[top].cursor, Drop(loc));
      stack := stack[top := stack[top].(cursor := n)];
      failed := true;
    }

    method DropTables(loc: Loc, i: nat)
      requires MayDrop(CurrentTables(), vaPhys, loc) && (loc.Small? ==> i == Position(smallRanges, loc.offset, 0))
      modifies this`used, this`smallRanges, physicalLive, virtualPages
      ensures CurrentTables() == Dropped(old(CurrentTables()), vaPhys, loc)
    {
      if loc.Large? {
        DropLargeTables(loc.va);
      } else {
        DropSmallTables(i);
      }
    }

    /** Whether the tables know the pointer; and its depth, its event and the list position of a small one. */
    method FindAllocation(loc: Loc, ghost a: Alloc, ghost sp: Space, ghost count: nat)
      returns (known: bool, depth: nat, e: nat, i: nat)
      requires Shows(CurrentTables(), a, sp, count) && (loc.Large? ==> loc.va < virtualPages.Length)
      ensures known <==> loc in a
      ensures known ==> depth == a[loc].depth && e == a[loc].ev
      ensures known && loc.Small? ==> i == Position(smallRanges, loc.offset, 0) < |smallRanges|
    {
      i := 0;
      if loc.Large? {
        return virtualPages[loc.va].span > 0, virtualPages[loc.va].depth, virtualPages[loc.va].ev, 0;
      }
      FindRange(CurrentTables(), a, sp, count, loc.offset);
      i := LocateRange(loc.offset);
      if i == |smallRanges| || smallRanges[i].offset != loc.offset {
        return false, 0, 0, 0;
      }
      return true, smallRanges[i].depth, smallRanges[i].ev, i;
    }

    method RecordFreeEvent(loc: Loc, e: nat, ghost g: Graph)
      requires stack != [] && stack[|stack| - 1].cursor < |events| && State() == g && loc in alloc
      requires alloc[loc].depth == stack[|stack| - 1].depth && alloc[loc].ev == e && e in stack[|stack| - 1].tracked
      modifies this`events, this`stack, this`alloc
      ensures State() == RecordDrop(g, loc)
    {
      var top, n := |stack| - 1, |events|;
      var rest := Untracked(stack[top].tracked, e);
      alloc := alloc - {loc};
      events := Append(events, stack[top].cursor, Drop(loc));
      stack := stack[top := stack[top].(cursor := n, tracked := rest)];
    }

    // ---------------------------------------------------------------- frames

    /** Opens the root frame when none is open. */
    method OpenRoot() returns (answer: Answer)
      requires Valid()
      modifies this`stack
      ensures Valid() && (State(), answer) == Step(old(State()), RootReq)
    {
      if failed || stack != [] {
        return Declined;
      }
      PushRootKeeps(State());
      hide Inv;
      stack := [Frame(0, [], 1, false, false)];
      return Done;
    }

    /** Enters a named scope: replays the call, or records it with a snapshot of the tables. */
    method Push(name: string) returns (answer: Answer)
      requires Valid()
      modifies this, physicalLive, virtualPages
      ensures Valid() && (State(), answer) == Step(old(State()), PushReq(name))
    {
      ghost var g := State();
      if failed || stack == [] {
        return Declined;
      }
      CursorOk(g);
      PushCases(g, name);
      hide Inv, Faithful, Step, Ready, Find, RecordCall, Enter;
      var found := FindEvent(KCall(name));
      if found.Child? {
        EnterFacts(g, CurrentTables(), saved, found.node, name);
        EnterScope(events[found.node].kind.scope);
        return Done;
      }
      EnsureRecording();
      if failed {
        return Error;
      }
      RecordPush(name);
      return Done;
    }

    method EnterScope(scope: nat)
      requires stack != []
      modifies this`stack
      ensures State() == Enter(old(State()), scope)
    {
      stack := stack + [Frame(scope, [], stack[|stack| - 1].depth + 1, false, false)];
    }

    method RecordPush(name: string)
      requires Valid() && !failed && stack != [] && stack[|stack| - 1].recording && stack[|stack| - 1].cursor < |events|
      modifies this`events, this`stack, this`saved
      ensures Valid() && State() == RecordCall(old(State()), name)
    {
      ghost var g := State();
      CallFacts(g, CurrentTables(), saved, name);
      hide Inv, Faithful;
      var n, depth := |events|, stack[|stack| - 1].depth + 1;
      saved := saved[n + 1 := Snapshot(virtualPages[..], physicalLive[..], smallRanges)];
      RecordScope(name, n, depth);
    }

    method RecordScope(name: string, n: nat, depth: nat)
      requires stack != [] && stack[|stack| - 1].cursor < |events| == n && depth == stack[|stack| - 1].depth + 1
      modifies this`events, this`stack
      ensures State() == RecordCall(old(State()), name)
    {
      events := AppendCall(events, stack[|stack| - 1].cursor, name, alloc, depth);
      stack := stack + [Frame(n + 1, [], depth, true, false)];
    }

    /** Leaves the innermost frame: replays its end, records it, or stops at an allocation that leaks. */
    method Pop() returns (answer: Answer)
      requires Valid()
      modifies this, physicalLive, virtualPages
      ensures Valid() && (State(), answer) == Step(old(State()), PopReq)
    {
      hide Inv, Faithful, DoPop;
      if failed || stack == [] {
        return Declined;
      }
      CursorOk(State());
      answer := LeaveFrame();
    }

    method LeaveFrame() returns (answer: Answer)
      requires Valid() && !failed && stack != [] && stack[|stack| - 1].cursor < |events|
      modifies this, physicalLive, virtualPages
      ensures Valid() && (State(), answer) == DoPop(old(State()))
    {
      hide Inv, Faithful, DoPop, Ready, Follow, RecordEnd, Close;
      PopCases(State());
      var found := FollowEnd();
      if found.Child? {
        CloseFacts(State(), CurrentTables(), saved);
        CloseTop();
        return Done;
      }
      EnsureRecording();
      if failed {
        return Error;
      }
      answer := RecordPop();
    }

    method FollowEnd() returns (found: Found)
      requires stack != [] && stack[|stack| - 1].cursor < |events|
      ensures found == Follow(State(), KEnd)
    {
      found := Nothing;
      if !stack[|stack| - 1].recording {
        found := FindEvent(KEnd);
      }
    }

    method RecordPop() returns (answer: Answer)
      requires Valid() && !failed && stack != [] && stack[|stack| - 1].recording && stack[|stack| - 1].cursor < |events|
      modifies this`events, this`stack, this`failed
      ensures Valid()
      ensures (State(), answer) ==
              if old(stack)[|old(stack)| - 1].tracked != [] then (Fail(old(State())), Leaks) else (RecordEnd(old(State())), Done)
    {
      hide Inv, Faithful, RecordEnd, Close;
      if stack[|stack| - 1].tracked != [] {
        LeakFacts(State());
        failed := true;
        return Leaks;
      }
      EndFacts(State(), CurrentTables(), saved);
      events := Append(events, stack[|stack| - 1].cursor, End);
      CloseTop();
      return Done;
    }

    method CloseTop()
      requires stack != []
      modifies this`stack
      ensures State() == Close(old(State()))
    {
      stack := stack[..|stack| - 1];
    }
  }

  lemma {:induction false} NothingUsed(pages: seq<VirtualPage>, k: nat)
    requires k <= |pages| && forall i :: 0 <= i < |pages| ==> pages[i] == NO_PAGE
    ensures UsedPages(pages, k) == 0
  {
    if k > 0 { NothingUsed(pages, k - 1); }
  }

  /** Tables that show what the cursor means are the rebuilt frame's. */
  lemma RebuiltFaithful(g: Graph, t: Tables, saved: Saved)
    requires g.stack != [] && !g.assertBreaks && Faithful(g, t, saved)
    ensures forall t' :: Shows(t', Meaning(g.es, Top(g).cursor).alloc, g.space, g.physCount) ==>
              Faithful(StartRecording(g), t', saved)
  {
    hide Shows, SavedOk, DropsFind;
  }

  /** Everything about a break that is known before the tables are rebuilt. */
  lemma BreakFacts(g: Graph, t: Tables, saved: Saved)
    requires Inv(g) && !g.failed && g.stack != [] && !Top(g).recording && !g.assertBreaks && Faithful(g, t, saved)
    ensures Top(g).cursor < |g.es| && |t.pages| == |t.live| == MAX_PAGES && g.physCount <= MAX_PAGES
    ensures Top(g).depth == Meaning(g.es, Top(g).cursor).depth
    ensures forall k :: 0 <= k < |g.es| ==>
              if g.es[k].kind.Scope? then k in saved && |saved[k].pages| == |saved[k].live| == MAX_PAGES else g.es[k].prev < k
    ensures var r := Rebuild(g.es, saved, g.space.vaPhys, g.physCount, Top(g).depth, Top(g).cursor);
      r.tracked == Meaning(g.es, Top(g).cursor).tracked && Faithful(StartRecording(g), r.t, saved)
  {
    assert FrameOk(g, |g.stack| - 1);
    RebuildShows(g.es, saved, g.space, g.physCount, Top(g).cursor);
    MaterializeMay(g, saved);
    RebuiltFaithful(g, t, saved);
    hide Inv, Shows, PagesOk, HeapOk, SavedOk, DropsFind, TreeOk, Faithful, StartRecording;
  }

  /** What rebuilding needs of the arena and the saved tables. */
  lemma MaterializeMay(g: Graph, saved: Saved)
    requires TreeOk(g.es, g.space) && SavedOk(g.es, saved, g.space, g.physCount)
    ensures forall k :: 0 <= k < |g.es| ==>
              if g.es[k].kind.Scope? then k in saved && |saved[k].pages| == |saved[k].live| == MAX_PAGES else g.es[k].prev < k
  {
    forall k | 0 <= k < |g.es| ensures !g.es[k].kind.Scope? ==> g.es[k].prev < k { assert NodeOk(g.es, g.space, k); }
  }

  // ---------------------------------------------------------------- small allocations

  ghost function SmallPlaceOf(g: Graph, size: nat, reply: PageReply): Place
    requires AllocOk(g.space, g.alloc) && HeapOk(g)
  {
    ListingLists(g);
    SmallPlace(g, Listing(g.alloc, g.space.limit), size, reply)
  }

  /** The list kept by the compiler is the list the model searches. */
  lemma SmallFacts(g: Graph, t: Tables, saved: Saved, size: nat, reply: PageReply)
    requires Inv(g) && !g.failed && g.stack != [] && Faithful(g, t, saved) && 0 < size < SMALL_LIMIT
    ensures AllocOk(g.space, g.alloc) && HeapOk(g) && g.space.limit < NONE && SpansOk(SpansOf(t.ranges))
    ensures SmallPlaceOf(g, size, reply) == SmallPlace(g, SpansOf(t.ranges), size, reply)
    ensures SmallPlaceOf(g, size, reply) == PlaceFor(g, size, Driver(0, false), reply)
    ensures PlaceOk(g, size, SmallPlaceOf(g, size, reply)) && Top(g).cursor < |g.es|
  {
    ListingLists(g);
    SpansAreListed(t.ranges, g.alloc);
    ListsAreEqual(SpansOf(t.ranges), Listing(g.alloc, g.space.limit), g.alloc);
    SmallPlaceIsOk(g, SpansOf(t.ranges), size, reply);
    CursorOk(g);
  }

  /** What recording an allocation does once its place is known. */
  lemma RecordingAlloc(g: Graph, size: nat, place: Place)
    requires g.stack != [] && Top(g).recording && Top(g).cursor < |g.es| && !g.failed
    ensures place.NoPlace? ==>
              DoAlloc(g, size, place) == (Fail(g.(space := place.space, physCount := place.physCount, smallPages := place.smallPages)), Error)
    ensures place.Place? ==>
              DoAlloc(g, size, place) == (RecordTake(g, place.loc, size, place.space, place.physCount, place.smallPages), Pointer(place.loc))
  {}

  lemma SmallFailed(g: Graph, size: nat, reply: PageReply)
    requires Inv(g) && AllocOk(g.space, g.alloc) && HeapOk(g) && SmallPlaceOf(g, size, reply).NoPlace?
    ensures var pl := SmallPlaceOf(g, size, reply);
      pl.space == g.space && Inv(Fail(g.(space := pl.space, physCount := pl.physCount, smallPages := pl.smallPages)))
  {
    FailKeeps(g, g.space, g.physCount, SmallPlaceOf(g, size, reply).smallPages);
  }

  /** Everything about recording a small allocation that the loop needs to know beforehand. */
  lemma SmallPlan(g: Graph, t: Tables, saved: Saved, size: nat, reply: PageReply) returns (pl: Place)
    requires Inv(g) && !g.failed && g.stack != [] && Top(g).recording && Top(g).cursor < |g.es|
    requires Faithful(g, t, saved) && 0 < size < SMALL_LIMIT
    ensures g.space.limit < NONE && SpansOk(SpansOf(t.ranges))
    ensures pl == PlaceFor(g, size, Driver(0, false), reply) == SmallPlace(g, SpansOf(t.ranges), size, reply)
    ensures pl.NoPlace? ==>
              && DoAlloc(g, size, pl) == (Fail(g.(space := pl.space, physCount := pl.physCount, smallPages := pl.smallPages)), Error)
              && Inv(Fail(g.(space := pl.space, physCount := pl.physCount, smallPages := pl.smallPages)))
    ensures pl.Place? ==>
              && pl.loc.Small?
              && DoAlloc(g, size, pl) == (RecordTake(g, pl.loc, size, pl.space, pl.physCount, pl.smallPages), Pointer(pl.loc))
              && Inv(RecordTake(g, pl.loc, size, pl.space, pl.physCount, pl.smallPages))
              && Faithful(RecordTake(g, pl.loc, size, pl.space, pl.physCount, pl.smallPages),
                          TookSmall(t, pl.loc.offset, Entry(AlignUp(size, SMALL_ALIGN), Top(g).depth, |g.es|)), saved)
  {
    SmallFacts(g, t, saved, size, reply);
    pl := SmallPlaceOf(g, size, reply);
    RecordingAlloc(g, size, pl);
    hide Inv, Faithful, PlaceFor, SmallPlaceOf, DoAlloc, RecordTake, SmallPlace;
    if pl.NoPlace? { SmallFailed(g, size, reply); } else { SmallRecorded(g, t, saved, size, reply); }
  }

  lemma SmallRecorded(g: Graph, t: Tables, saved: Saved, size: nat, reply: PageReply)
    requires Inv(g) && !g.failed && g.stack != [] && Top(g).recording && Faithful(g, t, saved) && 0 < size < SMALL_LIMIT
    requires AllocOk(g.space, g.alloc) && SmallPlaceOf(g, size, reply).Place? && Top(g).cursor < |g.es|
    ensures var pl := SmallPlaceOf(g, size, reply);
      var r := RecordTake(g, pl.loc, size, pl.space, pl.physCount, pl.smallPages);
      var e := Entry(AlignUp(size, SMALL_ALIGN), Top(g).depth, |g.es|);
      pl.loc.Small? && Inv(r) && Faithful(r, TookSmall(t, pl.loc.offset, e), saved)
  {
    var pl := SmallPlaceOf(g, size, reply);
    SmallFacts(g, t, saved, size, reply);
    RecordTakeKeeps(g, pl.loc, size, pl.space, pl.physCount, pl.smallPages);
    ListingLists(g);
    SmallPlaceKeepsHeap(g, Listing(g.alloc, g.space.limit), size, reply);
    var e := Entry(AlignUp(size, SMALL_ALIGN), Top(g).depth, |g.es|);
    TookSmallShows(t, g.alloc, g.space, g.physCount, pl.loc.offset, e);
    hide Inv;
    RecordedFaithful(g, TookSmall(t, pl.loc.offset, e), saved, pl.loc, size, pl.space, pl.physCount, pl.smallPages);
  }

  /** A recorded allocation whose tables are set leaves the compiler faithful. */
  lemma RecordedFaithful(g: Graph, t': Tables, saved: Saved, loc: Loc, size: nat, space: Space, count: nat, small: nat)
    requires TreeOk(g.es, g.space) && g.stack != [] && Top(g).cursor < |g.es|
    requires PagesOk(g) && SavedOk(g.es, saved, g.space, g.physCount) && DropsFind(g.es)
    requires Grows(g.space, space) && g.physCount <= count && InRange(space.vaPhys, count) && count <= |space.vaPhys| <= MAX_PAGES
    requires space.limit <= small * PAGE <= HEAP
    requires Shows(t', g.alloc[loc := Entry(Units(loc, size), Top(g).depth, |g.es|)], space, count) ||
             (space.vaPhys == g.space.vaPhys && count == g.physCount &&
              Shows(t', g.alloc[loc := Entry(Units(loc, size), Top(g).depth, |g.es|)], g.space, count))
    ensures Faithful(RecordTake(g, loc, size, space, count, small), t', saved)
  {
    var r := RecordTake(g, loc, size, space, count, small);
    AppendGrows(g.es, Top(g).cursor, Take(loc, size));
    SavedGrows(g.es, r.es, saved, g.space, g.physCount, space, count);
    DropsFindGrows(g.es, r.es);
    if !Shows(t', r.alloc, space, count) {
      LimitLeavesLive(g.space, space.limit, r.alloc, count);
    }
  }

  // ---------------------------------------------------------------- large allocations

  /** The place of a large allocation of so many pages. */
  function WindowPlace(g: Graph, pages: nat, driver: Driver): Place {
    var bars := Bars(LivePages(g.space, g.alloc, g.physCount), {}, {});
    match FirstWindow(g.space.vaPhys, bars, pages, 0)
    case At(va) => Place(Large(va), g.space, g.physCount, g.smallPages)
    case NoWindow => FreshPlace(g, bars, pages, driver)
  }

  lemma ChosenInRange(vaPhys: seq<int>, count: nat, chosen: seq<nat>, count': nat)
    requires InRange(vaPhys, count) && count <= count' && Below(Elements(chosen), count')
    ensures InRange(vaPhys + Ints(chosen), count')
  {
    assert forall i :: 0 <= i < |chosen| ==> chosen[i] in Elements(chosen);
  }

  /** Everything about recording a large allocation that is known before the search. */
  lemma LargePlan(g: Graph, t: Tables, saved: Saved, size: nat, driver: Driver) returns (pl: Place)
    requires Inv(g) && !g.failed && g.stack != [] && Top(g).recording && Top(g).cursor < |g.es|
    requires Faithful(g, t, saved) && SMALL_LIMIT <= size <= WORD - PAGE
    ensures g.space.limit < NONE && PagesOk(g) && |g.space.vaPhys| <= MAX_PAGES && g.physCount <= MAX_PAGES
    ensures |t.pages| == |t.live| == MAX_PAGES && Marks(t.live, LivePages(g.space, g.alloc, g.physCount))
    ensures pl == PlaceFor(g, size, driver, Mapped) == WindowPlace(g, AlignUp(size, PAGE) / PAGE, driver)
    ensures pl.NoPlace? ==>
              && DoAlloc(g, size, pl) == (Fail(g.(space := pl.space, physCount := pl.physCount, smallPages := pl.smallPages)), Error)
              && Inv(Fail(g.(space := pl.space, physCount := pl.physCount, smallPages := pl.smallPages)))
    ensures pl.Place? ==>
              && DoAlloc(g, size, pl) == (RecordTake(g, pl.loc, size, pl.space, pl.physCount, pl.smallPages), Pointer(pl.loc))
              && Inv(RecordTake(g, pl.loc, size, pl.space, pl.physCount, pl.smallPages))
  {
    pl := LargePlace(g, size, driver);
    LargePlaceIsOk(g, size, driver);
    RecordingAlloc(g, size, pl);
    hide DoAlloc, RecordTake, LargePlace;
    if pl.NoPlace? { FailKeeps(g, pl.space, pl.physCount, pl.smallPages); }
    else { RecordTakeKeeps(g, pl.loc, size, pl.space, pl.physCount, pl.smallPages); }
  }

  /** With the window's pages marked beside the live ones, entering the allocation keeps the compiler faithful. */
  lemma LargeRecorded(g: Graph, t: Tables, live: seq<bool>, saved: Saved, size: nat, driver: Driver, va: nat)
    requires Inv(g) && !g.failed && g.stack != [] && Top(g).recording && Top(g).cursor < |g.es|
    requires Faithful(g, t, saved) && SMALL_LIMIT <= size <= WORD - PAGE && g.space.limit < NONE
    requires var pl := PlaceFor(g, size, driver, Mapped);
      && pl.Place? && pl.loc == Large(va) && va + AlignUp(size, PAGE) / PAGE <= |pl.space.vaPhys|
      && InRange(pl.space.vaPhys, pl.physCount) && |live| == MAX_PAGES
      && Marks(live, LivePages(g.space, g.alloc, g.physCount) + Behind(pl.space.vaPhys, va, AlignUp(size, PAGE) / PAGE, pl.physCount))
    ensures var pl := PlaceFor(g, size, driver, Mapped);
      var e := Entry(Units(Large(va), size), Top(g).depth, |g.es|);
      && va < MAX_PAGES && InRange(pl.space.vaPhys, MAX_PAGES) && va + e.units <= |pl.space.vaPhys|
      && Faithful(RecordTake(g, pl.loc, size, pl.space, pl.physCount, pl.smallPages),
                  TookLarge(t.(live := live), pl.space.vaPhys, va, e), saved)
  {
    var pl := PlaceFor(g, size, driver, Mapped);
    var e := Entry(Units(Large(va), size), Top(g).depth, |g.es|);
    LargePlaceIsOk(g, size, driver);
    TakeKeepsPeak(g, size, driver, e);
    LargeStays(g, size, driver);
    assert CanTake(pl.space, g.alloc, Large(va), e.units);
    LiveAfterGrowth(g.space, pl.space, g.alloc, g.physCount, pl.physCount);
    TookWindowShows(t.(live := live), g.alloc, pl.space, pl.physCount, va, e,
                    LivePages(g.space, g.alloc, g.physCount) + Behind(pl.space.vaPhys, va, e.units, pl.physCount));
    hide Inv, Shows, LargePlace, TookLarge;
    RecordedFaithful(g, TookLarge(t.(live := live), pl.space.vaPhys, va, e), saved, pl.loc, size, pl.space, pl.physCount, pl.smallPages);
  }

  /** A place found leaves the heap alone and stays within the table. */
  lemma LargeStays(g: Graph, size: nat, driver: Driver)
    requires LargePlace(g, size, driver).Place? && |g.space.vaPhys| <= MAX_PAGES && PagesOk(g)
    ensures var pl := LargePlace(g, size, driver);
      && pl.space.limit == g.space.limit && pl.smallPages == g.smallPages && |pl.space.vaPhys| <= MAX_PAGES
      && g.physCount <= pl.physCount && Grows(g.space, pl.space)
  {
    var bars := Bars(LivePages(g.space, g.alloc, g.physCount), {}, {});
    ChooseIsLowest(bars.live, g.physCount, Units(Large(0), size));
    assert bars.live + {} == bars.live;
  }

  // ---------------------------------------------------------------- sizes that vanish or wrap

  /** A request for no bytes always gets a place, and the heap does not grow for it. */
  lemma ZeroPlan(g: Graph, t: Tables, saved: Saved, driver: Driver, reply: PageReply) returns (pl: Place)
    requires Inv(g) && !g.failed && g.stack != [] && Top(g).recording && Top(g).cursor < |g.es| && Faithful(g, t, saved)
    ensures g.space.limit < NONE && SpansOk(SpansOf(t.ranges))
    ensures pl == PlaceFor(g, 0, driver, reply) == SmallPlace(g, SpansOf(t.ranges), 0, reply)
    ensures pl.Place? && pl.loc.Small? && pl.space == g.space && pl.physCount == g.physCount && pl.smallPages == g.smallPages
    ensures DoAlloc(g, 0, pl) == (RecordTake(g, pl.loc, 0, pl.space, pl.physCount, pl.smallPages), Pointer(pl.loc))
    ensures RecordTake(g, pl.loc, 0, pl.space, pl.physCount, pl.smallPages).es != g.es
  {
    ZeroSearch(g, t, saved);
    pl := SmallPlace(g, SpansOf(t.ranges), 0, reply);
    RecordingAlloc(g, 0, pl);
    assert AlignUp(0, SMALL_ALIGN) == 0;
    hide Inv, Faithful, Listing, SmallOffset, DoAlloc, SpansOk;
  }

  lemma ZeroSearch(g: Graph, t: Tables, saved: Saved)
    requires Inv(g) && !g.failed && Faithful(g, t, saved)
    ensures g.space.limit < NONE && SpansOk(SpansOf(t.ranges))
    ensures SpansOf(t.ranges) == Listing(g.alloc, g.space.limit)
    ensures SmallOffset(SpansOf(t.ranges), g.space.limit, 0) <= g.space.limit
  {
    ListingLists(g);
    SpansAreListed(t.ranges, g.alloc);
    ListsAreEqual(SpansOf(t.ranges), Listing(g.alloc, g.space.limit), g.alloc);
    var spans, limit := SpansOf(t.ranges), g.space.limit;
    hide Inv, Faithful, Listing, SpansOf, Lists, Sweep;
    SweepStopsBelow(spans, limit, 0, 0, Best(limit, NONE), limit);
  }

  /** Nor do pages take any, when rounding up wraps around 64 bits. */
  lemma WrappedPlan(g: Graph, t: Tables, saved: Saved, size: nat, driver: Driver, reply: PageReply) returns (pl: Place)
    requires Inv(g) && !g.failed && g.stack != [] && Top(g).recording && Top(g).cursor < |g.es| && Faithful(g, t, saved)
    requires WORD - PAGE < size < WORD
    ensures g.space.limit < NONE && PagesOk(g) && |g.space.vaPhys| <= MAX_PAGES && g.physCount <= MAX_PAGES
    ensures |t.pages| == |t.live| == MAX_PAGES && Marks(t.live, LivePages(g.space, g.alloc, g.physCount))
    ensures InRange(g.space.vaPhys, MAX_PAGES) && Units(Large(0), size) == 0
    ensures pl == PlaceFor(g, size, driver, reply) == WindowPlace(g, 0, driver)
    ensures pl == Place(Large(0), g.space, g.physCount, g.smallPages)
    ensures DoAlloc(g, size, pl) == (RecordTake(g, pl.loc, size, pl.space, pl.physCount, pl.smallPages), Pointer(pl.loc))
    ensures RecordTake(g, pl.loc, size, pl.space, pl.physCount, pl.smallPages).es != g.es
  {
    assert (size + PAGE - 1) % WORD == size + PAGE - 1 - WORD < PAGE;
    assert AlignUp(size, PAGE) == 0;
    var bars := Bars(LivePages(g.space, g.alloc, g.physCount), {}, {});
    assert WindowFits(g.space.vaPhys, bars, 0, 0);
    pl := LargePlace(g, size, driver);
    RecordingAlloc(g, size, pl);
  }

  // ---------------------------------------------------------------- replaying and breaking

  lemma ReadyFacts(g: Graph, t: Tables, saved: Saved)
    requires Inv(g) && !g.failed && g.stack != [] && Faithful(g, t, saved)
    ensures Ready(g).space.limit < NONE && |Ready(g).stack| == |g.stack| && Ready(g).es == g.es
    ensures Top(Ready(g)).cursor == Top(g).cursor
  {
    ReadyKeeps(g);
  }

  /** Following a matched event changes the cursor only. */
  lemma AdvanceFacts(g: Graph, t: Tables, saved: Saved, node: nat)
    requires Inv(g) && !g.failed && g.stack != [] && !Top(g).recording && Faithful(g, t, saved)
    requires Top(g).cursor < |g.es| && node < |g.es| && node in g.es[Top(g).cursor].next
    requires g.es[node].kind.Take? || g.es[node].kind.Drop?
    ensures Inv(Advance(g, node)) && Faithful(Advance(g, node), t, saved)
  {
    AdvanceKeeps(g, node);
  }

  /** The child a replaying frame follows for a key; a recording frame follows none. */
  function Follow(g: Graph, key: Key): Found
    requires g.stack != [] && Top(g).cursor < |g.es|
  {
    if Top(g).recording then Nothing else Find(g.es, Top(g).cursor, key)
  }

  /** An allocation request, case by case. */
  lemma AllocCases(g: Graph, size: nat, place: Place)
    requires !g.failed && g.stack != [] && Top(g).cursor < |g.es|
    ensures var found := Follow(g, KTake(size >= SMALL_LIMIT, size));
      && (found.Child? ==> Step(g, AllocReq(size, place)) == (Advance(g, found.node), Pointer(g.es[found.node].kind.loc)))
      && (found.Nothing? && Ready(g).failed ==> Step(g, AllocReq(size, place)) == (Ready(g), Error))
      && (found.Nothing? && !Ready(g).failed ==>
            Ready(g).stack != [] && Top(Ready(g)).cursor < |Ready(g).es| &&
            Step(g, AllocReq(size, place)) == DoAlloc(Ready(g), size, place))
  {}

  // ---------------------------------------------------------------- frees

  /** Some open frame made the allocation and has not freed it. */
  predicate HeldByFrame(g: Graph, loc: Loc) {
    exists k :: 0 <= k < |g.stack| && Holds(g, k, loc)
  }

  lemma FreeCases(g: Graph, loc: Loc)
    requires !g.failed && g.stack != [] && Top(g).cursor < |g.es|
    ensures var found := Follow(g, KDrop(loc));
      && (found.Child? ==> DoFree(g, loc) == (Advance(g, found.node), Done))
      && (found.Nothing? && Ready(g).failed ==> DoFree(g, loc) == (Ready(g), Done))
      && (found.Nothing? && !Ready(g).failed ==>
            Ready(g).stack != [] && Top(Ready(g)).cursor < |Ready(g).es| &&
            DoFree(g, loc) == (RecordDrop(Ready(g), loc), Done))
  {}

  /** A break changes nothing about who holds what. */
  lemma HeldWhenReady(g: Graph, loc: Loc)
    requires Inv(g) && !g.failed && g.stack != []
    ensures HeldByFrame(g, loc) ==> HeldByFrame(Ready(g), loc)
  {
    ReadyKeeps(g);
    if HeldByFrame(g, loc) {
      var k :| 0 <= k < |g.stack| && Holds(g, k, loc);
      assert Mean(Ready(g), k) == Mean(g, k);
      assert Holds(Ready(g), k, loc);
    }
  }

  /** What a recorded free will find and do. */
  lemma DropPlan(g: Graph, t: Tables, saved: Saved, loc: Loc)
    requires Inv(g) && !g.failed && g.stack != [] && Top(g).recording && Top(g).cursor < |g.es| && Faithful(g, t, saved)
    ensures Shows(t, g.alloc, g.space, g.physCount) && |t.pages| == |t.live| == MAX_PAGES
    ensures loc in g.alloc ==> MayDrop(t, g.space.vaPhys, loc)
    ensures loc !in g.alloc || g.alloc[loc].depth != Top(g).depth ==> RecordDrop(g, loc) == Fail(g) && Inv(Fail(g))
    ensures loc in g.alloc && g.alloc[loc].depth == Top(g).depth && g.alloc[loc].ev in Top(g).tracked ==>
              Inv(RecordDrop(g, loc)) && Faithful(RecordDrop(g, loc), Dropped(t, g.space.vaPhys, loc), saved)
    ensures HeldByFrame(g, loc) && loc in g.alloc && g.alloc[loc].depth == Top(g).depth ==> g.alloc[loc].ev in Top(g).tracked
  {
    hide Inv, Shows, MayDrop, Dropped, HeldByFrame, RecordDrop, Holds;
    if loc !in g.alloc || g.alloc[loc].depth != Top(g).depth {
      DropRefused(g, loc);
    } else if g.alloc[loc].ev in Top(g).tracked {
      DropTracked(g, t, saved, loc);
    }
    if loc in g.alloc { DropTablesMay(g, t, saved, loc); }
    if HeldByFrame(g, loc) { HeldIsTracked(g, loc); }
    FaithfulShows(g, t, saved);
  }

  lemma FaithfulShows(g: Graph, t: Tables, saved: Saved)
    requires Faithful(g, t, saved)
    ensures Shows(t, g.alloc, g.space, g.physCount) && |t.pages| == |t.live| == MAX_PAGES
  {}

  lemma DropTablesMay(g: Graph, t: Tables, saved: Saved, loc: Loc)
    requires Inv(g) && !g.failed && Faithful(g, t, saved) && loc in g.alloc
    ensures MayDrop(t, g.space.vaPhys, loc)
  {
    DroppedShows(g, t, saved, loc);
  }

  lemma DropRefused(g: Graph, loc: Loc)
    requires Inv(g) && g.stack != [] && Top(g).cursor < |g.es| && (loc !in g.alloc || g.alloc[loc].depth != Top(g).depth)
    ensures RecordDrop(g, loc) == Fail(g) && Inv(Fail(g))
  {
    FailKeeps(g, g.space, g.physCount, g.smallPages);
    hide Inv;
  }

  lemma DropTracked(g: Graph, t: Tables, saved: Saved, loc: Loc)
    requires Inv(g) && !g.failed && g.stack != [] && Top(g).recording && Top(g).cursor < |g.es| && Faithful(g, t, saved)
    requires loc in g.alloc && g.alloc[loc].depth == Top(g).depth && g.alloc[loc].ev in Top(g).tracked
    ensures MayDrop(t, g.space.vaPhys, loc)
    ensures Inv(RecordDrop(g, loc)) && Faithful(RecordDrop(g, loc), Dropped(t, g.space.vaPhys, loc), saved)
  {
    TrackedIsHeldByTop(g, loc);
    RecordDropKeeps(g, loc);
    DroppedShows(g, t, saved, loc);
    assert RecordDrop(g, loc).alloc == g.alloc - {loc};
    hide Inv, RecordDrop, Dropped, MayDrop;
    DroppedFaithful(g, t, saved, loc);
  }

  lemma HeldIsTracked(g: Graph, loc: Loc)
    requires Inv(g) && !g.failed && g.stack != [] && Top(g).recording && HeldByFrame(g, loc)
    ensures loc in g.alloc && (g.alloc[loc].depth == Top(g).depth ==> g.alloc[loc].ev in Top(g).tracked)
  {
    hide Inv, Holds;
    var k :| 0 <= k < |g.stack| && Holds(g, k, loc);
    HeldIsKnown(g, loc, k);
    if k == |g.stack| - 1 { DropIsEffective(g, loc); }
  }

  /** An allocation of the recorder's that the innermost frame tracks is held by that frame. */
  lemma TrackedIsHeldByTop(g: Graph, loc: Loc)
    requires Inv(g) && !g.failed && g.stack != [] && Top(g).recording && loc in g.alloc && g.alloc[loc].ev in Top(g).tracked
    ensures Holds(g, |g.stack| - 1, loc)
  {
    var top := |g.stack| - 1;
    assert FrameOk(g, top);
    FrameSem(g, top);
    assert LiveEvent(g.es, Mean(g, top).alloc, g.alloc[loc].ev);
    assert MadeBy(g.es, loc, g.alloc[loc]);
  }

  /** The tables have what is to be dropped, where the drop will look for it. */
  predicate MayDrop(t: Tables, vaPhys: seq<int>, loc: Loc) {
    && |t.pages| == |t.live| == MAX_PAGES && InRange(vaPhys, MAX_PAGES)
    && (loc.Large? ==> loc.va < MAX_PAGES && loc.va + t.pages[loc.va].span <= |vaPhys|)
    && (loc.Small? ==> Position(t.ranges, loc.offset, 0) < |t.ranges|)
  }

  function Dropped(t: Tables, vaPhys: seq<int>, loc: Loc): Tables
    requires MayDrop(t, vaPhys, loc)
  {
    if loc.Large? then DroppedLarge(t, vaPhys, loc.va) else DroppedSmall(t, Position(t.ranges, loc.offset, 0))
  }

  lemma DroppedShows(g: Graph, t: Tables, saved: Saved, loc: Loc)
    requires Faithful(g, t, saved) && AllocOk(g.space, g.alloc) && loc in g.alloc
    ensures MayDrop(t, g.space.vaPhys, loc) && Shows(Dropped(t, g.space.vaPhys, loc), g.alloc - {loc}, g.space, g.physCount)
  {
    match loc
    case Large(va) => DroppedLargeShows(t, g.alloc, g.space, g.physCount, va);
    case Small(o) =>
      FindRange(t, g.alloc, g.space, g.physCount, o);
      DroppedSmallShows(t, g.alloc, g.space, g.physCount, Position(t.ranges, o, 0));
  }

  /** The recorder knows the allocation, at the depth of the frame that holds it. */
  lemma HeldIsKnown(g: Graph, loc: Loc, k: nat)
    requires Inv(g) && !g.failed && g.stack != [] && Top(g).recording && k < |g.stack| && Holds(g, k, loc)
    ensures loc in g.alloc && g.alloc[loc].depth == k + 1 && Top(g).depth == |g.stack|
    ensures g.alloc[loc].depth == Top(g).depth <==> k == |g.stack| - 1
  {
    var top := |g.stack| - 1;
    assert FrameOk(g, top);
    if k == top { DropIsEffective(g, loc); } else { HeldOutside(g, k, top, loc); }
  }

  lemma DroppedFaithful(g: Graph, t: Tables, saved: Saved, loc: Loc)
    requires Inv(g) && !g.failed && g.stack != [] && Top(g).recording && Top(g).cursor < |g.es| && Faithful(g, t, saved)
    requires Holds(g, |g.stack| - 1, loc) && !RecordDrop(g, loc).failed && loc in g.alloc
    requires RecordDrop(g, loc).alloc == g.alloc - {loc}
    ensures forall t' :: Shows(t', g.alloc - {loc}, g.space, g.physCount) ==> Faithful(RecordDrop(g, loc), t', saved)
  {
    var r := RecordDrop(g, loc);
    hide Inv, Shows, SavedOk, DropsFind;
    AppendGrows(g.es, Top(g).cursor, Drop(loc));
    SavedGrows(g.es, r.es, saved, g.space, g.physCount, g.space, g.physCount);
    MeaningStable(g.es, r.es, Top(g).cursor);
    DropsFindGrows(g.es, r.es);
  }

  // ---------------------------------------------------------------- frames

  function AppendCall(es: Events, cursor: nat, name: string, snapshot: Alloc, depth: nat): Events
    requires cursor < |es|
  {
    Append(es, cursor, Call(name, |es| + 1)) + [Event(Scope(snapshot, depth), 0, [])]
  }

  lemma PushCases(g: Graph, name: string)
    requires !g.failed && g.stack != [] && Top(g).cursor < |g.es|
    ensures var found := Find(g.es, Top(g).cursor, KCall(name));
      && (found.Child? ==> g.es[found.node].kind.Call? && Step(g, PushReq(name)) == (Enter(g, g.es[found.node].kind.scope), Done))
      && (found.Nothing? && Ready(g).failed ==> Step(g, PushReq(name)) == (Ready(g), Error))
      && (found.Nothing? && !Ready(g).failed ==>
            Ready(g).stack != [] && Top(Ready(g)).cursor < |Ready(g).es| &&
            Step(g, PushReq(name)) == (RecordCall(Ready(g), name), Done))
  {}

  lemma EnterFacts(g: Graph, t: Tables, saved: Saved, node: nat, name: string)
    requires Inv(g) && !g.failed && g.stack != [] && Faithful(g, t, saved) && Top(g).cursor < |g.es|
    requires node < |g.es| && node in g.es[Top(g).cursor].next && g.es[node].kind.Call?
    ensures Inv(Enter(g, g.es[node].kind.scope)) && Faithful(Enter(g, g.es[node].kind.scope), t, saved)
  {
    EnterKeeps(g, node);
  }

  lemma CallFacts(g: Graph, t: Tables, saved: Saved, name: string)
    requires Inv(g) && !g.failed && g.stack != [] && Top(g).recording && Top(g).cursor < |g.es| && Faithful(g, t, saved)
    ensures Inv(RecordCall(g, name)) && Faithful(RecordCall(g, name), t, saved[|g.es| + 1 := Snapshot(t.pages, t.live, t.ranges)])
  {
    var r := RecordCall(g, name);
    RecordCallKeeps(g, name);
    AppendGrows(g.es, Top(g).cursor, Call(name, |g.es| + 1));
    assert Grown(g.es, r.es);
    DropsFindGrows(g.es, r.es);
    hide Inv;
    assert forall n :: 0 <= n < |g.es| ==> r.es[n].kind == g.es[n].kind;
    assert r.es[|g.es| + 1].kind == Scope(g.alloc, Top(g).depth + 1);
  }

  lemma PopCases(g: Graph)
    requires !g.failed && g.stack != [] && Top(g).cursor < |g.es|
    ensures Follow(g, KEnd).Child? ==> DoPop(g) == (Close(g), Done)
    ensures Follow(g, KEnd).Nothing? ==>
              && (Ready(g).failed ==> DoPop(g) == (Ready(g), Error))
              && (!Ready(g).failed ==> Ready(g).stack != [] && Top(Ready(g)).cursor < |Ready(g).es|)
              && (!Ready(g).failed && Top(Ready(g)).tracked != [] ==> DoPop(g) == (Fail(Ready(g)), Leaks))
              && (!Ready(g).failed && Top(Ready(g)).tracked == [] ==> DoPop(g) == (RecordEnd(Ready(g)), Done))
  {}

  lemma CloseFacts(g: Graph, t: Tables, saved: Saved)
    requires Inv(g) && !g.failed && g.stack != [] && Faithful(g, t, saved)
    ensures Inv(Close(g)) && Faithful(Close(g), t, saved)
  {
    CloseKeeps(g);
  }

  lemma LeakFacts(g: Graph)
    requires Inv(g)
    ensures Inv(Fail(g))
  {
    FailKeeps(g, g.space, g.physCount, g.smallPages);
  }

  lemma EndFacts(g: Graph, t: Tables, saved: Saved)
    requires Inv(g) && !g.failed && g.stack != [] && Top(g).recording && Top(g).cursor < |g.es| && Top(g).tracked == []
    requires Faithful(g, t, saved)
    ensures Inv(RecordEnd(g)) && Faithful(RecordEnd(g), t, saved)
    ensures RecordEnd(g) == Close(g.(es := Append(g.es, Top(g).cursor, End)))
  {
    assert FrameOk(g, |g.stack| - 1);
    RecordEndKeeps(g);
    AppendGrows(g.es, Top(g).cursor, End);
    SavedGrows(g.es, RecordEnd(g).es, saved, g.space, g.physCount, g.space, g.physCount);
    DropsFindGrows(g.es, RecordEnd(g).es);
  }
}
