/**
  The compiler's tables as one value, and what taking, dropping and rebuilding do to them: each
  keeps them a faithful picture of the state they stand for.
*/
module GraphTables {
  import opened GraphModel
  import opened GraphTree
  import opened GraphPages
  import opened GraphSmall
  import opened GraphPeak
  import opened GraphRep

  datatype Tables = Tables(pages: seq<VirtualPage>, live: seq<bool>, ranges: seq<SmallRange>, used: int)

  /** The tables show exactly the state, and the running total is the bytes of all its allocations. */
  predicate Shows(t: Tables, a: Alloc, sp: Space, count: nat) {
    && |t.pages| == |t.live| == MAX_PAGES
    && PagesRep(t.pages, a) && RangesRep(t.ranges, a)
    && Marks(t.live, LivePages(sp, a, count))
    && t.used == Used(t.pages, t.ranges)
  }

  // ---------------------------------------------------------------- marking

  /** The marks after the pages behind `n` virtual pages were set one by one. */
  function Marked(live: seq<bool>, vaPhys: seq<int>, va: nat, n: nat, value: bool): (r: seq<bool>)
    requires va + n <= |vaPhys| && InRange(vaPhys, |live|)
    ensures |r| == |live|
  {
    if n == 0 then live else Marked(live, vaPhys, va, n - 1, value)[vaPhys[va + n - 1] := value]
  }

  lemma {:induction false} MarkedMeans(live: seq<bool>, vaPhys: seq<int>, va: nat, n: nat, value: bool, p: nat)
    requires va + n <= |vaPhys| && InRange(vaPhys, |live|) && p < |live|
    ensures Marked(live, vaPhys, va, n, value)[p] == if Backs(Space(vaPhys, 0), Large(va), n, p) then value else live[p]
  {
    if n > 0 {
      MarkedMeans(live, vaPhys, va, n - 1, value, p);
      BacksOneMore(vaPhys, va, n, p);
    }
  }

  lemma BacksOneMore(vaPhys: seq<int>, va: nat, n: nat, p: nat)
    requires n > 0 && va + n <= |vaPhys|
    ensures Backs(Space(vaPhys, 0), Large(va), n, p) <==> Backs(Space(vaPhys, 0), Large(va), n - 1, p) || vaPhys[va + n - 1] == p
  {
    if Backs(Space(vaPhys, 0), Large(va), n - 1, p) {
      var i :| va <= i < va + (n - 1) && i < |vaPhys| && vaPhys[i] == p;
      assert va <= i < va + n;
    }
  }

  lemma MarkedTrue(live: seq<bool>, vaPhys: seq<int>, va: nat, n: nat, pages: set<nat>, count: nat)
    requires va + n <= |vaPhys| && InRange(vaPhys, |live|) && InRange(vaPhys, count) && Marks(live, pages)
    ensures Marks(Marked(live, vaPhys, va, n, true), pages + Behind(vaPhys, va, n, count))
  {
    forall p: nat | p < |live|
      ensures Marked(live, vaPhys, va, n, true)[p] <==> p in pages + Behind(vaPhys, va, n, count)
    {
      MarkedMeans(live, vaPhys, va, n, true, p);
    }
  }

  lemma MarkedFalse(live: seq<bool>, vaPhys: seq<int>, va: nat, n: nat, pages: set<nat>, count: nat)
    requires va + n <= |vaPhys| && InRange(vaPhys, |live|) && InRange(vaPhys, count) && Marks(live, pages)
    ensures Marks(Marked(live, vaPhys, va, n, false), pages - Behind(vaPhys, va, n, count))
  {
    forall p: nat | p < |live|
      ensures Marked(live, vaPhys, va, n, false)[p] <==> p in pages - Behind(vaPhys, va, n, count)
    {
      MarkedMeans(live, vaPhys, va, n, false, p);
    }
  }

  // ---------------------------------------------------------------- taking and dropping

  function TookLarge(t: Tables, vaPhys: seq<int>, va: nat, e: Entry): Tables
    requires va < |t.pages| && va + e.units <= |vaPhys| && InRange(vaPhys, |t.live|)
  {
    t.(pages := t.pages[va := VirtualPage(e.units, e.depth, e.ev)], live := Marked(t.live, vaPhys, va, e.units, true),
       used := t.used + e.units * PAGE)
  }

  function DroppedLarge(t: Tables, vaPhys: seq<int>, va: nat): Tables
    requires va < |t.pages| && va + t.pages[va].span <= |vaPhys| && InRange(vaPhys, |t.live|)
  {
    t.(pages := t.pages[va := NO_PAGE], live := Marked(t.live, vaPhys, va, t.pages[va].span, false),
       used := t.used - t.pages[va].span * PAGE)
  }

  function TookSmall(t: Tables, o: nat, e: Entry): Tables {
    t.(ranges := Inserted(t.ranges, SmallRange(o, e.units, e.depth, e.ev)), used := t.used + e.units)
  }

  function DroppedSmall(t: Tables, i: nat): Tables
    requires i < |t.ranges|
  {
    t.(ranges := RemovedAt(t.ranges, i), used := t.used - t.ranges[i].bytes)
  }

  lemma BehindIsBacked(sp: Space, va: nat, n: nat, count: nat)
    ensures (set p: nat | p < count && Backs(sp, Large(va), n, p)) == Behind(sp.vaPhys, va, n, count)
  {
    forall p: nat ensures Backs(sp, Large(va), n, p) <==> Backs(Space(sp.vaPhys, 0), Large(va), n, p) {
      if Backs(sp, Large(va), n, p) { var i :| va <= i < va + n && i < |sp.vaPhys| && sp.vaPhys[i] == p; }
    }
  }

  /** The tables show the state except that some of a window's pages are already marked. */
  predicate AlmostShows(t: Tables, a: Alloc, sp: Space, count: nat, marked: set<nat>) {
    && |t.pages| == |t.live| == MAX_PAGES && PagesRep(t.pages, a) && RangesRep(t.ranges, a)
    && Marks(t.live, marked) && t.used == Used(t.pages, t.ranges)
  }

  lemma TookWindowShows(t: Tables, a: Alloc, sp: Space, count: nat, va: nat, e: Entry, marked: set<nat>)
    requires AlmostShows(t, a, sp, count, marked) && Large(va) !in a && e.units > 0 && va + e.units <= |sp.vaPhys|
    requires InRange(sp.vaPhys, count) && count <= MAX_PAGES && va < MAX_PAGES
    requires LivePages(sp, a, count) <= marked <= LivePages(sp, a, count) + Behind(sp.vaPhys, va, e.units, count)
    ensures Shows(TookLarge(t, sp.vaPhys, va, e), a[Large(va) := e], sp, count)
  {
    TakePage(t.pages, a, va, e);
    LargeLeavesRanges(t.ranges, a, va, e);
    LiveAfterTake(sp, a, Large(va), e, count);
    BehindIsBacked(sp, va, e.units, count);
    MarkedTrue(t.live, sp.vaPhys, va, e.units, marked, count);
    UsedPagesUpdate(t.pages, va, VirtualPage(e.units, e.depth, e.ev), |t.pages|);
    hide PagesRep, RangesRep, Marks, UsedRanges, LivePages, Marked, Behind;
    assert marked + Behind(sp.vaPhys, va, e.units, count) == LivePages(sp, a, count) + Behind(sp.vaPhys, va, e.units, count);
  }

  lemma TookLargeShows(t: Tables, a: Alloc, sp: Space, count: nat, va: nat, e: Entry)
    requires Shows(t, a, sp, count) && Large(va) !in a && e.units > 0 && va + e.units <= |sp.vaPhys|
    requires InRange(sp.vaPhys, count) && count <= MAX_PAGES && va < MAX_PAGES
    ensures Shows(TookLarge(t, sp.vaPhys, va, e), a[Large(va) := e], sp, count)
  {
    TookWindowShows(t, a, sp, count, va, e, LivePages(sp, a, count));
  }

  lemma DroppedLargeShows(t: Tables, a: Alloc, sp: Space, count: nat, va: nat)
    requires Shows(t, a, sp, count) && Large(va) in a && AllocOk(sp, a) && InRange(sp.vaPhys, count) && count <= MAX_PAGES
    ensures va < |t.pages| && t.pages[va] == VirtualPage(a[Large(va)].units, a[Large(va)].depth, a[Large(va)].ev)
    ensures va + t.pages[va].span <= |sp.vaPhys|
    ensures Shows(DroppedLarge(t, sp.vaPhys, va), a - {Large(va)}, sp, count)
  {
    assert EntryOk(sp, Large(va), a[Large(va)].units);
    assert t.pages[va].span == a[Large(va)].units;
    DropPage(t.pages, a, va);
    LargeLeavesRanges(t.ranges, a, va, a[Large(va)]);
    LiveAfterDrop(sp, a, va, count);
    MarkedFalse(t.live, sp.vaPhys, va, t.pages[va].span, LivePages(sp, a, count), count);
    UsedPagesUpdate(t.pages, va, NO_PAGE, |t.pages|);
    hide PagesRep, RangesRep, Marks, UsedRanges, LivePages, Marked, Behind, AllocOk;
  }

  lemma TookSmallShows(t: Tables, a: Alloc, sp: Space, count: nat, o: nat, e: Entry)
    requires Shows(t, a, sp, count) && Small(o) !in a
    ensures Shows(TookSmall(t, o, e), a[Small(o) := e], sp, count)
  {
    SmallLeavesPages(t.pages, a, o, e);
    TakeRange(t.ranges, a, SmallRange(o, e.units, e.depth, e.ev));
    SmallLeavesLive(sp, a, o, e, count);
    UsedInserted(t.ranges, Position(t.ranges, o, 0), SmallRange(o, e.units, e.depth, e.ev), |t.ranges|);
    hide PagesRep, RangesRep, Marks, UsedPages, LivePages;
  }

  lemma DroppedSmallShows(t: Tables, a: Alloc, sp: Space, count: nat, i: nat)
    requires Shows(t, a, sp, count) && i < |t.ranges|
    ensures Shows(DroppedSmall(t, i), a - {Small(t.ranges[i].offset)}, sp, count)
  {
    assert RangesHold(t.ranges, a);
    SmallLeavesPages(t.pages, a, t.ranges[i].offset, a[Small(t.ranges[i].offset)]);
    DropRange(t.ranges, a, i);
    SmallLeavesLive(sp, a, t.ranges[i].offset, a[Small(t.ranges[i].offset)], count);
    UsedRemoved(t.ranges, i, |t.ranges|);
    hide PagesRep, RangesRep, Marks, UsedPages, LivePages, RemovedAt;
  }

  /** More pages and a longer heap change nothing that the tables show. */
  lemma ShowsStill(t: Tables, a: Alloc, sp: Space, count: nat, sp': Space, count': nat)
    requires Shows(t, a, sp, count) && Grows(sp, sp') && InRange(sp.vaPhys, count) && count <= count'
    requires forall l :: l in a ==> EntryOk(sp, l, a[l].units)
    ensures Shows(t, a, sp', count')
  {
    LiveAfterGrowth(sp, sp', a, count, count');
  }

  // ---------------------------------------------------------------- rebuilding along a path

  datatype Rebuilt = Rebuilt(t: Tables, tracked: seq<nat>)

  /** What a scope's snapshot keeps of the tables; the bytes in use are not among it. */
  datatype Snapshot = Snapshot(pages: seq<VirtualPage>, live: seq<bool>, ranges: seq<SmallRange>)

  /** The snapshots by the scopes' positions. */
  type Saved = map<nat, Snapshot>

  /** A snapshot put back in place, with the bytes in use recomputed from its marks and ranges. */
  function Restored(s: Snapshot, count: nat): Tables {
    Tables(s.pages, s.live, s.ranges, if count <= |s.live| then AllocationUsed(s.live, count, s.ranges) else 0)
  }

  predicate SnapshotShows(s: Snapshot, a: Alloc, sp: Space, count: nat) {
    Shows(Tables(s.pages, s.live, s.ranges, Used(s.pages, s.ranges)), a, sp, count)
  }

  lemma RestoredShows(s: Snapshot, a: Alloc, sp: Space, count: nat)
    requires SnapshotShows(s, a, sp, count) && AllocOk(sp, a) && InRange(sp.vaPhys, count) && count <= MAX_PAGES
    ensures Shows(Restored(s, count), a, sp, count)
  {
    RecomputedIsUsed(s.pages, s.live, s.ranges, a, sp, count);
  }

  /** The running total is what recomputing it from the marks and the ranges would give. */
  lemma UsedIsRecomputed(t: Tables, a: Alloc, sp: Space, count: nat)
    requires Shows(t, a, sp, count) && AllocOk(sp, a) && InRange(sp.vaPhys, count) && count <= MAX_PAGES
    ensures t.used == AllocationUsed(t.live, count, t.ranges)
  {
    RecomputedIsUsed(t.pages, t.live, t.ranges, a, sp, count);
  }

  /** One event applied to the tables without touching the driver. */
  function DryApply(r: Rebuilt, vaPhys: seq<int>, depth: nat, n: nat, kind: Kind): Rebuilt {
    match kind
    case Take(loc, bytes) =>
      var e := Entry(Units(loc, bytes), depth, n);
      if loc.Large? && loc.va < |r.t.pages| && loc.va + e.units <= |vaPhys| && InRange(vaPhys, |r.t.live|) then
        Rebuilt(TookLarge(r.t, vaPhys, loc.va, e), [n] + r.tracked)
      else if loc.Small? then Rebuilt(TookSmall(r.t, loc.offset, e), [n] + r.tracked)
      else r
    case Drop(loc) =>
      if loc.Large? && loc.va < |r.t.pages| && loc.va + r.t.pages[loc.va].span <= |vaPhys| && InRange(vaPhys, |r.t.live|) then
        Rebuilt(DroppedLarge(r.t, vaPhys, loc.va), Untrack(r.tracked, r.t.pages[loc.va].ev))
      else if loc.Small? && Position(r.t.ranges, loc.offset, 0) < |r.t.ranges| then
        var i := Position(r.t.ranges, loc.offset, 0);
        Rebuilt(DroppedSmall(r.t, i), Untrack(r.tracked, r.t.ranges[i].ev))
      else r
    case _ => r
  }

  /** The snapshot of the node's scope with the path to the node applied. */
  function Rebuild(es: Events, saved: Saved, vaPhys: seq<int>, count: nat, depth: nat, n: nat): Rebuilt {
    if n >= |es| then Rebuilt(Tables([], [], [], 0), [])
    else if es[n].kind.Scope? then Rebuilt(if n in saved then Restored(saved[n], count) else Tables([], [], [], 0), [])
    else if es[n].prev < n then DryApply(Rebuild(es, saved, vaPhys, count, depth, es[n].prev), vaPhys, depth, n, es[n].kind)
    else Rebuilt(Tables([], [], [], 0), [])
  }

  /** Every scope's saved tables show its snapshot. */
  predicate SavedOk(es: Events, saved: Saved, sp: Space, count: nat) {
    forall n :: 0 <= n < |es| && es[n].kind.Scope? ==> n in saved && SnapshotShows(saved[n], es[n].kind.snapshot, sp, count)
  }

  /** A state's tables are found again at the range of an offset. */
  lemma FindRange(t: Tables, a: Alloc, sp: Space, count: nat, o: nat)
    requires Shows(t, a, sp, count)
    ensures var i := Position(t.ranges, o, 0);
      && (Small(o) in a <==> i < |t.ranges| && t.ranges[i].offset == o)
      && (Small(o) in a ==> a[Small(o)] == Entry(t.ranges[i].bytes, t.ranges[i].depth, t.ranges[i].ev))
  {
    var i := Position(t.ranges, o, 0);
    if Small(o) in a {
      assert Listed(t.ranges, o);
      var k :| 0 <= k < |t.ranges| && t.ranges[k].offset == o;
      assert i == k;
    }
    assert i < |t.ranges| && t.ranges[i].offset == o ==> Small(o) in a;
  }

  lemma DryTakeShows(r: Rebuilt, s: Sem, sp: Space, count: nat, n: nat, loc: Loc, bytes: nat)
    requires Shows(r.t, s.alloc, sp, count) && r.tracked == s.tracked && loc !in s.alloc
    requires EntryOk(sp, loc, Units(loc, bytes)) && InRange(sp.vaPhys, count) && count <= MAX_PAGES && |sp.vaPhys| <= MAX_PAGES
    ensures var x := DryApply(r, sp.vaPhys, s.depth, n, Take(loc, bytes));
      Shows(x.t, Apply(s, n, Take(loc, bytes)).alloc, sp, count) && x.tracked == Apply(s, n, Take(loc, bytes)).tracked
  {
    var e := Entry(Units(loc, bytes), s.depth, n);
    match loc
    case Large(va) => TookLargeShows(r.t, s.alloc, sp, count, va, e);
    case Small(o) => TookSmallShows(r.t, s.alloc, sp, count, o, e);
  }

  lemma DryDropShows(r: Rebuilt, s: Sem, sp: Space, count: nat, n: nat, loc: Loc)
    requires Shows(r.t, s.alloc, sp, count) && r.tracked == s.tracked && loc in s.alloc
    requires AllocOk(sp, s.alloc) && InRange(sp.vaPhys, count) && count <= MAX_PAGES
    ensures var x := DryApply(r, sp.vaPhys, s.depth, n, Drop(loc));
      Shows(x.t, Apply(s, n, Drop(loc)).alloc, sp, count) && x.tracked == Apply(s, n, Drop(loc)).tracked
  {
    match loc
    case Large(va) => DroppedLargeShows(r.t, s.alloc, sp, count, va);
    case Small(o) =>
      FindRange(r.t, s.alloc, sp, count, o);
      DroppedSmallShows(r.t, s.alloc, sp, count, Position(r.t.ranges, o, 0));
  }

  /** The path's drops all find what they drop: in a graph without leaks. */
  predicate DropsFind(es: Events) {
    forall n :: 0 <= n < |es| && es[n].kind.Drop? && es[n].prev < n ==> es[n].kind.loc in Meaning(es, es[n].prev).alloc
  }

  /** Rebuilding from a snapshot shows exactly what the node means, with the total recomputed along the way. */
  lemma {:induction false} RebuildShows(es: Events, saved: Saved, sp: Space, count: nat, n: nat)
    requires TreeOk(es, sp) && SavedOk(es, saved, sp, count) && DropsFind(es) && n < |es|
    requires InRange(sp.vaPhys, count) && count <= MAX_PAGES && |sp.vaPhys| <= MAX_PAGES
    ensures var r := Rebuild(es, saved, sp.vaPhys, count, Meaning(es, n).depth, n);
      Shows(r.t, Meaning(es, n).alloc, sp, count) && r.tracked == Meaning(es, n).tracked
  {
    assert NodeOk(es, sp, n);
    if !es[n].kind.Scope? {
      var s := Meaning(es, es[n].prev);
      assert NodeOk(es, sp, es[n].prev);
      RebuildShows(es, saved, sp, count, es[n].prev);
      var r := Rebuild(es, saved, sp.vaPhys, count, s.depth, es[n].prev);
      match es[n].kind
      case Take(loc, bytes) => RebuiltTake(es, sp, n); DryTakeShows(r, s, sp, count, n, loc, bytes);
      case Drop(loc) => DryDropShows(r, s, sp, count, n, loc);
      case _ =>
    } else {
      RestoredShows(saved[n], es[n].kind.snapshot, sp, count);
    }
  }

  lemma RebuiltTake(es: Events, sp: Space, n: nat)
    requires TreeOk(es, sp) && n < |es| && es[n].kind.Take? && es[n].prev < n
    ensures es[n].kind.loc !in Meaning(es, es[n].prev).alloc
    ensures EntryOk(sp, es[n].kind.loc, Units(es[n].kind.loc, es[n].kind.bytes))
  {
    assert NodeOk(es, sp, n);
    var s := Meaning(es, n);
    assert es[n].kind.loc in s.alloc && s.alloc[es[n].kind.loc].units == Units(es[n].kind.loc, es[n].kind.bytes);
  }

  // ---------------------------------------------------------------- growth around the tables

  lemma SavedGrows(es: Events, es': Events, saved: Saved, sp: Space, count: nat, sp': Space, count': nat)
    requires TreeOk(es, sp) && SavedOk(es, saved, sp, count) && Grown(es, es') && Grows(sp, sp')
    requires InRange(sp.vaPhys, count) && count <= count'
    requires forall n :: |es| <= n < |es'| ==> !es'[n].kind.Scope?
    ensures SavedOk(es', saved, sp', count')
  {
    forall n | 0 <= n < |es'| && es'[n].kind.Scope? ensures n in saved && SnapshotShows(saved[n], es'[n].kind.snapshot, sp', count') {
      assert NodeOk(es, sp, n) && Meaning(es, n).alloc == es[n].kind.snapshot;
      var s := saved[n];
      ShowsStill(Tables(s.pages, s.live, s.ranges, Used(s.pages, s.ranges)), es[n].kind.snapshot, sp, count, sp', count');
    }
  }

  lemma DropsFindGrows(es: Events, es': Events)
    requires DropsFind(es) && Grown(es, es')
    requires forall n :: |es| <= n < |es'| && es'[n].kind.Drop? && es'[n].prev < n ==>
               es'[n].kind.loc in Meaning(es', es'[n].prev).alloc
    ensures DropsFind(es')
  {
    forall n | 0 <= n < |es'| && es'[n].kind.Drop? && es'[n].prev < n ensures es'[n].kind.loc in Meaning(es', es'[n].prev).alloc {
      if n < |es| { MeaningStable(es, es', es[n].prev); }
    }
  }

  /** The window found in place is the one the model names, and its marks are its pages. */
  lemma PagesOfIsBehind(vaPhys: seq<int>, va: nat, n: nat, count: nat)
    requires va + n <= |vaPhys| && InRange(vaPhys, count)
    ensures PagesOf(vaPhys, va, n) == Behind(vaPhys, va, n, count)
  {
    forall p: nat ensures p in PagesOf(vaPhys, va, n) <==> p in Behind(vaPhys, va, n, count) {
      if p in PagesOf(vaPhys, va, n) { var i :| va <= i < va + n && vaPhys[i] == p; assert Backs(Space(vaPhys, 0), Large(va), n, p); }
    }
  }

  lemma ChosenIsBehind(space: Space, chosen: seq<nat>, count: nat)
    requires Below(Elements(chosen), count)
    ensures Behind(space.vaPhys + Ints(chosen), |space.vaPhys|, |chosen|, count) == Elements(chosen)
  {
    BackedByChosen(space, chosen, count);
    BehindIsBacked(space.(vaPhys := space.vaPhys + Ints(chosen)), |space.vaPhys|, |chosen|, count);
  }
}
