/**
  Where a large allocation goes: the search for the lowest window of virtual pages that are
  dead, not held by a rogue and backed by distinct physical pages, and otherwise the choice of
  physical pages for fresh virtual ones.
*/
module GraphPages {
  import opened GraphModel
  import opened GraphTree

  // ---------------------------------------------------------------- live physical pages

  predicate Backs(sp: Space, l: Loc, units: nat, p: int) {
    l.Large? && exists i :: l.va <= i < l.va + units && i < |sp.vaPhys| && sp.vaPhys[i] == p
  }

  predicate Live(sp: Space, a: Alloc, p: int) {
    exists l :: l in a && Backs(sp, l, a[l].units, p)
  }

  function LivePages(sp: Space, a: Alloc, count: nat): set<nat> {
    set p: nat | p < count && Live(sp, a, p)
  }

  /** What the search must not touch: live physical pages, and whatever rogues hold. */
  datatype Bars = Bars(live: set<nat>, rogueVa: set<nat>, roguePhys: set<nat>)

  /** What rogues hold, as the search is told. */
  datatype Rogues = Rogues(va: set<nat>, phys: set<nat>)

  predicate Tells(rogues: Rogues, bars: Bars) {
    bars.rogueVa == rogues.va && bars.roguePhys == rogues.phys
  }

  predicate PageFree(vaPhys: seq<int>, bars: Bars, i: nat)
    requires i < |vaPhys|
  {
    i !in bars.rogueVa && vaPhys[i] >= 0 && vaPhys[i] !in bars.live && vaPhys[i] !in bars.roguePhys
  }

  predicate DistinctPages(vaPhys: seq<int>, va: nat, pages: nat)
    requires va + pages <= |vaPhys|
  {
    forall i, j :: va <= i < j < va + pages ==> vaPhys[i] != vaPhys[j]
  }

  /** Every page of the window is dead, not a rogue's, and no two share a physical page. */
  predicate WindowFits(vaPhys: seq<int>, bars: Bars, va: nat, pages: nat) {
    && va + pages <= |vaPhys|
    && (forall i :: va <= i < va + pages ==> PageFree(vaPhys, bars, i))
    && DistinctPages(vaPhys, va, pages)
  }

  datatype Window = NoWindow | At(va: nat)

  /** The lowest fitting window, or none. */
  ghost predicate LowestWindow(vaPhys: seq<int>, bars: Bars, pages: nat, w: Window) {
    match w
    case At(va) => WindowFits(vaPhys, bars, va, pages) && forall v :: 0 <= v < va ==> !WindowFits(vaPhys, bars, v, pages)
    case NoWindow => forall v :: 0 <= v ==> !WindowFits(vaPhys, bars, v, pages)
  }

  function FirstWindow(vaPhys: seq<int>, bars: Bars, pages: nat, va: nat): (w: Window)
    requires forall v :: 0 <= v < va ==> !WindowFits(vaPhys, bars, v, pages)
    ensures LowestWindow(vaPhys, bars, pages, w)
    decreases |vaPhys| + 1 - va
  {
    if va + pages > |vaPhys| || va > |vaPhys| then NoWindow
    else if WindowFits(vaPhys, bars, va, pages) then At(va)
    else FirstWindow(vaPhys, bars, pages, va + 1)
  }

  // ---------------------------------------------------------------- the search in place

  predicate Marks(live: seq<bool>, marked: set<nat>) {
    forall p :: 0 <= p < |live| ==> (live[p] <==> p in marked)
  }

  predicate InRange(vaPhys: seq<int>, count: nat) {
    forall i :: 0 <= i < |vaPhys| ==> 0 <= vaPhys[i] < count
  }

  /** The physical pages behind part of a window. */
  function PagesOf(vaPhys: seq<int>, va: nat, n: nat): (s: set<nat>)
    requires va + n <= |vaPhys| && forall i :: 0 <= i < |vaPhys| ==> vaPhys[i] >= 0
    ensures forall p :: p in s <==> exists i :: va <= i < va + n && vaPhys[i] == p
  {
    if n == 0 then {} else PagesOf(vaPhys, va, n - 1) + {vaPhys[va + n - 1]}
  }

  /** There is only one lowest window. */
  lemma LowestIsUnique(vaPhys: seq<int>, bars: Bars, pages: nat, w: Window, x: Window)
    requires LowestWindow(vaPhys, bars, pages, w) && LowestWindow(vaPhys, bars, pages, x)
    ensures w == x
  {
    if w.At? && x.At? { assert !(w.va < x.va) && !(x.va < w.va); }
    if w.At? { assert WindowFits(vaPhys, bars, w.va, pages); }
    if x.At? { assert WindowFits(vaPhys, bars, x.va, pages); }
  }

  /** The window's first `j` pages are free and distinct, and are marked besides the live ones. */
  predicate Tried(live: seq<bool>, vaPhys: seq<int>, bars: Bars, va: nat, j: nat) {
    && InRange(vaPhys, |live|) && va + j <= |vaPhys|
    && Marks(live, bars.live + PagesOf(vaPhys, va, j))
    && (forall i :: va <= i < va + j ==> PageFree(vaPhys, bars, i))
    && DistinctPages(vaPhys, va, j)
  }

  lemma TriedNone(live: seq<bool>, vaPhys: seq<int>, bars: Bars, va: nat)
    requires InRange(vaPhys, |live|) && va <= |vaPhys|
    ensures Tried(live, vaPhys, bars, va, 0) <==> Marks(live, bars.live)
  {
    assert bars.live + PagesOf(vaPhys, va, 0) == bars.live;
  }

  /** Whether the next page is marked says whether it is live or shared with the pages tried so far. */
  lemma TryOne(live: seq<bool>, vaPhys: seq<int>, bars: Bars, va: nat, j: nat)
    requires Tried(live, vaPhys, bars, va, j) && va + j < |vaPhys|
    ensures live[vaPhys[va + j]] <==> vaPhys[va + j] in bars.live || vaPhys[va + j] in PagesOf(vaPhys, va, j)
    ensures PageFree(vaPhys, bars, va + j) && !live[vaPhys[va + j]] ==>
              Tried(live[vaPhys[va + j] := true], vaPhys, bars, va, j + 1)
  {
    assert PagesOf(vaPhys, va, j + 1) == PagesOf(vaPhys, va, j) + {vaPhys[va + j]};
  }

  /** Marks the window's pages live one by one; stops at the first page that is not free or already marked. */
  method TryWindow(live: array<bool>, vaPhys: seq<int>, ghost bars: Bars, rogues: Rogues, va: nat, pages: nat) returns (j: nat)
    requires InRange(vaPhys, live.Length) && va + pages <= |vaPhys|
    requires Marks(live[..], bars.live) && Tells(rogues, bars)
    modifies live
    ensures j <= pages && Tried(live[..], vaPhys, bars, va, j)
    ensures j < pages ==> !PageFree(vaPhys, bars, va + j) || vaPhys[va + j] in PagesOf(vaPhys, va, j)
  {
    j := 0;
    TriedNone(live[..], vaPhys, bars, va);
    while j < pages
      invariant j <= pages && Tried(live[..], vaPhys, bars, va, j)
    {
      var phys := vaPhys[va + j];
      TryOne(live[..], vaPhys, bars, va, j);
      if va + j in rogues.va || live[phys] || phys in rogues.phys {
        return j;
      }
      ghost var before := live[..];
      live[phys] := true;
      assert live[..] == before[phys := true];
      j := j + 1;
    }
  }

  /** Takes back the marks of a failed attempt, and says how far the search may move on. */
  method UndoWindow(live: array<bool>, vaPhys: seq<int>, ghost bars: Bars, va: nat, j: nat) returns (advance: nat)
    requires Tried(live[..], vaPhys, bars, va, j) && va + j < |vaPhys|
    modifies live
    ensures Marks(live[..], bars.live)
    ensures 0 < advance <= j + 1
    ensures advance <= j ==> vaPhys[va + advance - 1] == vaPhys[va + j]
    ensures advance == j + 1 ==> vaPhys[va + j] !in PagesOf(vaPhys, va, j)
  {
    advance := j + 1;
    for k := 0 to j
      invariant 0 < advance <= j + 1
      invariant advance <= j ==> vaPhys[va + advance - 1] == vaPhys[va + j]
      invariant advance == j + 1 ==> forall i :: va <= i < va + k ==> vaPhys[i] != vaPhys[va + j]
      invariant forall p :: 0 <= p < live.Length ==>
        (live[p] <==> p in bars.live || exists i :: va + k <= i < va + j && vaPhys[i] == p)
    {
      if vaPhys[va + k] == vaPhys[va + j] {
        advance := k + 1;
      }
      assert PageFree(vaPhys, bars, va + k);
      live[vaPhys[va + k]] := false;
    }
  }

  /** Moving on by `advance` skips no window that fits. */
  lemma SkipsNoWindow(vaPhys: seq<int>, bars: Bars, va: nat, pages: nat, j: nat, advance: nat)
    requires j < pages && va + pages <= |vaPhys| && 0 < advance <= j + 1
    requires !PageFree(vaPhys, bars, va + j) || advance <= j
    requires advance <= j ==> vaPhys[va + advance - 1] == vaPhys[va + j]
    ensures forall v :: va <= v < va + advance ==> !WindowFits(vaPhys, bars, v, pages)
  {
    forall v | va <= v < va + advance && v + pages <= |vaPhys| ensures !WindowFits(vaPhys, bars, v, pages) {
      if advance <= j { assert v <= va + advance - 1 < va + j < v + pages; } else { assert v <= va + j < v + pages; }
    }
  }

  /**
    Finds the lowest fitting window and leaves exactly its pages marked besides the live ones;
    when there is none, the marks are as they were.
  */
  method SearchWindow(live: array<bool>, vaPhys: seq<int>, ghost bars: Bars, rogues: Rogues, pages: nat) returns (w: Window)
    requires InRange(vaPhys, live.Length) && Marks(live[..], bars.live) && Tells(rogues, bars)
    modifies live
    ensures LowestWindow(vaPhys, bars, pages, w)
    ensures w.At? ==> Marks(live[..], bars.live + PagesOf(vaPhys, w.va, pages))
    ensures w.NoWindow? ==> live[..] == old(live[..])
  {
    var va := 0;
    while va + pages <= |vaPhys|
      invariant Marks(live[..], bars.live)
      invariant forall v :: 0 <= v < va ==> !WindowFits(vaPhys, bars, v, pages)
      decreases |vaPhys| + 1 - va
    {
      var j := TryWindow(live, vaPhys, bars, rogues, va, pages);
      if j == pages {
        return At(va);
      }
      var advance := UndoWindow(live, vaPhys, bars, va, j);
      SkipsNoWindow(vaPhys, bars, va, pages, j, advance);
      va := va + advance;
    }
    assert live[..] == old(live[..]);
    return NoWindow;
  }

  // ---------------------------------------------------------------- physical pages for fresh virtual ones

  /** The lowest physical page that is neither live nor a rogue's, or a page yet to be created. */
  function NextFree(busy: set<nat>, count: nat, p: nat): (r: nat)
    requires p <= count
    ensures p <= r <= count && (r < count ==> r !in busy) && forall q :: p <= q < r ==> q in busy
    decreases count - p
  {
    if p == count || p !in busy then p else NextFree(busy, count, p + 1)
  }

  datatype Choice = Choice(chosen: seq<nat>, count: nat)

  /** One page after another for `n` fresh virtual pages; `count` pages exist so far. */
  function Choose(busy: set<nat>, count: nat, n: nat): Choice {
    if n == 0 then Choice([], count)
    else
      var before := Choose(busy, count, n - 1);
      var p := NextFree(busy + Elements(before.chosen), before.count, 0);
      Choice(before.chosen + [p], if p == before.count then p + 1 else before.count)
  }

  function Elements(s: seq<nat>): set<nat> {
    set x | x in s
  }

  predicate Below(s: set<nat>, n: nat) {
    forall x :: x in s ==> x < n
  }

  predicate Distinct(s: seq<nat>) {
    forall i, j :: 0 <= i < j < |s| ==> s[i] != s[j]
  }

  /**
    The chosen pages are distinct, not busy, and the lowest such pages; and a page is created
    only once every page that exists is busy or chosen.
  */
  lemma {:induction false} ChooseIsLowest(busy: set<nat>, count: nat, n: nat)
    requires Below(busy, count)
    ensures var c := Choose(busy, count, n);
      && |c.chosen| == n && Distinct(c.chosen) && Elements(c.chosen) !! busy
      && count <= c.count && Below(Elements(c.chosen), c.count)
      && (forall p, i :: 0 <= i < n && 0 <= p < c.chosen[i] ==> p in busy || p in c.chosen)
      && (count < c.count ==> forall p :: 0 <= p < c.count ==> p in busy || p in c.chosen)
  {
    if n > 0 {
      ChooseIsLowest(busy, count, n - 1);
      ChooseOneMore(busy, count, n);
    }
  }

  lemma ChooseOneMore(busy: set<nat>, count: nat, n: nat)
    requires Below(busy, count) && n > 0
    requires var b := Choose(busy, count, n - 1);
      && |b.chosen| == n - 1 && Distinct(b.chosen) && Elements(b.chosen) !! busy
      && count <= b.count && Below(Elements(b.chosen), b.count)
      && (forall p, i :: 0 <= i < n - 1 && 0 <= p < b.chosen[i] ==> p in busy || p in b.chosen)
      && (count < b.count ==> forall p :: 0 <= p < b.count ==> p in busy || p in b.chosen)
    ensures var c := Choose(busy, count, n);
      && |c.chosen| == n && Distinct(c.chosen) && Elements(c.chosen) !! busy
      && count <= c.count && Below(Elements(c.chosen), c.count)
      && (forall p, i :: 0 <= i < n && 0 <= p < c.chosen[i] ==> p in busy || p in c.chosen)
      && (count < c.count ==> forall p :: 0 <= p < c.count ==> p in busy || p in c.chosen)
  {
    var b, c := Choose(busy, count, n - 1), Choose(busy, count, n);
    var p := c.chosen[n - 1];
    assert c.chosen == b.chosen + [p];
    assert p !in busy && p !in b.chosen;
    forall q | 0 <= q < p ensures q in busy || q in c.chosen { assert q in busy + Elements(b.chosen); }
  }

  // ---------------------------------------------------------------- counting pages

  function UpTo(n: nat): (s: set<nat>)
    ensures forall x: nat :: x in s <==> x < n
  {
    if n == 0 then {} else UpTo(n - 1) + {n - 1}
  }

  lemma {:induction false} UpToSize(n: nat)
    ensures |UpTo(n)| == n
  {
    if n > 0 {
      UpToSize(n - 1);
    }
  }

  lemma {:induction false} SubsetSize(a: set<nat>, b: set<nat>)
    requires a <= b
    ensures |a| <= |b| && (|a| == |b| ==> a == b)
  {
    if a != {} {
      var x :| x in a;
      SubsetSize(a - {x}, b - {x});
    }
  }

  lemma {:induction false} ElementsSize(s: seq<nat>)
    requires Distinct(s)
    ensures |Elements(s)| == |s|
  {
    if s == [] {
    } else {
      var n := |s| - 1;
      ElementsSize(s[..n]);
      assert s == s[..n] + [s[n]];
      assert Elements(s) == Elements(s[..n]) + {s[n]};
    }
  }

  /** Pages are created exactly as far as the pages in use at once require. */
  lemma ChooseCount(busy: set<nat>, count: nat, n: nat)
    requires Below(busy, count)
    ensures Choose(busy, count, n).count == if count < |busy| + n then |busy| + n else count
  {
    var c := Choose(busy, count, n);
    ChooseIsLowest(busy, count, n);
    ElementsSize(c.chosen);
    var used := busy + Elements(c.chosen);
    assert |used| == |busy| + n;
    UpToSize(c.count);
    SubsetSize(used, UpTo(c.count));
    if count < c.count { assert used == UpTo(c.count); }
  }

  // ---------------------------------------------------------------- placing a large allocation

  /** How the driver answers: the first `ok` page mappings succeed; the next fails, with or without its page created. */
  datatype Driver = Driver(ok: nat, created: bool)

  function Ints(s: seq<nat>): (r: seq<int>)
    ensures |r| == |s| && forall i :: 0 <= i < |s| ==> r[i] == s[i]
  {
    seq(|s|, i requires 0 <= i < |s| => s[i])
  }

  function Unmapped(n: nat): (r: seq<int>)
    ensures |r| == n && forall i :: 0 <= i < n ==> r[i] == -1
  {
    seq(n, i => -1)
  }

  /** Fresh virtual pages after the known ones; when the driver fails the rest stays unmapped. */
  function FreshPlace(g: Graph, bars: Bars, pages: nat, driver: Driver): Place {
    var busy := bars.live + bars.roguePhys;
    if |g.space.vaPhys| + pages > MAX_PAGES then NoPlace(g.space, g.physCount, g.smallPages)
    else if driver.ok >= pages then
      var c := Choose(busy, g.physCount, pages);
      Place(Large(|g.space.vaPhys|), g.space.(vaPhys := g.space.vaPhys + Ints(c.chosen)), c.count, g.smallPages)
    else
      var c := Choose(busy, g.physCount, driver.ok);
      NoPlace(g.space.(vaPhys := g.space.vaPhys + Ints(c.chosen) + Unmapped(pages - driver.ok)),
              if driver.created then Choose(busy, g.physCount, driver.ok + 1).count else c.count, g.smallPages)
  }

  /** Where an allocation of `size` bytes goes. */
  function PlaceBeside(g: Graph, bars: Bars, size: nat, driver: Driver): Place {
    var pages := Units(Large(0), size);
    match FirstWindow(g.space.vaPhys, bars, pages, 0)
    case At(va) => Place(Large(va), g.space, g.physCount, g.smallPages)
    case NoWindow => FreshPlace(g, bars, pages, driver)
  }

  /** Where it goes in a graph without rogues. */
  function LargePlace(g: Graph, size: nat, driver: Driver): Place {
    PlaceBeside(g, Bars(LivePages(g.space, g.alloc, g.physCount), {}, {}), size, driver)
  }

  /** The state of the choice after `j` pages. */
  predicate Filled(live: seq<bool>, vaPhys: seq<int>, bars: Bars, count: nat, j: nat, vaPhys': seq<int>, count': nat) {
    var c := Choose(bars.live + bars.roguePhys, count, j);
    && vaPhys' == vaPhys + Ints(c.chosen)
    && count' == c.count <= |vaPhys| + j
    && Marks(live, bars.live + Elements(c.chosen))
  }

  /** The scan from zero stops at the page `Choose` takes next. */
  lemma FillOne(live: seq<bool>, vaPhys: seq<int>, bars: Bars, count: nat, j: nat, vaPhys': seq<int>, count': nat, p: nat)
    requires Filled(live, vaPhys, bars, count, j, vaPhys', count') && count' < |live| && p <= count'
    requires Below(bars.live + bars.roguePhys, count)
    requires forall q :: 0 <= q < p ==> live[q] || q in bars.roguePhys
    requires p < count' ==> !live[p] && p !in bars.roguePhys
    ensures Choose(bars.live + bars.roguePhys, count, j + 1).count == if p == count' then count' + 1 else count'
    ensures Filled(live[p := true], vaPhys, bars, count, j + 1, vaPhys' + [p], if p == count' then p + 1 else count')
  {
    var busy := bars.live + bars.roguePhys;
    var c := Choose(busy, count, j);
    var all := busy + Elements(c.chosen);
    ChooseIsLowest(busy, count, j);
    assert forall q: nat :: q < p ==> q in all;
    assert p < count' ==> p !in all;
    assert NextFree(all, c.count, 0) == p;
    assert Ints(c.chosen + [p]) == Ints(c.chosen) + [p];
    assert Elements(c.chosen + [p]) == Elements(c.chosen) + {p};
  }

  /** The first page, counting from zero, that is neither live nor a rogue's; `count` when there is none. */
  method FirstFree(live: array<bool>, rogues: Rogues, count: nat) returns (p: nat)
    requires count <= live.Length
    ensures p <= count && forall q :: 0 <= q < p ==> live[q] || q in rogues.phys
    ensures p < count ==> !live[p] && p !in rogues.phys
  {
    p := 0;
    while p < count && (live[p] || p in rogues.phys)
      invariant p <= count && forall q :: 0 <= q < p ==> live[q] || q in rogues.phys
    {
      p := p + 1;
    }
  }

  /** Backs `n` fresh virtual pages one by one, going on to a page that does not exist yet only when none is free. */
  method FillPages(live: array<bool>, vaPhys: seq<int>, ghost bars: Bars, rogues: Rogues, count: nat, n: nat)
    returns (vaPhys': seq<int>, count': nat)
    requires live.Length == MAX_PAGES && |vaPhys| + n <= MAX_PAGES && count <= |vaPhys|
    requires Marks(live[..], bars.live) && Below(bars.live + bars.roguePhys, count) && Tells(rogues, bars)
    modifies live
    ensures Filled(live[..], vaPhys, bars, count, n, vaPhys', count')
  {
    vaPhys', count' := vaPhys, count;
    FillStarts(live[..], vaPhys, bars, count);
    hide Marks, Choose, Ints, Elements;
    for j := 0 to n
      invariant Filled(live[..], vaPhys, bars, count, j, vaPhys', count')
    {
      assert count' <= |vaPhys| + j < MAX_PAGES;
      var p := FirstFree(live, rogues, count');
      hide Filled, Below;
      ghost var before := live[..];
      FillOne(before, vaPhys, bars, count, j, vaPhys', count', p);
      if p == count' {
        count' := count' + 1;
      }
      vaPhys' := vaPhys' + [p];
      live[p] := true;
      assert live[..] == before[p := true];
    }
  }

  /**
    Backs the fresh virtual pages of a window until the driver refuses one.  The source's capacity
    test at this point never fires: there are never more physical pages than virtual ones.
  */
  method FillWindow(live: array<bool>, vaPhys: seq<int>, ghost bars: Bars, rogues: Rogues, count: nat, pages: nat, driver: Driver)
    returns (vaPhys': seq<int>, count': nat, ok: bool)
    requires live.Length == MAX_PAGES && |vaPhys| + pages <= MAX_PAGES && count <= |vaPhys|
    requires Marks(live[..], bars.live) && Below(bars.live + bars.roguePhys, count) && Tells(rogues, bars)
    modifies live
    ensures ok <==> driver.ok >= pages
    ensures ok ==> Filled(live[..], vaPhys, bars, count, pages, vaPhys', count')
    ensures !ok ==> vaPhys' == vaPhys + Ints(Choose(bars.live + bars.roguePhys, count, driver.ok).chosen)
                               + Unmapped(pages - driver.ok)
    ensures !ok ==> count' == Choose(bars.live + bars.roguePhys, count,
                                     if driver.created then driver.ok + 1 else driver.ok).count
  {
    ok := driver.ok >= pages;
    var n := if ok then pages else driver.ok;
    vaPhys', count' := FillPages(live, vaPhys, bars, rogues, count, n);
    if !ok {
      assert count' <= |vaPhys| + n < MAX_PAGES;
      var p := FirstFree(live, rogues, count');
      hide Choose, Marks;
      FillOne(live[..], vaPhys, bars, count, n, vaPhys', count', p);
      vaPhys' := vaPhys' + Unmapped(pages - n);
      if p == count' && driver.created {
        count' := count' + 1;
      }
    }
  }

  lemma FillStarts(live: seq<bool>, vaPhys: seq<int>, bars: Bars, count: nat)
    requires Marks(live, bars.live) && count <= |vaPhys|
    ensures Filled(live, vaPhys, bars, count, 0, vaPhys, count)
  {
    var none := Choose(bars.live + bars.roguePhys, count, 0).chosen;
    assert Ints(none) == [] && vaPhys + Ints(none) == vaPhys;
    assert bars.live + Elements(none) == bars.live;
  }

  /** Every virtual page of the space is backed by a page that was created. */
  predicate PagesOk(g: Graph) {
    InRange(g.space.vaPhys, g.physCount) && g.physCount <= |g.space.vaPhys|
  }

  lemma LivePageIsListed(g: Graph, k: Loc, i: nat)
    requires PagesOk(g) && k in g.alloc && k.Large? && k.va <= i < k.va + g.alloc[k].units && i < |g.space.vaPhys|
    ensures g.space.vaPhys[i] in LivePages(g.space, g.alloc, g.physCount)
  {
    assert Backs(g.space, k, g.alloc[k].units, g.space.vaPhys[i]);
  }

  /** A window that fits may be taken beside everything that is live. */
  lemma WindowCanTake(g: Graph, bars: Bars, va: nat, pages: nat)
    requires PagesOk(g) && AllocOk(g.space, g.alloc) && pages > 0
    requires bars.live == LivePages(g.space, g.alloc, g.physCount) && WindowFits(g.space.vaPhys, bars, va, pages)
    ensures CanTake(g.space, g.alloc, Large(va), pages)
  {
    var vaPhys, live := g.space.vaPhys, LivePages(g.space, g.alloc, g.physCount);
    forall i | va <= i < va + pages ensures vaPhys[i] !in live && vaPhys[i] >= 0 {
      assert PageFree(vaPhys, bars, i);
    }
    forall k | k in g.alloc ensures k != Large(va) {
      assert EntryOk(g.space, k, g.alloc[k].units);
      if k.Large? { LivePageIsListed(g, k, k.va); }
    }
    forall k | k in g.alloc ensures Apart(g.space, Large(va), pages, k, g.alloc[k].units) {
      if k.Large? && k.va + g.alloc[k].units <= |vaPhys| {
        forall i, j | va <= i < va + pages && k.va <= j < k.va + g.alloc[k].units ensures vaPhys[i] != vaPhys[j] {
          LivePageIsListed(g, k, j);
        }
      }
    }
  }

  /** Fresh virtual pages on lowest free physical ones may be taken too. */
  lemma FreshCanTake(g: Graph, rogue: set<nat>, pages: nat)
    requires PagesOk(g) && AllocOk(g.space, g.alloc) && pages > 0 && Below(rogue, g.physCount)
    ensures var c := Choose(LivePages(g.space, g.alloc, g.physCount) + rogue, g.physCount, pages);
      CanTake(g.space.(vaPhys := g.space.vaPhys + Ints(c.chosen)), g.alloc, Large(|g.space.vaPhys|), pages)
  {
    var live := LivePages(g.space, g.alloc, g.physCount);
    var chosen := Choose(live + rogue, g.physCount, pages).chosen;
    ChooseIsLowest(live + rogue, g.physCount, pages);
    hide Choose, LivePages;
    ChosenCanTake(g, chosen);
  }

  lemma ChosenCanTake(g: Graph, chosen: seq<nat>)
    requires PagesOk(g) && AllocOk(g.space, g.alloc) && chosen != [] && Distinct(chosen)
    requires Elements(chosen) !! LivePages(g.space, g.alloc, g.physCount)
    ensures CanTake(g.space.(vaPhys := g.space.vaPhys + Ints(chosen)), g.alloc, Large(|g.space.vaPhys|), |chosen|)
  {
    hide LivePages;
    var n := |g.space.vaPhys|;
    var sp := g.space.(vaPhys := g.space.vaPhys + Ints(chosen));
    assert forall i :: n <= i < n + |chosen| ==> sp.vaPhys[i] == chosen[i - n];
    forall k | k in g.alloc ensures k != Large(n) { assert EntryOk(g.space, k, g.alloc[k].units); }
    forall k | k in g.alloc ensures Apart(sp, Large(n), |chosen|, k, g.alloc[k].units) {
      FreshIsApart(g, chosen, k);
    }
  }

  lemma FreshIsApart(g: Graph, chosen: seq<nat>, k: Loc)
    requires PagesOk(g) && k in g.alloc && EntryOk(g.space, k, g.alloc[k].units)
    requires Elements(chosen) !! LivePages(g.space, g.alloc, g.physCount)
    ensures Apart(g.space.(vaPhys := g.space.vaPhys + Ints(chosen)), Large(|g.space.vaPhys|), |chosen|, k, g.alloc[k].units)
  {
    if k.Large? {
      var n := |g.space.vaPhys|;
      var vaPhys := g.space.vaPhys + Ints(chosen);
      forall i, j | n <= i < n + |chosen| && k.va <= j < k.va + g.alloc[k].units ensures vaPhys[i] != vaPhys[j] {
        LivePageIsListed(g, k, j);
        assert chosen[i - n] in Elements(chosen);
      }
    }
  }

  /** Rounding up to pages gives at least one page, unless the 64-bit sum wraps: then it gives none. */
  lemma PagesOfSize(size: nat)
    requires SMALL_LIMIT <= size < WORD
    ensures Units(Large(0), size) > 0 <==> size <= WORD - PAGE
  {
    var x := size + PAGE - 1;
    if x < WORD {
      assert x % WORD == x;
    } else {
      assert x % WORD == x - WORD;
    }
  }

  /** Whatever rogues hold, the place found is sound exactly when rounding the size up did not wrap. */
  lemma PlaceBesideIsOk(g: Graph, bars: Bars, size: nat, driver: Driver)
    requires PagesOk(g) && AllocOk(g.space, g.alloc) && SMALL_LIMIT <= size < WORD
    requires bars.live == LivePages(g.space, g.alloc, g.physCount) && Below(bars.roguePhys, g.physCount)
    ensures var place := PlaceBeside(g, bars, size, driver);
      && (place.NoPlace? ==> PlaceOk(g, size, place))
      && (place.Place? ==> (PlaceOk(g, size, place) <==> size <= WORD - PAGE))
  {
    var pages := Units(Large(0), size);
    var place := PlaceBeside(g, bars, size, driver);
    PagesOfSize(size);
    if place.Place? {
      assert Units(place.loc, size) == pages;
      if pages > 0 {
        match FirstWindow(g.space.vaPhys, bars, pages, 0)
        case At(va) => WindowCanTake(g, bars, va, pages);
        case NoWindow => FreshCanTake(g, bars.roguePhys, pages);
      }
    }
  }

  lemma LargePlaceIsOk(g: Graph, size: nat, driver: Driver)
    requires PagesOk(g) && AllocOk(g.space, g.alloc) && SMALL_LIMIT <= size < WORD
    ensures LargePlace(g, size, driver).NoPlace? ==> PlaceOk(g, size, LargePlace(g, size, driver))
    ensures LargePlace(g, size, driver).Place? ==>
              (PlaceOk(g, size, LargePlace(g, size, driver)) <==> size <= WORD - PAGE)
  {
    PlaceBesideIsOk(g, Bars(LivePages(g.space, g.alloc, g.physCount), {}, {}), size, driver);
  }
}
