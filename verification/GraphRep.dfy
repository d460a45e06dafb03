/**
  How the compiler's arrays and lists represent the state of the model: the virtual page table,
  the marks of live physical pages, the sorted list of small ranges and the bytes in use.
*/
module GraphRep {
  import opened GraphModel
  import opened GraphTree
  import opened GraphPages
  import opened GraphSmall
  import opened GraphPeak

  /** The entry of an allocation's first virtual page; a span of zero means there is none. */
  datatype VirtualPage = VirtualPage(span: nat, depth: nat, ev: nat)

  datatype SmallRange = SmallRange(offset: nat, bytes: nat, depth: nat, ev: nat)

  const NO_PAGE: VirtualPage := VirtualPage(0, 0, 0)

  // ---------------------------------------------------------------- the virtual page table

  predicate PagesRep(pages: seq<VirtualPage>, a: Alloc) {
    && (forall va :: 0 <= va < |pages| ==> (pages[va].span > 0 <==> Large(va) in a))
    && (forall va :: 0 <= va < |pages| && pages[va].span > 0 ==> a[Large(va)] == Entry(pages[va].span, pages[va].depth, pages[va].ev))
    && (forall l :: l in a && l.Large? ==> l.va < |pages|)
  }

  lemma TakePage(pages: seq<VirtualPage>, a: Alloc, va: nat, e: Entry)
    requires PagesRep(pages, a) && va < |pages| && e.units > 0
    ensures PagesRep(pages[va := VirtualPage(e.units, e.depth, e.ev)], a[Large(va) := e])
  {}

  lemma DropPage(pages: seq<VirtualPage>, a: Alloc, va: nat)
    requires PagesRep(pages, a) && va < |pages|
    ensures PagesRep(pages[va := NO_PAGE], a - {Large(va)})
  {}

  lemma SmallLeavesPages(pages: seq<VirtualPage>, a: Alloc, o: nat, e: Entry)
    requires PagesRep(pages, a)
    ensures PagesRep(pages, a[Small(o) := e]) && PagesRep(pages, a - {Small(o)})
  {}

  // ---------------------------------------------------------------- the list of small ranges

  /** Every range is an entry of the state. */
  predicate RangesHold(ranges: seq<SmallRange>, a: Alloc) {
    forall i :: 0 <= i < |ranges| ==>
      Small(ranges[i].offset) in a && a[Small(ranges[i].offset)] == Entry(ranges[i].bytes, ranges[i].depth, ranges[i].ev)
  }

  predicate Ascending(ranges: seq<SmallRange>) {
    forall i, j :: 0 <= i < j < |ranges| ==> ranges[i].offset < ranges[j].offset
  }

  predicate Listed(ranges: seq<SmallRange>, offset: nat) {
    exists i :: 0 <= i < |ranges| && ranges[i].offset == offset
  }

  predicate RangesRep(ranges: seq<SmallRange>, a: Alloc) {
    RangesHold(ranges, a) && Ascending(ranges) && forall l :: l in a && l.Small? ==> Listed(ranges, l.offset)
  }

  /** Where a range of the given offset belongs in the sorted list. */
  function Position(ranges: seq<SmallRange>, offset: nat, i: nat): (r: nat)
    requires i <= |ranges|
    ensures i <= r <= |ranges| && (r < |ranges| ==> ranges[r].offset >= offset)
    ensures forall j :: i <= j < r ==> ranges[j].offset < offset
    decreases |ranges| - i
  {
    if i == |ranges| || ranges[i].offset >= offset then i else Position(ranges, offset, i + 1)
  }

  function Inserted(ranges: seq<SmallRange>, r: SmallRange): seq<SmallRange> {
    var i := Position(ranges, r.offset, 0);
    ranges[..i] + [r] + ranges[i..]
  }

  function RemovedAt(ranges: seq<SmallRange>, i: nat): seq<SmallRange>
    requires i < |ranges|
  {
    ranges[..i] + ranges[i + 1..]
  }

  lemma InsertedAt(ranges: seq<SmallRange>, r: SmallRange)
    ensures var (i, s) := (Position(ranges, r.offset, 0), Inserted(ranges, r));
      && |s| == |ranges| + 1 && s[i] == r
      && (forall j :: 0 <= j < i ==> s[j] == ranges[j]) && (forall j :: i <= j < |ranges| ==> s[j + 1] == ranges[j])
      && (forall j :: i < j < |s| ==> s[j] == ranges[j - 1])
  {}

  lemma TakeRange(ranges: seq<SmallRange>, a: Alloc, r: SmallRange)
    requires RangesRep(ranges, a) && Small(r.offset) !in a
    ensures RangesRep(Inserted(ranges, r), a[Small(r.offset) := Entry(r.bytes, r.depth, r.ev)])
  {
    var i, s, b := Position(ranges, r.offset, 0), Inserted(ranges, r), a[Small(r.offset) := Entry(r.bytes, r.depth, r.ev)];
    InsertedAt(ranges, r);
    hide Inserted, Position;
    assert i < |ranges| ==> ranges[i].offset > r.offset;
    TakenAscends(ranges, r, i, s);
    hide Ascending, Listed;
    TakenHolds(ranges, a, r, i, s);
    hide RangesHold;
    forall l | l in b && l.Small? ensures Listed(s, l.offset) {
      if l != Small(r.offset) { assert Listed(ranges, l.offset); }
      TakenIsListed(ranges, r, i, s, l.offset);
    }
  }

  lemma TakenAscends(ranges: seq<SmallRange>, r: SmallRange, i: nat, s: seq<SmallRange>)
    requires Ascending(ranges) && |s| == |ranges| + 1 && i < |s| && s[i] == r
    requires (forall j :: 0 <= j < i ==> s[j] == ranges[j] && ranges[j].offset < r.offset)
    requires (forall j :: i < j < |s| ==> s[j] == ranges[j - 1]) && (i < |ranges| ==> ranges[i].offset > r.offset)
    ensures Ascending(s)
  {}

  lemma TakenHolds(ranges: seq<SmallRange>, a: Alloc, r: SmallRange, i: nat, s: seq<SmallRange>)
    requires RangesHold(ranges, a) && Small(r.offset) !in a
    requires |s| == |ranges| + 1 && i < |s| && s[i] == r
    requires (forall j :: 0 <= j < i ==> s[j] == ranges[j]) && (forall j :: i < j < |s| ==> s[j] == ranges[j - 1])
    ensures RangesHold(s, a[Small(r.offset) := Entry(r.bytes, r.depth, r.ev)])
  {}

  lemma TakenIsListed(ranges: seq<SmallRange>, r: SmallRange, i: nat, s: seq<SmallRange>, offset: nat)
    requires offset == r.offset || Listed(ranges, offset)
    requires |s| == |ranges| + 1 && i < |s| && s[i] == r
    requires (forall j :: 0 <= j < i ==> s[j] == ranges[j]) && (forall j :: i <= j < |ranges| ==> s[j + 1] == ranges[j])
    ensures Listed(s, offset)
  {
    if offset == r.offset { assert s[i].offset == offset; } else {
      var k :| 0 <= k < |ranges| && ranges[k].offset == offset;
      if k < i { assert s[k].offset == offset; } else { assert s[k + 1].offset == offset; }
    }
  }

  lemma RemovedIs(ranges: seq<SmallRange>, i: nat)
    requires i < |ranges|
    ensures |RemovedAt(ranges, i)| == |ranges| - 1
    ensures forall j :: 0 <= j < i ==> RemovedAt(ranges, i)[j] == ranges[j]
    ensures forall j :: i <= j < |ranges| - 1 ==> RemovedAt(ranges, i)[j] == ranges[j + 1]
    ensures forall j :: i < j < |ranges| ==> RemovedAt(ranges, i)[j - 1] == ranges[j]
  {}

  lemma DropRange(ranges: seq<SmallRange>, a: Alloc, i: nat)
    requires RangesRep(ranges, a) && i < |ranges|
    ensures RangesRep(RemovedAt(ranges, i), a - {Small(ranges[i].offset)})
  {
    var s, b := RemovedAt(ranges, i), a - {Small(ranges[i].offset)};
    RemovedIs(ranges, i);
    hide RemovedAt;
    DroppedAscends(ranges, i, s);
    assert RangesHold(s, b) by { hide Listed; }
    hide RangesHold, Ascending, Listed;
    forall l | l in b && l.Small? ensures Listed(s, l.offset) {
      assert Listed(ranges, l.offset);
      DroppedIsListed(ranges, i, s, l.offset);
    }
  }

  lemma DroppedAscends(ranges: seq<SmallRange>, i: nat, s: seq<SmallRange>)
    requires Ascending(ranges) && i < |ranges| && |s| == |ranges| - 1
    requires (forall j :: 0 <= j < i ==> s[j] == ranges[j]) && (forall j :: i <= j < |s| ==> s[j] == ranges[j + 1])
    ensures Ascending(s)
  {}

  lemma DroppedIsListed(ranges: seq<SmallRange>, i: nat, s: seq<SmallRange>, offset: nat)
    requires Listed(ranges, offset) && i < |ranges| && ranges[i].offset != offset && |s| == |ranges| - 1
    requires (forall j :: 0 <= j < i ==> s[j] == ranges[j]) && (forall j :: i < j < |ranges| ==> s[j - 1] == ranges[j])
    ensures Listed(s, offset)
  {
    var k :| 0 <= k < |ranges| && ranges[k].offset == offset;
    if k < i { assert s[k].offset == offset; } else { assert s[k - 1].offset == offset; }
  }

  lemma LargeLeavesRanges(ranges: seq<SmallRange>, a: Alloc, va: nat, e: Entry)
    requires RangesRep(ranges, a)
    ensures RangesRep(ranges, a[Large(va) := e]) && RangesRep(ranges, a - {Large(va)})
  {}

  function SpansOf(ranges: seq<SmallRange>): (spans: seq<Span>)
    ensures |spans| == |ranges| && forall i :: 0 <= i < |spans| ==> spans[i] == Span(ranges[i].offset, ranges[i].bytes)
  {
    seq(|ranges|, i requires 0 <= i < |ranges| => Span(ranges[i].offset, ranges[i].bytes))
  }

  lemma SpansAreListed(ranges: seq<SmallRange>, a: Alloc)
    requires RangesRep(ranges, a)
    ensures Lists(SpansOf(ranges), a)
  {
    forall l | l in a && l.Small? ensures exists i :: 0 <= i < |SpansOf(ranges)| && SpansOf(ranges)[i].offset == l.offset {
      assert Listed(ranges, l.offset);
      var i :| 0 <= i < |ranges| && ranges[i].offset == l.offset;
      assert SpansOf(ranges)[i].offset == l.offset;
    }
  }

  /** There is only one sorted list of a state's small ranges. */
  lemma {:induction false} ListsAgree(s: seq<Span>, t: seq<Span>, a: Alloc, k: nat)
    requires Lists(s, a) && Lists(t, a) && k <= |s|
    ensures k <= |t| && s[..k] == t[..k]
  {
    if k > 0 {
      ListsAgree(s, t, a, k - 1);
      ListsAgreeAt(s, t, a, k - 1);
      assert s[..k] == s[..k - 1] + [s[k - 1]] && t[..k] == t[..k - 1] + [t[k - 1]];
    }
  }

  lemma ListsAgreeAt(s: seq<Span>, t: seq<Span>, a: Alloc, k: nat)
    requires Lists(s, a) && Lists(t, a) && k < |s| && k <= |t| && s[..k] == t[..k]
    ensures k < |t| && s[k] == t[k]
  {
    var i := FoundBehind(s, t, a, k);
    assert t[..k] == s[..k];
    var j := FoundBehind(t, s, a, k);
    assert t[k].offset <= t[i].offset == s[k].offset <= s[j].offset == t[k].offset;
  }

  /** What one list has at a position the other has too, no earlier than there. */
  lemma FoundBehind(s: seq<Span>, t: seq<Span>, a: Alloc, k: nat) returns (i: nat)
    requires Lists(s, a) && Lists(t, a) && k < |s| && k <= |t| && s[..k] == t[..k]
    ensures k <= i < |t| && t[i].offset == s[k].offset && t[i].bytes == s[k].bytes
  {
    assert Small(s[k].offset) in a;
    forall q | 0 <= q < k ensures t[q].offset < s[k].offset { assert t[q] == t[..k][q] == s[..k][q] == s[q]; }
    i :| 0 <= i < |t| && t[i].offset == s[k].offset;
  }

  lemma ListsAreEqual(s: seq<Span>, t: seq<Span>, a: Alloc)
    requires Lists(s, a) && Lists(t, a)
    ensures s == t
  {
    ListsAgree(s, t, a, |s|);
    ListsAgree(t, s, a, |t|);
  }

  // ---------------------------------------------------------------- the marks of live pages

  /** The pages behind part of the virtual space, as a set. */
  function Behind(vaPhys: seq<int>, va: nat, n: nat, count: nat): set<nat> {
    set p: nat | p < count && Backs(Space(vaPhys, 0), Large(va), n, p)
  }

  /** Freeing an allocation that shares no page with the others takes exactly its pages off the live ones. */
  lemma LiveAfterDrop(sp: Space, a: Alloc, va: nat, count: nat)
    requires AllocOk(sp, a) && Large(va) in a
    ensures LivePages(sp, a - {Large(va)}, count) == LivePages(sp, a, count) - Behind(sp.vaPhys, va, a[Large(va)].units, count)
  {
    var b := a - {Large(va)};
    forall p: nat | p < count
      ensures Live(sp, b, p) <==> Live(sp, a, p) && !Backs(Space(sp.vaPhys, 0), Large(va), a[Large(va)].units, p)
    {
      DropOnePage(sp, a, va, p);
    }
  }

  lemma DropOnePage(sp: Space, a: Alloc, va: nat, p: nat)
    requires AllocOk(sp, a) && Large(va) in a
    ensures Live(sp, a - {Large(va)}, p) <==> Live(sp, a, p) && !Backs(Space(sp.vaPhys, 0), Large(va), a[Large(va)].units, p)
  {
    var b := a - {Large(va)};
    if Live(sp, b, p) {
      var l :| l in b && Backs(sp, l, b[l].units, p);
      assert l in a && Apart(sp, l, a[l].units, Large(va), a[Large(va)].units);
      assert EntryOk(sp, Large(va), a[Large(va)].units) && EntryOk(sp, l, a[l].units);
    }
    if Live(sp, a, p) && !Backs(Space(sp.vaPhys, 0), Large(va), a[Large(va)].units, p) {
      var l :| l in a && Backs(sp, l, a[l].units, p);
      assert l in b;
    }
  }

  lemma SmallLeavesLive(sp: Space, a: Alloc, o: nat, e: Entry, count: nat)
    ensures LivePages(sp, a[Small(o) := e], count) == LivePages(sp, a, count)
    ensures LivePages(sp, a - {Small(o)}, count) == LivePages(sp, a, count)
  {
    forall p: nat | p < count
      ensures Live(sp, a[Small(o) := e], p) <==> Live(sp, a, p)
      ensures Live(sp, a - {Small(o)}, p) <==> Live(sp, a, p)
    {
      if Live(sp, a, p) {
        var l :| l in a && Backs(sp, l, a[l].units, p);
        assert l in a[Small(o) := e] && l in a - {Small(o)};
      }
    }
  }

  lemma LimitLeavesLive(sp: Space, limit: nat, a: Alloc, count: nat)
    ensures LivePages(sp.(limit := limit), a, count) == LivePages(sp, a, count)
  {
    forall p: nat | p < count ensures Live(sp.(limit := limit), a, p) <==> Live(sp, a, p) {
      if Live(sp, a, p) { var l :| l in a && Backs(sp, l, a[l].units, p); assert Backs(sp.(limit := limit), l, a[l].units, p); }
      if Live(sp.(limit := limit), a, p) {
        var l :| l in a && Backs(sp.(limit := limit), l, a[l].units, p);
        assert Backs(sp, l, a[l].units, p);
      }
    }
  }

  // ---------------------------------------------------------------- bytes in use

  /** The spans of all large allocations, in bytes. */
  function UsedPages(pages: seq<VirtualPage>, k: nat): nat
    requires k <= |pages|
  {
    if k == 0 then 0 else UsedPages(pages, k - 1) + pages[k - 1].span * PAGE
  }

  function UsedRanges(ranges: seq<SmallRange>, k: nat): nat
    requires k <= |ranges|
  {
    if k == 0 then 0 else UsedRanges(ranges, k - 1) + ranges[k - 1].bytes
  }

  lemma {:induction false} UsedPagesUpdate(pages: seq<VirtualPage>, va: nat, p: VirtualPage, k: nat)
    requires va < |pages| && k <= |pages|
    ensures UsedPages(pages[va := p], k) == UsedPages(pages, k) + (if va < k then p.span * PAGE - pages[va].span * PAGE else 0)
  {
    if k > 0 { UsedPagesUpdate(pages, va, p, k - 1); }
  }

  lemma {:induction false} UsedPrefix(a: seq<SmallRange>, b: seq<SmallRange>, k: nat)
    requires k <= |a| && k <= |b| && a[..k] == b[..k]
    ensures UsedRanges(a, k) == UsedRanges(b, k)
  {
    if k > 0 {
      assert a[k - 1] == a[..k][k - 1] == b[k - 1];
      assert a[..k - 1] == a[..k][..k - 1] == b[..k - 1];
      UsedPrefix(a, b, k - 1);
    }
  }

  lemma {:induction false} UsedInserted(s: seq<SmallRange>, i: nat, r: SmallRange, k: nat)
    requires i <= k <= |s|
    ensures UsedRanges(s[..i] + [r] + s[i..], k + 1) == UsedRanges(s, k) + r.bytes
  {
    var t := s[..i] + [r] + s[i..];
    if i == k {
      assert t[..k] == s[..k] && t[k] == r;
      UsedPrefix(t, s, k);
    } else {
      UsedInserted(s, i, r, k - 1);
      assert t[k] == s[k - 1];
    }
  }

  lemma {:induction false} UsedRemoved(s: seq<SmallRange>, i: nat, k: nat)
    requires i < k <= |s|
    ensures UsedRanges(RemovedAt(s, i), k - 1) == UsedRanges(s, k) - s[i].bytes
  {
    var t := RemovedAt(s, i);
    if i == k - 1 {
      assert t[..i] == s[..i];
      UsedPrefix(t, s, i);
    } else {
      UsedRemoved(s, i, k - 1);
      assert t[k - 2] == s[k - 1];
    }
  }

  function Used(pages: seq<VirtualPage>, ranges: seq<SmallRange>): nat {
    UsedPages(pages, |pages|) + UsedRanges(ranges, |ranges|)
  }

  // ---------------------------------------------------------------- recomputing the bytes in use

  function MarkCount(live: seq<bool>, k: nat): (r: nat)
    requires k <= |live|
  {
    if k == 0 then 0 else MarkCount(live, k - 1) + if live[k - 1] then 1 else 0
  }

  /** What a rebuild recomputes: a page for every mark among the pages that exist, and the bytes of all ranges. */
  function AllocationUsed(live: seq<bool>, count: nat, ranges: seq<SmallRange>): nat
    requires count <= |live|
  {
    PAGE * MarkCount(live, count) + UsedRanges(ranges, |ranges|)
  }

  function UpToMarked(live: seq<bool>, k: nat): (r: set<nat>)
    requires k <= |live|
    ensures forall p: nat :: p in r <==> p < k && live[p]
    ensures |r| == MarkCount(live, k)
  {
    if k == 0 then {} else UpToMarked(live, k - 1) + if live[k - 1] then {k - 1} else {}
  }

  /** There are as many marks as pages live. */
  lemma MarksAreCounted(live: seq<bool>, sp: Space, a: Alloc, count: nat)
    requires count <= |live| && Marks(live, LivePages(sp, a, count))
    ensures MarkCount(live, count) == |LivePages(sp, a, count)|
  {
    assert UpToMarked(live, count) == LivePages(sp, a, count);
  }

  /** The pages behind the allocations that start on the first `k` virtual pages. */
  function BehindFirst(pages: seq<VirtualPage>, vaPhys: seq<int>, count: nat, k: nat): set<nat>
    requires k <= |pages|
  {
    if k == 0 then {}
    else BehindFirst(pages, vaPhys, count, k - 1) + Behind(vaPhys, k - 1, pages[k - 1].span, count)
  }

  /** Distinct pages: as many as the window has. */
  lemma {:induction false} BehindSize(vaPhys: seq<int>, va: nat, n: nat, count: nat)
    requires va + n <= |vaPhys| && InRange(vaPhys, count) && DistinctPages(vaPhys, va, n)
    ensures |Behind(vaPhys, va, n, count)| == n
  {
    if n > 0 {
      BehindSize(vaPhys, va, n - 1, count);
      var p: nat := vaPhys[va + n - 1];
      BehindOneMore(vaPhys, va, n, count);
      assert p !in Behind(vaPhys, va, n - 1, count);
    } else {
      assert Behind(vaPhys, va, 0, count) == {};
    }
  }

  lemma BehindOneMore(vaPhys: seq<int>, va: nat, n: nat, count: nat)
    requires n > 0 && va + n <= |vaPhys| && InRange(vaPhys, count)
    ensures Behind(vaPhys, va, n, count) == Behind(vaPhys, va, n - 1, count) + {vaPhys[va + n - 1] as nat}
  {
    forall p: nat ensures p in Behind(vaPhys, va, n, count) <==> p in Behind(vaPhys, va, n - 1, count) || p == vaPhys[va + n - 1] {
      if p in Behind(vaPhys, va, n - 1, count) {
        var i :| va <= i < va + (n - 1) && i < |vaPhys| && vaPhys[i] == p;
        assert va <= i < va + n;
      }
    }
  }

  lemma {:induction false} BehindFirstMeans(pages: seq<VirtualPage>, vaPhys: seq<int>, count: nat, k: nat, p: nat)
    requires k <= |pages| && p in BehindFirst(pages, vaPhys, count, k)
    ensures exists va :: 0 <= va < k && p in Behind(vaPhys, va, pages[va].span, count)
  {
    if p !in Behind(vaPhys, k - 1, pages[k - 1].span, count) { BehindFirstMeans(pages, vaPhys, count, k - 1, p); }
  }

  lemma {:induction false} BehindFirstHas(pages: seq<VirtualPage>, vaPhys: seq<int>, count: nat, k: nat, va: nat, p: nat)
    requires va < k <= |pages| && p in Behind(vaPhys, va, pages[va].span, count)
    ensures p in BehindFirst(pages, vaPhys, count, k)
  {
    if va < k - 1 { BehindFirstHas(pages, vaPhys, count, k - 1, va, p); }
  }

  /** Allocations share no page, so their pages add up. */
  lemma {:induction false} SpansAddUp(pages: seq<VirtualPage>, a: Alloc, sp: Space, count: nat, k: nat)
    requires PagesRep(pages, a) && AllocOk(sp, a) && InRange(sp.vaPhys, count) && k <= |pages|
    ensures PAGE * |BehindFirst(pages, sp.vaPhys, count, k)| == UsedPages(pages, k)
  {
    if k > 0 {
      SpansAddUp(pages, a, sp, count, k - 1);
      SpanIsDisjoint(pages, a, sp, count, k - 1);
      var first, more := BehindFirst(pages, sp.vaPhys, count, k - 1), Behind(sp.vaPhys, k - 1, pages[k - 1].span, count);
      assert |first + more| == |first| + |more|;
    }
  }

  lemma SpanIsDisjoint(pages: seq<VirtualPage>, a: Alloc, sp: Space, count: nat, k: nat)
    requires PagesRep(pages, a) && AllocOk(sp, a) && InRange(sp.vaPhys, count) && k < |pages|
    ensures |Behind(sp.vaPhys, k, pages[k].span, count)| == pages[k].span
    ensures BehindFirst(pages, sp.vaPhys, count, k) !! Behind(sp.vaPhys, k, pages[k].span, count)
  {
    if pages[k].span == 0 {
      assert Behind(sp.vaPhys, k, 0, count) == {};
    } else {
      assert EntryOk(sp, Large(k), a[Large(k)].units);
      BehindSize(sp.vaPhys, k, pages[k].span, count);
      forall p | p in BehindFirst(pages, sp.vaPhys, count, k) ensures p !in Behind(sp.vaPhys, k, pages[k].span, count) {
        BehindFirstMeans(pages, sp.vaPhys, count, k, p);
        var va :| 0 <= va < k && p in Behind(sp.vaPhys, va, pages[va].span, count);
        TwoSpansApart(pages, a, sp, count, va, k, p);
      }
    }
  }

  lemma TwoSpansApart(pages: seq<VirtualPage>, a: Alloc, sp: Space, count: nat, va: nat, wa: nat, p: nat)
    requires PagesRep(pages, a) && AllocOk(sp, a) && va < wa < |pages|
    requires p in Behind(sp.vaPhys, va, pages[va].span, count)
    ensures p !in Behind(sp.vaPhys, wa, pages[wa].span, count)
  {
    assert Large(va) in a;
  }

  /** The pages behind all allocations are the live ones. */
  lemma AllBehindIsLive(pages: seq<VirtualPage>, a: Alloc, sp: Space, count: nat)
    requires PagesRep(pages, a)
    ensures BehindFirst(pages, sp.vaPhys, count, |pages|) == LivePages(sp, a, count)
  {
    forall p: nat ensures p in BehindFirst(pages, sp.vaPhys, count, |pages|) <==> p in LivePages(sp, a, count) {
      if p in BehindFirst(pages, sp.vaPhys, count, |pages|) {
        BehindFirstMeans(pages, sp.vaPhys, count, |pages|, p);
        var va :| 0 <= va < |pages| && p in Behind(sp.vaPhys, va, pages[va].span, count);
        var i :| va <= i < va + pages[va].span && i < |sp.vaPhys| && sp.vaPhys[i] == p;
        assert Large(va) in a && Backs(sp, Large(va), a[Large(va)].units, p);
      }
      if p in LivePages(sp, a, count) {
        var l :| l in a && Backs(sp, l, a[l].units, p);
        var i :| l.va <= i < l.va + a[l].units && i < |sp.vaPhys| && sp.vaPhys[i] == p;
        assert l == Large(l.va) && pages[l.va].span == a[l].units;
        assert Backs(Space(sp.vaPhys, 0), Large(l.va), pages[l.va].span, p);
        BehindFirstHas(pages, sp.vaPhys, count, |pages|, l.va, p);
      }
    }
  }

  /** Recomputing from the marks and the ranges gives the spans of all allocations and the bytes of all ranges. */
  lemma RecomputedIsUsed(pages: seq<VirtualPage>, live: seq<bool>, ranges: seq<SmallRange>, a: Alloc, sp: Space, count: nat)
    requires PagesRep(pages, a) && AllocOk(sp, a) && InRange(sp.vaPhys, count) && count <= |live|
    requires Marks(live, LivePages(sp, a, count))
    ensures AllocationUsed(live, count, ranges) == Used(pages, ranges)
  {
    MarksAreCounted(live, sp, a, count);
    AllBehindIsLive(pages, a, sp, count);
    SpansAddUp(pages, a, sp, count, |pages|);
  }
}
