/**
  The small heap: the search for the smallest hole between the live ranges and the page spans
  that rogues hold, and the growth of the heap page by page.
*/
module GraphSmall {
  import opened GraphModel
  import opened GraphTree

  const NONE: nat := 0xFFFF_FFFF_FFFF_FFFF

  datatype Span = Span(offset: nat, bytes: nat)

  function EndOf(s: Span): nat {
    s.offset + s.bytes
  }

  /** The stretch shares no byte with the span. */
  predicate Clear(s: Span, offset: nat, bytes: nat) {
    bytes == 0 || offset + bytes <= s.offset || EndOf(s) <= offset
  }

  const HEAP: nat := 0x2_0000_0000 // SMALL_PAGES pages of PAGE bytes

  /** Below the wrapping range, rounding up gives the next multiple. */
  lemma AlignUpIsNext(n: nat, a: nat)
    requires (a == PAGE || a == SMALL_ALIGN) && n <= HEAP
    ensures n <= AlignUp(n, a) < n + a && AlignUp(n, a) % a == 0
    ensures n % a == 0 ==> AlignUp(n, a) == n
  {
    var x := n + a - 1;
    assert x % WORD == x;
    if a == PAGE { assert AlignUp(n, PAGE) == x - x % PAGE; } else { assert AlignUp(n, SMALL_ALIGN) == x - x % SMALL_ALIGN; }
  }

  /** The whole pages that an allocation of a rogue lies on. */
  function PageSpan(s: Span): Span
    requires EndOf(s) <= HEAP
  {
    AlignUpIsNext(EndOf(s), PAGE);
    Span(s.offset - s.offset % PAGE, AlignUp(EndOf(s), PAGE) - (s.offset - s.offset % PAGE))
  }

  // ---------------------------------------------------------------- one scan of the spans

  /** The next occupied stretch from a position on, as far as it is known. */
  datatype Seen = Seen(offset: nat, end: nat)

  function Consider(position: nat, s: Span, seen: Seen): Seen {
    if EndOf(s) <= position then seen
    else if s.offset <= position then Seen(position, if EndOf(s) > seen.end then EndOf(s) else seen.end)
    else if s.offset < seen.offset then Seen(s.offset, EndOf(s))
    else if s.offset == seen.offset then Seen(seen.offset, if EndOf(s) > seen.end then EndOf(s) else seen.end)
    else seen
  }

  function Scan(position: nat, spans: seq<Span>, k: nat): Seen
    requires k <= |spans|
  {
    if k == 0 then Seen(NONE, 0) else Consider(position, spans[k - 1], Scan(position, spans, k - 1))
  }

  predicate SpansOk(spans: seq<Span>) {
    forall i :: 0 <= i < |spans| ==> spans[i].offset < NONE
  }

  /** Nothing ends after the position among the first `k` spans. */
  predicate AllBehind(position: nat, spans: seq<Span>, k: nat)
    requires k <= |spans|
  {
    forall i :: 0 <= i < k ==> EndOf(spans[i]) <= position
  }

  /** What a scan finds: where the next span ahead starts, and an end that its span does not pass. */
  predicate ScanOk(position: nat, spans: seq<Span>, k: nat, seen: Seen)
    requires k <= |spans|
  {
    && (AllBehind(position, spans, k) ==> seen == Seen(NONE, 0))
    && (!AllBehind(position, spans, k) ==> position <= seen.offset < NONE && position < seen.end)
    && (forall i :: 0 <= i < k && EndOf(spans[i]) > position ==> seen.offset <= spans[i].offset || seen.offset == position)
    && (forall i :: 0 <= i < k && EndOf(spans[i]) > position && spans[i].offset <= seen.offset ==> EndOf(spans[i]) <= seen.end)
  }

  lemma {:induction false} ScanIsOk(position: nat, spans: seq<Span>, k: nat)
    requires k <= |spans| && SpansOk(spans) && position < NONE
    ensures ScanOk(position, spans, k, Scan(position, spans, k))
  {
    if k > 0 {
      ScanIsOk(position, spans, k - 1);
      ConsiderIsOk(position, spans, k, Scan(position, spans, k - 1));
    }
  }

  lemma ConsiderIsOk(position: nat, spans: seq<Span>, k: nat, seen: Seen)
    requires 0 < k <= |spans| && SpansOk(spans) && position < NONE
    requires ScanOk(position, spans, k - 1, seen)
    ensures ScanOk(position, spans, k, Consider(position, spans[k - 1], seen))
  {
    var s := spans[k - 1];
    if EndOf(s) <= position {
      assert AllBehind(position, spans, k) <==> AllBehind(position, spans, k - 1);
    } else {
      assert !AllBehind(position, spans, k);
    }
  }

  // ---------------------------------------------------------------- the search

  /** The best hole so far; `hole` is NONE before one is found. */
  datatype Best = Best(offset: nat, hole: nat)

  function Improve(best: Best, position: nat, hole: nat, bytes: nat): Best {
    if hole >= bytes && hole < best.hole then Best(position, hole) else best
  }

  /** Visits the holes below `limit` from `position` on; yields the best one and where it stopped. */
  function Sweep(spans: seq<Span>, limit: nat, bytes: nat, position: nat, best: Best): (Best, nat)
    requires SpansOk(spans) && limit < NONE
    decreases limit - position
  {
    if position >= limit then (best, position)
    else
      ScanIsOk(position, spans, |spans|);
      var seen := Scan(position, spans, |spans|);
      var next := if seen.offset == NONE then limit else seen.offset;
      var best' := Improve(best, position, next - position, bytes);
      if next == limit then (best', position)
      else Sweep(spans, limit, bytes, seen.end, best')
  }

  function SmallOffset(spans: seq<Span>, limit: nat, bytes: nat): nat
    requires SpansOk(spans) && limit < NONE
  {
    var (best, stop) := Sweep(spans, limit, bytes, 0, Best(limit, NONE));
    if best.hole < NONE then best.offset else if limit < stop then stop else limit
  }

  // ---------------------------------------------------------------- what the search finds is free

  /** A best hole holds the request and overlaps no span. */
  predicate BestOk(spans: seq<Span>, bytes: nat, best: Best) {
    best.hole < NONE ==> bytes <= best.hole && forall i :: 0 <= i < |spans| ==> Clear(spans[i], best.offset, best.hole)
  }

  lemma ImproveIsOk(spans: seq<Span>, limit: nat, bytes: nat, position: nat, best: Best)
    requires SpansOk(spans) && position < limit < NONE && BestOk(spans, bytes, best)
    ensures var seen := Scan(position, spans, |spans|);
      var next := if seen.offset == NONE then limit else seen.offset;
      position <= next && BestOk(spans, bytes, Improve(best, position, next - position, bytes))
  {
    ScanIsOk(position, spans, |spans|);
  }

  lemma {:induction false} SweepIsOk(spans: seq<Span>, limit: nat, bytes: nat, position: nat, best: Best)
    requires SpansOk(spans) && limit < NONE && BestOk(spans, bytes, best)
    ensures BestOk(spans, bytes, Sweep(spans, limit, bytes, position, best).0)
    decreases limit - position
  {
    if position < limit {
      ScanIsOk(position, spans, |spans|);
      ImproveIsOk(spans, limit, bytes, position, best);
      var seen := Scan(position, spans, |spans|);
      var next := if seen.offset == NONE then limit else seen.offset;
      if next != limit {
        SweepIsOk(spans, limit, bytes, seen.end, Improve(best, position, next - position, bytes));
      }
    }
  }

  /** The result never shares a byte with a span inside the heap: so never with a live range. */
  lemma LiveRangesAreClear(spans: seq<Span>, limit: nat, bytes: nat, i: nat)
    requires SpansOk(spans) && limit < NONE && i < |spans| && EndOf(spans[i]) <= limit
    ensures Clear(spans[i], SmallOffset(spans, limit, bytes), bytes)
  {
    SweepIsOk(spans, limit, bytes, 0, Best(limit, NONE));
  }

  /** Nor with anything inside the heap that lies within a span: so never with what a rogue has on its pages. */
  lemma InsideSpanIsClear(spans: seq<Span>, limit: nat, bytes: nat, i: nat, inside: Span)
    requires SpansOk(spans) && limit < NONE && i < |spans| && EndOf(inside) <= limit
    requires spans[i].offset <= inside.offset && EndOf(inside) <= EndOf(spans[i])
    ensures Clear(inside, SmallOffset(spans, limit, bytes), bytes)
  {
    SweepIsOk(spans, limit, bytes, 0, Best(limit, NONE));
  }

  // ---------------------------------------------------------------- best fit without rogues

  /** The live ranges in ascending order, apart, not empty and inside the heap. */
  predicate Layout(spans: seq<Span>, limit: nat) {
    && (forall i :: 0 <= i < |spans| ==> spans[i].bytes > 0 && EndOf(spans[i]) <= limit)
    && (forall i, j :: 0 <= i < j < |spans| ==> EndOf(spans[i]) <= spans[j].offset)
  }

  /** A maximal stretch of the heap that no live range touches. */
  predicate Gap(spans: seq<Span>, limit: nat, a: nat, n: nat) {
    && n > 0 && a + n <= limit
    && (forall i :: 0 <= i < |spans| ==> Clear(spans[i], a, n))
    && (a == 0 || exists i :: 0 <= i < |spans| && EndOf(spans[i]) == a)
    && (a + n == limit || exists i :: 0 <= i < |spans| && spans[i].offset == a + n)
  }

  /** The hole before the `m`-th live range, or after the last: where it starts and how long it is. */
  function HoleStart(spans: seq<Span>, m: nat): nat
    requires m <= |spans|
  {
    if m == 0 then 0 else EndOf(spans[m - 1])
  }

  function HoleLength(spans: seq<Span>, limit: nat, m: nat): nat
    requires m <= |spans| && Layout(spans, limit)
  {
    (if m < |spans| then spans[m].offset else limit) - HoleStart(spans, m)
  }

  lemma GapIsHole(spans: seq<Span>, limit: nat, a: nat, n: nat)
    requires Layout(spans, limit) && Gap(spans, limit, a, n)
    ensures exists m :: 0 <= m <= |spans| && a == HoleStart(spans, m) && n == HoleLength(spans, limit, m)
  {
    var m: nat := 0;
    if a > 0 {
      var i :| 0 <= i < |spans| && EndOf(spans[i]) == a;
      m := i + 1;
    }
    assert a == HoleStart(spans, m);
    if m < |spans| {
      assert Clear(spans[m], a, n);
      forall i | 0 <= i < m ensures spans[i].offset < a { assert i < m - 1 ==> EndOf(spans[i]) <= spans[m - 1].offset; }
    }
  }

  lemma HoleIsGap(spans: seq<Span>, limit: nat, m: nat)
    requires Layout(spans, limit) && m <= |spans| && HoleLength(spans, limit, m) > 0
    ensures Gap(spans, limit, HoleStart(spans, m), HoleLength(spans, limit, m))
  {
    forall i | 0 <= i < |spans| ensures Clear(spans[i], HoleStart(spans, m), HoleLength(spans, limit, m)) {
      if i < m { assert i < m - 1 ==> EndOf(spans[i]) <= spans[m - 1].offset; }
    }
  }

  /** A scan of ranges in order meets the next range in that order. */
  lemma {:induction false} ScanInOrder(spans: seq<Span>, limit: nat, m: nat, k: nat)
    requires Layout(spans, limit) && limit < NONE && m <= |spans| && k <= |spans|
    ensures Scan(HoleStart(spans, m), spans, k) == if k <= m then Seen(NONE, 0) else Seen(spans[m].offset, EndOf(spans[m]))
  {
    if k > 0 {
      ScanInOrder(spans, limit, m, k - 1);
      if k - 1 < m {
        assert k - 1 < m - 1 ==> EndOf(spans[k - 1]) <= spans[m - 1].offset;
      } else {
        assert m < k - 1 ==> EndOf(spans[m]) <= spans[k - 1].offset;
        assert m > 0 ==> EndOf(spans[m - 1]) <= spans[m].offset;
      }
    }
  }

  /** How the best hole found from the `m`-th on relates to the holes there and to the best before. */
  predicate BestFrom(spans: seq<Span>, limit: nat, bytes: nat, m: nat, before: Best, best: Best)
    requires Layout(spans, limit)
  {
    && best.hole <= before.hole && (best.hole == before.hole ==> best == before)
    && (best == before || exists j :: m <= j <= |spans| && best == Best(HoleStart(spans, j), HoleLength(spans, limit, j)))
    && (best != before ==> best.hole >= bytes)
    && (forall j :: m <= j <= |spans| && HoleLength(spans, limit, j) >= bytes ==> best.hole <= HoleLength(spans, limit, j))
    && (best != before ==> forall j :: m <= j <= |spans| && HoleLength(spans, limit, j) == best.hole ==>
          best.offset <= HoleStart(spans, j))
  }

  /** One round of the search on ranges in order: the next hole is weighed. */
  lemma SweepOne(spans: seq<Span>, limit: nat, bytes: nat, m: nat, best: Best)
    requires SpansOk(spans) && Layout(spans, limit) && limit < NONE && m <= |spans| && bytes > 0
    ensures var best' := Improve(best, HoleStart(spans, m), HoleLength(spans, limit, m), bytes);
      Sweep(spans, limit, bytes, HoleStart(spans, m), best) ==
      if m < |spans| then Sweep(spans, limit, bytes, HoleStart(spans, m + 1), best') else (best', HoleStart(spans, m))
  {
    ScanInOrder(spans, limit, m, |spans|);
    ScanIsOk(HoleStart(spans, m), spans, |spans|);
    if m < |spans| {
      assert EndOf(spans[m]) == HoleStart(spans, m + 1) <= limit;
      assert m > 0 ==> EndOf(spans[m - 1]) <= spans[m].offset;
    }
  }

  lemma {:induction false} SweepInOrder(spans: seq<Span>, limit: nat, bytes: nat, m: nat, best: Best)
    requires SpansOk(spans) && Layout(spans, limit) && limit < NONE && m <= |spans| && bytes > 0
    ensures BestFrom(spans, limit, bytes, m, best, Sweep(spans, limit, bytes, HoleStart(spans, m), best).0)
    ensures Sweep(spans, limit, bytes, HoleStart(spans, m), best).1 <= limit
    decreases |spans| - m
  {
    SweepOne(spans, limit, bytes, m, best);
    if m < |spans| {
      var best' := Improve(best, HoleStart(spans, m), HoleLength(spans, limit, m), bytes);
      SweepInOrder(spans, limit, bytes, m + 1, best');
      BestOneMore(spans, limit, bytes, m, best, Sweep(spans, limit, bytes, HoleStart(spans, m + 1), best').0);
    }
  }

  lemma BestOneMore(spans: seq<Span>, limit: nat, bytes: nat, m: nat, before: Best, best: Best)
    requires Layout(spans, limit) && m < |spans| && bytes > 0
    requires BestFrom(spans, limit, bytes, m + 1,
                      Improve(before, HoleStart(spans, m), HoleLength(spans, limit, m), bytes), best)
    ensures BestFrom(spans, limit, bytes, m, before, best)
  {
    assert EndOf(spans[m]) > HoleStart(spans, m);
    forall j | m <= j <= |spans| ensures HoleStart(spans, m) <= HoleStart(spans, j) {
      if j > m + 1 { assert EndOf(spans[m]) <= spans[j - 1].offset; }
    }
  }

  /** The result is the start of a smallest gap that holds the request, the lowest such; or the end of the heap. */
  lemma BestFit(spans: seq<Span>, limit: nat, bytes: nat)
    requires Layout(spans, limit) && SpansOk(spans) && limit < NONE && bytes > 0
    ensures var r := SmallOffset(spans, limit, bytes);
      || (r == limit && forall a: nat, n: nat :: Gap(spans, limit, a, n) ==> n < bytes)
      || (exists n: nat :: Gap(spans, limit, r, n) && n >= bytes &&
            forall a': nat, n': nat :: Gap(spans, limit, a', n') && n' >= bytes ==> n < n' || (n == n' && r <= a'))
  {
    var before := Best(limit, NONE);
    SweepInOrder(spans, limit, bytes, 0, before);
    var best := Sweep(spans, limit, bytes, 0, before).0;
    if best.hole < NONE {
      var j :| 0 <= j <= |spans| && best == Best(HoleStart(spans, j), HoleLength(spans, limit, j));
      HoleIsGap(spans, limit, j);
      forall a': nat, n': nat | Gap(spans, limit, a', n') && n' >= bytes ensures best.hole < n' || (best.hole == n' && best.offset <= a') {
        GapIsHole(spans, limit, a', n');
      }
    } else {
      forall a: nat, n: nat | Gap(spans, limit, a, n) ensures n < bytes { GapIsHole(spans, limit, a, n); }
    }
  }

  // ---------------------------------------------------------------- blocked spans past the end of the heap

  /** Blocked spans are whole pages: those that reach past the end of the heap all end where its last page does. */
  predicate EndsOk(spans: seq<Span>, limit: nat, top: nat) {
    limit < top && forall i :: 0 <= i < |spans| ==> spans[i].offset < limit && (EndOf(spans[i]) <= limit || EndOf(spans[i]) == top)
  }

  predicate AllClear(spans: seq<Span>, offset: nat, bytes: nat) {
    forall i :: 0 <= i < |spans| ==> Clear(spans[i], offset, bytes)
  }

  predicate NoneOverhangs(spans: seq<Span>, limit: nat) {
    forall i :: 0 <= i < |spans| ==> EndOf(spans[i]) <= limit
  }

  /**
    The span reaches past the end of the heap, and no span that ends exactly there hides it: none
    starts lower, and nothing that starts lower is listed between the two.
  */
  predicate Leads(spans: seq<Span>, limit: nat, o: nat) {
    && o < |spans| && EndOf(spans[o]) > limit
    && (forall i :: 0 <= i < |spans| && EndOf(spans[i]) == limit ==> spans[o].offset <= spans[i].offset)
    && (forall i, b :: 0 <= i < b < o && EndOf(spans[i]) == limit ==> spans[o].offset <= spans[b].offset)
  }

  predicate SomeEndsAt(spans: seq<Span>, k: nat, limit: nat)
    requires k <= |spans|
  {
    exists i :: 0 <= i < k && EndOf(spans[i]) == limit
  }

  /** Before the leading span is met, the scan holds the heap's end only for a stretch that the span starts within or before. */
  lemma {:induction false} ScanUpToLeader(position: nat, spans: seq<Span>, limit: nat, o: nat, k: nat)
    requires SpansOk(spans) && Leads(spans, limit, o) && position < limit < NONE && k <= o
    ensures Scan(position, spans, k).end == limit ==>
              && SomeEndsAt(spans, k, limit)
              && (spans[o].offset <= Scan(position, spans, k).offset || spans[o].offset <= position)
  {
    if k > 0 {
      ScanUpToLeader(position, spans, limit, o, k - 1);
      var seen := Scan(position, spans, k - 1);
      if SomeEndsAt(spans, k - 1, limit) {
        var i :| 0 <= i < k - 1 && EndOf(spans[i]) == limit;
        assert spans[o].offset <= spans[k - 1].offset;
      }
    }
  }

  /** From then on it never does: the scan passes the heap's end or stops short of it. */
  lemma {:induction false} ScanPastLeader(position: nat, spans: seq<Span>, limit: nat, o: nat, k: nat)
    requires SpansOk(spans) && Leads(spans, limit, o) && position < limit < NONE && o < k <= |spans|
    ensures Scan(position, spans, k).end != limit
  {
    var seen := Scan(position, spans, k - 1);
    ScanIsOk(position, spans, k - 1);
    if k - 1 == o {
      ScanUpToLeader(position, spans, limit, o, o);
    } else {
      ScanPastLeader(position, spans, limit, o, k - 1);
      assert EndOf(spans[o]) > position;
    }
  }

  lemma {:induction false} ScanEndIsAnEnd(position: nat, spans: seq<Span>, k: nat, limit: nat, top: nat)
    requires k <= |spans| && EndsOk(spans, limit, top)
    ensures Scan(position, spans, k).end <= limit || Scan(position, spans, k).end == top
    ensures Scan(position, spans, k).offset == NONE || Scan(position, spans, k).offset < limit || Scan(position, spans, k).offset == position
  {
    if k > 0 { ScanEndIsAnEnd(position, spans, k - 1, limit, top); }
  }

  /** A search that a span past the end of the heap leads stops behind that span or finds a hole. */
  lemma {:induction false} SweepPassesLeader(spans: seq<Span>, limit: nat, bytes: nat, position: nat, best: Best, o: nat, top: nat)
    requires SpansOk(spans) && EndsOk(spans, limit, top) && Leads(spans, limit, o) && limit < NONE && (position < limit || position == top)
    ensures Sweep(spans, limit, bytes, position, best).1 == top
    decreases limit - position
  {
    if position < limit {
      ScanIsOk(position, spans, |spans|);
      ScanPastLeader(position, spans, limit, o, |spans|);
      ScanEndIsAnEnd(position, spans, |spans|, limit, top);
      assert EndOf(spans[o]) > position;
      var seen := Scan(position, spans, |spans|);
      hide Scan, ScanOk;
      SweepPassesLeader(spans, limit, bytes, seen.end, Improve(best, position, seen.offset - position, bytes), o, top);
    }
  }

  /**
    The result shares no byte with any span, blocked pages past the end of the heap included, when
    no span reaches past the end, or when one that does is not hidden by a span that ends there.
  */
  lemma AllSpansAreClear(spans: seq<Span>, limit: nat, bytes: nat, top: nat)
    requires SpansOk(spans) && EndsOk(spans, limit, top) && limit < NONE
    requires NoneOverhangs(spans, limit) || exists o: nat :: Leads(spans, limit, o)
    ensures AllClear(spans, SmallOffset(spans, limit, bytes), bytes)
  {
    SweepIsOk(spans, limit, bytes, 0, Best(limit, NONE));
    if !NoneOverhangs(spans, limit) {
      var o: nat :| Leads(spans, limit, o);
      assert spans[o].offset < limit;
      SweepPassesLeader(spans, limit, bytes, 0, Best(limit, NONE), o, top);
    }
  }

  // ---------------------------------------------------------------- the exact condition when every blocked span overhangs

  predicate SomeGapHolds(live: seq<Span>, limit: nat, bytes: nat)
    requires Layout(live, limit)
  {
    exists m :: 0 <= m <= |live| && HoleLength(live, limit, m) >= bytes
  }

  /** The last live range ends the heap and starts below every blocked span. */
  predicate Hidden(live: seq<Span>, blocked: seq<Span>, limit: nat) {
    && live != [] && EndOf(live[|live| - 1]) == limit
    && forall b :: 0 <= b < |blocked| ==> live[|live| - 1].offset < blocked[b].offset
  }

  /** A scan does not see blocked spans that start beyond the last live range. */
  lemma {:induction false} HiddenScan(live: seq<Span>, blocked: seq<Span>, limit: nat, m: nat, k: nat)
    requires Layout(live, limit) && Hidden(live, blocked, limit) && limit < NONE && m < |live| && |live| <= k <= |live| + |blocked|
    ensures Scan(HoleStart(live, m), live + blocked, k) == Seen(live[m].offset, EndOf(live[m]))
  {
    if k == |live| {
      ScanPrefix(HoleStart(live, m), live, blocked, |live|);
      ScanInOrder(live, limit, m, |live|);
    } else {
      HiddenScan(live, blocked, limit, m, k - 1);
      assert (live + blocked)[k - 1] == blocked[k - 1 - |live|];
      assert m < |live| - 1 ==> EndOf(live[m]) <= live[|live| - 1].offset;
      assert m > 0 ==> EndOf(live[m - 1]) <= live[m].offset;
    }
  }

  lemma {:induction false} ScanPrefix(position: nat, a: seq<Span>, b: seq<Span>, k: nat)
    requires k <= |a|
    ensures Scan(position, a + b, k) == Scan(position, a, k)
  {
    if k > 0 { ScanPrefix(position, a, b, k - 1); }
  }

  lemma HiddenSweepOne(live: seq<Span>, blocked: seq<Span>, limit: nat, bytes: nat, m: nat, best: Best)
    requires Layout(live, limit) && SpansOk(live + blocked) && Hidden(live, blocked, limit) && limit < NONE && m < |live| && bytes > 0
    ensures Sweep(live + blocked, limit, bytes, HoleStart(live, m), best) ==
            Sweep(live + blocked, limit, bytes, HoleStart(live, m + 1),
                  Improve(best, HoleStart(live, m), HoleLength(live, limit, m), bytes))
  {
    HiddenScan(live, blocked, limit, m, |live + blocked|);
    assert EndOf(live[m]) == HoleStart(live, m + 1);
    assert m > 0 ==> EndOf(live[m - 1]) <= live[m].offset;
  }

  /** The search goes through the live ranges as if nothing were blocked. */
  lemma {:induction false} HiddenSweep(live: seq<Span>, blocked: seq<Span>, limit: nat, bytes: nat, m: nat, best: Best)
    requires Layout(live, limit) && SpansOk(live + blocked) && Hidden(live, blocked, limit) && limit < NONE && m <= |live| && bytes > 0
    ensures SpansOk(live)
    ensures Sweep(live + blocked, limit, bytes, HoleStart(live, m), best) == Sweep(live, limit, bytes, HoleStart(live, m), best)
    decreases |live| - m
  {
    assert forall i :: 0 <= i < |live| ==> (live + blocked)[i] == live[i];
    if m < |live| {
      hide Sweep, Scan, Layout, Hidden;
      HiddenSweepOne(live, blocked, limit, bytes, m, best);
      SweepOne(live, limit, bytes, m, best);
      HiddenSweep(live, blocked, limit, bytes, m + 1, Improve(best, HoleStart(live, m), HoleLength(live, limit, m), bytes));
    }
  }

  function Lowest(spans: seq<Span>, k: nat): (o: nat)
    requires 0 < k <= |spans|
    ensures o < k && forall i :: 0 <= i < k ==> spans[o].offset <= spans[i].offset
  {
    if k == 1 then 0
    else
      var o := Lowest(spans, k - 1);
      if spans[k - 1].offset < spans[o].offset then k - 1 else o
  }

  /**
    When every blocked span reaches past the end of the heap, the result is clear of all of them
    unless the last live range ends the heap, starts below every one of them, and no hole holds
    the request: and then it is not.
  */
  lemma ClearUnlessHidden(live: seq<Span>, blocked: seq<Span>, limit: nat, bytes: nat, top: nat)
    requires Layout(live, limit) && SpansOk(live + blocked) && EndsOk(live + blocked, limit, top) && limit < NONE && bytes > 0
    requires blocked != [] && forall b :: 0 <= b < |blocked| ==> EndOf(blocked[b]) == top
    ensures AllClear(live + blocked, SmallOffset(live + blocked, limit, bytes), bytes) <==>
            !(Hidden(live, blocked, limit) && !SomeGapHolds(live, limit, bytes))
  {
    if Hidden(live, blocked, limit) {
      HiddenIsMissed(live, blocked, limit, bytes, top);
    } else {
      LowestLeads(live, blocked, limit, top);
      AllSpansAreClear(live + blocked, limit, bytes, top);
    }
  }

  lemma LowestLeads(live: seq<Span>, blocked: seq<Span>, limit: nat, top: nat)
    requires Layout(live, limit) && blocked != [] && limit < top && !Hidden(live, blocked, limit)
    requires forall b :: 0 <= b < |blocked| ==> EndOf(blocked[b]) == top
    ensures exists o: nat :: Leads(live + blocked, limit, o)
  {
    var spans, low := live + blocked, Lowest(blocked, |blocked|);
    var o := |live| + low;
    assert forall i :: 0 <= i < |live| - 1 ==> EndOf(live[i]) <= live[|live| - 1].offset < limit;
    forall i | 0 <= i < |spans| && EndOf(spans[i]) == limit ensures i == |live| - 1 && spans[o].offset <= spans[i].offset {
      assert i < |live|;
    }
    assert Leads(spans, limit, o);
  }

  lemma HiddenIsMissed(live: seq<Span>, blocked: seq<Span>, limit: nat, bytes: nat, top: nat)
    requires Layout(live, limit) && SpansOk(live + blocked) && EndsOk(live + blocked, limit, top) && limit < NONE && bytes > 0
    requires blocked != [] && EndOf(blocked[0]) == top && Hidden(live, blocked, limit)
    ensures AllClear(live + blocked, SmallOffset(live + blocked, limit, bytes), bytes) <==> SomeGapHolds(live, limit, bytes)
  {
    var spans, before := live + blocked, Best(limit, NONE);
    HiddenSweep(live, blocked, limit, bytes, 0, before);
    SweepInOrder(live, limit, bytes, 0, before);
    SweepIsOk(spans, limit, bytes, 0, before);
    assert spans[|live|] == blocked[0];
  }

  /**
    It does fail otherwise: a live megabyte at 9 MiB, then a rogue's first page and its second
    page; asking for a megabyte gives 10 MiB, inside the rogue's second page.
  */
  lemma BlockedSpanIsMissed()
    ensures SmallOffset([Span(0x90_0000, 0x10_0000), Span(0, PAGE), Span(PAGE, PAGE)], 0xA0_0000, 0x10_0000) == 0xA0_0000
    ensures !Clear(Span(PAGE, PAGE), 0xA0_0000, 0x10_0000)
  {
    var spans := [Span(0x90_0000, 0x10_0000), Span(0, PAGE), Span(PAGE, PAGE)];
    assert Scan(0, spans, 0) == Seen(NONE, 0);
    assert Scan(0, spans, 1) == Seen(0x90_0000, 0xA0_0000);
    assert Scan(0, spans, 2) == Seen(0, 0xA0_0000);
    assert Scan(0, spans, 3) == Seen(0, 0xA0_0000);
    assert Improve(Best(0xA0_0000, NONE), 0, 0, 0x10_0000) == Best(0xA0_0000, NONE);
    assert Sweep(spans, 0xA0_0000, 0x10_0000, 0xA0_0000, Best(0xA0_0000, NONE)) == (Best(0xA0_0000, NONE), 0xA0_0000);
    assert Sweep(spans, 0xA0_0000, 0x10_0000, 0, Best(0xA0_0000, NONE)) == (Best(0xA0_0000, NONE), 0xA0_0000);
  }

  // ---------------------------------------------------------------- a request for nothing

  lemma {:induction false} ZeroHoleStays(spans: seq<Span>, limit: nat, position: nat, best: Best)
    requires SpansOk(spans) && limit < NONE && best.hole == 0
    ensures Sweep(spans, limit, 0, position, best).0 == best
    decreases limit - position
  {
    if position < limit {
      ScanIsOk(position, spans, |spans|);
      var seen := Scan(position, spans, |spans|);
      if seen.offset != NONE && seen.offset != limit { ZeroHoleStays(spans, limit, seen.end, best); }
    }
  }

  /** Whenever the first live range starts the heap, a request for no bytes is given that range's own address. */
  lemma NothingReturnsLiveRange(spans: seq<Span>, limit: nat)
    requires SpansOk(spans) && Layout(spans, limit) && limit < NONE && spans != [] && spans[0].offset == 0
    ensures SmallOffset(spans, limit, 0) == spans[0].offset
  {
    ScanInOrder(spans, limit, 0, |spans|);
    ScanIsOk(0, spans, |spans|);
    assert HoleStart(spans, 0) == 0 && Scan(0, spans, |spans|) == Seen(0, EndOf(spans[0]));
    ZeroHoleStays(spans, limit, EndOf(spans[0]), Best(0, 0));
  }

  // ---------------------------------------------------------------- the search as a loop

  method ScanSpans(spans: seq<Span>, position: nat) returns (nextOffset: nat, nextEnd: nat)
    requires SpansOk(spans) && position < NONE
    ensures Seen(nextOffset, nextEnd) == Scan(position, spans, |spans|)
    ensures nextOffset != NONE ==> position <= nextOffset && position < nextEnd
  {
    nextOffset, nextEnd := NONE, 0;
    for k := 0 to |spans|
      invariant Scan(position, spans, k) == Seen(nextOffset, nextEnd)
    {
      var seen := Consider(position, spans[k], Seen(nextOffset, nextEnd));
      nextOffset, nextEnd := seen.offset, seen.end;
    }
    ScanIsOk(position, spans, |spans|);
  }

  /** Weighs every hole below the heap's end, one stretch of spans after another. */
  method FindOffset(spans: seq<Span>, limit: nat, bytes: nat) returns (offset: nat)
    requires SpansOk(spans) && limit < NONE
    ensures offset == SmallOffset(spans, limit, bytes)
  {
    var position, best, done := 0, Best(limit, NONE), false;
    while position < limit && !done
      invariant !done ==> Sweep(spans, limit, bytes, 0, Best(limit, NONE)) == Sweep(spans, limit, bytes, position, best)
      invariant done ==> Sweep(spans, limit, bytes, 0, Best(limit, NONE)) == (best, position)
      decreases !done, limit - position
    {
      var nextOffset, nextEnd := ScanSpans(spans, position);
      if nextOffset == NONE {
        nextOffset := limit;
      }
      best := Improve(best, position, nextOffset - position, bytes);
      if nextOffset == limit {
        done := true;
      } else {
        position := nextEnd;
      }
    }
    offset := if best.hole < NONE then best.offset else if limit < position then position else limit;
  }

  // ---------------------------------------------------------------- growing the heap

  lemma {:induction false} ScanEndsBelow(position: nat, spans: seq<Span>, k: nat, top: nat)
    requires k <= |spans| && forall i :: 0 <= i < |spans| ==> EndOf(spans[i]) <= top
    ensures Scan(position, spans, k).end <= top
  {
    if k > 0 { ScanEndsBelow(position, spans, k - 1, top); }
  }

  lemma {:induction false} SweepStopsBelow(spans: seq<Span>, limit: nat, bytes: nat, position: nat, best: Best, top: nat)
    requires SpansOk(spans) && limit <= top && limit < NONE && position <= top && best.offset <= limit
    requires forall i :: 0 <= i < |spans| ==> EndOf(spans[i]) <= top
    ensures var (best', stop) := Sweep(spans, limit, bytes, position, best); best'.offset <= limit && stop <= top
    decreases limit - position
  {
    if position < limit {
      ScanIsOk(position, spans, |spans|);
      ScanEndsBelow(position, spans, |spans|, top);
      var seen := Scan(position, spans, |spans|);
      if seen.offset != NONE && seen.offset != limit {
        SweepStopsBelow(spans, limit, bytes, seen.end, Improve(best, position, seen.offset - position, bytes), top);
      }
    }
  }

  /** Rounding up to pages passes no page boundary. */
  lemma AlignUpWithin(n: nat, pages: nat)
    requires n <= pages * PAGE <= HEAP + PAGE
    ensures AlignUp(n, PAGE) <= pages * PAGE && n <= (AlignUp(n, PAGE) / PAGE) * PAGE && AlignUp(n, PAGE) / PAGE <= pages
  {
    var x := n + PAGE - 1;
    assert x % WORD == x;
    assert AlignUp(n, PAGE) == x - x % PAGE;
  }

  /** However the spans lie, the new end of the heap needs at most one page more than are mapped. */
  lemma GrowthNeedsOnePage(spans: seq<Span>, limit: nat, bytes: nat, smallPages: nat)
    requires SpansOk(spans) && limit <= smallPages * PAGE <= HEAP && bytes <= SMALL_LIMIT
    requires forall i :: 0 <= i < |spans| ==> EndOf(spans[i]) <= AlignUp(limit, PAGE)
    ensures SmallOffset(spans, limit, bytes) + bytes <= (smallPages + 1) * PAGE
    ensures AlignUp(SmallOffset(spans, limit, bytes) + bytes, PAGE) / PAGE <= smallPages + 1
  {
    AlignUpIsNext(limit, PAGE);
    AlignUpWithin(limit, smallPages);
    SweepStopsBelow(spans, limit, bytes, 0, Best(limit, NONE), AlignUp(limit, PAGE));
    AlignUpWithin(SmallOffset(spans, limit, bytes) + bytes, smallPages + 1);
  }

  // ---------------------------------------------------------------- placing a small allocation

  /** How the driver answers when the heap needs one page more. */
  datatype PageReply = Mapped | NotCreated | NotMapped

  function SmallPlace(g: Graph, spans: seq<Span>, size: nat, reply: PageReply): Place
    requires SpansOk(spans) && g.space.limit < NONE
  {
    var bytes := AlignUp(size, SMALL_ALIGN);
    var offset := SmallOffset(spans, g.space.limit, bytes);
    var end := offset + bytes;
    if end <= g.space.limit then Place(Small(offset), g.space, g.physCount, g.smallPages)
    else
      var pages := AlignUp(end, PAGE) / PAGE;
      if pages > SMALL_PAGES then NoPlace(g.space, g.physCount, g.smallPages)
      else if g.smallPages >= pages || reply.Mapped? then
        Place(Small(offset), g.space.(limit := end), g.physCount, if g.smallPages < pages then g.smallPages + 1 else g.smallPages)
      else NoPlace(g.space, g.physCount, if reply.NotCreated? then g.smallPages else g.smallPages + 1)
  }

  /** The sorted list of live ranges and the state say the same about the small heap. */
  predicate Lists(spans: seq<Span>, a: Alloc) {
    && (forall i :: 0 <= i < |spans| ==> Small(spans[i].offset) in a && a[Small(spans[i].offset)].units == spans[i].bytes)
    && (forall i, j :: 0 <= i < j < |spans| ==> spans[i].offset < spans[j].offset)
    && (forall l :: l in a && l.Small? ==> exists i :: 0 <= i < |spans| && spans[i].offset == l.offset)
  }

  /** Every byte of the heap is on a mapped page. */
  predicate HeapOk(g: Graph) {
    g.space.limit <= g.smallPages * PAGE <= HEAP
  }

  lemma ListsAreLaidOut(sp: Space, a: Alloc, spans: seq<Span>)
    requires AllocOk(sp, a) && Lists(spans, a) && sp.limit < NONE
    ensures Layout(spans, sp.limit) && SpansOk(spans)
  {
    forall i | 0 <= i < |spans| ensures spans[i].bytes > 0 && EndOf(spans[i]) <= sp.limit {
      assert EntryOk(sp, Small(spans[i].offset), spans[i].bytes);
    }
    forall i, j | 0 <= i < j < |spans| ensures EndOf(spans[i]) <= spans[j].offset {
      assert Apart(sp, Small(spans[i].offset), spans[i].bytes, Small(spans[j].offset), spans[j].bytes);
    }
  }

  /** A stretch clear of all live ranges may be taken once the heap reaches that far. */
  lemma ClearCanTake(g: Graph, spans: seq<Span>, offset: nat, bytes: nat, limit: nat)
    requires AllocOk(g.space, g.alloc) && Lists(spans, g.alloc) && bytes > 0
    requires g.space.limit <= limit && offset + bytes <= limit
    requires forall i :: 0 <= i < |spans| ==> Clear(spans[i], offset, bytes)
    ensures CanTake(g.space.(limit := limit), g.alloc, Small(offset), bytes)
  {
    forall k | k in g.alloc
      ensures k != Small(offset) && Apart(g.space.(limit := limit), Small(offset), bytes, k, g.alloc[k].units)
    {
      assert EntryOk(g.space, k, g.alloc[k].units);
      if k.Small? {
        var i :| 0 <= i < |spans| && spans[i].offset == k.offset;
        assert Clear(spans[i], offset, bytes);
      }
    }
  }

  lemma SmallUnits(size: nat)
    requires size < SMALL_LIMIT
    ensures AlignUp(size, SMALL_ALIGN) <= SMALL_LIMIT && (AlignUp(size, SMALL_ALIGN) > 0 <==> size > 0)
  {
    AlignUpIsNext(size, SMALL_ALIGN);
    assert SMALL_LIMIT % SMALL_ALIGN == 0;
  }

  /** The place found is sound exactly when the request asks for something; and the heap stays mapped. */
  lemma SmallPlaceIsOk(g: Graph, spans: seq<Span>, size: nat, reply: PageReply)
    requires AllocOk(g.space, g.alloc) && Lists(spans, g.alloc) && HeapOk(g) && SpansOk(spans) && size < SMALL_LIMIT
    ensures var pl := SmallPlace(g, spans, size, reply);
      && (pl.NoPlace? ==> PlaceOk(g, size, pl))
      && (pl.Place? ==> (PlaceOk(g, size, pl) <==> size > 0))
  {
    var bytes := AlignUp(size, SMALL_ALIGN);
    var pl := SmallPlace(g, spans, size, reply);
    SmallUnits(size);
    if pl.Place? && size > 0 {
      ListsAreLaidOut(g.space, g.alloc, spans);
      forall i | 0 <= i < |spans| ensures Clear(spans[i], pl.loc.offset, bytes) {
        LiveRangesAreClear(spans, g.space.limit, bytes, i);
      }
      ClearCanTake(g, spans, pl.loc.offset, bytes, pl.space.limit);
    }
  }

  lemma PlaceKeepsHeap(g: Graph, spans: seq<Span>, size: nat, reply: PageReply)
    requires HeapOk(g) && SpansOk(spans) && size < SMALL_LIMIT && SmallPlace(g, spans, size, reply).Place?
    requires forall i :: 0 <= i < |spans| ==> EndOf(spans[i]) <= AlignUp(g.space.limit, PAGE)
    ensures var pl := SmallPlace(g, spans, size, reply); pl.space.limit <= pl.smallPages * PAGE <= HEAP
  {
    SmallUnits(size);
    var bytes := AlignUp(size, SMALL_ALIGN);
    GrowthNeedsOnePage(spans, g.space.limit, bytes, g.smallPages);
    AlignUpWithin(SmallOffset(spans, g.space.limit, bytes) + bytes, g.smallPages + 1);
  }

  lemma SmallPlaceKeepsHeap(g: Graph, spans: seq<Span>, size: nat, reply: PageReply)
    requires HeapOk(g) && SpansOk(spans) && size < SMALL_LIMIT && SmallPlace(g, spans, size, reply).Place?
    requires forall i :: 0 <= i < |spans| ==> EndOf(spans[i]) <= g.space.limit
    ensures var pl := SmallPlace(g, spans, size, reply); pl.space.limit <= pl.smallPages * PAGE <= HEAP
  {
    AlignUpIsNext(g.space.limit, PAGE);
    PlaceKeepsHeap(g, spans, size, reply);
  }
}
