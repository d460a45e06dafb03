/**
  VBARs on the portable path (src/model-vbar.c): pages with pins and serial numbers, watermarks,
  and what reclaim and faults may do to them.
*/
module VbarModel {

  const PAGE: nat := 0x200_0000
  const SIGNATURE: nat := 0x1_0000_0000

  /** `handle` is zero for an absent page; `serial` counts how often the page was created. */
  datatype Page = Page(handle: nat, pins: nat, serial: nat)

  /** Pages from the watermark up are denied to faults; reclaim lowers it no further than the limit. */
  datatype Vbar = Vbar(pages: seq<Page>, watermark: nat, limit: nat, resident: int, writable: bool)

  /** All VBARs by identity, from lowest to highest priority in `order`. */
  datatype Pool = Pool(vbars: map<nat, Vbar>, order: seq<nat>, usage: int, nextHandle: nat, nextId: nat)

  // ---------------------------------------------------------------- counting pages

  /** Pages with a handle among the first `k`. */
  function Mapped(pages: seq<Page>, k: nat): nat
    requires k <= |pages|
  {
    if k == 0 then 0 else Mapped(pages, k - 1) + (if pages[k - 1].handle != 0 then 1 else 0)
  }

  function Absent(pages: seq<Page>, k: nat): (n: nat)
    requires k <= |pages|
  {
    if k == 0 then 0 else Absent(pages, k - 1) + (if pages[k - 1].handle == 0 then 1 else 0)
  }

  function MappedIn(v: Vbar): nat {
    Mapped(v.pages, |v.pages|)
  }

  /** Pages with a handle in the VBARs with identities below `n`. */
  function Total(vbars: map<nat, Vbar>, n: nat): nat {
    if n == 0 then 0 else Total(vbars, n - 1) + (if n - 1 in vbars then MappedIn(vbars[n - 1]) else 0)
  }

  lemma {:induction false} MappedUpdate(pages: seq<Page>, p: nat, page: Page, k: nat)
    requires p < |pages| && k <= |pages|
    ensures Mapped(pages[p := page], k) == Mapped(pages, k) +
            (if p < k then (if page.handle != 0 then 1 else 0) - (if pages[p].handle != 0 then 1 else 0) else 0)
    ensures Absent(pages[p := page], k) == Absent(pages, k) +
            (if p < k then (if page.handle == 0 then 1 else 0) - (if pages[p].handle == 0 then 1 else 0) else 0)
  {
    if k > 0 { MappedUpdate(pages, p, page, k - 1); }
  }

  lemma {:induction false} TotalUpdate(vbars: map<nat, Vbar>, id: nat, v: Vbar, n: nat)
    requires id in vbars
    ensures Total(vbars[id := v], n) == Total(vbars, n) + (if id < n then MappedIn(v) - MappedIn(vbars[id]) else 0)
  {
    if n > 0 { TotalUpdate(vbars, id, v, n - 1); }
  }

  // ---------------------------------------------------------------- the invariant

  predicate VbarOk(v: Vbar, nextHandle: nat) {
    && v.watermark <= |v.pages| && v.resident == MappedIn(v)
    && forall p :: 0 <= p < |v.pages| ==> v.pages[p].handle < nextHandle && (v.pages[p].pins > 0 ==> v.pages[p].handle != 0)
  }

  /** The priority list names every VBAR once. */
  predicate Ordered(ids: set<nat>, order: seq<nat>) {
    && (forall i :: 0 <= i < |order| ==> order[i] in ids) && (forall id :: id in ids ==> id in order)
    && (forall i, j :: 0 <= i < j < |order| ==> order[i] != order[j])
  }

  /** A pinned page is mapped, residency counts are exact, and usage is the size of all mapped pages. */
  ghost predicate PoolOk(s: Pool) {
    && (forall id :: id in s.vbars ==> id < s.nextId && VbarOk(s.vbars[id], s.nextHandle))
    && Ordered(s.vbars.Keys, s.order)
    && s.usage == PAGE * Total(s.vbars, s.nextId) && s.nextHandle > 0
  }

  // ---------------------------------------------------------------- what reclaim may do

  /** Reclaim leaves pins and serials alone, and takes the handle only of an unpinned page. */
  predicate PageReclaims(p: Page, q: Page) {
    q.pins == p.pins && q.serial == p.serial && (q.handle == p.handle || (p.pins == 0 && q.handle == 0))
  }

  /** It frees from the top down: only pages between the new watermark and the old one. */
  predicate VbarReclaims(v: Vbar, w: Vbar) {
    && |w.pages| == |v.pages| && w.limit == v.limit && w.writable == v.writable && w.watermark <= v.watermark
    && (forall p :: 0 <= p < |v.pages| ==> PageReclaims(v.pages[p], w.pages[p]))
    && (forall p :: 0 <= p < |v.pages| && (p < w.watermark || p >= v.watermark) ==> w.pages[p] == v.pages[p])
  }

  ghost predicate Reclaims(s: Pool, t: Pool) {
    && t.vbars.Keys == s.vbars.Keys && t.order == s.order && t.nextHandle == s.nextHandle && t.nextId == s.nextId
    && forall id :: id in s.vbars ==> VbarReclaims(s.vbars[id], t.vbars[id])
  }

  function Freed(s: Pool, t: Pool): int {
    Total(s.vbars, s.nextId) - Total(t.vbars, t.nextId)
  }

  lemma ReclaimsNothing(s: Pool)
    ensures Reclaims(s, s)
  {}

  lemma ReclaimsTwice(s: Pool, t: Pool, u: Pool)
    requires Reclaims(s, t) && Reclaims(t, u)
    ensures Reclaims(s, u)
  {
    forall id | id in s.vbars ensures VbarReclaims(s.vbars[id], u.vbars[id]) { TwiceOne(s.vbars[id], t.vbars[id], u.vbars[id]); }
  }

  lemma TwiceOne(v: Vbar, w: Vbar, x: Vbar)
    requires VbarReclaims(v, w) && VbarReclaims(w, x)
    ensures VbarReclaims(v, x)
  {
    forall p | 0 <= p < |v.pages| ensures PageReclaims(v.pages[p], x.pages[p]) {
      assert PageReclaims(v.pages[p], w.pages[p]) && PageReclaims(w.pages[p], x.pages[p]);
    }
  }

  // ---------------------------------------------------------------- what any step may do

  /** A page keeps its handle until it is freed, and gets a new one only with a new serial number. */
  predicate PageEvolves(p: Page, q: Page) {
    && p.serial <= q.serial
    && (p.serial == q.serial ==> q.handle == p.handle || q.handle == 0)
    && (p.pins > 0 && q.pins > 0 ==> q.handle == p.handle && q.serial == p.serial)
  }

  predicate VbarEvolves(v: Vbar, w: Vbar) {
    |w.pages| == |v.pages| && forall p :: 0 <= p < |v.pages| ==> PageEvolves(v.pages[p], w.pages[p])
  }

  /** Every VBAR that is still there evolved from what it was. */
  ghost predicate Evolves(s: Pool, t: Pool) {
    && s.nextId <= t.nextId && s.nextHandle <= t.nextHandle
    && (forall id :: id in t.vbars && id < s.nextId ==> id in s.vbars)
    && (forall id :: id in s.vbars && id in t.vbars ==> VbarEvolves(s.vbars[id], t.vbars[id]))
  }

  lemma ReclaimEvolves(s: Pool, t: Pool)
    requires PoolOk(s) && Reclaims(s, t)
    ensures Evolves(s, t)
  {
    forall id | id in s.vbars && id in t.vbars ensures VbarEvolves(s.vbars[id], t.vbars[id]) {
      assert VbarReclaims(s.vbars[id], t.vbars[id]);
      forall p | 0 <= p < |s.vbars[id].pages| ensures PageEvolves(s.vbars[id].pages[p], t.vbars[id].pages[p]) {
        assert PageReclaims(s.vbars[id].pages[p], t.vbars[id].pages[p]);
      }
    }
  }

  // ---------------------------------------------------------------- what evolving states keep

  /** Every state evolves from the one before. */
  ghost predicate Evolving(states: seq<Pool>) {
    forall k :: 0 <= k < |states| - 1 ==> Evolves(states[k], states[k + 1])
  }

  /** The page is present in every state between two in which its VBAR exists, and its serial never falls. */
  lemma {:induction false} SerialRises(states: seq<Pool>, i: nat, j: nat, id: nat, p: nat)
    requires Evolving(states) && i <= j < |states| && id in states[i].vbars && id in states[j].vbars && id < states[i].nextId
    requires p < |states[i].vbars[id].pages|
    ensures forall k :: i <= k <= j ==> id in states[k].vbars && id < states[k].nextId
    ensures |states[j].vbars[id].pages| == |states[i].vbars[id].pages|
    ensures states[i].vbars[id].pages[p].serial <= states[j].vbars[id].pages[p].serial
    decreases j
  {
    if i < j {
      NextIdRises(states, i, j - 1);
      assert Evolves(states[j - 1], states[j]);
      SerialRises(states, i, j - 1, id, p);
      assert VbarEvolves(states[j - 1].vbars[id], states[j].vbars[id]);
      assert PageEvolves(states[j - 1].vbars[id].pages[p], states[j].vbars[id].pages[p]);
    }
  }

  lemma {:induction false} NextIdRises(states: seq<Pool>, i: nat, j: nat)
    requires Evolving(states) && i <= j < |states|
    ensures states[i].nextId <= states[j].nextId
    decreases j
  {
    if i < j {
      NextIdRises(states, i, j - 1);
      assert Evolves(states[j - 1], states[j]);
    }
  }

  /** Between two states with the same serial the page was never created: it kept its handle or lost it for good. */
  lemma {:induction false} SameSerialSameHandle(states: seq<Pool>, i: nat, j: nat, id: nat, p: nat)
    requires Evolving(states) && i <= j < |states| && id in states[i].vbars && id in states[j].vbars && id < states[i].nextId
    requires p < |states[i].vbars[id].pages| == |states[j].vbars[id].pages|
    requires states[i].vbars[id].pages[p].serial == states[j].vbars[id].pages[p].serial
    ensures states[j].vbars[id].pages[p].handle in {0, states[i].vbars[id].pages[p].handle}
    decreases j
  {
    if i < j {
      SerialRises(states, i, j, id, p);
      SerialRises(states, i, j - 1, id, p);
      assert Evolves(states[j - 1], states[j]);
      assert VbarEvolves(states[j - 1].vbars[id], states[j].vbars[id]);
      assert PageEvolves(states[j - 1].vbars[id].pages[p], states[j].vbars[id].pages[p]);
      SameSerialSameHandle(states, i, j - 1, id, p);
    }
  }

  lemma SmallSerials(a: nat, b: nat)
    requires a <= b < SIGNATURE && a % SIGNATURE == b % SIGNATURE
    ensures a == b
  {}

  // ---------------------------------------------------------------- the pages of a request

  const WORD: nat := 0x1_0000_0000_0000_0000

  datatype PageRange = OutOfRange | PageRange(first: nat, last: nat)

  /** Pages needed for so many bytes, unless rounding up would wrap around 64 bits. */
  function PageCount(size: nat): PageRange {
    if size > WORD - PAGE then OutOfRange else PageRange(0, (size + PAGE - 1) / PAGE)
  }

  /** The pages of a fault; an end past the reservation is found by subtraction, so it cannot wrap. */
  function FaultRange(pages: nat, offset: nat, size: nat): PageRange {
    if pages > (WORD - 1) / PAGE then OutOfRange
    else if offset > pages * PAGE || size > pages * PAGE - offset then OutOfRange
    else
      match PageCount(offset + size)
      case OutOfRange => OutOfRange
      case PageRange(_, last) => PageRange(offset / PAGE, last)
  }

  /** A request inside the reservation is always accepted, and its pages are exactly those that meet it. */
  lemma FaultRangeIsExact(pages: nat, offset: nat, size: nat)
    requires pages <= (WORD - 1) / PAGE
    ensures FaultRange(pages, offset, size).PageRange? <==> offset + size <= pages * PAGE
    ensures offset + size <= pages * PAGE ==>
              var r := FaultRange(pages, offset, size);
              r.first <= r.last <= pages &&
              forall p: nat :: r.first <= p < r.last <==> PageMeets(p, offset, size)
  {
    if offset + size <= pages * PAGE {
      var r := PageRange(offset / PAGE, (offset + size + PAGE - 1) / PAGE);
      assert FaultRange(pages, offset, size) == r;
      forall p: nat ensures r.first <= p < r.last <==> PageMeets(p, offset, size) {}
    }
  }

  /** The page starts before the request ends, and ends after it starts. */
  predicate PageMeets(p: nat, offset: nat, size: nat) {
    p * PAGE < offset + size && offset < (p + 1) * PAGE
  }
}
