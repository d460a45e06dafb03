/**
  Whole runs of the VBAR operations.  Each operation is a relation between two pools, proved of the
  methods in VbarPool.dfy; every run of them from an empty pool keeps the pool's books, keeps
  pinned pages on their handles, and makes equal signatures mean equal pages.
*/
module VbarOps {
  import opened VbarModel

  datatype FaultResult = Success | Oom | Error

  /** What a client or the pressure of memory asks for, with its outcome. */
  datatype Op =
    | MakeRoom
    | Fault(id: nat, offset: nat, size: nat, result: FaultResult, signature: seq<nat>)
    | Unpin(id: nat, first: nat, last: nat)
    | SetWatermark(id: nat, target: nat, ok: bool)
    | SetLimit(id: nat, limit: nat)
    | Prioritize(id: nat)
    | Deprioritize(id: nat)
    | Allocate(size: nat, writable: bool)
    | Destroy(id: nat)

  // ---------------------------------------------------------------- what the operations do to pages

  /** Usage moves with the pages mapped anywhere, and each VBAR's count with its own. */
  ghost predicate Accounted(s: Pool, t: Pool) {
    && t.usage - s.usage == PAGE * (Total(t.vbars, t.nextId) - Total(s.vbars, s.nextId))
    && forall id :: id in s.vbars && id in t.vbars ==>
         t.vbars[id].resident - s.vbars[id].resident == MappedIn(t.vbars[id]) - MappedIn(s.vbars[id])
  }

  /** The page is as it was, or was reclaimed while nobody pinned it, or was created on a handle of its own. */
  predicate PageTouches(p: Page, q: Page, creates: bool, lo: nat, hi: nat) {
    || (q.handle == p.handle && q.serial == p.serial)
    || (p.pins == 0 && q.handle == 0 && q.serial == p.serial)
    || (creates && p.pins == 0 && lo <= q.handle < hi && q.serial == p.serial + 1)
  }

  /** A fault reclaims like any request for room, and creates pages of its range. */
  ghost predicate VbarTouches(v: Vbar, w: Vbar, target: bool, first: nat, last: nat, lo: nat, hi: nat) {
    && |w.pages| == |v.pages| && w.limit == v.limit && w.writable == v.writable && w.watermark <= v.watermark
    && forall p: nat :: p < |v.pages| ==> PageTouches(v.pages[p], w.pages[p], target && first <= p < last, lo, hi)
  }

  ghost predicate Touches(s: Pool, t: Pool, id: nat, first: nat, last: nat) {
    && t.vbars.Keys == s.vbars.Keys && t.order == s.order && t.nextId == s.nextId && s.nextHandle <= t.nextHandle
    && forall j :: j in s.vbars ==> VbarTouches(s.vbars[j], t.vbars[j], j == id, first, last, s.nextHandle, t.nextHandle)
  }

  /** Pins are as before, plus one for the confirmed pages, which are all mapped. */
  ghost predicate Pins(s: Pool, t: Pool, id: nat, first: nat, cur: nat) {
    && t.vbars.Keys == s.vbars.Keys
    && forall j, p: nat :: j in s.vbars && p < |s.vbars[j].pages| ==>
         p < |t.vbars[j].pages| && PageFaults(s.vbars[j].pages[p], t.vbars[j].pages[p], j == id && first <= p < cur)
  }

  predicate PageFaults(p: Page, q: Page, confirmed: bool) {
    q.pins == p.pins + (if confirmed then 1 else 0) && (confirmed ==> q.handle != 0)
  }

  /** Every signature entry is the serial of its confirmed page. */
  predicate Signed(v: Vbar, first: nat, cur: nat, signature: seq<nat>) {
    && first <= cur <= |v.pages| && |signature| == cur - first
    && forall p :: first <= p < cur ==> signature[p - first] == v.pages[p].serial % SIGNATURE
  }

  /** Only unpinned pages of the range lost their handles; nothing else changed. */
  predicate RangeFreed(v: Vbar, w: Vbar, first: nat, last: nat) {
    && |w.pages| == |v.pages| && w == v.(pages := w.pages, resident := w.resident)
    && forall p: nat :: p < |v.pages| ==> PageReclaims(v.pages[p], w.pages[p]) && (p < first || p >= last ==> w.pages[p] == v.pages[p])
  }

  function OnePinLess(p: Page): Page {
    if p.pins > 0 then p.(pins := p.pins - 1) else p
  }

  /** Every page of the range gave one pin back; unpinned pages of the range may be gone. */
  predicate Unpinned(v: Vbar, w: Vbar, first: nat, last: nat) {
    && |w.pages| == |v.pages| && w == v.(pages := w.pages, resident := w.resident)
    && forall p: nat :: p < |v.pages| ==>
         PageReclaims(if first <= p < last then OnePinLess(v.pages[p]) else v.pages[p], w.pages[p])
  }

  /** No unpinned page of the range is mapped. */
  predicate RangeEmpty(v: Vbar, first: nat, last: nat)
    requires last <= |v.pages|
  {
    forall p :: first <= p < last && v.pages[p].pins == 0 ==> v.pages[p].handle == 0
  }

  function Least(a: nat, b: nat): nat {
    if a < b then a else b
  }

  /** The list without an identity. */
  function Dropped(order: seq<nat>, id: nat): seq<nat> {
    if order == [] then [] else if order[0] == id then order[1..] else [order[0]] + Dropped(order[1..], id)
  }

  function NewVbar(pages: nat, writable: bool): Vbar {
    Vbar(seq(pages, i => Page(0, 0, 0)), pages, 0, 0, writable)
  }

  // ---------------------------------------------------------------- the operations as relations

  /** One VBAR and the usage changed. */
  ghost predicate OnlyVbar(s: Pool, t: Pool, id: nat) {
    && id in s.vbars && id in t.vbars && t == s.(vbars := s.vbars[id := t.vbars[id]], usage := t.usage)
    && Accounted(s, t)
  }

  /** A fault over pages `first` to `last`. */
  ghost predicate Faults(s: Pool, t: Pool, id: nat, first: nat, last: nat, result: FaultResult, signature: seq<nat>) {
    && Touches(s, t, id, first, last) && Accounted(s, t)
    && Pins(s, t, id, first, if result.Success? then last else first)
    && (result.Success? ==> id in t.vbars && Signed(t.vbars[id], first, last, signature))
  }

  /**
    The watermark decides a fault: one whose range ends above it when it begins only reclaims, and
    one that succeeds leaves its whole range below it; a shortage is reported exactly when it does not.
  */
  ghost predicate Gated(s: Pool, t: Pool, id: nat, last: nat, result: FaultResult) {
    && id in s.vbars && id in t.vbars
    && (s.vbars[id].watermark < last ==> Reclaims(s, t) && !result.Success?)
    && (result.Success? ==> last <= t.vbars[id].watermark)
    && (result.Oom? ==> t.vbars[id].watermark < last)
  }

  ghost predicate Does(s: Pool, op: Op, t: Pool) {
    match op
    case MakeRoom => Reclaims(s, t) && Accounted(s, t)
    case Fault(id, offset, size, result, signature) =>
      id in s.vbars &&
      (match FaultRange(|s.vbars[id].pages|, offset, size)
       case OutOfRange => t == s && result.Oom?
       case PageRange(first, last) => Faults(s, t, id, first, last, result, signature) && Gated(s, t, id, last, result))
    case Unpin(id, first, last) => OnlyVbar(s, t, id) && Unpinned(s.vbars[id], t.vbars[id], first, last)
    case SetWatermark(id, target, ok) => OnlyVbar(s, t, id) && WatermarkSet(s.vbars[id], t.vbars[id], target, ok)
    case SetLimit(id, limit) => id in s.vbars && t == s.(vbars := s.vbars[id := s.vbars[id].(limit := limit)])
    case Prioritize(id) =>
      id in s.vbars && t == s.(vbars := s.vbars[id := s.vbars[id].(watermark := |s.vbars[id].pages|)], order := Dropped(s.order, id) + [id])
    case Deprioritize(id) => id in s.vbars && t == s.(order := [id] + Dropped(s.order, id))
    case Allocate(size, writable) =>
      t == s.(vbars := s.vbars[s.nextId := NewVbar(size, writable)], order := s.order + [s.nextId], nextId := s.nextId + 1)
    case Destroy(id) =>
      id in s.vbars &&
      t == s.(vbars := s.vbars - {id}, order := Dropped(s.order, id), usage := s.usage - PAGE * MappedIn(s.vbars[id]))
  }

  /** What lies above the new watermark is freed unless pinned; the watermark stays if a writeback failed. */
  predicate WatermarkSet(v: Vbar, w: Vbar, target: nat, ok: bool) {
    && w.watermark == (if ok then Least(target, |v.pages|) else v.watermark)
    && RangeFreed(v.(watermark := w.watermark), w, Least(target, v.watermark), v.watermark)
  }

  // ---------------------------------------------------------------- counting and ordering

  lemma {:induction false} NothingMapped(pages: seq<Page>, k: nat)
    requires k <= |pages| && forall p :: 0 <= p < |pages| ==> pages[p].handle == 0
    ensures Mapped(pages, k) == 0
  {
    if k > 0 { NothingMapped(pages, k - 1); }
  }

  lemma {:induction false} TotalSame(a: map<nat, Vbar>, b: map<nat, Vbar>, n: nat)
    requires forall id :: 0 <= id < n ==> (id in a <==> id in b) && (id in a ==> MappedIn(a[id]) == MappedIn(b[id]))
    ensures Total(a, n) == Total(b, n)
  {
    if n > 0 { TotalSame(a, b, n - 1); }
  }

  lemma {:induction false} TotalWithout(a: map<nat, Vbar>, id: nat, n: nat)
    requires id in a && id < n
    ensures Total(a - {id}, n) == Total(a, n) - MappedIn(a[id])
  {
    if id == n - 1 { TotalSame(a, a - {id}, n - 1); } else { TotalWithout(a, id, n - 1); }
  }

  lemma {:induction false} DroppedMeans(order: seq<nat>, id: nat)
    requires forall i, j :: 0 <= i < j < |order| ==> order[i] != order[j]
    ensures forall x :: x in Dropped(order, id) <==> x in order && x != id
    ensures forall i, j :: 0 <= i < j < |Dropped(order, id)| ==> Dropped(order, id)[i] != Dropped(order, id)[j]
  {
    if order != [] {
      assert forall k :: 0 <= k < |order| - 1 ==> order[1..][k] == order[k + 1] != order[0];
      assert order == [order[0]] + order[1..];
      if order[0] != id {
        DroppedMeans(order[1..], id);
        assert order[0] !in Dropped(order[1..], id);
      }
    }
  }

  lemma OrderedEnds(ids: set<nat>, d: seq<nat>, id: nat)
    requires id in ids && id !in d && (forall x :: x in ids && x != id ==> x in d) && forall i :: 0 <= i < |d| ==> d[i] in ids
    requires forall i, j :: 0 <= i < j < |d| ==> d[i] != d[j]
    ensures Ordered(ids, d + [id]) && Ordered(ids, [id] + d)
  {
    assert (d + [id])[|d|] == id && ([id] + d)[0] == id;
  }

  lemma OrderKeeps(s: Pool, id: nat)
    requires PoolOk(s) && id in s.vbars
    ensures PoolOk(s.(order := Dropped(s.order, id) + [id])) && PoolOk(s.(order := [id] + Dropped(s.order, id)))
  {
    DroppedMeans(s.order, id);
    var d := Dropped(s.order, id);
    assert forall i :: 0 <= i < |d| ==> d[i] in d;
    OrderedEnds(s.vbars.Keys, d, id);
  }

  lemma WatermarkPool(s: Pool, id: nat, watermark: nat)
    requires PoolOk(s) && id in s.vbars && watermark <= |s.vbars[id].pages|
    ensures PoolOk(s.(vbars := s.vbars[id := s.vbars[id].(watermark := watermark)]))
  {
    TotalUpdate(s.vbars, id, s.vbars[id].(watermark := watermark), s.nextId);
  }

  lemma LimitPool(s: Pool, id: nat, limit: nat)
    requires PoolOk(s) && id in s.vbars
    ensures PoolOk(s.(vbars := s.vbars[id := s.vbars[id].(limit := limit)]))
  {
    TotalUpdate(s.vbars, id, s.vbars[id].(limit := limit), s.nextId);
  }

  lemma AllocateKeeps(s: Pool, v: Vbar)
    requires PoolOk(s) && v.watermark == |v.pages| && v.resident == 0
    requires forall p :: 0 <= p < |v.pages| ==> v.pages[p] == Page(0, 0, 0)
    ensures PoolOk(s.(vbars := s.vbars[s.nextId := v], order := s.order + [s.nextId], nextId := s.nextId + 1))
    ensures Evolves(s, s.(vbars := s.vbars[s.nextId := v], order := s.order + [s.nextId], nextId := s.nextId + 1))
  {
    var t := s.(vbars := s.vbars[s.nextId := v], order := s.order + [s.nextId], nextId := s.nextId + 1);
    assert s.nextId !in s.vbars;
    NothingMapped(v.pages, |v.pages|);
    TotalSame(s.vbars, t.vbars, s.nextId);
    forall id | id in t.vbars ensures id in t.order {
      if id == s.nextId { assert t.order[|s.order|] == id; } else { assert id in s.order; }
    }
  }

  // ---------------------------------------------------------------- what one operation keeps

  /** A page created before is on an older handle than one created since. */
  lemma TouchesEvolves(s: Pool, t: Pool, id: nat, first: nat, last: nat)
    requires PoolOk(s) && Touches(s, t, id, first, last)
    ensures Evolves(s, t)
  {
    forall j | j in s.vbars && j in t.vbars ensures VbarEvolves(s.vbars[j], t.vbars[j]) {
      assert VbarTouches(s.vbars[j], t.vbars[j], j == id, first, last, s.nextHandle, t.nextHandle);
      forall p: nat | p < |s.vbars[j].pages| ensures PageEvolves(s.vbars[j].pages[p], t.vbars[j].pages[p]) {
        assert PageTouches(s.vbars[j].pages[p], t.vbars[j].pages[p], j == id && first <= p < last, s.nextHandle, t.nextHandle);
      }
    }
  }

  predicate PagesOk(v: Vbar, nextHandle: nat) {
    && v.watermark <= |v.pages|
    && forall p :: 0 <= p < |v.pages| ==> v.pages[p].handle < nextHandle && (v.pages[p].pins > 0 ==> v.pages[p].handle != 0)
  }

  /** Books that moved with the pages still agree with them. */
  lemma AccountedKeeps(s: Pool, t: Pool)
    requires PoolOk(s) && Accounted(s, t) && t.vbars.Keys == s.vbars.Keys && t.nextId == s.nextId && t.nextHandle > 0
    requires Ordered(t.vbars.Keys, t.order) && forall id :: id in t.vbars ==> PagesOk(t.vbars[id], t.nextHandle)
    ensures PoolOk(t)
  {
    hide MappedIn, Total;
    forall id | id in t.vbars ensures VbarOk(t.vbars[id], t.nextHandle) {
      assert PagesOk(t.vbars[id], t.nextHandle) && VbarOk(s.vbars[id], s.nextHandle);
    }
  }

  lemma RoomKeeps(s: Pool, t: Pool)
    requires PoolOk(s) && Reclaims(s, t) && Accounted(s, t)
    ensures PoolOk(t)
  {
    forall id | id in t.vbars ensures PagesOk(t.vbars[id], t.nextHandle) {
      assert VbarReclaims(s.vbars[id], t.vbars[id]) && VbarOk(s.vbars[id], s.nextHandle);
      forall p | 0 <= p < |t.vbars[id].pages|
        ensures t.vbars[id].pages[p].handle < t.nextHandle && (t.vbars[id].pages[p].pins > 0 ==> t.vbars[id].pages[p].handle != 0)
      {
        assert PageReclaims(s.vbars[id].pages[p], t.vbars[id].pages[p]);
      }
    }
    hide PagesOk, VbarReclaims, VbarOk, Accounted, Total;
    AccountedKeeps(s, t);
  }

  lemma FaultsKeeps(s: Pool, t: Pool, id: nat, first: nat, last: nat, result: FaultResult, signature: seq<nat>)
    requires PoolOk(s) && Faults(s, t, id, first, last, result, signature)
    ensures PoolOk(t)
  {
    var cur := if result.Success? then last else first;
    forall j | j in t.vbars ensures PagesOk(t.vbars[j], t.nextHandle) {
      assert VbarTouches(s.vbars[j], t.vbars[j], j == id, first, last, s.nextHandle, t.nextHandle) && VbarOk(s.vbars[j], s.nextHandle);
      forall p: nat | p < |t.vbars[j].pages|
        ensures t.vbars[j].pages[p].handle < t.nextHandle && (t.vbars[j].pages[p].pins > 0 ==> t.vbars[j].pages[p].handle != 0)
      {
        assert PageTouches(s.vbars[j].pages[p], t.vbars[j].pages[p], j == id && first <= p < last, s.nextHandle, t.nextHandle);
        assert PageFaults(s.vbars[j].pages[p], t.vbars[j].pages[p], j == id && first <= p < cur);
      }
    }
    hide PagesOk, VbarTouches, VbarOk, Accounted, Total, Pins, Signed;
    AccountedKeeps(s, t);
  }

  lemma OnlyVbarKeeps(s: Pool, t: Pool, id: nat)
    requires PoolOk(s) && OnlyVbar(s, t, id) && PagesOk(t.vbars[id], s.nextHandle)
    ensures PoolOk(t)
  {
    forall j | j in t.vbars ensures PagesOk(t.vbars[j], t.nextHandle) {
      if j != id { assert VbarOk(s.vbars[j], s.nextHandle); }
    }
    hide PagesOk, VbarOk, Accounted, Total;
    assert t.vbars.Keys == s.vbars.Keys;
    AccountedKeeps(s, t);
  }

  lemma UnpinnedPagesOk(v: Vbar, w: Vbar, first: nat, last: nat, nextHandle: nat)
    requires VbarOk(v, nextHandle) && Unpinned(v, w, first, last)
    ensures PagesOk(w, nextHandle)
  {
    forall p: nat | p < |w.pages| ensures w.pages[p].handle < nextHandle && (w.pages[p].pins > 0 ==> w.pages[p].handle != 0) {
      assert PageReclaims(if first <= p < last then OnePinLess(v.pages[p]) else v.pages[p], w.pages[p]);
    }
  }

  lemma FreedPagesOk(v: Vbar, w: Vbar, first: nat, last: nat, nextHandle: nat)
    requires PagesOk(v, nextHandle) && RangeFreed(v, w, first, last)
    ensures PagesOk(w, nextHandle)
  {
    forall p: nat | p < |w.pages| ensures w.pages[p].handle < nextHandle && (w.pages[p].pins > 0 ==> w.pages[p].handle != 0) {
      assert PageReclaims(v.pages[p], w.pages[p]);
    }
  }

  lemma ForgetKeeps(s: Pool, id: nat)
    requires PoolOk(s) && id in s.vbars
    ensures PoolOk(s.(vbars := s.vbars - {id}, order := Dropped(s.order, id), usage := s.usage - PAGE * MappedIn(s.vbars[id])))
  {
    TotalWithout(s.vbars, id, s.nextId);
    hide MappedIn, Total, Dropped;
    ForgottenOrder(s.vbars.Keys, s.order, id);
    assert (s.vbars - {id}).Keys == s.vbars.Keys - {id};
  }

  lemma ForgottenOrder(ids: set<nat>, order: seq<nat>, id: nat)
    requires Ordered(ids, order)
    ensures Ordered(ids - {id}, Dropped(order, id))
  {
    DroppedMeans(order, id);
    var d := Dropped(order, id);
    assert forall i :: 0 <= i < |d| ==> d[i] in d;
  }

  /** Every operation keeps the pool's books: pinned pages are mapped, counts and usage are exact. */
  lemma DoesKeeps(s: Pool, op: Op, t: Pool)
    requires PoolOk(s) && Does(s, op, t)
    ensures PoolOk(t)
  {
    hide PoolOk, Accounted, Reclaims, Faults, Unpinned, RangeFreed, Dropped, Total;
    match op
    case MakeRoom => RoomKeeps(s, t);
    case Fault(id, offset, size, result, signature) =>
      var r := FaultRange(|s.vbars[id].pages|, offset, size);
      if r.PageRange? { FaultsKeeps(s, t, id, r.first, r.last, result, signature); }
    case Unpin(id, first, last) =>
      VbarIsOk(s, id);
      UnpinnedPagesOk(s.vbars[id], t.vbars[id], first, last, s.nextHandle);
      OnlyVbarKeeps(s, t, id);
    case SetWatermark(id, target, ok) =>
      VbarIsOk(s, id);
      var v := s.vbars[id].(watermark := t.vbars[id].watermark);
      FreedPagesOk(v, t.vbars[id], Least(target, s.vbars[id].watermark), s.vbars[id].watermark, s.nextHandle);
      OnlyVbarKeeps(s, t, id);
    case SetLimit(id, limit) => LimitPool(s, id, limit);
    case Prioritize(id) => PrioritizeKeeps(s, id);
    case Deprioritize(id) => OrderKeeps(s, id);
    case Allocate(size, writable) => AllocateKeeps(s, NewVbar(size, writable));
    case Destroy(id) => ForgetKeeps(s, id);
  }

  lemma VbarIsOk(s: Pool, id: nat)
    requires PoolOk(s) && id in s.vbars
    ensures VbarOk(s.vbars[id], s.nextHandle)
  {}

  lemma PrioritizeKeeps(s: Pool, id: nat)
    requires PoolOk(s) && id in s.vbars
    ensures PoolOk(s.(vbars := s.vbars[id := s.vbars[id].(watermark := |s.vbars[id].pages|)], order := Dropped(s.order, id) + [id]))
  {
    hide PoolOk, Dropped;
    WatermarkPool(s, id, |s.vbars[id].pages|);
    OrderKeeps(s.(vbars := s.vbars[id := s.vbars[id].(watermark := |s.vbars[id].pages|)]), id);
  }

  /** What an unpin does is something a step may do. */
  lemma UnpinnedEvolves(v: Vbar, w: Vbar, first: nat, last: nat)
    requires Unpinned(v, w, first, last)
    ensures VbarEvolves(v, w)
  {
    forall p | 0 <= p < |v.pages| ensures PageEvolves(v.pages[p], w.pages[p]) {
      assert PageReclaims(if first <= p < last then OnePinLess(v.pages[p]) else v.pages[p], w.pages[p]);
    }
  }

  lemma FreedEvolves(v: Vbar, w: Vbar, first: nat, last: nat)
    requires RangeFreed(v, w, first, last)
    ensures VbarEvolves(v, w)
  {
    forall p | 0 <= p < |v.pages| ensures PageEvolves(v.pages[p], w.pages[p]) { assert PageReclaims(v.pages[p], w.pages[p]); }
  }

  lemma OneEvolves(s: Pool, t: Pool, id: nat)
    requires PoolOk(s) && id in s.vbars && id in t.vbars && t.vbars == s.vbars[id := t.vbars[id]]
    requires t.nextId == s.nextId && t.nextHandle == s.nextHandle && VbarEvolves(s.vbars[id], t.vbars[id])
    ensures Evolves(s, t)
  {
    forall j | j in s.vbars && j in t.vbars ensures VbarEvolves(s.vbars[j], t.vbars[j]) {
      if j != id { assert t.vbars[j] == s.vbars[j]; }
    }
  }

  /** Every operation keeps handles with serial numbers: a page changes its handle only by being created anew, unpinned. */
  lemma DoesEvolves(s: Pool, op: Op, t: Pool)
    requires PoolOk(s) && Does(s, op, t)
    ensures Evolves(s, t)
  {
    hide PoolOk, Accounted, Reclaims, Unpinned, RangeFreed, Dropped, Total, Touches, Pins, Signed;
    match op
    case MakeRoom => ReclaimEvolves(s, t);
    case Fault(id, offset, size, result, signature) =>
      var r := FaultRange(|s.vbars[id].pages|, offset, size);
      if r.PageRange? { TouchesEvolves(s, t, id, r.first, r.last); }
    case Unpin(id, first, last) =>
      UnpinnedEvolves(s.vbars[id], t.vbars[id], first, last);
      OneEvolves(s, t, id);
    case SetWatermark(id, target, ok) =>
      FreedEvolves(s.vbars[id].(watermark := t.vbars[id].watermark), t.vbars[id], Least(target, s.vbars[id].watermark), s.vbars[id].watermark);
      OneEvolves(s, t, id);
    case SetLimit(id, limit) =>
    case Prioritize(id) =>
    case Deprioritize(id) =>
    case Allocate(size, writable) => AllocateKeeps(s, NewVbar(size, writable));
    case Destroy(id) =>
  }

  // ---------------------------------------------------------------- runs

  const EMPTY: Pool := Pool(map[], [], 0, 1, 0)

  /** From an empty pool, each state by one operation from the one before. */
  ghost predicate IsRun(states: seq<Pool>, ops: seq<Op>) {
    && |states| == |ops| + 1 && states[0] == EMPTY
    && forall k :: 0 <= k < |ops| ==> Does(states[k], ops[k], states[k + 1])
  }

  /** Every pool that is ever reached is sound, and evolves into the next. */
  lemma {:induction false} RunKeeps(states: seq<Pool>, ops: seq<Op>, k: nat)
    requires IsRun(states, ops) && k <= |ops|
    ensures PoolOk(states[k])
  {
    if k > 0 {
      RunKeeps(states, ops, k - 1);
      hide PoolOk, Does;
      DoesKeeps(states[k - 1], ops[k - 1], states[k]);
    }
  }

  lemma RunEvolves(states: seq<Pool>, ops: seq<Op>)
    requires IsRun(states, ops)
    ensures Evolving(states)
  {
    hide PoolOk, Does, Evolves;
    forall k | 0 <= k < |states| - 1 ensures Evolves(states[k], states[k + 1]) {
      RunKeeps(states, ops, k);
      DoesEvolves(states[k], ops[k], states[k + 1]);
    }
  }

  // ---------------------------------------------------------------- pinned pages stay

  predicate Covers(op: Op, id: nat, p: nat) {
    op.Unpin? && op.id == id && op.first <= p < op.last
  }

  /** How many of the operations from `i` up to `j` give a pin of the page back. */
  function UnpinsOf(ops: seq<Op>, i: nat, j: nat, id: nat, p: nat): nat
    requires i <= j <= |ops|
    decreases j
  {
    if i == j then 0 else UnpinsOf(ops, i, j - 1, id, p) + if Covers(ops[j - 1], id, p) then 1 else 0
  }

  predicate HasPage(s: Pool, id: nat, p: nat) {
    id in s.vbars && p < |s.vbars[id].pages|
  }

  /** Only an unpin of the page takes a pin away, and only one; only destroying the VBAR takes them all. */
  lemma PinsAfter(s: Pool, op: Op, t: Pool, id: nat, p: nat)
    requires PoolOk(s) && Does(s, op, t) && HasPage(s, id, p) && op != Destroy(id)
    ensures HasPage(t, id, p)
    ensures t.vbars[id].pages[p].pins >= s.vbars[id].pages[p].pins - if Covers(op, id, p) then 1 else 0
  {
    hide Accounted, Signed, Dropped, Total, MappedIn;
    match op
    case MakeRoom =>
      assert VbarReclaims(s.vbars[id], t.vbars[id]);
      assert PageReclaims(s.vbars[id].pages[p], t.vbars[id].pages[p]);
    case Fault(j, offset, size, result, signature) =>
      var r := FaultRange(|s.vbars[j].pages|, offset, size);
      if r.PageRange? { PinsAfterFault(s, t, j, r.first, r.last, result, signature, id, p); }
    case Unpin(j, first, last) =>
      if j == id { assert PageReclaims(if first <= p < last then OnePinLess(s.vbars[id].pages[p]) else s.vbars[id].pages[p], t.vbars[id].pages[p]); }
    case SetWatermark(j, target, ok) => if j == id { assert PageReclaims(s.vbars[id].pages[p], t.vbars[id].pages[p]); }
    case _ =>
  }

  lemma PinsAfterFault(s: Pool, t: Pool, j: nat, first: nat, last: nat, result: FaultResult, signature: seq<nat>, id: nat, p: nat)
    requires Faults(s, t, j, first, last, result, signature) && HasPage(s, id, p)
    ensures HasPage(t, id, p) && t.vbars[id].pages[p].pins >= s.vbars[id].pages[p].pins
  {
    var cur := if result.Success? then last else first;
    assert PageFaults(s.vbars[id].pages[p], t.vbars[id].pages[p], id == j && first <= p < cur);
  }

  lemma {:induction false} PinsLast(states: seq<Pool>, ops: seq<Op>, i: nat, j: nat, id: nat, p: nat)
    requires IsRun(states, ops) && i <= j <= |ops| && HasPage(states[i], id, p)
    requires forall k :: i <= k < j ==> ops[k] != Destroy(id)
    ensures HasPage(states[j], id, p)
    ensures states[j].vbars[id].pages[p].pins >= states[i].vbars[id].pages[p].pins - UnpinsOf(ops, i, j, id, p)
    decreases j
  {
    if i < j {
      PinsLast(states, ops, i, j - 1, id, p);
      RunKeeps(states, ops, j - 1);
      hide PoolOk, Does;
      PinsAfter(states[j - 1], ops[j - 1], states[j], id, p);
    }
  }

  lemma {:induction false} UnpinsRise(ops: seq<Op>, i: nat, k: nat, j: nat, id: nat, p: nat)
    requires i <= k <= j <= |ops|
    ensures UnpinsOf(ops, i, k, id, p) <= UnpinsOf(ops, i, j, id, p)
    decreases j
  {
    if k < j { UnpinsRise(ops, i, k, j - 1, id, p); }
  }

  /**
    From any moment of any run: as long as fewer unpins of a page follow than it has pins, and its
    VBAR is not destroyed, the page is mapped, on the same handle.
  */
  lemma {:induction false} PinnedStaysMapped(states: seq<Pool>, ops: seq<Op>, i: nat, j: nat, id: nat, p: nat)
    requires IsRun(states, ops) && i <= j <= |ops| && HasPage(states[i], id, p)
    requires forall k :: i <= k < j ==> ops[k] != Destroy(id)
    requires UnpinsOf(ops, i, j, id, p) < states[i].vbars[id].pages[p].pins
    ensures HasPage(states[j], id, p) && states[j].vbars[id].pages[p].pins > 0
    ensures states[j].vbars[id].pages[p].handle == states[i].vbars[id].pages[p].handle != 0
    decreases j
  {
    hide PoolOk, Does, IsRun;
    IsRunShape(states, ops);
    PinsLast(states, ops, i, j, id, p);
    RunKeeps(states, ops, i);
    PinnedIsMapped(states[i], id, p);
    if i < j {
      UnpinsRise(ops, i, j - 1, j, id, p);
      PinnedStaysMapped(states, ops, i, j - 1, id, p);
      LastStep(states, ops, j - 1);
      PinnedStays(states[j - 1], states[j], id, p);
    }
  }

  lemma LastStep(states: seq<Pool>, ops: seq<Op>, k: nat)
    requires IsRun(states, ops) && k < |ops|
    ensures Evolves(states[k], states[k + 1])
  {
    RunKeeps(states, ops, k);
    hide PoolOk, Does;
    DoesEvolves(states[k], ops[k], states[k + 1]);
  }

  lemma PinnedStays(s: Pool, t: Pool, id: nat, p: nat)
    requires Evolves(s, t) && HasPage(s, id, p) && HasPage(t, id, p)
    requires s.vbars[id].pages[p].pins > 0 && t.vbars[id].pages[p].pins > 0
    ensures t.vbars[id].pages[p].handle == s.vbars[id].pages[p].handle
  {
    assert VbarEvolves(s.vbars[id], t.vbars[id]);
    assert PageEvolves(s.vbars[id].pages[p], t.vbars[id].pages[p]);
  }

  lemma PinnedIsMapped(s: Pool, id: nat, p: nat)
    requires PoolOk(s) && HasPage(s, id, p) && s.vbars[id].pages[p].pins > 0
    ensures s.vbars[id].pages[p].handle != 0
  {
    assert VbarOk(s.vbars[id], s.nextHandle);
  }

  // ---------------------------------------------------------------- denied pages stay absent

  /** The page is absent and denied to faults. */
  predicate Denied(s: Pool, id: nat, p: nat) {
    HasPage(s, id, p) && s.vbars[id].watermark <= p && s.vbars[id].pages[p].handle == 0
  }

  /** The operation may raise the watermark above the page. */
  predicate Reopens(op: Op, id: nat, p: nat) {
    op == Prioritize(id) || (op.SetWatermark? && op.id == id && op.target > p)
  }

  lemma DeniedByFault(s: Pool, t: Pool, j: nat, first: nat, last: nat, result: FaultResult, signature: seq<nat>, id: nat, p: nat)
    requires Faults(s, t, j, first, last, result, signature) && Gated(s, t, j, last, result) && Denied(s, id, p)
    ensures Denied(t, id, p) && t.vbars[id].pages[p].serial == s.vbars[id].pages[p].serial
  {
    assert VbarTouches(s.vbars[id], t.vbars[id], id == j, first, last, s.nextHandle, t.nextHandle);
    assert PageTouches(s.vbars[id].pages[p], t.vbars[id].pages[p], id == j && first <= p < last, s.nextHandle, t.nextHandle);
    if id == j && p < last {
      assert VbarReclaims(s.vbars[id], t.vbars[id]);
      assert PageReclaims(s.vbars[id].pages[p], t.vbars[id].pages[p]);
    }
  }

  /** Only raising the watermark lets a denied page come back. */
  lemma DeniedByStep(s: Pool, op: Op, t: Pool, id: nat, p: nat)
    requires PoolOk(s) && Does(s, op, t) && Denied(s, id, p) && op != Destroy(id) && !Reopens(op, id, p)
    ensures Denied(t, id, p) && t.vbars[id].pages[p].serial == s.vbars[id].pages[p].serial
  {
    hide Accounted, Signed, Dropped, Total, MappedIn;
    match op
    case MakeRoom =>
      assert VbarReclaims(s.vbars[id], t.vbars[id]);
      assert PageReclaims(s.vbars[id].pages[p], t.vbars[id].pages[p]);
    case Fault(j, offset, size, result, signature) =>
      var r := FaultRange(|s.vbars[j].pages|, offset, size);
      if r.PageRange? { DeniedByFault(s, t, j, r.first, r.last, result, signature, id, p); }
    case Unpin(j, first, last) =>
      if j == id { assert PageReclaims(if first <= p < last then OnePinLess(s.vbars[id].pages[p]) else s.vbars[id].pages[p], t.vbars[id].pages[p]); }
    case SetWatermark(j, target, ok) => if j == id { assert PageReclaims(s.vbars[id].pages[p], t.vbars[id].pages[p]); }
    case _ =>
  }

  /**
    From any moment of any run: an absent page at or above its VBAR's watermark is not created by
    any fault until the watermark is raised above it, by setting it or by a prioritization.
  */
  lemma {:induction false} DeniedStaysAbsent(states: seq<Pool>, ops: seq<Op>, i: nat, j: nat, id: nat, p: nat)
    requires IsRun(states, ops) && i <= j <= |ops| && Denied(states[i], id, p)
    requires forall k :: i <= k < j ==> ops[k] != Destroy(id) && !Reopens(ops[k], id, p)
    ensures Denied(states[j], id, p) && states[j].vbars[id].pages[p].serial == states[i].vbars[id].pages[p].serial
    decreases j
  {
    if i < j {
      DeniedStaysAbsent(states, ops, i, j - 1, id, p);
      RunKeeps(states, ops, j - 1);
      hide PoolOk, Does;
      DeniedByStep(states[j - 1], ops[j - 1], states[j], id, p);
    }
  }

  // ---------------------------------------------------------------- signatures

  /** A successful fault left every page of its range mapped, and its signature is their serials. */
  lemma FaultedPages(s: Pool, t: Pool, id: nat, offset: nat, size: nat, signature: seq<nat>)
    requires Does(s, Fault(id, offset, size, Success, signature), t)
    ensures id in s.vbars && id in t.vbars && |t.vbars[id].pages| == |s.vbars[id].pages|
    ensures var r := FaultRange(|t.vbars[id].pages|, offset, size);
      && r.PageRange? && Signed(t.vbars[id], r.first, r.last, signature)
      && forall p :: r.first <= p < r.last ==> t.vbars[id].pages[p].handle != 0
  {
    var r := FaultRange(|s.vbars[id].pages|, offset, size);
    assert Faults(s, t, id, r.first, r.last, Success, signature);
    assert VbarTouches(s.vbars[id], t.vbars[id], id == id, r.first, r.last, s.nextHandle, t.nextHandle);
    forall p: nat | r.first <= p < r.last ensures t.vbars[id].pages[p].handle != 0 {
      assert PageFaults(s.vbars[id].pages[p], t.vbars[id].pages[p], id == id && r.first <= p < r.last);
    }
  }

  /** The page exists in both states and has the same serial in both. */
  predicate SamePage(s: Pool, t: Pool, id: nat, p: nat) {
    HasPage(s, id, p) && HasPage(t, id, p) && t.vbars[id].pages[p].serial == s.vbars[id].pages[p].serial
  }

  /** The page was not created anew between the two states. */
  predicate KeptThroughout(states: seq<Pool>, i: nat, j: nat, id: nat, p: nat) {
    i <= j < |states| && forall k :: i <= k <= j ==> SamePage(states[i], states[k], id, p)
  }

  /** The operation that led to the `k`-th state is a successful fault over the range, with this signature. */
  predicate FaultedTo(ops: seq<Op>, k: nat, id: nat, offset: nat, size: nat, signature: seq<nat>) {
    0 < k <= |ops| && ops[k - 1] == Fault(id, offset, size, Success, signature)
  }

  /**
    Two successful faults of a run over the same range with equal signatures, while serials fit 32
    bits: no page of the range was created anew in between, and every one is mapped to the same
    handle as before.
  */
  lemma EqualSignaturesSamePages(states: seq<Pool>, ops: seq<Op>, i: nat, j: nat, id: nat, offset: nat, size: nat, signature: seq<nat>)
    requires IsRun(states, ops) && i <= j
    requires FaultedTo(ops, i, id, offset, size, signature) && FaultedTo(ops, j, id, offset, size, signature)
    requires forall p: nat :: HasPage(states[j], id, p) ==> states[j].vbars[id].pages[p].serial < SIGNATURE
    ensures id in states[i].vbars && id in states[j].vbars && |states[j].vbars[id].pages| == |states[i].vbars[id].pages|
    ensures var r := FaultRange(|states[i].vbars[id].pages|, offset, size);
      && r.PageRange? && r.last <= |states[i].vbars[id].pages|
      && (forall p: nat :: r.first <= p < r.last ==> KeptThroughout(states, i, j, id, p))
      && (forall p :: r.first <= p < r.last ==> states[j].vbars[id].pages[p].handle == states[i].vbars[id].pages[p].handle != 0)
  {
    hide PoolOk, Does, Evolving, FaultRange, IsRun, Signed;
    RunEvolves(states, ops);
    RunKeeps(states, ops, i);
    IsRunShape(states, ops);
    FaultedState(states, ops, i, id, offset, size, signature);
    FaultedState(states, ops, j, id, offset, size, signature);
    IdIsOld(states[i], id);
    PagesStay(states, i, j, id);
    var r := FaultRange(|states[i].vbars[id].pages|, offset, size);
    SignedInside(states[i].vbars[id], r.first, r.last, signature);
    forall p: nat | r.first <= p < r.last
      ensures states[j].vbars[id].pages[p].handle == states[i].vbars[id].pages[p].handle
      ensures KeptThroughout(states, i, j, id, p)
    {
      SignedAt(states[i].vbars[id], r.first, r.last, signature, p);
      SignedAt(states[j].vbars[id], r.first, r.last, signature, p);
      assert HasPage(states[j], id, p);
      SignedPageStays(states, i, j, id, p, signature[p - r.first]);
    }
  }

  lemma IsRunShape(states: seq<Pool>, ops: seq<Op>)
    requires IsRun(states, ops)
    ensures |states| == |ops| + 1
  {}

  lemma SignedInside(v: Vbar, first: nat, last: nat, signature: seq<nat>)
    requires Signed(v, first, last, signature)
    ensures first <= last <= |v.pages|
  {}

  lemma SignedAt(v: Vbar, first: nat, last: nat, signature: seq<nat>, p: nat)
    requires Signed(v, first, last, signature) && first <= p < last
    ensures p < |v.pages| && p - first < |signature| && signature[p - first] == v.pages[p].serial % SIGNATURE
  {}

  lemma FaultedState(states: seq<Pool>, ops: seq<Op>, k: nat, id: nat, offset: nat, size: nat, signature: seq<nat>)
    requires IsRun(states, ops) && FaultedTo(ops, k, id, offset, size, signature)
    ensures k < |states| && id in states[k].vbars
    ensures var r := FaultRange(|states[k].vbars[id].pages|, offset, size);
      && r.PageRange? && Signed(states[k].vbars[id], r.first, r.last, signature)
      && forall p :: r.first <= p < r.last ==> states[k].vbars[id].pages[p].handle != 0
  {
    assert Does(states[k - 1], ops[k - 1], states[k - 1 + 1]);
    hide Does, FaultRange;
    FaultedPages(states[k - 1], states[k], id, offset, size, signature);
  }

  lemma IdIsOld(s: Pool, id: nat)
    requires PoolOk(s) && id in s.vbars
    ensures id < s.nextId
  {}

  lemma {:induction false} PagesStay(states: seq<Pool>, i: nat, j: nat, id: nat)
    requires Evolving(states) && i <= j < |states| && id in states[i].vbars && id in states[j].vbars && id < states[i].nextId
    ensures |states[j].vbars[id].pages| == |states[i].vbars[id].pages|
    decreases j
  {
    if i < j {
      NextIdRises(states, i, j - 1);
      assert Evolves(states[j - 1], states[j]);
      PagesStay(states, i, j - 1, id);
      assert VbarEvolves(states[j - 1].vbars[id], states[j].vbars[id]);
    }
  }

  /** A mapped page with the same signature entry in two states kept its serial and its handle all the way. */
  lemma SignedPageStays(states: seq<Pool>, i: nat, j: nat, id: nat, p: nat, entry: nat)
    requires Evolving(states) && i <= j < |states| && id < states[i].nextId
    requires HasPage(states[i], id, p) && HasPage(states[j], id, p) && states[j].vbars[id].pages[p].handle != 0
    requires states[i].vbars[id].pages[p].serial % SIGNATURE == entry == states[j].vbars[id].pages[p].serial % SIGNATURE
    requires states[j].vbars[id].pages[p].serial < SIGNATURE
    ensures states[j].vbars[id].pages[p].handle == states[i].vbars[id].pages[p].handle
    ensures KeptThroughout(states, i, j, id, p)
  {
    SerialRises(states, i, j, id, p);
    SmallSerials(states[i].vbars[id].pages[p].serial, states[j].vbars[id].pages[p].serial);
    SameSerialSameHandle(states, i, j, id, p);
    forall k: nat | i <= k <= j ensures SamePage(states[i], states[k], id, p) {
      SerialRises(states, i, k, id, p);
      PagesStay(states, i, k, id);
      SerialRises(states, k, j, id, p);
    }
  }
}
