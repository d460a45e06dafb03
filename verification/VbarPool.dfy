/** The VBARs of a context as the object that reclaim, faults and unpins change in place. */
module VbarPools {
  import opened VbarModel
  import opened VbarOps

  /** How creating and mapping one page goes. */
  datatype Attempt = Maps | OutOfMemory | Breaks

  /** What one absent page of a fault meets: the deficit, two mapping attempts, and the writebacks that fail. */
  datatype PageTry = PageTry(deficit: int, first: Attempt, second: Attempt, stuck: set<(nat, nat)>)

  /** The page cannot be brought in: the driver breaks down, a writeback is stuck, or the last attempt fails. */
  predicate Fails(try: PageTry) {
    if try.deficit <= 0 && try.first.Maps? then false
    else (try.deficit <= 0 && try.first.Breaks?) || try.stuck != {} || !try.second.Maps?
  }

  /** The page is brought in at the first attempt. */
  predicate Easy(try: PageTry) {
    try.deficit <= 0 && try.first.Maps?
  }

  // ---------------------------------------------------------------- freeing one page

  predicate MayFree(v: Vbar, p: nat, doUnpin: bool)
    requires p < |v.pages|
  {
    v.pages[p].handle != 0 && (doUnpin || v.pages[p].pins == 0)
  }

  /** The VBAR after one page was considered for freeing and for unpinning. */
  function WithoutPage(v: Vbar, p: nat, doFree: bool, doUnpin: bool): Vbar
    requires p < |v.pages|
  {
    var frees := doFree && MayFree(v, p, doUnpin);
    var page := v.pages[p].(handle := if frees then 0 else v.pages[p].handle, pins := if doUnpin then 0 else v.pages[p].pins);
    v.(pages := v.pages[p := page], resident := if frees then v.resident - 1 else v.resident)
  }

  /** Lowering a watermark by one page, freeing the page if nobody pins it. */
  function Lowered(v: Vbar): Vbar
    requires 0 < v.watermark <= |v.pages|
  {
    WithoutPage(v, v.watermark - 1, true, false).(watermark := v.watermark - 1)
  }

  lemma LoweredReclaims(v: Vbar, nextHandle: nat)
    requires VbarOk(v, nextHandle) && v.watermark > 0
    ensures VbarReclaims(v, Lowered(v)) && VbarOk(Lowered(v), nextHandle)
    ensures MappedIn(Lowered(v)) == MappedIn(v) - (if MayFree(v, v.watermark - 1, false) then 1 else 0)
  {
    MappedUpdate(v.pages, v.watermark - 1, Lowered(v).pages[v.watermark - 1], |v.pages|);
  }

  /** Whether lowering the watermark frees the page under it. */
  function LowerFrees(v: Vbar): nat
    requires 0 < v.watermark <= |v.pages|
  {
    if MayFree(v, v.watermark - 1, false) then 1 else 0
  }

  function LoweredPool(s: Pool, id: nat): Pool
    requires id in s.vbars && 0 < s.vbars[id].watermark <= |s.vbars[id].pages|
  {
    s.(vbars := s.vbars[id := Lowered(s.vbars[id])], usage := s.usage - PAGE * LowerFrees(s.vbars[id]))
  }

  lemma LoweringReclaims(s: Pool, id: nat)
    requires PoolOk(s) && id in s.vbars && s.vbars[id].watermark > 0
    ensures s.vbars[id].watermark <= |s.vbars[id].pages|
    ensures PoolOk(LoweredPool(s, id)) && Reclaims(s, LoweredPool(s, id))
    ensures Freed(s, LoweredPool(s, id)) == LowerFrees(s.vbars[id])
  {
    assert VbarOk(s.vbars[id], s.nextHandle);
    LoweredReclaims(s.vbars[id], s.nextHandle);
    TotalUpdate(s.vbars, id, Lowered(s.vbars[id]), s.nextId);
  }

  // ---------------------------------------------------------------- a fault in progress

  /** The pages the fault has confirmed so far are pinned once more; only they may have been created. */
  ghost predicate FaultSoFar(s: Pool, t: Pool, id: nat, first: nat, cur: nat) {
    Touches(s, t, id, first, cur) && Pins(s, t, id, first, cur)
  }

  /** Reclaim in the middle of a fault spares every page the fault has confirmed. */
  lemma ReclaimDuringFault(s: Pool, t: Pool, u: Pool, id: nat, first: nat, cur: nat)
    requires FaultSoFar(s, t, id, first, cur) && Reclaims(t, u)
    ensures FaultSoFar(s, u, id, first, cur)
  {
    forall j | j in s.vbars
      ensures VbarTouches(s.vbars[j], u.vbars[j], j == id, first, cur, s.nextHandle, u.nextHandle)
      ensures forall p: nat :: p < |s.vbars[j].pages| ==>
                p < |u.vbars[j].pages| && PageFaults(s.vbars[j].pages[p], u.vbars[j].pages[p], j == id && first <= p < cur)
    {
      forall p: nat | p < |s.vbars[j].pages|
        ensures p < |t.vbars[j].pages| && PageFaults(s.vbars[j].pages[p], t.vbars[j].pages[p], j == id && first <= p < cur)
      {}
      assert VbarReclaims(t.vbars[j], u.vbars[j]);
      ReclaimTouches(s.vbars[j], t.vbars[j], u.vbars[j], j == id, first, cur, s.nextHandle, t.nextHandle);
    }
  }

  lemma ReclaimTouches(v: Vbar, w: Vbar, x: Vbar, target: bool, first: nat, cur: nat, lo: nat, hi: nat)
    requires VbarTouches(v, w, target, first, cur, lo, hi) && VbarReclaims(w, x)
    requires forall p: nat :: p < |v.pages| ==> PageFaults(v.pages[p], w.pages[p], target && first <= p < cur)
    ensures VbarTouches(v, x, target, first, cur, lo, hi)
    ensures forall p: nat :: p < |v.pages| ==> PageFaults(v.pages[p], x.pages[p], target && first <= p < cur)
  {
    forall p: nat | p < |v.pages|
      ensures PageTouches(v.pages[p], x.pages[p], target && first <= p < cur, lo, hi)
      ensures PageFaults(v.pages[p], x.pages[p], target && first <= p < cur)
    {
      assert PageTouches(v.pages[p], w.pages[p], target && first <= p < cur, lo, hi) && PageReclaims(w.pages[p], x.pages[p]);
      assert PageFaults(v.pages[p], w.pages[p], target && first <= p < cur);
    }
  }

  lemma SignatureStays(v: Vbar, w: Vbar, first: nat, cur: nat, signature: seq<nat>)
    requires VbarReclaims(v, w) && Signed(v, first, cur, signature)
    ensures Signed(w, first, cur, signature)
  {
    forall p | first <= p < cur ensures signature[p - first] == w.pages[p].serial % SIGNATURE {
      assert PageReclaims(v.pages[p], w.pages[p]);
    }
  }

  /** The VBAR with one page pinned once more. */
  function Pinned(v: Vbar, p: nat): Vbar
    requires p < |v.pages|
  {
    v.(pages := v.pages[p := v.pages[p].(pins := v.pages[p].pins + 1)])
  }

  /** The VBAR with one absent page created, counted and pinned. */
  function Created(v: Vbar, p: nat, handle: nat): Vbar
    requires p < |v.pages|
  {
    v.(pages := v.pages[p := Page(handle, v.pages[p].pins + 1, v.pages[p].serial + 1)], resident := v.resident + 1)
  }

  /** The pool with one absent page created on a fresh handle and charged. */
  function CreatedPool(t: Pool, id: nat, p: nat): Pool
    requires id in t.vbars && p < |t.vbars[id].pages|
  {
    t.(vbars := t.vbars[id := Created(t.vbars[id], p, t.nextHandle)], usage := t.usage + PAGE, nextHandle := t.nextHandle + 1)
  }

  lemma PinKeeps(t: Pool, id: nat, p: nat)
    requires PoolOk(t) && id in t.vbars && p < |t.vbars[id].pages| && t.vbars[id].pages[p].handle != 0
    ensures PoolOk(t.(vbars := t.vbars[id := Pinned(t.vbars[id], p)]))
  {
    var v := t.vbars[id];
    MappedUpdate(v.pages, p, Pinned(v, p).pages[p], |v.pages|);
    TotalUpdate(t.vbars, id, Pinned(v, p), t.nextId);
  }

  lemma CreateKeeps(t: Pool, id: nat, p: nat)
    requires PoolOk(t) && id in t.vbars && p < |t.vbars[id].pages| && t.vbars[id].pages[p].handle == 0
    ensures PoolOk(CreatedPool(t, id, p))
  {
    var v := t.vbars[id];
    var w := Created(v, p, t.nextHandle);
    MappedUpdate(v.pages, p, w.pages[p], |v.pages|);
    TotalUpdate(t.vbars, id, w, t.nextId);
    forall j | j in t.vbars ensures VbarOk(t.vbars[j], t.nextHandle + 1) { assert VbarOk(t.vbars[j], t.nextHandle); }
    assert VbarOk(w, t.nextHandle + 1);
  }

  /** The VBAR after a fault confirmed a page, found mapped or newly created. */
  function Confirmed(v: Vbar, p: nat, nextHandle: nat): Vbar
    requires p < |v.pages|
  {
    if v.pages[p].handle != 0 then Pinned(v, p) else Created(v, p, nextHandle)
  }

  lemma ConfirmOne(v: Vbar, w: Vbar, first: nat, cur: nat, lo: nat, handle: nat, hi: nat)
    requires VbarOk(v, lo) && VbarTouches(v, w, true, first, cur, lo, handle) && first <= cur < |w.pages| && 0 < lo <= handle <= hi
    requires w.pages[cur].handle == 0 ==> handle < hi
    requires forall p: nat :: p < |v.pages| ==> PageFaults(v.pages[p], w.pages[p], first <= p < cur)
    ensures forall p: nat :: p < |v.pages| ==> PageFaults(v.pages[p], Confirmed(w, cur, handle).pages[p], first <= p < cur + 1)
    ensures VbarTouches(v, Confirmed(w, cur, handle), true, first, cur + 1, lo, hi)
  {
    var x := Confirmed(w, cur, handle);
    forall p: nat | p < |v.pages|
      ensures PageFaults(v.pages[p], x.pages[p], first <= p < cur + 1) && PageTouches(v.pages[p], x.pages[p], first <= p < cur + 1, lo, hi)
    {
      assert PageFaults(v.pages[p], w.pages[p], first <= p < cur);
      assert PageTouches(v.pages[p], w.pages[p], true && first <= p < cur, lo, handle);
    }
  }

  /** Confirming the next page of a fault. */
  lemma ConfirmPage(s: Pool, t: Pool, id: nat, first: nat, cur: nat, usage: int, nextHandle: nat)
    requires PoolOk(s) && FaultSoFar(s, t, id, first, cur) && id in t.vbars && first <= cur < |t.vbars[id].pages|
    requires t.nextHandle <= nextHandle && (t.vbars[id].pages[cur].handle == 0 ==> t.nextHandle < nextHandle)
    ensures FaultSoFar(s, t.(vbars := t.vbars[id := Confirmed(t.vbars[id], cur, t.nextHandle)], usage := usage,
                             nextHandle := nextHandle), id, first, cur + 1)
  {
    var w := Confirmed(t.vbars[id], cur, t.nextHandle);
    var u := t.(vbars := t.vbars[id := w], usage := usage, nextHandle := nextHandle);
    ConfirmFacts(s, t, id, first, cur, nextHandle);
    hide PoolOk, PageFaults, PageTouches, Confirmed;
    forall j | j in s.vbars ensures VbarTouches(s.vbars[j], u.vbars[j], j == id, first, cur + 1, s.nextHandle, u.nextHandle) {
      if j != id { OthersTouched(s, t, j, id, first, cur, nextHandle); }
    }
    forall j, p: nat | j in s.vbars && p < |s.vbars[j].pages|
      ensures p < |u.vbars[j].pages| && PageFaults(s.vbars[j].pages[p], u.vbars[j].pages[p], j == id && first <= p < cur + 1)
    {
      if j != id { assert PageFaults(s.vbars[j].pages[p], t.vbars[j].pages[p], j == id && first <= p < cur); }
    }
  }

  lemma ConfirmFacts(s: Pool, t: Pool, id: nat, first: nat, cur: nat, nextHandle: nat)
    requires PoolOk(s) && FaultSoFar(s, t, id, first, cur) && id in t.vbars && first <= cur < |t.vbars[id].pages|
    requires t.nextHandle <= nextHandle && (t.vbars[id].pages[cur].handle == 0 ==> t.nextHandle < nextHandle)
    ensures id in s.vbars && VbarTouches(s.vbars[id], Confirmed(t.vbars[id], cur, t.nextHandle), true, first, cur + 1, s.nextHandle, nextHandle)
    ensures forall p: nat :: p < |s.vbars[id].pages| ==>
              PageFaults(s.vbars[id].pages[p], Confirmed(t.vbars[id], cur, t.nextHandle).pages[p], first <= p < cur + 1)
  {
    assert VbarOk(s.vbars[id], s.nextHandle);
    assert VbarTouches(s.vbars[id], t.vbars[id], id == id, first, cur, s.nextHandle, t.nextHandle);
    forall p: nat | p < |s.vbars[id].pages| ensures PageFaults(s.vbars[id].pages[p], t.vbars[id].pages[p], first <= p < cur) {
      assert PageFaults(s.vbars[id].pages[p], t.vbars[id].pages[p], id == id && first <= p < cur);
    }
    ConfirmOne(s.vbars[id], t.vbars[id], first, cur, s.nextHandle, t.nextHandle, nextHandle);
  }

  lemma OthersTouched(s: Pool, t: Pool, j: nat, id: nat, first: nat, cur: nat, hi: nat)
    requires Touches(s, t, id, first, cur) && j in s.vbars && j != id && t.nextHandle <= hi
    ensures VbarTouches(s.vbars[j], t.vbars[j], j == id, first, cur + 1, s.nextHandle, hi)
  {
    var v, w := s.vbars[j], t.vbars[j];
    assert VbarTouches(v, w, j == id, first, cur, s.nextHandle, t.nextHandle);
    forall p: nat | p < |v.pages| ensures PageTouches(v.pages[p], w.pages[p], j == id && first <= p < cur + 1, s.nextHandle, hi) {
      assert PageTouches(v.pages[p], w.pages[p], j == id && first <= p < cur, s.nextHandle, t.nextHandle);
    }
  }

  /** Pages may be created anywhere in a wider range. */
  lemma TouchesWider(s: Pool, t: Pool, id: nat, first: nat, cur: nat, last: nat)
    requires Touches(s, t, id, first, cur) && cur <= last
    ensures Touches(s, t, id, first, last)
  {
    forall j | j in s.vbars ensures VbarTouches(s.vbars[j], t.vbars[j], j == id, first, last, s.nextHandle, t.nextHandle) {
      assert VbarTouches(s.vbars[j], t.vbars[j], j == id, first, cur, s.nextHandle, t.nextHandle);
      forall p: nat | p < |s.vbars[j].pages|
        ensures PageTouches(s.vbars[j].pages[p], t.vbars[j].pages[p], j == id && first <= p < last, s.nextHandle, t.nextHandle)
      {
        assert PageTouches(s.vbars[j].pages[p], t.vbars[j].pages[p], j == id && first <= p < cur, s.nextHandle, t.nextHandle);
      }
    }
  }

  // ---------------------------------------------------------------- surplus spent on absent pages

  lemma {:induction false} AbsentRises(pages: seq<Page>, a: nat, b: nat)
    requires a <= b <= |pages|
    ensures Absent(pages, a) <= Absent(pages, b)
    decreases b
  {
    if a < b { AbsentRises(pages, a, b - 1); }
  }

  lemma {:induction false} AbsentSame(v: seq<Page>, w: seq<Page>, k: nat)
    requires k <= |v| == |w| && forall p :: 0 <= p < k ==> w[p] == v[p]
    ensures Absent(v, k) == Absent(w, k)
  {
    if k > 0 { AbsentSame(v, w, k - 1); }
  }

  /** The first `k` VBARs in order have nothing above their limits left to lower. */
  predicate AtLimits(vbars: map<nat, Vbar>, order: seq<nat>, k: nat)
    requires k <= |order|
  {
    forall j :: 0 <= j < k ==> order[j] in vbars && vbars[order[j]].watermark <= vbars[order[j]].limit
  }

  lemma AtLimitsNone(vbars: map<nat, Vbar>, order: seq<nat>)
    ensures AtLimits(vbars, order, 0)
  {}

  lemma AtLimitsMore(v: map<nat, Vbar>, w: map<nat, Vbar>, order: seq<nat>, i: nat)
    requires Ordered(v.Keys, order) && i < |order| && AtLimits(v, order, i)
    requires order[i] in w && w == v[order[i] := w[order[i]]] && w[order[i]].watermark <= w[order[i]].limit
    ensures AtLimits(w, order, i + 1)
  {}

  /** The first `k` VBARs in order that may be touched are at their limits. */
  predicate Settled(vbars: map<nat, Vbar>, order: seq<nat>, k: nat, preserved: nat, allowPageout: bool)
    requires k <= |order| && forall i :: 0 <= i < |order| ==> order[i] in vbars
  {
    forall j :: 0 <= j < k && order[j] != preserved && (allowPageout || !vbars[order[j]].writable) ==>
      vbars[order[j]].watermark <= vbars[order[j]].limit
  }

  lemma SettledNone(vbars: map<nat, Vbar>, order: seq<nat>, preserved: nat, allowPageout: bool)
    requires forall i :: 0 <= i < |order| ==> order[i] in vbars
    ensures Settled(vbars, order, 0, preserved, allowPageout)
  {}

  lemma SettledMore(v: map<nat, Vbar>, w: map<nat, Vbar>, order: seq<nat>, i: nat, preserved: nat, allowPageout: bool)
    requires Ordered(v.Keys, order) && w.Keys == v.Keys && i < |order|
    requires Settled(v, order, i, preserved, allowPageout) && w == v[order[i] := w[order[i]]]
    requires order[i] != preserved && (allowPageout || !v[order[i]].writable) ==> w[order[i]].watermark <= w[order[i]].limit
    requires w[order[i]].writable == v[order[i]].writable
    ensures Settled(w, order, i + 1, preserved, allowPageout)
  {}

  /** What reclaim must leave alone: a preserved VBAR, and writable ones when nothing may be written back. */
  function Exempt(vbars: map<nat, Vbar>, preserved: nat, allowPageout: bool): set<nat> {
    set id | id in vbars && (id == preserved || (!allowPageout && vbars[id].writable))
  }

  predicate Listed(vbars: map<nat, Vbar>, order: seq<nat>) {
    forall i :: 0 <= i < |order| ==> order[i] in vbars
  }

  /**
    Reclaim went through the first `n` VBARs from the lowest priority up: whatever lies beyond is
    untouched, exempt ones are untouched, and none was touched before every lower one was at its limit.
  */
  predicate InTurn(s: map<nat, Vbar>, t: map<nat, Vbar>, order: seq<nat>, n: nat, exempt: set<nat>) {
    && Listed(s, order) && Listed(t, order) && n <= |order|
    && (forall j :: 0 <= j < |order| && (j >= n || order[j] in exempt) ==> t[order[j]] == s[order[j]])
    && (forall i, j :: 0 <= i < j < n && t[order[j]] != s[order[j]] && order[i] !in exempt ==>
          t[order[i]].watermark <= t[order[i]].limit)
  }

  lemma OrderIsListed(vbars: map<nat, Vbar>, order: seq<nat>)
    requires Ordered(vbars.Keys, order)
    ensures Listed(vbars, order)
  {}

  lemma NotExempt(vbars: map<nat, Vbar>, id: nat, preserved: nat, allowPageout: bool)
    requires id in vbars && id != preserved && (allowPageout || !vbars[id].writable)
    ensures id !in Exempt(vbars, preserved, allowPageout)
  {}

  lemma InTurnNone(s: map<nat, Vbar>, order: seq<nat>, exempt: set<nat>)
    requires Ordered(s.Keys, order)
    ensures InTurn(s, s, order, 0, exempt)
  {}

  /** The next VBAR is left alone, or lowered after all that come before it. */
  lemma InTurnMore(s: map<nat, Vbar>, t: map<nat, Vbar>, u: map<nat, Vbar>, order: seq<nat>, i: nat, exempt: set<nat>)
    requires InTurn(s, t, order, i, exempt) && Ordered(t.Keys, order) && i < |order|
    requires order[i] in u && u == t[order[i] := u[order[i]]]
    requires u == t || (order[i] !in exempt &&
                        forall j :: 0 <= j < i && order[j] !in exempt ==> t[order[j]].watermark <= t[order[j]].limit)
    ensures InTurn(s, u, order, i + 1, exempt)
  {
    forall j | 0 <= j < |order| && j != i ensures order[j] in u && u[order[j]] == t[order[j]] { assert order[j] != order[i]; }
  }

  lemma InTurnAll(s: map<nat, Vbar>, t: map<nat, Vbar>, order: seq<nat>, n: nat, exempt: set<nat>)
    requires InTurn(s, t, order, n, exempt)
    ensures InTurn(s, t, order, |order|, exempt)
  {}

  lemma SettledAtLimits(vbars: map<nat, Vbar>, order: seq<nat>, k: nat, preserved: nat, allowPageout: bool)
    requires k <= |order| && Listed(vbars, order) && Settled(vbars, order, k, preserved, allowPageout)
    ensures forall j :: 0 <= j < k && order[j] !in Exempt(vbars, preserved, allowPageout) ==>
              vbars[order[j]].watermark <= vbars[order[j]].limit
  {}

  lemma SameExempt(s: map<nat, Vbar>, t: map<nat, Vbar>, preserved: nat, allowPageout: bool)
    requires t.Keys == s.Keys && forall id :: id in s ==> t[id].writable == s[id].writable
    ensures Exempt(t, preserved, allowPageout) == Exempt(s, preserved, allowPageout)
  {}

  lemma FreedNothing(s: Pool)
    ensures Reclaims(s, s) && Freed(s, s) == 0
  {}

  lemma FreedTwice(s: Pool, t: Pool, u: Pool)
    requires Reclaims(s, t) && Reclaims(t, u)
    ensures Reclaims(s, u) && Freed(s, u) == Freed(s, t) + Freed(t, u) && u.vbars.Keys == s.vbars.Keys
    ensures forall id :: id in t.vbars ==> u.vbars[id].writable == t.vbars[id].writable
  {
    ReclaimsTwice(s, t, u);
    forall id | id in t.vbars ensures u.vbars[id].writable == t.vbars[id].writable {
      assert VbarReclaims(t.vbars[id], u.vbars[id]);
    }
  }

  /** What was spent is what the absent pages before the cursor cost, out of the surplus and what was freed. */
  ghost predicate Paid(s: Pool, t: Pool, m: nat, cursor: nat, before: int, surplus: int) {
    && m in s.vbars && m in t.vbars && cursor <= |s.vbars[m].pages|
    && surplus + PAGE * Absent(s.vbars[m].pages, cursor) == before + PAGE * Freed(s, t)
    && (cursor < t.vbars[m].watermark <= |t.vbars[m].pages| ==> t.vbars[m].pages[cursor].handle == 0)
  }

  /** Below the current watermark nothing was freed, so spending there is counted against the pages at the start. */
  lemma SpentIsPaid(s: Pool, t: Pool, m: nat, cursor: nat, before: int, surplus: int, cursor': nat, surplus': int)
    requires PoolOk(t) && Reclaims(s, t) && m in s.vbars && cursor <= cursor' <= |t.vbars[m].pages| == |s.vbars[m].pages|
    requires surplus + PAGE * Absent(s.vbars[m].pages, cursor) == before + PAGE * Freed(s, t)
    requires surplus' + PAGE * Absent(t.vbars[m].pages, cursor') == surplus + PAGE * Absent(t.vbars[m].pages, cursor)
    requires cursor' == cursor || cursor' <= t.vbars[m].watermark
    requires cursor' < t.vbars[m].watermark ==> t.vbars[m].pages[cursor'].handle == 0
    ensures Paid(s, t, m, cursor', before, surplus')
  {
    assert VbarReclaims(s.vbars[m], t.vbars[m]);
    if cursor' != cursor {
      AbsentSame(s.vbars[m].pages, t.vbars[m].pages, cursor);
      AbsentSame(s.vbars[m].pages, t.vbars[m].pages, cursor');
    }
  }

  /** A freed page adds its size to the surplus; the cursor's page is still absent if it is still below the watermark. */
  lemma FreedIsPaid(s: Pool, t: Pool, u: Pool, m: nat, cursor: nat, before: int, surplus: int, r: int)
    requires PoolOk(t) && PoolOk(u) && Reclaims(s, t) && Reclaims(t, u) && Freed(t, u) == r
    requires Paid(s, t, m, cursor, before, surplus)
    ensures Paid(s, u, m, cursor, before, surplus + PAGE * r)
  {
    FreedTwice(s, t, u);
    assert VbarReclaims(t.vbars[m], u.vbars[m]) && VbarOk(u.vbars[m], u.nextHandle);
  }

  /** With the surplus not negative and the cursor past its goal, every absent page below the goal is covered. */
  lemma PaidCovers(s: Pool, t: Pool, m: nat, cursor: nat, before: int, surplus: int, target: nat)
    requires Reclaims(s, t) && Paid(s, t, m, cursor, before, surplus) && surplus >= 0
    requires cursor >= target || cursor >= t.vbars[m].watermark
    requires t.vbars[m].watermark <= |t.vbars[m].pages|
    ensures before + PAGE * Freed(s, t) >= 0 && Least(target, t.vbars[m].watermark) <= |s.vbars[m].pages|
    ensures PAGE * Absent(s.vbars[m].pages, Least(target, t.vbars[m].watermark)) <= before + PAGE * Freed(s, t)
  {
    assert VbarReclaims(s.vbars[m], t.vbars[m]);
    AbsentRises(s.vbars[m].pages, Least(target, t.vbars[m].watermark), cursor);
  }

  /** More is asked for: the surplus is overdrawn, or an absent page below the goal is still to be paid for. */
  predicate Presses(t: Pool, m: nat, target: nat, cursor: nat, surplus: int) {
    m in t.vbars && ((cursor < target && cursor < t.vbars[m].watermark) || surplus < 0)
  }

  /** Nothing happened yet. */
  predicate AtStart(i: nat, s: Pool, t: Pool, start: nat, cursor: nat, before: int, surplus: int, ok: bool) {
    i == 0 && t == s && cursor == start && surplus == before && ok
  }

  lemma BeginsAtStart(s: Pool, start: nat, before: int)
    ensures AtStart(0, s, s, start, start, before, before, true)
  {}

  lemma PoolIsOrdered(s: Pool)
    requires PoolOk(s)
    ensures Ordered(s.vbars.Keys, s.order)
  {}

  lemma YieldedInTurn(s: map<nat, Vbar>, t: map<nat, Vbar>, u: map<nat, Vbar>, order: seq<nat>, i: nat)
    requires InTurn(s, t, order, i, {}) && Ordered(t.Keys, order) && i < |order| && AtLimits(t, order, i)
    requires order[i] in u && u == t[order[i] := u[order[i]]]
    ensures InTurn(s, u, order, i + 1, {}) && InTurn(s, u, order, |order|, {})
  {
    InTurnMore(s, t, u, order, i, {});
    InTurnAll(s, u, order, i + 1, {});
  }

  lemma OrderNames(ids: set<nat>, order: seq<nat>, i: nat)
    requires Ordered(ids, order) && i < |order|
    ensures order[i] in ids
  {}

  lemma StartsPressed(i: nat, s: Pool, t: Pool, m: nat, target: nat, start: nat, cursor: nat, before: int, surplus: int, ok: bool)
    requires AtStart(i, s, t, start, cursor, before, surplus, ok) || Presses(s, m, target, start, before)
    requires m in t.vbars && ((cursor < target && cursor < t.vbars[m].watermark) || surplus < 0)
    ensures Presses(s, m, target, start, before)
  {}

  lemma StillAtStart(i: nat, s: Pool, t: Pool, m: nat, target: nat, start: nat, cursor: nat, before: int, surplus: int, ok: bool)
    requires AtStart(i, s, t, start, cursor, before, surplus, ok) || Presses(s, m, target, start, before)
    ensures !Presses(s, m, target, start, before) ==> ok && t == s
  {}

  /** The budget and the freed pages are not overdrawn and cover every absent page below the goal. */
  ghost predicate Covered(s: Pool, t: Pool, m: nat, target: nat, budget: int) {
    && m in s.vbars && m in t.vbars && Least(target, t.vbars[m].watermark) <= |s.vbars[m].pages|
    && budget + PAGE * Freed(s, t) >= 0
    && PAGE * Absent(s.vbars[m].pages, Least(target, t.vbars[m].watermark)) <= budget + PAGE * Freed(s, t)
  }

  lemma CoversAtEnd(s: Pool, t: Pool, m: nat, cursor: nat, budget: int, surplus: int, target: nat)
    requires PoolOk(t) && Reclaims(s, t) && Paid(s, t, m, cursor, budget, surplus) && surplus >= 0
    requires cursor >= target || cursor >= t.vbars[m].watermark
    ensures Covered(s, t, m, target, budget)
  {
    assert VbarOk(t.vbars[m], t.nextHandle);
    PaidCovers(s, t, m, cursor, budget, surplus, target);
  }

  // ---------------------------------------------------------------- the pool

  class VbarPool {
    var vbars: map<nat, Vbar>
    var order: seq<nat>
    var usage: int
    var nextHandle: nat
    var nextId: nat

    ghost function State(): Pool
      reads this
    {
      Pool(vbars, order, usage, nextHandle, nextId)
    }

    constructor ()
      ensures PoolOk(State()) && State() == EMPTY
    {
      vbars, order, usage, nextHandle, nextId := map[], [], 0, 1, 0;
    }

    /**
      Considers one page for freeing and for unpinning: -1 when its writeback failed, 1 when it
      was freed, 0 when it stays.
    */
    method FreePage(id: nat, p: nat, doFree: bool, doUnpin: bool, saved: bool) returns (r: int)
      requires id in vbars && p < |vbars[id].pages|
      modifies this`vbars, this`usage
      ensures r == if !doFree || !MayFree(old(vbars)[id], p, doUnpin) then 0 else if old(vbars)[id].writable && !saved then -1 else 1
      ensures r < 0 ==> vbars == old(vbars) && usage == old(usage)
      ensures r >= 0 ==> vbars == old(vbars)[id := WithoutPage(old(vbars)[id], p, doFree, doUnpin)] && usage == old(usage) - PAGE * r
    {
      var v := vbars[id];
      var page := v.pages[p];
      r := 0;
      if doFree && page.handle != 0 && (doUnpin || page.pins == 0) {
        if v.writable && !saved {
          return -1;
        }
        page := page.(handle := 0);
        v := v.(resident := v.resident - 1);
        usage := usage - PAGE;
        r := 1;
      }
      if doUnpin {
        page := page.(pins := 0);
      }
      vbars := vbars[id := v.(pages := v.pages[p := page])];
    }

    /** Frees the page under the watermark if it can be freed, and lowers the watermark past it. */
    method LowerTop(id: nat, saved: bool) returns (r: int)
      requires id in vbars && 0 < vbars[id].watermark <= |vbars[id].pages|
      modifies this`vbars, this`usage
      ensures -1 <= r <= 1 && (r < 0 ==> !saved && State() == old(State()))
      ensures r >= 0 ==> State() == LoweredPool(old(State()), id) && r == LowerFrees(old(vbars)[id])
    {
      var top := vbars[id].watermark - 1;
      r := FreePage(id, top, true, false, saved);
      if r >= 0 {
        vbars := vbars[id := vbars[id].(watermark := top)];
        assert vbars == old(vbars)[id := Lowered(old(vbars)[id])];
      }
    }

    /** One step of reclaim, as the pool sees it. */
    method LowerWatermark(id: nat, stuck: set<(nat, nat)>) returns (r: int)
      requires PoolOk(State()) && id in vbars && vbars[id].watermark > vbars[id].limit
      modifies this`vbars, this`usage
      ensures -1 <= r <= 1 && (r < 0 ==> State() == old(State()) && (id, vbars[id].watermark - 1) in stuck)
      ensures r >= 0 ==> PoolOk(State()) && Reclaims(old(State()), State()) && Freed(old(State()), State()) == r
      ensures r >= 0 ==> vbars == old(vbars)[id := vbars[id]] && vbars[id].watermark == old(vbars)[id].watermark - 1
    {
      LoweringReclaims(State(), id);
      hide PoolOk, Reclaims, Freed;
      r := LowerTop(id, (id, vbars[id].watermark - 1) !in stuck);
    }

    /** Lowers one VBAR's watermark until enough pages were freed or its limit is reached. */
    method ShrinkVbar(id: nat, needed: nat, stuck: set<(nat, nat)>) returns (left: nat, ok: bool)
      requires PoolOk(State()) && id in vbars
      modifies this`vbars, this`usage
      ensures PoolOk(State()) && Reclaims(old(State()), State()) && vbars == old(vbars)[id := vbars[id]]
      ensures left == needed - Freed(old(State()), State())
      ensures ok ==> left == 0 || vbars[id].watermark <= vbars[id].limit
      ensures !ok ==> exists p :: (id, p) in stuck
    {
      left, ok := needed, true;
      ghost var s := State();
      ReclaimsNothing(s);
      hide PoolOk, Reclaims, Total;
      while left > 0 && vbars[id].watermark > vbars[id].limit
        invariant PoolOk(State()) && Reclaims(s, State()) && id in vbars && vbars == s.vbars[id := vbars[id]]
        invariant left == needed - Freed(s, State())
        decreases vbars[id].watermark
      {
        ghost var t := State();
        var freed := LowerWatermark(id, stuck);
        if freed < 0 {
          return left, false;
        }
        ReclaimsTwice(s, t, State());
        left := left - freed;
      }
    }

    /** Frees pages in priority order until enough are freed or every VBAR that may be touched is at its limit. */
    method FreePages(needed: nat, preserved: nat, allowPageout: bool, stuck: set<(nat, nat)>) returns (left: nat, ok: bool)
      requires PoolOk(State())
      modifies this`vbars, this`usage
      ensures PoolOk(State()) && Reclaims(old(State()), State()) && left == needed - Freed(old(State()), State())
      ensures ok && left > 0 ==> vbars.Keys == old(vbars).Keys && (forall i :: 0 <= i < |order| ==> order[i] in vbars) &&
                                 Settled(vbars, order, |order|, preserved, allowPageout)
      ensures !ok ==> stuck != {}
      ensures InTurn(old(vbars), vbars, order, |order|, Exempt(old(vbars), preserved, allowPageout))
    {
      hide PoolOk, Ordered, Reclaims, Freed, Settled, InTurn, Exempt;
      left, ok := needed, true;
      ghost var s, exempt := State(), Exempt(vbars, preserved, allowPageout);
      FreedNothing(s);
      PoolIsOrdered(s);
      InTurnNone(vbars, order, exempt);
      OrderIsListed(vbars, order);
      SettledNone(vbars, order, preserved, allowPageout);
      for i := 0 to |order|
        invariant PoolOk(State()) && Reclaims(s, State()) && left == needed - Freed(s, State())
        invariant vbars.Keys == s.vbars.Keys && Ordered(vbars.Keys, order) && Listed(vbars, order)
        invariant left > 0 ==> Settled(vbars, order, i, preserved, allowPageout)
        invariant InTurn(s.vbars, vbars, order, i, exempt) && exempt == Exempt(vbars, preserved, allowPageout)
      {
        ghost var t := State();
        if left > 0 && order[i] != preserved && (allowPageout || !vbars[order[i]].writable) {
          NotExempt(vbars, order[i], preserved, allowPageout);
          SettledAtLimits(vbars, order, i, preserved, allowPageout);
          left, ok := ShrinkVbar(order[i], left, stuck);
          FreedTwice(s, t, State());
          SameExempt(t.vbars, vbars, preserved, allowPageout);
          InTurnMore(s.vbars, t.vbars, vbars, order, i, exempt);
          if !ok {
            InTurnAll(s.vbars, vbars, order, i + 1, exempt);
            return left, false;
          }
        } else {
          assert vbars == vbars[order[i] := vbars[order[i]]];
          InTurnMore(s.vbars, vbars, vbars, order, i, exempt);
        }
        if left > 0 { SettledMore(t.vbars, vbars, order, i, preserved, allowPageout); }
      }
    }

    /**
      Frees `size` bytes' worth of pages, lowest priority first, never a pinned page: all that was
      asked for, or everything above the limits of the VBARs that may be touched.
    */
    method FreeInternal(size: int, preserved: nat, allowPageout: bool, stuck: set<(nat, nat)>) returns (ok: bool)
      requires PoolOk(State())
      modifies this`vbars, this`usage
      ensures PoolOk(State()) && Reclaims(old(State()), State()) && Does(old(State()), MakeRoom, State())
      ensures size <= 0 ==> ok && State() == old(State())
      ensures ok && size > 0 ==>
                || Freed(old(State()), State()) == (size + PAGE - 1) / PAGE
                || (Freed(old(State()), State()) < (size + PAGE - 1) / PAGE && (forall i :: 0 <= i < |order| ==> order[i] in vbars) &&
                    Settled(vbars, order, |order|, preserved, allowPageout))
      ensures !ok ==> stuck != {}
      ensures size > 0 ==> InTurn(old(vbars), vbars, order, |order|, Exempt(old(vbars), preserved, allowPageout))
    {
      hide PoolOk, Reclaims, Freed, Settled, Accounted, InTurn, Exempt;
      ghost var s := State();
      ReclaimsNothing(s);
      SoundIsAccounted(s, s);
      if size <= 0 {
        return true;
      }
      var left: nat;
      left, ok := FreePages((size + PAGE - 1) / PAGE, preserved, allowPageout, stuck);
      SoundIsAccounted(s, State());
    }

    /** The first absent page below the watermark from the cursor on. */
    method MoveCursor(id: nat, start: nat) returns (cursor: nat)
      requires id in vbars && vbars[id].watermark <= |vbars[id].pages| && start <= |vbars[id].pages|
      ensures start <= cursor <= |vbars[id].pages| && Absent(vbars[id].pages, cursor) == Absent(vbars[id].pages, start)
      ensures cursor < vbars[id].watermark ==> vbars[id].pages[cursor].handle == 0
      ensures cursor == start || cursor <= vbars[id].watermark
    {
      cursor := start;
      while cursor < vbars[id].watermark && vbars[id].pages[cursor].handle != 0
        invariant start <= cursor <= |vbars[id].pages| && Absent(vbars[id].pages, cursor) == Absent(vbars[id].pages, start)
        invariant cursor == start || cursor <= vbars[id].watermark
        decreases vbars[id].watermark - cursor
      {
        cursor := cursor + 1;
      }
    }

    /** Pays for one absent page after another while the surplus lasts. */
    method SpendSurplus(id: nat, target: nat, start: nat, before: int) returns (cursor: nat, surplus: int)
      requires id in vbars && vbars[id].watermark <= |vbars[id].pages| && start <= |vbars[id].pages|
      requires start < vbars[id].watermark ==> vbars[id].pages[start].handle == 0
      ensures start <= cursor <= |vbars[id].pages| && (before >= 0 ==> surplus >= 0) && (before < 0 ==> surplus == before)
      ensures surplus + PAGE * Absent(vbars[id].pages, cursor) == before + PAGE * Absent(vbars[id].pages, start)
      ensures cursor < vbars[id].watermark ==> vbars[id].pages[cursor].handle == 0
      ensures cursor == start || cursor <= vbars[id].watermark
      ensures surplus < PAGE || cursor >= target || cursor >= vbars[id].watermark
    {
      cursor, surplus := start, before;
      while surplus >= PAGE && cursor < target && cursor < vbars[id].watermark
        invariant start <= cursor <= |vbars[id].pages| && (before >= 0 ==> surplus >= 0) && (before < 0 ==> surplus == before)
        invariant surplus + PAGE * Absent(vbars[id].pages, cursor) == before + PAGE * Absent(vbars[id].pages, start)
        invariant cursor < vbars[id].watermark ==> vbars[id].pages[cursor].handle == 0
        invariant cursor == start || cursor <= vbars[id].watermark
        decreases |vbars[id].pages| - cursor
      {
        surplus := surplus - PAGE;
        assert Absent(vbars[id].pages, cursor + 1) == Absent(vbars[id].pages, cursor) + 1;
        cursor := MoveCursor(id, cursor + 1);
      }
    }

    /** One VBAR's part of making room: lowers it while the surplus does not yet cover the goal. */
    method YieldVbar(id: nat, m: nat, target: nat, start: nat, before: int, stuck: set<(nat, nat)>, ghost s: Pool, ghost first: int)
      returns (cursor: nat, surplus: int, ok: bool)
      requires PoolOk(State()) && id in vbars && m in vbars && Reclaims(s, State()) && Paid(s, State(), m, start, first, before)
      modifies this`vbars, this`usage
      ensures PoolOk(State()) && Reclaims(s, State()) && Paid(s, State(), m, cursor, first, surplus)
      ensures vbars == old(vbars)[id := vbars[id]] && id in vbars && m in vbars
      ensures ok ==> vbars[id].watermark <= vbars[id].limit ||
                     (surplus >= 0 && (cursor >= target || cursor >= vbars[m].watermark))
      ensures vbars[id].limit == old(vbars)[id].limit
      ensures !ok ==> exists p :: (id, p) in stuck
    {
      cursor, surplus, ok := start, before, true;
      hide PoolOk, Reclaims, Paid, Freed;
      while ((cursor < target && cursor < vbars[m].watermark) || surplus < 0) && vbars[id].watermark > vbars[id].limit
        invariant PoolOk(State()) && Reclaims(s, State()) && Paid(s, State(), m, cursor, first, surplus)
        invariant id in vbars && m in vbars && vbars == old(vbars)[id := vbars[id]] && vbars[id].limit == old(vbars)[id].limit
        decreases vbars[id].watermark
      {
        ghost var t := State();
        var r := LowerWatermark(id, stuck);
        if r < 0 {
          return cursor, surplus, false;
        }
        FreedTwice(s, t, State());
        FreedIsPaid(s, t, State(), m, cursor, first, surplus, r);
        SameLimit(t, State(), id);
        if r > 0 {
          cursor, surplus := PayMore(m, target, cursor, surplus + PAGE, s, first);
        }
      }
    }

    /**
      Makes room for the absent pages of one VBAR below a target.  Unless a writeback fails, it
      ends with every VBAR at its limit, or with a surplus that is not negative and, together with
      the freed pages, has covered every absent page below the target and the watermark.
    */
    method FreeForVbar(m: nat, target: nat, budget: int, stuck: set<(nat, nat)>) returns (ok: bool)
      requires PoolOk(State()) && m in vbars
      modifies this`vbars, this`usage
      ensures PoolOk(State()) && Reclaims(old(State()), State()) && m in vbars && Does(old(State()), MakeRoom, State())
      ensures ok ==> AtLimits(vbars, order, |order|) || Covered(old(State()), State(), m, target, budget)
      ensures !ok ==> stuck != {}
      ensures target <= |old(vbars)[m].pages| && budget >= PAGE * Absent(old(vbars)[m].pages, target) ==> ok && State() == old(State())
      ensures InTurn(old(vbars), vbars, order, |order|, {})
    {
      ghost var s := State();
      var cursor: nat;
      var surplus: int;
      cursor, surplus := StartPaying(m, target, budget);
      FreedNothing(s);
      hide PoolOk, Reclaims, Paid, Freed, Accounted, InTurn;
      cursor, surplus, ok := YieldAll(m, target, cursor, surplus, stuck, s, budget);
      SoundIsAccounted(s, State());
      if surplus >= 0 && (cursor >= target || cursor >= vbars[m].watermark) {
        CoversAtEnd(s, State(), m, cursor, budget, surplus, target);
      }
    }

    method YieldAll(m: nat, target: nat, start: nat, before: int, stuck: set<(nat, nat)>, ghost s: Pool, ghost first: int)
      returns (cursor: nat, surplus: int, ok: bool)
      requires PoolOk(State()) && m in vbars && Reclaims(s, State()) && Paid(s, State(), m, start, first, before)
      modifies this`vbars, this`usage
      ensures PoolOk(State()) && Reclaims(s, State()) && Paid(s, State(), m, cursor, first, surplus) && m in vbars
      ensures ok ==> AtLimits(vbars, order, |order|) || (surplus >= 0 && (cursor >= target || cursor >= vbars[m].watermark))
      ensures !ok ==> stuck != {}
      ensures !Presses(old(State()), m, target, start, before) ==> ok && State() == old(State())
      ensures InTurn(old(vbars), vbars, order, |order|, {})
    {
      hide PoolOk, Ordered, Reclaims, Paid, Freed, AtLimits, AtStart, Presses, InTurn;
      cursor, surplus, ok := start, before, true;
      ghost var t0 := State();
      PoolIsOrdered(t0);
      InTurnNone(vbars, order, {});
      BeginsAtStart(t0, start, before);
      var i := 0;
      AtLimitsNone(vbars, order);
      while i < |order| && ((cursor < target && cursor < vbars[m].watermark) || surplus < 0)
        invariant i <= |order| && PoolOk(State()) && Reclaims(s, State()) && Paid(s, State(), m, cursor, first, surplus)
        invariant m in vbars && Ordered(vbars.Keys, order)
        invariant AtLimits(vbars, order, i) || (surplus >= 0 && (cursor >= target || cursor >= vbars[m].watermark))
        invariant AtStart(i, t0, State(), start, cursor, before, surplus, ok) || Presses(t0, m, target, start, before)
        invariant InTurn(t0.vbars, vbars, order, i, {})
      {
        ghost var t := State();
        OrderNames(t.vbars.Keys, order, i);
        StartsPressed(i, t0, t, m, target, start, cursor, before, surplus, ok);
        cursor, surplus, ok := YieldVbar(order[i], m, target, cursor, surplus, stuck, s, first);
        PoolIsOrdered(State());
        YieldedInTurn(t0.vbars, t.vbars, vbars, order, i);
        if !ok {
          return;
        }
        if vbars[order[i]].watermark <= vbars[order[i]].limit { AtLimitsMore(t.vbars, vbars, order, i); }
        i := i + 1;
      }
      StillAtStart(i, t0, State(), m, target, start, cursor, before, surplus, ok);
      InTurnAll(t0.vbars, vbars, order, i, {});
    }

    method StartPaying(m: nat, target: nat, budget: int) returns (cursor: nat, surplus: int)
      requires PoolOk(State()) && m in vbars
      ensures Paid(State(), State(), m, cursor, budget, surplus)
      ensures target <= |vbars[m].pages| && budget >= PAGE * Absent(vbars[m].pages, target) ==>
                !Presses(State(), m, target, cursor, surplus)
    {
      assert VbarOk(vbars[m], nextHandle);
      cursor := MoveCursor(m, 0);
      cursor, surplus := SpendSurplus(m, target, cursor, budget);
      if cursor < target <= |vbars[m].pages| && cursor < vbars[m].watermark {
        AbsentRises(vbars[m].pages, cursor + 1, target);
        assert Absent(vbars[m].pages, cursor + 1) == Absent(vbars[m].pages, cursor) + 1;
      }
    }

    method PayMore(m: nat, target: nat, start: nat, before: int, ghost s: Pool, ghost first: int) returns (cursor: nat, surplus: int)
      requires PoolOk(State()) && m in vbars && Reclaims(s, State()) && Paid(s, State(), m, start, first, before)
      ensures Paid(s, State(), m, cursor, first, surplus)
    {
      assert VbarOk(vbars[m], nextHandle);
      assert VbarReclaims(s.vbars[m], vbars[m]);
      cursor, surplus := SpendSurplus(m, target, start, before);
      SpentIsPaid(s, State(), m, start, first, before, cursor, surplus);
    }

    // ---------------------------------------------------------------- faults

    /** Takes back the pins a fault has set so far; what it mapped stays mapped. */
    method UnpinRange(id: nat, first: nat, last: nat, ghost s: Pool)
      requires PoolOk(State()) && Pins(s, State(), id, first, last) && Touches(s, State(), id, first, last) && id in vbars
      requires first <= last <= |vbars[id].pages| && id in s.vbars && |s.vbars[id].pages| == |vbars[id].pages|
      modifies this`vbars
      ensures PoolOk(State()) && Pins(s, State(), id, first, first) && Touches(s, State(), id, first, last) && id in vbars
      ensures vbars[id].watermark == old(vbars)[id].watermark && SameHandles(old(vbars)[id], vbars[id])
    {
      var p := first;
      hide PoolOk, Pins, Touches;
      while p < last
        invariant first <= p <= last && PoolOk(State()) && id in vbars && last <= |vbars[id].pages| == |s.vbars[id].pages|
        invariant vbars[id].watermark == old(vbars)[id].watermark && SameHandles(old(vbars)[id], vbars[id])
        invariant Pins(s, State(), id, p, last) && Touches(s, State(), id, first, last)
      {
        UnpinOne(s, State(), id, p, first, last);
        var page := vbars[id].pages[p];
        if page.pins > 0 {
          vbars := vbars[id := vbars[id].(pages := vbars[id].pages[p := page.(pins := page.pins - 1)])];
        }
        p := p + 1;
      }
      NothingConfirmed(s, State(), id, first, last);
    }

    /** Maps a page at an absent place when the driver lets it. */
    method MapPage(id: nat, p: nat, attempt: Attempt) returns (ok: bool)
      requires id in vbars && p < |vbars[id].pages|
      modifies this`vbars, this`usage, this`nextHandle
      ensures ok == attempt.Maps?
      ensures ok ==> State() == CreatedPool(old(State()), id, p)
      ensures !ok ==> State() == old(State())
    {
      if !attempt.Maps? {
        return false;
      }
      var v := vbars[id];
      var page := v.pages[p];
      usage := usage + PAGE;
      vbars := vbars[id := v.(pages := v.pages[p := Page(nextHandle, page.pins + 1, page.serial + 1)], resident := v.resident + 1)];
      nextHandle := nextHandle + 1;
      return true;
    }

    /** Reclaim in the middle of a fault, for a target's absent pages. */
    method ReclaimForFault(id: nat, first: nat, p: nat, last: nat, budget: int, stuck: set<(nat, nat)>, signature: seq<nat>, ghost s: Pool)
      returns (ok: bool)
      requires InFault(s, State(), id, first, p, signature) && p < last <= |vbars[id].pages|
      modifies this`vbars, this`usage
      ensures InFault(s, State(), id, first, p, signature) && id in vbars && |vbars[id].pages| == |old(vbars)[id].pages|
      ensures old(vbars)[id].pages[p].handle == 0 ==> vbars[id].pages[p].handle == 0
      ensures !ok ==> stuck != {}
      ensures budget >= PAGE * Absent(old(vbars)[id].pages, last) ==> ok && State() == old(State())
    {
      ghost var t := State();
      ok := FreeForVbar(id, last, budget, stuck);
      StillInFault(s, t, State(), id, first, p, signature);
    }

    method ReclaimBytes(id: nat, first: nat, p: nat, size: int, stuck: set<(nat, nat)>, signature: seq<nat>, ghost s: Pool)
      returns (ok: bool)
      requires InFault(s, State(), id, first, p, signature)
      modifies this`vbars, this`usage
      ensures InFault(s, State(), id, first, p, signature) && id in vbars && |vbars[id].pages| == |old(vbars)[id].pages|
      ensures p < |vbars[id].pages| && old(vbars)[id].pages[p].handle == 0 ==> vbars[id].pages[p].handle == 0
      ensures Reclaims(old(State()), State()) && (!ok ==> stuck != {})
      ensures size <= 0 ==> ok && State() == old(State())
    {
      ghost var t := State();
      ok := FreeInternal(size, nextId, true, stuck);
      StillInFault(s, t, State(), id, first, p, signature);
    }

    /** One mapping attempt of a fault. */
    method MapInFault(id: nat, first: nat, p: nat, attempt: Attempt, signature: seq<nat>, ghost s: Pool) returns (ok: bool)
      requires InFault(s, State(), id, first, p, signature) && p < |vbars[id].pages| && vbars[id].pages[p].handle == 0
      modifies this`vbars, this`usage, this`nextHandle
      ensures ok == attempt.Maps? && id in vbars && |vbars[id].pages| == |old(vbars)[id].pages|
      ensures ok ==> InFault(s, State(), id, first, p + 1, signature + [vbars[id].pages[p].serial % SIGNATURE])
      ensures ok ==> State() == CreatedPool(old(State()), id, p)
      ensures vbars[id].watermark == old(vbars)[id].watermark
      ensures !ok ==> State() == old(State())
    {
      assert id in vbars;
      assert CreatedPool(State(), id, p).vbars[id].watermark == vbars[id].watermark;
      hide InFault;
      CreateInFault(s, State(), id, first, p, signature);
      hide CreatedPool;
      ok := MapPage(id, p, attempt);
    }

    /** After a first attempt failed or was not made: reclaims again and tries once more. */
    method RetryInFault(id: nat, first: nat, p: nat, last: nat, try: PageTry, signature: seq<nat>, ghost s: Pool)
      returns (status: FaultResult)
      requires InFault(s, State(), id, first, p, signature) && p < last <= |vbars[id].pages| && vbars[id].pages[p].handle == 0
      modifies this`vbars, this`usage, this`nextHandle
      ensures id in vbars && last <= |vbars[id].pages|
      ensures status.Success? ==> InFault(s, State(), id, first, p + 1, signature + [vbars[id].pages[p].serial % SIGNATURE])
      ensures !status.Success? ==> InFault(s, State(), id, first, p, signature)
      ensures status.Success? ==> last <= vbars[id].watermark
      ensures status.Oom? ==> vbars[id].watermark < last
      ensures status.Error? ==> (try.deficit <= 0 && !try.first.OutOfMemory?) || try.stuck != {} || !try.second.Maps?
    {
      hide InFault, Reclaims, CreatedPool;
      FaultHasVbar(s, State(), id, first, p, signature);
      if try.deficit <= 0 && !try.first.OutOfMemory? {
        return Error;
      }
      var ok := ReclaimBytes(id, first, p, if try.deficit > PAGE then try.deficit else PAGE, try.stuck, signature, s);
      if !ok {
        return Error;
      }
      if last > vbars[id].watermark {
        return Oom;
      }
      ok := MapInFault(id, first, p, try.second, signature, s);
      return if ok then Success else Error;
    }

    /** Brings in one absent page: reclaims, creates, and on a shortage reclaims and creates once more. */
    method BringIn(id: nat, first: nat, p: nat, last: nat, checked: bool, capacity: int, stuck: set<(nat, nat)>, try: PageTry,
                   signature: seq<nat>, ghost s: Pool) returns (status: FaultResult)
      requires InFault(s, State(), id, first, p, signature) && p < last <= |vbars[id].pages| && vbars[id].pages[p].handle == 0
      requires last <= vbars[id].watermark
      modifies this`vbars, this`usage, this`nextHandle
      ensures id in vbars && last <= |vbars[id].pages|
      ensures status.Success? ==> InFault(s, State(), id, first, p + 1, signature + [vbars[id].pages[p].serial % SIGNATURE])
      ensures !status.Success? ==> InFault(s, State(), id, first, p, signature)
      ensures status.Success? ==> last <= vbars[id].watermark
      ensures status.Oom? ==> vbars[id].watermark < last
      ensures status.Error? ==> stuck != {} || Fails(try)
      ensures Easy(try) && (checked || capacity - (old(usage) + (last - p) * PAGE) >= PAGE * Absent(old(vbars)[id].pages, last)) ==>
                status.Success? && State() == CreatedPool(old(State()), id, p)
    {
      hide InFault, Absent, CreatedPool;
      FaultHasVbar(s, State(), id, first, p, signature);
      if !checked {
        var ok := ReclaimForFault(id, first, p, last, capacity - (usage + (last - p) * PAGE), stuck, signature, s);
        if !ok {
          return Error;
        }
        if last > vbars[id].watermark {
          return Oom;
        }
      }
      if try.deficit <= 0 {
        var mapped := MapInFault(id, first, p, try.first, signature, s);
        if mapped {
          return Success;
        }
      }
      status := RetryInFault(id, first, p, last, try, signature, s);
    }

    method PinInPlace(id: nat, first: nat, p: nat, signature: seq<nat>, ghost s: Pool) returns (longer: seq<nat>)
      requires InFault(s, State(), id, first, p, signature) && p < |vbars[id].pages| && vbars[id].pages[p].handle != 0
      modifies this`vbars
      ensures id in vbars && |vbars[id].pages| == |old(vbars)[id].pages| && InFault(s, State(), id, first, p + 1, longer)
      ensures vbars == old(vbars)[id := Pinned(old(vbars)[id], p)]
    {
      hide InFault;
      FaultHasVbar(s, State(), id, first, p, signature);
      PinInFault(s, State(), id, first, p, signature);
      longer := signature + [vbars[id].pages[p].serial % SIGNATURE];
      vbars := vbars[id := Pinned(vbars[id], p)];
    }

    /** The next page of a fault: pinned where it is mapped, brought in where it is absent. */
    method NextPage(id: nat, first: nat, p: nat, last: nat, checked: bool, capacity: int, stuck: set<(nat, nat)>, try: PageTry,
                    signature: seq<nat>, ghost s: Pool) returns (status: FaultResult, longer: seq<nat>, checked': bool)
      requires InFault(s, State(), id, first, p, signature) && p < last <= |vbars[id].pages| && last <= vbars[id].watermark
      modifies this`vbars, this`usage, this`nextHandle
      ensures id in vbars && last <= |vbars[id].pages|
      ensures status.Success? ==> InFault(s, State(), id, first, p + 1, longer)
      ensures !status.Success? ==> InFault(s, State(), id, first, p, signature)
      ensures status.Success? ==> last <= vbars[id].watermark
      ensures status.Oom? ==> vbars[id].watermark < last
      ensures status.Error? ==> stuck != {} || Fails(try)
      ensures PageDone(old(State()), State(), id, p, last, checked, checked', capacity, try, status)
    {
      hide InFault, Absent, CreatedPool;
      FaultHasVbar(s, State(), id, first, p, signature);
      if vbars[id].pages[p].handle != 0 {
        longer := PinInPlace(id, first, p, signature, s);
        return Success, longer, checked;
      }
      status := BringIn(id, first, p, last, checked, capacity, stuck, try, signature, s);
      longer := signature + [vbars[id].pages[p].serial % SIGNATURE];
      return status, longer, true;
    }

    /**
      Makes the pages of a byte range resident and pins each of them once.  On success the signature
      is the serials of the pages; otherwise every pin count is what it was.  A range outside the
      reservation is turned away before anything else, and one that ends above the watermark after
      the reclaim for pressure; without pressure and below the watermark the fault succeeds.
    */
    method Fault(id: nat, offset: nat, size: nat, deficit: int, early: set<(nat, nat)>, capacity: int, stuck: set<(nat, nat)>,
                 tries: seq<PageTry>) returns (result: FaultResult, signature: seq<nat>)
      requires PoolOk(State()) && id in vbars && |tries| == |vbars[id].pages|
      modifies this`vbars, this`usage, this`nextHandle
      ensures PoolOk(State()) && Does(old(State()), Op.Fault(id, offset, size, result, signature), State())
      ensures var range := FaultRange(|old(vbars)[id].pages|, offset, size);
        range.PageRange? && range.first <= range.last <= |tries| ==>
          && (result.Error? ==> MayFail(range.first, range.last, early, stuck, tries))
          && (old(vbars)[id].watermark < range.last && early == {} ==> result.Oom?)
          && (Unpressed(old(State()), id, range.first, range.last, deficit, capacity, tries) ==>
                result.Success? && Undisturbed(old(State()), State(), id, range.first, range.last))
    {
      var range := FaultRange(|vbars[id].pages|, offset, size);
      if range.OutOfRange? {
        return Oom, [];
      }
      RangeInside(|vbars[id].pages|, offset, size);
      hide PoolOk, FaultRange, Faults, Gated, MayFail, Unpressed, Undisturbed;
      result, signature := FaultPages(id, range.first, range.last, deficit, early, capacity, stuck, tries);
    }

    /** The pages of a fault: reclaim for pressure, the watermark, and then page by page. */
    method FaultPages(id: nat, first: nat, last: nat, deficit: int, early: set<(nat, nat)>, capacity: int, stuck: set<(nat, nat)>,
                      tries: seq<PageTry>) returns (result: FaultResult, signature: seq<nat>)
      requires PoolOk(State()) && id in vbars && first <= last <= |vbars[id].pages| && |tries| == |vbars[id].pages|
      modifies this`vbars, this`usage, this`nextHandle
      ensures PoolOk(State()) && Faults(old(State()), State(), id, first, last, result, signature)
      ensures Gated(old(State()), State(), id, last, result)
      ensures result.Error? ==> MayFail(first, last, early, stuck, tries)
      ensures old(vbars)[id].watermark < last && early == {} ==> result.Oom?
      ensures Unpressed(old(State()), id, first, last, deficit, capacity, tries) ==>
                result.Success? && Undisturbed(old(State()), State(), id, first, last)
    {
      ghost var s := State();
      signature := [];
      FaultBegins(s, id, first);
      hide InFault, PoolOk, Faults, Reclaims;
      var ok := ReclaimBytes(id, first, first, deficit, early, [], s);
      FaultBacksOut(s, State(), id, first, last, [], Oom);
      FaultBacksOut(s, State(), id, first, last, [], Error);
      ReclaimLowers(s, State(), id);
      if !ok {
        return Error, [];
      }
      if last > vbars[id].watermark {
        return Oom, [];
      }
      hide Unpressed;
      ghost var t := State();
      result, signature := ConfirmPages(id, first, last, capacity, stuck, tries, s);
      if Unpressed(s, id, first, last, deficit, capacity, tries) { UnpressedHasRoom(s, id, first, last, deficit, capacity, tries); }
    }

    /** The next page, with what a fault that nothing presses makes of it. */
    method NextCalmPage(id: nat, first: nat, p: nat, last: nat, checked: bool, capacity: int, stuck: set<(nat, nat)>, tries: seq<PageTry>,
                        signature: seq<nat>, ghost s: Pool, ghost t: Pool) returns (status: FaultResult, longer: seq<nat>, checked': bool)
      requires InFault(s, State(), id, first, p, signature) && first <= p < last <= |vbars[id].pages| && last <= vbars[id].watermark
      requires last <= |tries| && Calm(t, State(), id, first, p, last, capacity, tries, checked)
      modifies this`vbars, this`usage, this`nextHandle
      ensures id in vbars && last <= |vbars[id].pages|
      ensures status.Success? ==> InFault(s, State(), id, first, p + 1, longer) && last <= vbars[id].watermark
      ensures status.Success? ==> Calm(t, State(), id, first, p + 1, last, capacity, tries, checked')
      ensures !status.Success? ==> InFault(s, State(), id, first, p, signature) && !HasRoom(t, id, first, last, capacity, tries)
      ensures status.Oom? ==> vbars[id].watermark < last
      ensures status.Error? ==> stuck != {} || Fails(tries[p])
    {
      ghost var u := State();
      HandlesGoOn(s, u, id, first, p, signature);
      hide InFault, Calm, HasRoom, PageDone, Fails;
      status, longer, checked' := NextPage(id, first, p, last, checked, capacity, stuck, tries[p], signature, s);
      CalmNext(t, u, State(), id, first, p, last, capacity, tries, checked, checked', status);
    }

    /** The pages of a fault one by one. */
    method ConfirmPages(id: nat, first: nat, last: nat, capacity: int, stuck: set<(nat, nat)>, tries: seq<PageTry>, ghost s: Pool)
      returns (result: FaultResult, signature: seq<nat>)
      requires InFault(s, State(), id, first, first, []) && first <= last <= |vbars[id].pages| && |tries| == |vbars[id].pages|
      requires last <= vbars[id].watermark
      modifies this`vbars, this`usage, this`nextHandle
      ensures PoolOk(State()) && Faults(s, State(), id, first, last, result, signature) && id in vbars
      ensures result.Success? ==> last <= vbars[id].watermark
      ensures result.Oom? ==> vbars[id].watermark < last
      ensures result.Error? ==> MayFail(first, last, {}, stuck, tries)
      ensures HasRoom(old(State()), id, first, last, capacity, tries) ==>
                result.Success? && Undisturbed(old(State()), State(), id, first, last)
    {
      hide InFault, PoolOk, Faults, Undisturbed, HasRoom, Calm, Fails, MayFail;
      ghost var t := State();
      FaultHasVbar(s, t, id, first, first, []);
      CalmAtFirst(t, id, first, last, capacity, tries);
      signature := [];
      var checked := false;
      var p := first;
      while p < last
        invariant first <= p <= last && InFault(s, State(), id, first, p, signature)
        invariant id in vbars && last <= |vbars[id].pages| && last <= vbars[id].watermark
        invariant Calm(t, State(), id, first, p, last, capacity, tries, checked)
      {
        var longer;
        result, longer, checked := NextCalmPage(id, first, p, last, checked, capacity, stuck, tries, signature, s, t);
        if !result.Success? {
          if result.Error? { FailsIn(p, first, last, stuck, tries); }
          GiveUp(id, first, p, last, result, signature, s);
          return result, [];
        }
        signature := longer;
        p := p + 1;
      }
      CalmAtLast(t, State(), id, first, last, capacity, tries, checked);
      FaultSucceeds(s, State(), id, first, last, signature);
      return Success, signature;
    }

    /** A fault that failed on a page takes its pins back. */
    method GiveUp(id: nat, first: nat, p: nat, last: nat, result: FaultResult, signature: seq<nat>, ghost s: Pool)
      requires InFault(s, State(), id, first, p, signature) && first <= p <= last && !result.Success? && id in vbars
      modifies this`vbars
      ensures PoolOk(State()) && Faults(s, State(), id, first, last, result, []) && id in vbars
      ensures vbars[id].watermark == old(vbars)[id].watermark && SameHandles(old(vbars)[id], vbars[id])
    {
      EndFault(s, State(), id, first, p, signature);
      SamePages(s, State(), id, first, p);
      hide InFault, PoolOk, Pins, Touches;
      UnpinRange(id, first, p, s);
      TouchesWider(s, State(), id, first, p, last);
      FaultFails(s, State(), id, first, last, result);
    }

    // ---------------------------------------------------------------- unpinning, watermarks and lifetimes

    method FreeInRange(id: nat, p: nat, saved: bool) returns (r: int)
      requires PoolOk(State()) && id in vbars && p < |vbars[id].pages|
      modifies this`vbars, this`usage
      ensures PoolOk(State()) && (r < 0 ==> !saved && State() == old(State()))
      ensures r >= 0 ==> vbars == old(vbars)[id := WithoutPage(old(vbars)[id], p, true, false)]
    {
      FreeKeepsPool(State(), id, p);
      hide PoolOk;
      r := FreePage(id, p, true, false, saved);
    }

    /** Frees every unpinned page of a range. */
    method FreeRange(id: nat, first: nat, last: nat, stuck: set<(nat, nat)>) returns (ok: bool)
      requires PoolOk(State()) && id in vbars && first <= last <= |vbars[id].pages|
      modifies this`vbars, this`usage
      ensures PoolOk(State()) && id in vbars && vbars == old(vbars)[id := vbars[id]]
      ensures RangeFreed(old(vbars)[id], vbars[id], first, last) && (ok ==> RangeEmpty(vbars[id], first, last))
      ensures !ok ==> stuck != {}
    {
      hide PoolOk, RangeFreed, RangeEmpty;
      ghost var v := vbars[id];
      RangeFreedNone(v, first);
      var p := first;
      ok := true;
      while p < last && ok
        invariant first <= p <= last <= |v.pages| && (!ok ==> stuck != {})
        invariant PoolOk(State()) && id in vbars && vbars == old(vbars)[id := vbars[id]] && |vbars[id].pages| == |v.pages|
        invariant RangeFreed(v, vbars[id], first, p) && RangeEmpty(vbars[id], first, p)
        decreases last - p, ok
      {
        ghost var w := vbars[id];
        RangeFreedMore(v, w, first, p);
        var r := FreeInRange(id, p, (id, p) !in stuck);
        if r < 0 {
          ok := false;
        } else {
          p := p + 1;
        }
      }
      RangeFreedWider(v, vbars[id], first, p, last);
    }

    method GivePinBack(id: nat, p: nat)
      requires PoolOk(State()) && id in vbars && p < |vbars[id].pages|
      modifies this`vbars
      ensures PoolOk(State())
      ensures vbars == if old(vbars)[id].pages[p].pins > 0 then old(vbars)[id := GivePin(old(vbars)[id], p)] else old(vbars)
    {
      GivePinKeeps(State(), id, p);
      hide PoolOk, GivePin;
      if vbars[id].pages[p].pins > 0 {
        vbars := vbars[id := GivePin(vbars[id], p)];
      }
    }

    method GivePinsBack(id: nat, first: nat, last: nat)
      requires PoolOk(State()) && id in vbars && first <= last <= |vbars[id].pages|
      modifies this`vbars
      ensures PoolOk(State()) && id in vbars && vbars == old(vbars)[id := vbars[id]]
      ensures PinsGiven(old(vbars)[id], vbars[id], first, last)
    {
      ghost var v := vbars[id];
      PinsGivenNone(v, first);
      hide PoolOk, PinsGiven, GivePin, OnePinLess;
      for p := first to last
        invariant PoolOk(State()) && id in vbars && vbars == old(vbars)[id := vbars[id]] && |vbars[id].pages| == |v.pages|
        invariant PinsGiven(v, vbars[id], first, p)
      {
        PinsGivenMore(v, vbars[id], first, p);
        ghost var before := vbars;
        GivePinBack(id, p);
        Overwritten(old(vbars), before, vbars, id);
      }
    }

    /**
      Gives one pin of every page of a range back, and frees the pages above the watermark that
      nobody pins any more.  The pins are given back even when a writeback fails.
    */
    method Unpin(id: nat, first: nat, last: nat, stuck: set<(nat, nat)>) returns (ok: bool)
      requires PoolOk(State()) && id in vbars && first <= last <= |vbars[id].pages|
      modifies this`vbars, this`usage
      ensures PoolOk(State()) && Does(old(State()), Op.Unpin(id, first, last), State()) && id in vbars
      ensures ok && vbars[id].watermark < last ==> RangeEmpty(vbars[id], if vbars[id].watermark < first then first else vbars[id].watermark, last)
      ensures !ok ==> stuck != {}
    {
      ghost var s, v := State(), vbars[id];
      GivePinsBack(id, first, last);
      WatermarkInside(State(), id);
      ghost var w, before := vbars[id], vbars;
      hide PoolOk, RangeEmpty, Accounted;
      ok := true;
      if vbars[id].watermark < last {
        ok := FreeRange(id, if vbars[id].watermark < first then first else vbars[id].watermark, last, stuck);
      }
      Overwritten(s.vbars, before, vbars, id);
      UnpinnedAtEnd(v, w, vbars[id], first, last);
      SoundIsAccounted(s, State());
    }

    /** Sets the watermark; what lies above it is freed unless pinned, and stays if a writeback fails. */
    method SetWatermark(id: nat, pages: nat, stuck: set<(nat, nat)>) returns (ok: bool)
      requires PoolOk(State()) && id in vbars
      modifies this`vbars, this`usage
      ensures PoolOk(State()) && Does(old(State()), Op.SetWatermark(id, pages, ok), State()) && id in vbars
      ensures ok && pages < old(vbars)[id].watermark <= |vbars[id].pages| ==> RangeEmpty(vbars[id], pages, old(vbars)[id].watermark)
      ensures !ok ==> stuck != {}
    {
      hide PoolOk, RangeEmpty, RangeFreed, Accounted;
      WatermarkInside(State(), id);
      ok := true;
      ghost var s, v := State(), vbars[id];
      var watermark := Least(pages, |vbars[id].pages|);
      if watermark < vbars[id].watermark {
        ok := FreeRange(id, watermark, vbars[id].watermark, stuck);
        LoweredSet(v, vbars[id], pages, ok);
      } else {
        RaisedSet(v, pages);
      }
      ghost var before := vbars;
      if ok {
        WatermarkPool(State(), id, watermark);
        vbars := vbars[id := vbars[id].(watermark := watermark)];
      }
      Overwritten(s.vbars, before, vbars, id);
      SoundIsAccounted(s, State());
    }

    method SetLimit(id: nat, pages: nat)
      requires PoolOk(State()) && id in vbars
      modifies this`vbars
      ensures PoolOk(State()) && Does(old(State()), Op.SetLimit(id, pages), State())
    {
      LimitPool(State(), id, pages);
      vbars := vbars[id := vbars[id].(limit := pages)];
    }

    /** A new VBAR of so many pages, highest in priority and with its watermark fully open. */
    method Allocate(pages: nat, writable: bool) returns (id: nat)
      requires PoolOk(State())
      modifies this
      ensures PoolOk(State()) && Does(old(State()), Op.Allocate(pages, writable), State())
      ensures id == old(nextId) && id !in old(vbars)
    {
      id := nextId;
      var v := NewVbar(pages, writable);
      AllocateKeeps(State(), v);
      vbars := vbars[id := v];
      order := order + [id];
      nextId := nextId + 1;
    }

    /** Moves a VBAR to the high end of the priority list and opens its watermark. */
    method Prioritize(id: nat)
      requires PoolOk(State()) && id in vbars
      modifies this`vbars, this`order
      ensures PoolOk(State()) && Does(old(State()), Op.Prioritize(id), State())
    {
      WatermarkPool(State(), id, |vbars[id].pages|);
      vbars := vbars[id := vbars[id].(watermark := |vbars[id].pages|)];
      OrderKeeps(State(), id);
      order := Dropped(order, id) + [id];
    }

    method Deprioritize(id: nat)
      requires PoolOk(State()) && id in vbars
      modifies this`order
      ensures PoolOk(State()) && Does(old(State()), Op.Deprioritize(id), State())
    {
      OrderKeeps(State(), id);
      order := [id] + Dropped(order, id);
    }

    method DiscardAll(id: nat)
      requires PoolOk(State()) && id in vbars && !vbars[id].writable
      modifies this`vbars, this`usage
      ensures PoolOk(State()) && id in vbars && vbars == old(vbars)[id := vbars[id]] && MappedIn(vbars[id]) == 0
      ensures usage == old(usage) - PAGE * MappedIn(old(vbars)[id])
    {
      hide PoolOk, MappedIn, Mapped;
      ghost var v := vbars[id];
      for p := 0 to |vbars[id].pages|
        invariant id in vbars && vbars == old(vbars)[id := vbars[id]] && |vbars[id].pages| == |v.pages| && !vbars[id].writable
        invariant PoolOk(State()) && usage == old(usage) - PAGE * (MappedIn(v) - MappedIn(vbars[id]))
        invariant forall q :: 0 <= q < p ==> vbars[id].pages[q].handle == 0
      {
        DiscardPage(State(), id, p);
        ghost var before := vbars;
        var _ := FreePage(id, p, true, true, true);
        Overwritten(old(vbars), before, vbars, id);
      }
      NothingIn(vbars[id]);
    }

    /** Frees every page, pinned or not, without writeback, and forgets the VBAR. */
    method Destroy(id: nat)
      requires PoolOk(State()) && id in vbars
      modifies this`vbars, this`usage, this`order
      ensures PoolOk(State()) && Does(old(State()), Op.Destroy(id), State())
    {
      hide PoolOk, MappedIn, Dropped;
      DiscardKeeps(State(), id);
      ghost var s := State();
      vbars := vbars[id := vbars[id].(writable := false)];
      DiscardAll(id);
      ForgetKeeps(State(), id);
      Forgotten(s.vbars, vbars, id);
      vbars := vbars - {id};
      order := Dropped(order, id);
    }
  }

  lemma Forgotten(a: map<nat, Vbar>, b: map<nat, Vbar>, id: nat)
    requires id in a && id in b && b == a[id := a[id].(writable := false)][id := b[id]]
    ensures b - {id} == a - {id}
  {}

  /** The pool with one pin of a page taken back. */
  function TakenBack(t: Pool, id: nat, p: nat): Pool
    requires id in t.vbars && p < |t.vbars[id].pages| && t.vbars[id].pages[p].pins > 0
  {
    var v, page := t.vbars[id], t.vbars[id].pages[p];
    t.(vbars := t.vbars[id := v.(pages := v.pages[p := page.(pins := page.pins - 1)])])
  }

  /** One confirmed page less; which pages were created does not change. */
  lemma UnpinOne(s: Pool, t: Pool, id: nat, p: nat, first: nat, last: nat)
    requires PoolOk(t) && Pins(s, t, id, p, last) && Touches(s, t, id, first, last)
    requires id in t.vbars && p < last <= |t.vbars[id].pages| && |t.vbars[id].pages| == |s.vbars[id].pages|
    ensures t.vbars[id].pages[p].pins > 0
    ensures PoolOk(TakenBack(t, id, p)) && Pins(s, TakenBack(t, id, p), id, p + 1, last) && Touches(s, TakenBack(t, id, p), id, first, last)
  {
    assert PageFaults(s.vbars[id].pages[p], t.vbars[id].pages[p], id == id && p <= p < last);
    UnpinPool(t, id, p);
    SameLengths(s, t, id, first, last);
    UnpinPins(s, t, id, p, last);
    UnpinTouches(s, t, id, p, first, last);
  }

  lemma UnpinPin(s: Pool, t: Pool, id: nat, p: nat, last: nat, j: nat, q: nat)
    requires Pins(s, t, id, p, last) && id in t.vbars && p < last <= |t.vbars[id].pages| && t.vbars[id].pages[p].pins > 0
    requires j in s.vbars && q < |s.vbars[j].pages|
    ensures j in t.vbars && q < |TakenBack(t, id, p).vbars[j].pages|
    ensures PageFaults(s.vbars[j].pages[q], TakenBack(t, id, p).vbars[j].pages[q], j == id && p + 1 <= q < last)
  {
    assert PageFaults(s.vbars[j].pages[q], t.vbars[j].pages[q], j == id && p <= q < last);
  }

  lemma SameLengths(s: Pool, t: Pool, id: nat, first: nat, last: nat)
    requires Touches(s, t, id, first, last)
    ensures forall j :: j in s.vbars ==> |t.vbars[j].pages| == |s.vbars[j].pages|
  {
    forall j | j in s.vbars ensures |t.vbars[j].pages| == |s.vbars[j].pages| {
      assert VbarTouches(s.vbars[j], t.vbars[j], j == id, first, last, s.nextHandle, t.nextHandle);
    }
  }

  lemma UnpinPins(s: Pool, t: Pool, id: nat, p: nat, last: nat)
    requires Pins(s, t, id, p, last) && id in t.vbars && p < last <= |t.vbars[id].pages| && t.vbars[id].pages[p].pins > 0
    requires forall j :: j in s.vbars ==> |t.vbars[j].pages| == |s.vbars[j].pages|
    ensures Pins(s, TakenBack(t, id, p), id, p + 1, last)
  {
    var u := TakenBack(t, id, p);
    forall j | j in s.vbars ensures j in u.vbars && |u.vbars[j].pages| == |s.vbars[j].pages| {}
    forall j, q: nat | j in s.vbars && q < |s.vbars[j].pages|
      ensures PageFaults(s.vbars[j].pages[q], u.vbars[j].pages[q], j == id && p + 1 <= q < last)
    {
      UnpinPin(s, t, id, p, last, j, q);
    }
  }

  lemma UnpinTouches(s: Pool, t: Pool, id: nat, p: nat, first: nat, last: nat)
    requires Touches(s, t, id, first, last) && id in t.vbars && p < |t.vbars[id].pages| && t.vbars[id].pages[p].pins > 0
    ensures Touches(s, TakenBack(t, id, p), id, first, last)
  {
    var u := TakenBack(t, id, p);
    forall j | j in s.vbars ensures VbarTouches(s.vbars[j], u.vbars[j], j == id, first, last, s.nextHandle, u.nextHandle) {
      assert VbarTouches(s.vbars[j], t.vbars[j], j == id, first, last, s.nextHandle, t.nextHandle);
      forall q: nat | q < |s.vbars[j].pages|
        ensures PageTouches(s.vbars[j].pages[q], u.vbars[j].pages[q], j == id && first <= q < last, s.nextHandle, u.nextHandle)
      {
        assert PageTouches(s.vbars[j].pages[q], t.vbars[j].pages[q], j == id && first <= q < last, s.nextHandle, t.nextHandle);
      }
    }
  }

  lemma UnpinPool(t: Pool, id: nat, p: nat)
    requires PoolOk(t) && id in t.vbars && p < |t.vbars[id].pages| && t.vbars[id].pages[p].pins > 0
    ensures PoolOk(TakenBack(t, id, p))
  {
    var v, w := t.vbars[id], TakenBack(t, id, p).vbars[id];
    MappedUpdate(v.pages, p, w.pages[p], |v.pages|);
    TotalUpdate(t.vbars, id, w, t.nextId);
  }

  lemma NothingConfirmed(s: Pool, t: Pool, id: nat, first: nat, last: nat)
    requires Pins(s, t, id, last, last)
    ensures Pins(s, t, id, first, first)
  {
    forall j, p: nat | j in s.vbars && p < |s.vbars[j].pages|
      ensures p < |t.vbars[j].pages| && PageFaults(s.vbars[j].pages[p], t.vbars[j].pages[p], j == id && first <= p < first)
    {
      assert PageFaults(s.vbars[j].pages[p], t.vbars[j].pages[p], j == id && last <= p < last);
    }
  }

  /** A fault under way: what it has confirmed so far, and the signature up to here. */
  predicate SameHandles(v: Vbar, w: Vbar) {
    |w.pages| == |v.pages| && forall p :: 0 <= p < |v.pages| ==> w.pages[p].handle == v.pages[p].handle
  }

  ghost predicate InFault(s: Pool, t: Pool, id: nat, first: nat, p: nat, signature: seq<nat>) {
    PoolOk(s) && PoolOk(t) && FaultSoFar(s, t, id, first, p) && id in t.vbars && Signed(t.vbars[id], first, p, signature)
  }

  lemma FaultBegins(s: Pool, id: nat, first: nat)
    requires PoolOk(s) && id in s.vbars && first <= |s.vbars[id].pages|
    ensures InFault(s, s, id, first, first, [])
  {}

  lemma EndFault(s: Pool, t: Pool, id: nat, first: nat, p: nat, signature: seq<nat>)
    requires InFault(s, t, id, first, p, signature)
    ensures PoolOk(s) && PoolOk(t) && Touches(s, t, id, first, p) && Pins(s, t, id, first, p) && id in t.vbars
    ensures Signed(t.vbars[id], first, p, signature)
  {}

  lemma RangeInside(pages: nat, offset: nat, size: nat)
    requires FaultRange(pages, offset, size).PageRange?
    ensures FaultRange(pages, offset, size).first <= FaultRange(pages, offset, size).last <= pages
  {
    FaultRangeIsExact(pages, offset, size);
  }

  lemma SamePages(s: Pool, t: Pool, id: nat, first: nat, last: nat)
    requires Touches(s, t, id, first, last) && id in t.vbars
    ensures id in s.vbars && |s.vbars[id].pages| == |t.vbars[id].pages|
  {
    assert VbarTouches(s.vbars[id], t.vbars[id], id == id, first, last, s.nextHandle, t.nextHandle);
  }

  /** Two sound pools agree on how books and pages moved between them. */
  lemma SoundIsAccounted(s: Pool, t: Pool)
    requires PoolOk(s) && PoolOk(t)
    ensures Accounted(s, t)
  {
    forall id | id in s.vbars && id in t.vbars
      ensures t.vbars[id].resident - s.vbars[id].resident == MappedIn(t.vbars[id]) - MappedIn(s.vbars[id])
    {
      assert VbarOk(s.vbars[id], s.nextHandle) && VbarOk(t.vbars[id], t.nextHandle);
    }
  }

  lemma FaultFails(s: Pool, t: Pool, id: nat, first: nat, last: nat, result: FaultResult)
    requires PoolOk(s) && PoolOk(t) && Touches(s, t, id, first, last) && Pins(s, t, id, first, first) && !result.Success?
    ensures Faults(s, t, id, first, last, result, [])
  {
    SoundIsAccounted(s, t);
  }

  lemma FaultBacksOut(s: Pool, t: Pool, id: nat, first: nat, last: nat, signature: seq<nat>, result: FaultResult)
    requires InFault(s, t, id, first, first, signature) && first <= last && !result.Success?
    ensures PoolOk(t) && Faults(s, t, id, first, last, result, [])
  {
    TouchesWider(s, t, id, first, first, last);
    FaultFails(s, t, id, first, last, result);
  }

  lemma FaultSucceeds(s: Pool, t: Pool, id: nat, first: nat, last: nat, signature: seq<nat>)
    requires InFault(s, t, id, first, last, signature)
    ensures PoolOk(t) && Faults(s, t, id, first, last, Success, signature)
  {
    SoundIsAccounted(s, t);
  }

  lemma ReclaimLowers(s: Pool, t: Pool, id: nat)
    requires Reclaims(s, t) && id in s.vbars
    ensures id in t.vbars && t.vbars[id].watermark <= s.vbars[id].watermark && |t.vbars[id].pages| == |s.vbars[id].pages|
  {
    assert VbarReclaims(s.vbars[id], t.vbars[id]);
  }

  // ---------------------------------------------------------------- when a fault fails, and when it cannot

  /** Something the fault depends on can fail: a writeback, or the mapping of one of its pages. */
  predicate MayFail(first: nat, last: nat, early: set<(nat, nat)>, stuck: set<(nat, nat)>, tries: seq<PageTry>)
    requires first <= last <= |tries|
  {
    early != {} || stuck != {} || exists p :: first <= p < last && Fails(tries[p])
  }

  /** The budget covers the absent pages below the end of the range, and each absent page of it is easy to bring in. */
  ghost predicate HasRoom(s: Pool, id: nat, first: nat, last: nat, capacity: int, tries: seq<PageTry>) {
    && id in s.vbars && first <= last <= |s.vbars[id].pages| == |tries|
    && ((forall p :: first <= p < last ==> s.vbars[id].pages[p].handle != 0) ||
        (capacity - (s.usage + (last - first) * PAGE) >= PAGE * Absent(s.vbars[id].pages, last) &&
         forall p :: first <= p < last && s.vbars[id].pages[p].handle == 0 ==> Easy(tries[p])))
  }

  /** Nothing presses: no deficit, the range below the watermark, and room for what is absent. */
  ghost predicate Unpressed(s: Pool, id: nat, first: nat, last: nat, deficit: int, capacity: int, tries: seq<PageTry>) {
    deficit <= 0 && HasRoom(s, id, first, last, capacity, tries) && last <= s.vbars[id].watermark
  }

  lemma UnpressedHasRoom(s: Pool, id: nat, first: nat, last: nat, deficit: int, capacity: int, tries: seq<PageTry>)
    requires Unpressed(s, id, first, last, deficit, capacity, tries)
    ensures deficit <= 0 && HasRoom(s, id, first, last, capacity, tries)
  {}

  /** A page that was confirmed: pinned once more where it was mapped, created and pinned where it was absent. */
  predicate PageConfirmed(p: Page, q: Page) {
    if p.handle != 0 then q == p.(pins := p.pins + 1) else q.handle != 0 && q.serial == p.serial + 1 && q.pins == p.pins + 1
  }

  /** Only the pages up to `cur` were confirmed; nothing was reclaimed and no other VBAR changed. */
  predicate Undisturbed(s: Pool, t: Pool, id: nat, first: nat, cur: nat) {
    && id in s.vbars && id in t.vbars && t.vbars == s.vbars[id := t.vbars[id]] && t.order == s.order
    && var (v, w) := (s.vbars[id], t.vbars[id]);
    && |w.pages| == |v.pages| && w.watermark == v.watermark && w.limit == v.limit
    && forall p: nat :: p < |v.pages| ==> if first <= p < cur then PageConfirmed(v.pages[p], w.pages[p]) else w.pages[p] == v.pages[p]
  }

  /** No page was created so far. */
  predicate Unmoved(s: Pool, t: Pool, id: nat) {
    && id in s.vbars && id in t.vbars && t.usage == s.usage && |t.vbars[id].pages| == |s.vbars[id].pages|
    && forall p: nat :: p < |s.vbars[id].pages| ==> t.vbars[id].pages[p].handle == s.vbars[id].pages[p].handle
  }

  lemma UndisturbedNone(s: Pool, id: nat, first: nat)
    requires id in s.vbars
    ensures Undisturbed(s, s, id, first, first) && Unmoved(s, s, id)
  {}

  lemma {:induction false} AbsentByHandles(v: seq<Page>, w: seq<Page>, k: nat)
    requires k <= |v| == |w| && forall p: nat :: p < k ==> (w[p].handle == 0 <==> v[p].handle == 0)
    ensures Absent(v, k) == Absent(w, k)
  {
    if k > 0 { AbsentByHandles(v, w, k - 1); }
  }

  /** How a fault gets past one page when nothing presses, and that it asks for room at most once. */
  ghost predicate PageDone(t: Pool, u: Pool, id: nat, p: nat, last: nat, checked: bool, checked': bool, capacity: int, try: PageTry,
                           status: FaultResult)
  {
    && id in t.vbars && p < last <= |t.vbars[id].pages|
    && var v := t.vbars[id];
    && (v.pages[p].handle != 0 ==> status.Success? && checked' == checked && u == t.(vbars := t.vbars[id := Pinned(v, p)]))
    && (v.pages[p].handle == 0 ==> checked')
    && (v.pages[p].handle == 0 && Easy(try) && (checked || capacity - (t.usage + (last - p) * PAGE) >= PAGE * Absent(v.pages, last)) ==>
          status.Success? && u == CreatedPool(t, id, p))
  }

  /** A fault with room has been undisturbed so far, and has created nothing before it asked for room. */
  ghost predicate Calm(s: Pool, t: Pool, id: nat, first: nat, p: nat, last: nat, capacity: int, tries: seq<PageTry>, checked: bool) {
    HasRoom(s, id, first, last, capacity, tries) ==> Undisturbed(s, t, id, first, p) && (!checked ==> Unmoved(s, t, id))
  }

  lemma CalmAtFirst(s: Pool, id: nat, first: nat, last: nat, capacity: int, tries: seq<PageTry>)
    requires id in s.vbars
    ensures Calm(s, s, id, first, first, last, capacity, tries, false)
  {
    UndisturbedNone(s, id, first);
  }

  lemma CalmAtLast(s: Pool, t: Pool, id: nat, first: nat, last: nat, capacity: int, tries: seq<PageTry>, checked: bool)
    requires Calm(s, t, id, first, last, last, capacity, tries, checked)
    ensures HasRoom(s, id, first, last, capacity, tries) ==> Undisturbed(s, t, id, first, last)
  {}

  lemma FaultHasVbar(s: Pool, t: Pool, id: nat, first: nat, p: nat, signature: seq<nat>)
    requires InFault(s, t, id, first, p, signature)
    ensures id in t.vbars
  {}

  lemma FailsIn(p: nat, first: nat, last: nat, stuck: set<(nat, nat)>, tries: seq<PageTry>)
    requires first <= p < last <= |tries| && (stuck != {} || Fails(tries[p]))
    ensures MayFail(first, last, {}, stuck, tries)
  {}

  lemma HandlesGoOn(s: Pool, t: Pool, id: nat, first: nat, p: nat, signature: seq<nat>)
    requires InFault(s, t, id, first, p, signature)
    ensures t.nextHandle > 0
  {}

  lemma CalmNext(s: Pool, t: Pool, u: Pool, id: nat, first: nat, p: nat, last: nat, capacity: int, tries: seq<PageTry>, checked: bool,
                 checked': bool, status: FaultResult)
    requires Calm(s, t, id, first, p, last, capacity, tries, checked) && first <= p < last <= |tries| && t.nextHandle > 0
    requires PageDone(t, u, id, p, last, checked, checked', capacity, tries[p], status)
    ensures HasRoom(s, id, first, last, capacity, tries) ==> status.Success?
    ensures Calm(s, u, id, first, p + 1, last, capacity, tries, checked')
  {
    if HasRoom(s, id, first, last, capacity, tries) {
      if !checked { AbsentByHandles(s.vbars[id].pages, t.vbars[id].pages, last); }
      assert t.vbars[id].pages[p] == s.vbars[id].pages[p];
      hide Absent, Easy;
    }
  }

  lemma StillInFault(s: Pool, t: Pool, u: Pool, id: nat, first: nat, p: nat, signature: seq<nat>)
    requires InFault(s, t, id, first, p, signature) && PoolOk(u) && Reclaims(t, u)
    ensures InFault(s, u, id, first, p, signature) && |u.vbars[id].pages| == |t.vbars[id].pages|
    ensures p < |t.vbars[id].pages| && t.vbars[id].pages[p].handle == 0 ==> u.vbars[id].pages[p].handle == 0
  {
    assert VbarReclaims(t.vbars[id], u.vbars[id]);
    if p < |t.vbars[id].pages| { assert PageReclaims(t.vbars[id].pages[p], u.vbars[id].pages[p]); }
    SignatureStays(t.vbars[id], u.vbars[id], first, p, signature);
    ReclaimDuringFault(s, t, u, id, first, p);
    hide PoolOk, FaultSoFar, Signed, Reclaims;
  }

  lemma PinInFault(s: Pool, t: Pool, id: nat, first: nat, p: nat, signature: seq<nat>)
    requires InFault(s, t, id, first, p, signature) && p < |t.vbars[id].pages| && t.vbars[id].pages[p].handle != 0
    ensures InFault(s, t.(vbars := t.vbars[id := Pinned(t.vbars[id], p)]), id, first, p + 1,
                    signature + [t.vbars[id].pages[p].serial % SIGNATURE])
  {
    assert t.nextHandle > 0;
    hide PoolOk, FaultSoFar, Signed;
    PinKeeps(t, id, p);
    ConfirmPage(s, t, id, first, p, t.usage, t.nextHandle);
    SignedMore(t.vbars[id], Pinned(t.vbars[id], p), first, p, signature);
  }

  lemma CreateInFault(s: Pool, t: Pool, id: nat, first: nat, p: nat, signature: seq<nat>)
    requires InFault(s, t, id, first, p, signature) && p < |t.vbars[id].pages| && t.vbars[id].pages[p].handle == 0
    ensures InFault(s, CreatedPool(t, id, p), id, first, p + 1,
                    signature + [CreatedPool(t, id, p).vbars[id].pages[p].serial % SIGNATURE])
    ensures |CreatedPool(t, id, p).vbars[id].pages| == |t.vbars[id].pages|
  {
    assert t.nextHandle > 0 && first <= p;
    assert Confirmed(t.vbars[id], p, t.nextHandle) == Created(t.vbars[id], p, t.nextHandle);
    assert forall q :: first <= q < p ==> Created(t.vbars[id], p, t.nextHandle).pages[q] == t.vbars[id].pages[q];
    assert |Created(t.vbars[id], p, t.nextHandle).pages| == |t.vbars[id].pages|;
    hide PoolOk, FaultSoFar, Signed, Confirmed, Created;
    CreateKeeps(t, id, p);
    ConfirmPage(s, t, id, first, p, t.usage + PAGE, t.nextHandle + 1);
    SignedMore(t.vbars[id], Created(t.vbars[id], p, t.nextHandle), first, p, signature);
  }

  lemma SignedMore(v: Vbar, w: Vbar, first: nat, p: nat, signature: seq<nat>)
    requires Signed(v, first, p, signature) && p < |v.pages| == |w.pages|
    requires forall q :: first <= q < p ==> w.pages[q] == v.pages[q]
    ensures Signed(w, first, p + 1, signature + [w.pages[p].serial % SIGNATURE])
  {}

  // ---------------------------------------------------------------- ranges, watermarks and lifetimes

  lemma RangeFreedNone(v: Vbar, first: nat)
    requires first <= |v.pages|
    ensures RangeFreed(v, v, first, first) && RangeEmpty(v, first, first)
  {}

  lemma RangeFreedMore(v: Vbar, w: Vbar, first: nat, p: nat)
    requires first <= p < |w.pages| && RangeFreed(v, w, first, p) && RangeEmpty(w, first, p)
    ensures RangeFreed(v, WithoutPage(w, p, true, false), first, p + 1)
    ensures RangeEmpty(WithoutPage(w, p, true, false), first, p + 1)
    ensures |WithoutPage(w, p, true, false).pages| == |w.pages|
  {}

  lemma RangeFreedWider(v: Vbar, w: Vbar, first: nat, p: nat, last: nat)
    requires RangeFreed(v, w, first, p) && p <= last
    ensures RangeFreed(v, w, first, last)
  {}

  /** Every page of the range gave one pin back. */
  predicate PinsGiven(v: Vbar, w: Vbar, first: nat, last: nat) {
    && |w.pages| == |v.pages| && w == v.(pages := w.pages)
    && forall q: nat :: q < |v.pages| ==> w.pages[q] == if first <= q < last then OnePinLess(v.pages[q]) else v.pages[q]
  }

  lemma Overwritten(a: map<nat, Vbar>, b: map<nat, Vbar>, c: map<nat, Vbar>, id: nat)
    requires id in b && b == a[id := b[id]] && (c == b || (id in c && c == b[id := c[id]]))
    ensures id in c && c == a[id := c[id]]
  {}

  /** The page gives one pin back. */
  function GivePin(v: Vbar, p: nat): Vbar
    requires p < |v.pages|
  {
    v.(pages := v.pages[p := v.pages[p].(pins := if v.pages[p].pins > 0 then v.pages[p].pins - 1 else 0)])
  }

  lemma GivePinKeeps(s: Pool, id: nat, p: nat)
    requires PoolOk(s) && id in s.vbars && p < |s.vbars[id].pages|
    ensures s.vbars[id].pages[p].pins > 0 ==> PoolOk(s.(vbars := s.vbars[id := GivePin(s.vbars[id], p)]))
  {
    if s.vbars[id].pages[p].pins > 0 { UnpinPool(s, id, p); }
  }

  lemma PinsGivenNone(v: Vbar, first: nat)
    ensures PinsGiven(v, v, first, first)
  {}

  lemma PinsGivenMore(v: Vbar, w: Vbar, first: nat, p: nat)
    requires PinsGiven(v, w, first, p) && first <= p < |w.pages|
    ensures PinsGiven(v, if w.pages[p].pins > 0 then GivePin(w, p) else w, first, p + 1)
    ensures |GivePin(w, p).pages| == |w.pages|
  {}

  lemma UnpinnedAtEnd(v: Vbar, w: Vbar, x: Vbar, first: nat, last: nat)
    requires PinsGiven(v, w, first, last)
    requires x == w || exists a, b :: RangeFreed(w, x, a, b)
    ensures Unpinned(v, x, first, last)
  {
    if x != w { var a, b :| RangeFreed(w, x, a, b); }
  }

  lemma FreeKeepsPool(s: Pool, id: nat, p: nat)
    requires PoolOk(s) && id in s.vbars && p < |s.vbars[id].pages|
    ensures var r := if MayFree(s.vbars[id], p, false) then 1 else 0;
      PoolOk(s.(vbars := s.vbars[id := WithoutPage(s.vbars[id], p, true, false)], usage := s.usage - PAGE * r))
  {
    var v := s.vbars[id];
    var w := WithoutPage(v, p, true, false);
    assert VbarOk(v, s.nextHandle);
    MappedUpdate(v.pages, p, w.pages[p], |v.pages|);
    TotalUpdate(s.vbars, id, w, s.nextId);
  }

  /** Lowering a watermark: what was freed above it is what setting it frees. */
  lemma LoweredSet(v: Vbar, w: Vbar, target: nat, ok: bool)
    requires v.watermark <= |v.pages| && Least(target, |v.pages|) < v.watermark
    requires RangeFreed(v, w, Least(target, |v.pages|), v.watermark) && (ok ==> RangeEmpty(w, Least(target, |v.pages|), v.watermark))
    ensures WatermarkSet(v, if ok then w.(watermark := Least(target, |v.pages|)) else w, target, ok)
    ensures |w.pages| == |v.pages| && Least(target, |v.pages|) == target
    ensures ok ==> RangeEmpty(w.(watermark := Least(target, |v.pages|)), target, v.watermark)
  {}

  lemma RaisedSet(v: Vbar, target: nat)
    requires v.watermark <= Least(target, |v.pages|)
    ensures WatermarkSet(v, v.(watermark := Least(target, |v.pages|)), target, true)
  {}

  lemma WatermarkInside(s: Pool, id: nat)
    requires PoolOk(s) && id in s.vbars
    ensures s.vbars[id].watermark <= |s.vbars[id].pages|
  {
    assert VbarOk(s.vbars[id], s.nextHandle);
  }

  lemma NothingIn(v: Vbar)
    requires forall p :: 0 <= p < |v.pages| ==> v.pages[p].handle == 0
    ensures MappedIn(v) == 0
  {
    NothingMapped(v.pages, |v.pages|);
  }

  lemma DiscardKeeps(s: Pool, id: nat)
    requires PoolOk(s) && id in s.vbars
    ensures PoolOk(s.(vbars := s.vbars[id := s.vbars[id].(writable := false)]))
    ensures MappedIn(s.vbars[id].(writable := false)) == MappedIn(s.vbars[id])
  {
    TotalUpdate(s.vbars, id, s.vbars[id].(writable := false), s.nextId);
  }

  /** Discarding a page, pinned or not. */
  lemma DiscardPage(s: Pool, id: nat, p: nat)
    requires PoolOk(s) && id in s.vbars && p < |s.vbars[id].pages|
    ensures var (w, r) := (WithoutPage(s.vbars[id], p, true, true), if MayFree(s.vbars[id], p, true) then 1 else 0);
      && PoolOk(s.(vbars := s.vbars[id := w], usage := s.usage - PAGE * r))
      && MappedIn(w) == MappedIn(s.vbars[id]) - r
  {
    var v := s.vbars[id];
    var w := WithoutPage(v, p, true, true);
    assert VbarOk(v, s.nextHandle);
    MappedUpdate(v.pages, p, w.pages[p], |v.pages|);
    TotalUpdate(s.vbars, id, w, s.nextId);
  }

  lemma SameLimit(t: Pool, u: Pool, id: nat)
    requires Reclaims(t, u) && id in t.vbars
    ensures id in u.vbars && u.vbars[id].limit == t.vbars[id].limit
  {
    assert VbarReclaims(t.vbars[id], u.vbars[id]);
  }

  // ---------------------------------------------------------------- a short fault leaves a page above the watermark

  /** One VBAR of two absent pages that reclaim may empty. */
  function TwoAbsent(): Pool {
    Pool(map[0 := NewVbar(2, false)], [0], 0, 1, 1)
  }

  /** The first page is created and pinned, the watermark sinks past it, and its pin is given back. */
  function FirstPageLeft(): Pool {
    Pool(map[0 := Vbar([Page(1, 0, 1), Page(0, 0, 0)], 0, 0, 1, false)], [0], PAGE, 2, 1)
  }

  lemma TwoAbsentOk()
    ensures PoolOk(TwoAbsent()) && Total(TwoAbsent().vbars, 1) == 0 && MappedIn(TwoAbsent().vbars[0]) == 0
    ensures TwoAbsent().vbars[0].pages == [Page(0, 0, 0), Page(0, 0, 0)]
  {
    var s := TwoAbsent();
    NothingMapped(s.vbars[0].pages, 2);
    assert Total(s.vbars, 1) == Total(s.vbars, 0) + MappedIn(s.vbars[0]);
  }

  lemma FirstPageLeftCounts()
    ensures Total(FirstPageLeft().vbars, 1) == 1 && MappedIn(FirstPageLeft().vbars[0]) == 1
  {
    var pages := FirstPageLeft().vbars[0].pages;
    assert Mapped(pages, 0) == 0 && Mapped(pages, 1) == 1 && Mapped(pages, 2) == 1;
    assert Total(FirstPageLeft().vbars, 1) == Total(FirstPageLeft().vbars, 0) + MappedIn(FirstPageLeft().vbars[0]);
  }

  lemma ShortFaultTouches()
    ensures Touches(TwoAbsent(), FirstPageLeft(), 0, 0, 2) && Pins(TwoAbsent(), FirstPageLeft(), 0, 0, 0)
  {
    hide PoolOk, Total, MappedIn;
    TwoAbsentOk();
    var v, w := TwoAbsent().vbars[0], FirstPageLeft().vbars[0];
    assert VbarTouches(v, w, true, 0, 2, 1, 2);
  }

  /** The two steps of the fault: the page is created, and reclaim lowers the watermark past it. */
  lemma ShortFaultSteps()
    ensures 0 in TwoAbsent().vbars && |TwoAbsent().vbars[0].pages| == 2
    ensures var created := CreatedPool(TwoAbsent(), 0, 0);
      && 0 in created.vbars && created.vbars[0] == Vbar([Page(1, 1, 1), Page(0, 0, 0)], 2, 0, 1, false)
      && Lowered(Lowered(created.vbars[0])) == FirstPageLeft().vbars[0].(pages := [Page(1, 1, 1), Page(0, 0, 0)])
  {
    TwoAbsentOk();
    var v := Created(TwoAbsent().vbars[0], 0, 1);
    assert v.pages == [Page(1, 1, 1), Page(0, 0, 0)];
    assert Lowered(v).pages == v.pages && Lowered(Lowered(v)).pages == v.pages;
  }

  /**
    Only a fault that succeeds is sure to leave what it created below the watermark.  One that
    creates its first page and then runs short may sink the watermark past that page, which is
    pinned meanwhile: it ends with a shortage, the page stays, and it lies above the watermark.
  */
  lemma ShortFaultLeavesPage()
    ensures Does(TwoAbsent(), Op.Fault(0, 0, 2 * PAGE, Oom, []), FirstPageLeft())
    ensures FirstPageLeft().vbars[0].watermark == 0 && FirstPageLeft().vbars[0].pages[0].handle != 0
  {
    TwoAbsentOk();
    FirstPageLeftCounts();
    ShortFaultTouches();
    assert FaultRange(2, 0, 2 * PAGE) == PageRange(0, 2);
    hide Touches, Pins, Total, MappedIn, PoolOk;
    assert Accounted(TwoAbsent(), FirstPageLeft());
  }

  /** With its one mapped page pinned, the VBAR gives reclaim nothing, so its watermark sinks to its limit. */
  lemma PinnedIsNotFreed(s: Pool, t: Pool)
    requires Reclaims(s, t) && s.nextId == 1 && 0 in s.vbars && |s.vbars[0].pages| == 2 && s.order == [0]
    requires s.vbars[0].pages[0].pins > 0 && s.vbars[0].pages[1].handle == 0 && s.vbars[0].limit == 0
    requires Freed(s, t) == 1 || ((forall i :: 0 <= i < |t.order| ==> t.order[i] in t.vbars) && Settled(t.vbars, t.order, |t.order|, 1, true))
    ensures 0 in t.vbars && t.vbars[0].pages == s.vbars[0].pages && t.vbars[0].watermark == 0
  {
    assert VbarReclaims(s.vbars[0], t.vbars[0]);
    assert PageReclaims(s.vbars[0].pages[0], t.vbars[0].pages[0]) && PageReclaims(s.vbars[0].pages[1], t.vbars[0].pages[1]);
    assert t.vbars[0].pages == s.vbars[0].pages;
    assert Total(s.vbars, 1) == Total(s.vbars, 0) + MappedIn(s.vbars[0]);
    assert Total(t.vbars, 1) == Total(t.vbars, 0) + MappedIn(t.vbars[0]);
    assert t.order[0] == 0;
  }

  lemma FirstCreated()
    ensures var t := CreatedPool(TwoAbsent(), 0, 0);
      && t.nextId == 1 && t.order == [0] && 0 in t.vbars && t.vbars[0] == Vbar([Page(1, 1, 1), Page(0, 0, 0)], 2, 0, 1, false)
  {
    ShortFaultSteps();
  }

  /** Pins and handles after the pin was taken back. */
  lemma LeftUnpinned(s: Pool, t: Pool)
    requires s == TwoAbsent() && Faults(s, t, 0, 0, 2, Oom, []) && 0 in t.vbars && t.vbars[0].watermark == 0
    ensures Does(s, Op.Fault(0, 0, 2 * PAGE, Oom, []), t)
    ensures |t.vbars[0].pages| == 2 && t.vbars[0].pages[0].pins == 0
  {
    TwoAbsentOk();
    assert FaultRange(2, 0, 2 * PAGE) == PageRange(0, 2);
    assert VbarTouches(s.vbars[0], t.vbars[0], true, 0, 2, s.nextHandle, t.nextHandle);
    assert PageFaults(s.vbars[0].pages[0], t.vbars[0].pages[0], false);
  }

  method TwoAbsentPages() returns (pool: VbarPool)
    ensures fresh(pool) && pool.State() == TwoAbsent()
  {
    pool := new VbarPool();
    pool.vbars, pool.order, pool.nextId := map[0 := NewVbar(2, false)], [0], 1;
  }

  /** The pager's own steps on such a fault: create the first page, reclaim for the second, give up. */
  method ShortFault() returns (pool: VbarPool)
    ensures fresh(pool) && Does(TwoAbsent(), Op.Fault(0, 0, 2 * PAGE, Oom, []), pool.State())
    ensures 0 in pool.vbars && pool.vbars[0].watermark == 0
    ensures |pool.vbars[0].pages| == 2 && pool.vbars[0].pages[0].handle != 0 && pool.vbars[0].pages[0].pins == 0
  {
    hide PoolOk, InFault, Faults, Does, Reclaims, Freed, Settled, CreatedPool, Touches, Pins, InTurn, Exempt;
    pool := TwoAbsentPages();
    ghost var s := pool.State();
    TwoAbsentOk();
    FirstCreated();
    FaultBegins(s, 0, 0);
    var ok := pool.MapInFault(0, 0, 0, Maps, [], s);
    ghost var t := pool.State();
    var signature := [] + [pool.vbars[0].pages[0].serial % SIGNATURE];
    InFaultIsSound(s, t, 0, 0, 1, signature);
    ok := pool.FreeInternal(PAGE, pool.nextId, true, {});
    StillInFault(s, t, pool.State(), 0, 0, 1, signature);
    PinnedIsNotFreed(t, pool.State());
    pool.GiveUp(0, 0, 1, 2, Oom, signature, s);
    LeftUnpinned(s, pool.State());
  }

  lemma InFaultIsSound(s: Pool, t: Pool, id: nat, first: nat, p: nat, signature: seq<nat>)
    requires InFault(s, t, id, first, p, signature)
    ensures PoolOk(t)
  {}
}
