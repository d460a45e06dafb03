/**
  The interposed USM allocator (src-xpu/ur-usm-hook.cpp) as values: the ledger of tracked
  allocations, its charge against the current context, cache hints and the thread's retry.
*/
module UrModel {

  datatype Entry = Entry(ptr: nat, size: nat, device: nat, accounted: bool, retired: bool, owned: bool)

  datatype Reason = Idle | BudgetDeficit | RuntimeOom

  datatype Request = Request(context: nat, handle: nat, pool: nat, size: nat)

  datatype Retry = Retry(reason: Reason, request: Request, generation: nat, device: nat, returned: nat)

  /**
    `totals` is the current context's usage per known device; `retiredBytes` and `freedBytes` count
    retirements and retired frees; `ooms` counts synthetic refusals and `hinted` nonzero publications.
  */
  datatype Hook = Hook(
    enabled: bool,
    generation: nat,
    shutdown: bool,
    entries: seq<Entry>,
    totals: map<nat, nat>,
    hints: map<nat, nat>,
    retry: Retry,
    retiredLive: int,
    retiredBytes: nat,
    freedBytes: nat,
    ooms: nat,
    hinted: nat)

  const NO_RETRY: Retry := Retry(Idle, Request(0, 0, 0, 0), 0, 0, 0)

  // ---------------------------------------------------------------- charging the context

  /** A charge against the context of a device: refused for an unknown device, never below zero. */
  function Account(totals: map<nat, nat>, device: nat, delta: int): (map<nat, nat>, bool) {
    if device !in totals then (totals, false)
    else if totals[device] + delta < 0 then (totals[device := 0], true)
    else (totals[device := totals[device] + delta], true)
  }

  // ---------------------------------------------------------------- the ledger

  function Find(entries: seq<Entry>, ptr: nat, i: nat): (r: nat)
    requires i <= |entries|
    ensures i <= r <= |entries| && (r < |entries| ==> entries[r].ptr == ptr)
    ensures forall j :: i <= j < r ==> entries[j].ptr != ptr
    decreases |entries| - i
  {
    if i == |entries| || entries[i].ptr == ptr then i else Find(entries, ptr, i + 1)
  }

  function Pointers(entries: seq<Entry>): set<nat> {
    set i | 0 <= i < |entries| :: entries[i].ptr
  }

  datatype Recorded = Success | InvalidPointer | Duplicate | MetadataFailure

  /** Recording a native success: the entry is kept only if its charge is accepted. */
  function AccountSuccess(h: Hook, ptr: nat, size: nat, device: nat, owned: bool, hostOk: bool): (Hook, Recorded) {
    if ptr == 0 then (h, InvalidPointer)
    else if !hostOk then (h, MetadataFailure)
    else if Find(h.entries, ptr, 0) < |h.entries| then (h, Duplicate)
    else
      var (totals, ok) := Account(h.totals, device, size);
      if !ok then (h, MetadataFailure)
      else (h.(entries := h.entries + [Entry(ptr, size, device, true, false, owned)], totals := totals), Success)
  }

  // ---------------------------------------------------------------- cache hints

  predicate HasHint(hints: map<nat, nat>, device: nat) {
    device in hints && hints[device] > 0
  }

  function SetHint(h: Hook, device: nat, bytes: nat): Hook {
    if !h.enabled then h
    else h.(hints := h.hints[device := bytes], hinted := if bytes > 0 then h.hinted + 1 else h.hinted)
  }

  // ---------------------------------------------------------------- allocation

  datatype Native = Allocated(ptr: nat) | OutOfMemory | OutOfHostMemory | OutOfResources | Refused

  /**
    What the surroundings answer: the device number behind the handle, the deficit, whether the
    request comes from Torch's segment allocator, whether eviction succeeded, what the native
    allocator did, and whether this thread owns the allocation.
  */
  datatype World = World(resolved: bool, device: nat, knownDeficit: bool, deficit: int, hostOk: bool, torch: bool,
                         evicted: bool, native: Native, metadataOk: bool, owned: bool)

  datatype Outcome = Pointer(ptr: nat) | DeviceOom | HostOom | Failed | Uninitialized | PassedOn

  /** `Pointer(0)` stands for a native success without a usable pointer; the caller sees HostOom. */
  function AllocateAndAccount(h: Hook, size: nat, w: World): (Hook, Outcome) {
    match w.native
    case OutOfMemory => (h, DeviceOom)
    case OutOfHostMemory => (h, HostOom)
    case OutOfResources => (h, DeviceOom)
    case Refused => (h, Failed)
    case Allocated(ptr) =>
      var (h', recorded) := AccountSuccess(h, ptr, size, w.device, w.owned, w.metadataOk);
      if recorded == Success then (h', Pointer(ptr)) else (h', HostOom)
  }

  predicate RetryMatches(h: Hook, q: Request) {
    h.retry.reason != Idle && h.retry.request == q && h.retry.generation == h.generation
  }

  function Arm(h: Hook, q: Request, reason: Reason, device: nat): Hook {
    h.(retry := Retry(reason, q, h.generation, device, 0))
  }

  function Alloc(h: Hook, q: Request, w: World): (Hook, Outcome) {
    if w.owned && h.shutdown then (h, Uninitialized)
    else if !h.enabled then (h, PassedOn)
    else if !w.resolved then (h.(retry := NO_RETRY), PassedOn)
    else if !w.knownDeficit then (h.(retry := NO_RETRY), PassedOn)
    else if !w.hostOk then (h.(retry := NO_RETRY), HostOom)
    else
      var classified := w.deficit > 0 || h.retry.reason != Idle;
      if classified && w.torch && RetryMatches(h, q) then AllocateAndAccount(h.(retry := NO_RETRY), q.size, w)
      else
        var calm := h.(retry := NO_RETRY);
        if w.deficit > 0 && w.torch && HasHint(h.hints, w.device) then
          (Arm(calm.(hints := h.hints[w.device := 0], ooms := h.ooms + 1), q, BudgetDeficit, w.device), DeviceOom)
        else if w.deficit > 0 && !w.torch && !w.evicted then (calm, DeviceOom)
        else
          var (done, outcome) := AllocateAndAccount(calm, q.size, w);
          if w.torch && (outcome == DeviceOom || outcome == HostOom) then (Arm(done, q, RuntimeOom, w.device), outcome) else (done, outcome)
  }

  /** A pointer is answered only for a native success that the ledger lists at the end; otherwise the ledger stays. */
  lemma AnswerIsListed(h: Hook, q: Request, w: World)
    ensures var (r, outcome) := Alloc(h, q, w);
      && (outcome.Pointer? ==> w.native == Allocated(outcome.ptr) && outcome.ptr !in Pointers(h.entries) &&
                               r.entries == h.entries + [Entry(outcome.ptr, q.size, w.device, true, false, w.owned)])
      && (!outcome.Pointer? ==> r.entries == h.entries)
  {}

  /**
    The native allocator is asked: the hook tracks the device, and there is no deficit, or the
    request is the retry of a refusal, or no hint is published for it, or the pager made room.
  */
  predicate ReachesNative(h: Hook, q: Request, w: World) {
    && h.enabled && !(w.owned && h.shutdown) && w.resolved && w.knownDeficit && w.hostOk
    && (w.deficit <= 0 || (if w.torch then RetryMatches(h, q) || !HasHint(h.hints, w.device) else w.evicted))
  }

  /** A pointer is answered exactly when the native allocator was asked and gave a new one that can be recorded and charged. */
  lemma AnswerIsPointerIff(h: Hook, q: Request, w: World)
    ensures Alloc(h, q, w).1.Pointer? <==>
              && ReachesNative(h, q, w) && w.native.Allocated? && w.native.ptr != 0
              && w.metadataOk && w.native.ptr !in Pointers(h.entries) && w.device in h.totals
  {}

  /**
    The bytes that are asked of the pager before the native call.  A retry after a native shortage
    asks for no less than what the caller has not given back itself since.
  */
  function Eviction(h: Hook, q: Request, w: World): nat {
    if (w.owned && h.shutdown) || !h.enabled || !w.resolved || !w.knownDeficit || !w.hostOk then 0
    else
      var pressing := if w.deficit > 0 then w.deficit else 0;
      if w.torch && RetryMatches(h, q) then
        var residual := if h.retry.returned < q.size then q.size - h.retry.returned else 0;
        if h.retry.reason == RuntimeOom && residual > pressing then residual else pressing
      else if w.torch && HasHint(h.hints, w.device) then 0
      else pressing
  }

  /**
    Whenever the native allocator is asked, the pager was asked for the whole deficit before; and
    whenever the pager was asked and made room, the native allocator is asked.
  */
  lemma NativeComesAfterEviction(h: Hook, q: Request, w: World)
    ensures ReachesNative(h, q, w) ==> Eviction(h, q, w) >= w.deficit
    ensures Eviction(h, q, w) > 0 && w.evicted ==> ReachesNative(h, q, w)
    ensures Eviction(h, q, w) > 0 && w.deficit <= 0 ==> w.torch && RetryMatches(h, q) && Eviction(h, q, w) <= q.size
  {}

  // ---------------------------------------------------------------- free

  /** Taking an entry off the books: its charge is given back, and a waiting retry hears of the bytes. */
  function Drop(h: Hook, context: nat, i: nat): Hook
    requires i < |h.entries|
  {
    var e := h.entries[i];
    var paid := if e.accounted then h.(totals := Account(h.totals, e.device, -(e.size as int)).0) else h;
    var noted :=
      if e.retired then paid.(freedBytes := h.freedBytes + e.size, retiredLive := h.retiredLive - 1)
      else if Credits(h, context, e) then paid.(retry := h.retry.(returned := h.retry.returned + e.size))
      else paid;
    noted.(entries := h.entries[..i] + h.entries[i + 1..])
  }

  function Free(h: Hook, context: nat, ptr: nat, nativeOk: bool): Hook {
    if !h.enabled && h.retiredLive == 0 then h
    else
      var calm := if h.enabled then h else h.(retry := NO_RETRY);
      var i := Find(h.entries, ptr, 0);
      if !nativeOk || i == |h.entries| then calm else Drop(calm, context, i)
  }

  /** The free happens between a refusal and its retry, on the same context and device. */
  predicate Credits(h: Hook, context: nat, e: Entry) {
    h.retry.reason != Idle && h.retry.request.context == context && h.retry.device == e.device &&
    h.retry.generation == h.generation
  }

  // ---------------------------------------------------------------- enabling, disabling, retiring

  datatype Adoption = Adoption(entries: seq<Entry>, totals: map<nat, nat>, ok: bool)

  /** Charging the retired entries among the first `k` to the new context, until one is refused. */
  function Adopt(entries: seq<Entry>, totals: map<nat, nat>, k: nat): Adoption
    requires k <= |entries|
    ensures |Adopt(entries, totals, k).entries| == |entries|
  {
    if k == 0 then Adoption(entries, totals, true)
    else
      var a := Adopt(entries, totals, k - 1);
      var e := a.entries[k - 1];
      if !a.ok || !e.retired || e.accounted then a
      else
        var (totals', ok) := Account(a.totals, e.device, e.size);
        Adoption(a.entries[k - 1 := e.(accounted := ok)], totals', ok)
  }

  /** Undoing the charges of the retired entries among the first `k`, where the context lets it. */
  function RollBack(entries: seq<Entry>, totals: map<nat, nat>, k: nat): (seq<Entry>, map<nat, nat>)
    requires k <= |entries|
    ensures |RollBack(entries, totals, k).0| == |entries|
  {
    if k == 0 then (entries, totals)
    else
      var (es, ts) := RollBack(entries, totals, k - 1);
      var e := es[k - 1];
      if !e.retired || !e.accounted then (es, ts)
      else
        var (ts', ok) := Account(ts, e.device, -(e.size as int));
        (if ok then es[k - 1 := e.(accounted := false)] else es, ts')
  }

  function Enable(h: Hook): (Hook, bool) {
    if h.enabled then (h, true)
    else
      var a := Adopt(h.entries, h.totals, |h.entries|);
      if a.ok then
        (h.(entries := a.entries, totals := a.totals, generation := h.generation + 1, shutdown := false, hints := map[],
            retry := NO_RETRY, enabled := true), true)
      else
        var (entries, totals) := RollBack(a.entries, a.totals, |a.entries|);
        (h.(entries := entries, totals := totals), false)
  }

  function Disable(h: Hook): (Hook, bool) {
    if h.entries != [] then (h, false)
    else (h.(enabled := false, generation := h.generation + 1, hints := map[], retry := NO_RETRY), true)
  }

  function Retired(entries: seq<Entry>): (r: seq<Entry>)
    ensures |r| == |entries|
    ensures forall i :: 0 <= i < |r| ==> r[i] == entries[i].(retired := true, accounted := false)
  {
    seq(|entries|, i requires 0 <= i < |entries| => entries[i].(retired := true, accounted := false))
  }

  predicate Owns(entries: seq<Entry>) {
    exists i :: 0 <= i < |entries| && entries[i].owned
  }

  /** Bytes and number of entries among the first `k` that are not retired yet. */
  function FreshBytes(entries: seq<Entry>, k: nat): nat
    requires k <= |entries|
  {
    if k == 0 then 0 else FreshBytes(entries, k - 1) + (if entries[k - 1].retired then 0 else entries[k - 1].size)
  }

  function FreshCount(entries: seq<Entry>, k: nat): nat
    requires k <= |entries|
  {
    if k == 0 then 0 else FreshCount(entries, k - 1) + (if entries[k - 1].retired then 0 else 1)
  }

  function RetireBorrowed(h: Hook): (Hook, bool) {
    if Owns(h.entries) then (h, false)
    else
      (h.(shutdown := true, enabled := false, generation := h.generation + 1, hints := map[], retry := NO_RETRY,
          entries := Retired(h.entries), retiredLive := h.retiredLive + FreshCount(h.entries, |h.entries|),
          retiredBytes := h.retiredBytes + FreshBytes(h.entries, |h.entries|)), true)
  }
}
