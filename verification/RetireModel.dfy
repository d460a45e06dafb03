/**
  Asynchronous retirement of VBAR pages (src/model-vbar.c, src-xpu/dispatch.cpp) as values.

  Pages remember which queues used them as tokens: a queue slot, the slot's incarnation and a
  fence generation, packed into 64 bits.  A slot closes a generation by submitting a barrier to
  its queue, and retires it when the barrier is seen complete.
*/
module RetireModel {

  const MAX_QUEUES: nat := 64
  const FENCE_SLOTS: nat := 8
  const BATCH_USES: nat := 64
  const TAG_SPAN: nat := 0x80
  const GENERATION_SPAN: nat := 0x2_0000_0000
  const INCARNATION_SPAN: nat := 0x100_0000

  // ---------------------------------------------------------------- tokens

  function Stamp(incarnation: nat, generation: nat): nat {
    incarnation * GENERATION_SPAN + generation
  }

  function Pack(tag: nat, incarnation: nat, generation: nat): nat {
    Stamp(incarnation, generation) * TAG_SPAN + tag
  }

  function TagOf(token: nat): nat { token % TAG_SPAN }

  function GenerationOf(token: nat): nat { (token / TAG_SPAN) % GENERATION_SPAN }

  function IncarnationOf(token: nat): nat { (token / TAG_SPAN) / GENERATION_SPAN }

  predicate Packable(tag: nat, incarnation: nat, generation: nat) {
    tag < TAG_SPAN && incarnation < INCARNATION_SPAN && generation < GENERATION_SPAN
  }

  // ---------------------------------------------------------------- the device

  /** A piece of work: the position it was submitted at on its queue. */
  datatype Work = Work(queue: nat, pos: nat)

  /** How much every queue was given, which of it is done, and which pieces are barriers. */
  datatype Gpu = Gpu(lengths: map<nat, nat>, done: set<Work>, barriers: set<Work>)

  function Length(lengths: map<nat, nat>, queue: nat): nat {
    if queue in lengths then lengths[queue] else 0
  }

  predicate Submitted(gpu: Gpu, w: Work) {
    w.pos < Length(gpu.lengths, w.queue)
  }

  function Submit(gpu: Gpu, queue: nat): Gpu {
    gpu.(lengths := gpu.lengths[queue := Length(gpu.lengths, queue) + 1])
  }

  function SubmitBarrier(gpu: Gpu, queue: nat): Gpu {
    Submit(gpu, queue).(barriers := gpu.barriers + {Work(queue, Length(gpu.lengths, queue))})
  }

  /** A barrier completes only after everything submitted to its queue before it. */
  predicate MayComplete(gpu: Gpu, w: Work) {
    Submitted(gpu, w) &&
    (w in gpu.barriers ==> forall pos :: 0 <= pos < w.pos ==> Work(w.queue, pos) in gpu.done)
  }

  // ---------------------------------------------------------------- the queue registry

  /** A fence slot: free, or the barrier at a position of the slot's queue that closes a generation. */
  datatype Fence = NoFence | Fence(pos: nat, generation: nat)

  datatype Owner = Nobody | Owner(queue: nat)

  datatype RetireQueue = RetireQueue(owner: Owner, incarnation: nat, openGeneration: nat, retiredGeneration: nat,
                                     pendingUses: nat, fences: seq<Fence>)

  datatype Registry = Registry(slots: seq<RetireQueue>, count: nat, accepting: bool, counter: nat)

  function NoFences(): (s: seq<Fence>)
    ensures |s| == FENCE_SLOTS && forall i :: 0 <= i < |s| ==> s[i] == NoFence
  {
    seq(FENCE_SLOTS, i => NoFence)
  }

  function Blank(): RetireQueue {
    RetireQueue(Nobody, 0, 1, 0, 0, NoFences())
  }

  function NewRegistry(): Registry {
    Registry(seq(MAX_QUEUES, i => Blank()), 0, false, 0)
  }

  /** Asking after the first `k` fences; `seen` holds the positions whose events answered complete. */
  function Poll(rq: RetireQueue, k: nat, seen: set<nat>): (r: RetireQueue)
    requires k <= |rq.fences|
    ensures |r.fences| == |rq.fences| && rq.retiredGeneration <= r.retiredGeneration
    ensures r == rq.(retiredGeneration := r.retiredGeneration, fences := r.fences)
  {
    if k == 0 then rq
    else
      var r := Poll(rq, k - 1, seen);
      var f := rq.fences[k - 1];
      if f.Fence? && f.pos in seen then
        r.(retiredGeneration := if f.generation > r.retiredGeneration then f.generation else r.retiredGeneration,
           fences := r.fences[k - 1 := NoFence])
      else r
  }

  predicate Seen(f: Fence, seen: set<nat>) {
    f.Fence? && f.pos in seen
  }

  /**
    Between two states of a slot, the generation of each of the first `k` fences that answered was
    retired, that fence was freed, and the retired generation moved to one of those or not at all.
  */
  predicate Answers(rq: RetireQueue, r: RetireQueue, k: nat, seen: set<nat>)
    requires k <= |rq.fences| == |r.fences|
  {
    && (forall j :: 0 <= j < k && Seen(rq.fences[j], seen) ==>
          r.retiredGeneration >= rq.fences[j].generation && r.fences[j] == NoFence)
    && (r.retiredGeneration == rq.retiredGeneration ||
        exists j :: 0 <= j < k && Seen(rq.fences[j], seen) && r.retiredGeneration == rq.fences[j].generation)
  }

  /** The first free fence slot from `i` on, or the number of slots. */
  function FreeFence(fences: seq<Fence>, i: nat): (r: nat)
    requires i <= |fences|
    ensures i <= r <= |fences| && (r < |fences| ==> fences[r].NoFence?)
    ensures forall j :: i <= j < r ==> fences[j].Fence?
    decreases |fences| - i
  {
    if i == |fences| || fences[i].NoFence? then i else FreeFence(fences, i + 1)
  }

  /** A barrier is submitted only for pending uses and into a free fence slot. */
  predicate Closes(rq: RetireQueue, ok: bool) {
    rq.owner.Owner? && rq.pendingUses > 0 && FreeFence(rq.fences, 0) < |rq.fences| && ok
  }

  /** Closing the open generation with a barrier at position `pos`. */
  function CloseGeneration(rq: RetireQueue, pos: nat, ok: bool): RetireQueue {
    if Closes(rq, ok) then
      rq.(fences := rq.fences[FreeFence(rq.fences, 0) := Fence(pos, rq.openGeneration)],
          openGeneration := rq.openGeneration + 1, pendingUses := 0)
    else rq
  }

  /** The slot of a queue, or the number of registered queues. */
  function FindSlot(reg: Registry, queue: nat, i: nat): (r: nat)
    requires i <= reg.count <= |reg.slots|
    ensures i <= r <= reg.count && (r < reg.count ==> reg.slots[r].owner == Owner(queue))
    decreases reg.count - i
  {
    if i == reg.count || reg.slots[i].owner == Owner(queue) then i else FindSlot(reg, queue, i + 1)
  }

  /** Finding or registering a queue; `refused` stands for a foreign backend, a wrong device or an exception. */
  function Note(reg: Registry, queue: nat, refused: bool): (Registry, nat)
    requires reg.count <= |reg.slots|
  {
    if !reg.accepting || refused then (reg, MAX_QUEUES)
    else
      var i := FindSlot(reg, queue, 0);
      if i < reg.count then (reg, i)
      else if reg.count >= MAX_QUEUES || reg.count >= |reg.slots| then (reg, MAX_QUEUES)
      else if reg.counter >= INCARNATION_SPAN - 1 then (reg, MAX_QUEUES)
      else
        var slot := reg.slots[reg.count].(owner := Owner(queue), incarnation := reg.counter + 1);
        (reg.(slots := reg.slots[reg.count := slot], count := reg.count + 1, counter := reg.counter + 1), reg.count)
  }

  /** One more use of the open generation; a full batch asks for its fence. */
  function CountUse(rq: RetireQueue): RetireQueue {
    if rq.pendingUses < BATCH_USES then rq.(pendingUses := rq.pendingUses + 1) else rq
  }

  datatype Driver = Driver(seen: set<nat>, barrierOk: bool)

  /** What issuing a token does to its slot, and the token; zero when the generations are used up. */
  function UseSlot(rq: RetireQueue, i: nat, pos: nat, d: Driver): (RetireQueue, nat) {
    var polled := Poll(rq, |rq.fences|, d.seen);
    if polled.openGeneration >= GENERATION_SPAN then (polled, 0)
    else
      var token := Pack(i + 1, polled.incarnation, polled.openGeneration);
      var counted := CountUse(polled);
      (if counted.pendingUses >= BATCH_USES then CloseGeneration(counted, pos, d.barrierOk) else counted, token)
  }

  /** Whether issuing the token submits a barrier. */
  predicate UseCloses(rq: RetireQueue, d: Driver) {
    var polled := Poll(rq, |rq.fences|, d.seen);
    polled.openGeneration < GENERATION_SPAN &&
    CountUse(polled).pendingUses >= BATCH_USES && Closes(CountUse(polled), d.barrierOk)
  }

  function IssueToken(reg: Registry, queue: nat, refused: bool, pos: nat, d: Driver): (Registry, nat)
    requires reg.count <= |reg.slots|
  {
    var (noted, i) := Note(reg, queue, refused);
    if i >= MAX_QUEUES || i >= |noted.slots| then (noted, 0)
    else
      var (rq, token) := UseSlot(noted.slots[i], i, pos, d);
      (noted.(slots := noted.slots[i := rq]), token)
  }

  /** A snapshot's visit to one slot: ask after its fences, and close a partial batch when forced. */
  function Visit(rq: RetireQueue, force: bool, pos: nat, d: Driver): RetireQueue {
    var polled := Poll(rq, |rq.fences|, d.seen);
    if force && polled.pendingUses > 0 then CloseGeneration(polled, pos, d.barrierOk) else polled
  }

  predicate VisitCloses(rq: RetireQueue, force: bool, d: Driver) {
    var polled := Poll(rq, |rq.fences|, d.seen);
    force && Closes(polled, d.barrierOk)
  }

  /** Everything forgotten except how many incarnations there have been. */
  function Reset(reg: Registry): Registry {
    Registry(seq(|reg.slots|, i => Blank()), 0, reg.accepting, reg.counter)
  }

  // ---------------------------------------------------------------- pages

  datatype Mapping = Unmapped | Mapped | Indeterminate

  datatype Page = Page(handle: nat, mapping: Mapping, serial: nat, pins: nat, external: nat, capture: nat,
                       tokens: seq<nat>, unknown: bool, evicting: bool, generation: nat)

  predicate IsMapped(p: Page) {
    p.handle != 0 && p.mapping == Mapped
  }

  predicate Held(p: Page) {
    p.external > 0 || p.capture > 0
  }

  function CancelEviction(p: Page): Page {
    if p.evicting then p.(evicting := false, generation := p.generation + 1) else p
  }

  function FindTag(tokens: seq<nat>, tag: nat, i: nat): (r: nat)
    requires i <= |tokens|
    ensures i <= r <= |tokens| && (r < |tokens| ==> TagOf(tokens[r]) == tag)
    ensures forall j :: i <= j < r ==> TagOf(tokens[j]) != tag
    decreases |tokens| - i
  {
    if i == |tokens| || TagOf(tokens[i]) == tag then i else FindTag(tokens, tag, i + 1)
  }

  /** Recording a token: one per queue slot, the largest wins; zero, or a full list, poisons the page. */
  function RetireRecord(p: Page, token: nat): Page {
    if token == 0 then p.(unknown := true)
    else
      var i := FindTag(p.tokens, TagOf(token), 0);
      if i < |p.tokens| then (if token > p.tokens[i] then p.(tokens := p.tokens[i := token]) else p)
      else if |p.tokens| >= MAX_QUEUES then p.(unknown := true)
      else p.(tokens := p.tokens + [token])
  }

  /** The entry of the snapshot for the token's slot has its incarnation and has retired its generation. */
  predicate TokenComplete(token: nat, completed: seq<nat>) {
    var tag := TagOf(token);
    && 1 <= tag <= |completed|
    && completed[tag - 1] / GENERATION_SPAN == IncarnationOf(token)
    && completed[tag - 1] % GENERATION_SPAN >= GenerationOf(token)
  }

  predicate RetireComplete(p: Page, completed: seq<nat>) {
    !p.unknown && !Held(p) && forall i :: 0 <= i < |p.tokens| ==> TokenComplete(p.tokens[i], completed)
  }

  /** What recording a consumer does to a page: a missing queue poisons it, unless a capture holds it and may. */
  function Consume(p: Page, token: nat, captureShields: bool): Page {
    var q := CancelEviction(p);
    if token != 0 then RetireRecord(q, token)
    else if captureShields && q.capture > 0 then q
    else q.(unknown := true)
  }
}
