/**
  What one queue slot guarantees: tokens unpack to what they were packed from and order like
  (incarnation, generation); and a retired generation means that its uses are done.
*/
module RetireTokens {
  import opened RetireModel

  lemma PackUnpacks(tag: nat, incarnation: nat, generation: nat)
    requires Packable(tag, incarnation, generation)
    ensures TagOf(Pack(tag, incarnation, generation)) == tag
    ensures GenerationOf(Pack(tag, incarnation, generation)) == generation
    ensures IncarnationOf(Pack(tag, incarnation, generation)) == incarnation
    ensures Pack(tag, incarnation, generation) < 0x1_0000_0000_0000_0000
  {
    var stamp := Stamp(incarnation, generation);
    assert (stamp * TAG_SPAN + tag) / TAG_SPAN == stamp;
    assert (incarnation * GENERATION_SPAN + generation) / GENERATION_SPAN == incarnation;
  }

  /** Tokens of one slot compare like their incarnations, and within one incarnation like their generations. */
  lemma PackOrder(t: nat, u: nat)
    requires TagOf(t) == TagOf(u)
    ensures t <= u <==> IncarnationOf(t) < IncarnationOf(u) ||
                        (IncarnationOf(t) == IncarnationOf(u) && GenerationOf(t) <= GenerationOf(u))
  {
    var a, b := t / TAG_SPAN, u / TAG_SPAN;
    assert t == a * TAG_SPAN + TagOf(t) && u == b * TAG_SPAN + TagOf(u);
    StampOrder(a, b);
  }

  lemma StampOrder(a: nat, b: nat)
    ensures a <= b <==> a / GENERATION_SPAN < b / GENERATION_SPAN ||
                        (a / GENERATION_SPAN == b / GENERATION_SPAN && a % GENERATION_SPAN <= b % GENERATION_SPAN)
  {}

  lemma StampUnpacks(incarnation: nat, generation: nat)
    requires generation < GENERATION_SPAN
    ensures Stamp(incarnation, generation) / GENERATION_SPAN == incarnation
    ensures Stamp(incarnation, generation) % GENERATION_SPAN == generation
  {}

  // ---------------------------------------------------------------- the device

  /** What is done was submitted, and a barrier is done only after all work before it. */
  ghost predicate GpuOk(gpu: Gpu) {
    && (forall w :: w in gpu.done ==> Submitted(gpu, w))
    && (forall w :: w in gpu.barriers ==> Submitted(gpu, w))
    && (forall w, pos: nat :: w in gpu.barriers && w in gpu.done && pos < w.pos ==> Work(w.queue, pos) in gpu.done)
  }

  predicate Grew(gpu: Gpu, gpu': Gpu) {
    && gpu.done <= gpu'.done && gpu.barriers <= gpu'.barriers
    && forall q :: q in gpu.lengths ==> q in gpu'.lengths && gpu.lengths[q] <= gpu'.lengths[q]
  }

  lemma SubmitKeeps(gpu: Gpu, queue: nat)
    requires GpuOk(gpu)
    ensures GpuOk(Submit(gpu, queue)) && Grew(gpu, Submit(gpu, queue))
    ensures GpuOk(SubmitBarrier(gpu, queue)) && Grew(gpu, SubmitBarrier(gpu, queue))
    ensures Work(queue, Length(gpu.lengths, queue)) !in gpu.done
  {
    var w := Work(queue, Length(gpu.lengths, queue));
    assert !Submitted(gpu, w);
    BarrierKeeps(gpu, queue);
  }

  lemma BarrierKeeps(gpu: Gpu, queue: nat)
    requires GpuOk(gpu) && Work(queue, Length(gpu.lengths, queue)) !in gpu.done
    ensures GpuOk(SubmitBarrier(gpu, queue))
  {}

  lemma CompleteKeeps(gpu: Gpu, w: Work)
    requires GpuOk(gpu) && MayComplete(gpu, w)
    ensures GpuOk(gpu.(done := gpu.done + {w})) && Grew(gpu, gpu.(done := gpu.done + {w}))
  {}

  // ---------------------------------------------------------------- one slot

  predicate SlotOk(rq: RetireQueue, gpu: Gpu, counter: nat) {
    && rq.owner.Owner? && 1 <= rq.incarnation <= counter
    && rq.retiredGeneration < rq.openGeneration <= GENERATION_SPAN
    && (rq.openGeneration == GENERATION_SPAN ==> rq.pendingUses == 0)
    && |rq.fences| == FENCE_SLOTS
    && forall k :: 0 <= k < |rq.fences| && rq.fences[k].Fence? ==>
         rq.fences[k].generation < rq.openGeneration && Work(rq.owner.queue, rq.fences[k].pos) in gpu.barriers
  }

  /** The slot accounts for a use of one of its generations: once that is retired, the use is done. */
  predicate Tracks(rq: RetireQueue, gpu: Gpu, generation: nat, w: Work) {
    && rq.owner == Owner(w.queue) && generation <= rq.openGeneration && Submitted(gpu, w)
    && (generation <= rq.retiredGeneration ==> w in gpu.done)
    && forall k :: 0 <= k < |rq.fences| && rq.fences[k].Fence? && generation <= rq.fences[k].generation ==>
         w.pos < rq.fences[k].pos
  }

  predicate SeenDone(rq: RetireQueue, gpu: Gpu, seen: set<nat>) {
    rq.owner.Owner? ==> forall pos :: pos in seen ==> Work(rq.owner.queue, pos) in gpu.done
  }

  /** Polling never loses a fence that is not seen, and adds none. */
  lemma {:induction false} PollFences(rq: RetireQueue, k: nat, seen: set<nat>)
    requires k <= |rq.fences|
    ensures forall j :: 0 <= j < |rq.fences| ==>
              Poll(rq, k, seen).fences[j] == rq.fences[j] || Poll(rq, k, seen).fences[j] == NoFence
  {
    if k > 0 { PollFences(rq, k - 1, seen); }
  }

  lemma {:induction false} PollKeepsSlot(rq: RetireQueue, k: nat, gpu: Gpu, counter: nat, seen: set<nat>)
    requires k <= |rq.fences| && SlotOk(rq, gpu, counter)
    ensures SlotOk(Poll(rq, k, seen), gpu, counter)
  {
    if k > 0 {
      PollKeepsSlot(rq, k - 1, gpu, counter, seen);
      PollFences(rq, k - 1, seen);
    }
  }

  lemma {:induction false} PollTracks(rq: RetireQueue, k: nat, gpu: Gpu, counter: nat, seen: set<nat>, generation: nat, w: Work)
    requires k <= |rq.fences| && SlotOk(rq, gpu, counter) && GpuOk(gpu) && SeenDone(rq, gpu, seen)
    requires Tracks(rq, gpu, generation, w)
    ensures Tracks(Poll(rq, k, seen), gpu, generation, w)
  {
    if k > 0 {
      PollTracks(rq, k - 1, gpu, counter, seen, generation, w);
      PollFences(rq, k - 1, seen);
      var f := rq.fences[k - 1];
      if f.Fence? && f.pos in seen && generation <= f.generation {
        assert Work(rq.owner.queue, f.pos) in gpu.barriers && Work(rq.owner.queue, f.pos) in gpu.done;
        assert Work(rq.owner.queue, w.pos) == w;
      }
    }
  }

  /** A barrier submitted now is behind every use so far. */
  lemma CloseKeeps(rq: RetireQueue, gpu: Gpu, counter: nat, ok: bool, generation: nat, w: Work)
    requires SlotOk(rq, gpu, counter) && Tracks(rq, gpu, generation, w)
    ensures var pos := Length(gpu.lengths, rq.owner.queue);
      var gpu' := if Closes(rq, ok) then SubmitBarrier(gpu, rq.owner.queue) else gpu;
      Tracks(CloseGeneration(rq, pos, ok), gpu', generation, w)
  {}

  lemma CloseKeepsSlot(rq: RetireQueue, gpu: Gpu, counter: nat, ok: bool)
    requires SlotOk(rq, gpu, counter)
    ensures var pos := Length(gpu.lengths, rq.owner.queue);
      var gpu' := if Closes(rq, ok) then SubmitBarrier(gpu, rq.owner.queue) else gpu;
      SlotOk(CloseGeneration(rq, pos, ok), gpu', counter)
  {}

  lemma GrewTracks(rq: RetireQueue, gpu: Gpu, gpu': Gpu, counter: nat, counter': nat, generation: nat, w: Work)
    requires Grew(gpu, gpu') && counter <= counter'
    ensures SlotOk(rq, gpu, counter) ==> SlotOk(rq, gpu', counter')
    ensures Tracks(rq, gpu, generation, w) ==> Tracks(rq, gpu', generation, w)
  {}

  // ---------------------------------------------------------------- using and visiting a slot

  function UseGpu(rq: RetireQueue, gpu: Gpu, d: Driver): Gpu
    requires rq.owner.Owner?
  {
    if UseCloses(rq, d) then SubmitBarrier(gpu, rq.owner.queue) else gpu
  }

  function VisitGpu(rq: RetireQueue, force: bool, gpu: Gpu, d: Driver): Gpu
    requires rq.owner.Owner?
  {
    if VisitCloses(rq, force, d) then SubmitBarrier(gpu, rq.owner.queue) else gpu
  }

  /** The state of the slot between the poll and the possible barrier. */
  function Counted(rq: RetireQueue, d: Driver): RetireQueue {
    CountUse(Poll(rq, |rq.fences|, d.seen))
  }

  lemma UseKeepsSlot(rq: RetireQueue, i: nat, gpu: Gpu, counter: nat, d: Driver)
    requires SlotOk(rq, gpu, counter)
    ensures SlotOk(UseSlot(rq, i, Length(gpu.lengths, rq.owner.queue), d).0, UseGpu(rq, gpu, d), counter)
  {
    PollKeepsSlot(rq, |rq.fences|, gpu, counter, d.seen);
    if Poll(rq, |rq.fences|, d.seen).openGeneration < GENERATION_SPAN {
      CloseKeepsSlot(Counted(rq, d), gpu, counter, d.barrierOk);
    }
  }

  lemma UseTracks(rq: RetireQueue, i: nat, gpu: Gpu, counter: nat, d: Driver, generation: nat, w: Work)
    requires SlotOk(rq, gpu, counter) && GpuOk(gpu) && SeenDone(rq, gpu, d.seen) && Tracks(rq, gpu, generation, w)
    ensures Tracks(UseSlot(rq, i, Length(gpu.lengths, rq.owner.queue), d).0, UseGpu(rq, gpu, d), generation, w)
  {
    PollKeepsSlot(rq, |rq.fences|, gpu, counter, d.seen);
    PollTracks(rq, |rq.fences|, gpu, counter, d.seen, generation, w);
    if Poll(rq, |rq.fences|, d.seen).openGeneration < GENERATION_SPAN {
      CloseKeeps(Counted(rq, d), gpu, counter, d.barrierOk, generation, w);
    }
  }

  /** The token names the slot, and the slot tracks the use it was issued for. */
  lemma IssuedIsTracked(rq: RetireQueue, i: nat, gpu: Gpu, counter: nat, d: Driver, w: Work)
    requires SlotOk(rq, gpu, counter) && GpuOk(gpu) && SeenDone(rq, gpu, d.seen)
    requires i < MAX_QUEUES && counter < INCARNATION_SPAN && rq.owner == Owner(w.queue) && Submitted(gpu, w)
    ensures var (rq', token) := UseSlot(rq, i, Length(gpu.lengths, rq.owner.queue), d);
      token != 0 ==>
        && TagOf(token) == i + 1 && IncarnationOf(token) == rq.incarnation
        && rq'.retiredGeneration < GenerationOf(token) && rq.retiredGeneration < GenerationOf(token)
        && Tracks(rq', UseGpu(rq, gpu, d), GenerationOf(token), w)
  {
    var polled := Poll(rq, |rq.fences|, d.seen);
    PollKeepsSlot(rq, |rq.fences|, gpu, counter, d.seen);
    if polled.openGeneration < GENERATION_SPAN {
      PackUnpacks(i + 1, polled.incarnation, polled.openGeneration);
      assert Tracks(Counted(rq, d), gpu, polled.openGeneration, w);
      CloseKeeps(Counted(rq, d), gpu, counter, d.barrierOk, polled.openGeneration, w);
    }
  }

  lemma VisitKeepsSlot(rq: RetireQueue, force: bool, gpu: Gpu, counter: nat, d: Driver)
    requires SlotOk(rq, gpu, counter)
    ensures SlotOk(Visit(rq, force, Length(gpu.lengths, rq.owner.queue), d), VisitGpu(rq, force, gpu, d), counter)
  {
    PollKeepsSlot(rq, |rq.fences|, gpu, counter, d.seen);
    CloseKeepsSlot(Poll(rq, |rq.fences|, d.seen), gpu, counter, d.barrierOk);
  }

  lemma VisitTracks(rq: RetireQueue, force: bool, gpu: Gpu, counter: nat, d: Driver, generation: nat, w: Work)
    requires SlotOk(rq, gpu, counter) && GpuOk(gpu) && SeenDone(rq, gpu, d.seen) && Tracks(rq, gpu, generation, w)
    ensures Tracks(Visit(rq, force, Length(gpu.lengths, rq.owner.queue), d), VisitGpu(rq, force, gpu, d), generation, w)
  {
    PollKeepsSlot(rq, |rq.fences|, gpu, counter, d.seen);
    PollTracks(rq, |rq.fences|, gpu, counter, d.seen, generation, w);
    CloseKeeps(Poll(rq, |rq.fences|, d.seen), gpu, counter, d.barrierOk, generation, w);
  }
}
