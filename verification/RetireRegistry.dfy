/** The queue registry and the pages' retirement lists as the objects that the two locks guard. */
module RetireRegistries {
  import opened RetireModel

  /** The process-wide registry of queues that were seen to use pages. */
  class RetireRegistry {
    var queues: array<RetireQueue>
    var count: nat
    var accepting: bool
    var counter: nat

    ghost predicate Valid()
      reads this, queues
    {
      queues.Length == MAX_QUEUES && count <= MAX_QUEUES &&
      forall i :: 0 <= i < MAX_QUEUES ==> |queues[i].fences| == FENCE_SLOTS
    }

    ghost function State(): Registry
      reads this, queues
    {
      Registry(queues[..], count, accepting, counter)
    }

    constructor ()
      ensures Valid() && fresh(queues) && State() == NewRegistry()
    {
      queues := new RetireQueue[MAX_QUEUES](i => Blank());
      count, accepting, counter := 0, false, 0;
    }

    /** Finds the queue's slot or registers it; MAX_QUEUES when it cannot be tracked. */
    method NoteQueue(queue: nat, refused: bool) returns (index: nat)
      requires Valid()
      modifies this, queues
      ensures Valid() && queues == old(queues)
      ensures (State(), index) == Note(old(State()), queue, refused)
    {
      if !accepting || refused {
        return MAX_QUEUES;
      }
      index := 0;
      while index < count
        invariant index <= count && FindSlot(State(), queue, 0) == FindSlot(State(), queue, index)
      {
        if queues[index].owner == Owner(queue) {
          return index;
        }
        index := index + 1;
      }
      if count >= MAX_QUEUES {
        return MAX_QUEUES;
      }
      if counter >= INCARNATION_SPAN - 1 {
        return MAX_QUEUES;
      }
      counter := counter + 1;
      queues[count] := queues[count].(owner := Owner(queue), incarnation := counter);
      count := count + 1;
      return count - 1;
    }

    /** Asks after every fence of a slot and retires the generations whose barriers are complete. */
    method PollQueue(i: nat, seen: set<nat>)
      requires Valid() && i < MAX_QUEUES
      modifies queues
      ensures Valid() && queues[..] == old(queues[..])[i := Poll(old(queues[i]), FENCE_SLOTS, seen)]
      ensures Answers(old(queues[i]), queues[i], FENCE_SLOTS, seen)
      ensures forall k :: 0 <= k < FENCE_SLOTS && !Seen(old(queues[i]).fences[k], seen) ==> queues[i].fences[k] == old(queues[i]).fences[k]
    {
      ghost var before := queues[..];
      var rq := queues[i];
      for slot := 0 to FENCE_SLOTS
        invariant |rq.fences| == FENCE_SLOTS && rq == Poll(before[i], slot, seen) && Answers(before[i], rq, slot, seen)
        invariant forall k :: 0 <= k < slot && !Seen(before[i].fences[k], seen) ==> rq.fences[k] == before[i].fences[k]
        invariant forall k :: slot <= k < FENCE_SLOTS ==> rq.fences[k] == before[i].fences[k]
        invariant queues[..] == before
      {
        var fence := rq.fences[slot];
        if fence.Fence? && fence.pos in seen {
          rq := rq.(retiredGeneration := if fence.generation > rq.retiredGeneration then fence.generation else rq.retiredGeneration,
                    fences := rq.fences[slot := NoFence]);
        }
      }
      queues[i] := rq;
    }

    /** Submits a barrier for the open generation, if there are uses to cover and a fence slot is free. */
    method SubmitFence(i: nat, pos: nat, ok: bool) returns (submitted: bool)
      requires Valid() && i < MAX_QUEUES
      modifies queues
      ensures Valid() && submitted == Closes(old(queues[i]), ok)
      ensures queues[..] == old(queues[..])[i := CloseGeneration(old(queues[i]), pos, ok)]
    {
      ghost var before := queues[..];
      var rq := queues[i];
      if rq.owner.Nobody? || rq.pendingUses == 0 {
        assert before[i := rq] == before;
        return false;
      }
      var slot := 0;
      while slot < FENCE_SLOTS && rq.fences[slot].Fence?
        invariant slot <= FENCE_SLOTS && FreeFence(rq.fences, 0) == FreeFence(rq.fences, slot)
      {
        slot := slot + 1;
      }
      if slot == FENCE_SLOTS || !ok {
        assert before[i := rq] == before;
        return false;
      }
      queues[i] := rq.(fences := rq.fences[slot := Fence(pos, rq.openGeneration)],
                       openGeneration := rq.openGeneration + 1, pendingUses := 0);
      return true;
    }

    /** The token for a use that was just submitted to a queue; zero when it cannot be tracked. */
    method TokenCurrent(queue: nat, refused: bool, pos: nat, d: Driver) returns (token: nat)
      requires Valid()
      modifies this, queues
      ensures Valid() && queues == old(queues)
      ensures (State(), token) == IssueToken(old(State()), queue, refused, pos, d)
    {
      var i := NoteQueue(queue, refused);
      if i >= MAX_QUEUES {
        return 0;
      }
      ghost var noted := State();
      PollQueue(i, d.seen);
      if queues[i].openGeneration >= GENERATION_SPAN {
        return 0;
      }
      token := Pack(i + 1, queues[i].incarnation, queues[i].openGeneration);
      if queues[i].pendingUses < BATCH_USES {
        queues[i] := queues[i].(pendingUses := queues[i].pendingUses + 1);
      }
      if queues[i].pendingUses >= BATCH_USES {
        var _ := SubmitFence(i, pos, d.barrierOk);
      }
      assert queues[..] == noted.slots[i := UseSlot(noted.slots[i], i, pos, d).0];
    }

    /** Writes what every slot has retired, after polling it and, when forced, closing its partial batch. */
    method Snapshot(completed: array<nat>, force: bool, positions: seq<nat>, ds: seq<Driver>) returns (copied: nat)
      requires Valid() && |positions| == |ds| == MAX_QUEUES
      modifies queues, completed
      ensures Valid() && count == old(count) && copied == if completed.Length < count then completed.Length else count
      ensures forall i :: 0 <= i < count ==>
                queues[i] == if completed.Length == 0 then old(queues[i]) else Visit(old(queues[i]), force, positions[i], ds[i])
      ensures forall i :: count <= i < MAX_QUEUES ==> queues[i] == old(queues[i])
      ensures forall i :: 0 <= i < copied ==> completed[i] == Stamp(queues[i].incarnation, queues[i].retiredGeneration)
      ensures forall i :: copied <= i < completed.Length ==> completed[i] == 0
      ensures completed.Length > 0 ==>
                forall i, k :: 0 <= i < count && 0 <= k < FENCE_SLOTS && Seen(old(queues[i]).fences[k], ds[i].seen) ==>
                  queues[i].retiredGeneration >= old(queues[i]).fences[k].generation
    {
      copied := if completed.Length < count then completed.Length else count;
      if completed.Length == 0 {
        return;
      }
      for i := 0 to count
        invariant Valid() && count == old(count)
        invariant forall k :: 0 <= k < i ==> queues[k] == Visit(old(queues[k]), force, positions[k], ds[k])
        invariant forall k :: i <= k < MAX_QUEUES ==> queues[k] == old(queues[k])
        invariant forall k :: 0 <= k < i && k < copied ==>
                    completed[k] == Stamp(queues[k].incarnation, queues[k].retiredGeneration)
        invariant forall j, k :: 0 <= j < i && 0 <= k < FENCE_SLOTS && Seen(old(queues[j]).fences[k], ds[j].seen) ==>
                    queues[j].retiredGeneration >= old(queues[j]).fences[k].generation
      {
        VisitQueue(i, force, positions[i], ds[i]);
        if i < copied {
          completed[i] := Stamp(queues[i].incarnation, queues[i].retiredGeneration);
        }
      }
      for i := copied to completed.Length
        modifies completed
        invariant forall k :: 0 <= k < copied ==> completed[k] == Stamp(queues[k].incarnation, queues[k].retiredGeneration)
        invariant forall k :: copied <= k < i ==> completed[k] == 0
      {
        completed[i] := 0;
      }
    }

    method VisitQueue(i: nat, force: bool, pos: nat, d: Driver)
      requires Valid() && i < MAX_QUEUES
      modifies queues
      ensures Valid() && queues[..] == old(queues[..])[i := Visit(old(queues[i]), force, pos, d)]
      ensures forall k :: 0 <= k < FENCE_SLOTS && Seen(old(queues[i]).fences[k], d.seen) ==>
                queues[i].retiredGeneration >= old(queues[i]).fences[k].generation
    {
      PollQueue(i, d.seen);
      if force && queues[i].pendingUses > 0 {
        var _ := SubmitFence(i, pos, d.barrierOk);
      }
    }

    /** Forgets every queue once all of them are drained; the incarnation counter goes on. */
    method ForgetAll()
      requires Valid()
      modifies this, queues
      ensures Valid() && queues == old(queues) && State() == Reset(old(State()))
    {
      for i := 0 to MAX_QUEUES
        invariant Valid() && count == old(count) && accepting == old(accepting) && counter == old(counter)
        invariant queues == old(queues) && forall k :: 0 <= k < i ==> queues[k] == Blank()
      {
        queues[i] := Blank();
      }
      count := 0;
      assert queues[..] == Reset(old(State())).slots;
    }
  }

  /** The retirement list of one page. */
  class RetireList {
    var tokens: array<nat>
    var count: nat
    var unknown: bool

    ghost predicate Valid()
      reads this, tokens
    {
      tokens.Length == MAX_QUEUES && count <= MAX_QUEUES
    }

    /** The page whose retirement state this list is. */
    ghost predicate Lists(page: Page)
      reads this, tokens
    {
      Valid() && page.tokens == tokens[..count] && page.unknown == unknown
    }

    constructor ()
      ensures Valid() && fresh(tokens) && count == 0 && !unknown
    {
      tokens := new nat[MAX_QUEUES];
      count, unknown := 0, false;
    }

    method Forget()
      requires Valid()
      modifies this
      ensures Valid() && tokens == old(tokens) && count == 0 && !unknown
    {
      count, unknown := 0, false;
    }

    /** Remembers a token in place of an older one of the same queue slot. */
    method Record(token: nat, ghost page: Page)
      requires Lists(page)
      modifies this, tokens
      ensures tokens == old(tokens) && Lists(RetireRecord(page, token))
    {
      if token == 0 {
        unknown := true;
        return;
      }
      var tag := TagOf(token);
      for index := 0 to count
        invariant Lists(page) && tokens == old(tokens) && count == old(count)
        invariant FindTag(page.tokens, tag, 0) == FindTag(page.tokens, tag, index)
      {
        if TagOf(tokens[index]) == tag {
          if token > tokens[index] {
            tokens[index] := token;
          }
          return;
        }
      }
      if count >= MAX_QUEUES {
        unknown := true;
        return;
      }
      tokens[count] := token;
      count := count + 1;
    }

    /** Whether a snapshot of the registry proves every remembered use complete. */
    method Complete(completed: seq<nat>, held: bool, ghost page: Page) returns (complete: bool)
      requires Lists(page) && held == Held(page)
      ensures complete <==> RetireComplete(page, completed)
    {
      if unknown || held {
        return false;
      }
      for index := 0 to count
        invariant forall k :: 0 <= k < index ==> TokenComplete(page.tokens[k], completed)
      {
        var token := tokens[index];
        assert page.tokens[index] == token;
        var tag := TagOf(token);
        if tag == 0 || tag - 1 >= |completed| {
          return false;
        }
        if completed[tag - 1] / GENERATION_SPAN != IncarnationOf(token) ||
           completed[tag - 1] % GENERATION_SPAN < GenerationOf(token) {
          return false;
        }
      }
      return true;
    }
  }
}
