/** The hook's state as the object its mutex guards. */
module UrHooks {
  import opened UrModel

  class UrHook {
    var enabled: bool
    var generation: nat
    var shutdown: bool
    var entries: seq<Entry>
    var totals: map<nat, nat>
    var hints: map<nat, nat>
    var retry: Retry
    var retiredLive: int
    var retiredBytes: nat
    var freedBytes: nat
    var ooms: nat
    var hinted: nat

    ghost function State(): Hook
      reads this
    {
      Hook(enabled, generation, shutdown, entries, totals, hints, retry, retiredLive, retiredBytes, freedBytes, ooms, hinted)
    }

    constructor (devices: map<nat, nat>)
      ensures State() == Hook(false, 0, false, [], devices, map[], NO_RETRY, 0, 0, 0, 0, 0)
    {
      enabled, generation, shutdown, entries, totals, hints := false, 0, false, [], devices, map[];
      retry, retiredLive, retiredBytes, freedBytes, ooms, hinted := NO_RETRY, 0, 0, 0, 0, 0;
    }

    /** The context's answer to a charge or a discharge; a discharge stops at zero. */
    method Charge(device: nat, delta: int) returns (ok: bool)
      modifies this`totals
      ensures (totals, ok) == Account(old(totals), device, delta)
    {
      if device !in totals {
        return false;
      }
      if delta >= 0 {
        totals := totals[device := totals[device] + delta];
      } else {
        var released := -delta;
        totals := totals[device := if released < totals[device] then totals[device] - released else 0];
      }
      return true;
    }

    method Locate(ptr: nat) returns (i: nat)
      ensures i == Find(entries, ptr, 0)
    {
      i := 0;
      while i < |entries| && entries[i].ptr != ptr
        invariant i <= |entries| && Find(entries, ptr, 0) == Find(entries, ptr, i)
      {
        i := i + 1;
      }
    }

    /** Records a native success; the entry goes again when the context refuses the charge. */
    method RecordSuccess(ptr: nat, size: nat, device: nat, owned: bool, hostOk: bool) returns (recorded: Recorded)
      modifies this
      ensures (State(), recorded) == AccountSuccess(old(State()), ptr, size, device, owned, hostOk)
    {
      if ptr == 0 {
        return InvalidPointer;
      }
      if !hostOk {
        return MetadataFailure;
      }
      var i := Locate(ptr);
      if i < |entries| {
        return Duplicate;
      }
      var before := entries;
      entries := entries + [Entry(ptr, size, device, true, false, owned)];
      var ok := Charge(device, size);
      if !ok {
        entries := before;
        return MetadataFailure;
      }
      return Success;
    }

    method AllocateNative(size: nat, w: World) returns (outcome: Outcome)
      modifies this
      ensures (State(), outcome) == AllocateAndAccount(old(State()), size, w)
    {
      match w.native {
        case OutOfMemory => return DeviceOom;
        case OutOfHostMemory => return HostOom;
        case OutOfResources => return DeviceOom;
        case Refused => return Failed;
        case Allocated(ptr) =>
          var recorded := RecordSuccess(ptr, size, w.device, w.owned, w.metadataOk);
          return if recorded == Success then Pointer(ptr) else HostOom;
      }
    }

    /** Whether a nonzero hint was there; it is spent by asking. */
    method ConsumeHint(device: nat) returns (found: bool)
      modifies this`hints
      ensures found == HasHint(old(hints), device)
      ensures hints == if found then old(hints)[device := 0] else old(hints)
    {
      if device !in hints || hints[device] == 0 {
        return false;
      }
      hints := hints[device := 0];
      return true;
    }

    /**
      A device allocation, and how many bytes were asked of the pager for it.  A pointer is answered
      exactly when the native allocator gave it and the ledger now lists it with its size and device.
    */
    method DeviceAlloc(q: Request, w: World) returns (outcome: Outcome, evicted: nat)
      modifies this
      ensures (State(), outcome) == Alloc(old(State()), q, w) && evicted == Eviction(old(State()), q, w)
      ensures outcome.Pointer? ==>
                && w.native == Allocated(outcome.ptr) && outcome.ptr !in Pointers(old(entries))
                && entries == old(entries) + [Entry(outcome.ptr, q.size, w.device, true, false, w.owned)]
      ensures !outcome.Pointer? ==> entries == old(entries)
      ensures outcome.Pointer? <==>
                && ReachesNative(old(State()), q, w) && w.native.Allocated? && w.native.ptr != 0
                && w.metadataOk && w.native.ptr !in Pointers(old(entries)) && w.device in old(totals)
    {
      hide AllocateAndAccount, Pointers, ReachesNative;
      AnswerIsListed(State(), q, w);
      AnswerIsPointerIff(State(), q, w);
      if w.owned && shutdown {
        return Uninitialized, 0;
      }
      if !enabled {
        return PassedOn, 0;
      }
      if !w.resolved || !w.knownDeficit {
        retry := NO_RETRY;
        return PassedOn, 0;
      }
      if !w.hostOk {
        retry := NO_RETRY;
        return HostOom, 0;
      }
      outcome, evicted := AllocateUnderPressure(q, w);
    }

    /** The allocation of a device whose deficit is known: refused, retried, or made after an eviction. */
    method AllocateUnderPressure(q: Request, w: World) returns (outcome: Outcome, evicted: nat)
      requires !(w.owned && shutdown) && enabled && w.resolved && w.knownDeficit && w.hostOk
      modifies this
      ensures (State(), outcome) == Alloc(old(State()), q, w) && evicted == Eviction(old(State()), q, w)
    {
      hide AllocateAndAccount;
      evicted := 0;
      var classified := w.deficit > 0 || retry.reason != Idle;
      if classified && w.torch && retry.reason != Idle && retry.request == q && retry.generation == generation {
        var reason, returned := retry.reason, retry.returned;
        retry := NO_RETRY;
        evicted := if w.deficit > 0 then w.deficit else 0;
        if reason == RuntimeOom {
          var residual := q.size - if q.size < returned then q.size else returned;
          evicted := if evicted < residual then residual else evicted;
        }
        outcome := AllocateNative(q.size, w);
        return;
      }
      retry := NO_RETRY;
      if w.deficit > 0 {
        if w.torch {
          var found := ConsumeHint(w.device);
          if found {
            retry := Retry(BudgetDeficit, q, generation, w.device, 0);
            ooms := ooms + 1;
            return DeviceOom, 0;
          }
        }
        evicted := w.deficit;
        if !w.evicted && !w.torch {
          return DeviceOom, evicted;
        }
      }
      outcome := AllocateNative(q.size, w);
      if w.torch && (outcome == DeviceOom || outcome == HostOom) {
        retry := Retry(RuntimeOom, q, generation, w.device, 0);
      }
    }

    method FreeUsm(context: nat, ptr: nat, nativeOk: bool)
      modifies this
      ensures State() == Free(old(State()), context, ptr, nativeOk)
    {
      if !enabled && retiredLive == 0 {
        return;
      }
      if !enabled {
        retry := NO_RETRY;
      }
      if !nativeOk {
        return;
      }
      var i := Locate(ptr);
      if i == |entries| {
        return;
      }
      DropEntry(context, i);
    }

    method DropEntry(context: nat, i: nat)
      requires i < |entries|
      modifies this
      ensures State() == Drop(old(State()), context, i)
    {
      var e := entries[i];
      if e.accounted {
        var _ := Charge(e.device, -(e.size as int));
      }
      if e.retired {
        freedBytes := freedBytes + e.size;
        retiredLive := retiredLive - 1;
      } else if retry.reason != Idle && retry.request.context == context && retry.device == e.device &&
                retry.generation == generation {
        retry := retry.(returned := retry.returned + e.size);
      }
      entries := entries[..i] + entries[i + 1..];
    }

    /** Charges every surviving retired entry to the new context, or takes all charges back. */
    method EnableHook() returns (ok: bool)
      modifies this
      ensures (State(), ok) == Enable(old(State()))
    {
      if enabled {
        return true;
      }
      ok := AdoptAll();
      if !ok {
        RollBackAll();
        return false;
      }
      generation := generation + 1;
      shutdown := false;
      hints := map[];
      retry := NO_RETRY;
      enabled := true;
      return true;
    }

    /** Charges the unaccounted retired entries one after another, up to the first refusal. */
    method AdoptAll() returns (ok: bool)
      modifies this`entries, this`totals
      ensures Adopt(old(entries), old(totals), |old(entries)|) == Adoption(entries, totals, ok)
    {
      ghost var es, ts := entries, totals;
      for i := 0 to |entries|
        invariant |entries| == |es| && Adopt(es, ts, i) == Adoption(entries, totals, true)
      {
        if entries[i].retired && !entries[i].accounted {
          var charged := Charge(entries[i].device, entries[i].size);
          entries := entries[i := entries[i].(accounted := charged)];
          if !charged {
            AdoptStops(es, ts, i + 1, |es|);
            return false;
          }
        }
      }
      return true;
    }

    method RollBackAll()
      modifies this`entries, this`totals
      ensures (entries, totals) == RollBack(old(entries), old(totals), |old(entries)|)
    {
      ghost var es, ts := entries, totals;
      for i := 0 to |entries|
        invariant |entries| == |es| && (entries, totals) == RollBack(es, ts, i)
      {
        if entries[i].retired && entries[i].accounted {
          var discharged := Charge(entries[i].device, -(entries[i].size as int));
          if discharged {
            entries := entries[i := entries[i].(accounted := false)];
          }
        }
      }
    }

    method DisableHook() returns (ok: bool)
      modifies this
      ensures (State(), ok) == Disable(old(State()))
    {
      if entries != [] {
        return false;
      }
      enabled := false;
      generation := generation + 1;
      hints := map[];
      retry := NO_RETRY;
      return true;
    }

    /** Hands the ledger over to nobody: refused while the library itself still owns an entry. */
    method RetireAll() returns (ok: bool)
      modifies this
      ensures (State(), ok) == RetireBorrowed(old(State()))
    {
      for i := 0 to |entries|
        invariant forall j :: 0 <= j < i ==> !entries[j].owned
      {
        if entries[i].owned {
          return false;
        }
      }
      shutdown := true;
      enabled := false;
      generation := generation + 1;
      hints := map[];
      retry := NO_RETRY;
      RetireEntries();
      return true;
    }

    /** Marks every entry retired and charged to nobody, counting those that were not retired before. */
    method RetireEntries()
      modifies this`entries, this`retiredLive, this`retiredBytes
      ensures entries == Retired(old(entries))
      ensures retiredBytes == old(retiredBytes) + FreshBytes(old(entries), |old(entries)|)
      ensures retiredLive == old(retiredLive) + FreshCount(old(entries), |old(entries)|)
    {
      var es := entries;
      for i := 0 to |es|
        invariant |entries| == |es|
        invariant retiredBytes == old(retiredBytes) + FreshBytes(es, i) && retiredLive == old(retiredLive) + FreshCount(es, i)
        invariant forall j :: 0 <= j < i ==> entries[j] == es[j].(retired := true, accounted := false)
        invariant forall j :: i <= j < |es| ==> entries[j] == es[j]
      {
        if !entries[i].retired {
          retiredBytes := retiredBytes + entries[i].size;
          retiredLive := retiredLive + 1;
        }
        entries := entries[i := entries[i].(retired := true, accounted := false)];
      }
    }

    method PublishHint(device: nat, bytes: nat)
      modifies this
      ensures State() == SetHint(old(State()), device, bytes)
    {
      if !enabled {
        return;
      }
      hints := hints[device := bytes];
      if bytes > 0 {
        hinted := hinted + 1;
      }
    }
  }

  /** Once a charge was refused, adoption goes no further. */
  lemma {:induction false} AdoptStops(es: seq<Entry>, ts: map<nat, nat>, i: nat, k: nat)
    requires i <= k <= |es| && !Adopt(es, ts, i).ok
    ensures Adopt(es, ts, k) == Adopt(es, ts, i)
  {
    if i < k { AdoptStops(es, ts, i, k - 1); }
  }
}
