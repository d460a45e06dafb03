/** The page ledger and the rogue lists as the objects that the allocations lock guards. */
module RefLedgers {
  import opened RefModel
  import opened RogueModel

  /** Physical allocations with their reference lists, and the driver's view beside them. */
  class RefLedger {
    var allocs: map<nat, Allocation>
    var refs: map<nat, Ref>
    var charged: int
    var nextAlloc: nat
    var nextRef: nat
    ghost var mapped: map<nat, nat>
    ghost var released: seq<nat>

    ghost function State(): Store
      reads this
    {
      Store(allocs, refs, charged, nextAlloc, nextRef, mapped, released)
    }

    constructor ()
      ensures State() == Empty() && Inv(State())
    {
      allocs, refs, charged, nextAlloc, nextRef, mapped, released := map[], map[], 0, 0, 0, map[], [];
      EmptyInv();
    }

    /** A new allocation and its first reference, when the driver creates one. */
    method Create(bytes: nat, created: bool) returns (page: nat)
      modifies this
      ensures created ==> (State(), page) == PageAlloc(old(State()), bytes)
      ensures !created ==> State() == old(State())
    {
      page := nextRef;
      if created {
        allocs := allocs[nextAlloc := Allocation(bytes, 1, [nextRef])];
        refs := refs[nextRef := Ref(nextAlloc, 0)];
        nextAlloc, nextRef := nextAlloc + 1, nextRef + 1;
        charged := charged + bytes;
      }
    }

    method Reference(page: nat, address: nat) returns (reference: nat)
      requires page in refs && refs[page].alloc in allocs
      modifies this
      ensures (State(), reference) == PageRef(old(State()), page, address)
    {
      var a := refs[page].alloc;
      reference := nextRef;
      allocs := allocs[a := allocs[a].(refs := allocs[a].refs + 1, references := [reference] + allocs[a].references)];
      refs := refs[reference := Ref(a, address)];
      nextRef := nextRef + 1;
    }

    /** Whether another reference of the same allocation holds the page's address. */
    method FindShared(page: nat) returns (shared: bool)
      requires page in refs && refs[page].alloc in allocs
      ensures shared == SharesFrom(State(), allocs[refs[page].alloc].references, page, 0)
    {
      var l := allocs[refs[page].alloc].references;
      var i := 0;
      while i < |l|
        invariant i <= |l| && SharesFrom(State(), l, page, 0) == SharesFrom(State(), l, page, i)
      {
        if l[i] != page && l[i] in refs && refs[l[i]].address == refs[page].address {
          return true;
        }
        i := i + 1;
      }
      return false;
    }

    /**
      Drops a reference.  Its address is unmapped if nobody shares it, its allocation released if
      it was the last; either driver call may fail and then the reference stays.
    */
    method Unreference(page: nat, reply: Reply) returns (ok: bool)
      requires page in refs && refs[page].alloc in allocs
      modifies this
      ensures (State(), ok) == PageUnref(old(State()), page, reply)
    {
      var a := refs[page].alloc;
      if refs[page].address != 0 {
        var shared := FindShared(page);
        if !shared {
          if !reply.unmapOk {
            return false;
          }
          mapped := mapped - {refs[page].address};
        }
      }
      refs := refs[page := refs[page].(address := 0)];
      assert State() == DropAddress(old(State()), page);
      if allocs[a].refs == 1 {
        if !reply.releaseOk {
          return false;
        }
        charged := charged - allocs[a].bytes;
        allocs := allocs - {a};
        released := released + [a];
      } else {
        var l := RemoveFrom(allocs[a].references, page);
        allocs := allocs[a := allocs[a].(refs := if allocs[a].refs > 0 then allocs[a].refs - 1 else 0, references := l)];
      }
      refs := refs - {page};
      return true;
    }

    /** The list without the reference, found by walking it. */
    method RemoveFrom(l: seq<nat>, page: nat) returns (r: seq<nat>)
      ensures r == Without(l, page)
    {
      var i := 0;
      while i < |l| && l[i] != page
        invariant i <= |l| && Without(l, page) == l[..i] + Without(l[i..], page)
      {
        assert l[i..] == [l[i]] + l[i + 1..] && l[..i] + [l[i]] == l[..i + 1];
        i := i + 1;
      }
      if i == |l| {
        return l;
      }
      assert l[i..][1..] == l[i + 1..];
      return l[..i] + l[i + 1..];
    }
  }

  /** The global lists of rogues and candidates. */
  class RogueRegistry {
    var rogues: seq<Rogue>
    var candidates: seq<Candidate>

    ghost function State(): Registry
      reads this
    {
      Registry(rogues, candidates)
    }

    constructor ()
      ensures State() == Registry([], [])
    {
      rogues, candidates := [], [];
    }

    method Locate(ptr: nat) returns (i: nat)
      ensures i == FindCandidate(candidates, ptr, 0)
    {
      i := 0;
      while i < |candidates| && candidates[i].ptr != ptr
        invariant i <= |candidates| && FindCandidate(candidates, ptr, 0) == FindCandidate(candidates, ptr, i)
      {
        i := i + 1;
      }
    }

    method LocateRogue(ptr: nat) returns (i: nat)
      ensures i == FindRogue(rogues, ptr, 0)
    {
      i := 0;
      while i < |rogues| && rogues[i].ptr != ptr
        invariant i <= |rogues| && FindRogue(rogues, ptr, 0) == FindRogue(rogues, ptr, i)
      {
        i := i + 1;
      }
    }

    method RegisterCandidate(ptr: nat)
      modifies this
      ensures State() == Register(old(State()), ptr)
    {
      candidates := [Candidate(ptr, false)] + candidates;
    }

    method UnregisterCandidate(ptr: nat)
      modifies this
      ensures State() == Unregister(old(State()), ptr)
    {
      var i := Locate(ptr);
      if i < |candidates| {
        candidates := candidates[..i] + candidates[i + 1..];
      }
    }

    method CandidateFreed(ptr: nat) returns (freed: bool)
      ensures freed <==> exists i :: 0 <= i < |candidates| && candidates[i] == Candidate(ptr, true) &&
                                     forall j :: 0 <= j < i ==> candidates[j].ptr != ptr
    {
      var i := Locate(ptr);
      return i < |candidates| && candidates[i].freed;
    }

    method Exists(ptr: nat) returns (found: bool)
      ensures found <==> exists i :: 0 <= i < |rogues| && rogues[i].ptr == ptr
    {
      var i := LocateRogue(ptr);
      return i < |rogues|;
    }

    /**
      The locked part of a hand-off.  The newest candidate of the pointer leaves the list; the
      pointer is the rogue's exactly when that candidate was `Candidate(rogue.ptr, false)`.
    */
    method DecideHandoff(rogue: Rogue) returns (decision: Decision)
      modifies this
      ensures (State(), decision) == Decide(old(State()), rogue)
      ensures NoCandidate(old(candidates), rogue.ptr) ==> decision == Unknown && State() == old(State())
      ensures forall i :: FirstCandidate(old(candidates), rogue.ptr, i) ==> candidates == RemoveAt(old(candidates), i)
      ensures forall i :: FirstCandidate(old(candidates), rogue.ptr, i) && old(candidates)[i] == Candidate(rogue.ptr, false) ==>
                decision == Owned && rogues == [rogue] + old(rogues)
      ensures forall i :: FirstCandidate(old(candidates), rogue.ptr, i) && old(candidates)[i] == Candidate(rogue.ptr, true) ==>
                decision == FreedAlready && rogues == old(rogues)
    {
      var i := Locate(rogue.ptr);
      if i == |candidates| {
        return Unknown;
      }
      var freed := candidates[i].freed;
      candidates := candidates[..i] + candidates[i + 1..];
      if freed {
        return FreedAlready;
      }
      rogues := [rogue] + rogues;
      return Owned;
    }

    /** The first locked part of a late free. */
    method Begin(ptr: nat) returns (start: FreeStart)
      modifies this
      ensures (State(), start) == BeginFree(old(State()), ptr)
      ensures start.Begins? <==> exists i :: FirstRogue(old(rogues), ptr, i) && !old(rogues)[i].freeing
      ensures start.Begins? ==>
                && FirstRogue(old(rogues), ptr, start.index) && candidates == old(candidates)
                && rogues == old(rogues)[start.index := old(rogues)[start.index].(freeing := true)]
      ensures start == AlreadyFreeing <==> exists i :: FirstRogue(old(rogues), ptr, i) && old(rogues)[i].freeing
      ensures start == Noted ==> exists i :: FirstCandidate(old(candidates), ptr, i) && candidates == old(candidates)[i := Candidate(ptr, true)]
      ensures start == NotMine ==> NoCandidate(old(candidates), ptr)
      ensures !start.Begins? ==> rogues == old(rogues)
    {
      var i := LocateRogue(ptr);
      if i == |rogues| {
        var c := Locate(ptr);
        if c == |candidates| {
          return NotMine;
        }
        assert FirstCandidate(candidates, ptr, c);
        candidates := candidates[c := candidates[c].(freed := true)];
        return Noted;
      }
      if rogues[i].freeing {
        return AlreadyFreeing;
      }
      rogues := rogues[i := rogues[i].(freeing := true)];
      return Begins(i);
    }

    /** The second locked part of a late free. */
    method Finish(id: nat)
      modifies this
      ensures State() == EndFree(old(State()), id)
    {
      var i := 0;
      while i < |rogues| && rogues[i].id != id
        invariant i <= |rogues| && FindId(rogues, id, 0) == FindId(rogues, id, i)
      {
        i := i + 1;
      }
      if i < |rogues| {
        rogues := rogues[..i] + rogues[i + 1..];
      }
    }
  }
}
