/**
  The device VMM owner itself: three lists edited in place under a lock, with each native
  call's reply as a parameter.  Every method is proved to do what VmmModel's function does.
*/
module VmmManagers {
  import opened VmmModel

  class VmmManager {
    var reservations: seq<Reservation>
    var physical: seq<Physical>
    var mappings: seq<Mapping>

    constructor ()
      ensures Lists() == Empty
    {
      reservations, physical, mappings := [], [], [];
    }

    function Lists(): State
      reads this
    {
      State(reservations, physical, mappings)
    }

    /** The first reservation of the owner that contains the range. */
    method ReservationOf(owner: Owner, address: nat, bytes: nat) returns (i: nat)
      ensures i == FindReservation(reservations, owner, address, bytes)
    {
      i := 0;
      while i < |reservations| && !Holds(reservations[i], owner, address, bytes)
        invariant i <= |reservations|
        invariant forall j :: 0 <= j < i ==> !Holds(reservations[j], owner, address, bytes)
      {
        i := i + 1;
      }
    }

    method PhysicalOf(owner: Owner, handle: nat) returns (i: nat)
      ensures i == FindPhysical(physical, owner, handle)
    {
      i := 0;
      while i < |physical| && !(physical[i].handle == handle && physical[i].owner == owner)
        invariant i <= |physical|
        invariant forall j :: 0 <= j < i ==> !(physical[j].handle == handle && physical[j].owner == owner)
      {
        i := i + 1;
      }
    }

    method IsCovered(owner: Owner, address: nat, bytes: nat) returns (covered: bool)
      ensures covered == Covered(mappings, owner, address, bytes)
    {
      var total: nat := 0;
      for i := 0 to |mappings|
        invariant CoverSum(mappings, i, owner, address, bytes) == Ok(total)
      {
        var m := mappings[i];
        if m.owner != owner || !Overlaps(address, bytes, m.address, m.bytes) {
          continue;
        }
        if !Contains(address, bytes, m.address, m.bytes) || m.cleanupBytes > 0 {
          RefusalIsFinal(mappings, i + 1, |mappings|, owner, address, bytes);
          return false;
        }
        total := total + m.bytes;
      }
      return total == bytes;
    }

    method Reserve(owner: Owner, bytes: nat, alignment: nat, requested: nat, flags: nat, page: Reply, outer: Reply)
      returns (status: Status, address: nat)
      modifies this
      ensures (Lists(), status) == DoReserve(old(Lists()), owner, bytes, alignment, requested, flags, page, outer)
      ensures status == Success ==> reservations != [] && address == reservations[|reservations| - 1].address
    {
      address := 0;
      if bytes == 0 || requested != 0 || flags != 0 || (alignment != 0 && !PowerOfTwo(alignment)) {
        return InvalidArgument, address;
      }
      if page.Fail? {
        return DriverError(page.code), address;
      }
      if !PowerOfTwo(page.value) || bytes % page.value != 0 {
        return InvalidSize, address;
      }
      var aligned := if alignment > page.value then alignment else page.value;
      var padding := aligned - page.value;
      if bytes + padding > MAX_ADDRESS {
        return InvalidSize, address;
      }
      // The entry goes in before the native call, and comes out again if that call fails.
      reservations := reservations + [Reservation(owner, 0, bytes, 0, bytes + padding, page.value)];
      if outer.Fail? {
        reservations := reservations[..|reservations| - 1];
        return DriverError(outer.code), address;
      }
      address := AlignUp(outer.value, aligned);
      var last := |reservations| - 1;
      reservations := reservations[last := reservations[last].(outer := outer.value, address := address)];
      assert reservations == old(reservations) + [Interior(owner, bytes, alignment, page.value, outer.value)];
      return Success, address;
    }

    method Free(owner: Owner, address: nat, bytes: nat, freed: Reply) returns (status: Status)
      modifies this
      ensures (Lists(), status) == DoFree(old(Lists()), owner, address, bytes, freed)
    {
      var r := ReservationOf(owner, address, bytes);
      if r == |reservations| || reservations[r].address != address || reservations[r].bytes != bytes {
        return InvalidArgument;
      }
      for i := 0 to |mappings|
        invariant forall m :: m in mappings[..i] ==> !(m.owner.context == owner.context && Overlaps(address, bytes, m.address, m.bytes))
      {
        if mappings[i].owner.context == owner.context && Overlaps(address, bytes, mappings[i].address, mappings[i].bytes) {
          assert mappings[i] in mappings;
          return ObjectInUse;
        }
      }
      assert mappings[..|mappings|] == mappings;
      if freed.Ok? {
        reservations := reservations[..r] + reservations[r + 1..];
      }
      return StatusOf(freed);
    }

    method Create(owner: Owner, bytes: nat, page: Reply, created: Reply) returns (status: Status)
      modifies this
      ensures (Lists(), status) == DoCreate(old(Lists()), owner, bytes, page, created)
    {
      if bytes == 0 {
        return InvalidArgument;
      }
      if page.Fail? {
        return DriverError(page.code);
      }
      if !PowerOfTwo(page.value) || bytes % page.value != 0 {
        return InvalidSize;
      }
      physical := physical + [Physical(owner, 0, bytes, page.value)];
      var last := |physical| - 1;
      if created.Fail? {
        physical := physical[..last];
        return DriverError(created.code);
      }
      physical := physical[last := physical[last].(handle := created.value)];
      assert physical == old(physical) + [Physical(owner, created.value, bytes, page.value)];
      return Success;
    }

    method Map(owner: Owner, address: nat, bytes: nat, handle: nat, offset: nat, flags: nat, mapped: Reply)
      returns (status: Status)
      modifies this
      ensures (Lists(), status) == DoMap(old(Lists()), owner, address, bytes, handle, offset, flags, mapped)
    {
      if flags != 0 || !ValidRange(address, bytes) {
        return InvalidArgument;
      }
      var r := ReservationOf(owner, address, bytes);
      var p := PhysicalOf(owner, handle);
      if r == |reservations| || p == |physical| || !Fits(physical[p], address, bytes, offset) {
        return InvalidArgument;
      }
      for i := 0 to |mappings|
        invariant forall m :: m in mappings[..i] ==> !Hinders(m, owner, address, bytes)
      {
        if Hinders(mappings[i], owner, address, bytes) {
          assert mappings[i] in mappings;
          return ObjectInUse;
        }
      }
      assert mappings[..|mappings|] == mappings;
      mappings := mappings + [Mapping(owner, address, bytes, handle, offset, 0, 0)];
      if mapped.Fail? {
        mappings := mappings[..|mappings| - 1];
      }
      return StatusOf(mapped);
    }

    method Access(owner: Owner, address: nat, bytes: nat, granted: Reply) returns (status: Status)
      ensures (Lists(), status) == DoAccess(Lists(), owner, address, bytes, granted)
    {
      if !ValidRange(address, bytes) {
        return InvalidArgument;
      }
      var covered := IsCovered(owner, address, bytes);
      return if covered then StatusOf(granted) else InvalidArgument;
    }

    /** The first pass of `unmap`: is the range free of strangers, and is this a retry? */
    method Survey(owner: Owner, address: nat, bytes: nat) returns (clear: bool, retry: bool)
      ensures clear == forall m :: m in mappings ==> !Blocks(m, owner, address, bytes)
      ensures clear ==> retry == exists m :: m in mappings && Claimed(m, owner, address, bytes)
    {
      retry := false;
      for i := 0 to |mappings|
        invariant forall m :: m in mappings[..i] ==> !Blocks(m, owner, address, bytes)
        invariant retry == exists m :: m in mappings[..i] && Claimed(m, owner, address, bytes)
      {
        var m := mappings[i];
        assert mappings[..i + 1] == mappings[..i] + [m];
        if Claimed(m, owner, address, bytes) {
          retry := true;
        }
        if Blocks(m, owner, address, bytes) {
          assert m in mappings;
          return false, retry;
        }
      }
      assert mappings[..|mappings|] == mappings;
      return true, retry;
    }

    /** The second pass: mark every mapping of the owner inside the range. */
    method ClaimRange(owner: Owner, address: nat, bytes: nat)
      modifies this`mappings
      ensures mappings == ClaimAll(old(mappings), owner, address, bytes)
    {
      for i := 0 to |mappings|
        invariant |mappings| == |old(mappings)|
        invariant forall j :: 0 <= j < |mappings| ==>
          mappings[j] == if j < i then Claim(old(mappings)[j], owner, address, bytes) else old(mappings)[j]
      {
        if Target(mappings[i], owner, address, bytes) {
          mappings := mappings[i := mappings[i].(cleanupAddress := address, cleanupBytes := bytes)];
        }
      }
    }

    method Unmap(owner: Owner, address: nat, bytes: nat, served: nat, code: int) returns (status: Status)
      modifies this
      ensures (Lists(), status) == DoUnmap(old(Lists()), owner, address, bytes, served, code)
    {
      if !ValidRange(address, bytes) {
        return InvalidArgument;
      }
      var r := ReservationOf(owner, address, bytes);
      if r == |reservations| {
        return InvalidArgument;
      }
      var clear, retry := Survey(owner, address, bytes);
      if !clear {
        return InvalidArgument;
      }
      if !retry {
        var covered := IsCovered(owner, address, bytes);
        if !covered {
          return InvalidArgument;
        }
      }
      ClaimRange(owner, address, bytes);
      status := RemoveClaimed(owner, address, bytes, served, code);
    }

    /** The third pass: unmap and erase the claimed mappings until the driver refuses one. */
    method RemoveClaimed(owner: Owner, address: nat, bytes: nat, served: nat, code: int) returns (status: Status)
      modifies this`mappings
      ensures mappings == Sweep(old(mappings), owner, address, bytes, served)
      ensures status == if ClaimedCount(old(mappings), owner, address, bytes) <= served then Success else DriverError(code)
    {
      var i, left := 0, served;
      ghost var all := mappings;
      while i < |mappings|
        invariant i <= |mappings|
        invariant mappings[..i] + Sweep(mappings[i..], owner, address, bytes, left) == Sweep(all, owner, address, bytes, served)
        invariant ClaimedCount(mappings[i..], owner, address, bytes) - left == ClaimedCount(all, owner, address, bytes) - served
        decreases |mappings| - i
      {
        var rest := mappings[i..];
        assert rest[1..] == mappings[i + 1..];
        if !Claimed(mappings[i], owner, address, bytes) {
          assert mappings[..i + 1] == mappings[..i] + [rest[0]];
          i := i + 1;
          continue;
        }
        if left == 0 {
          assert mappings[..i] + rest == mappings;
          return DriverError(code);
        }
        ghost var before := mappings;
        mappings := mappings[..i] + mappings[i + 1..];
        assert mappings[i..] == rest[1..] && mappings[..i] == before[..i];
        left := left - 1;
      }
      assert mappings[i..] == [] && mappings[..i] == mappings;
      return Success;
    }

    method Destroy(owner: Owner, handle: nat, destroyed: Reply) returns (status: Status)
      modifies this
      ensures (Lists(), status) == DoDestroy(old(Lists()), owner, handle, destroyed)
    {
      var p := PhysicalOf(owner, handle);
      if p == |physical| {
        return InvalidArgument;
      }
      for i := 0 to |mappings|
        invariant forall m :: m in mappings[..i] ==> !(m.owner.context == owner.context && m.handle == handle)
      {
        if mappings[i].owner.context == owner.context && mappings[i].handle == handle {
          assert mappings[i] in mappings;
          return ObjectInUse;
        }
      }
      assert mappings[..|mappings|] == mappings;
      if destroyed.Ok? {
        physical := physical[..p] + physical[p + 1..];
      }
      return StatusOf(destroyed);
    }
  }

  /** Once the byte-sum loop has refused, no later mapping changes that. */
  lemma {:induction false} RefusalIsFinal(ms: seq<Mapping>, i: nat, k: nat, owner: Owner, address: nat, bytes: nat)
    requires i <= k <= |ms| && CoverSum(ms, i, owner, address, bytes).Fail?
    ensures CoverSum(ms, k, owner, address, bytes).Fail?
  {
    if i < k {
      RefusalIsFinal(ms, i, k - 1, owner, address, bytes);
    }
  }
}
