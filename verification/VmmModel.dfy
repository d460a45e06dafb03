/**
  The device VMM owner's bookkeeping (src-xpu/vmm-manager.h), as values.

  A state holds the three lists the manager keeps: reservations, physical objects and
  mappings.  Every operation is a function from a state, its arguments and the native
  driver's replies to the next state and a status.  VmmManager.dfy proves the imperative
  manager against these functions; VmmSafety.dfy proves what they promise.
*/
module VmmModel {

  const MAX_ADDRESS: nat := 0xFFFF_FFFF_FFFF_FFFF

  datatype Owner = Owner(id: int, context: nat, device: nat)

  /** The exposed interior `[address, address + bytes)` of a native reservation `[outer, outer + outerBytes)`. */
  datatype Reservation = Reservation(owner: Owner, address: nat, bytes: nat, outer: nat, outerBytes: nat, page: nat)

  datatype Physical = Physical(owner: Owner, handle: nat, bytes: nat, page: nat)

  /** `cleanupBytes == 0` means that no unmap has claimed the mapping. */
  datatype Mapping = Mapping(owner: Owner, address: nat, bytes: nat, handle: nat, offset: nat,
                             cleanupAddress: nat, cleanupBytes: nat)

  datatype State = State(reservations: seq<Reservation>, physical: seq<Physical>, mappings: seq<Mapping>)

  /** A native call either succeeds, perhaps with a value, or fails with a driver code. */
  datatype Reply = Ok(value: nat) | Fail(code: int)

  datatype Status =
    | Success
    | InvalidArgument
    | InvalidSize
    | ObjectInUse
    | DriverError(code: int)

  /** The calls a client makes, each with the native driver's replies. */
  datatype Call =
    | Reserve(owner: Owner, bytes: nat, alignment: nat, requested: nat, flags: nat, page: Reply, outer: Reply)
    | Free(owner: Owner, address: nat, bytes: nat, freed: Reply)
    | Create(owner: Owner, bytes: nat, page: Reply, created: Reply)
    | Map(owner: Owner, address: nat, bytes: nat, handle: nat, offset: nat, flags: nat, mapped: Reply)
    | Access(owner: Owner, address: nat, bytes: nat, granted: Reply)
      // `served` native unmaps succeed before one fails with `code`.
    | Unmap(owner: Owner, address: nat, bytes: nat, served: nat, code: int)
    | Destroy(owner: Owner, handle: nat, destroyed: Reply)

  predicate PowerOfTwo(n: nat) {
    n > 0 && (n == 1 || (n % 2 == 0 && PowerOfTwo(n / 2)))
  }

  predicate ValidRange(p: nat, n: nat) {
    n > 0 && p + n <= MAX_ADDRESS
  }

  predicate Contains(p: nat, n: nat, q: nat, m: nat) {
    ValidRange(p, n) && ValidRange(q, m) && p <= q && q + m <= p + n
  }

  predicate Overlaps(p: nat, n: nat, q: nat, m: nat) {
    p < q + m && q < p + n
  }

  function AlignUp(x: nat, a: nat): nat
    requires a > 0
  {
    (x + a - 1) / a * a
  }

  function StatusOf(reply: Reply): Status {
    match reply
    case Ok(_) => Success
    case Fail(code) => DriverError(code)
  }

  // ---------------------------------------------------------------- lookups

  predicate Holds(r: Reservation, owner: Owner, address: nat, bytes: nat) {
    r.owner == owner && Contains(r.address, r.bytes, address, bytes)
  }

  /** The first reservation of the owner that contains the range, or the list's length. */
  function FindReservation(rs: seq<Reservation>, owner: Owner, address: nat, bytes: nat): (i: nat)
    ensures i <= |rs|
    ensures i < |rs| ==> Holds(rs[i], owner, address, bytes)
    ensures forall j :: 0 <= j < i ==> !Holds(rs[j], owner, address, bytes)
  {
    if rs == [] || Holds(rs[0], owner, address, bytes) then 0
    else 1 + FindReservation(rs[1..], owner, address, bytes)
  }

  function FindPhysical(ps: seq<Physical>, owner: Owner, handle: nat): (i: nat)
    ensures i <= |ps|
    ensures i < |ps| ==> ps[i].handle == handle && ps[i].owner == owner
    ensures forall j :: 0 <= j < i ==> !(ps[j].handle == handle && ps[j].owner == owner)
  {
    if ps == [] || (ps[0].handle == handle && ps[0].owner == owner) then 0
    else 1 + FindPhysical(ps[1..], owner, handle)
  }

  // ---------------------------------------------------------------- the byte-sum test

  /** What `covered` finds for one mapping: out of the way, a reason to refuse, or bytes to add. */
  datatype Finding = Skip | Refuse | Add(bytes: nat)

  function Inspect(m: Mapping, owner: Owner, address: nat, bytes: nat): Finding {
    if m.owner != owner || !Overlaps(address, bytes, m.address, m.bytes) then Skip
    else if !Contains(address, bytes, m.address, m.bytes) || m.cleanupBytes > 0 then Refuse
    else Add(m.bytes)
  }

  /** The loop of `covered` over the first `k` mappings: the total of the contained ones, or a refusal. */
  function CoverSum(ms: seq<Mapping>, k: nat, owner: Owner, address: nat, bytes: nat): Reply
    requires k <= |ms|
  {
    if k == 0 then Ok(0)
    else
      var before := CoverSum(ms, k - 1, owner, address, bytes);
      match Inspect(ms[k - 1], owner, address, bytes)
      case Skip => before
      case Refuse => Fail(0)
      case Add(n) => if before.Ok? then Ok(before.value + n) else before
  }

  predicate Covered(ms: seq<Mapping>, owner: Owner, address: nat, bytes: nat) {
    CoverSum(ms, |ms|, owner, address, bytes) == Ok(bytes)
  }

  // ---------------------------------------------------------------- unmap's passes

  predicate Target(m: Mapping, owner: Owner, address: nat, bytes: nat) {
    m.owner == owner && Contains(address, bytes, m.address, m.bytes)
  }

  predicate Claimed(m: Mapping, owner: Owner, address: nat, bytes: nat) {
    m.owner == owner && m.cleanupAddress == address && m.cleanupBytes == bytes
  }

  /** A mapping that forbids unmapping the range as a whole. */
  predicate Blocks(m: Mapping, owner: Owner, address: nat, bytes: nat) {
    && m.owner.context == owner.context
    && Overlaps(address, bytes, m.address, m.bytes)
    && (m.owner != owner || !Contains(address, bytes, m.address, m.bytes) ||
        (m.cleanupBytes > 0 && (m.cleanupAddress != address || m.cleanupBytes != bytes)))
  }

  function Claim(m: Mapping, owner: Owner, address: nat, bytes: nat): Mapping {
    if Target(m, owner, address, bytes) then m.(cleanupAddress := address, cleanupBytes := bytes) else m
  }

  function ClaimAll(ms: seq<Mapping>, owner: Owner, address: nat, bytes: nat): (r: seq<Mapping>)
    ensures |r| == |ms|
    ensures forall i :: 0 <= i < |ms| ==> r[i] == Claim(ms[i], owner, address, bytes)
  {
    if ms == [] then [] else [Claim(ms[0], owner, address, bytes)] + ClaimAll(ms[1..], owner, address, bytes)
  }

  /** What is left after the removal pass: the claimed mappings go one by one while the driver serves them. */
  function Sweep(ms: seq<Mapping>, owner: Owner, address: nat, bytes: nat, served: nat): seq<Mapping> {
    if ms == [] then []
    else if !Claimed(ms[0], owner, address, bytes) then [ms[0]] + Sweep(ms[1..], owner, address, bytes, served)
    else if served == 0 then ms
    else Sweep(ms[1..], owner, address, bytes, served - 1)
  }

  /** The mappings whose native unmap succeeded during that pass. */
  function Swept(ms: seq<Mapping>, owner: Owner, address: nat, bytes: nat, served: nat): seq<Mapping> {
    if ms == [] then []
    else if !Claimed(ms[0], owner, address, bytes) then Swept(ms[1..], owner, address, bytes, served)
    else if served == 0 then []
    else [ms[0]] + Swept(ms[1..], owner, address, bytes, served - 1)
  }

  function ClaimedCount(ms: seq<Mapping>, owner: Owner, address: nat, bytes: nat): nat {
    if ms == [] then 0
    else (if Claimed(ms[0], owner, address, bytes) then 1 else 0) + ClaimedCount(ms[1..], owner, address, bytes)
  }

  // ---------------------------------------------------------------- the operations

  /** The reservation that `reserve` records; the aligned interior of the native range. */
  function Interior(owner: Owner, bytes: nat, alignment: nat, page: nat, outer: nat): Reservation
    requires page > 0
  {
    var a := if alignment > page then alignment else page;
    Reservation(owner, AlignUp(outer, a), bytes, outer, bytes + (a - page), page)
  }

  function DoReserve(s: State, owner: Owner, bytes: nat, alignment: nat, requested: nat, flags: nat,
                     page: Reply, outer: Reply): (State, Status)
  {
    if bytes == 0 || requested != 0 || flags != 0 || (alignment != 0 && !PowerOfTwo(alignment)) then (s, InvalidArgument)
    else if page.Fail? then (s, DriverError(page.code))
    else if !PowerOfTwo(page.value) || bytes % page.value != 0 then (s, InvalidSize)
    else if bytes + ((if alignment > page.value then alignment else page.value) - page.value) > MAX_ADDRESS then (s, InvalidSize)
    else if outer.Fail? then (s, DriverError(outer.code))
    else
      (s.(reservations := s.reservations + [Interior(owner, bytes, alignment, page.value, outer.value)]), Success)
  }

  function DoFree(s: State, owner: Owner, address: nat, bytes: nat, freed: Reply): (State, Status) {
    var i := FindReservation(s.reservations, owner, address, bytes);
    if i == |s.reservations| || s.reservations[i].address != address || s.reservations[i].bytes != bytes then
      (s, InvalidArgument)
    else if exists m :: m in s.mappings && m.owner.context == owner.context && Overlaps(address, bytes, m.address, m.bytes) then
      (s, ObjectInUse)
    else if freed.Fail? then (s, DriverError(freed.code))
    else (s.(reservations := s.reservations[..i] + s.reservations[i + 1..]), Success)
  }

  function DoCreate(s: State, owner: Owner, bytes: nat, page: Reply, created: Reply): (State, Status) {
    if bytes == 0 then (s, InvalidArgument)
    else if page.Fail? then (s, DriverError(page.code))
    else if !PowerOfTwo(page.value) || bytes % page.value != 0 then (s, InvalidSize)
    else if created.Fail? then (s, DriverError(created.code))
    else (s.(physical := s.physical + [Physical(owner, created.value, bytes, page.value)]), Success)
  }

  /** A mapping, live or under cleanup, that keeps a new mapping out of the range. */
  predicate Hinders(m: Mapping, owner: Owner, address: nat, bytes: nat) {
    && m.owner.context == owner.context
    && (Overlaps(address, bytes, m.address, m.bytes) ||
        (m.cleanupBytes > 0 && Overlaps(address, bytes, m.cleanupAddress, m.cleanupBytes)))
  }

  predicate Fits(p: Physical, address: nat, bytes: nat, offset: nat) {
    && bytes <= p.bytes && offset <= p.bytes - bytes
    && p.page > 0 && address % p.page == 0 && bytes % p.page == 0 && offset % p.page == 0
  }

  function DoMap(s: State, owner: Owner, address: nat, bytes: nat, handle: nat, offset: nat, flags: nat,
                 mapped: Reply): (State, Status)
  {
    var i := FindReservation(s.reservations, owner, address, bytes);
    var j := FindPhysical(s.physical, owner, handle);
    if flags != 0 || !ValidRange(address, bytes) then (s, InvalidArgument)
    else if i == |s.reservations| || j == |s.physical| || !Fits(s.physical[j], address, bytes, offset) then
      (s, InvalidArgument)
    else if exists m :: m in s.mappings && Hinders(m, owner, address, bytes) then (s, ObjectInUse)
    else if mapped.Fail? then (s, DriverError(mapped.code))
    else (s.(mappings := s.mappings + [Mapping(owner, address, bytes, handle, offset, 0, 0)]), Success)
  }

  function DoAccess(s: State, owner: Owner, address: nat, bytes: nat, reply: Reply): (State, Status) {
    if !ValidRange(address, bytes) || !Covered(s.mappings, owner, address, bytes) then (s, InvalidArgument)
    else (s, StatusOf(reply))
  }

  /** Whether `unmap` goes on to claim and remove; otherwise it refuses and changes nothing. */
  predicate UnmapAdmitted(s: State, owner: Owner, address: nat, bytes: nat) {
    && ValidRange(address, bytes)
    && FindReservation(s.reservations, owner, address, bytes) < |s.reservations|
    && (forall m :: m in s.mappings ==> !Blocks(m, owner, address, bytes))
    && ((exists m :: m in s.mappings && Claimed(m, owner, address, bytes)) ||
        Covered(s.mappings, owner, address, bytes))
  }

  function DoUnmap(s: State, owner: Owner, address: nat, bytes: nat, served: nat, code: int): (State, Status) {
    if !UnmapAdmitted(s, owner, address, bytes) then (s, InvalidArgument)
    else
      var ms := ClaimAll(s.mappings, owner, address, bytes);
      (s.(mappings := Sweep(ms, owner, address, bytes, served)),
       if ClaimedCount(ms, owner, address, bytes) <= served then Success else DriverError(code))
  }

  function DoDestroy(s: State, owner: Owner, handle: nat, destroyed: Reply): (State, Status) {
    var j := FindPhysical(s.physical, owner, handle);
    if j == |s.physical| then (s, InvalidArgument)
    else if exists m :: m in s.mappings && m.owner.context == owner.context && m.handle == handle then (s, ObjectInUse)
    else if destroyed.Fail? then (s, DriverError(destroyed.code))
    else (s.(physical := s.physical[..j] + s.physical[j + 1..]), Success)
  }

  function Step(s: State, call: Call): (State, Status) {
    match call
    case Reserve(o, n, al, rq, fl, page, outer) => DoReserve(s, o, n, al, rq, fl, page, outer)
    case Free(o, a, n, freed) => DoFree(s, o, a, n, freed)
    case Create(o, n, page, created) => DoCreate(s, o, n, page, created)
    case Map(o, a, n, h, off, fl, mapped) => DoMap(s, o, a, n, h, off, fl, mapped)
    case Access(o, a, n, reply) => DoAccess(s, o, a, n, reply)
    case Unmap(o, a, n, served, code) => DoUnmap(s, o, a, n, served, code)
    case Destroy(o, h, destroyed) => DoDestroy(s, o, h, destroyed)
  }

  function Run(s: State, calls: seq<Call>): State
    decreases |calls|
  {
    if calls == [] then s else Run(Step(s, calls[0]).0, calls[1..])
  }

  const Empty := State([], [], [])
}
