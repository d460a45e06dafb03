/**
  What the device VMM owner keeps over every run, whatever the native driver answers:
  mappings never overlap, stay inside a live reservation and a live physical object of
  their owner, the byte-sum test means "fully tiled", and a range whose unmap failed
  halfway stays closed until that very unmap is retried.
*/
module VmmSafety {
  import opened VmmModel

  // ---------------------------------------------------------------- the invariant

  predicate ReservationOk(r: Reservation) {
    && r.bytes > 0
    && r.outer <= r.address && r.address + r.bytes <= r.outer + r.outerBytes
    && r.outer + r.outerBytes <= MAX_ADDRESS
  }

  predicate ReservationsApart(r: Reservation, q: Reservation) {
    r.owner.context == q.owner.context ==> !Overlaps(r.outer, r.outerBytes, q.outer, q.outerBytes)
  }

  predicate Backs(p: Physical, m: Mapping) {
    p.owner == m.owner && p.handle == m.handle && m.offset + m.bytes <= p.bytes
  }

  predicate HandlesApart(p: Physical, q: Physical) {
    p.owner.context == q.owner.context ==> p.handle != q.handle
  }

  predicate MappingsApart(m: Mapping, n: Mapping) {
    m.owner.context == n.owner.context ==>
      && !Overlaps(m.address, m.bytes, n.address, n.bytes)
      && (m.cleanupBytes > 0 && Overlaps(m.cleanupAddress, m.cleanupBytes, n.address, n.bytes) ==>
            Claimed(n, m.owner, m.cleanupAddress, m.cleanupBytes))
      && (m.cleanupBytes > 0 && n.cleanupBytes > 0 &&
          Overlaps(m.cleanupAddress, m.cleanupBytes, n.cleanupAddress, n.cleanupBytes) ==>
            Claimed(n, m.owner, m.cleanupAddress, m.cleanupBytes))
  }

  predicate MappingOk(s: State, m: Mapping) {
    && ValidRange(m.address, m.bytes)
    && (exists r :: r in s.reservations && Holds(r, m.owner, m.address, m.bytes))
    && (exists p :: p in s.physical && Backs(p, m))
    && (m.cleanupBytes > 0 ==>
          && Contains(m.cleanupAddress, m.cleanupBytes, m.address, m.bytes)
          && exists r :: r in s.reservations && Holds(r, m.owner, m.cleanupAddress, m.cleanupBytes))
  }

  predicate AllApart(ms: seq<Mapping>) {
    forall i, j :: 0 <= i < |ms| && 0 <= j < |ms| && i != j ==> MappingsApart(ms[i], ms[j])
  }

  predicate ReservationsInv(rs: seq<Reservation>) {
    && (forall r :: r in rs ==> ReservationOk(r))
    && (forall i, j :: 0 <= i < |rs| && 0 <= j < |rs| && i != j ==> ReservationsApart(rs[i], rs[j]))
  }

  predicate PhysicalInv(ps: seq<Physical>) {
    forall i, j :: 0 <= i < |ps| && 0 <= j < |ps| && i != j ==> HandlesApart(ps[i], ps[j])
  }

  predicate Inv(s: State) {
    && ReservationsInv(s.reservations)
    && PhysicalInv(s.physical)
    && (forall m :: m in s.mappings ==> MappingOk(s, m))
    && AllApart(s.mappings)
  }

  /**
    What Level Zero documents about a successful reserve or create: the native range is page
    aligned, addressable and apart from the context's live reservations; the handle is not one
    of the context's live handles.
  */
  predicate DriverSound(s: State, call: Call) {
    match call
    case Reserve(o, n, al, _, _, page, outer) =>
      page.Ok? && page.value > 0 && outer.Ok? ==>
        var r := Interior(o, n, al, page.value, outer.value);
        && outer.value % page.value == 0
        && r.outer + r.outerBytes <= MAX_ADDRESS
        && forall q :: q in s.reservations ==> ReservationsApart(q, r) && ReservationsApart(r, q)
    case Create(o, n, page, created) =>
      created.Ok? ==> forall p :: p in s.physical && p.owner.context == o.context ==> p.handle != created.value
    case _ => true
  }

  predicate RunSound(s: State, calls: seq<Call>)
    decreases |calls|
  {
    calls == [] || (DriverSound(s, calls[0]) && RunSound(Step(s, calls[0]).0, calls[1..]))
  }

  // ---------------------------------------------------------------- reserve: the aligned interior

  lemma PowersDivide(a: nat, b: nat)
    requires PowerOfTwo(a) && PowerOfTwo(b) && a <= b
    ensures b % a == 0
  {
    if a != 1 {
      PowersDivide(a / 2, b / 2);
      var k := (b / 2) / (a / 2);
      assert b / 2 == (a / 2) * k;
      assert b == a * k;
      MultipleModulo(a, k);
    }
  }

  lemma ProductMonotone(a: nat, i: int, k: int)
    requires i <= k
    ensures a * i <= a * k
  {
    assert a * (k - i) >= 0;
  }

  lemma MultipleModulo(a: nat, k: nat)
    requires a > 0
    ensures (a * k) % a == 0
  {
    var q, r := (a * k) / a, (a * k) % a;
    assert a * k == a * q + r;
    if k > q { ProductMonotone(a, q + 1, k); assert false; }
    if k < q { ProductMonotone(a, k + 1, q); assert false; }
  }

  /** Rounding a multiple of the page up to a larger alignment moves it by at most alignment - page. */
  lemma AlignUpBound(x: nat, page: nat, a: nat)
    requires page > 0 && a > 0 && x % page == 0 && a % page == 0
    ensures x <= AlignUp(x, a) <= x + a - page
    ensures AlignUp(x, a) % a == 0
  {
    var q := (x + a - 1) / a;
    var up := q * a;
    assert up <= x + a - 1 < up + a;
    MultipleModulo(a, q);
    assert a * q == up;
    // both ends are multiples of the page, so their distance, below a, is at most a - page
    var i, k := x / page, a / page;
    assert x == page * i && a == page * k;
    assert up == page * (q * k) by { assert up == q * (page * k); }
    var d := q * k - i;
    assert up - x == page * d;
    if d >= k { ProductMonotone(page, k, d); assert false; }
    ProductMonotone(page, d, k - 1);
  }

  lemma InteriorOk(o: Owner, n: nat, al: nat, page: nat, outer: nat)
    requires n > 0 && PowerOfTwo(page) && (al == 0 || PowerOfTwo(al))
    requires outer % page == 0
    requires Interior(o, n, al, page, outer).outer + Interior(o, n, al, page, outer).outerBytes <= MAX_ADDRESS
    ensures ReservationOk(Interior(o, n, al, page, outer))
    ensures al > 0 ==> Interior(o, n, al, page, outer).address % al == 0
  {
    var a := if al > page then al else page;
    PowersDivide(page, a);
    AlignUpBound(outer, page, a);
    if 0 < al <= page { ChainModulo(al, page, AlignUp(outer, a)); }
  }

  lemma ProductAssociates(a: nat, b: nat, c: nat)
    ensures (a * b) * c == a * (b * c)
  {}

  lemma ChainModulo(a: nat, b: nat, x: nat)
    requires PowerOfTwo(a) && PowerOfTwo(b) && a <= b && x % b == 0
    ensures x % a == 0
  {
    PowersDivide(a, b);
    hide PowerOfTwo;
    var i := Quotient(x, b);
    var k := Quotient(b, a);
    ProductAssociates(a, k, i);
    MultipleModulo(a, k * i);
  }

  lemma Quotient(x: nat, b: nat) returns (i: nat)
    requires b > 0 && x % b == 0
    ensures x == b * i
  {
    i := x / b;
  }

  // ---------------------------------------------------------------- the byte-sum test means "tiled"

  function Span(p: nat, n: nat): (s: set<nat>)
    ensures |s| == n
    ensures forall x :: x in s <==> p <= x < p + n
  {
    if n == 0 then {} else Span(p, n - 1) + {p + n - 1}
  }

  predicate Tile(m: Mapping, owner: Owner, address: nat, bytes: nat) {
    m.owner == owner && Contains(address, bytes, m.address, m.bytes) && m.cleanupBytes == 0
  }

  predicate LiesOn(m: Mapping, x: int) {
    m.address <= x < m.address + m.bytes
  }

  predicate OnTile(ms: seq<Mapping>, k: nat, owner: Owner, address: nat, bytes: nat, x: int)
    requires k <= |ms|
  {
    exists i :: 0 <= i < k && Tile(ms[i], owner, address, bytes) && LiesOn(ms[i], x)
  }

  /** Every byte of the range lies on a mapping of the owner that is inside the range and not under cleanup. */
  predicate Tiled(ms: seq<Mapping>, owner: Owner, address: nat, bytes: nat) {
    forall x :: address <= x < address + bytes ==> OnTile(ms, |ms|, owner, address, bytes, x)
  }

  predicate AllValid(ms: seq<Mapping>) {
    forall i :: 0 <= i < |ms| ==> ValidRange(ms[i].address, ms[i].bytes)
  }

  /** The bytes of the tiles among the first `k` mappings. */
  function TileBytes(ms: seq<Mapping>, k: nat, owner: Owner, address: nat, bytes: nat): set<nat>
    requires k <= |ms|
  {
    if k == 0 then {}
    else
      TileBytes(ms, k - 1, owner, address, bytes) +
      if Tile(ms[k - 1], owner, address, bytes) then Span(ms[k - 1].address, ms[k - 1].bytes) else {}
  }

  lemma {:induction false} TileBytesMeans(ms: seq<Mapping>, k: nat, owner: Owner, address: nat, bytes: nat)
    requires k <= |ms|
    ensures forall x :: x in TileBytes(ms, k, owner, address, bytes) <==> OnTile(ms, k, owner, address, bytes, x)
  {
    if k > 0 {
      TileBytesMeans(ms, k - 1, owner, address, bytes);
    }
  }

  lemma NewTileIsFresh(ms: seq<Mapping>, k: nat, owner: Owner, address: nat, bytes: nat)
    requires 0 < k <= |ms| && AllApart(ms)
    requires Tile(ms[k - 1], owner, address, bytes)
    ensures TileBytes(ms, k - 1, owner, address, bytes) !! Span(ms[k - 1].address, ms[k - 1].bytes)
  {
    TileBytesMeans(ms, k - 1, owner, address, bytes);
    var earlier, mine := TileBytes(ms, k - 1, owner, address, bytes), Span(ms[k - 1].address, ms[k - 1].bytes);
    forall x | x in earlier ensures x !in mine {
      assert OnTile(ms, k - 1, owner, address, bytes, x);
      var i :| 0 <= i < k - 1 && Tile(ms[i], owner, address, bytes) && LiesOn(ms[i], x);
      assert MappingsApart(ms[i], ms[k - 1]);
    }
  }

  /** With mappings apart, the loop's running total is the number of bytes on tiles. */
  lemma {:induction false} CoverSumCounts(ms: seq<Mapping>, k: nat, owner: Owner, address: nat, bytes: nat)
    requires k <= |ms| && AllApart(ms) && AllValid(ms)
    ensures CoverSum(ms, k, owner, address, bytes).Ok? ==>
              CoverSum(ms, k, owner, address, bytes).value == |TileBytes(ms, k, owner, address, bytes)|
  {
    if k > 0 {
      CoverSumCounts(ms, k - 1, owner, address, bytes);
      var m := ms[k - 1];
      assert ValidRange(m.address, m.bytes);
      if Tile(m, owner, address, bytes) {
        NewTileIsFresh(ms, k, owner, address, bytes);
        assert Inspect(m, owner, address, bytes) == Add(m.bytes);
      } else {
        assert !Inspect(m, owner, address, bytes).Add?;
      }
    }
  }

  lemma {:induction false} CoverSumRefuses(ms: seq<Mapping>, k: nat, owner: Owner, address: nat, bytes: nat)
    requires k <= |ms|
    ensures CoverSum(ms, k, owner, address, bytes).Fail? <==>
              exists i :: 0 <= i < k && Inspect(ms[i], owner, address, bytes) == Refuse
  {
    if k > 0 {
      CoverSumRefuses(ms, k - 1, owner, address, bytes);
    }
  }

  lemma SameOrApart(ms: seq<Mapping>, i: nat, k: nat)
    requires AllApart(ms) && i < |ms| && k < |ms|
    ensures i == k || MappingsApart(ms[i], ms[k])
  {}

  /** A byte of a fully tiled range lies on no other mapping of the owner. */
  lemma TiledHasNoRefusal(ms: seq<Mapping>, owner: Owner, address: nat, bytes: nat, i: nat)
    requires AllApart(ms) && AllValid(ms) && i < |ms| && ValidRange(address, bytes)
    requires Tiled(ms, owner, address, bytes)
    ensures Inspect(ms[i], owner, address, bytes) != Refuse
  {
    var m := ms[i];
    if m.owner == owner && Overlaps(address, bytes, m.address, m.bytes) {
      var x := if m.address < address then address else m.address;
      assert OnTile(ms, |ms|, owner, address, bytes, x);
      var k :| 0 <= k < |ms| && Tile(ms[k], owner, address, bytes) && LiesOn(ms[k], x);
      SameOrApart(ms, k, i);
      assert k == i;
    }
  }

  /**
    `covered` holds exactly when the range is fully tiled by the owner's mappings that lie
    inside it and are not under cleanup.
  */
  lemma CoveredIffTiled(ms: seq<Mapping>, owner: Owner, address: nat, bytes: nat)
    requires AllApart(ms) && AllValid(ms) && ValidRange(address, bytes)
    ensures Covered(ms, owner, address, bytes) <==> Tiled(ms, owner, address, bytes)
  {
    CoverSumCounts(ms, |ms|, owner, address, bytes);
    CoverSumRefuses(ms, |ms|, owner, address, bytes);
    TileBytesMeans(ms, |ms|, owner, address, bytes);
    var on, range := TileBytes(ms, |ms|, owner, address, bytes), Span(address, bytes);
    assert on <= range;
    if Covered(ms, owner, address, bytes) {
      SubsetOfSameSize(on, range);
    } else if Tiled(ms, owner, address, bytes) {
      assert on == range;
      forall i | 0 <= i < |ms| ensures Inspect(ms[i], owner, address, bytes) != Refuse {
        TiledHasNoRefusal(ms, owner, address, bytes, i);
      }
    }
  }

  lemma SubsetOfSameSize(s: set<nat>, t: set<nat>)
    requires s <= t && |s| == |t|
    ensures s == t
  {
    assert t == (t - s) + s;
    assert |t - s| == 0;
  }

  // ---------------------------------------------------------------- how the lists change

  lemma {:induction false} SweepKeeps(ms: seq<Mapping>, o: Owner, a: nat, n: nat, served: nat)
    ensures forall m :: m in Sweep(ms, o, a, n, served) ==> m in ms
    ensures forall m :: m in ms && !Claimed(m, o, a, n) ==> m in Sweep(ms, o, a, n, served)
    ensures forall m :: m in Swept(ms, o, a, n, served) ==> m in ms && Claimed(m, o, a, n)
    ensures multiset(Sweep(ms, o, a, n, served)) + multiset(Swept(ms, o, a, n, served)) == multiset(ms)
  {
    if ms != [] {
      assert ms == [ms[0]] + ms[1..];
      SweepKeeps(ms[1..], o, a, n, if Claimed(ms[0], o, a, n) && served > 0 then served - 1 else served);
    }
  }

  /** Removing mappings leaves the rest apart. */
  lemma {:induction false} SweepApart(ms: seq<Mapping>, o: Owner, a: nat, n: nat, served: nat)
    requires AllApart(ms)
    ensures AllApart(Sweep(ms, o, a, n, served))
  {
    if ms != [] {
      var rest := ms[1..];
      forall i, j | 0 <= i < |rest| && 0 <= j < |rest| && i != j ensures MappingsApart(rest[i], rest[j]) {
        SameOrApart(ms, i + 1, j + 1);
      }
      if !Claimed(ms[0], o, a, n) {
        var tail := Sweep(rest, o, a, n, served);
        SweepApart(rest, o, a, n, served);
        SweepKeeps(rest, o, a, n, served);
        forall j | 0 <= j < |tail| ensures MappingsApart(ms[0], tail[j]) && MappingsApart(tail[j], ms[0]) {
          assert tail[j] in tail;
          var k :| 0 <= k < |rest| && rest[k] == tail[j];
          SameOrApart(ms, 0, k + 1);
          SameOrApart(ms, k + 1, 0);
        }
      } else if served > 0 {
        SweepApart(rest, o, a, n, served - 1);
      }
    }
  }

  /** The owner's unmap of exactly this range failed partway and has not been completed. */
  predicate Pending(s: State, o: Owner, a: nat, n: nat) {
    exists m :: m in s.mappings && n > 0 && Claimed(m, o, a, n)
  }

  /** No byte of a pending range lies on a tile of a range that reaches into it. */
  lemma PendingIsNotCovered(s: State, o: Owner, a: nat, n: nat, p: Owner, b: nat, k: nat)
    requires Inv(s) && Pending(s, o, a, n) && p.context == o.context
    requires ValidRange(b, k) && Overlaps(a, n, b, k)
    ensures !Covered(s.mappings, p, b, k)
  {
    var ms := s.mappings;
    forall i | 0 <= i < |ms| ensures ValidRange(ms[i].address, ms[i].bytes) {
      assert ms[i] in ms && MappingOk(s, ms[i]);
    }
    CoveredIffTiled(ms, p, b, k);
    var m :| m in ms && n > 0 && Claimed(m, o, a, n);
    var i :| 0 <= i < |ms| && ms[i] == m;
    var x := if a < b then b else a;
    forall j | 0 <= j < |ms| ensures !(Tile(ms[j], p, b, k) && LiesOn(ms[j], x)) {
      SameOrApart(ms, i, j);
    }
    assert !OnTile(ms, |ms|, p, b, k, x);
  }

  /** The mapping's own claim, if any, is the given one or lies elsewhere. */
  predicate ClaimFree(m: Mapping, o: Owner, a: nat, n: nat) {
    m.owner.context == o.context && m.cleanupBytes > 0 && Overlaps(a, n, m.cleanupAddress, m.cleanupBytes) ==>
      Claimed(m, o, a, n)
  }

  /** An admitted unmap reaches into no other pending range. */
  lemma AdmittedMeetsNoOtherClaim(s: State, o: Owner, a: nat, n: nat, m: Mapping)
    requires Inv(s) && UnmapAdmitted(s, o, a, n) && m in s.mappings && m.cleanupBytes > 0
    requires m.owner.context == o.context
    ensures ClaimFree(m, o, a, n)
  {
    if Overlaps(m.cleanupAddress, m.cleanupBytes, a, n) {
      assert Claimed(m, m.owner, m.cleanupAddress, m.cleanupBytes);
      PendingIsNotCovered(s, m.owner, m.cleanupAddress, m.cleanupBytes, o, a, n);
      var c :| c in s.mappings && Claimed(c, o, a, n);
      var i :| 0 <= i < |s.mappings| && s.mappings[i] == m;
      var j :| 0 <= j < |s.mappings| && s.mappings[j] == c;
      SameOrApart(s.mappings, i, j);
    }
  }

  /** Claiming an admitted range keeps the mappings apart and inside what they were inside. */
  lemma ClaimApart(s: State, o: Owner, a: nat, n: nat)
    requires Inv(s) && UnmapAdmitted(s, o, a, n)
    ensures AllApart(ClaimAll(s.mappings, o, a, n))
  {
    var ms := s.mappings;
    var cs := ClaimAll(ms, o, a, n);
    forall m | m in ms ensures ClaimFree(m, o, a, n) {
      if m.owner.context == o.context && m.cleanupBytes > 0 { AdmittedMeetsNoOtherClaim(s, o, a, n, m); }
    }
    forall i, j | 0 <= i < |ms| && 0 <= j < |ms| && i != j ensures MappingsApart(cs[i], cs[j]) {
      SameOrApart(ms, i, j);
      SameOrApart(ms, j, i);
      assert ms[i] in ms && ms[j] in ms;
      assert !Blocks(ms[i], o, a, n) && !Blocks(ms[j], o, a, n);
      assert ClaimFree(ms[i], o, a, n) && ClaimFree(ms[j], o, a, n);
      assert MappingOk(s, ms[i]) && MappingOk(s, ms[j]);
    }
  }

  // ---------------------------------------------------------------- every call keeps the invariant

  lemma ClaimOk(s: State, m: Mapping, o: Owner, a: nat, n: nat, r: Reservation)
    requires MappingOk(s, m) && r in s.reservations && Holds(r, o, a, n)
    ensures MappingOk(s, Claim(m, o, a, n))
  {
    var p :| p in s.physical && Backs(p, m);
    assert Backs(p, Claim(m, o, a, n));
  }

  lemma UnmapKeeps(s: State, o: Owner, a: nat, n: nat, served: nat, code: int)
    requires Inv(s)
    ensures Inv(DoUnmap(s, o, a, n, served, code).0)
  {
    if UnmapAdmitted(s, o, a, n) {
      var cs := ClaimAll(s.mappings, o, a, n);
      var s' := s.(mappings := Sweep(cs, o, a, n, served));
      ClaimApart(s, o, a, n);
      SweepApart(cs, o, a, n, served);
      SweepKeeps(cs, o, a, n, served);
      var r := s.reservations[FindReservation(s.reservations, o, a, n)];
      forall m | m in s'.mappings ensures MappingOk(s', m) {
        assert m in cs;
        var k :| 0 <= k < |cs| && cs[k] == m;
        assert s.mappings[k] in s.mappings;
        ClaimOk(s, s.mappings[k], o, a, n, r);
        SameLists(s, s', m);
      }
    }
  }

  lemma SameLists(s: State, s': State, m: Mapping)
    requires MappingOk(s, m) && s'.reservations == s.reservations && s'.physical == s.physical
    ensures MappingOk(s', m)
  {}

  lemma MapKeeps(s: State, o: Owner, a: nat, n: nat, h: nat, off: nat, flags: nat, mapped: Reply)
    requires Inv(s)
    ensures Inv(DoMap(s, o, a, n, h, off, flags, mapped).0)
  {
    var s' := DoMap(s, o, a, n, h, off, flags, mapped).0;
    if s' != s {
      var r, p := s.reservations[FindReservation(s.reservations, o, a, n)], s.physical[FindPhysical(s.physical, o, h)];
      var added := Mapping(o, a, n, h, off, 0, 0);
      assert r in s.reservations && Holds(r, o, a, n);
      assert p in s.physical && Backs(p, added);
      forall m | m in s'.mappings ensures MappingOk(s', m) {
        if m != added { assert m in s.mappings; }
      }
      forall i | 0 <= i < |s.mappings| ensures MappingsApart(s.mappings[i], added) && MappingsApart(added, s.mappings[i]) {
        assert s.mappings[i] in s.mappings && !Hinders(s.mappings[i], o, a, n);
      }
    }
  }

  lemma FreeKeeps(s: State, o: Owner, a: nat, n: nat, freed: Reply)
    requires Inv(s)
    ensures Inv(DoFree(s, o, a, n, freed).0)
  {
    var s' := DoFree(s, o, a, n, freed).0;
    if s' != s {
      var i := FindReservation(s.reservations, o, a, n);
      FewerReservations(s.reservations, i);
      forall m | m in s'.mappings ensures MappingOk(s', m) {
        assert MappingOk(s, m);
        hide ReservationsInv, PhysicalInv, AllApart, Inv;
        assert !(m.owner.context == o.context && Overlaps(a, n, m.address, m.bytes));
      }
    }
  }

  lemma FewerReservations(rs: seq<Reservation>, i: nat)
    requires ReservationsInv(rs) && i < |rs|
    ensures ReservationsInv(rs[..i] + rs[i + 1..])
    ensures forall r :: r in rs[..i] + rs[i + 1..] ==> r in rs
    ensures forall r :: r in rs && r != rs[i] ==> r in rs[..i] + rs[i + 1..]
  {
    var rest := rs[..i] + rs[i + 1..];
    assert rs == rs[..i] + [rs[i]] + rs[i + 1..];
    forall j, k | 0 <= j < |rest| && 0 <= k < |rest| && j != k ensures ReservationsApart(rest[j], rest[k]) {
      assert rest[j] == rs[if j < i then j else j + 1] && rest[k] == rs[if k < i then k else k + 1];
    }
  }

  lemma DestroyKeeps(s: State, o: Owner, h: nat, destroyed: Reply)
    requires Inv(s)
    ensures Inv(DoDestroy(s, o, h, destroyed).0)
  {
    var s' := DoDestroy(s, o, h, destroyed).0;
    if s' != s {
      var i := FindPhysical(s.physical, o, h);
      var gone := s.physical[i];
      assert forall p :: p in s.physical && p != gone ==> p in s'.physical;
      forall j, k | 0 <= j < |s'.physical| && 0 <= k < |s'.physical| && j != k
        ensures HandlesApart(s'.physical[j], s'.physical[k])
      {
        assert s'.physical[j] == s.physical[if j < i then j else j + 1];
        assert s'.physical[k] == s.physical[if k < i then k else k + 1];
      }
      forall m | m in s'.mappings ensures MappingOk(s', m) {
        assert MappingOk(s, m);
        assert !(m.owner.context == o.context && m.handle == h);
      }
    }
  }

  lemma ReserveKeeps(s: State, call: Call)
    requires Inv(s) && DriverSound(s, call) && call.Reserve?
    ensures Inv(Step(s, call).0)
  {
    var s' := Step(s, call).0;
    if s' != s {
      InteriorOk(call.owner, call.bytes, call.alignment, call.page.value, call.outer.value);
      assert forall r :: r in s.reservations ==> r in s'.reservations;
      forall m | m in s'.mappings ensures MappingOk(s', m) {
        assert MappingOk(s, m);
      }
    }
  }

  lemma CreateKeeps(s: State, call: Call)
    requires Inv(s) && DriverSound(s, call) && call.Create?
    ensures Inv(Step(s, call).0)
  {
    var s' := Step(s, call).0;
    if s' != s {
      assert forall p :: p in s.physical ==> p in s'.physical;
      forall m | m in s'.mappings ensures MappingOk(s', m) {
        assert MappingOk(s, m);
      }
    }
  }

  lemma StepKeeps(s: State, call: Call)
    requires Inv(s) && DriverSound(s, call)
    ensures Inv(Step(s, call).0)
  {
    match call
    case Reserve(_, _, _, _, _, _, _) => ReserveKeeps(s, call);
    case Free(o, a, n, freed) => FreeKeeps(s, o, a, n, freed);
    case Create(_, _, _, _) => CreateKeeps(s, call);
    case Map(o, a, n, h, off, fl, mapped) => MapKeeps(s, o, a, n, h, off, fl, mapped);
    case Access(_, _, _, _) =>
    case Unmap(o, a, n, served, code) => UnmapKeeps(s, o, a, n, served, code);
    case Destroy(o, h, destroyed) => DestroyKeeps(s, o, h, destroyed);
  }

  /** Every state a manager can reach satisfies the invariant. */
  lemma {:induction false} RunKeeps(s: State, calls: seq<Call>)
    requires Inv(s) && RunSound(s, calls)
    ensures Inv(Run(s, calls))
    decreases |calls|
  {
    if calls != [] {
      StepKeeps(s, calls[0]);
      RunKeeps(Step(s, calls[0]).0, calls[1..]);
    }
  }

  // ---------------------------------------------------------------- a range left half unmapped

  /** The call addresses at least one byte of the range in the owner's context. */
  predicate Touches(call: Call, o: Owner, a: nat, n: nat) {
    match call
    case Free(p, b, k, _) => p.context == o.context && k > 0 && Overlaps(a, n, b, k)
    case Map(p, b, k, _, _, _, _) => p.context == o.context && k > 0 && Overlaps(a, n, b, k)
    case Access(p, b, k, _) => p.context == o.context && k > 0 && Overlaps(a, n, b, k)
    case Unmap(p, b, k, _, _) => p.context == o.context && k > 0 && Overlaps(a, n, b, k)
    case _ => false
  }

  predicate Retries(call: Call, o: Owner, a: nat, n: nat) {
    call.Unmap? && call.owner == o && call.address == a && call.bytes == n
  }

  lemma ReservationsMeet(s: State, r: Reservation, q: Reservation, x: int)
    requires ReservationsInv(s.reservations) && r in s.reservations && q in s.reservations
    requires r.owner.context == q.owner.context
    requires r.address <= x < r.address + r.bytes && q.address <= x < q.address + q.bytes
    ensures r == q
  {
    var i :| 0 <= i < |s.reservations| && s.reservations[i] == r;
    var j :| 0 <= j < |s.reservations| && s.reservations[j] == q;
    assert ReservationOk(r) && ReservationOk(q);
    assert forall k :: 0 <= k < |s.reservations| && k != i ==> ReservationsApart(s.reservations[i], s.reservations[k]);
  }

  /** While an unmap is pending, nothing can map, set access on, unmap or free any byte of its range but its retry. */
  lemma PendingIsNotFreed(s: State, o: Owner, a: nat, n: nat, m: Mapping, call: Call)
    requires Inv(s) && m in s.mappings && n > 0 && Claimed(m, o, a, n) && call.Free? && Touches(call, o, a, n)
    ensures Step(s, call).1 != Success && Step(s, call).0 == s
  {
    var (p, b, k) := (call.owner, call.address, call.bytes);
    var i := FindReservation(s.reservations, p, b, k);
    assert MappingOk(s, m);
    if i < |s.reservations| {
      var r := s.reservations[i];
      var q :| q in s.reservations && Holds(q, o, a, n);
      if r.address == b && r.bytes == k {
        ReservationsMeet(s, r, q, if a < b then b else a);
        assert Overlaps(b, k, m.address, m.bytes);
      }
    }
  }

  lemma PendingIsClosed(s: State, o: Owner, a: nat, n: nat, call: Call)
    requires Inv(s) && Pending(s, o, a, n) && Touches(call, o, a, n) && !Retries(call, o, a, n)
    ensures Step(s, call).1 != Success && Step(s, call).0 == s
  {
    var m :| m in s.mappings && n > 0 && Claimed(m, o, a, n);
    assert MappingOk(s, m);
    match call
    case Free(p, b, k, freed) => PendingIsNotFreed(s, o, a, n, m, call);
    case Map(p, b, k, _, _, _, _) => {
      assert Overlaps(b, k, a, n);
      assert Hinders(m, p, b, k);
    }
    case Access(p, b, k, _) => {
      if ValidRange(b, k) { PendingIsNotCovered(s, o, a, n, p, b, k); }
    }
    case Unmap(p, b, k, _, _) => {
      if ValidRange(b, k) {
        PendingIsNotCovered(s, o, a, n, p, b, k);
        if UnmapAdmitted(s, p, b, k) { AdmittedMeetsNoOtherClaim(s, p, b, k, m); }
      }
    }
  }

  ghost predicate SameClaims(s: State, s': State, o: Owner, a: nat, n: nat) {
    forall m :: Claimed(m, o, a, n) ==> (m in s.mappings <==> m in s'.mappings)
  }

  /** Nothing but the retry changes which mappings a pending unmap still has to remove. */
  lemma PendingStays(s: State, o: Owner, a: nat, n: nat, call: Call)
    requires Inv(s) && Pending(s, o, a, n) && !Retries(call, o, a, n)
    ensures SameClaims(s, Step(s, call).0, o, a, n)
  {
    if Touches(call, o, a, n) {
      PendingIsClosed(s, o, a, n, call);
    } else if call.Unmap? && UnmapAdmitted(s, call.owner, call.address, call.bytes) {
      OtherUnmapStays(s, o, a, n, call.owner, call.address, call.bytes, call.served);
    }
  }

  lemma OtherUnmapStays(s: State, o: Owner, a: nat, n: nat, p: Owner, b: nat, k: nat, served: nat)
    requires Inv(s) && n > 0 && k > 0 && !(p == o && b == a && k == n)
    requires p.context == o.context ==> !Overlaps(a, n, b, k)
    ensures SameClaims(s, s.(mappings := Sweep(ClaimAll(s.mappings, p, b, k), p, b, k, served)), o, a, n)
  {
    var ms := s.mappings;
    var cs := ClaimAll(ms, p, b, k);
    SweepKeeps(cs, p, b, k, served);
    forall i | 0 <= i < |ms| ensures Claimed(ms[i], o, a, n) || Claimed(cs[i], o, a, n) ==> cs[i] == ms[i] {
      assert ms[i] in ms && MappingOk(s, ms[i]);
    }
    forall m | Claimed(m, o, a, n) ensures m in ms <==> m in cs {
      if m in ms {
        var i :| 0 <= i < |ms| && ms[i] == m;
        assert cs[i] in cs;
      }
      if m in cs {
        var i :| 0 <= i < |cs| && cs[i] == m;
        assert ms[i] in ms;
      }
    }
  }

  /** Over a whole run without the retry, the pending range keeps exactly the mappings it still has to remove. */
  lemma {:induction false} PendingStaysOverRuns(s: State, o: Owner, a: nat, n: nat, calls: seq<Call>)
    requires Inv(s) && RunSound(s, calls) && Pending(s, o, a, n)
    requires forall i :: 0 <= i < |calls| ==> !Retries(calls[i], o, a, n)
    ensures SameClaims(s, Run(s, calls), o, a, n) && Pending(Run(s, calls), o, a, n)
    decreases |calls|
  {
    if calls != [] {
      var s' := Step(s, calls[0]).0;
      StepKeeps(s, calls[0]);
      PendingStays(s, o, a, n, calls[0]);
      var m :| m in s.mappings && n > 0 && Claimed(m, o, a, n);
      assert m in s'.mappings;
      PendingStaysOverRuns(s', o, a, n, calls[1..]);
    }
  }

  /** In a state with a pending range, the mappings that reach into it are the ones it still has to remove. */
  lemma PendingOwnsItsRange(s: State, o: Owner, a: nat, n: nat, m: Mapping)
    requires Inv(s) && Pending(s, o, a, n) && m in s.mappings
    requires m.owner.context == o.context && Overlaps(a, n, m.address, m.bytes)
    ensures Claimed(m, o, a, n) && Target(m, o, a, n)
  {
    var c :| c in s.mappings && n > 0 && Claimed(c, o, a, n);
    var i :| 0 <= i < |s.mappings| && s.mappings[i] == m;
    var j :| 0 <= j < |s.mappings| && s.mappings[j] == c;
    SameOrApart(s.mappings, j, i);
    assert MappingOk(s, m) && MappingOk(s, c);
  }

  lemma ReservationFound(rs: seq<Reservation>, r: Reservation, o: Owner, a: nat, n: nat)
    requires r in rs && Holds(r, o, a, n)
    ensures FindReservation(rs, o, a, n) < |rs|
  {
    var j :| 0 <= j < |rs| && rs[j] == r;
    assert FindReservation(rs, o, a, n) <= j;
  }

  lemma RetryMeetsNoBlock(s: State, o: Owner, a: nat, n: nat, m: Mapping)
    requires Inv(s) && Pending(s, o, a, n) && m in s.mappings
    ensures !Blocks(m, o, a, n) && Claim(m, o, a, n) == m
  {
    assert MappingOk(s, m);
    if m.owner.context == o.context && Overlaps(a, n, m.address, m.bytes) { PendingOwnsItsRange(s, o, a, n, m); }
  }

  /** The retry of a pending unmap is always admitted and claims nothing new. */
  lemma RetryAdmitted(s: State, o: Owner, a: nat, n: nat)
    requires Inv(s) && Pending(s, o, a, n)
    ensures UnmapAdmitted(s, o, a, n) && ClaimAll(s.mappings, o, a, n) == s.mappings
  {
    var c :| c in s.mappings && n > 0 && Claimed(c, o, a, n);
    assert MappingOk(s, c);
    var r :| r in s.reservations && Holds(r, o, a, n);
    ReservationFound(s.reservations, r, o, a, n);
    forall m | m in s.mappings ensures !Blocks(m, o, a, n) && Claim(m, o, a, n) == m {
      RetryMeetsNoBlock(s, o, a, n, m);
    }
    forall i | 0 <= i < |s.mappings| ensures Claim(s.mappings[i], o, a, n) == s.mappings[i] {
      assert s.mappings[i] in s.mappings;
    }
  }

  lemma {:induction false} SweepAll(ms: seq<Mapping>, o: Owner, a: nat, n: nat, served: nat)
    requires ClaimedCount(ms, o, a, n) <= served
    ensures forall m :: m in Sweep(ms, o, a, n, served) <==> m in ms && !Claimed(m, o, a, n)
  {
    if ms != [] {
      SweepAll(ms[1..], o, a, n, if Claimed(ms[0], o, a, n) then served - 1 else served);
    }
  }

  /** A retry the driver serves in full removes exactly what the failed unmap left and reopens the range. */
  lemma RetryFinishes(s: State, o: Owner, a: nat, n: nat, served: nat, code: int)
    requires Inv(s) && Pending(s, o, a, n) && ClaimedCount(s.mappings, o, a, n) <= served
    ensures DoUnmap(s, o, a, n, served, code).1 == Success
    ensures forall m :: m in DoUnmap(s, o, a, n, served, code).0.mappings <==> m in s.mappings && !Claimed(m, o, a, n)
    ensures !Pending(DoUnmap(s, o, a, n, served, code).0, o, a, n)
  {
    RetryAdmitted(s, o, a, n);
    SweepAll(s.mappings, o, a, n, served);
  }

  // ---------------------------------------------------------------- each mapping is unmapped once

  function Plain(m: Mapping): Mapping {
    m.(cleanupAddress := 0, cleanupBytes := 0)
  }

  /** The mappings a list holds, whatever their cleanup marks. */
  function Extents(ms: seq<Mapping>): (b: multiset<Mapping>) {
    if ms == [] then multiset{} else multiset{Plain(ms[0])} + Extents(ms[1..])
  }

  /** What a call adds to the native mappings, and what it takes away. */
  function Mapped(s: State, call: Call): seq<Mapping> {
    if call.Map? && Step(s, call).1 == Success
    then [Mapping(call.owner, call.address, call.bytes, call.handle, call.offset, 0, 0)] else []
  }

  function Unmapped(s: State, call: Call): seq<Mapping> {
    if call.Unmap? && UnmapAdmitted(s, call.owner, call.address, call.bytes)
    then Swept(ClaimAll(s.mappings, call.owner, call.address, call.bytes), call.owner, call.address, call.bytes, call.served)
    else []
  }

  function MappedOver(s: State, calls: seq<Call>): multiset<Mapping>
    decreases |calls|
  {
    if calls == [] then multiset{}
    else Extents(Mapped(s, calls[0])) + MappedOver(Step(s, calls[0]).0, calls[1..])
  }

  function UnmappedOver(s: State, calls: seq<Call>): multiset<Mapping>
    decreases |calls|
  {
    if calls == [] then multiset{}
    else Extents(Unmapped(s, calls[0])) + UnmappedOver(Step(s, calls[0]).0, calls[1..])
  }

  lemma {:induction false} ExtentsOfSum(ms: seq<Mapping>, ns: seq<Mapping>)
    ensures Extents(ms + ns) == Extents(ms) + Extents(ns)
  {
    if ms == [] {
      assert ms + ns == ns;
    } else {
      assert (ms + ns)[1..] == ms[1..] + ns;
      ExtentsOfSum(ms[1..], ns);
    }
  }

  lemma {:induction false} ClaimKeepsExtents(ms: seq<Mapping>, o: Owner, a: nat, n: nat)
    ensures Extents(ClaimAll(ms, o, a, n)) == Extents(ms)
  {
    if ms != [] {
      ClaimKeepsExtents(ms[1..], o, a, n);
      assert ClaimAll(ms, o, a, n)[1..] == ClaimAll(ms[1..], o, a, n);
    }
  }

  lemma {:induction false} SweepSplitsExtents(ms: seq<Mapping>, o: Owner, a: nat, n: nat, served: nat)
    ensures Extents(Sweep(ms, o, a, n, served)) + Extents(Swept(ms, o, a, n, served)) == Extents(ms)
  {
    if ms != [] {
      if !Claimed(ms[0], o, a, n) {
        var tail := Sweep(ms[1..], o, a, n, served);
        assert ([ms[0]] + tail)[1..] == tail;
        SweepSplitsExtents(ms[1..], o, a, n, served);
      } else if served > 0 {
        var tail := Swept(ms[1..], o, a, n, served - 1);
        assert ([ms[0]] + tail)[1..] == tail;
        SweepSplitsExtents(ms[1..], o, a, n, served - 1);
      }
    }
  }

  lemma UnmapConserves(s: State, o: Owner, a: nat, n: nat, served: nat)
    ensures Extents(Sweep(ClaimAll(s.mappings, o, a, n), o, a, n, served)) +
            Extents(Swept(ClaimAll(s.mappings, o, a, n), o, a, n, served)) == Extents(s.mappings)
  {
    ClaimKeepsExtents(s.mappings, o, a, n);
    SweepSplitsExtents(ClaimAll(s.mappings, o, a, n), o, a, n, served);
  }

  lemma OthersKeepMappings(s: State, call: Call)
    requires !call.Map? && !call.Unmap?
    ensures Step(s, call).0.mappings == s.mappings
  {}

  lemma MapConserves(s: State, call: Call)
    requires call.Map?
    ensures Step(s, call).0.mappings == s.mappings + Mapped(s, call)
  {}

  lemma StepConserves(s: State, call: Call)
    ensures Extents(s.mappings) + Extents(Mapped(s, call)) ==
            Extents(Step(s, call).0.mappings) + Extents(Unmapped(s, call))
  {
    if call.Map? {
      MapConserves(s, call);
      assert Unmapped(s, call) == [];
      hide Step, Mapped, Unmapped;
      ExtentsOfSum(s.mappings, Mapped(s, call));
    } else if call.Unmap? {
      UnmapStepConserves(s, call);
    } else {
      OthersKeepMappings(s, call);
    }
  }

  lemma UnmapStepConserves(s: State, call: Call)
    requires call.Unmap?
    ensures Extents(s.mappings) + Extents(Mapped(s, call)) ==
            Extents(Step(s, call).0.mappings) + Extents(Unmapped(s, call))
  {
    UnmapConserves(s, call.owner, call.address, call.bytes, call.served);
    assert Mapped(s, call) == [] && Extents([]) == multiset{};
    hide Extents, ClaimAll, Sweep, Swept;
  }

  /** Over any run, the native mappings made are those still listed and those unmapped, each exactly once. */
  lemma {:induction false} RunConserves(s: State, calls: seq<Call>)
    ensures Extents(s.mappings) + MappedOver(s, calls) == Extents(Run(s, calls).mappings) + UnmappedOver(s, calls)
    decreases |calls|
  {
    if calls != [] {
      var s' := Step(s, calls[0]).0;
      StepConserves(s, calls[0]);
      RunConserves(s', calls[1..]);
      Exchange(Extents(s.mappings), Extents(Mapped(s, calls[0])), Extents(s'.mappings), Extents(Unmapped(s, calls[0])),
               MappedOver(s', calls[1..]), Extents(Run(s', calls[1..]).mappings), UnmappedOver(s', calls[1..]));
    }
  }

  lemma Exchange<T>(a: multiset<T>, b: multiset<T>, c: multiset<T>, d: multiset<T>,
                    e: multiset<T>, f: multiset<T>, g: multiset<T>)
    requires a + b == c + d && c + e == f + g
    ensures a + (b + e) == f + (d + g)
  {
    assert a + (b + e) == (a + b) + e;
    assert (c + d) + e == (c + e) + d;
  }
}
