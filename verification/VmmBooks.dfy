/**
  What clients of the VMM owner can tell from its answers: which calls succeed, what a successful
  unmap leaves, and that the lists are exactly what was handed out and not given back.
*/
module VmmBooks {
  import opened VmmModel
  import opened VmmSafety

  // ---------------------------------------------------------------- which calls succeed

  predicate Listed(rs: seq<Reservation>, owner: Owner, address: nat, bytes: nat) {
    exists r :: r in rs && r.owner == owner && r.address == address && r.bytes == bytes
  }

  predicate HasObject(ps: seq<Physical>, owner: Owner, handle: nat) {
    exists p :: p in ps && p.owner == owner && p.handle == handle
  }

  /** Reservations of one context that share a byte are the same one. */
  lemma OneReservation(s: State, i: nat, j: nat, address: nat, bytes: nat)
    requires Inv(s) && i < |s.reservations| && j < |s.reservations|
    requires s.reservations[i].owner == s.reservations[j].owner
    requires Contains(s.reservations[i].address, s.reservations[i].bytes, address, bytes)
    requires Contains(s.reservations[j].address, s.reservations[j].bytes, address, bytes)
    ensures i == j
  {
    assert ReservationOk(s.reservations[i]) && ReservationOk(s.reservations[j]);
  }

  /** A reservation is freed exactly when it is listed as such, nothing is mapped in it and the driver agrees. */
  lemma FreeSucceedsIff(s: State, o: Owner, a: nat, n: nat, freed: Reply)
    requires Inv(s)
    ensures DoFree(s, o, a, n, freed).1 == Success <==>
              && Listed(s.reservations, o, a, n) && freed.Ok?
              && forall m :: m in s.mappings && m.owner.context == o.context ==> !Overlaps(a, n, m.address, m.bytes)
  {
    var i := FindReservation(s.reservations, o, a, n);
    if Listed(s.reservations, o, a, n) {
      var r :| r in s.reservations && r.owner == o && r.address == a && r.bytes == n;
      var j :| 0 <= j < |s.reservations| && s.reservations[j] == r;
      assert ReservationOk(r);
      ReservationFound(s.reservations, r, o, a, n);
      OneReservation(s, i, j, a, n);
    }
    if i < |s.reservations| { assert s.reservations[i] in s.reservations; }
  }

  /** An object is destroyed exactly when its owner has it, nothing of the context maps it and the driver agrees. */
  lemma DestroySucceedsIff(s: State, o: Owner, h: nat, destroyed: Reply)
    ensures DoDestroy(s, o, h, destroyed).1 == Success <==>
              && HasObject(s.physical, o, h) && destroyed.Ok?
              && forall m :: m in s.mappings && m.owner.context == o.context ==> m.handle != h
  {
    var j := FindPhysical(s.physical, o, h);
    if j < |s.physical| { assert s.physical[j] in s.physical; }
  }

  lemma OneObject(s: State, i: nat, j: nat)
    requires Inv(s) && i < |s.physical| && j < |s.physical|
    requires s.physical[i].owner == s.physical[j].owner && s.physical[i].handle == s.physical[j].handle
    ensures i == j
  {}

  lemma OtherObject(s: State, i: nat, j: nat)
    requires Inv(s) && i < |s.physical| && j < |s.physical| && i != j
    ensures !(s.physical[i].owner == s.physical[j].owner && s.physical[i].handle == s.physical[j].handle)
  {
    assert HandlesApart(s.physical[i], s.physical[j]);
  }

  lemma OtherReservation(s: State, i: nat, j: nat, address: nat, bytes: nat)
    requires Inv(s) && i < |s.reservations| && j < |s.reservations| && i != j
    requires Contains(s.reservations[i].address, s.reservations[i].bytes, address, bytes)
    ensures !(s.reservations[j].owner == s.reservations[i].owner && s.reservations[j].address == address && s.reservations[j].bytes == bytes)
  {
    assert ReservationOk(s.reservations[i]) && ReservationOk(s.reservations[j]);
    assert ReservationsApart(s.reservations[i], s.reservations[j]);
  }

  /** A range is mapped exactly when its owner reserved it, the owner's object fits, nothing is in the way and the driver agrees. */
  lemma MapSucceedsIff(s: State, o: Owner, a: nat, n: nat, h: nat, off: nat, flags: nat, mapped: Reply)
    requires Inv(s)
    ensures DoMap(s, o, a, n, h, off, flags, mapped).1 == Success <==>
              && flags == 0 && ValidRange(a, n) && mapped.Ok?
              && (exists r :: r in s.reservations && Holds(r, o, a, n))
              && (exists p :: p in s.physical && p.owner == o && p.handle == h && Fits(p, a, n, off))
              && forall m :: m in s.mappings ==> !Hinders(m, o, a, n)
  {
    var i, j := FindReservation(s.reservations, o, a, n), FindPhysical(s.physical, o, h);
    if r :| r in s.reservations && Holds(r, o, a, n) { ReservationFound(s.reservations, r, o, a, n); }
    if p :| p in s.physical && p.owner == o && p.handle == h && Fits(p, a, n, off) {
      var k :| 0 <= k < |s.physical| && s.physical[k] == p;
      OneObject(s, j, k);
    }
    if i < |s.reservations| { assert s.reservations[i] in s.reservations; }
    if j < |s.physical| { assert s.physical[j] in s.physical; }
    hide Inv, Fits, Hinders;
  }

  lemma MappingsAreValid(s: State)
    requires Inv(s)
    ensures AllApart(s.mappings) && AllValid(s.mappings)
  {
    forall i | 0 <= i < |s.mappings| ensures ValidRange(s.mappings[i].address, s.mappings[i].bytes) {
      assert s.mappings[i] in s.mappings && MappingOk(s, s.mappings[i]);
    }
  }

  /** Access is granted exactly on a range that is fully mapped by its owner, when the driver agrees. */
  lemma AccessSucceedsIff(s: State, o: Owner, a: nat, n: nat, granted: Reply)
    requires Inv(s)
    ensures DoAccess(s, o, a, n, granted).1 == Success <==>
              ValidRange(a, n) && granted.Ok? && Tiled(s.mappings, o, a, n)
  {
    MappingsAreValid(s);
    if ValidRange(a, n) { CoveredIffTiled(s.mappings, o, a, n); }
  }

  // ---------------------------------------------------------------- what a successful unmap leaves

  lemma ClaimedIsTarget(s: State, o: Owner, a: nat, n: nat, m: Mapping)
    requires Inv(s) && UnmapAdmitted(s, o, a, n) && m in s.mappings
    ensures Claimed(Claim(m, o, a, n), o, a, n) <==> Target(m, o, a, n)
    ensures m.owner.context == o.context && Overlaps(a, n, m.address, m.bytes) ==> Target(m, o, a, n)
  {
    assert MappingOk(s, m) && !Blocks(m, o, a, n);
  }

  /**
    An unmap that succeeds removed every mapping that reaches into the range, and no other mapping
    changed; one that is refused changed nothing.
  */
  lemma UnmapClears(s: State, o: Owner, a: nat, n: nat, served: nat, code: int)
    requires Inv(s) && DoUnmap(s, o, a, n, served, code).1 == Success
    ensures var r := DoUnmap(s, o, a, n, served, code).0;
      && (forall m :: m in r.mappings <==> m in s.mappings && !Target(m, o, a, n))
      && (forall m :: m in r.mappings && m.owner.context == o.context ==> !Overlaps(a, n, m.address, m.bytes))
      && r.reservations == s.reservations && r.physical == s.physical
  {
    var cs := ClaimAll(s.mappings, o, a, n);
    SweepAll(cs, o, a, n, served);
    forall m | m in s.mappings ensures Claimed(Claim(m, o, a, n), o, a, n) <==> Target(m, o, a, n)
      ensures m.owner.context == o.context && Overlaps(a, n, m.address, m.bytes) ==> Target(m, o, a, n)
    {
      ClaimedIsTarget(s, o, a, n, m);
    }
    var r := DoUnmap(s, o, a, n, served, code).0;
    forall m ensures m in r.mappings <==> m in s.mappings && !Target(m, o, a, n) {
      SweptMember(s.mappings, o, a, n, m);
    }
  }

  /** A claimed list without its claimed mappings is the list without the targets. */
  lemma SweptMember(ms: seq<Mapping>, o: Owner, a: nat, n: nat, m: Mapping)
    requires forall x :: x in ms ==> (Claimed(Claim(x, o, a, n), o, a, n) <==> Target(x, o, a, n))
    ensures m in ClaimAll(ms, o, a, n) && !Claimed(m, o, a, n) <==> m in ms && !Target(m, o, a, n)
  {
    var cs := ClaimAll(ms, o, a, n);
    if m in cs && !Claimed(m, o, a, n) {
      var i :| 0 <= i < |cs| && cs[i] == m;
      assert ms[i] in ms && cs[i] == Claim(ms[i], o, a, n);
    }
    if m in ms && !Target(m, o, a, n) {
      var i :| 0 <= i < |ms| && ms[i] == m;
      assert cs[i] == m && cs[i] in cs;
    }
  }

  // ---------------------------------------------------------------- the client's books

  datatype Object = Object(owner: Owner, handle: nat, bytes: nat)

  datatype Range = Range(owner: Owner, address: nat, bytes: nat)

  /** The objects and ranges that were handed out and not given back, by calls and answers alone. */
  datatype Book = Book(objects: set<Object>, ranges: set<Range>)

  function Noted(book: Book, call: Call, status: Status): Book {
    if status != Success then book
    else
      match call
      case Create(o, n, _, created) =>
        if created.Ok? then book.(objects := book.objects + {Object(o, created.value, n)}) else book
      case Destroy(o, h, _) => book.(objects := set x | x in book.objects && !(x.owner == o && x.handle == h))
      case Reserve(o, n, al, _, _, page, outer) =>
        if page.Ok? && page.value > 0 && outer.Ok? then
          book.(ranges := book.ranges + {Range(o, Interior(o, n, al, page.value, outer.value).address, n)})
        else book
      case Free(o, a, n, _) => book.(ranges := book.ranges - {Range(o, a, n)})
      case _ => book
  }

  predicate IsBookOf(s: State, book: Book) {
    && (forall p :: p in s.physical ==> Object(p.owner, p.handle, p.bytes) in book.objects)
    && (forall x :: x in book.objects ==> exists p :: p in s.physical && Object(p.owner, p.handle, p.bytes) == x)
    && (forall r :: r in s.reservations ==> Range(r.owner, r.address, r.bytes) in book.ranges)
    && (forall x :: x in book.ranges ==> exists r :: r in s.reservations && Range(r.owner, r.address, r.bytes) == x)
  }

  lemma CreateNotes(s: State, book: Book, o: Owner, n: nat, page: Reply, created: Reply)
    requires IsBookOf(s, book)
    ensures var (r, status) := DoCreate(s, o, n, page, created); IsBookOf(r, Noted(book, Create(o, n, page, created), status))
  {
    var (r, status) := DoCreate(s, o, n, page, created);
    if status == Success {
      var p := Physical(o, created.value, n, page.value);
      assert forall q :: q in r.physical <==> q in s.physical || q == p;
    }
  }

  lemma ReserveNotes(s: State, book: Book, call: Call)
    requires IsBookOf(s, book) && call.Reserve?
    ensures var (r, status) := Step(s, call); IsBookOf(r, Noted(book, call, status))
  {
    var (r, status) := Step(s, call);
    if status == Success {
      var q := Interior(call.owner, call.bytes, call.alignment, call.page.value, call.outer.value);
      assert forall x :: x in r.reservations <==> x in s.reservations || x == q;
    }
  }

  /** After a successful destruction the object is not listed, and every other one is. */
  lemma DestroyedIsGone(s: State, o: Owner, h: nat, destroyed: Reply)
    requires Inv(s) && DoDestroy(s, o, h, destroyed).1 == Success
    ensures var r := DoDestroy(s, o, h, destroyed).0;
      && !HasObject(r.physical, o, h) && r.mappings == s.mappings && r.reservations == s.reservations
      && forall p :: p in r.physical <==> p in s.physical && !(p.owner == o && p.handle == h)
  {
    var r, i := DoDestroy(s, o, h, destroyed).0, FindPhysical(s.physical, o, h);
    forall p ensures p in r.physical <==> p in s.physical && !(p.owner == o && p.handle == h) {
      if p in r.physical {
        var k :| 0 <= k < |r.physical| && r.physical[k] == p;
        var j := if k < i then k else k + 1;
        assert r.physical[k] == s.physical[j];
        OtherObject(s, i, j);
      }
      if p in s.physical && !(p.owner == o && p.handle == h) {
        var j :| 0 <= j < |s.physical| && s.physical[j] == p;
        assert r.physical[if j < i then j else j - 1] == p;
      }
    }
  }

  lemma DestroyNotes(s: State, book: Book, o: Owner, h: nat, destroyed: Reply)
    requires Inv(s) && IsBookOf(s, book)
    ensures var (r, status) := DoDestroy(s, o, h, destroyed); IsBookOf(r, Noted(book, Destroy(o, h, destroyed), status))
  {
    if DoDestroy(s, o, h, destroyed).1 == Success {
      DestroyedIsGone(s, o, h, destroyed);
      hide DoDestroy, Inv;
    }
  }

  /** After a successful free the range is not listed, and every other one is. */
  lemma FreedIsGone(s: State, o: Owner, a: nat, n: nat, freed: Reply)
    requires Inv(s) && DoFree(s, o, a, n, freed).1 == Success
    ensures var r := DoFree(s, o, a, n, freed).0;
      && !Listed(r.reservations, o, a, n) && r.mappings == s.mappings && r.physical == s.physical
      && forall q :: q in r.reservations <==> q in s.reservations && !(q.owner == o && q.address == a && q.bytes == n)
  {
    var r, i := DoFree(s, o, a, n, freed).0, FindReservation(s.reservations, o, a, n);
    forall q ensures q in r.reservations <==> q in s.reservations && !(q.owner == o && q.address == a && q.bytes == n) {
      if q in r.reservations {
        var k :| 0 <= k < |r.reservations| && r.reservations[k] == q;
        var j := if k < i then k else k + 1;
        assert r.reservations[k] == s.reservations[j];
        OtherReservation(s, i, j, a, n);
      }
      if q in s.reservations && !(q.owner == o && q.address == a && q.bytes == n) {
        var j :| 0 <= j < |s.reservations| && s.reservations[j] == q;
        assert r.reservations[if j < i then j else j - 1] == q;
      }
    }
  }

  lemma FreeNotes(s: State, book: Book, o: Owner, a: nat, n: nat, freed: Reply)
    requires Inv(s) && IsBookOf(s, book)
    ensures var (r, status) := DoFree(s, o, a, n, freed); IsBookOf(r, Noted(book, Free(o, a, n, freed), status))
  {
    if DoFree(s, o, a, n, freed).1 == Success {
      FreedIsGone(s, o, a, n, freed);
      hide DoFree, Inv;
    }
  }

  lemma StepNotes(s: State, book: Book, call: Call)
    requires Inv(s) && IsBookOf(s, book)
    ensures var (r, status) := Step(s, call); IsBookOf(r, Noted(book, call, status))
  {
    hide Inv, DoFree, DoDestroy, DoMap, DoAccess, DoUnmap;
    match call
    case Reserve(_, _, _, _, _, _, _) => ReserveNotes(s, book, call);
    case Map(_, _, _, _, _, _, _) => OthersKeepLists(s, call);
    case Access(_, _, _, _) => OthersKeepLists(s, call);
    case Unmap(_, _, _, _, _) => OthersKeepLists(s, call);
    case Free(o, a, n, freed) => FreeNotes(s, book, o, a, n, freed);
    case Create(o, n, page, created) => CreateNotes(s, book, o, n, page, created);
    case Destroy(o, h, destroyed) => DestroyNotes(s, book, o, h, destroyed);
  }

  lemma OthersKeepLists(s: State, call: Call)
    requires call.Map? || call.Access? || call.Unmap?
    ensures Step(s, call).0.reservations == s.reservations && Step(s, call).0.physical == s.physical
  {}

  function BookAfter(s: State, book: Book, calls: seq<Call>): Book
    decreases |calls|
  {
    if calls == [] then book
    else
      var (r, status) := Step(s, calls[0]);
      BookAfter(r, Noted(book, calls[0], status), calls[1..])
  }

  /** After any run the lists are exactly the objects and ranges that were handed out and not given back. */
  lemma {:induction false} ListsAreTheBook(s: State, book: Book, calls: seq<Call>)
    requires Inv(s) && IsBookOf(s, book) && RunSound(s, calls)
    ensures IsBookOf(Run(s, calls), BookAfter(s, book, calls))
    decreases |calls|
  {
    if calls != [] {
      StepKeeps(s, calls[0]);
      StepNotes(s, book, calls[0]);
      var (r, status) := Step(s, calls[0]);
      hide Inv, IsBookOf, Step, Noted;
      ListsAreTheBook(r, Noted(book, calls[0], status), calls[1..]);
    }
  }
}
