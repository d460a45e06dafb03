/**
  Reference-counted physical pages (src/vmm-ref.c) as values.  A physical allocation lists its
  references; a reference may hold the address of one mapping of the allocation.
*/
module RefModel {

  /** `address` is zero for a reference that holds no mapping. */
  datatype Ref = Ref(alloc: nat, address: nat)

  datatype Allocation = Allocation(bytes: nat, refs: nat, references: seq<nat>)

  /**
    The ledger, with what the driver holds beside it: which allocation is mapped at an address,
    and the releases it accepted, in order.
  */
  datatype Store = Store(allocs: map<nat, Allocation>, refs: map<nat, Ref>, charged: int, nextAlloc: nat, nextRef: nat,
                         mapped: map<nat, nat>, released: seq<nat>)

  /** How the driver answers an unmap and a release. */
  datatype Reply = Reply(unmapOk: bool, releaseOk: bool)

  function Empty(): Store {
    Store(map[], map[], 0, 0, 0, map[], [])
  }

  /** A new allocation with one reference; the memory is charged. */
  function PageAlloc(s: Store, bytes: nat): (Store, nat) {
    var a, r := s.nextAlloc, s.nextRef;
    (s.(allocs := s.allocs[a := Allocation(bytes, 1, [r])], refs := s.refs[r := Ref(a, 0)], charged := s.charged + bytes,
        nextAlloc := a + 1, nextRef := r + 1), r)
  }

  /** One more reference to the allocation of `page`, at the head of its list. */
  function PageRef(s: Store, page: nat, address: nat): (Store, nat)
    requires page in s.refs && s.refs[page].alloc in s.allocs
  {
    var a, r := s.refs[page].alloc, s.nextRef;
    var al := s.allocs[a];
    (s.(allocs := s.allocs[a := al.(refs := al.refs + 1, references := [r] + al.references)],
        refs := s.refs[r := Ref(a, address)], nextRef := r + 1), r)
  }

  function SetAddress(s: Store, r: nat, address: nat): Store
    requires r in s.refs
  {
    s.(refs := s.refs[r := s.refs[r].(address := address)])
  }

  function Map(s: Store, a: nat, address: nat): Store {
    s.(mapped := s.mapped[address := a])
  }

  /** Another reference in the list, from position `i` on, holds the same address. */
  predicate SharesFrom(s: Store, references: seq<nat>, page: nat, i: nat)
    requires i <= |references| && page in s.refs
    decreases |references| - i
  {
    i < |references| &&
    ((references[i] != page && references[i] in s.refs && s.refs[references[i]].address == s.refs[page].address) ||
     SharesFrom(s, references, page, i + 1))
  }

  /** The reference is the last one to hold its address. */
  predicate LastAtAddress(s: Store, page: nat) {
    && page in s.refs && s.refs[page].address != 0 && s.refs[page].alloc in s.allocs
    && !SharesFrom(s, s.allocs[s.refs[page].alloc].references, page, 0)
  }

  function Without(l: seq<nat>, x: nat): seq<nat> {
    if l == [] then [] else if l[0] == x then l[1..] else [l[0]] + Without(l[1..], x)
  }

  /** The reference gives up its address: the last one at an address unmaps it. */
  function DropAddress(s: Store, page: nat): Store
    requires page in s.refs
  {
    var cleared := SetAddress(s, page, 0);
    if LastAtAddress(s, page) then cleared.(mapped := s.mapped - {s.refs[page].address}) else cleared
  }

  /** The reference leaves its list; the last one takes the allocation with it. */
  function Unlink(s: Store, page: nat): Store
    requires page in s.refs && s.refs[page].alloc in s.allocs
  {
    var a := s.refs[page].alloc;
    var al := s.allocs[a];
    if al.refs == 1 then
      s.(allocs := s.allocs - {a}, refs := s.refs - {page}, charged := s.charged - al.bytes, released := s.released + [a])
    else
      s.(allocs := s.allocs[a := al.(refs := if al.refs > 0 then al.refs - 1 else 0, references := Without(al.references, page))],
         refs := s.refs - {page})
  }

  /** Dropping a reference: a failed unmap changes nothing, a failed release keeps the unmapped reference. */
  function PageUnref(s: Store, page: nat, reply: Reply): (Store, bool)
    requires page in s.refs && s.refs[page].alloc in s.allocs
  {
    if LastAtAddress(s, page) && !reply.unmapOk then (s, false)
    else
      var dropped := DropAddress(s, page);
      if s.allocs[s.refs[page].alloc].refs == 1 && !reply.releaseOk then (dropped, false)
      else (Unlink(dropped, page), true)
  }

  /** Mapping the allocation of `page` at an address through a reference of its own. */
  function MapReference(s: Store, page: nat, address: nat, mapOk: bool, accessOk: bool, reply: Reply): (Store, bool, nat)
    requires page in s.refs && s.refs[page].alloc in s.allocs
  {
    var (held, r) := PageRef(s, page, 0);
    if !mapOk then (PageUnref(held, r, reply).0, false, r)
    else
      var mapped := SetAddress(Map(held, s.refs[page].alloc, address), r, address);
      if !accessOk then (PageUnref(mapped, r, reply).0, false, r) else (mapped, true, r)
  }

  // ---------------------------------------------------------------- the invariant

  predicate Apart(l: seq<nat>) {
    forall i, j :: 0 <= i < j < |l| ==> l[i] != l[j]
  }

  function SumBytes(allocs: map<nat, Allocation>, n: nat): int {
    if n == 0 then 0 else SumBytes(allocs, n - 1) + (if n - 1 in allocs then allocs[n - 1].bytes else 0)
  }

  predicate AllocationOk(s: Store, a: nat)
    requires a in s.allocs
  {
    && a < s.nextAlloc && s.allocs[a].refs == |s.allocs[a].references| > 0 && Apart(s.allocs[a].references)
    && forall i :: 0 <= i < |s.allocs[a].references| ==>
         s.allocs[a].references[i] in s.refs && s.refs[s.allocs[a].references[i]].alloc == a
  }

  predicate RefOk(s: Store, r: nat)
    requires r in s.refs
  {
    r < s.nextRef && s.refs[r].alloc in s.allocs && r in s.allocs[s.refs[r].alloc].references
  }

  /** The driver has the allocation mapped at every address a reference holds. */
  predicate AddressOk(s: Store, r: nat)
    requires r in s.refs
  {
    s.refs[r].address != 0 ==> s.refs[r].address in s.mapped && s.mapped[s.refs[r].address] == s.refs[r].alloc
  }

  /** Some reference holds the mapped address. */
  predicate MappingHeld(s: Store, address: nat)
    requires address in s.mapped
  {
    exists r :: r in s.refs && s.refs[r] == Ref(s.mapped[address], address)
  }

  ghost predicate Inv(s: Store) {
    && (forall a :: a in s.allocs ==> AllocationOk(s, a))
    && (forall r :: r in s.refs ==> RefOk(s, r) && AddressOk(s, r))
    && (forall address :: address in s.mapped ==> address != 0 && MappingHeld(s, address))
    && s.charged == SumBytes(s.allocs, s.nextAlloc)
    && Apart(s.released) && forall i :: 0 <= i < |s.released| ==> s.released[i] < s.nextAlloc && s.released[i] !in s.allocs
  }

  lemma EmptyInv()
    ensures Inv(Empty())
  {}

  // ---------------------------------------------------------------- lists and sums

  lemma {:induction false} SharesMeans(s: Store, references: seq<nat>, page: nat, i: nat)
    requires i <= |references| && page in s.refs
    ensures SharesFrom(s, references, page, i) <==>
            exists k :: i <= k < |references| && references[k] != page && references[k] in s.refs &&
                        s.refs[references[k]].address == s.refs[page].address
    decreases |references| - i
  {
    if i < |references| { SharesMeans(s, references, page, i + 1); }
  }

  lemma {:induction false} WithoutMeans(l: seq<nat>, x: nat)
    requires Apart(l)
    ensures Apart(Without(l, x)) && (x in l ==> |Without(l, x)| == |l| - 1)
    ensures forall y :: y in Without(l, x) <==> y in l && y != x
  {
    if l != [] {
      assert l == [l[0]] + l[1..];
      assert forall k :: 0 <= k < |l| - 1 ==> l[1..][k] == l[k + 1] != l[0];
      if l[0] != x {
        WithoutMeans(l[1..], x);
        assert l[0] !in Without(l[1..], x);
      }
    }
  }

  lemma {:induction false} SumSame(allocs: map<nat, Allocation>, allocs': map<nat, Allocation>, n: nat)
    requires forall a :: 0 <= a < n ==> (a in allocs <==> a in allocs') && (a in allocs ==> allocs[a].bytes == allocs'[a].bytes)
    ensures SumBytes(allocs, n) == SumBytes(allocs', n)
  {
    if n > 0 { SumSame(allocs, allocs', n - 1); }
  }

  lemma {:induction false} SumRemoved(allocs: map<nat, Allocation>, a: nat, n: nat)
    requires a in allocs && a < n
    ensures SumBytes(allocs - {a}, n) == SumBytes(allocs, n) - allocs[a].bytes
  {
    if a == n - 1 { SumSame(allocs, allocs - {a}, n - 1); } else { SumRemoved(allocs, a, n - 1); }
  }

  // ---------------------------------------------------------------- every operation keeps it

  lemma PageAllocKeeps(s: Store, bytes: nat)
    requires Inv(s)
    ensures Inv(PageAlloc(s, bytes).0)
  {
    var t := PageAlloc(s, bytes).0;
    forall r | r in t.refs ensures RefOk(t, r) && AddressOk(t, r) { if r != s.nextRef { assert RefOk(s, r) && AddressOk(s, r); } }
    forall a | a in t.allocs ensures AllocationOk(t, a) { AllocKeepsOthers(s, bytes, a); }
    forall address | address in t.mapped ensures MappingHeld(t, address) { HeldStill(s, t, address); }
    assert s.nextAlloc !in s.allocs;
    SumSame(s.allocs, t.allocs, s.nextAlloc);
  }

  lemma AllocKeepsOthers(s: Store, bytes: nat, a: nat)
    requires Inv(s) && a in PageAlloc(s, bytes).0.allocs
    ensures AllocationOk(PageAlloc(s, bytes).0, a)
  {
    if a != s.nextAlloc {
      assert AllocationOk(s, a);
      forall i | 0 <= i < |s.allocs[a].references| ensures s.allocs[a].references[i] != s.nextRef {
        assert RefOk(s, s.allocs[a].references[i]);
      }
    }
  }

  /** A mapping is still held when no reference at its address changed. */
  lemma HeldStill(s: Store, t: Store, address: nat)
    requires address in s.mapped && address in t.mapped && s.mapped[address] == t.mapped[address] && MappingHeld(s, address)
    requires forall r :: r in s.refs && s.refs[r].address == address ==> r in t.refs && t.refs[r] == s.refs[r]
    ensures MappingHeld(t, address)
  {
    var r :| r in s.refs && s.refs[r] == Ref(s.mapped[address], address);
    assert r in t.refs && t.refs[r] == s.refs[r];
  }

  /** A new reference may hold an address that is already mapped to its allocation. */
  lemma PageRefKeeps(s: Store, page: nat, address: nat)
    requires Inv(s) && page in s.refs
    requires address != 0 ==> address in s.mapped && s.mapped[address] == s.refs[page].alloc
    ensures s.refs[page].alloc in s.allocs && Inv(PageRef(s, page, address).0)
  {
    assert RefOk(s, page);
    var a := s.refs[page].alloc;
    var t := PageRef(s, page, address).0;
    assert AllocationOk(s, a);
    forall b | b in t.allocs ensures AllocationOk(t, b) { PageRefList(s, page, address, b); }
    forall r | r in t.refs ensures RefOk(t, r) && AddressOk(t, r) { if r != s.nextRef { assert RefOk(s, r) && AddressOk(s, r); } }
    forall m | m in t.mapped ensures MappingHeld(t, m) { PageRefIsNew(s, page); HeldStill(s, t, m); }
    SumSame(s.allocs, t.allocs, s.nextAlloc);
  }

  lemma PageRefIsNew(s: Store, page: nat)
    requires Inv(s)
    ensures s.nextRef !in s.refs
  {
    forall r | r in s.refs ensures r != s.nextRef { assert RefOk(s, r); }
  }

  lemma PageRefList(s: Store, page: nat, address: nat, b: nat)
    requires Inv(s) && page in s.refs && s.refs[page].alloc in s.allocs && b in s.allocs
    ensures AllocationOk(PageRef(s, page, address).0, b)
  {
    assert AllocationOk(s, b);
    forall i | 0 <= i < |s.allocs[b].references| ensures s.allocs[b].references[i] != s.nextRef {
      assert RefOk(s, s.allocs[b].references[i]);
    }
  }

  /** What sharing an address means for the store as a whole. */
  lemma LastMeans(s: Store, page: nat)
    requires Inv(s) && page in s.refs
    ensures LastAtAddress(s, page) <==>
              s.refs[page].address != 0 &&
              forall r :: r in s.refs && r != page && s.refs[r].alloc == s.refs[page].alloc ==> s.refs[r].address != s.refs[page].address
  {
    assert RefOk(s, page);
    var a := s.refs[page].alloc;
    var l := s.allocs[a].references;
    assert AllocationOk(s, a);
    SharesMeans(s, l, page, 0);
    forall r | r in s.refs && s.refs[r].alloc == a ensures exists k :: 0 <= k < |l| && l[k] == r { assert RefOk(s, r); }
  }

  /** At one address all references belong to the one allocation mapped there. */
  lemma SameAddressSameAllocation(s: Store, r: nat, q: nat)
    requires Inv(s) && r in s.refs && q in s.refs && s.refs[r].address == s.refs[q].address != 0
    ensures s.refs[r].alloc == s.refs[q].alloc
  {
    assert AddressOk(s, r) && AddressOk(s, q);
  }

  lemma DropAddressKeeps(s: Store, page: nat)
    requires Inv(s) && page in s.refs
    ensures Inv(DropAddress(s, page)) && DropAddress(s, page).refs[page] == Ref(s.refs[page].alloc, 0)
  {
    var t := DropAddress(s, page);
    LastMeans(s, page);
    forall a | a in t.allocs ensures AllocationOk(t, a) { assert AllocationOk(s, a); }
    forall r | r in t.refs ensures RefOk(t, r) && AddressOk(t, r) {
      assert RefOk(s, r) && AddressOk(s, r);
      if r != page && s.refs[r].address != 0 && s.refs[r].address == s.refs[page].address {
        SameAddressSameAllocation(s, r, page);
      }
    }
    forall m | m in t.mapped ensures MappingHeld(t, m) { DropLeavesHeld(s, page, m); }
  }

  /** A mapping that survives has another reference to hold it. */
  lemma DropLeavesHeld(s: Store, page: nat, m: nat)
    requires Inv(s) && page in s.refs && m in DropAddress(s, page).mapped
    ensures MappingHeld(DropAddress(s, page), m)
  {
    var t := DropAddress(s, page);
    assert MappingHeld(s, m);
    var r :| r in s.refs && s.refs[r] == Ref(s.mapped[m], m);
    if r == page {
      LastMeans(s, page);
      var q :| q in s.refs && q != page && s.refs[q].alloc == s.refs[page].alloc && s.refs[q].address == s.refs[page].address;
      assert t.refs[q] == Ref(t.mapped[m], m);
    } else {
      assert t.refs[r] == Ref(t.mapped[m], m);
    }
  }

  /** Only a reference without a mapping leaves; the allocation goes exactly with its last reference. */
  lemma UnlinkKeeps(s: Store, page: nat)
    requires Inv(s) && page in s.refs && s.refs[page].address == 0
    ensures s.refs[page].alloc in s.allocs && Inv(Unlink(s, page)) && page !in Unlink(s, page).refs
  {
    assert RefOk(s, page);
    var a := s.refs[page].alloc;
    assert AllocationOk(s, a);
    if s.allocs[a].refs == 1 { ReleaseKeeps(s, page); } else { ShortenKeeps(s, page); }
  }

  lemma OnlyReference(s: Store, page: nat, r: nat)
    requires Inv(s) && page in s.refs && r in s.refs && s.refs[r].alloc == s.refs[page].alloc
    requires s.refs[page].alloc in s.allocs && s.allocs[s.refs[page].alloc].refs == 1
    ensures r == page
  {
    assert RefOk(s, page) && RefOk(s, r) && AllocationOk(s, s.refs[page].alloc);
  }

  lemma ReleaseKeeps(s: Store, page: nat)
    requires Inv(s) && page in s.refs && s.refs[page].address == 0
    requires s.refs[page].alloc in s.allocs && s.allocs[s.refs[page].alloc].refs == 1
    ensures Inv(Unlink(s, page))
  {
    var a, t := s.refs[page].alloc, Unlink(s, page);
    assert AllocationOk(s, a);
    forall r | r in t.refs ensures RefOk(t, r) && AddressOk(t, r) {
      assert RefOk(s, r) && AddressOk(s, r);
      if s.refs[r].alloc == a { OnlyReference(s, page, r); }
    }
    forall b | b in t.allocs ensures AllocationOk(t, b) { assert AllocationOk(s, b); }
    forall m | m in t.mapped ensures MappingHeld(t, m) { HeldStill(s, t, m); }
    SumRemoved(s.allocs, a, s.nextAlloc);
    forall i | 0 <= i < |s.released| ensures s.released[i] != a { assert s.released[i] !in s.allocs; }
  }

  lemma ShortenKeeps(s: Store, page: nat)
    requires Inv(s) && page in s.refs && s.refs[page].address == 0
    requires s.refs[page].alloc in s.allocs && s.allocs[s.refs[page].alloc].refs != 1
    ensures Inv(Unlink(s, page))
  {
    var a, t := s.refs[page].alloc, Unlink(s, page);
    assert AllocationOk(s, a) && RefOk(s, page);
    WithoutMeans(s.allocs[a].references, page);
    forall r | r in t.refs ensures RefOk(t, r) && AddressOk(t, r) { assert RefOk(s, r) && AddressOk(s, r); }
    forall b | b in t.allocs ensures AllocationOk(t, b) { ShortenList(s, page, b); }
    forall m | m in t.mapped ensures MappingHeld(t, m) { HeldStill(s, t, m); }
    SumSame(s.allocs, t.allocs, s.nextAlloc);
  }

  lemma ShortenList(s: Store, page: nat, b: nat)
    requires Inv(s) && page in s.refs && b in s.allocs
    requires s.refs[page].alloc in s.allocs && s.allocs[s.refs[page].alloc].refs != 1
    ensures b in Unlink(s, page).allocs && AllocationOk(Unlink(s, page), b)
  {
    var a, t := s.refs[page].alloc, Unlink(s, page);
    assert AllocationOk(s, b) && AllocationOk(s, a) && RefOk(s, page);
    if b == a {
      WithoutMeans(s.allocs[a].references, page);
      forall i | 0 <= i < |t.allocs[a].references|
        ensures t.allocs[a].references[i] in t.refs && t.refs[t.allocs[a].references[i]].alloc == a
      {
        assert t.allocs[a].references[i] in t.allocs[a].references;
      }
    }
  }

  /** A dropped reference is gone, or the drop failed; either way the ledger stays sound. */
  lemma PageUnrefKeeps(s: Store, page: nat, reply: Reply)
    requires Inv(s) && page in s.refs
    ensures s.refs[page].alloc in s.allocs && Inv(PageUnref(s, page, reply).0)
    ensures PageUnref(s, page, reply).1 <==> page !in PageUnref(s, page, reply).0.refs
    ensures reply.unmapOk && reply.releaseOk ==> PageUnref(s, page, reply).1
  {
    assert RefOk(s, page);
    DropAddressKeeps(s, page);
    UnlinkKeeps(DropAddress(s, page), page);
  }

  /** An address is unmapped only when no other reference holds it, and an allocation is released only unmapped. */
  lemma UnmapsOnlyLast(s: Store, page: nat, reply: Reply)
    requires Inv(s) && page in s.refs && s.refs[page].alloc in s.allocs
    ensures var t := PageUnref(s, page, reply).0;
      && (forall m :: m in s.mapped && m !in t.mapped ==>
            m == s.refs[page].address && forall r :: r in s.refs && r != page ==> s.refs[r].address != m)
      && (forall m :: m in t.mapped ==> m in s.mapped && t.mapped[m] == s.mapped[m])
      && (t.released != s.released ==>
            && t.released == s.released + [s.refs[page].alloc]
            && forall m :: m in t.mapped ==> t.mapped[m] != s.refs[page].alloc)
  {
    PageUnrefKeeps(s, page, reply);
    var t := PageUnref(s, page, reply).0;
    LastMeans(s, page);
    forall r | r in s.refs && r != page && s.refs[r].address == s.refs[page].address != 0
      ensures s.refs[r].alloc == s.refs[page].alloc
    {
      SameAddressSameAllocation(s, r, page);
    }
    if t.released != s.released {
      forall m | m in t.mapped ensures t.mapped[m] != s.refs[page].alloc {
        assert MappingHeld(t, m);
        var r :| r in t.refs && t.refs[r] == Ref(t.mapped[m], m);
        assert RefOk(t, r);
      }
    }
  }

  predicate Shares(s: Store, page: nat)
    requires page in s.refs
  {
    exists r :: r in s.refs && r != page && s.refs[r].address == s.refs[page].address
  }

  predicate Alone(s: Store, page: nat)
    requires page in s.refs
  {
    forall r :: r in s.refs && s.refs[r].alloc == s.refs[page].alloc ==> r == page
  }

  /**
    Told from the references alone: an address goes exactly when nothing else holds it and the
    driver unmaps it; the allocation goes exactly with its only reference, once that is unmapped
    and the driver takes the release; the reference goes exactly when neither was refused.
  */
  lemma UnrefIsExact(s: Store, page: nat, reply: Reply)
    requires Inv(s) && page in s.refs && s.refs[page].alloc in s.allocs
    ensures var (t, ok) := PageUnref(s, page, reply);
      var address := s.refs[page].address;
      var held := address != 0 && !Shares(s, page);
      && (address != 0 ==> (address !in t.mapped <==> held && reply.unmapOk))
      && (ok <==> (held ==> reply.unmapOk) && (Alone(s, page) ==> reply.releaseOk))
      && (s.refs[page].alloc !in t.allocs <==> ok && Alone(s, page))
      && t.released == (if ok && Alone(s, page) then s.released + [s.refs[page].alloc] else s.released)
      && t.charged == s.charged - (if ok && Alone(s, page) then s.allocs[s.refs[page].alloc].bytes else 0)
      && (page in t.refs <==> !ok)
      && forall r :: r in s.refs && r != page ==> r in t.refs && t.refs[r] == s.refs[r]
  {
    PageUnrefKeeps(s, page, reply);
    LastMeans(s, page);
    LastIffAlone(s, page);
    assert AddressOk(s, page);
    forall r | r in s.refs && r != page && s.refs[r].address == s.refs[page].address != 0
      ensures s.refs[r].alloc == s.refs[page].alloc
    {
      SameAddressSameAllocation(s, r, page);
    }
    assert s.refs[page].address != 0 ==> (LastAtAddress(s, page) <==> !Shares(s, page));
  }

  lemma LastIffAlone(s: Store, page: nat)
    requires Inv(s) && page in s.refs && s.refs[page].alloc in s.allocs
    ensures s.allocs[s.refs[page].alloc].refs == 1 <==> Alone(s, page)
  {
    var l := s.allocs[s.refs[page].alloc].references;
    assert AllocationOk(s, s.refs[page].alloc) && RefOk(s, page);
    if |l| == 1 {
      forall r | r in s.refs && s.refs[r].alloc == s.refs[page].alloc ensures r == page { assert RefOk(s, r); }
    } else {
      assert l[0] != l[1] && l[0] in s.refs && l[1] in s.refs;
    }
  }

  /** Mapping at a fresh address, whatever the driver answers, keeps the ledger sound. */
  lemma MapReferenceKeeps(s: Store, page: nat, address: nat, mapOk: bool, accessOk: bool, reply: Reply)
    requires Inv(s) && page in s.refs && address != 0 && (mapOk ==> address !in s.mapped)
    ensures s.refs[page].alloc in s.allocs
    ensures var (t, ok, r) := MapReference(s, page, address, mapOk, accessOk, reply);
      Inv(t) && (ok ==> r in t.refs && t.refs[r] == Ref(s.refs[page].alloc, address))
  {
    assert RefOk(s, page);
    PageRefKeeps(s, page, 0);
    var (held, r) := PageRef(s, page, 0);
    if !mapOk {
      PageUnrefKeeps(held, r, reply);
    } else {
      MapKeeps(held, r, s.refs[page].alloc, address);
      if !accessOk { PageUnrefKeeps(SetAddress(Map(held, s.refs[page].alloc, address), r, address), r, reply); }
    }
  }

  /**
    Mapping succeeds exactly when the driver maps and grants access, and then one mapping and one
    reference are new; otherwise, unless the driver refuses to unmap, everything is as before.
  */
  lemma MapReferenceIsExact(s: Store, page: nat, address: nat, mapOk: bool, accessOk: bool, reply: Reply)
    requires Inv(s) && page in s.refs && s.refs[page].alloc in s.allocs && address != 0 && (mapOk ==> address !in s.mapped)
    ensures var (t, ok, r) := MapReference(s, page, address, mapOk, accessOk, reply);
      && (ok <==> mapOk && accessOk)
      && (ok ==> t.mapped == s.mapped[address := s.refs[page].alloc] && t.refs == s.refs[r := Ref(s.refs[page].alloc, address)])
      && r !in s.refs && t.charged == s.charged && t.released == s.released
      && (!ok && (mapOk ==> reply.unmapOk) ==> t.mapped == s.mapped && t.refs == s.refs && t.allocs == s.allocs)
  {
    hide Inv, PageUnref;
    PageRefIsNew(s, page);
    PageRefKeeps(s, page, 0);
    var (held, r) := PageRef(s, page, 0);
    var a := s.refs[page].alloc;
    ListIsSound(s, page);
    assert held.refs - {r} == s.refs && held.allocs[a := s.allocs[a]] == s.allocs;
    if !mapOk {
      UndoneReference(held, r, s.allocs[a].references, reply);
    } else {
      NobodyHolds(s, address);
      MapKeeps(held, r, a, address);
      var mapped := SetAddress(Map(held, a, address), r, address);
      UnrefIsExact(mapped, r, reply);
      if !accessOk && reply.unmapOk {
        UndoneReference(mapped, r, s.allocs[a].references, reply);
        assert mapped.refs - {r} == s.refs && mapped.mapped - {address} == s.mapped;
      }
    }
  }

  lemma ListIsSound(s: Store, page: nat)
    requires Inv(s) && page in s.refs && s.refs[page].alloc in s.allocs
    ensures var al := s.allocs[s.refs[page].alloc]; al.refs == |al.references| > 0
    ensures 0 !in s.mapped
  {
    assert AllocationOk(s, s.refs[page].alloc);
  }

  /** Dropping the newest of several references leaves the list as it was before it. */
  lemma UndoneReference(h: Store, r: nat, l: seq<nat>, reply: Reply)
    requires Inv(h) && r in h.refs && h.refs[r].alloc in h.allocs && l != []
    requires h.allocs[h.refs[r].alloc].references == [r] + l
    requires h.refs[r].address != 0 ==> reply.unmapOk && !Shares(h, r)
    ensures var a := h.refs[r].alloc;
      PageUnref(h, r, reply) ==
      (h.(allocs := h.allocs[a := h.allocs[a].(refs := h.allocs[a].refs - 1, references := l)], refs := h.refs - {r},
          mapped := h.mapped - {h.refs[r].address}), true)
  {
    LastMeans(h, r);
    ListIsSound(h, r);
    assert Without([r] + l, r) == l;
    assert h.refs[r := Ref(h.refs[r].alloc, 0)] - {r} == h.refs - {r};
    assert h.mapped - {0} == h.mapped;
  }

  /** No reference holds an address that is not mapped. */
  lemma NobodyHolds(s: Store, address: nat)
    requires Inv(s) && address != 0 && address !in s.mapped
    ensures forall r :: r in s.refs ==> s.refs[r].address != address
  {
    forall r | r in s.refs ensures s.refs[r].address != address { assert AddressOk(s, r); }
  }

  lemma MapKeeps(s: Store, r: nat, a: nat, address: nat)
    requires Inv(s) && r in s.refs && s.refs[r] == Ref(a, 0) && address != 0 && address !in s.mapped
    ensures Inv(SetAddress(Map(s, a, address), r, address))
  {
    var t := SetAddress(Map(s, a, address), r, address);
    forall b | b in t.allocs ensures AllocationOk(t, b) { assert AllocationOk(s, b); }
    forall q | q in t.refs ensures RefOk(t, q) && AddressOk(t, q) { assert RefOk(s, q) && AddressOk(s, q); }
    forall m | m in t.mapped ensures MappingHeld(t, m) {
      if m == address { assert t.refs[r] == Ref(t.mapped[m], m); } else { HeldStill(s, t, m); }
    }
  }

  /** A reference without a mapping may take over an address already mapped to its allocation. */
  lemma SetAddressKeeps(s: Store, r: nat, address: nat)
    requires Inv(s) && r in s.refs && s.refs[r].address == 0
    requires address in s.mapped && s.mapped[address] == s.refs[r].alloc
    ensures Inv(SetAddress(s, r, address))
  {
    var t := SetAddress(s, r, address);
    forall b | b in t.allocs ensures AllocationOk(t, b) { assert AllocationOk(s, b); }
    forall q | q in t.refs ensures RefOk(t, q) && AddressOk(t, q) { assert RefOk(s, q) && AddressOk(s, q); }
    forall m | m in t.mapped ensures MappingHeld(t, m) { HeldStill(s, t, m); }
  }
}
