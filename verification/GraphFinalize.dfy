/**
  Giving rogues their memory for good: after a hand-off, every physical page a rogue holds is
  replaced in the graph, its other virtual aliases are mapped to the replacement, and the rogue's
  own addresses become black holes that the graph leaves alone.
*/
module GraphFinalize {

  datatype Slot = Unmapped | MappedTo(page: nat)

  /**
    Per virtual page: its physical number, the graph's mapping, and the rogue whose black hole it
    is (zero for none); per physical number: the page object behind it.  `held` is what the
    surviving rogues have mapped, by virtual page.
  */
  datatype Backing = Backing(vaPhys: seq<nat>, pages: seq<nat>, mapped: seq<Slot>, holes: seq<nat>, held: map<nat, nat>,
                             nextPage: nat)

  /** A large candidate that the hand-off made a rogue. */
  datatype Span = Span(va: nat, pages: nat, ptr: nat)

  predicate InSpan(c: Span, va: nat) {
    c.va <= va < c.va + c.pages
  }

  /** The first candidate that covers the page, or the number of candidates. */
  function Covering(cs: seq<Span>, va: nat, i: nat): (r: nat)
    requires i <= |cs|
    ensures i <= r <= |cs| && (r < |cs| ==> InSpan(cs[r], va))
    ensures forall j :: i <= j < r ==> !InSpan(cs[j], va)
    decreases |cs| - i
  {
    if i == |cs| || InSpan(cs[i], va) then i else Covering(cs, va, i + 1)
  }

  predicate Taken(cs: seq<Span>, va: nat) {
    Covering(cs, va, 0) < |cs|
  }

  // ---------------------------------------------------------------- the invariant between frames

  predicate Shape(b: Backing) {
    && |b.mapped| == |b.holes| == |b.vaPhys|
    && (forall va :: 0 <= va < |b.vaPhys| ==> b.vaPhys[va] < |b.pages|)
    && (forall p :: 0 <= p < |b.pages| ==> b.pages[p] < b.nextPage)
    && (forall p, q :: 0 <= p < q < |b.pages| ==> b.pages[p] != b.pages[q])
    && (forall va :: va in b.held ==> va < |b.vaPhys| && b.held[va] < b.nextPage)
  }

  /** Whatever is not a black hole is mapped to its page, and no page of the graph is held by a rogue. */
  predicate BackingOk(b: Backing) {
    && Shape(b)
    && (forall va :: 0 <= va < |b.vaPhys| ==> b.mapped[va] == if b.holes[va] == 0 then MappedTo(b.pages[b.vaPhys[va]]) else Unmapped)
    && (forall va :: va in b.held ==> b.holes[va] != 0)
    && (forall va, p :: va in b.held && 0 <= p < |b.pages| ==> b.held[va] != b.pages[p])
  }

  /** The candidates lie in the graph, apart from each other, outside black holes, on distinct pointers. */
  ghost predicate CandidatesOk(b: Backing, cs: seq<Span>) {
    && (forall i :: 0 <= i < |cs| ==> cs[i].ptr != 0 && cs[i].va + cs[i].pages <= |b.vaPhys|)
    && (forall i, va: nat :: 0 <= i < |cs| && InSpan(cs[i], va) && va < |b.holes| ==> b.holes[va] == 0)
  }

  // ---------------------------------------------------------------- the hand-off

  /** Every page of every candidate becomes its rogue's, with the page object it is mapped to now. */
  function HandedOff(b: Backing, cs: seq<Span>): Backing
    requires Shape(b)
  {
    b.(holes := seq(|b.holes|, va requires 0 <= va < |b.holes| => if Taken(cs, va) then cs[Covering(cs, va, 0)].ptr else b.holes[va]),
       held := map va: nat | va < |b.vaPhys| && (va in b.held || Taken(cs, va)) ::
                 if Taken(cs, va) then b.pages[b.vaPhys[va]] else b.held[va])
  }

  // ---------------------------------------------------------------- the replacements

  /**
    One replacement for each physical page behind the first `n` virtual pages that a candidate
    covers, named after the virtual page it was first needed for.
  */
  function Replacements(b: Backing, cs: seq<Span>, n: nat): (m: map<nat, nat>)
    requires n <= |b.vaPhys|
  {
    if n == 0 then map[]
    else
      var before := Replacements(b, cs, n - 1);
      if Taken(cs, n - 1) && b.vaPhys[n - 1] !in before then before[b.vaPhys[n - 1] := b.nextPage + n - 1] else before
  }

  /** A candidate covers one of the first `n` virtual pages on the physical page. */
  predicate Under(b: Backing, cs: seq<Span>, n: nat, p: nat)
    requires n <= |b.vaPhys|
  {
    exists va :: 0 <= va < n && b.vaPhys[va] == p && Taken(cs, va)
  }

  lemma {:induction false} ReplacementsAreNew(b: Backing, cs: seq<Span>, n: nat)
    requires n <= |b.vaPhys|
    ensures forall p :: p in Replacements(b, cs, n) ==> b.nextPage <= Replacements(b, cs, n)[p] < b.nextPage + n
    ensures forall p, q :: p in Replacements(b, cs, n) && q in Replacements(b, cs, n) && p != q ==>
              Replacements(b, cs, n)[p] != Replacements(b, cs, n)[q]
    ensures forall p :: p in Replacements(b, cs, n) <==> Under(b, cs, n, p)
  {
    if n > 0 {
      ReplacementsAreNew(b, cs, n - 1);
      forall p ensures p in Replacements(b, cs, n) <==> Under(b, cs, n, p) { UnderOneMore(b, cs, n, p); }
    }
  }

  lemma UnderOneMore(b: Backing, cs: seq<Span>, n: nat, p: nat)
    requires 0 < n <= |b.vaPhys|
    ensures Under(b, cs, n, p) <==> Under(b, cs, n - 1, p) || (b.vaPhys[n - 1] == p && Taken(cs, n - 1))
  {
    if Under(b, cs, n - 1, p) {
      var va :| 0 <= va < n - 1 && b.vaPhys[va] == p && Taken(cs, va);
      assert 0 <= va < n;
    }
  }

  /** Where the graph's mapping of a virtual page ends up. */
  function Remapped(b: Backing, reps: map<nat, nat>, va: nat): Slot
    requires va < |b.vaPhys| == |b.mapped| == |b.holes|
  {
    if b.vaPhys[va] !in reps then b.mapped[va]
    else if b.holes[va] != 0 then Unmapped
    else MappedTo(reps[b.vaPhys[va]])
  }

  function Replaced(b: Backing, reps: map<nat, nat>): Backing
    requires |b.mapped| == |b.holes| == |b.vaPhys|
  {
    b.(mapped := seq(|b.mapped|, va requires 0 <= va < |b.mapped| => Remapped(b, reps, va)),
       pages := seq(|b.pages|, p requires 0 <= p < |b.pages| => if p in reps then reps[p] else b.pages[p]),
       nextPage := b.nextPage + |b.vaPhys|)
  }

  /** The whole of a successful finalization. */
  function Finalized(b: Backing, cs: seq<Span>): Backing
    requires Shape(b)
  {
    Replaced(HandedOff(b, cs), Replacements(b, cs, |b.vaPhys|))
  }

  // ---------------------------------------------------------------- what a finalization achieves

  lemma FinalizedShape(b: Backing, cs: seq<Span>)
    requires Shape(b)
    ensures Shape(Finalized(b, cs))
  {
    ReplacementsAreNew(b, cs, |b.vaPhys|);
  }

  lemma FinalizedMapping(b: Backing, cs: seq<Span>, va: nat)
    requires BackingOk(b) && CandidatesOk(b, cs) && va < |b.vaPhys|
    ensures var f := Finalized(b, cs);
      f.mapped[va] == if f.holes[va] == 0 then MappedTo(f.pages[f.vaPhys[va]]) else Unmapped
  {
    ReplacementsAreNew(b, cs, |b.vaPhys|);
    var reps := Replacements(b, cs, |b.vaPhys|);
    if Taken(cs, va) { assert Under(b, cs, |b.vaPhys|, b.vaPhys[va]) && b.vaPhys[va] in reps; }
  }

  lemma HeldIsNotAPage(b: Backing, cs: seq<Span>, va: nat, p: nat)
    requires BackingOk(b) && CandidatesOk(b, cs) && va in Finalized(b, cs).held && p < |b.pages|
    ensures Finalized(b, cs).held[va] != Finalized(b, cs).pages[p]
  {
    ReplacementsAreNew(b, cs, |b.vaPhys|);
    var reps := Replacements(b, cs, |b.vaPhys|);
    if Taken(cs, va) {
      assert Under(b, cs, |b.vaPhys|, b.vaPhys[va]) && b.vaPhys[va] in reps;
      assert p !in reps ==> p != b.vaPhys[va];
    }
  }

  /** The invariant holds again: no page the graph can hand out is held by a rogue, old or new. */
  lemma FinalizeKeeps(b: Backing, cs: seq<Span>)
    requires BackingOk(b) && CandidatesOk(b, cs)
    ensures BackingOk(Finalized(b, cs))
  {
    var f := Finalized(b, cs);
    FinalizedShape(b, cs);
    forall va | 0 <= va < |f.vaPhys|
      ensures f.mapped[va] == if f.holes[va] == 0 then MappedTo(f.pages[f.vaPhys[va]]) else Unmapped
    {
      FinalizedMapping(b, cs, va);
    }
    forall va, p | va in f.held && 0 <= p < |f.pages| ensures f.held[va] != f.pages[p] { HeldIsNotAPage(b, cs, va, p); }
  }

  /** New rogues keep the page objects their addresses were mapped to; old rogues keep theirs. */
  lemma RoguesKeepBacking(b: Backing, cs: seq<Span>, va: nat)
    requires BackingOk(b) && CandidatesOk(b, cs) && va < |b.vaPhys|
    ensures Taken(cs, va) ==> va in Finalized(b, cs).held && b.mapped[va] == MappedTo(Finalized(b, cs).held[va])
    ensures va in b.held ==> va in Finalized(b, cs).held && Finalized(b, cs).held[va] == b.held[va]
    ensures va in Finalized(b, cs).held ==> va in b.held || Taken(cs, va)
  {}

  /**
    An alias of a rogue's page moves to the replacement, a page object created for it, which the
    physical number now names for every alias; every other virtual page is mapped as before.
  */
  lemma AliasesMove(b: Backing, cs: seq<Span>, va: nat)
    requires BackingOk(b) && CandidatesOk(b, cs) && va < |b.vaPhys| && b.holes[va] == 0 && !Taken(cs, va)
    ensures var f := Finalized(b, cs);
      && f.holes[va] == 0 && f.vaPhys == b.vaPhys
      && f.mapped[va] == MappedTo(f.pages[b.vaPhys[va]])
      && (if Under(b, cs, |b.vaPhys|, b.vaPhys[va]) then b.nextPage <= f.pages[b.vaPhys[va]] < f.nextPage
          else f.pages[b.vaPhys[va]] == b.pages[b.vaPhys[va]])
  {
    ReplacementsAreNew(b, cs, |b.vaPhys|);
  }

  // ---------------------------------------------------------------- a black hole after its rogue is gone

  /** When the rogue no longer exists the graph maps the page again and takes it back. */
  function Revived(b: Backing, va: nat): Backing
    requires Shape(b) && va < |b.vaPhys|
  {
    b.(mapped := b.mapped[va := MappedTo(b.pages[b.vaPhys[va]])], holes := b.holes[va := 0])
  }

  lemma ReviveKeeps(b: Backing, va: nat)
    requires BackingOk(b) && va < |b.vaPhys| && va !in b.held
    ensures BackingOk(Revived(b, va))
  {}

  // ---------------------------------------------------------------- the arrays

  /** How the driver answers: pages created before the first refusal, and virtual pages whose remapping fails. */
  datatype Driver = Driver(creates: nat, refused: set<nat>)

  class BackingArrays {
    const vaPhys: array<nat>
    const physical: array<nat>
    const mapped: array<Slot>
    const blackHoles: array<nat>
    var nextPage: nat
    var failed: bool
    ghost var held: map<nat, nat>

    ghost predicate Valid()
      reads this, vaPhys, physical, mapped, blackHoles
    {
      && vaPhys != physical && vaPhys != blackHoles && physical != blackHoles
      && Shape(State())
    }

    ghost function State(): Backing
      reads this, vaPhys, physical, mapped, blackHoles
    {
      Backing(vaPhys[..], physical[..], mapped[..], blackHoles[..], held, nextPage)
    }

    constructor (vaPhys: array<nat>, physical: array<nat>, mapped: array<Slot>, blackHoles: array<nat>, nextPage: nat)
      requires vaPhys != physical && vaPhys != blackHoles && physical != blackHoles
      requires Shape(Backing(vaPhys[..], physical[..], mapped[..], blackHoles[..], map[], nextPage))
      ensures Valid() && !failed && State() == Backing(vaPhys[..], physical[..], mapped[..], blackHoles[..], map[], nextPage)
      ensures this.vaPhys == vaPhys && this.physical == physical && this.mapped == mapped && this.blackHoles == blackHoles
    {
      this.vaPhys, this.physical, this.mapped, this.blackHoles := vaPhys, physical, mapped, blackHoles;
      this.nextPage, failed, held := nextPage, false, map[];
    }

    /** Marks the addresses of the candidates as black holes. */
    method MarkHoles(cs: seq<Span>)
      requires Valid() && forall i :: 0 <= i < |cs| ==> cs[i].va + cs[i].pages <= vaPhys.Length
      requires forall i, j, va: nat :: 0 <= i < j < |cs| && InSpan(cs[i], va) ==> !InSpan(cs[j], va)
      modifies blackHoles, this`held
      ensures Valid() && State() == HandedOff(old(State()), cs)
    {
      ghost var b := State();
      for i := 0 to |cs|
        invariant blackHoles[..] == HandedOff(b, cs[..i]).holes
      {
        for k := 0 to cs[i].pages
          invariant forall va :: 0 <= va < blackHoles.Length ==>
            blackHoles[va] == if cs[i].va <= va < cs[i].va + k then cs[i].ptr else HandedOff(b, cs[..i]).holes[va]
        {
          blackHoles[cs[i].va + k] := cs[i].ptr;
        }
        HolesStep(b, cs, i);
      }
      assert cs[..|cs|] == cs;
      held := HandedOff(b, cs).held;
    }

    /** One replacement for every physical page under a candidate, created on first sight. */
    method CreateReplacements(cs: seq<Span>, driver: Driver) returns (reps: map<nat, nat>, ok: bool)
      requires Valid()
      ensures ok <==> |Replacements(State(), cs, vaPhys.Length)| <= driver.creates
      ensures ok ==> reps == Replacements(State(), cs, vaPhys.Length)
    {
      reps, ok := map[], true;
      ghost var b := State();
      for va := 0 to vaPhys.Length
        invariant ok && reps == Replacements(b, cs, va) && |reps| <= driver.creates
      {
        if Taken(cs, va) && vaPhys[va] !in reps {
          if |reps| == driver.creates {
            ReplacementsGrow(b, cs, va + 1, vaPhys.Length);
            return reps, false;
          }
          reps := reps[vaPhys[va] := nextPage + va];
        }
      }
    }

    /** Moves every alias of a replaced page to its replacement; a black hole only loses the graph's own mapping. */
    method RemapAliases(reps: map<nat, nat>, driver: Driver) returns (remapFailed: bool)
      requires Valid()
      modifies mapped
      ensures !remapFailed ==> forall va :: 0 <= va < mapped.Length ==> mapped[va] == Remapped(old(State()), reps, va)
      ensures remapFailed <==> exists va :: 0 <= va < vaPhys.Length && vaPhys[va] in reps && va in driver.refused
    {
      ghost var b := State();
      remapFailed := false;
      for va := 0 to vaPhys.Length
        invariant forall k :: va <= k < mapped.Length ==> mapped[k] == b.mapped[k]
        invariant !remapFailed ==> forall k :: 0 <= k < va ==> mapped[k] == Remapped(b, reps, k)
        invariant remapFailed <==> exists k :: 0 <= k < va && vaPhys[k] in reps && k in driver.refused
      {
        var phys := vaPhys[va];
        if phys in reps {
          if va in driver.refused {
            remapFailed := true;
          } else {
            mapped[va] := if blackHoles[va] == 0 then MappedTo(reps[phys]) else Unmapped;
          }
        }
      }
    }

    method SwapPages(reps: map<nat, nat>)
      modifies physical
      ensures forall p :: 0 <= p < physical.Length ==> physical[p] == if p in reps then reps[p] else old(physical[p])
    {
      for phys := 0 to physical.Length
        invariant forall p :: 0 <= p < phys ==> physical[p] == if p in reps then reps[p] else old(physical[p])
        invariant forall p :: phys <= p < physical.Length ==> physical[p] == old(physical[p])
      {
        if phys in reps {
          physical[phys] := reps[phys];
        }
      }
    }

    /** The replacement as a whole; a remapping that fails poisons the graph. */
    method InstallReplacements(reps: map<nat, nat>, driver: Driver)
      requires Valid()
      modifies this`nextPage, this`failed, mapped, physical
      ensures !failed ==> State() == Replaced(old(State()), reps)
      ensures failed <==> old(failed) || exists va :: 0 <= va < vaPhys.Length && vaPhys[va] in reps && va in driver.refused
    {
      ghost var b := State();
      var remapFailed := RemapAliases(reps, driver);
      SwapPages(reps);
      nextPage := nextPage + vaPhys.Length;
      failed := failed || remapFailed;
      if !failed {
        assert mapped[..] == Replaced(b, reps).mapped;
        assert physical[..] == Replaced(b, reps).pages;
      }
    }

    /**
      The finalization after a hand-off.  When it succeeds, the invariant between frames holds
      again: nothing the graph maps or can hand out is held by a rogue.
    */
    method Finalize(cs: seq<Span>, driver: Driver) returns (ok: bool)
      requires Valid() && BackingOk(State()) && CandidatesOk(State(), cs) && !failed
      requires forall i, j, va: nat :: 0 <= i < j < |cs| && InSpan(cs[i], va) ==> !InSpan(cs[j], va)
      modifies this`held, this`nextPage, this`failed, mapped, physical, blackHoles
      ensures ok <==> !failed
      ensures ok ==> Valid() && State() == Finalized(old(State()), cs) && BackingOk(State())
      ensures !ok ==> |Replacements(old(State()), cs, vaPhys.Length)| > driver.creates ||
                      exists va :: 0 <= va < vaPhys.Length && va in driver.refused
    {
      ghost var b := State();
      MarkHoles(cs);
      var reps, created := CreateReplacements(cs, driver);
      SameReplacements(b, HandedOff(b, cs), cs, vaPhys.Length);
      if !created {
        failed := true;
        return false;
      }
      InstallReplacements(reps, driver);
      FinalizeKeeps(b, cs);
      return !failed;
    }
  }

  lemma {:induction false} SameReplacements(b: Backing, c: Backing, cs: seq<Span>, n: nat)
    requires n <= |b.vaPhys| && c.vaPhys == b.vaPhys && c.nextPage == b.nextPage
    ensures Replacements(c, cs, n) == Replacements(b, cs, n)
  {
    if n > 0 { SameReplacements(b, c, cs, n - 1); }
  }

  /** The map of replacements only grows as more virtual pages are considered. */
  lemma {:induction false} ReplacementsGrow(b: Backing, cs: seq<Span>, n: nat, m: nat)
    requires n <= m <= |b.vaPhys|
    ensures |Replacements(b, cs, n)| <= |Replacements(b, cs, m)|
  {
    if n < m { ReplacementsGrow(b, cs, n, m - 1); }
  }

  lemma HolesStep(b: Backing, cs: seq<Span>, i: nat)
    requires Shape(b) && i < |cs|
    requires forall j, k, va: nat :: 0 <= j < k < |cs| && InSpan(cs[j], va) ==> !InSpan(cs[k], va)
    ensures forall va :: 0 <= va < |b.holes| ==>
              HandedOff(b, cs[..i + 1]).holes[va] == if InSpan(cs[i], va) then cs[i].ptr else HandedOff(b, cs[..i]).holes[va]
  {
    forall va: nat | va < |b.holes|
      ensures HandedOff(b, cs[..i + 1]).holes[va] == if InSpan(cs[i], va) then cs[i].ptr else HandedOff(b, cs[..i]).holes[va]
    {
      CoveringPrefix(cs, i, va);
    }
  }

  lemma CoveringPrefix(cs: seq<Span>, i: nat, va: nat)
    requires i < |cs|
    requires forall j, k, v: nat :: 0 <= j < k < |cs| && InSpan(cs[j], v) ==> !InSpan(cs[k], v)
    ensures Taken(cs[..i + 1], va) <==> Taken(cs[..i], va) || InSpan(cs[i], va)
    ensures Taken(cs[..i], va) ==> Covering(cs[..i + 1], va, 0) == Covering(cs[..i], va, 0)
    ensures InSpan(cs[i], va) ==> !Taken(cs[..i], va) && Covering(cs[..i + 1], va, 0) == i
  {
    var c, d := Covering(cs[..i], va, 0), Covering(cs[..i + 1], va, 0);
    assert forall j :: 0 <= j < i ==> cs[..i][j] == cs[..i + 1][j] == cs[j];
  }
}
