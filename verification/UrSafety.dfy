/**
  The ledger's books over every run: charges against the current context equal the accounted
  sizes, adoption is all or nothing, retired bytes balance, and synthetic refusals are paid for
  by published hints.
*/
module UrSafety {
  import opened UrModel

  // ---------------------------------------------------------------- sums over the ledger

  /** Accounted bytes of a device among the first `k` entries. */
  function Charged(entries: seq<Entry>, device: nat, k: nat): nat
    requires k <= |entries|
  {
    if k == 0 then 0
    else Charged(entries, device, k - 1) +
         (if entries[k - 1].accounted && entries[k - 1].device == device then entries[k - 1].size else 0)
  }

  function RetiredBytes(entries: seq<Entry>, k: nat): nat
    requires k <= |entries|
  {
    if k == 0 then 0 else RetiredBytes(entries, k - 1) + (if entries[k - 1].retired then entries[k - 1].size else 0)
  }

  function RetiredCount(entries: seq<Entry>, k: nat): nat
    requires k <= |entries|
  {
    if k == 0 then 0 else RetiredCount(entries, k - 1) + (if entries[k - 1].retired then 1 else 0)
  }

  /** The contributions of one entry. */
  function ChargeOf(e: Entry, device: nat): nat {
    if e.accounted && e.device == device then e.size else 0
  }

  lemma {:induction false} PrefixSums(a: seq<Entry>, b: seq<Entry>, device: nat, k: nat)
    requires k <= |a| && k <= |b| && a[..k] == b[..k]
    ensures Charged(a, device, k) == Charged(b, device, k) && RetiredBytes(a, k) == RetiredBytes(b, k)
    ensures RetiredCount(a, k) == RetiredCount(b, k)
  {
    if k > 0 {
      assert a[k - 1] == a[..k][k - 1] == b[k - 1];
      assert a[..k - 1] == a[..k][..k - 1] == b[..k - 1];
      PrefixSums(a, b, device, k - 1);
    }
  }

  /** Adding an entry at the end adds its contributions. */
  lemma AppendSums(es: seq<Entry>, e: Entry, device: nat)
    ensures Charged(es + [e], device, |es| + 1) == Charged(es, device, |es|) + ChargeOf(e, device)
    ensures RetiredBytes(es + [e], |es| + 1) == RetiredBytes(es, |es|) + (if e.retired then e.size else 0)
    ensures RetiredCount(es + [e], |es| + 1) == RetiredCount(es, |es|) + (if e.retired then 1 else 0)
  {
    assert (es + [e])[..|es|] == es == es[..|es|];
    PrefixSums(es + [e], es, device, |es|);
  }

  /** Removing an entry takes its contributions away. */
  lemma {:induction false} RemoveSums(es: seq<Entry>, i: nat, device: nat, k: nat)
    requires i < k <= |es|
    ensures var r := es[..i] + es[i + 1..];
      && Charged(r, device, k - 1) == Charged(es, device, k) - ChargeOf(es[i], device)
      && RetiredBytes(r, k - 1) == RetiredBytes(es, k) - (if es[i].retired then es[i].size else 0)
      && RetiredCount(r, k - 1) == RetiredCount(es, k) - (if es[i].retired then 1 else 0)
  {
    var r := es[..i] + es[i + 1..];
    if i == k - 1 {
      assert r[..i] == es[..i];
      PrefixSums(r, es, device, i);
    } else {
      RemoveSums(es, i, device, k - 1);
      assert r[k - 2] == es[k - 1];
    }
  }

  /** Changing one entry changes the sums by the difference. */
  lemma {:induction false} UpdateSums(es: seq<Entry>, i: nat, e: Entry, device: nat, k: nat)
    requires i < |es| && k <= |es|
    ensures Charged(es[i := e], device, k) ==
            Charged(es, device, k) + (if i < k then ChargeOf(e, device) - ChargeOf(es[i], device) else 0)
    ensures e.retired == es[i].retired && e.size == es[i].size ==>
              RetiredBytes(es[i := e], k) == RetiredBytes(es, k) && RetiredCount(es[i := e], k) == RetiredCount(es, k)
  {
    if k > 0 { UpdateSums(es, i, e, device, k - 1); }
  }

  // ---------------------------------------------------------------- the invariant

  predicate Distinct(entries: seq<Entry>) {
    forall i, j :: 0 <= i < j < |entries| ==> entries[i].ptr != entries[j].ptr
  }

  function NonzeroHints(hints: map<nat, nat>): set<nat> {
    set d | d in hints && hints[d] > 0
  }

  /** `others` is what the rest of the program has charged to the context. */
  ghost predicate Balanced(entries: seq<Entry>, totals: map<nat, nat>, others: map<nat, nat>) {
    && totals.Keys == others.Keys
    && (forall d :: d in totals ==> totals[d] == others[d] + Charged(entries, d, |entries|))
    && (forall i :: 0 <= i < |entries| && entries[i].accounted ==> entries[i].device in totals)
  }

  /** Every entry is retired and charged to nobody. */
  predicate Dormant(entries: seq<Entry>) {
    forall i :: 0 <= i < |entries| ==> entries[i].retired && !entries[i].accounted
  }

  ghost predicate Inv(h: Hook, others: map<nat, nat>) {
    && Distinct(h.entries) && Balanced(h.entries, h.totals, others)
    && (!h.enabled ==> Dormant(h.entries))
    && h.retiredBytes == h.freedBytes + RetiredBytes(h.entries, |h.entries|)
    && h.retiredLive == RetiredCount(h.entries, |h.entries|)
    && h.ooms + |NonzeroHints(h.hints)| <= h.hinted
  }

  lemma {:induction false} SumsAreMonotone(entries: seq<Entry>, device: nat, i: nat, k: nat)
    requires i < k <= |entries| && entries[i].accounted && entries[i].device == device
    ensures Charged(entries, device, k) >= entries[i].size
  {
    if i < k - 1 { SumsAreMonotone(entries, device, i, k - 1); }
  }

  // ---------------------------------------------------------------- recording and freeing

  lemma AccountKeeps(h: Hook, others: map<nat, nat>, ptr: nat, size: nat, device: nat, owned: bool, hostOk: bool)
    requires Inv(h, others) && h.enabled
    ensures var (r, recorded) := AccountSuccess(h, ptr, size, device, owned, hostOk);
      Inv(r, others) && (recorded != Success ==> r == h)
  {
    var (r, recorded) := AccountSuccess(h, ptr, size, device, owned, hostOk);
    if recorded == Success {
      var e := Entry(ptr, size, device, true, false, owned);
      forall d | d in r.totals ensures r.totals[d] == others[d] + Charged(r.entries, d, |r.entries|) {
        AppendSums(h.entries, e, d);
      }
      AppendSums(h.entries, e, device);
    }
  }

  lemma AllocateKeeps(h: Hook, others: map<nat, nat>, size: nat, w: World)
    requires Inv(h, others) && h.enabled
    ensures Inv(AllocateAndAccount(h, size, w).0, others)
    ensures AllocateAndAccount(h, size, w).0.hints == h.hints && AllocateAndAccount(h, size, w).0.ooms == h.ooms
  {
    if w.native.Allocated? { AccountKeeps(h, others, w.native.ptr, size, w.device, w.owned, w.metadataOk); }
  }

  lemma RetryIsFree(h: Hook, others: map<nat, nat>, retry: Retry)
    requires Inv(h, others)
    ensures Inv(h.(retry := retry), others)
  {}

  /** A synthetic refusal uses up the nonzero hint it is based on. */
  lemma ConsumeKeeps(h: Hook, others: map<nat, nat>, device: nat)
    requires Inv(h, others) && HasHint(h.hints, device)
    ensures Inv(h.(hints := h.hints[device := 0], ooms := h.ooms + 1), others)
  {
    assert NonzeroHints(h.hints[device := 0]) == NonzeroHints(h.hints) - {device};
  }

  lemma AllocKeeps(h: Hook, others: map<nat, nat>, q: Request, w: World)
    requires Inv(h, others)
    ensures Inv(Alloc(h, q, w).0, others)
  {
    hide Inv;
    RetryIsFree(h, others, NO_RETRY);
    var calm := h.(retry := NO_RETRY);
    if h.enabled && !(w.owned && h.shutdown) && w.resolved && w.knownDeficit && w.hostOk {
      AllocateKeeps(calm, others, q.size, w);
      var done := AllocateAndAccount(calm, q.size, w).0;
      RetryIsFree(done, others, Retry(RuntimeOom, q, done.generation, w.device, 0));
      if HasHint(h.hints, w.device) {
        ConsumeKeeps(calm, others, w.device);
        RetryIsFree(calm.(hints := h.hints[w.device := 0], ooms := h.ooms + 1), others,
                    Retry(BudgetDeficit, q, h.generation, w.device, 0));
      }
    }
  }

  lemma HintKeeps(h: Hook, others: map<nat, nat>, device: nat, bytes: nat)
    requires Inv(h, others)
    ensures Inv(SetHint(h, device, bytes), others)
  {
    var hints := h.hints[device := bytes];
    assert NonzeroHints(hints) == if bytes > 0 then NonzeroHints(h.hints) + {device} else NonzeroHints(h.hints) - {device};
  }

  /** What a tracked free changes, field by field. */
  lemma FreeFields(h: Hook, context: nat, ptr: nat)
    requires (h.enabled || h.retiredLive != 0) && Find(h.entries, ptr, 0) < |h.entries|
    ensures var (r, i) := (Free(h, context, ptr, true), Find(h.entries, ptr, 0));
      var e := h.entries[i];
      && r.entries == h.entries[..i] + h.entries[i + 1..]
      && r.totals == (if e.accounted then Account(h.totals, e.device, -(e.size as int)).0 else h.totals)
      && r.enabled == h.enabled && r.retiredBytes == h.retiredBytes && r.hints == h.hints
      && r.freedBytes == h.freedBytes + (if e.retired then e.size else 0)
      && r.retiredLive == h.retiredLive - (if e.retired then 1 else 0)
      && r.ooms == h.ooms && r.hinted == h.hinted
  {}

  /** A free that fails natively, or of a pointer not in the ledger, changes at most the retry. */
  lemma UntrackedFree(h: Hook, context: nat, ptr: nat, nativeOk: bool)
    requires (!h.enabled && h.retiredLive == 0) || !nativeOk || Find(h.entries, ptr, 0) == |h.entries|
    ensures Free(h, context, ptr, nativeOk) == h || Free(h, context, ptr, nativeOk) == h.(retry := NO_RETRY)
  {}

  lemma TrackedFreeKeeps(h: Hook, others: map<nat, nat>, context: nat, ptr: nat)
    requires Inv(h, others) && (h.enabled || h.retiredLive != 0) && Find(h.entries, ptr, 0) < |h.entries|
    ensures Inv(Free(h, context, ptr, true), others)
  {
    hide Free, Balanced, Distinct, NonzeroHints, Charged, RetiredBytes, RetiredCount, Dormant, Account, Find;
    var i := Find(h.entries, ptr, 0);
    FreeFields(h, context, ptr);
    FreeBalanced(h, others, i);
    RemoveSums(h.entries, i, h.entries[i].device, |h.entries|);
    if !h.enabled { StillDormant(h.entries, i); }
  }

  /** A free discharges exactly what the entry was charged, and never hits the floor of zero. */
  lemma FreeKeeps(h: Hook, others: map<nat, nat>, context: nat, ptr: nat, nativeOk: bool)
    requires Inv(h, others)
    ensures Inv(Free(h, context, ptr, nativeOk), others)
  {
    hide Inv, Free;
    if (h.enabled || h.retiredLive != 0) && nativeOk && Find(h.entries, ptr, 0) < |h.entries| {
      TrackedFreeKeeps(h, others, context, ptr);
    } else {
      UntrackedFree(h, context, ptr, nativeOk);
      RetryIsFree(h, others, NO_RETRY);
    }
  }

  lemma StillDormant(es: seq<Entry>, i: nat)
    requires i < |es| && Dormant(es)
    ensures Dormant(es[..i] + es[i + 1..])
  {}

  lemma FreeBalanced(h: Hook, others: map<nat, nat>, i: nat)
    requires Inv(h, others) && i < |h.entries|
    ensures var e := h.entries[i];
      var totals := if e.accounted then Account(h.totals, e.device, -(e.size as int)).0 else h.totals;
      Balanced(h.entries[..i] + h.entries[i + 1..], totals, others) && Distinct(h.entries[..i] + h.entries[i + 1..])
  {
    var e := h.entries[i];
    forall d | d in h.totals ensures Charged(h.entries[..i] + h.entries[i + 1..], d, |h.entries| - 1) ==
                                     Charged(h.entries, d, |h.entries|) - ChargeOf(e, d)
    {
      RemoveSums(h.entries, i, d, |h.entries|);
    }
    if e.accounted { SumsAreMonotone(h.entries, e.device, i, |h.entries|); }
  }

  // ---------------------------------------------------------------- adoption

  /** The entries of `es'` are those of `es` except for who is accounted. */
  predicate SameButAccounted(es: seq<Entry>, es': seq<Entry>) {
    |es| == |es'| && forall i :: 0 <= i < |es| ==> es'[i] == es[i].(accounted := es'[i].accounted)
  }

  /** After adopting the first `k`: those are accounted, unless a charge was refused on the way. */
  lemma {:induction false} AdoptMeans(es: seq<Entry>, totals: map<nat, nat>, k: nat)
    requires k <= |es| && forall i :: 0 <= i < |es| ==> es[i].retired && !es[i].accounted
    ensures var a := Adopt(es, totals, k);
      && SameButAccounted(es, a.entries)
      && (forall i :: k <= i < |es| ==> !a.entries[i].accounted)
      && (a.ok ==> forall i :: 0 <= i < k ==> a.entries[i].accounted)
      && (a.ok <==> forall i :: 0 <= i < k ==> es[i].device in totals)
      && a.totals.Keys == totals.Keys
      && (forall i :: 0 <= i < |es| && a.entries[i].accounted ==> es[i].device in totals)
  {
    if k > 0 { AdoptMeans(es, totals, k - 1); }
  }

  lemma {:induction false} AdoptBalanced(es: seq<Entry>, totals: map<nat, nat>, others: map<nat, nat>, k: nat)
    requires k <= |es| && (forall i :: 0 <= i < |es| ==> es[i].retired && !es[i].accounted) && Balanced(es, totals, others)
    ensures Balanced(Adopt(es, totals, k).entries, Adopt(es, totals, k).totals, others)
  {
    if k > 0 {
      AdoptBalanced(es, totals, others, k - 1);
      AdoptMeans(es, totals, k - 1);
      AdoptOne(es, totals, others, k);
    }
  }

  lemma AdoptOne(es: seq<Entry>, totals: map<nat, nat>, others: map<nat, nat>, k: nat)
    requires 0 < k <= |es|
    requires Balanced(Adopt(es, totals, k - 1).entries, Adopt(es, totals, k - 1).totals, others)
    ensures Balanced(Adopt(es, totals, k).entries, Adopt(es, totals, k).totals, others)
  {
    var a, b := Adopt(es, totals, k - 1), Adopt(es, totals, k);
    if b != a && b.ok {
      forall d | d in b.totals ensures b.totals[d] == others[d] + Charged(b.entries, d, |b.entries|) {
        UpdateSums(a.entries, k - 1, b.entries[k - 1], d, |es|);
      }
    } else {
      assert a.entries[k - 1 := a.entries[k - 1].(accounted := a.entries[k - 1].accounted)] == a.entries;
      assert b.entries == a.entries && b.totals == a.totals;
    }
  }

  /** Rolling back undoes every charge of a retired entry whose device is known. */
  lemma {:induction false} RollBackMeans(es: seq<Entry>, totals: map<nat, nat>, k: nat)
    requires k <= |es| && forall i :: 0 <= i < |es| ==> es[i].retired && (es[i].accounted ==> es[i].device in totals)
    ensures var (r, ts) := RollBack(es, totals, k);
      && SameButAccounted(es, r) && ts.Keys == totals.Keys
      && (forall i :: 0 <= i < k ==> !r[i].accounted) && (forall i :: k <= i < |es| ==> r[i] == es[i])
  {
    if k > 0 { RollBackMeans(es, totals, k - 1); }
  }

  lemma {:induction false} RollBackBalanced(es: seq<Entry>, totals: map<nat, nat>, others: map<nat, nat>, k: nat)
    requires k <= |es| && Balanced(es, totals, others)
    requires forall i :: 0 <= i < |es| ==> es[i].retired && (es[i].accounted ==> es[i].device in totals)
    ensures Balanced(RollBack(es, totals, k).0, RollBack(es, totals, k).1, others)
  {
    if k > 0 {
      RollBackBalanced(es, totals, others, k - 1);
      RollBackMeans(es, totals, k - 1);
      RollBackOne(es, totals, others, k);
    }
  }

  lemma RollBackOne(es: seq<Entry>, totals: map<nat, nat>, others: map<nat, nat>, k: nat)
    requires 0 < k <= |es|
    requires Balanced(RollBack(es, totals, k - 1).0, RollBack(es, totals, k - 1).1, others)
    ensures Balanced(RollBack(es, totals, k).0, RollBack(es, totals, k).1, others)
  {
    var (a, ta) := RollBack(es, totals, k - 1);
    var (b, tb) := RollBack(es, totals, k);
    if a[k - 1].retired && a[k - 1].accounted {
      SumsAreMonotone(a, a[k - 1].device, k - 1, |a|);
      forall d | d in tb ensures tb[d] == others[d] + Charged(b, d, |b|) {
        UpdateSums(a, k - 1, b[k - 1], d, |es|);
      }
    }
  }

  lemma {:induction false} NothingCharged(es: seq<Entry>, device: nat, k: nat)
    requires k <= |es| && forall i :: 0 <= i < |es| ==> !es[i].accounted
    ensures Charged(es, device, k) == 0
  {
    if k > 0 { NothingCharged(es, device, k - 1); }
  }

  /** Without accounted entries the context's totals are the others'. */
  lemma NothingAccounted(es: seq<Entry>, totals: map<nat, nat>, others: map<nat, nat>)
    requires Balanced(es, totals, others) && forall i :: 0 <= i < |es| ==> !es[i].accounted
    ensures totals == others
  {
    forall d | d in totals ensures totals[d] == others[d] { NothingCharged(es, d, |es|); }
  }

  lemma {:induction false} SameRetired(a: seq<Entry>, b: seq<Entry>, k: nat)
    requires SameButAccounted(a, b) && k <= |a|
    ensures RetiredBytes(a, k) == RetiredBytes(b, k) && RetiredCount(a, k) == RetiredCount(b, k)
  {
    if k > 0 { SameRetired(a, b, k - 1); }
  }

  /**
    Enabling adopts every surviving entry exactly once when the new context knows all their
    devices, and otherwise changes nothing at all.
  */
  lemma EnableAdoptsAllOrNone(h: Hook, others: map<nat, nat>)
    requires Inv(h, others) && !h.enabled
    ensures var (r, ok) := Enable(h);
      && (ok <==> forall i :: 0 <= i < |h.entries| ==> h.entries[i].device in h.totals)
      && (ok ==> r.enabled && SameButAccounted(h.entries, r.entries) &&
                 forall i :: 0 <= i < |h.entries| ==> r.entries[i].accounted)
      && (!ok ==> r == h)
  {
    var a := Adopt(h.entries, h.totals, |h.entries|);
    AdoptMeans(h.entries, h.totals, |h.entries|);
    if !a.ok {
      AdoptBalanced(h.entries, h.totals, others, |h.entries|);
      RollBackMeans(a.entries, a.totals, |a.entries|);
      RollBackBalanced(a.entries, a.totals, others, |a.entries|);
      var (es, ts) := RollBack(a.entries, a.totals, |a.entries|);
      assert es == h.entries;
      NothingAccounted(es, ts, others);
      NothingAccounted(h.entries, h.totals, others);
    }
  }

  lemma EnableKeeps(h: Hook, others: map<nat, nat>)
    requires Inv(h, others)
    ensures Inv(Enable(h).0, others)
  {
    if !h.enabled {
      EnableAdoptsAllOrNone(h, others);
      var a := Adopt(h.entries, h.totals, |h.entries|);
      if a.ok {
        AdoptMeans(h.entries, h.totals, |h.entries|);
        AdoptBalanced(h.entries, h.totals, others, |h.entries|);
        SameRetired(h.entries, a.entries, |h.entries|);
        assert NonzeroHints(map[]) == {};
      }
    }
  }

  lemma DisableKeeps(h: Hook, others: map<nat, nat>)
    requires Inv(h, others)
    ensures Inv(Disable(h).0, others)
  {
    assert NonzeroHints(map[]) == {};
  }

  // ---------------------------------------------------------------- retirement

  lemma {:induction false} RetiredSums(es: seq<Entry>, k: nat)
    requires k <= |es|
    ensures RetiredBytes(Retired(es), k) == RetiredBytes(es, k) + FreshBytes(es, k)
    ensures RetiredCount(Retired(es), k) == RetiredCount(es, k) + FreshCount(es, k)
  {
    if k > 0 { RetiredSums(es, k - 1); }
  }

  /** Retiring leaves nothing accounted, so any new context starts balanced. */
  lemma RetireKeeps(h: Hook, others: map<nat, nat>, others': map<nat, nat>)
    requires Inv(h, others) && RetireBorrowed(h).1
    ensures Inv(RetireBorrowed(h).0.(totals := others'), others')
    ensures RetireBorrowed(h).0.entries != [] ==> RetireBorrowed(h).0.retiredLive > 0
  {
    var r := RetireBorrowed(h).0;
    RetiredSums(h.entries, |h.entries|);
    forall d | d in others' ensures Charged(r.entries, d, |r.entries|) == 0 { NothingCharged(r.entries, d, |r.entries|); }
    assert NonzeroHints(map[]) == {};
    AllRetired(r.entries, |r.entries|);
  }

  lemma {:induction false} AllRetired(es: seq<Entry>, k: nat)
    requires k <= |es| && forall i :: 0 <= i < |es| ==> es[i].retired
    ensures RetiredCount(es, k) == k
  {
    if k > 0 { AllRetired(es, k - 1); }
  }

  /** While disabled, a free skips the ledger only when the ledger is empty. */
  lemma FastPathIsSafe(h: Hook, others: map<nat, nat>)
    requires Inv(h, others) && !h.enabled
    ensures h.retiredLive == 0 <==> h.entries == []
  {
    AllRetired(h.entries, |h.entries|);
  }

  // ---------------------------------------------------------------- runs

  datatype Step =
    | AllocStep(q: Request, w: World)
    | FreeStep(context: nat, ptr: nat, nativeOk: bool)
    | HintStep(device: nat, bytes: nat)
    | EnableStep
    | DisableStep
    | RetireStep(charges: map<nat, nat>)
    | OthersStep(charges: map<nat, nat>)

  /** The state with what the rest of the program has charged; retiring closes the context and opens a new one. */
  datatype State = State(h: Hook, others: map<nat, nat>)

  /** Every known device's total moves by what the rest of the program charged or discharged. */
  function Shift(totals: map<nat, nat>, others: map<nat, nat>, charges: map<nat, nat>): map<nat, nat>
    requires totals.Keys == others.Keys == charges.Keys
  {
    map d | d in totals :: if totals[d] >= others[d] then totals[d] - others[d] + charges[d] else charges[d]
  }

  function Next(s: State, step: Step): State {
    match step
    case AllocStep(q, w) => s.(h := Alloc(s.h, q, w).0)
    case FreeStep(context, ptr, nativeOk) => s.(h := Free(s.h, context, ptr, nativeOk))
    case HintStep(device, bytes) => s.(h := SetHint(s.h, device, bytes))
    case EnableStep => s.(h := Enable(s.h).0)
    case DisableStep => s.(h := Disable(s.h).0)
    case RetireStep(charges) =>
      var (h, ok) := RetireBorrowed(s.h);
      if ok then State(h.(totals := charges), charges) else s.(h := h)
    case OthersStep(charges) =>
      if s.h.totals.Keys == s.others.Keys == charges.Keys then
        State(s.h.(totals := Shift(s.h.totals, s.others, charges)), charges)
      else s
  }

  function Run(s: State, steps: seq<Step>): State
    decreases |steps|
  {
    if steps == [] then s else Run(Next(s, steps[0]), steps[1..])
  }

  function Initial(devices: map<nat, nat>): State {
    State(Hook(false, 0, false, [], devices, map[], NO_RETRY, 0, 0, 0, 0, 0), devices)
  }

  lemma StepKeeps(s: State, step: Step)
    requires Inv(s.h, s.others)
    ensures Inv(Next(s, step).h, Next(s, step).others)
  {
    match step
    case AllocStep(q, w) => AllocKeeps(s.h, s.others, q, w);
    case FreeStep(context, ptr, nativeOk) => FreeKeeps(s.h, s.others, context, ptr, nativeOk);
    case HintStep(device, bytes) => HintKeeps(s.h, s.others, device, bytes);
    case EnableStep => EnableKeeps(s.h, s.others);
    case DisableStep => DisableKeeps(s.h, s.others);
    case RetireStep(charges) => if RetireBorrowed(s.h).1 { RetireKeeps(s.h, s.others, charges); }
    case OthersStep(charges) =>
  }

  lemma {:induction false} RunKeeps(s: State, steps: seq<Step>)
    requires Inv(s.h, s.others)
    ensures Inv(Run(s, steps).h, Run(s, steps).others)
    decreases |steps|
  {
    if steps != [] {
      StepKeeps(s, steps[0]);
      RunKeeps(Next(s, steps[0]), steps[1..]);
    }
  }

  /**
    After any run: each device's total is what others charged plus the accounted sizes, retired
    bytes are freed or still live, and synthetic refusals are at most the nonzero publications.
  */
  lemma BooksBalance(devices: map<nat, nat>, steps: seq<Step>)
    ensures var s := Run(Initial(devices), steps);
      && s.h.totals.Keys == s.others.Keys
      && (forall d :: d in s.h.totals ==> s.h.totals[d] == s.others[d] + Charged(s.h.entries, d, |s.h.entries|))
      && s.h.retiredBytes - s.h.freedBytes == RetiredBytes(s.h.entries, |s.h.entries|)
      && s.h.ooms <= s.h.hinted
  {
    assert NonzeroHints(map[]) == {};
    RunKeeps(Initial(devices), steps);
  }

  // ---------------------------------------------------------------- the ledger is what clients hold

  /** What a client knows of a pointer: how much it asked for, and on which device. */
  datatype Use = Use(size: nat, device: nat)

  /** The pointers that were answered and whose native free has not succeeded, by requests and answers alone. */
  function Noted(held: map<nat, Use>, s: State, step: Step): map<nat, Use> {
    match step
    case AllocStep(q, w) =>
      var outcome := Alloc(s.h, q, w).1;
      if outcome.Pointer? then held[outcome.ptr := Use(q.size, w.device)] else held
    case FreeStep(_, ptr, nativeOk) => if nativeOk then held - {ptr} else held
    case _ => held
  }

  predicate Lists(entries: seq<Entry>, ptr: nat, use: Use) {
    exists i :: 0 <= i < |entries| && entries[i].ptr == ptr && entries[i].size == use.size && entries[i].device == use.device
  }

  /** The ledger lists exactly the pointers that are held, with their sizes and devices. */
  ghost predicate IsLedgerOf(entries: seq<Entry>, held: map<nat, Use>) {
    && (forall i :: 0 <= i < |entries| ==> entries[i].ptr in held)
    && (forall p :: p in held ==> Lists(entries, p, held[p]))
  }

  lemma HeldMore(entries: seq<Entry>, held: map<nat, Use>, e: Entry)
    requires IsLedgerOf(entries, held) && e.ptr !in Pointers(entries)
    ensures IsLedgerOf(entries + [e], held[e.ptr := Use(e.size, e.device)])
  {
    var more, now := entries + [e], held[e.ptr := Use(e.size, e.device)];
    forall p | p in now ensures Lists(more, p, now[p]) {
      if p == e.ptr {
        assert more[|entries|] == e;
      } else {
        var i :| 0 <= i < |entries| && entries[i].ptr == p && entries[i].size == held[p].size && entries[i].device == held[p].device;
        assert more[i] == entries[i];
      }
    }
  }

  lemma HeldLess(entries: seq<Entry>, held: map<nat, Use>, k: nat)
    requires IsLedgerOf(entries, held) && Distinct(entries) && k < |entries|
    ensures IsLedgerOf(entries[..k] + entries[k + 1..], held - {entries[k].ptr})
  {
    var less, now := entries[..k] + entries[k + 1..], held - {entries[k].ptr};
    forall i | 0 <= i < |less| ensures less[i].ptr in now {
      assert less[i] == entries[if i < k then i else i + 1];
    }
    forall p | p in now ensures Lists(less, p, now[p]) {
      var i :| 0 <= i < |entries| && entries[i].ptr == p && entries[i].size == held[p].size && entries[i].device == held[p].device;
      assert less[if i < k then i else i - 1] == entries[i];
    }
  }

  /** Marking and charging entries changes no pointer, size or device. */
  lemma HeldSame(entries: seq<Entry>, entries': seq<Entry>, held: map<nat, Use>)
    requires IsLedgerOf(entries, held) && |entries'| == |entries|
    requires forall i :: 0 <= i < |entries| ==>
               entries'[i].ptr == entries[i].ptr && entries'[i].size == entries[i].size && entries'[i].device == entries[i].device
    ensures IsLedgerOf(entries', held)
  {
    forall p | p in held ensures Lists(entries', p, held[p]) {
      var i :| 0 <= i < |entries| && entries[i].ptr == p && entries[i].size == held[p].size && entries[i].device == held[p].device;
      assert entries'[i].ptr == p;
    }
  }

  lemma UnlistedIsNotHeld(entries: seq<Entry>, held: map<nat, Use>, ptr: nat)
    requires IsLedgerOf(entries, held) && Find(entries, ptr, 0) == |entries|
    ensures ptr !in held
  {
    forall p | p in held ensures p != ptr {
      var i :| 0 <= i < |entries| && entries[i].ptr == p;
    }
  }

  lemma FreeLists(s: State, held: map<nat, Use>, context: nat, ptr: nat)
    requires Inv(s.h, s.others) && IsLedgerOf(s.h.entries, held)
    ensures IsLedgerOf(Free(s.h, context, ptr, true).entries, held - {ptr})
  {
    var i := Find(s.h.entries, ptr, 0);
    if i < |s.h.entries| {
      if !s.h.enabled && s.h.retiredLive == 0 { FastPathIsSafe(s.h, s.others); }
      FreeFields(s.h, context, ptr);
      HeldLess(s.h.entries, held, i);
    } else {
      UntrackedFree(s.h, context, ptr, true);
      UnlistedIsNotHeld(s.h.entries, held, ptr);
      assert held - {ptr} == held;
    }
  }

  lemma EnableLists(s: State, held: map<nat, Use>)
    requires Inv(s.h, s.others) && IsLedgerOf(s.h.entries, held)
    ensures IsLedgerOf(Enable(s.h).0.entries, held)
  {
    if !s.h.enabled {
      EnableAdoptsAllOrNone(s.h, s.others);
      AdoptMeans(s.h.entries, s.h.totals, |s.h.entries|);
      HeldSame(s.h.entries, Enable(s.h).0.entries, held);
    }
  }

  lemma StepLists(s: State, step: Step, held: map<nat, Use>)
    requires Inv(s.h, s.others) && IsLedgerOf(s.h.entries, held)
    ensures IsLedgerOf(Next(s, step).h.entries, Noted(held, s, step))
  {
    hide Inv, IsLedgerOf, Alloc, Free, Enable;
    match step
    case AllocStep(q, w) =>
      AnswerIsListed(s.h, q, w);
      var outcome := Alloc(s.h, q, w).1;
      if outcome.Pointer? { HeldMore(s.h.entries, held, Entry(outcome.ptr, q.size, w.device, true, false, w.owned)); }
    case FreeStep(context, ptr, nativeOk) =>
      if nativeOk { FreeLists(s, held, context, ptr); } else { UntrackedFree(s.h, context, ptr, false); }
    case EnableStep => EnableLists(s, held);
    case RetireStep(_) => if RetireBorrowed(s.h).1 { HeldSame(s.h.entries, RetireBorrowed(s.h).0.entries, held); }
    case _ =>
  }

  function HeldAfter(s: State, held: map<nat, Use>, steps: seq<Step>): map<nat, Use>
    decreases |steps|
  {
    if steps == [] then held else HeldAfter(Next(s, steps[0]), Noted(held, s, steps[0]), steps[1..])
  }

  lemma {:induction false} RunLists(s: State, held: map<nat, Use>, steps: seq<Step>)
    requires Inv(s.h, s.others) && IsLedgerOf(s.h.entries, held)
    ensures IsLedgerOf(Run(s, steps).h.entries, HeldAfter(s, held, steps))
    decreases |steps|
  {
    if steps != [] {
      StepKeeps(s, steps[0]);
      StepLists(s, steps[0], held);
      hide Inv, IsLedgerOf, Next, Noted;
      RunLists(Next(s, steps[0]), Noted(held, s, steps[0]), steps[1..]);
    }
  }

  /**
    After any run the ledger lists exactly the pointers that were answered and whose native free has
    not succeeded since, each with the size and the device it was asked for.
  */
  lemma LedgerIsWhatIsHeld(devices: map<nat, nat>, steps: seq<Step>)
    ensures IsLedgerOf(Run(Initial(devices), steps).h.entries, HeldAfter(Initial(devices), map[], steps))
  {
    assert NonzeroHints(map[]) == {};
    RunLists(Initial(devices), map[], steps);
  }

  // ---------------------------------------------------------------- a refusal is followed by a real attempt

  /** After a refusal the same request, asked again at once, goes to the native allocator with no new refusal. */
  lemma RetryIsNotRefused(h: Hook, q: Request, w: World, w': World)
    requires Alloc(h, q, w).0.ooms > h.ooms && w'.owned == w.owned && w'.resolved && w'.knownDeficit && w'.hostOk && w'.torch
    ensures var r := Alloc(h, q, w).0;
      && Alloc(r, q, w') == AllocateAndAccount(r.(retry := NO_RETRY), q.size, w')
      && Alloc(r, q, w').0.ooms == r.ooms
  {}

  // ---------------------------------------------------------------- what a retry asks to be evicted

  /** Frees by the caller between a shortage and its retry, each of which the driver accepts. */
  function FreeAll(h: Hook, context: nat, ptrs: seq<nat>): Hook
    decreases |ptrs|
  {
    if ptrs == [] then h else FreeAll(Free(h, context, ptrs[0], true), context, ptrs[1..])
  }

  /** What the frees give back on the device: the sizes of the tracked entries that were not retired. */
  function GivenBack(h: Hook, context: nat, device: nat, ptrs: seq<nat>): nat
    decreases |ptrs|
  {
    if ptrs == [] then 0
    else
      var i := Find(h.entries, ptrs[0], 0);
      (if i < |h.entries| && !h.entries[i].retired && h.entries[i].device == device then h.entries[i].size else 0)
      + GivenBack(Free(h, context, ptrs[0], true), context, device, ptrs[1..])
  }

  lemma {:induction false} FreesAreCredited(h: Hook, context: nat, ptrs: seq<nat>)
    requires h.enabled && h.retry.reason != Idle && h.retry.request.context == context && h.retry.generation == h.generation
    ensures var r := FreeAll(h, context, ptrs);
      && r.enabled && r.shutdown == h.shutdown && r.generation == h.generation && r.hints == h.hints
      && r.retry == h.retry.(returned := h.retry.returned + GivenBack(h, context, h.retry.device, ptrs))
    decreases |ptrs|
  {
    if ptrs != [] { FreesAreCredited(Free(h, context, ptrs[0], true), context, ptrs[1..]); }
  }

  /**
    A request that met a native shortage, frees by the caller, and the same request again: what is
    evicted for it covers the deficit, and covers the request's size less what the frees gave back,
    and no more than the larger of the two.
  */
  lemma RetryEvictsTheRest(h: Hook, q: Request, w: World, ptrs: seq<nat>, w': World)
    requires var r := Alloc(h, q, w).0; r.enabled && r.retry.reason == RuntimeOom && r.retry.request == q && r.retry.generation == r.generation
    requires w'.resolved && w'.knownDeficit && w'.hostOk && w'.torch && !(w'.owned && h.shutdown)
    ensures var r := Alloc(h, q, w).0; var given := GivenBack(r, q.context, r.retry.device, ptrs);
      var evicted := Eviction(FreeAll(r, q.context, ptrs), q, w');
      && evicted >= w'.deficit && evicted + r.retry.returned + given >= q.size
      && (evicted == 0 || evicted == w'.deficit || evicted + r.retry.returned + given == q.size)
  {
    FreesAreCredited(Alloc(h, q, w).0, q.context, ptrs);
  }
}
