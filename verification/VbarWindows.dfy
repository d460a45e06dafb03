/**
  Books of a VBAR on Windows, where every driver call may fail: a page may keep a handle it
  could neither release nor map again, and its mapping may be unknown.
*/
module VbarWindows {

  const PAGE: nat := 0x200_0000

  datatype Mapping = Unmapped | Mapped | Indeterminate

  datatype Page = Page(handle: nat, mapping: Mapping, unknown: bool, pins: nat, serial: nat)

  /** The VBAR with what it has charged, and the handles the driver holds live for it. */
  datatype Vbar = Vbar(pages: seq<Page>, resident: int, charged: int, live: set<nat>, next: nat)

  predicate IsMapped(p: Page) {
    p.handle != 0 && p.mapping == Mapped
  }

  // ---------------------------------------------------------------- the driver's answers

  /** Mapping, setting access, and unmapping again when access fails. */
  datatype MapReply = MapReply(maps: bool, access: bool, unmap: bool)

  datatype CreateReply = CreateReply(create: bool, mapping: MapReply, release: bool)

  datatype FreeReply = FreeReply(unmap: bool, release: bool, restore: MapReply)

  // ---------------------------------------------------------------- the operations

  /** What mapping a page that has a handle leaves behind. */
  function AfterMap(p: Page, r: MapReply): Page {
    if !r.maps then p.(mapping := Unmapped)
    else if r.access then p.(mapping := Mapped)
    else if r.unmap then p.(mapping := Unmapped)
    else p.(mapping := Indeterminate, unknown := true)
  }

  function SetPage(v: Vbar, i: nat, p: Page): Vbar
    requires i < |v.pages|
  {
    v.(pages := v.pages[i := p])
  }

  /** Mapping a retained handle again, optionally counting the page as resident. */
  function Restore(v: Vbar, i: nat, count: bool, r: MapReply): Vbar
    requires i < |v.pages|
  {
    if v.pages[i].handle == 0 then v
    else
      var p := AfterMap(v.pages[i], r);
      SetPage(v, i, p).(resident := if p.mapping == Mapped && count then v.resident + 1 else v.resident)
  }

  /** Creating and mapping a page; a handle that cannot be released again is kept and charged. */
  function MapNew(v: Vbar, i: nat, r: CreateReply): (Vbar, bool)
    requires i < |v.pages|
  {
    var p := v.pages[i];
    if p.handle != 0 then
      if p.mapping == Indeterminate then (v, false)
      else (Restore(v, i, false, r.mapping), AfterMap(p, r.mapping).mapping == Mapped)
    else if !r.create then (v, false)
    else
      var created := v.(live := v.live + {v.next}, next := v.next + 1);
      var q := AfterMap(p.(handle := v.next), r.mapping);
      if q.mapping == Mapped then (SetPage(created, i, q).(charged := v.charged + PAGE), true)
      else if q.mapping == Unmapped && r.release then (SetPage(created, i, q.(handle := 0)).(live := created.live - {v.next}), false)
      else (SetPage(created, i, q).(charged := v.charged + PAGE), false)
  }

  /** Unmapping and releasing a mapped page; after a failed release it is mapped again if that works. */
  function FreePage(v: Vbar, i: nat, r: FreeReply): Vbar
    requires i < |v.pages| && IsMapped(v.pages[i])
  {
    var p := v.pages[i];
    if !r.unmap then v
    else if r.release then
      SetPage(v, i, p.(handle := 0, mapping := Unmapped, unknown := false)).(
        charged := v.charged - PAGE, resident := v.resident - 1, live := v.live - {p.handle})
    else
      var q := AfterMap(p.(mapping := Unmapped), r.restore);
      if q.mapping == Mapped then SetPage(v, i, q)
      else SetPage(v, i, q.(unknown := true)).(resident := v.resident - 1)
  }

  function SetPins(v: Vbar, i: nat, pins: nat): Vbar
    requires i < |v.pages|
  {
    SetPage(v, i, v.pages[i].(pins := pins))
  }

  /** A page may be freed when it is mapped and nobody uses it, or by force. */
  predicate Evictable(p: Page, force: bool) {
    IsMapped(p) && (force || (p.pins == 0 && !p.unknown))
  }

  /** Freeing a page unless it is in use; with force, pins are ignored and, unless the driver refuses, dropped. */
  function Evict(v: Vbar, i: nat, force: bool, r: FreeReply): Vbar
    requires i < |v.pages|
  {
    if Evictable(v.pages[i], force) then
      var w := FreePage(v, i, r);
      if r.unmap && r.release && force then SetPins(w, i, 0) else w
    else if force then SetPins(v, i, 0)
    else v
  }

  function Unpin(v: Vbar, i: nat): Vbar
    requires i < |v.pages|
  {
    if v.pages[i].pins > 0 then SetPins(v, i, v.pages[i].pins - 1) else v
  }

  datatype Outcome = Ready | Broken | Missing

  /** What a fault does first with a page: uses it, restores a retained handle, or finds it missing. */
  function Touch(v: Vbar, i: nat, r: MapReply): (Vbar, Outcome)
    requires i < |v.pages|
  {
    var p := v.pages[i];
    if p.handle != 0 && p.mapping == Indeterminate then (v, Broken)
    else
      var w := if p.handle != 0 && p.mapping == Unmapped then Restore(v, i, true, r) else v;
      if IsMapped(w.pages[i]) then (SetPage(w, i, w.pages[i].(pins := w.pages[i].pins + 1)), Ready)
      else if p.handle != 0 then (w, Broken)
      else (w, Missing)
  }

  /** The end of a successful creation in a fault. */
  function Admit(v: Vbar, i: nat): Vbar
    requires i < |v.pages|
  {
    var p := v.pages[i];
    SetPage(v, i, p.(serial := p.serial + 1, pins := p.pins + 1)).(resident := v.resident + 1)
  }

  /** A missing page of a fault: up to three creations, each only after the one before it failed. */
  function BringIn(v: Vbar, i: nat, attempts: seq<CreateReply>): (Vbar, bool)
    requires i < |v.pages|
    ensures |BringIn(v, i, attempts).0.pages| == |v.pages|
    decreases |attempts|
  {
    if attempts == [] then (v, false)
    else
      var (w, ok) := MapNew(v, i, attempts[0]);
      if ok then (Admit(w, i), true) else BringIn(w, i, attempts[1..])
  }

  // ---------------------------------------------------------------- the books

  function Holding(pages: seq<Page>, k: nat): nat
    requires k <= |pages|
  {
    if k == 0 then 0 else Holding(pages, k - 1) + (if pages[k - 1].handle != 0 then 1 else 0)
  }

  function Resident(pages: seq<Page>, k: nat): nat
    requires k <= |pages|
  {
    if k == 0 then 0 else Resident(pages, k - 1) + (if IsMapped(pages[k - 1]) then 1 else 0)
  }

  /** The live handles are exactly those the pages hold, each held once; a mapped or unsure page has one. */
  ghost predicate HandlesOk(v: Vbar) {
    && (forall i :: 0 <= i < |v.pages| && v.pages[i].handle != 0 ==> v.pages[i].handle in v.live)
    && (forall i, j :: 0 <= i < j < |v.pages| && v.pages[i].handle != 0 ==> v.pages[i].handle != v.pages[j].handle)
    && (forall h :: h in v.live ==> 0 < h < v.next && HeldBy(v, h))
    && (forall i :: 0 <= i < |v.pages| && v.pages[i].handle == 0 ==> v.pages[i].mapping == Unmapped)
    && v.next > 0
  }

  predicate HeldBy(v: Vbar, h: nat) {
    exists i :: 0 <= i < |v.pages| && v.pages[i].handle == h
  }

  /**
    The books between calls.  While a fault is between creating a page and admitting it, that
    page is mapped but not counted yet; `uncounted` says so.
  */
  ghost predicate Books(v: Vbar, uncounted: int) {
    && HandlesOk(v) && v.charged == PAGE * Holding(v.pages, |v.pages|)
    && v.resident + uncounted == Resident(v.pages, |v.pages|)
  }

  lemma {:induction false} CountUpdate(pages: seq<Page>, i: nat, p: Page, k: nat)
    requires i < |pages| && k <= |pages|
    ensures Holding(pages[i := p], k) == Holding(pages, k) +
            (if i < k then (if p.handle != 0 then 1 else 0) - (if pages[i].handle != 0 then 1 else 0) else 0)
    ensures Resident(pages[i := p], k) == Resident(pages, k) +
            (if i < k then (if IsMapped(p) then 1 else 0) - (if IsMapped(pages[i]) then 1 else 0) else 0)
  {
    if k > 0 { CountUpdate(pages, i, p, k - 1); }
  }

  /** A page that keeps its handle leaves the handles' books alone. */
  lemma SameHandle(v: Vbar, i: nat, p: Page)
    requires HandlesOk(v) && i < |v.pages| && p.handle == v.pages[i].handle && (p.handle == 0 ==> p.mapping == Unmapped)
    ensures HandlesOk(SetPage(v, i, p))
  {
    forall h | h in v.live ensures HeldBy(SetPage(v, i, p), h) {
      assert HeldBy(v, h);
      var j :| 0 <= j < |v.pages| && v.pages[j].handle == h;
      assert SetPage(v, i, p).pages[j].handle == h;
    }
  }

  /** A fresh handle goes to a page that has none. */
  lemma FreshHandle(v: Vbar, i: nat, p: Page)
    requires HandlesOk(v) && i < |v.pages| && v.pages[i].handle == 0 && p.handle == v.next
    ensures HandlesOk(SetPage(v, i, p).(live := v.live + {v.next}, next := v.next + 1))
  {
    var w := SetPage(v, i, p).(live := v.live + {v.next}, next := v.next + 1);
    forall h | h in w.live ensures HeldBy(w, h) {
      if h == v.next { assert w.pages[i].handle == h; } else {
        assert HeldBy(v, h);
        var j :| 0 <= j < |v.pages| && v.pages[j].handle == h;
        assert w.pages[j].handle == h;
      }
    }
  }

  /** A released handle leaves its page and the driver together. */
  lemma ReleasedHandle(v: Vbar, i: nat, p: Page)
    requires HandlesOk(v) && i < |v.pages| && v.pages[i].handle != 0 && p.handle == 0 && p.mapping == Unmapped
    ensures HandlesOk(SetPage(v, i, p).(live := v.live - {v.pages[i].handle}))
  {
    var w := SetPage(v, i, p).(live := v.live - {v.pages[i].handle});
    forall h | h in w.live ensures HeldBy(w, h) {
      assert HeldBy(v, h);
      var j :| 0 <= j < |v.pages| && v.pages[j].handle == h;
      assert w.pages[j].handle == h;
    }
  }

  // ---------------------------------------------------------------- every operation keeps the books

  lemma RestoreKeeps(v: Vbar, i: nat, r: MapReply)
    requires Books(v, 0) && i < |v.pages| && !IsMapped(v.pages[i])
    ensures Books(Restore(v, i, true, r), 0)
    ensures Books(Restore(v, i, false, r), if IsMapped(Restore(v, i, false, r).pages[i]) then 1 else 0)
  {
    if v.pages[i].handle != 0 {
      SameHandle(v, i, AfterMap(v.pages[i], r));
      CountUpdate(v.pages, i, AfterMap(v.pages[i], r), |v.pages|);
    }
  }

  lemma MapNewKeeps(v: Vbar, i: nat, r: CreateReply)
    requires Books(v, 0) && i < |v.pages| && !IsMapped(v.pages[i])
    ensures var (w, ok) := MapNew(v, i, r);
      |w.pages| == |v.pages| && Books(w, if ok then 1 else 0) && (ok <==> IsMapped(w.pages[i]))
  {
    var p := v.pages[i];
    if p.handle != 0 {
      if p.mapping != Indeterminate { RestoreKeeps(v, i, r.mapping); }
    } else if r.create {
      CreatedKeeps(v, i, r);
    }
  }

  /** The totals have no part in the handles' books. */
  lemma ChargeIsApart(v: Vbar, charged: int, resident: int)
    requires HandlesOk(v)
    ensures HandlesOk(v.(charged := charged, resident := resident))
  {
    forall h | h in v.live ensures HeldBy(v.(charged := charged, resident := resident), h) { assert HeldBy(v, h); }
  }

  lemma NextIsFresh(v: Vbar)
    requires HandlesOk(v)
    ensures v.next > 0
  {}

  /** A created handle is kept, mapped or not, or goes back to the driver. */
  lemma CreatedKeeps(v: Vbar, i: nat, r: CreateReply)
    requires Books(v, 0) && i < |v.pages| && v.pages[i].handle == 0 && r.create
    ensures var (w, ok) := MapNew(v, i, r);
      |w.pages| == |v.pages| && Books(w, if ok then 1 else 0) && (ok <==> IsMapped(w.pages[i]))
  {
    hide HandlesOk, Holding, Resident;
    var q := AfterMap(v.pages[i].(handle := v.next), r.mapping);
    assert v.next > 0 by { NextIsFresh(v); }
    FreshHandle(v, i, q);
    if q.mapping == Unmapped && r.release {
      var x := SetPage(v, i, q).(live := v.live + {v.next}, next := v.next + 1);
      CountUpdate(v.pages, i, q.(handle := 0), |v.pages|);
      ReleasedHandle(x, i, q.(handle := 0));
      assert x.pages[i := q.(handle := 0)] == v.pages[i := q.(handle := 0)];
      assert MapNew(v, i, r).0 == SetPage(x, i, q.(handle := 0)).(live := x.live - {x.pages[i].handle});
    } else {
      CountUpdate(v.pages, i, q, |v.pages|);
      ChargeIsApart(SetPage(v, i, q).(live := v.live + {v.next}, next := v.next + 1), v.charged + PAGE, v.resident);
    }
  }

  lemma AdmitKeeps(v: Vbar, i: nat)
    requires Books(v, 1) && i < |v.pages| && IsMapped(v.pages[i])
    ensures Books(Admit(v, i), 0)
  {
    var p := v.pages[i].(serial := v.pages[i].serial + 1, pins := v.pages[i].pins + 1);
    SameHandle(v, i, p);
    CountUpdate(v.pages, i, p, |v.pages|);
  }

  lemma {:induction false} BringInKeeps(v: Vbar, i: nat, attempts: seq<CreateReply>)
    requires Books(v, 0) && i < |v.pages| && !IsMapped(v.pages[i])
    ensures Books(BringIn(v, i, attempts).0, 0)
    ensures BringIn(v, i, attempts).1 <==> IsMapped(BringIn(v, i, attempts).0.pages[i])
    decreases |attempts|
  {
    if attempts != [] {
      MapNewKeeps(v, i, attempts[0]);
      var (w, ok) := MapNew(v, i, attempts[0]);
      if ok { AdmitKeeps(w, i); } else { BringInKeeps(w, i, attempts[1..]); }
    }
  }

  lemma FreeKeeps(v: Vbar, i: nat, r: FreeReply)
    requires Books(v, 0) && i < |v.pages| && IsMapped(v.pages[i])
    ensures Books(FreePage(v, i, r), 0)
  {
    hide HandlesOk, Holding, Resident;
    var p := v.pages[i];
    if r.unmap {
      if r.release {
        var q := p.(handle := 0, mapping := Unmapped, unknown := false);
        ReleasedHandle(v, i, q);
        ChargeIsApart(SetPage(v, i, q).(live := v.live - {p.handle}), v.charged - PAGE, v.resident - 1);
        CountUpdate(v.pages, i, q, |v.pages|);
      } else {
        var q := AfterMap(p.(mapping := Unmapped), r.restore);
        var kept := if q.mapping == Mapped then q else q.(unknown := true);
        SameHandle(v, i, kept);
        ChargeIsApart(SetPage(v, i, kept), v.charged, v.resident - 1);
        CountUpdate(v.pages, i, kept, |v.pages|);
      }
    }
  }

  lemma PinKeeps(v: Vbar, i: nat, pins: nat)
    requires Books(v, 0) && i < |v.pages|
    ensures Books(SetPins(v, i, pins), 0)
  {
    SameHandle(v, i, v.pages[i].(pins := pins));
    CountUpdate(v.pages, i, v.pages[i].(pins := pins), |v.pages|);
  }

  lemma TouchKeeps(v: Vbar, i: nat, r: MapReply)
    requires Books(v, 0) && i < |v.pages|
    ensures Books(Touch(v, i, r).0, 0) && |Touch(v, i, r).0.pages| == |v.pages|
    ensures Touch(v, i, r).1 == Ready <==> IsMapped(Touch(v, i, r).0.pages[i])
  {
    hide Books;
    if !IsMapped(v.pages[i]) { RestoreKeeps(v, i, r); }
    var w := if v.pages[i].handle != 0 && v.pages[i].mapping == Unmapped then Restore(v, i, true, r) else v;
    if IsMapped(w.pages[i]) { PinKeeps(w, i, w.pages[i].pins + 1); }
  }

  // ---------------------------------------------------------------- runs

  datatype Step =
    | FaultStep(i: nat, restore: MapReply, attempts: seq<CreateReply>)
    | FreeStep(i: nat, force: bool, reply: FreeReply)
    | UnpinStep(i: nat)

  /** A fault on one page, the free of one page or an unpin, under any answers of the driver. */
  function Next(v: Vbar, s: Step): Vbar {
    if s.i >= |v.pages| then v
    else
      match s
      case FaultStep(i, restore, attempts) =>
        var (w, outcome) := Touch(v, i, restore);
        if outcome == Missing && i < |w.pages| then BringIn(w, i, attempts).0 else w
      case FreeStep(i, force, reply) => Evict(v, i, force, reply)
      case UnpinStep(i) => Unpin(v, i)
  }

  function Run(v: Vbar, steps: seq<Step>): Vbar
    decreases |steps|
  {
    if steps == [] then v else Run(Next(v, steps[0]), steps[1..])
  }

  function Fresh(pages: nat): Vbar {
    Vbar(seq(pages, i => Page(0, Unmapped, false, 0, 0)), 0, 0, {}, 1)
  }

  lemma {:induction false} FreshCounts(pages: nat, k: nat)
    requires k <= pages
    ensures Holding(Fresh(pages).pages, k) == 0 && Resident(Fresh(pages).pages, k) == 0
  {
    if k > 0 { FreshCounts(pages, k - 1); }
  }

  lemma StepKeeps(v: Vbar, s: Step)
    requires Books(v, 0)
    ensures Books(Next(v, s), 0)
  {
    hide Books;
    if s.i < |v.pages| {
      match s
      case FaultStep(i, restore, attempts) =>
        TouchKeeps(v, i, restore);
        if Touch(v, i, restore).1 == Missing { BringInKeeps(Touch(v, i, restore).0, i, attempts); }
      case FreeStep(i, force, reply) =>
        if Evictable(v.pages[i], force) {
          FreeKeeps(v, i, reply);
          PinKeeps(FreePage(v, i, reply), i, 0);
        } else {
          PinKeeps(v, i, 0);
        }
      case UnpinStep(i) => if v.pages[i].pins > 0 { PinKeeps(v, i, v.pages[i].pins - 1); }
    }
  }

  lemma {:induction false} RunKeeps(v: Vbar, steps: seq<Step>)
    requires Books(v, 0)
    ensures Books(Run(v, steps), 0)
    decreases |steps|
  {
    if steps != [] {
      StepKeeps(v, steps[0]);
      RunKeeps(Next(v, steps[0]), steps[1..]);
    }
  }

  /**
    For every pattern of driver failures: charged bytes are 32 MiB times the pages holding a
    handle, the resident count is the pages known to be mapped, and the driver's live handles are
    exactly those the pages hold, so none was overwritten, lost or released twice.
  */
  lemma BooksBalance(pages: nat, steps: seq<Step>)
    ensures var v := Run(Fresh(pages), steps);
      && v.charged == PAGE * Holding(v.pages, |v.pages|)
      && v.resident == Resident(v.pages, |v.pages|)
      && (forall h :: h in v.live <==> h != 0 && HeldBy(v, h))
      && (forall i, j :: 0 <= i < j < |v.pages| && v.pages[i].handle != 0 ==> v.pages[i].handle != v.pages[j].handle)
  {
    FreshCounts(pages, pages);
    RunKeeps(Fresh(pages), steps);
  }

  // ---------------------------------------------------------------- what a serial identifies

  /** A fault on a page without a handle that ended with one, but without a mapping or a new serial. */
  predicate Strands(p: Page, q: Page) {
    p.handle == 0 && q.handle != 0 && !IsMapped(q)
  }

  predicate StrandsIn(v: Vbar, steps: seq<Step>, i: nat)
    decreases |steps|
  {
    steps != [] && i < |v.pages| && i < |Next(v, steps[0]).pages| &&
    (Strands(v.pages[i], Next(v, steps[0]).pages[i]) || StrandsIn(Next(v, steps[0]), steps[1..], i))
  }

  /**
    How page `q` stands to an earlier time at which the page held handle `h` under the serial
    `serial` and `next` was the next handle: under the same serial it holds that handle or none,
    or, once a creation left its handle behind, one that the driver made later or none.
  */
  predicate Since(h: nat, serial: nat, next: nat, stranded: bool, q: Page) {
    && serial <= q.serial
    && (q.serial == serial ==> q.handle == 0 || if stranded then q.handle >= next else q.handle == h)
  }

  /** Every attempt keeps the serial and a handle once there; the one that succeeds counts as a new page. */
  lemma {:induction false} BringInOutcome(v: Vbar, i: nat, attempts: seq<CreateReply>)
    requires i < |v.pages|
    ensures var (w, ok) := BringIn(v, i, attempts);
      && (w.pages[i].serial == v.pages[i].serial + (if ok then 1 else 0))
      && (w.pages[i].handle == v.pages[i].handle || (v.pages[i].handle == 0 && w.pages[i].handle >= v.next))
      && w.next >= v.next && w.pages[i].pins == v.pages[i].pins + (if ok then 1 else 0)
    decreases |attempts|
  {
    if attempts != [] {
      var (w, ok) := MapNew(v, i, attempts[0]);
      if !ok { BringInOutcome(w, i, attempts[1..]); }
    }
  }

  lemma OtherPagesStay(v: Vbar, s: Step, i: nat)
    requires i < |v.pages| && s.i != i
    ensures i < |Next(v, s).pages| && Next(v, s).pages[i] == v.pages[i] && Next(v, s).next >= v.next
  {
    if s.FaultStep? && s.i < |v.pages| {
      var (w, outcome) := Touch(v, s.i, s.restore);
      assert w.pages[i] == v.pages[i];
      if outcome == Missing { BringInOthers(w, s.i, s.attempts, i); }
    }
  }

  lemma {:induction false} BringInOthers(v: Vbar, k: nat, attempts: seq<CreateReply>, i: nat)
    requires k < |v.pages| && i < |v.pages| && i != k
    ensures BringIn(v, k, attempts).0.pages[i] == v.pages[i] && BringIn(v, k, attempts).0.next >= v.next
    decreases |attempts|
  {
    if attempts != [] {
      var (w, ok) := MapNew(v, k, attempts[0]);
      if !ok { BringInOthers(w, k, attempts[1..], i); }
    }
  }

  lemma SinceStep(v: Vbar, s: Step, i: nat, h: nat, serial: nat, next: nat, stranded: bool)
    requires Books(v, 0) && i < |v.pages| && 0 < h < next <= v.next && Since(h, serial, next, stranded, v.pages[i])
    ensures var w := Next(v, s);
      && i < |w.pages| && next <= w.next
      && Since(h, serial, next, stranded || Strands(v.pages[i], w.pages[i]), w.pages[i])
  {
    hide Books;
    if s.i != i {
      OtherPagesStay(v, s, i);
    } else if s.FaultStep? {
      TouchKeeps(v, i, s.restore);
      var (w, outcome) := Touch(v, i, s.restore);
      if outcome == Missing {
        assert w == v;
        BringInKeeps(v, i, s.attempts);
        BringInOutcome(v, i, s.attempts);
      }
    }
  }

  lemma {:induction false} SinceRun(v: Vbar, steps: seq<Step>, i: nat, h: nat, serial: nat, next: nat, stranded: bool)
    requires Books(v, 0) && i < |v.pages| && 0 < h < next <= v.next && Since(h, serial, next, stranded, v.pages[i])
    ensures i < |Run(v, steps).pages|
    ensures Since(h, serial, next, stranded || StrandsIn(v, steps, i), Run(v, steps).pages[i])
    decreases |steps|
  {
    hide Books, Since, Strands, Next;
    if steps != [] {
      SinceStep(v, steps[0], i, h, serial, next, stranded);
      StepKeeps(v, steps[0]);
      SinceRun(Next(v, steps[0]), steps[1..], i, h, serial, next, stranded || Strands(v.pages[i], Next(v, steps[0]).pages[i]));
    }
  }

  /**
    A caller that kept a page's serial and finds it again on the mapped page sees the same
    physical page exactly when no fault since then left a new handle behind.  Serials never go back.
  */
  lemma EqualSerialsSameHandleIff(v: Vbar, steps: seq<Step>, i: nat)
    requires Books(v, 0) && i < |v.pages| && IsMapped(v.pages[i])
    ensures var w := Run(v, steps);
      && i < |w.pages| && v.pages[i].serial <= w.pages[i].serial
      && (IsMapped(w.pages[i]) && w.pages[i].serial == v.pages[i].serial ==>
            (w.pages[i].handle == v.pages[i].handle <==> !StrandsIn(v, steps, i)))
  {
    var p := v.pages[i];
    assert p.handle in v.live;
    SinceRun(v, steps, i, p.handle, p.serial, v.next, false);
  }

  /** Page created, freed, created again in vain and then mapped from what that left: a new page under the old serial. */
  lemma EqualSerialsTwoHandles()
    ensures var works := MapReply(true, true, true);
      var v := Run(Fresh(1), [FaultStep(0, works, [CreateReply(true, works, true)])]);
      var w := Run(v, [FreeStep(0, true, FreeReply(true, true, works)),
                       FaultStep(0, works, [CreateReply(true, MapReply(false, true, true), false)]),
                       FaultStep(0, works, [])]);
      && |v.pages| == 1 == |w.pages| && IsMapped(v.pages[0]) && IsMapped(w.pages[0])
      && v.pages[0].serial == w.pages[0].serial && v.pages[0].handle != w.pages[0].handle
  {
    var works := MapReply(true, true, true);
    var s0 := FaultStep(0, works, [CreateReply(true, works, true)]);
    var s1 := FreeStep(0, true, FreeReply(true, true, works));
    var s2 := FaultStep(0, works, [CreateReply(true, MapReply(false, true, true), false)]);
    var s3 := FaultStep(0, works, []);
    var v0 := Fresh(1);
    var v1 := Vbar([Page(1, Mapped, false, 1, 1)], 1, PAGE, {1}, 2);
    assert Next(v0, s0) == v1;
    assert Run(v0, [s0]) == v1 by { assert [s0][1..] == []; }
    var v2 := Vbar([Page(0, Unmapped, false, 0, 1)], 0, 0, {}, 2);
    assert Next(v1, s1) == v2;
    var v3 := Vbar([Page(2, Unmapped, false, 0, 1)], 0, PAGE, {2}, 3);
    assert MapNew(v2, 0, s2.attempts[0]).0 == v3 by {
      assert v2.live + {2} == {2} && v2.pages[0 := Page(2, Unmapped, false, 0, 1)] == v3.pages;
    }
    assert BringIn(v2, 0, s2.attempts) == (v3, false) by { assert s2.attempts[1..] == []; }
    assert Next(v2, s2) == v3;
    var v4 := Vbar([Page(2, Mapped, false, 1, 1)], 1, PAGE, {2}, 3);
    assert Next(v3, s3) == v4;
    assert [s1, s2, s3][1..] == [s2, s3] && [s2, s3][1..] == [s3] && [s3][1..] == [];
    assert Run(v3, [s3]) == v4;
    assert Run(v2, [s2, s3]) == v4;
    assert Run(v1, [s1, s2, s3]) == v4;
  }

  /** A page whose mapping is unsure is never used, freed or given another handle again. */
  lemma {:induction false} UnsureStaysUnsure(v: Vbar, steps: seq<Step>, i: nat)
    requires i < |v.pages| && v.pages[i].mapping == Indeterminate && v.pages[i].handle != 0
    ensures var w := Run(v, steps);
      && i < |w.pages| && w.pages[i].pins <= v.pages[i].pins
      && w.pages[i] == v.pages[i].(pins := w.pages[i].pins)
    decreases |steps|
  {
    if steps != [] {
      if steps[0].i != i { OtherPagesStay(v, steps[0], i); }
      UnsureStaysUnsure(Next(v, steps[0]), steps[1..], i);
    }
  }

  // ---------------------------------------------------------------- the pages in place

  /** A mapping as the driver has it: the handle, and whether access was granted. */
  datatype View = View(handle: nat, open: bool)

  /** A fault that one good answer of the driver completes: the page is mapped, or is restored, or created at once. */
  predicate Easy(p: Page, restore: MapReply, attempts: seq<CreateReply>) {
    if p.handle == 0 then attempts != [] && attempts[0].create && attempts[0].mapping.maps && attempts[0].mapping.access
    else p.mapping == Mapped || (p.mapping == Unmapped && restore.maps && restore.access)
  }

  lemma BringInPins(v: Vbar, i: nat, attempts: seq<CreateReply>)
    requires i < |v.pages| && v.pages[i].handle == 0
    ensures Easy(v.pages[i], MapReply(false, false, false), attempts) ==> BringIn(v, i, attempts).1
    ensures var (w, ok) := BringIn(v, i, attempts);
      w.pages[i].pins == v.pages[i].pins + if ok then 1 else 0
  {
    BringInOutcome(v, i, attempts);
  }

  /** The residency map of one VBAR, changed driver call by driver call. */
  class WindowsVbar {
    const pages: array<Page>
    var resident: int
    var charged: int
    ghost var live: set<nat>
    /** What the driver has mapped at each page of the range, whatever the residency map says. */
    ghost var views: map<nat, View>
    var next: nat

    ghost function State(): Vbar
      reads this, pages
    {
      Vbar(pages[..], resident, charged, live, next)
    }

    /** The residency map tells the truth: mapped pages are open in the driver, unmapped ones are not mapped there. */
    ghost predicate Truthful()
      reads this, pages
    {
      next > 0 && forall i :: 0 <= i < pages.Length ==> Agrees(i, pages[i])
    }

    ghost predicate Agrees(i: nat, p: Page)
      reads this
    {
      match p.mapping
      case Unmapped => i !in views
      case Mapped => p.handle != 0 && i in views && views[i] == View(p.handle, true)
      case Indeterminate => p.handle != 0 && i in views && views[i] == View(p.handle, false)
    }

    constructor (count: nat)
      ensures fresh(pages) && State() == Fresh(count) && Truthful()
    {
      pages := new Page[count](i => Page(0, Unmapped, false, 0, 0));
      resident, charged, live, views, next := 0, 0, {}, map[], 1;
      new;
      assert pages[..] == Fresh(count).pages;
    }

    /** Maps the handle a page already has and sets its access; a mapping that cannot be undone stays unsure. */
    method MapHandle(i: nat, r: MapReply) returns (mapped: bool)
      requires i < pages.Length && Truthful() && pages[i].handle != 0 && pages[i].mapping == Unmapped
      modifies this`views, pages
      ensures pages[..] == old(pages[..])[i := AfterMap(old(pages[i]), r)] && mapped == (pages[i].mapping == Mapped)
      ensures Truthful()
    {
      var p := pages[i];
      if !r.maps {
        pages[i] := p.(mapping := Unmapped);
        return false;
      }
      views := views[i := View(p.handle, false)];
      pages[i] := p.(mapping := Indeterminate);
      if !r.access {
        if r.unmap {
          views := views - {i};
          pages[i] := p.(mapping := Unmapped);
        } else {
          pages[i] := p.(mapping := Indeterminate, unknown := true);
        }
        return false;
      }
      views := views[i := View(p.handle, true)];
      pages[i] := p.(mapping := Mapped);
      return true;
    }

    method RestoreMapping(i: nat, count: bool, r: MapReply) returns (mapped: bool)
      requires i < pages.Length && Truthful() && pages[i].handle != 0 && pages[i].mapping == Unmapped
      modifies this`resident, this`views, pages
      ensures Truthful()
      ensures State() == Restore(old(State()), i, count, r) && mapped == (pages[i].mapping == Mapped)
    {
      mapped := MapHandle(i, r);
      if mapped && count {
        resident := resident + 1;
      }
    }

    /** Called for a page that is not mapped. */
    method MapNewPage(i: nat, r: CreateReply) returns (ok: bool)
      requires i < pages.Length && Truthful() && pages[i].mapping != Mapped
      modifies this, pages
      ensures Truthful()
      ensures (State(), ok) == MapNew(old(State()), i, r)
    {
      if pages[i].handle != 0 {
        if pages[i].mapping == Indeterminate {
          return false;
        }
        ok := RestoreMapping(i, false, r.mapping);
        return;
      }
      if !r.create {
        return false;
      }
      ghost var before := pages[..];
      pages[i] := pages[i].(handle := next);
      live := live + {next};
      next := next + 1;
      ok := MapHandle(i, r.mapping);
      assert pages[..] == before[i := AfterMap(before[i].(handle := next - 1), r.mapping)];
      if !ok && pages[i].mapping == Unmapped && r.release {
        live := live - {next - 1};
        pages[i] := pages[i].(handle := 0);
        assert pages[..] == before[i := AfterMap(before[i].(handle := next - 1), r.mapping).(handle := 0)];
      } else {
        charged := charged + PAGE;
      }
    }

    /** Unmaps and releases a mapped page. */
    method Free(i: nat, r: FreeReply) returns (freed: bool)
      requires i < pages.Length && Truthful() && IsMapped(pages[i])
      modifies this, pages
      ensures Truthful()
      ensures State() == FreePage(old(State()), i, r) && freed == (r.unmap && r.release)
    {
      if !r.unmap {
        return false;
      }
      ghost var before := pages[..];
      var p := pages[i];
      views := views - {i};
      pages[i] := p.(mapping := Unmapped);
      if !r.release {
        var mapped := MapHandle(i, r.restore);
        assert pages[..] == before[i := AfterMap(p.(mapping := Unmapped), r.restore)];
        if !mapped {
          pages[i] := pages[i].(unknown := true);
          resident := resident - 1;
        }
        return false;
      }
      charged := charged - PAGE;
      live := live - {p.handle};
      pages[i] := p.(handle := 0, mapping := Unmapped, unknown := false);
      resident := resident - 1;
      return true;
    }

    /** Frees a page that nobody uses, or by force. */
    method EvictPage(i: nat, force: bool, r: FreeReply)
      requires i < pages.Length && Truthful()
      modifies this, pages
      ensures Truthful() && State() == Next(old(State()), FreeStep(i, force, r))
    {
      var p := pages[i];
      if IsMapped(p) && (force || (p.pins == 0 && !p.unknown)) {
        var freed := Free(i, r);
        if !freed {
          return;
        }
      }
      if force {
        pages[i] := pages[i].(pins := 0);
      }
    }

    /** A missing page of a fault: `attempts` are the answers to the creations it may try. */
    method CreatePage(i: nat, attempts: seq<CreateReply>) returns (ok: bool)
      requires i < pages.Length && Truthful() && pages[i].handle == 0
      modifies this, pages
      ensures Truthful() && (State(), ok) == BringIn(old(State()), i, attempts)
      ensures ok <==> IsMapped(pages[i])
    {
      ghost var before := State();
      for k := 0 to |attempts|
        invariant Truthful() && !IsMapped(pages[i])
        invariant BringIn(before, i, attempts) == BringIn(State(), i, attempts[k..])
      {
        assert attempts[k..][0] == attempts[k] && attempts[k..][1..] == attempts[k + 1..];
        ghost var here := State();
        ok := MapNewPage(i, attempts[k]);
        if ok {
          pages[i] := pages[i].(serial := pages[i].serial + 1, pins := pages[i].pins + 1);
          resident := resident + 1;
          assert State() == Admit(MapNew(here, i, attempts[k]).0, i);
          return;
        }
      }
      ok := false;
    }

    /** One page of a fault. */
    method FaultPage(i: nat, restore: MapReply, attempts: seq<CreateReply>) returns (ok: bool)
      requires i < pages.Length && Truthful()
      modifies this, pages
      ensures Truthful() && State() == Next(old(State()), FaultStep(i, restore, attempts))
      ensures ok <==> IsMapped(pages[i])
      ensures ok ==> i in views && views[i] == View(pages[i].handle, true)
      ensures pages[i].pins == old(pages[i].pins) + if ok then 1 else 0
      ensures Easy(old(pages[i]), restore, attempts) ==> ok
    {
      if pages[i].handle == 0 {
        BringInPins(State(), i, attempts);
        ok := CreatePage(i, attempts);
        return;
      }
      if pages[i].mapping == Indeterminate {
        return false;
      }
      if pages[i].mapping == Unmapped {
        var mapped := RestoreMapping(i, true, restore);
        if !mapped {
          return false;
        }
      }
      pages[i] := pages[i].(pins := pages[i].pins + 1);
      return true;
    }
  }
}
