/**
  The Windows hook's table of live allocations (src-xpu/ur-usm-detour.c): open addressing over
  a fixed array, with tombstones left behind by removals.  The hash is arbitrary.  The table is
  shown to be a finite map for every run in which a pointer is inserted only while it is absent,
  and what happens to a pointer inserted while present is characterised exactly.
*/
module PointerTables {

  const POINTER_TABLE_SIZE: nat := 262144
  const FREE: nat := 0
  const TOMBSTONE: nat := 1

  datatype Slot = Slot(pointer: nat, size: nat, device: int)

  type Slots = s: seq<Slot> | |s| == POINTER_TABLE_SIZE witness seq(POINTER_TABLE_SIZE, i => Slot(FREE, 0, 0))

  /** A start slot for every pointer. */
  type Hash = h: nat -> nat | forall p :: h(p) < POINTER_TABLE_SIZE witness p => 0

  /** Neither of the two reserved values. */
  predicate Real(pointer: nat) {
    pointer != FREE && pointer != TOMBSTONE
  }

  /** The masked slot number of a probe, which wraps at most once. */
  function Index(start: nat, probe: nat): (i: nat)
    ensures start < POINTER_TABLE_SIZE && probe < POINTER_TABLE_SIZE ==>
      i == (start + probe) % POINTER_TABLE_SIZE && i < POINTER_TABLE_SIZE
  {
    if start + probe < POINTER_TABLE_SIZE then start + probe else start + probe - POINTER_TABLE_SIZE
  }

  // ---------------------------------------------------------------- the two probe loops

  /** Where an insertion's probing stops: at the pointer itself or at a slot it can take. */
  function InsertProbe(slots: Slots, start: nat, pointer: nat, probe: nat): (r: nat)
    requires start < POINTER_TABLE_SIZE
    requires probe <= POINTER_TABLE_SIZE
    ensures probe <= r <= POINTER_TABLE_SIZE
    decreases POINTER_TABLE_SIZE - probe
  {
    if probe == POINTER_TABLE_SIZE then probe
    else if slots[Index(start, probe)].pointer == pointer || !Real(slots[Index(start, probe)].pointer) then probe
    else InsertProbe(slots, start, pointer, probe + 1)
  }

  /** Where a removal's probing stops: at the pointer or at a slot never used. */
  function RemoveProbe(slots: Slots, start: nat, pointer: nat, probe: nat): (r: nat)
    requires start < POINTER_TABLE_SIZE
    requires probe <= POINTER_TABLE_SIZE
    ensures probe <= r <= POINTER_TABLE_SIZE
    decreases POINTER_TABLE_SIZE - probe
  {
    if probe == POINTER_TABLE_SIZE then probe
    else if slots[Index(start, probe)].pointer == FREE || slots[Index(start, probe)].pointer == pointer then probe
    else RemoveProbe(slots, start, pointer, probe + 1)
  }

  function Inserted(slots: Slots, hash: Hash, pointer: nat, size: nat, device: int): (r: (Slots, bool)) {
    var probe := InsertProbe(slots, hash(pointer), pointer, 0);
    if probe == POINTER_TABLE_SIZE || slots[Index(hash(pointer), probe)].pointer == pointer then (slots, false)
    else (slots[Index(hash(pointer), probe) := Slot(pointer, size, device)], true)
  }

  datatype Taken = Absent | Present(size: nat, device: int)

  function Removed(slots: Slots, hash: Hash, pointer: nat): (r: (Slots, Taken)) {
    var probe := RemoveProbe(slots, hash(pointer), pointer, 0);
    if probe == POINTER_TABLE_SIZE || slots[Index(hash(pointer), probe)].pointer == FREE then (slots, Absent)
    else
      var i := Index(hash(pointer), probe);
      (slots[i := slots[i].(pointer := TOMBSTONE, size := 0)], Present(slots[i].size, slots[i].device))
  }

  // ---------------------------------------------------------------- the map a table stands for

  predicate Occupies(slots: Slots, i: int, pointer: nat) {
    0 <= i < POINTER_TABLE_SIZE && slots[i].pointer == pointer
  }

  function Keys(slots: Slots, k: nat): set<nat>
    requires k <= POINTER_TABLE_SIZE
  {
    if k == 0 then {}
    else if Real(slots[k - 1].pointer) then Keys(slots, k - 1) + {slots[k - 1].pointer}
    else Keys(slots, k - 1)
  }

  predicate Unique(slots: Slots) {
    forall i, j :: 0 <= i < j < POINTER_TABLE_SIZE && Real(slots[i].pointer) ==> slots[i].pointer != slots[j].pointer
  }

  /** A removal starting at `start` meets slot `i` before any slot never used. */
  predicate Reachable(slots: Slots, start: nat, i: nat)
    requires start < POINTER_TABLE_SIZE
  {
    exists q :: 0 <= q < POINTER_TABLE_SIZE && Index(start, q) == i && Clear(slots, start, q)
  }

  /** No slot never used lies on the first `q` probes. */
  predicate Clear(slots: Slots, start: nat, q: nat)
    requires start < POINTER_TABLE_SIZE && q <= POINTER_TABLE_SIZE
  {
    forall k :: 0 <= k < q ==> slots[Index(start, k)].pointer != FREE
  }

  ghost predicate Wf(slots: Slots, hash: Hash) {
    && Unique(slots)
    && forall i :: 0 <= i < POINTER_TABLE_SIZE && Real(slots[i].pointer) ==> Reachable(slots, hash(slots[i].pointer), i)
  }

  /** The finite map: each live pointer's size and device. */
  ghost function Contents(slots: Slots): map<nat, (nat, int)> {
    map p | p in Keys(slots, POINTER_TABLE_SIZE) :: ValueOf(slots, p)
  }

  ghost function ValueOf(slots: Slots, pointer: nat): (nat, int) {
    if i :| Occupies(slots, i, pointer) then (slots[i].size, slots[i].device) else (0, 0)
  }

  lemma {:induction false} KeysMeans(slots: Slots, k: nat, p: nat)
    requires k <= POINTER_TABLE_SIZE
    ensures p in Keys(slots, k) <==> Real(p) && exists i :: 0 <= i < k && slots[i].pointer == p
  {
    if k > 0 {
      KeysMeans(slots, k - 1, p);
    }
  }

  lemma ContentsMeans(slots: Slots, p: nat)
    ensures p in Contents(slots) <==> Real(p) && exists i :: Occupies(slots, i, p)
  {
    KeysMeans(slots, POINTER_TABLE_SIZE, p);
    if i :| Occupies(slots, i, p) { assert 0 <= i < POINTER_TABLE_SIZE && slots[i].pointer == p; }
    if i :| 0 <= i < POINTER_TABLE_SIZE && slots[i].pointer == p { assert Occupies(slots, i, p); }
  }

  lemma ContentsAt(slots: Slots, i: nat)
    requires Unique(slots) && i < POINTER_TABLE_SIZE && Real(slots[i].pointer)
    ensures slots[i].pointer in Contents(slots) && Contents(slots)[slots[i].pointer] == (slots[i].size, slots[i].device)
  {
    assert Occupies(slots, i, slots[i].pointer);
    ContentsMeans(slots, slots[i].pointer);
  }

  // ---------------------------------------------------------------- insertion

  lemma {:induction false} InsertProbeStops(slots: Slots, start: nat, pointer: nat, probe: nat)
    requires start < POINTER_TABLE_SIZE
    requires probe <= POINTER_TABLE_SIZE
    ensures var r := InsertProbe(slots, start, pointer, probe);
      && (r < POINTER_TABLE_SIZE ==>
            slots[Index(start, r)].pointer == pointer || !Real(slots[Index(start, r)].pointer))
      && forall k :: probe <= k < r ==>
            Real(slots[Index(start, k)].pointer) && slots[Index(start, k)].pointer != pointer
    decreases POINTER_TABLE_SIZE - probe
  {
    if probe < POINTER_TABLE_SIZE {
      InsertProbeStops(slots, start, pointer, probe + 1);
    }
  }

  /** Probing visits every slot. */
  lemma ProbeOf(start: nat, i: nat) returns (q: nat)
    requires start < POINTER_TABLE_SIZE && i < POINTER_TABLE_SIZE
    ensures q < POINTER_TABLE_SIZE && Index(start, q) == i
  {
    q := if i >= start then i - start else i + POINTER_TABLE_SIZE - start;
  }

  /** Overwriting one slot by a value in use keeps every pointer reachable. */
  lemma ReachableAfter(slots: Slots, i: nat, s: Slot, start: nat, j: nat)
    requires start < POINTER_TABLE_SIZE && i < POINTER_TABLE_SIZE && Reachable(slots, start, j) && s.pointer != FREE
    ensures Reachable(slots[i := s], start, j)
  {
    var q :| 0 <= q < POINTER_TABLE_SIZE && Index(start, q) == j && Clear(slots, start, q);
    assert Clear(slots[i := s], start, q);
  }

  predicate Full(slots: Slots) {
    forall i :: 0 <= i < POINTER_TABLE_SIZE ==> Real(slots[i].pointer)
  }

  lemma AbsentEverywhere(slots: Slots, p: nat)
    requires Real(p) && p !in Contents(slots)
    ensures forall i :: 0 <= i < POINTER_TABLE_SIZE ==> slots[i].pointer != p
  {
    ContentsMeans(slots, p);
    forall i | 0 <= i < POINTER_TABLE_SIZE ensures slots[i].pointer != p { assert !Occupies(slots, i, p); }
  }

  lemma ProbingFindsRoom(slots: Slots, start: nat, p: nat)
    requires start < POINTER_TABLE_SIZE && forall i :: 0 <= i < POINTER_TABLE_SIZE ==> slots[i].pointer != p
    ensures InsertProbe(slots, start, p, 0) == POINTER_TABLE_SIZE <==> Full(slots)
  {
    InsertProbeStops(slots, start, p, 0);
    if InsertProbe(slots, start, p, 0) == POINTER_TABLE_SIZE {
      forall i | 0 <= i < POINTER_TABLE_SIZE ensures Real(slots[i].pointer) {
        var q := ProbeOf(start, i);
      }
    }
  }

  /**
    Inserting an absent pointer succeeds exactly when some slot is not in use; the table then
    stands for the map with the new entry, and otherwise is unchanged.
  */
  lemma InsertRefines(slots: Slots, hash: Hash, p: nat, size: nat, device: int)
    requires Wf(slots, hash) && Real(p) && p !in Contents(slots)
    ensures var (next, ok) := Inserted(slots, hash, p, size, device);
      && Wf(next, hash)
      && (ok <==> !Full(slots))
      && Contents(next) == if ok then Contents(slots)[p := (size, device)] else Contents(slots)
  {
    var start := hash(p);
    var r := InsertProbe(slots, start, p, 0);
    AbsentEverywhere(slots, p);
    ProbingFindsRoom(slots, start, p);
    InsertProbeStops(slots, start, p, 0);
    if r < POINTER_TABLE_SIZE {
      var i := Index(start, r);
      assert Inserted(slots, hash, p, size, device) == (slots[i := Slot(p, size, device)], true);
      PutKeeps(slots, hash, i, r, Slot(p, size, device));
      PutContents(slots, i, Slot(p, size, device));
    }
  }

  lemma PutKeeps(slots: Slots, hash: Hash, i: nat, r: nat, s: Slot)
    requires Wf(slots, hash) && Real(s.pointer) && r < POINTER_TABLE_SIZE && i == Index(hash(s.pointer), r)
    requires forall k :: 0 <= k < POINTER_TABLE_SIZE ==> slots[k].pointer != s.pointer
    requires forall k :: 0 <= k < r ==> Real(slots[Index(hash(s.pointer), k)].pointer)
    ensures Wf(slots[i := s], hash)
  {
    var next := slots[i := s];
    assert Clear(next, hash(s.pointer), r);
    forall j | 0 <= j < POINTER_TABLE_SIZE && Real(next[j].pointer) ensures Reachable(next, hash(next[j].pointer), j) {
      if j != i { ReachableAfter(slots, i, s, hash(slots[j].pointer), j); }
    }
  }

  lemma PutContents(slots: Slots, i: nat, s: Slot)
    requires Unique(slots) && i < POINTER_TABLE_SIZE && Real(s.pointer) && !Real(slots[i].pointer)
    requires forall k :: 0 <= k < POINTER_TABLE_SIZE ==> slots[k].pointer != s.pointer
    ensures Contents(slots[i := s]) == Contents(slots)[s.pointer := (s.size, s.device)]
  {
    var next: Slots := slots[i := s];
    assert Unique(next);
    forall p ensures p in Contents(next) <==> p == s.pointer || p in Contents(slots) {
      ContentsMeans(next, p);
      ContentsMeans(slots, p);
      assert Occupies(next, i, s.pointer);
      if j :| Occupies(slots, j, p) && Real(p) { assert Occupies(next, j, p); }
      if j :| Occupies(next, j, p) && p != s.pointer { assert Occupies(slots, j, p); }
    }
    forall p | p in Contents(next) ensures Contents(next)[p] == Contents(slots)[s.pointer := (s.size, s.device)][p] {
      ContentsMeans(next, p);
      var j :| Occupies(next, j, p);
      ContentsAt(next, j);
      if p != s.pointer { ContentsAt(slots, j); }
    }
  }

  // ---------------------------------------------------------------- removal

  lemma {:induction false} RemoveProbeStops(slots: Slots, start: nat, pointer: nat, probe: nat)
    requires start < POINTER_TABLE_SIZE
    requires probe <= POINTER_TABLE_SIZE
    ensures var r := RemoveProbe(slots, start, pointer, probe);
      && (r < POINTER_TABLE_SIZE ==>
            slots[Index(start, r)].pointer == pointer || slots[Index(start, r)].pointer == FREE)
      && forall k :: probe <= k < r ==>
            slots[Index(start, k)].pointer != FREE && slots[Index(start, k)].pointer != pointer
    decreases POINTER_TABLE_SIZE - probe
  {
    if probe < POINTER_TABLE_SIZE {
      RemoveProbeStops(slots, start, pointer, probe + 1);
    }
  }

  /** Where a present pointer sits, and the probe that meets it before any slot never used. */
  lemma Located(slots: Slots, hash: Hash, p: nat) returns (q: nat)
    requires Wf(slots, hash) && p in Contents(slots)
    ensures q < POINTER_TABLE_SIZE && slots[Index(hash(p), q)].pointer == p && Clear(slots, hash(p), q)
  {
    ContentsMeans(slots, p);
    var i :| Occupies(slots, i, p);
    assert Reachable(slots, hash(p), i);
    q :| 0 <= q < POINTER_TABLE_SIZE && Index(hash(p), q) == i && Clear(slots, hash(p), q);
  }

  lemma ProbingFindsPresent(slots: Slots, hash: Hash, p: nat)
    requires Wf(slots, hash) && Real(p) && p in Contents(slots)
    ensures var r := RemoveProbe(slots, hash(p), p, 0);
      r < POINTER_TABLE_SIZE && slots[Index(hash(p), r)].pointer == p
  {
    RemoveProbeStops(slots, hash(p), p, 0);
    var q := Located(slots, hash, p);
    if q < RemoveProbe(slots, hash(p), p, 0) { assert false; }
  }

  function Bury(slots: Slots, i: nat): Slots
    requires i < POINTER_TABLE_SIZE
  {
    slots[i := slots[i].(pointer := TOMBSTONE, size := 0)]
  }

  lemma BuryKeeps(slots: Slots, hash: Hash, i: nat)
    requires Wf(slots, hash) && i < POINTER_TABLE_SIZE && Real(slots[i].pointer)
    ensures Wf(Bury(slots, i), hash)
  {
    var next := Bury(slots, i);
    forall j | 0 <= j < POINTER_TABLE_SIZE && Real(next[j].pointer) ensures Reachable(next, hash(next[j].pointer), j) {
      ReachableAfter(slots, i, next[i], hash(slots[j].pointer), j);
    }
  }

  lemma BuryContents(slots: Slots, i: nat)
    requires Unique(slots) && i < POINTER_TABLE_SIZE && Real(slots[i].pointer)
    ensures Contents(Bury(slots, i)) == Contents(slots) - {slots[i].pointer}
  {
    var next := Bury(slots, i);
    assert Unique(next);
    forall p ensures p in Contents(next) <==> p != slots[i].pointer && p in Contents(slots) {
      ContentsMeans(next, p);
      ContentsMeans(slots, p);
      if j :| Occupies(slots, j, p) && p != slots[i].pointer { assert Occupies(next, j, p); }
      if j :| Occupies(next, j, p) && Real(p) { assert Occupies(slots, j, p); }
    }
    forall p | p in Contents(next) ensures Contents(next)[p] == Contents(slots)[p] {
      ContentsMeans(next, p);
      var j :| Occupies(next, j, p);
      ContentsAt(next, j);
      ContentsAt(slots, j);
    }
  }

  lemma RemoveAbsent(slots: Slots, hash: Hash, p: nat)
    requires Real(p) && p !in Contents(slots)
    ensures Removed(slots, hash, p) == (slots, Absent)
  {
    AbsentEverywhere(slots, p);
    RemoveProbeStops(slots, hash(p), p, 0);
  }

  lemma RemovePresent(slots: Slots, hash: Hash, p: nat) returns (i: nat)
    requires Wf(slots, hash) && Real(p) && p in Contents(slots)
    ensures i < POINTER_TABLE_SIZE && slots[i].pointer == p
    ensures Removed(slots, hash, p) == (Bury(slots, i), Present(slots[i].size, slots[i].device))
  {
    ProbingFindsPresent(slots, hash, p);
    i := Index(hash(p), RemoveProbe(slots, hash(p), p, 0));
  }

  /** Removing succeeds exactly for present pointers, reports what was recorded, and takes the entry out. */
  lemma RemoveRefines(slots: Slots, hash: Hash, p: nat)
    requires Wf(slots, hash) && Real(p)
    ensures var (next, taken) := Removed(slots, hash, p);
      && Wf(next, hash)
      && Contents(next) == Contents(slots) - {p}
      && taken == if p in Contents(slots) then Present(Contents(slots)[p].0, Contents(slots)[p].1) else Absent
  {
    hide Wf, Removed, Contents;
    if p in Contents(slots) {
      RemoveTakesOut(slots, hash, p);
    } else {
      RemoveAbsent(slots, hash, p);
    }
  }

  lemma RemoveTakesOut(slots: Slots, hash: Hash, p: nat)
    requires Wf(slots, hash) && Real(p) && p in Contents(slots)
    ensures var (next, taken) := Removed(slots, hash, p);
      && Wf(next, hash)
      && Contents(next) == Contents(slots) - {p}
      && taken == Present(Contents(slots)[p].0, Contents(slots)[p].1)
  {
    assert Unique(slots);
    hide Wf, Removed, Bury, Unique, Contents;
    var i := RemovePresent(slots, hash, p);
    ContentsAt(slots, i);
    BuryKeeps(slots, hash, i);
    BuryContents(slots, i);
  }

  // ---------------------------------------------------------------- inserting a pointer that is present

  /** An unused or buried slot comes before the pointer's own on its probe path. */
  predicate RoomBefore(slots: Slots, start: nat, p: nat)
    requires start < POINTER_TABLE_SIZE
  {
    exists q :: 0 <= q < POINTER_TABLE_SIZE && !Real(slots[Index(start, q)].pointer) &&
      forall k :: 0 <= k <= q ==> slots[Index(start, k)].pointer != p
  }

  /**
    Inserting a present pointer is refused exactly when no tombstone comes before it on its
    probe path; otherwise the table lists the pointer twice.
  */
  lemma DuplicateIffRoomBefore(slots: Slots, hash: Hash, p: nat, size: nat, device: int)
    requires Wf(slots, hash) && Real(p) && p in Contents(slots)
    ensures var (next, ok) := Inserted(slots, hash, p, size, device);
      && (ok <==> RoomBefore(slots, hash(p), p))
      && (!ok ==> next == slots)
      && (ok ==> !Unique(next))
  {
    var q := Located(slots, hash, p);
    hide Wf, Contents, Unique;
    var r := StopsBy(slots, hash(p), p, q);
    hide InsertProbe;
    var i, taken := Index(hash(p), q), Index(hash(p), r);
    if slots[taken].pointer != p {
      assert RoomBefore(slots, hash(p), p);
      TwiceIsNotUnique(slots[taken := Slot(p, size, device)], i, taken);
    } else {
      NoRoomBefore(slots, hash(p), p, r);
    }
  }

  /** An insertion's probing stops no later than at the pointer. */
  lemma StopsBy(slots: Slots, start: nat, p: nat, q: nat) returns (r: nat)
    requires start < POINTER_TABLE_SIZE && q < POINTER_TABLE_SIZE && slots[Index(start, q)].pointer == p
    ensures r == InsertProbe(slots, start, p, 0) <= q
    ensures slots[Index(start, r)].pointer == p || !Real(slots[Index(start, r)].pointer)
    ensures forall k :: 0 <= k < r ==> Real(slots[Index(start, k)].pointer) && slots[Index(start, k)].pointer != p
  {
    r := InsertProbe(slots, start, p, 0);
    InsertProbeStops(slots, start, p, 0);
    hide InsertProbe;
  }

  lemma TwiceIsNotUnique(slots: Slots, i: nat, j: nat)
    requires i < POINTER_TABLE_SIZE && j < POINTER_TABLE_SIZE && i != j
    requires slots[i].pointer == slots[j].pointer && Real(slots[i].pointer)
    ensures !Unique(slots)
  {
    var a, b := if i < j then i else j, if i < j then j else i;
    assert slots[a].pointer == slots[b].pointer;
  }

  lemma NoRoomBefore(slots: Slots, start: nat, p: nat, r: nat)
    requires start < POINTER_TABLE_SIZE && r < POINTER_TABLE_SIZE && slots[Index(start, r)].pointer == p
    requires forall k :: 0 <= k < r ==> Real(slots[Index(start, k)].pointer)
    ensures Real(p) ==> !RoomBefore(slots, start, p)
  {}

  // ---------------------------------------------------------------- the count and whole runs

  function InUse(slots: Slots, k: nat): nat
    requires k <= POINTER_TABLE_SIZE
  {
    if k == 0 then 0 else InUse(slots, k - 1) + if Real(slots[k - 1].pointer) then 1 else 0
  }

  lemma {:induction false} InUseIsKeys(slots: Slots, k: nat)
    requires Unique(slots) && k <= POINTER_TABLE_SIZE
    ensures InUse(slots, k) == |Keys(slots, k)|
  {
    if k > 0 {
      InUseIsKeys(slots, k - 1);
      KeysMeans(slots, k - 1, slots[k - 1].pointer);
    }
  }

  lemma {:induction false} InUseBound(slots: Slots, k: nat)
    requires k <= POINTER_TABLE_SIZE
    ensures InUse(slots, k) <= k
    ensures InUse(slots, k) == k <==> forall i :: 0 <= i < k ==> Real(slots[i].pointer)
  {
    if k > 0 {
      InUseBound(slots, k - 1);
    }
  }

  /** A table is full exactly when its map has as many entries as there are slots. */
  lemma FullIsCapacity(slots: Slots)
    requires Unique(slots)
    ensures Full(slots) <==> |Contents(slots)| == POINTER_TABLE_SIZE
    ensures |Contents(slots)| == InUse(slots, POINTER_TABLE_SIZE) <= POINTER_TABLE_SIZE
  {
    InUseIsKeys(slots, POINTER_TABLE_SIZE);
    InUseBound(slots, POINTER_TABLE_SIZE);
    assert Contents(slots).Keys == Keys(slots, POINTER_TABLE_SIZE);
  }

  datatype Op = Insert(pointer: nat, size: nat, device: int) | Remove(pointer: nat)

  datatype Reply = Accepted | Refused | Gave(taken: Taken)

  function TableStep(slots: Slots, hash: Hash, op: Op): (Slots, Reply) {
    match op
    case Insert(p, size, device) =>
      var (next, ok) := Inserted(slots, hash, p, size, device);
      (next, if ok then Accepted else Refused)
    case Remove(p) =>
      var (next, taken) := Removed(slots, hash, p);
      (next, Gave(taken))
  }

  /** The same operation on a map bounded by the table's capacity. */
  function MapStep(m: map<nat, (nat, int)>, op: Op): (map<nat, (nat, int)>, Reply) {
    match op
    case Insert(p, size, device) =>
      if |m| < POINTER_TABLE_SIZE then (m[p := (size, device)], Accepted) else (m, Refused)
    case Remove(p) =>
      (m - {p}, Gave(if p in m then Present(m[p].0, m[p].1) else Absent))
  }

  function TableReplies(slots: Slots, hash: Hash, ops: seq<Op>): seq<Reply>
    decreases |ops|
  {
    if ops == [] then []
    else
      var (next, reply) := TableStep(slots, hash, ops[0]);
      [reply] + TableReplies(next, hash, ops[1..])
  }

  function MapReplies(m: map<nat, (nat, int)>, ops: seq<Op>): seq<Reply>
    decreases |ops|
  {
    if ops == [] then []
    else
      var (next, reply) := MapStep(m, ops[0]);
      [reply] + MapReplies(next, ops[1..])
  }

  /** Every pointer is real, and each is inserted only while absent. */
  predicate FreshRun(m: map<nat, (nat, int)>, ops: seq<Op>)
    decreases |ops|
  {
    ops == [] ||
    (Real(ops[0].pointer) && (ops[0].Insert? ==> ops[0].pointer !in m) && FreshRun(MapStep(m, ops[0]).0, ops[1..]))
  }

  /** For any hash, a run of fresh inserts and any removes gets from the table the answers a map would give. */
  lemma {:induction false} TableRefinesMap(slots: Slots, hash: Hash, ops: seq<Op>)
    requires Wf(slots, hash) && FreshRun(Contents(slots), ops)
    ensures TableReplies(slots, hash, ops) == MapReplies(Contents(slots), ops)
    decreases |ops|
  {
    if ops != [] {
      var next := TableStep(slots, hash, ops[0]).0;
      match ops[0] {
        case Insert(p, size, device) =>
          InsertRefines(slots, hash, p, size, device);
          FullIsCapacity(slots);
        case Remove(p) =>
          RemoveRefines(slots, hash, p);
      }
      TableRefinesMap(next, hash, ops[1..]);
    }
  }

  // ---------------------------------------------------------------- a present pointer inserted again

  const Empty: Slots := seq(POINTER_TABLE_SIZE, i => Slot(FREE, 0, 0))

  lemma StepAtStart(slots: Slots, hash: Hash, op: Op)
    requires var found := slots[hash(op.pointer)].pointer;
      if op.Insert? then found != op.pointer && !Real(found) else found == op.pointer && Real(found)
    ensures var start := hash(op.pointer);
      TableStep(slots, hash, op) == match op
        case Insert(p, size, device) => (slots[start := Slot(p, size, device)], Accepted)
        case Remove(p) => (Bury(slots, start), Gave(Present(slots[start].size, slots[start].device)))
  {
    assert Index(hash(op.pointer), 0) == hash(op.pointer);
  }

  lemma StepAtSecond(slots: Slots, hash: Hash, op: Op)
    requires var (first, second) := (slots[hash(op.pointer)].pointer, slots[Index(hash(op.pointer), 1)].pointer);
      && first != op.pointer
      && if op.Insert? then Real(first) && second != op.pointer && !Real(second) else first != FREE && second == op.pointer && Real(second)
    ensures var i := Index(hash(op.pointer), 1);
      TableStep(slots, hash, op) == match op
        case Insert(p, size, device) => (slots[i := Slot(p, size, device)], Accepted)
        case Remove(p) => (Bury(slots, i), Gave(Present(slots[i].size, slots[i].device)))
  {
    assert Index(hash(op.pointer), 0) == hash(op.pointer);
  }

  /** What a map would never do: after a tombstone, a pointer inserted twice is given out by two removals. */
  lemma DuplicateIsReached(hash: Hash, a: nat, p: nat)
    requires Real(a) && Real(p) && a != p && hash(a) == hash(p)
    ensures TableReplies(Empty, hash, [Insert(a, 1, 0), Insert(p, 2, 0), Remove(a), Insert(p, 3, 0), Remove(p), Remove(p)]) ==
            [Accepted, Accepted, Gave(Present(1, 0)), Accepted, Gave(Present(3, 0)), Gave(Present(2, 0))]
  {
    var i, j := hash(a), Index(hash(a), 1);
    var s1 := Empty[i := Slot(a, 1, 0)];
    var s2 := s1[j := Slot(p, 2, 0)];
    var s3 := Bury(s2, i);
    var s4 := s3[i := Slot(p, 3, 0)];
    var s5 := Bury(s4, i);
    StepAtStart(Empty, hash, Insert(a, 1, 0));
    StepAtSecond(s1, hash, Insert(p, 2, 0));
    StepAtStart(s2, hash, Remove(a));
    StepAtStart(s3, hash, Insert(p, 3, 0));
    StepAtStart(s4, hash, Remove(p));
    StepAtSecond(s5, hash, Remove(p));
    hide TableStep, Bury, Index;
    SixReplies(Empty, hash, [Insert(a, 1, 0), Insert(p, 2, 0), Remove(a), Insert(p, 3, 0), Remove(p), Remove(p)]);
  }

  lemma SixReplies(slots: Slots, hash: Hash, ops: seq<Op>)
    requires |ops| == 6
    ensures var s1 := TableStep(slots, hash, ops[0]);
      var s2 := TableStep(s1.0, hash, ops[1]);
      var s3 := TableStep(s2.0, hash, ops[2]);
      var s4 := TableStep(s3.0, hash, ops[3]);
      var s5 := TableStep(s4.0, hash, ops[4]);
      TableReplies(slots, hash, ops) == [s1.1, s2.1, s3.1, s4.1, s5.1, TableStep(s5.0, hash, ops[5]).1]
  {
    hide TableStep;
    var s1 := TableStep(slots, hash, ops[0]).0;
    var s2 := TableStep(s1, hash, ops[1]).0;
    var s3 := TableStep(s2, hash, ops[2]).0;
    var s4 := TableStep(s3, hash, ops[3]).0;
    var s5 := TableStep(s4, hash, ops[4]).0;
    assert TableReplies(s5, hash, ops[5..]) == [TableStep(s5, hash, ops[5]).1];
    assert ops[4..][1..] == ops[5..] && TableReplies(s4, hash, ops[4..]) == [TableStep(s4, hash, ops[4]).1] + TableReplies(s5, hash, ops[5..]);
    assert ops[3..][1..] == ops[4..] && TableReplies(s3, hash, ops[3..]) == [TableStep(s3, hash, ops[3]).1] + TableReplies(s4, hash, ops[4..]);
    assert ops[2..][1..] == ops[3..] && TableReplies(s2, hash, ops[2..]) == [TableStep(s2, hash, ops[2]).1] + TableReplies(s3, hash, ops[3..]);
    assert ops[1..][1..] == ops[2..] && TableReplies(s1, hash, ops[1..]) == [TableStep(s1, hash, ops[1]).1] + TableReplies(s2, hash, ops[2..]);
  }

  // ---------------------------------------------------------------- the table in place

  class PointerTable {
    const slots: array<Slot>
    const hash: Hash
    var count: int

    constructor (hash: Hash)
      ensures Valid() && fresh(slots) && this.hash == hash
      ensures Contents(slots[..]) == map[]
    {
      slots := new Slot[POINTER_TABLE_SIZE](_ => Slot(FREE, 0, 0));
      this.hash := hash;
      count := 0;
      new;
      EmptyTable(slots[..]);
    }

    ghost predicate Valid()
      reads this, slots
    {
      slots.Length == POINTER_TABLE_SIZE && Wf(slots[..], hash) && count == |Contents(slots[..])|
    }

    method Insert(pointer: nat, size: nat, device: int) returns (ok: bool)
      requires slots.Length == POINTER_TABLE_SIZE
      modifies this`count, slots
      ensures (slots[..], ok) == Inserted(old(slots[..]), hash, pointer, size, device)
      ensures count == old(count) + if ok then 1 else 0
      ensures old(Valid()) && Real(pointer) && pointer !in old(Contents(slots[..])) ==> Valid()
    {
      var start := hash(pointer);
      ghost var was: Slots := slots[..];
      for probe := 0 to POINTER_TABLE_SIZE
        invariant slots[..] == was
        invariant InsertProbe(was, start, pointer, 0) == InsertProbe(was, start, pointer, probe)
      {
        var i := Index(start, probe);
        if slots[i].pointer == pointer {
          CountAfterInsert(was, hash, pointer, size, device);
          return false;
        }
        if !Real(slots[i].pointer) {
          slots[i] := Slot(pointer, size, device);
          count := count + 1;
          assert slots[..] == was[i := Slot(pointer, size, device)];
          CountAfterInsert(was, hash, pointer, size, device);
          return true;
        }
      }
      CountAfterInsert(was, hash, pointer, size, device);
      return false;
    }

    /** The removal's probe loop. */
    method ProbeFor(pointer: nat) returns (probe: nat)
      requires slots.Length == POINTER_TABLE_SIZE
      ensures probe == RemoveProbe(slots[..], hash(pointer), pointer, 0)
    {
      var start := hash(pointer);
      ghost var all: Slots := slots[..];
      probe := 0;
      while probe < POINTER_TABLE_SIZE
        invariant probe <= POINTER_TABLE_SIZE
        invariant RemoveProbe(all, start, pointer, 0) == RemoveProbe(all, start, pointer, probe)
      {
        var i := Index(start, probe);
        assert slots[i] == all[i];
        if slots[i].pointer == FREE || slots[i].pointer == pointer {
          return probe;
        }
        probe := probe + 1;
      }
    }

    method Remove(pointer: nat) returns (taken: Taken)
      requires Valid() && Real(pointer)
      modifies this`count, slots
      ensures Valid()
      ensures (slots[..], taken) == Removed(old(slots[..]), hash, pointer)
    {
      var probe := ProbeFor(pointer);
      CountAfterRemove(slots[..], hash, pointer);
      var i := Index(hash(pointer), probe);
      if probe == POINTER_TABLE_SIZE || slots[i].pointer == FREE {
        return Absent;
      }
      taken := Present(slots[i].size, slots[i].device);
      slots[i] := slots[i].(pointer := TOMBSTONE, size := 0);
      count := count - 1;
      assert slots[..] == old(slots[..])[i := old(slots[i]).(pointer := TOMBSTONE, size := 0)];
    }
  }

  lemma EmptyTable(slots: Slots)
    requires forall i :: 0 <= i < POINTER_TABLE_SIZE ==> slots[i].pointer == FREE
    ensures Contents(slots) == map[]
  {
    forall p ensures p !in Contents(slots) { ContentsMeans(slots, p); }
  }

  lemma CountAfterInsert(slots: Slots, hash: Hash, p: nat, size: nat, device: int)
    ensures Wf(slots, hash) && Real(p) && p !in Contents(slots) ==>
      var (next, ok) := Inserted(slots, hash, p, size, device);
      Wf(next, hash) && |Contents(next)| == |Contents(slots)| + if ok then 1 else 0
  {
    if Wf(slots, hash) && Real(p) && p !in Contents(slots) {
      InsertRefines(slots, hash, p, size, device);
    }
  }

  lemma CountAfterRemove(slots: Slots, hash: Hash, p: nat)
    requires Wf(slots, hash) && Real(p)
    ensures var (next, taken) := Removed(slots, hash, p);
      Wf(next, hash) && |Contents(next)| == |Contents(slots)| - if taken.Present? then 1 else 0
  {
    RemoveRefines(slots, hash, p);
    var m := Contents(slots);
    if p in m { assert m.Keys == (m - {p}).Keys + {p}; } else { assert m - {p} == m; }
  }
}
