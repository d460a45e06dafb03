/**
  Allocations that outlive their scope (src/malloc-rogue.c): the global lists of rogues and of
  candidates, the hand-off of a candidate with its physical pages, and its late free, step by
  step under the allocations lock.
*/
module RogueModel {
  import opened RefModel

  datatype Rogue = Rogue(id: nat, range: nat, ptr: nat, pages: seq<nat>, freeing: bool)

  datatype Candidate = Candidate(ptr: nat, freed: bool)

  datatype Registry = Registry(rogues: seq<Rogue>, candidates: seq<Candidate>)

  // ---------------------------------------------------------------- the two lists

  function FindRogue(rogues: seq<Rogue>, ptr: nat, i: nat): (r: nat)
    requires i <= |rogues|
    ensures i <= r <= |rogues| && (r < |rogues| ==> rogues[r].ptr == ptr)
    ensures forall j :: i <= j < r ==> rogues[j].ptr != ptr
    decreases |rogues| - i
  {
    if i == |rogues| || rogues[i].ptr == ptr then i else FindRogue(rogues, ptr, i + 1)
  }

  function FindCandidate(candidates: seq<Candidate>, ptr: nat, i: nat): (r: nat)
    requires i <= |candidates|
    ensures i <= r <= |candidates| && (r < |candidates| ==> candidates[r].ptr == ptr)
    ensures forall j :: i <= j < r ==> candidates[j].ptr != ptr
    decreases |candidates| - i
  {
    if i == |candidates| || candidates[i].ptr == ptr then i else FindCandidate(candidates, ptr, i + 1)
  }

  /** The newest candidate registered for the pointer is at position `i`. */
  predicate FirstCandidate(candidates: seq<Candidate>, ptr: nat, i: int) {
    0 <= i < |candidates| && candidates[i].ptr == ptr && forall j :: 0 <= j < i ==> candidates[j].ptr != ptr
  }

  predicate FirstRogue(rogues: seq<Rogue>, ptr: nat, i: int) {
    0 <= i < |rogues| && rogues[i].ptr == ptr && forall j :: 0 <= j < i ==> rogues[j].ptr != ptr
  }

  predicate NoCandidate(candidates: seq<Candidate>, ptr: nat) {
    forall j :: 0 <= j < |candidates| ==> candidates[j].ptr != ptr
  }

  function RemoveAt<T>(s: seq<T>, i: nat): seq<T>
    requires i < |s|
  {
    s[..i] + s[i + 1..]
  }

  function Register(g: Registry, ptr: nat): Registry {
    g.(candidates := [Candidate(ptr, false)] + g.candidates)
  }

  function Unregister(g: Registry, ptr: nat): Registry {
    var i := FindCandidate(g.candidates, ptr, 0);
    if i < |g.candidates| then g.(candidates := RemoveAt(g.candidates, i)) else g
  }

  datatype Decision = Unknown | FreedAlready | Owned

  /** A hand-off takes its candidate off the list; a candidate still live becomes a rogue. */
  function Decide(g: Registry, rogue: Rogue): (Registry, Decision) {
    var i := FindCandidate(g.candidates, rogue.ptr, 0);
    if i == |g.candidates| then (g, Unknown)
    else
      var rest := g.(candidates := RemoveAt(g.candidates, i));
      if g.candidates[i].freed then (rest, FreedAlready)
      else (rest.(rogues := [rogue] + g.rogues), Owned)
  }

  datatype FreeStart = NotMine | Noted | AlreadyFreeing | Begins(index: nat)

  /** The first half of a late free: a candidate is only marked, a rogue is claimed by one caller. */
  function BeginFree(g: Registry, ptr: nat): (Registry, FreeStart) {
    var i := FindRogue(g.rogues, ptr, 0);
    if i == |g.rogues| then
      var c := FindCandidate(g.candidates, ptr, 0);
      if c == |g.candidates| then (g, NotMine)
      else (g.(candidates := g.candidates[c := g.candidates[c].(freed := true)]), Noted)
    else if g.rogues[i].freeing then (g, AlreadyFreeing)
    else (g.(rogues := g.rogues[i := g.rogues[i].(freeing := true)]), Begins(i))
  }

  function FindId(rogues: seq<Rogue>, id: nat, i: nat): (r: nat)
    requires i <= |rogues|
    ensures i <= r <= |rogues| && (r < |rogues| ==> rogues[r].id == id)
    ensures forall j :: i <= j < r ==> rogues[j].id != id
    decreases |rogues| - i
  {
    if i == |rogues| || rogues[i].id == id then i else FindId(rogues, id, i + 1)
  }

  function EndFree(g: Registry, id: nat): Registry {
    var i := FindId(g.rogues, id, 0);
    if i < |g.rogues| then g.(rogues := RemoveAt(g.rogues, i)) else g
  }

  // ---------------------------------------------------------------- virtual ranges

  datatype Range = Range(address: nat, refs: nat)

  /** Giving up a reference to a range; the last one frees the addresses unless the driver refuses. */
  function RangeUnref(ranges: map<nat, Range>, r: nat, ok: bool): map<nat, Range>
    requires r in ranges
  {
    if ranges[r].refs > 1 then ranges[r := ranges[r].(refs := ranges[r].refs - 1)]
    else if ok then ranges - {r}
    else ranges
  }

  // ---------------------------------------------------------------- threads

  /** Who will drop a reference: the graph, the hand-off or rogue of some number, or nobody any more. */
  datatype Owner = Graph | By(id: nat) | Lost

  /** A hand-off under way: references made so far, addresses given so far, and whether it is being undone. */
  datatype Stage = Making | Naming(next: nat) | Ranged | Undoing(next: nat, ranged: bool)

  datatype Handoff = Handoff(range: nat, ptr: nat, first: nat, bytes: nat, sources: seq<nat>, made: seq<nat>, stage: Stage)

  /**
    `drops` lists every reference that a hand-off or a late free tried to drop, in order;
    `holders` names who holds each range.
  */
  datatype World = World(
    store: Store,
    ranges: map<nat, Range>,
    registry: Registry,
    handoffs: map<nat, Handoff>,
    freers: map<nat, nat>,
    owner: map<nat, Owner>,
    holders: map<nat, set<Owner>>,
    drops: seq<nat>,
    nextId: nat)

  datatype Step =
    | GraphCreate(bytes: nat)
    | GraphRef(page: nat)
    | GraphMap(page: nat, address: nat, mapOk: bool, accessOk: bool, reply: Reply)
    | GraphUnref(page: nat, reply: Reply)
    | GraphRange(address: nat)
    | GraphLeave(range: nat, ok: bool)
    | RegisterStep(ptr: nat)
    | UnregisterStep(ptr: nat)
    | HandoffStart(range: nat, ptr: nat, sources: seq<nat>)
    | HandoffRef(id: nat, hostOk: bool)
    | HandoffName(id: nat)
    | HandoffRange(id: nat)
    | HandoffDecide(id: nat)
    | HandoffUndo(id: nat, reply: Reply, rangeOk: bool)
    | FreeBegin(ptr: nat)
    | FreePage(id: nat, reply: Reply)
    | FreeEnd(id: nat, rangeOk: bool)

  function Initial(): World {
    World(Empty(), map[], Registry([], []), map[], map[], map[], map[], [], 0)
  }

  predicate Live(s: Store, page: nat) {
    page in s.refs && s.refs[page].alloc in s.allocs
  }

  /** Dropping a reference: it is lost to its owner whether or not the driver let it go. */
  function DropPage(w: World, page: nat, reply: Reply): World
    requires Live(w.store, page)
  {
    w.(store := PageUnref(w.store, page, reply).0, owner := w.owner[page := Lost], drops := w.drops + [page])
  }

  function LeaveRange(w: World, range: nat, holder: Owner, ok: bool): World
    requires range in w.ranges
  {
    w.(ranges := RangeUnref(w.ranges, range, ok),
       holders := if range in w.holders && (w.ranges[range].refs > 1 || ok) then w.holders[range := w.holders[range] - {holder}]
                  else w.holders)
  }

  function SetHandoff(w: World, id: nat, h: Handoff): World {
    w.(handoffs := w.handoffs[id := h])
  }

  function RogueOf(w: World, id: nat): Rogue
    requires id in w.handoffs
  {
    Rogue(id, w.handoffs[id].range, w.handoffs[id].ptr, w.handoffs[id].made, false)
  }

  /** The address of the page under the pointer, for pages of the given size counted from the range's start. */
  function FirstAddress(ptr: nat, base: nat, bytes: nat): nat
    requires ptr >= base && bytes > 0
  {
    ptr - (ptr - base) % bytes
  }

  predicate ByGraph(s: Step) {
    s.GraphCreate? || s.GraphRef? || s.GraphMap? || s.GraphUnref? || s.GraphRange? || s.GraphLeave? ||
    s.RegisterStep? || s.UnregisterStep?
  }

  predicate ByFree(s: Step) {
    s.FreeBegin? || s.FreePage? || s.FreeEnd?
  }

  /** The address of one of a hand-off's pages. */
  function AddressOf(h: Handoff, page: nat): nat {
    h.first + page * h.bytes
  }

  /** When the graph, on its own, may make a call. */
  predicate GraphMay(w: World, s: Step) {
    match s
    case GraphRef(page) => Live(w.store, page) && page in w.owner && w.owner[page] == Graph
    case GraphMap(page, address, mapOk, accessOk, reply) =>
      && Live(w.store, page) && page in w.owner && w.owner[page] == Graph
      && address != 0 && (mapOk ==> address !in w.store.mapped)
    case GraphUnref(page, reply) => Live(w.store, page) && page in w.owner && w.owner[page] == Graph
    case GraphLeave(range, ok) => range in w.ranges && range in w.holders && Graph in w.holders[range]
    case _ => true
  }

  predicate HandoffMay(w: World, s: Step) {
    match s
    case HandoffStart(range, ptr, sources) =>
      && range in w.ranges && range in w.holders && Graph in w.holders[range] && w.ranges[range].address <= ptr
      && sources != [] && Live(w.store, sources[0]) && w.store.allocs[w.store.refs[sources[0]].alloc].bytes > 0
    case HandoffRef(id, hostOk) =>
      && id in w.handoffs && w.handoffs[id].stage.Making? && |w.handoffs[id].made| < |w.handoffs[id].sources|
      && (hostOk ==> Live(w.store, w.handoffs[id].sources[|w.handoffs[id].made|]))
    case HandoffName(id) =>
      && id in w.handoffs && w.handoffs[id].stage.Naming? && w.handoffs[id].stage.next < |w.handoffs[id].made|
      && MayName(w, w.handoffs[id])
    case HandoffRange(id) =>
      && id in w.handoffs && w.handoffs[id].stage == Naming(|w.handoffs[id].made|)
      && w.handoffs[id].range in w.ranges && w.handoffs[id].range in w.holders
    case HandoffDecide(id) => id in w.handoffs && w.handoffs[id].stage.Ranged?
    case HandoffUndo(id, reply, rangeOk) =>
      && id in w.handoffs && w.handoffs[id].stage.Undoing?
      && (w.handoffs[id].stage.next < |w.handoffs[id].made| ==> Live(w.store, w.handoffs[id].made[w.handoffs[id].stage.next]))
      && (w.handoffs[id].stage.ranged ==> w.handoffs[id].range in w.ranges)
    case _ => true
  }

  predicate FreeMay(w: World, s: Step) {
    match s
    case FreePage(id, reply) =>
      && id in w.freers && FindId(w.registry.rogues, id, 0) < |w.registry.rogues|
      && w.freers[id] < |w.registry.rogues[FindId(w.registry.rogues, id, 0)].pages|
      && Live(w.store, w.registry.rogues[FindId(w.registry.rogues, id, 0)].pages[w.freers[id]])
    case FreeEnd(id, rangeOk) =>
      && id in w.freers && FindId(w.registry.rogues, id, 0) < |w.registry.rogues|
      && w.freers[id] == |w.registry.rogues[FindId(w.registry.rogues, id, 0)].pages|
      && w.registry.rogues[FindId(w.registry.rogues, id, 0)].range in w.ranges
    case _ => true
  }

  predicate May(w: World, s: Step) {
    if ByGraph(s) then GraphMay(w, s) else if ByFree(s) then FreeMay(w, s) else HandoffMay(w, s)
  }

  /** The caller's pages back the address that the next reference is given. */
  predicate MayName(w: World, h: Handoff)
    requires h.stage.Naming? && h.stage.next < |h.made|
  {
    var r, address := h.made[h.stage.next], AddressOf(h, h.stage.next);
    r in w.store.refs && w.store.refs[r].address == 0 && address in w.store.mapped &&
    w.store.mapped[address] == w.store.refs[r].alloc
  }

  function HandoffDo(w: World, s: Step): World
    requires HandoffMay(w, s)
  {
    match s
    case HandoffStart(range, ptr, sources) =>
      var bytes := w.store.allocs[w.store.refs[sources[0]].alloc].bytes;
      w.(handoffs := w.handoffs[w.nextId := Handoff(range, ptr, FirstAddress(ptr, w.ranges[range].address, bytes), bytes,
                                                    sources, [], Making)],
         nextId := w.nextId + 1)
    case HandoffRef(id, hostOk) =>
      var h := w.handoffs[id];
      if !hostOk then SetHandoff(w, id, h.(stage := Undoing(0, false)))
      else
        var (store, r) := PageRef(w.store, h.sources[|h.made|], 0);
        var made := h.made + [r];
        SetHandoff(w.(store := store, owner := w.owner[r := By(id)]), id,
                   h.(made := made, stage := if |made| == |h.sources| then Naming(0) else Making))
    case HandoffName(id) =>
      var h := w.handoffs[id];
      SetHandoff(w.(store := SetAddress(w.store, h.made[h.stage.next], AddressOf(h, h.stage.next))), id,
                 h.(stage := Naming(h.stage.next + 1)))
    case HandoffRange(id) =>
      var h := w.handoffs[id];
      var range := w.ranges[h.range];
      SetHandoff(w.(ranges := w.ranges[h.range := range.(refs := range.refs + 1)],
                    holders := w.holders[h.range := w.holders[h.range] + {By(id)}]), id, h.(stage := Ranged))
    case HandoffDecide(id) =>
      var (registry, decision) := Decide(w.registry, RogueOf(w, id));
      if decision == Owned then w.(registry := registry, handoffs := w.handoffs - {id})
      else SetHandoff(w.(registry := registry), id, w.handoffs[id].(stage := Undoing(0, true)))
    case HandoffUndo(id, reply, rangeOk) =>
      var h := w.handoffs[id];
      if h.stage.next < |h.made| then
        SetHandoff(DropPage(w, h.made[h.stage.next], reply), id, h.(stage := Undoing(h.stage.next + 1, h.stage.ranged)))
      else
        var left := w.(handoffs := w.handoffs - {id});
        if h.stage.ranged then LeaveRange(left, h.range, By(id), rangeOk) else left
    case _ => w
  }

  function FreeDo(w: World, s: Step): World
    requires FreeMay(w, s)
  {
    match s
    case FreeBegin(ptr) =>
      var (registry, start) := BeginFree(w.registry, ptr);
      if start.Begins? && start.index < |w.registry.rogues| then
        w.(registry := registry, freers := w.freers[w.registry.rogues[start.index].id := 0])
      else w.(registry := registry)
    case FreePage(id, reply) =>
      var rogue := w.registry.rogues[FindId(w.registry.rogues, id, 0)];
      DropPage(w, rogue.pages[w.freers[id]], reply).(freers := w.freers[id := w.freers[id] + 1])
    case FreeEnd(id, rangeOk) =>
      var rogue := w.registry.rogues[FindId(w.registry.rogues, id, 0)];
      LeaveRange(w.(registry := EndFree(w.registry, id), freers := w.freers - {id}), rogue.range, By(id), rangeOk)
    case _ => w
  }

  function GraphDo(w: World, s: Step): World
    requires GraphMay(w, s)
  {
    match s
    case GraphCreate(bytes) =>
      var (store, r) := PageAlloc(w.store, bytes);
      w.(store := store, owner := w.owner[r := Graph])
    case GraphRef(page) =>
      var (store, r) := PageRef(w.store, page, 0);
      w.(store := store, owner := w.owner[r := Graph])
    case GraphMap(page, address, mapOk, accessOk, reply) =>
      var (store, ok, r) := MapReference(w.store, page, address, mapOk, accessOk, reply);
      w.(store := store, owner := w.owner[r := if ok then Graph else Lost])
    case GraphUnref(page, reply) =>
      var (store, ok) := PageUnref(w.store, page, reply);
      w.(store := store, owner := if ok then w.owner[page := Lost] else w.owner)
    case GraphRange(address) =>
      w.(ranges := w.ranges[w.nextId := Range(address, 1)], holders := w.holders[w.nextId := {Graph}], nextId := w.nextId + 1)
    case GraphLeave(range, ok) => LeaveRange(w, range, Graph, ok)
    case RegisterStep(ptr) => w.(registry := Register(w.registry, ptr))
    case UnregisterStep(ptr) => w.(registry := Unregister(w.registry, ptr))
    case _ => w
  }

  function Next(w: World, s: Step): World {
    if !May(w, s) then w
    else if ByGraph(s) then GraphDo(w, s)
    else if ByFree(s) then FreeDo(w, s)
    else HandoffDo(w, s)
  }
}
