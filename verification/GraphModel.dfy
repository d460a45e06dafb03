/**
  The allocation-graph compiler (src/malloc-graph.c) as values.

  An event tree records what a frame did; replaying a frame walks a cursor down the tree.
  Events live in an arena and name each other by position.  A node means a state: the scope's
  snapshot with the events on the path from the scope applied to it.
*/
module GraphModel {

  const WORD: nat := 0x1_0000_0000_0000_0000
  const PAGE: nat := 0x80_0000
  const MAX_PAGES: nat := 8192
  const SMALL_PAGES: nat := 1024
  const SMALL_LIMIT: nat := 0x40_0000
  const SMALL_ALIGN: nat := 4096

  /** Rounding up to a power of two in 64-bit arithmetic, which wraps near the top. */
  function AlignUp(n: nat, a: nat): nat
    requires a > 0
  {
    var x := (n + a - 1) % WORD;
    x - x % a
  }

  /** Where an allocation starts: a virtual page, or a byte offset in the small heap. */
  datatype Loc = Large(va: nat) | Small(offset: nat)

  /** Pages of a large allocation, bytes of a small one. */
  function Units(loc: Loc, bytes: nat): nat {
    if loc.Large? then AlignUp(bytes, PAGE) / PAGE else AlignUp(bytes, SMALL_ALIGN)
  }

  /** A live allocation: its extent, the depth of the frame that owns it and the event that made it. */
  datatype Entry = Entry(units: nat, depth: nat, ev: nat)

  type Alloc = map<Loc, Entry>

  datatype Kind =
    | Scope(snapshot: Alloc, depth: nat)
    | Take(loc: Loc, bytes: nat)
    | Drop(loc: Loc)
    | Call(name: string, scope: nat)
    | End

  datatype Event = Event(kind: Kind, prev: nat, next: seq<nat>)

  type Events = seq<Event>

  /** A frame of the scope stack; `tracked` lists the allocations it has recorded and not freed, latest first. */
  datatype Frame = Frame(cursor: nat, tracked: seq<nat>, depth: nat, recording: bool, broken: bool)

  /** `vaPhys[va]` is the physical page behind a virtual page, or -1; `limit` is the size of the small heap. */
  datatype Space = Space(vaPhys: seq<int>, limit: nat)

  datatype Graph = Graph(es: Events, stack: seq<Frame>, alloc: Alloc, space: Space, physCount: nat, smallPages: nat,
                         assertBreaks: bool, failed: bool)

  // ---------------------------------------------------------------- the meaning of a node

  datatype Sem = Sem(alloc: Alloc, tracked: seq<nat>, depth: nat, scope: nat)

  function Untrack(tracked: seq<nat>, e: nat): seq<nat> {
    if tracked == [] then []
    else if tracked[0] == e then tracked[1..]
    else [tracked[0]] + Untrack(tracked[1..], e)
  }

  /** One event applied to a state. */
  function Apply(s: Sem, n: nat, kind: Kind): Sem {
    match kind
    case Take(loc, bytes) =>
      s.(alloc := s.alloc[loc := Entry(Units(loc, bytes), s.depth, n)], tracked := [n] + s.tracked)
    case Drop(loc) =>
      if loc in s.alloc then s.(alloc := s.alloc - {loc}, tracked := Untrack(s.tracked, s.alloc[loc].ev)) else s
    case _ => s
  }

  /** The snapshot of the node's scope with the path to the node applied. */
  function Meaning(es: Events, n: nat): Sem {
    if n >= |es| then Sem(map[], [], 0, 0)
    else if es[n].kind.Scope? then Sem(es[n].kind.snapshot, [], es[n].kind.depth, n)
    else if es[n].prev < n then Apply(Meaning(es, es[n].prev), n, es[n].kind)
    else Sem(map[], [], 0, 0)
  }

  // ---------------------------------------------------------------- finding and appending events

  datatype Key = KTake(large: bool, bytes: nat) | KDrop(loc: Loc) | KCall(name: string) | KEnd

  predicate Matches(kind: Kind, key: Key) {
    match (kind, key)
    case (Take(loc, bytes), KTake(large, wanted)) => loc.Large? == large && bytes == wanted
    case (Drop(loc), KDrop(wanted)) => loc == wanted
    case (Call(name, _), KCall(wanted)) => name == wanted
    case (End, KEnd) => true
    case _ => false
  }

  /** The position of the first child from `i` on that answers the key, or the number of children. */
  function FindChild(es: Events, next: seq<nat>, key: Key, i: nat): (r: nat)
    requires i <= |next|
    ensures i <= r <= |next|
    ensures r < |next| ==> next[r] < |es| && Matches(es[next[r]].kind, key)
    ensures forall j :: i <= j < r ==> !(next[j] < |es| && Matches(es[next[j]].kind, key))
    decreases |next| - i
  {
    if i == |next| || (next[i] < |es| && Matches(es[next[i]].kind, key)) then i
    else FindChild(es, next, key, i + 1)
  }

  datatype Found = Nothing | Child(node: nat)

  function Find(es: Events, cursor: nat, key: Key): (r: Found)
    requires cursor < |es|
    ensures r.Child? ==> r.node < |es| && Matches(es[r.node].kind, key) && r.node in es[cursor].next
  {
    var i := FindChild(es, es[cursor].next, key, 0);
    if i < |es[cursor].next| then Child(es[cursor].next[i]) else Nothing
  }

  function Append(es: Events, cursor: nat, kind: Kind): Events
    requires cursor < |es|
  {
    es[cursor := es[cursor].(next := es[cursor].next + [|es|])] + [Event(kind, cursor, [])]
  }

  // ---------------------------------------------------------------- what may be placed where

  predicate EntryOk(sp: Space, loc: Loc, units: nat) {
    && units > 0
    && (loc.Large? ==>
          && loc.va + units <= |sp.vaPhys|
          && (forall i :: loc.va <= i < loc.va + units ==> sp.vaPhys[i] >= 0)
          && (forall i, j :: loc.va <= i < j < loc.va + units ==> sp.vaPhys[i] != sp.vaPhys[j]))
    && (loc.Small? ==> loc.offset + units <= sp.limit)
  }

  /** The two allocations share no physical page and no byte of the small heap. */
  predicate Apart(sp: Space, l: Loc, lu: nat, k: Loc, ku: nat) {
    && (l.Large? && k.Large? && l.va + lu <= |sp.vaPhys| && k.va + ku <= |sp.vaPhys| ==>
          forall i, j :: l.va <= i < l.va + lu && k.va <= j < k.va + ku ==> sp.vaPhys[i] != sp.vaPhys[j])
    && (l.Small? && k.Small? ==> l.offset + lu <= k.offset || k.offset + ku <= l.offset)
  }

  predicate CanTake(sp: Space, a: Alloc, loc: Loc, units: nat) {
    && EntryOk(sp, loc, units)
    && loc !in a
    && forall k :: k in a ==> Apart(sp, loc, units, k, a[k].units)
  }

  predicate Grows(sp: Space, sp': Space) {
    sp.vaPhys <= sp'.vaPhys && sp.limit <= sp'.limit
  }

  // ---------------------------------------------------------------- the operations

  function Top(g: Graph): Frame
    requires g.stack != []
  {
    g.stack[|g.stack| - 1]
  }

  function WithTop(g: Graph, f: Frame): Graph
    requires g.stack != []
  {
    g.(stack := g.stack[|g.stack| - 1 := f])
  }

  function Fail(g: Graph): Graph {
    g.(failed := true)
  }

  /** A matched event: only the cursor moves. */
  function Advance(g: Graph, node: nat): Graph
    requires g.stack != []
  {
    WithTop(g, Top(g).(cursor := node))
  }

  /** A break: the state is rebuilt from the scope's snapshot and the path, and recording starts. */
  function StartRecording(g: Graph): Graph
    requires g.stack != []
  {
    if g.assertBreaks then Fail(g)
    else
      var s := Meaning(g.es, Top(g).cursor);
      WithTop(g.(alloc := s.alloc), Top(g).(tracked := s.tracked, recording := true, broken := true))
  }

  function Ready(g: Graph): Graph
    requires g.stack != []
  {
    if Top(g).recording then g else StartRecording(g)
  }

  /** Recording an allocation at a place that was chosen for it. */
  function RecordTake(g: Graph, loc: Loc, bytes: nat, space: Space, physCount: nat, smallPages: nat): Graph
    requires g.stack != [] && Top(g).cursor < |g.es|
  {
    var f, n := Top(g), |g.es|;
    WithTop(
      g.(es := Append(g.es, f.cursor, Take(loc, bytes)), space := space, physCount := physCount, smallPages := smallPages,
         alloc := g.alloc[loc := Entry(Units(loc, bytes), f.depth, n)]),
      f.(cursor := n, tracked := [n] + f.tracked))
  }

  /** Recording a free: refused for an allocation that is unknown or owned by another frame. */
  function RecordDrop(g: Graph, loc: Loc): Graph
    requires g.stack != [] && Top(g).cursor < |g.es|
  {
    var f, n := Top(g), |g.es|;
    if loc !in g.alloc || g.alloc[loc].depth != f.depth then Fail(g)
    else
      var appended := WithTop(g.(es := Append(g.es, f.cursor, Drop(loc))), f.(cursor := n));
      if g.alloc[loc].ev !in f.tracked then Fail(appended)
      else
        WithTop(appended.(alloc := g.alloc - {loc}), f.(cursor := n, tracked := Untrack(f.tracked, g.alloc[loc].ev)))
  }

  /** Entering a known scope. */
  function Enter(g: Graph, scope: nat): Graph
    requires g.stack != []
  {
    g.(stack := g.stack + [Frame(scope, [], Top(g).depth + 1, false, false)])
  }

  /** Recording a call: the node and its scope are added, and the scope's snapshot is taken. */
  function RecordCall(g: Graph, name: string): Graph
    requires g.stack != [] && Top(g).cursor < |g.es|
  {
    var n := |g.es|;
    g.(es := Append(g.es, Top(g).cursor, Call(name, n + 1)) + [Event(Scope(g.alloc, Top(g).depth + 1), 0, [])],
       stack := g.stack + [Frame(n + 1, [], Top(g).depth + 1, true, false)])
  }

  function Close(g: Graph): Graph
    requires g.stack != []
  {
    g.(stack := g.stack[..|g.stack| - 1])
  }

  /** Recording the end of a frame and leaving it. */
  function RecordEnd(g: Graph): Graph
    requires g.stack != [] && Top(g).cursor < |g.es|
  {
    Close(g.(es := Append(g.es, Top(g).cursor, End)))
  }

  function Created(assertBreaks: bool): Graph {
    Graph([Event(Scope(map[], 1), 0, [])], [Frame(0, [], 1, true, false)], map[], Space([], 0), 0, 0, assertBreaks, false)
  }

  function PushRoot(g: Graph): Graph {
    g.(stack := [Frame(0, [], 1, false, false)])
  }

  // ---------------------------------------------------------------- requests

  /**
    What a client asks for.  A recorded allocation carries the place and the mapping the
    compiler settled on; the search for them is modelled in GraphPages.dfy and GraphSmall.dfy.
  */
  datatype Place = Place(loc: Loc, space: Space, physCount: nat, smallPages: nat) | NoPlace(space: Space, physCount: nat, smallPages: nat)

  datatype Request =
    | AllocReq(size: nat, place: Place)
    | FreeReq(loc: Loc)
    | PushReq(name: string)
    | PopReq
    | RootReq

  datatype Answer = Declined | Error | Leaks | Pointer(loc: Loc) | Done

  /** A place is sound when the allocation fits there beside everything the recorder knows to be live. */
  predicate PlaceOk(g: Graph, size: nat, place: Place) {
    && Grows(g.space, place.space)
    && (place.Place? ==>
          && place.loc.Large? == (size >= SMALL_LIMIT)
          && CanTake(place.space, g.alloc, place.loc, Units(place.loc, size)))
  }

  function DoAlloc(g: Graph, size: nat, place: Place): (Graph, Answer)
    requires g.stack != [] && Top(g).cursor < |g.es|
  {
    var found := if Top(g).recording then Nothing else Find(g.es, Top(g).cursor, KTake(size >= SMALL_LIMIT, size));
    if found.Child? then (Advance(g, found.node), Pointer(g.es[found.node].kind.loc))
    else
      var r := Ready(g);
      if r.failed then (r, Error)
      else
        match place
        case NoPlace(space, phys, small) => (Fail(r.(space := space, physCount := phys, smallPages := small)), Error)
        case Place(loc, space, phys, small) => (RecordTake(r, loc, size, space, phys, small), Pointer(loc))
  }

  function DoFree(g: Graph, loc: Loc): (Graph, Answer)
    requires g.stack != [] && Top(g).cursor < |g.es|
  {
    var found := if Top(g).recording then Nothing else Find(g.es, Top(g).cursor, KDrop(loc));
    if found.Child? then (Advance(g, found.node), Done)
    else
      var r := Ready(g);
      (if r.failed then r else RecordDrop(r, loc), Done)
  }

  function DoPush(g: Graph, name: string): (Graph, Answer)
    requires g.stack != [] && Top(g).cursor < |g.es|
  {
    var found := Find(g.es, Top(g).cursor, KCall(name));
    if found.Child? then (Enter(g, g.es[found.node].kind.scope), Done)
    else
      var r := Ready(g);
      if r.failed then (r, Error) else (RecordCall(r, name), Done)
  }

  /**
    Leaving a frame.  A frame that still holds an allocation hands it over: this machine stops
    there, and the one of GraphWorld.dfy goes on.
  */
  function DoPop(g: Graph): (Graph, Answer)
    requires g.stack != [] && Top(g).cursor < |g.es|
  {
    var found := if Top(g).recording then Nothing else Find(g.es, Top(g).cursor, KEnd);
    if found.Child? then (Close(g), Done)
    else
      var r := Ready(g);
      if r.failed then (r, Error)
      else if Top(r).tracked != [] then (Fail(r), Leaks)
      else (RecordEnd(r), Done)
  }

  function Step(g: Graph, q: Request): (Graph, Answer) {
    if g.failed then (g, Declined)
    else if q.RootReq? then (if g.stack == [] then (PushRoot(g), Done) else (g, Declined))
    else if g.stack == [] || Top(g).cursor >= |g.es| then (g, Declined)
    else
      match q
      case AllocReq(size, place) => DoAlloc(g, size, place)
      case FreeReq(loc) => DoFree(g, loc)
      case PushReq(name) => DoPush(g, name)
      case PopReq => DoPop(g)
  }
}
