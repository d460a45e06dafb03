/**
  The compiler with allocations that leak: frames hand what they still hold over as candidates,
  the outermost frame's end makes rogues of the candidates that nobody freed meanwhile, and
  rogues die at any later time.  Tells what every live thing is made of: page objects or bytes.
*/
module GraphWorld {
  import opened GraphModel
  import opened GraphTree
  import opened GraphSafety
  import opened GraphRuns
  import opened GraphLeaks
  import opened GraphCollect
  import opened GraphSmall
  import F = GraphFinalize

  /** A candidate: an allocation whose frame was left; `freed` once its owner gave it back. */
  datatype Leak = Leak(loc: Loc, units: nat, bytes: nat, ev: nat, freed: bool)

  /** A rogue that is still alive. */
  datatype Rogue = Rogue(loc: Loc, units: nat, bytes: nat)

  datatype World = World(g: Graph, gone: set<nat>, leaks: seq<Leak>, b: F.Backing, rogues: seq<Rogue>)

  // ---------------------------------------------------------------- what may be handed out

  predicate BytesApart(o: nat, n: nat, p: nat, m: nat) {
    o + n <= p || p + m <= o
  }

  /** The test of a small range against the pages that a candidate or a rogue lies on. */
  predicate OffPages(o: nat, n: nat, offset: nat, bytes: nat) {
    EndOf(Span(offset, bytes)) <= HEAP ==> Clear(PageSpan(Span(offset, bytes)), o, n)
  }

  predicate HasPage(sp: Space, k: Leak, p: int) {
    k.loc.Large? && exists i :: k.loc.va <= i < k.loc.va + k.units && i < |sp.vaPhys| && sp.vaPhys[i] == p
  }

  /** The filter on recorded allocations that a replay may hand out again. */
  predicate Available(w: World, loc: Loc, units: nat) {
    if loc.Large? then
      forall i :: loc.va <= i < loc.va + units && i < |w.g.space.vaPhys| && i < |w.b.holes| ==>
        w.b.holes[i] == 0 && forall j :: 0 <= j < |w.leaks| ==> !HasPage(w.g.space, w.leaks[j], w.g.space.vaPhys[i])
    else
      && (forall j :: 0 <= j < |w.leaks| && w.leaks[j].loc.Small? && !w.leaks[j].freed ==>
            OffPages(loc.offset, units, w.leaks[j].loc.offset, w.leaks[j].bytes))
      && (forall j :: 0 <= j < |w.rogues| && w.rogues[j].loc.Small? ==>
            OffPages(loc.offset, units, w.rogues[j].loc.offset, w.rogues[j].bytes))
  }

  predicate Offers(w: World, c: nat, key: Key) {
    && c < |w.g.es| && Matches(w.g.es[c].kind, key)
    && (w.g.es[c].kind.Take? ==> Available(w, w.g.es[c].kind.loc, Units(w.g.es[c].kind.loc, w.g.es[c].kind.bytes)))
  }

  /** The position of the first child that answers the key and is available, or the number of children. */
  function FindOffer(w: World, next: seq<nat>, key: Key, i: nat): (r: nat)
    requires i <= |next|
    ensures i <= r <= |next| && (r < |next| ==> Offers(w, next[r], key))
    ensures forall j :: i <= j < r ==> !Offers(w, next[j], key)
    decreases |next| - i
  {
    if i == |next| || Offers(w, next[i], key) then i else FindOffer(w, next, key, i + 1)
  }

  method FindAvailable(w: World, next: seq<nat>, key: Key) returns (i: nat)
    ensures i == FindOffer(w, next, key, 0) <= |next|
    ensures key.KTake? && i < |next| ==>
              && next[i] < |w.g.es| && w.g.es[next[i]].kind.Take?
              && w.g.es[next[i]].kind.bytes == key.bytes && w.g.es[next[i]].kind.loc.Large? == key.large
              && Available(w, w.g.es[next[i]].kind.loc, Units(w.g.es[next[i]].kind.loc, key.bytes))
  {
    i := 0;
    while i < |next| && !Offers(w, next[i], key)
      invariant i <= |next| && FindOffer(w, next, key, 0) == FindOffer(w, next, key, i)
    {
      i := i + 1;
    }
  }

  // ---------------------------------------------------------------- allocating

  /** The physical numbers of the virtual pages beyond those there were. */
  function MoreNumbers(known: nat, vaPhys: seq<int>): (r: seq<nat>)
    ensures |r| == if |vaPhys| > known then |vaPhys| - known else 0
    ensures forall i :: 0 <= i < |r| && vaPhys[known + i] >= 0 ==> r[i] == vaPhys[known + i]
  {
    if |vaPhys| > known then seq(|vaPhys| - known, i requires 0 <= i < |vaPhys| - known => if vaPhys[known + i] >= 0 then vaPhys[known + i] else 0)
    else []
  }

  /** The objects of the pages created beyond those there were. */
  function MorePages(b: F.Backing, physCount: nat): (r: seq<nat>)
    ensures |r| == if physCount > |b.pages| then physCount - |b.pages| else 0
    ensures forall i :: 0 <= i < |r| ==> r[i] == b.nextPage + i
  {
    if physCount > |b.pages| then seq(physCount - |b.pages|, i => b.nextPage + i) else []
  }

  function MoreMapped(numbers: seq<nat>, pages: seq<nat>): (r: seq<F.Slot>)
    ensures |r| == |numbers|
    ensures forall i :: 0 <= i < |r| && numbers[i] < |pages| ==> r[i] == F.MappedTo(pages[numbers[i]])
  {
    seq(|numbers|, i requires 0 <= i < |numbers| => if numbers[i] < |pages| then F.MappedTo(pages[numbers[i]]) else F.Unmapped)
  }

  /** The pages and mappings that a recorded allocation adds. */
  function Extended(b: F.Backing, vaPhys: seq<int>, physCount: nat): F.Backing {
    var numbers, pages := MoreNumbers(|b.vaPhys|, vaPhys), b.pages + MorePages(b, physCount);
    b.(vaPhys := b.vaPhys + numbers, pages := pages, mapped := b.mapped + MoreMapped(numbers, pages),
       holes := b.holes + seq(|numbers|, i => 0), nextPage := b.nextPage + |pages| - |b.pages|)
  }

  function AskAlloc(w: World, size: nat, place: Place): (World, Answer)
    requires w.g.stack != [] && Top(w.g).cursor < |w.g.es|
  {
    var next := w.g.es[Top(w.g).cursor].next;
    var i := if Top(w.g).recording then |next| else FindOffer(w, next, KTake(size >= SMALL_LIMIT, size), 0);
    if i < |next| then (w.(g := Advance(w.g, next[i])), Pointer(w.g.es[next[i]].kind.loc))
    else
      var r := Ready(w.g);
      if r.failed then (w.(g := r), Error)
      else
        match place
        case NoPlace(space, phys, small) => (w.(g := Fail(r.(space := space, physCount := phys, smallPages := small))), Error)
        case Place(loc, space, phys, small) =>
          (w.(g := RecordTake(r, loc, size, space, phys, small), b := Extended(w.b, space.vaPhys, phys)), Pointer(loc))
  }

  // ---------------------------------------------------------------- leaving a frame

  /** The next allocation that the innermost frame still tracks becomes a candidate. */
  function Forsake(w: World, e: nat): World
    requires w.g.stack != [] && e < |w.g.es| && w.g.es[e].kind.Take?
  {
    var loc, bytes := w.g.es[e].kind.loc, w.g.es[e].kind.bytes;
    w.(g := SeverTop(w.g, e), gone := w.gone + {e}, leaks := [Leak(loc, Units(loc, bytes), bytes, e, false)] + w.leaks)
  }

  function Collect(w: World): (c: World)
    ensures c.b == w.b && c.rogues == w.rogues
    decreases if w.g.stack != [] then |Top(w.g).tracked| else 0
  {
    if w.g.stack == [] || Top(w.g).tracked == [] then w
    else
      var e := Top(w.g).tracked[0];
      if e < |w.g.es| && w.g.es[e].kind.Take? then Collect(Forsake(w, e)) else w
  }

  /** The candidates are collected one after the other, latest first. */
  method CollectCandidates(w: World) returns (c: World)
    ensures c == Collect(w)
  {
    c := w;
    while c.g.stack != [] && Top(c.g).tracked != [] && Top(c.g).tracked[0] < |c.g.es| &&
          c.g.es[Top(c.g).tracked[0]].kind.Take?
      invariant Collect(c) == Collect(w)
      decreases if c.g.stack != [] then |Top(c.g).tracked| else 0
    {
      c := Forsake(c, Top(c.g).tracked[0]);
    }
  }

  predicate Owned(k: Leak) {
    !k.freed
  }

  /** The large candidates that become rogues, each at its own pointer. */
  function Spans(leaks: seq<Leak>): seq<F.Span> {
    if leaks == [] then []
    else (if leaks[0].loc.Large? && Owned(leaks[0]) then [F.Span(leaks[0].loc.va, leaks[0].units, leaks[0].loc.va + 1)] else [])
         + Spans(leaks[1..])
  }

  function NewRogues(leaks: seq<Leak>): seq<Rogue> {
    if leaks == [] then []
    else (if Owned(leaks[0]) then [Rogue(leaks[0].loc, leaks[0].units, leaks[0].bytes)] else []) + NewRogues(leaks[1..])
  }

  function EventsOf(leaks: seq<Leak>): set<nat> {
    set i | 0 <= i < |leaks| :: leaks[i].ev
  }

  /** The finalization when the outermost frame is left. */
  function Settle(w: World): World
    requires F.Shape(w.b)
  {
    w.(g := w.g.(es := Scrub(w.g.es, EventsOf(w.leaks)), alloc := Shed(w.g.alloc, EventsOf(w.leaks))),
       leaks := [], b := F.Finalized(w.b, Spans(w.leaks)), rogues := NewRogues(w.leaks) + w.rogues)
  }

  function AskPop(w: World, settles: bool): (World, Answer)
    requires w.g.stack != [] && Top(w.g).cursor < |w.g.es| && F.Shape(w.b)
  {
    var found := if Top(w.g).recording then Nothing else Find(w.g.es, Top(w.g).cursor, KEnd);
    if found.Child? then Left(w.(g := Close(w.g)), settles)
    else
      var r := Ready(w.g);
      if r.failed then (w.(g := r), Error)
      else
        var c := Collect(w.(g := r));
        if c.g.stack == [] || Top(c.g).cursor >= |c.g.es| then (c, Error)
        else Left(c.(g := RecordEnd(c.g)), settles)
  }

  function Left(w: World, settles: bool): (World, Answer)
    requires F.Shape(w.b)
  {
    if w.g.stack != [] || w.leaks == [] then (w, Done)
    else if settles then (Settle(w), Done)
    else (w.(g := Fail(w.g)), Error)
  }

  // ---------------------------------------------------------------- everything that can happen

  /**
    A request, with whether a finalization that it needs succeeds; a candidate freed by its
    owner; a rogue freed; and the graph taking the address of a dead rogue back.
  */
  datatype Deed = Ask(q: Request, settles: bool) | FreeLeak(i: nat) | RogueDies(i: nat) | Revive(va: nat)

  predicate Covers(r: Rogue, va: nat) {
    r.loc.Large? && r.loc.va <= va < r.loc.va + r.units
  }

  function WithoutRogue(w: World, i: nat): World
    requires i < |w.rogues|
  {
    w.(rogues := w.rogues[..i] + w.rogues[i + 1..], b := w.b.(held := map va | va in w.b.held && !Covers(w.rogues[i], va) :: w.b.held[va]))
  }

  function Do(w: World, d: Deed): (World, Answer)
    requires F.Shape(w.b)
  {
    match d
    case FreeLeak(i) => if i < |w.leaks| then (w.(leaks := w.leaks[i := w.leaks[i].(freed := true)]), Done) else (w, Declined)
    case RogueDies(i) => if i < |w.rogues| then (WithoutRogue(w, i), Done) else (w, Declined)
    case Revive(va) => if va < |w.b.vaPhys| && va !in w.b.held then (w.(b := F.Revived(w.b, va)), Done) else (w, Declined)
    case Ask(q, settles) =>
      if w.g.failed then (w, Declined)
      else if !q.RootReq? && (w.g.stack == [] || Top(w.g).cursor >= |w.g.es|) then (w, Declined)
      else
        match q
        case AllocReq(size, place) => AskAlloc(w, size, place)
        case PopReq => AskPop(w, settles)
        case _ => var (r, answer) := Step(w.g, q); (w.(g := r), answer)
  }
}
