/**
  Under any driver failures and any interleaving of hand-offs, late frees and the graph's own
  reference drops, the ledger stays sound, ranges outlive their rogues, and every reference a
  rogue holds is dropped once.
*/
module RogueSafety {
  import opened RefModel
  import opened RogueModel

  // ---------------------------------------------------------------- the invariant

  /** The references from position `from` on are still there and still the owner's. */
  predicate Owns(w: World, id: nat, pages: seq<nat>, from: nat) {
    forall j :: from <= j < |pages| ==> pages[j] in w.store.refs && pages[j] in w.owner && w.owner[pages[j]] == By(id)
  }

  predicate Keeps(w: World, id: nat, range: nat) {
    range in w.ranges && range in w.holders && By(id) in w.holders[range]
  }

  predicate HandoffOk(w: World, id: nat, h: Handoff) {
    && id < w.nextId && Apart(h.made) && |h.made| <= |h.sources|
    && match h.stage
       case Making => Owns(w, id, h.made, 0)
       case Naming(next) => next <= |h.made| && Owns(w, id, h.made, 0)
       case Ranged => Owns(w, id, h.made, 0) && Keeps(w, id, h.range)
       case Undoing(next, ranged) => next <= |h.made| && Owns(w, id, h.made, next) && (ranged ==> Keeps(w, id, h.range))
  }

  function Progress(w: World, id: nat): nat {
    if id in w.freers then w.freers[id] else 0
  }

  predicate RogueOk(w: World, rogue: Rogue) {
    && rogue.id < w.nextId && rogue.id !in w.handoffs && Apart(rogue.pages)
    && (rogue.freeing <==> rogue.id in w.freers)
    && Progress(w, rogue.id) <= |rogue.pages| && Owns(w, rogue.id, rogue.pages, Progress(w, rogue.id))
    && (forall j :: 0 <= j < Progress(w, rogue.id) ==> rogue.pages[j] in w.drops)
    && Keeps(w, rogue.id, rogue.range)
  }

  predicate RoguesOk(w: World) {
    && (forall i :: 0 <= i < |w.registry.rogues| ==> RogueOk(w, w.registry.rogues[i]))
    && (forall i, j :: 0 <= i < j < |w.registry.rogues| ==> w.registry.rogues[i].id != w.registry.rogues[j].id)
  }

  predicate RangesOk(w: World) {
    && (forall r :: r in w.ranges ==> r < w.nextId && r in w.holders && w.ranges[r].refs == |w.holders[r]| > 0)
    && (forall r, h :: r in w.holders && h in w.holders[r] && h.By? ==> h.id < w.nextId)
    && (forall r :: r in w.holders ==> r < w.nextId)
  }

  predicate OwnersOk(w: World) {
    && (forall r :: r in w.store.refs ==> r in w.owner)
    && (forall r :: r in w.owner ==> r < w.store.nextRef)
    && Apart(w.drops) && (forall d :: d in w.drops ==> d in w.owner && w.owner[d] == Lost)
  }

  predicate HandoffsOk(w: World) {
    && (forall id :: id in w.freers ==> id < w.nextId && id !in w.handoffs)
    && (forall id :: id in w.handoffs ==> HandoffOk(w, id, w.handoffs[id]))
    && (forall id :: id in w.handoffs && NotRanged(w.handoffs[id]) ==> forall r :: r in w.holders ==> By(id) !in w.holders[r])
  }

  predicate NotRanged(h: Handoff) {
    h.stage.Making? || h.stage.Naming? || (h.stage.Undoing? && !h.stage.ranged)
  }

  ghost predicate WorldInv(w: World) {
    Inv(w.store) && OwnersOk(w) && RangesOk(w) && HandoffsOk(w) && RoguesOk(w)
  }

  lemma InitialInv()
    ensures WorldInv(Initial())
  {}

  // ---------------------------------------------------------------- what others do leaves one's own alone

  /** Nothing changed for the references, ranges and progress of anybody but `me`. */
  ghost predicate Spares(w: World, w': World, me: Owner) {
    && (forall r :: r in w.store.refs && r in w.owner && w.owner[r].By? && w.owner[r] != me ==>
          r in w'.store.refs && r in w'.owner && w'.owner[r] == w.owner[r])
    && (forall id, range :: By(id) != me && Keeps(w, id, range) ==> Keeps(w', id, range))
    && w.nextId <= w'.nextId
    && (forall d :: d in w.drops ==> d in w'.drops)
    && (forall id :: By(id) != me ==> (id in w.freers <==> id in w'.freers) && (id in w.freers ==> w.freers[id] == w'.freers[id]))
  }

  lemma OwnsSpared(w: World, w': World, me: Owner, id: nat, pages: seq<nat>, from: nat)
    requires Spares(w, w', me) && By(id) != me && Owns(w, id, pages, from)
    ensures Owns(w', id, pages, from)
  {}

  lemma HandoffSpared(w: World, w': World, me: Owner, id: nat, h: Handoff)
    requires Spares(w, w', me) && By(id) != me && HandoffOk(w, id, h)
    ensures HandoffOk(w', id, h)
  {
    OwnsSpared(w, w', me, id, h.made, if h.stage.Undoing? then h.stage.next else 0);
    if h.stage.Ranged? || (h.stage.Undoing? && h.stage.ranged) { assert Keeps(w, id, h.range); }
  }

  lemma RogueSpared(w: World, w': World, me: Owner, rogue: Rogue)
    requires Spares(w, w', me) && By(rogue.id) != me && RogueOk(w, rogue) && rogue.id !in w'.handoffs
    ensures RogueOk(w', rogue)
  {
    OwnsSpared(w, w', me, rogue.id, rogue.pages, Progress(w, rogue.id));
    assert Keeps(w, rogue.id, rogue.range);
  }

  /** Everybody else's hand-offs and rogues are as they were. */
  lemma OthersSpared(w: World, w': World, me: Owner)
    requires WorldInv(w) && Spares(w, w', me)
    requires forall id :: id in w'.handoffs && By(id) != me ==> id in w.handoffs && w'.handoffs[id] == w.handoffs[id]
    ensures forall id :: id in w'.handoffs && By(id) != me ==> HandoffOk(w', id, w'.handoffs[id])
    ensures forall i :: 0 <= i < |w.registry.rogues| && By(w.registry.rogues[i].id) != me ==> RogueOk(w', w.registry.rogues[i])
  {
    forall id | id in w'.handoffs && By(id) != me ensures HandoffOk(w', id, w'.handoffs[id]) {
      HandoffSpared(w, w', me, id, w.handoffs[id]);
    }
    forall i | 0 <= i < |w.registry.rogues| && By(w.registry.rogues[i].id) != me ensures RogueOk(w', w.registry.rogues[i]) {
      assert RogueOk(w, w.registry.rogues[i]);
      RogueSpared(w, w', me, w.registry.rogues[i]);
    }
  }

  lemma UnrefKeepsOthers(s: Store, page: nat, reply: Reply)
    requires page in s.refs && s.refs[page].alloc in s.allocs
    ensures var t := PageUnref(s, page, reply).0;
      && t.nextRef == s.nextRef && t.nextAlloc == s.nextAlloc
      && forall r :: r != page ==> (r in t.refs <==> r in s.refs) && (r in t.refs ==> t.refs[r] == s.refs[r])
  {}

  lemma MapReferenceKeepsOthers(s: Store, page: nat, address: nat, mapOk: bool, accessOk: bool, reply: Reply)
    requires page in s.refs && s.refs[page].alloc in s.allocs
    ensures var (t, ok, r) := MapReference(s, page, address, mapOk, accessOk, reply);
      && r == s.nextRef && t.nextRef == s.nextRef + 1
      && forall q :: q != r ==> (q in t.refs <==> q in s.refs) && (q in t.refs ==> t.refs[q] == s.refs[q])
  {}

  // ---------------------------------------------------------------- the graph's own steps

  /** A step that only touches references of the graph. */
  lemma GraphStoreKeeps(w: World, store: Store, owner: map<nat, Owner>)
    requires WorldInv(w) && Inv(store) && OwnersOk(w.(store := store, owner := owner))
    requires Spares(w, w.(store := store, owner := owner), Graph)
    ensures WorldInv(w.(store := store, owner := owner))
  {
    OthersSpared(w, w.(store := store, owner := owner), Graph);
  }

  /** The store gained at most the next reference. */
  ghost predicate AddsOnly(s: Store, t: Store) {
    t.nextRef == s.nextRef + 1 &&
    forall q :: q != s.nextRef ==> (q in t.refs <==> q in s.refs) && (q in t.refs ==> t.refs[q] == s.refs[q])
  }

  lemma AddedRefKeeps(w: World, store: Store, o: Owner)
    requires WorldInv(w) && Inv(store) && AddsOnly(w.store, store) && !o.By?
    ensures WorldInv(w.(store := store, owner := w.owner[w.store.nextRef := o]))
  {
    GraphStoreKeeps(w, store, w.owner[w.store.nextRef := o]);
  }

  lemma CreateKeeps(w: World, bytes: nat)
    requires WorldInv(w)
    ensures WorldInv(GraphDo(w, GraphCreate(bytes)))
  {
    PageAllocKeeps(w.store, bytes);
    AddedRefKeeps(w, PageAlloc(w.store, bytes).0, Graph);
  }

  lemma RefKeeps(w: World, page: nat)
    requires WorldInv(w) && GraphMay(w, GraphRef(page))
    ensures WorldInv(GraphDo(w, GraphRef(page)))
  {
    PageRefKeeps(w.store, page, 0);
    AddedRefKeeps(w, PageRef(w.store, page, 0).0, Graph);
  }

  lemma MapStepKeeps(w: World, s: Step)
    requires WorldInv(w) && s.GraphMap? && GraphMay(w, s)
    ensures WorldInv(GraphDo(w, s))
  {
    hide MapReference;
    var (store, ok, r) := MapReference(w.store, s.page, s.address, s.mapOk, s.accessOk, s.reply);
    MapReferenceKeeps(w.store, s.page, s.address, s.mapOk, s.accessOk, s.reply);
    MapReferenceKeepsOthers(w.store, s.page, s.address, s.mapOk, s.accessOk, s.reply);
    AddedRefKeeps(w, store, if ok then Graph else Lost);
  }

  lemma UnrefKeeps(w: World, page: nat, reply: Reply)
    requires WorldInv(w) && GraphMay(w, GraphUnref(page, reply))
    ensures WorldInv(GraphDo(w, GraphUnref(page, reply)))
  {
    hide WorldInv, PageUnref;
    var (store, ok) := PageUnref(w.store, page, reply);
    var owner := if ok then w.owner[page := Lost] else w.owner;
    UnrefSpares(w, page, reply);
    assert GraphDo(w, GraphUnref(page, reply)) == w.(store := store, owner := owner);
    hide GraphDo, GraphMay, Inv, OwnersOk, Spares;
    GraphStoreKeeps(w, store, owner);
  }

  lemma UnrefSpares(w: World, page: nat, reply: Reply)
    requires WorldInv(w) && Live(w.store, page) && page in w.owner && w.owner[page] == Graph
    ensures var (store, ok) := PageUnref(w.store, page, reply);
      var w' := w.(store := store, owner := if ok then w.owner[page := Lost] else w.owner);
      Inv(store) && OwnersOk(w') && Spares(w, w', Graph)
  {
    hide PageUnref, HandoffsOk, RoguesOk, RangesOk, OwnersOk, Spares;
    PageUnrefKeeps(w.store, page, reply);
    hide Inv;
    UnrefKeepsOthers(w.store, page, reply);
    var (store, ok) := PageUnref(w.store, page, reply);
    UnrefOwners(w, store, if ok then w.owner[page := Lost] else w.owner, page);
  }

  lemma UnrefOwners(w: World, store: Store, owner: map<nat, Owner>, page: nat)
    requires OwnersOk(w) && page in w.owner && w.owner[page] == Graph && page in w.store.refs
    requires owner == w.owner || owner == w.owner[page := Lost]
    requires store.nextRef == w.store.nextRef
    requires forall r :: r != page ==> (r in store.refs <==> r in w.store.refs)
    ensures OwnersOk(w.(store := store, owner := owner)) && Spares(w, w.(store := store, owner := owner), Graph)
  {}

  lemma RangeKeeps(w: World, address: nat)
    requires WorldInv(w)
    ensures WorldInv(GraphDo(w, GraphRange(address)))
  {
    var w' := w.(ranges := w.ranges[w.nextId := Range(address, 1)], holders := w.holders[w.nextId := {Graph}],
                 nextId := w.nextId + 1);
    assert GraphDo(w, GraphRange(address)) == w';
    hide GraphDo, GraphMay, Inv, OwnersOk, RogueOk, HandoffOk, RangesOk, Spares;
    NewRange(w, address);
    OthersSpared(w, w', Graph);
    FreshIds(w, w');
  }

  /** A range that gets a fresh identity is held by no hand-off. */
  lemma FreshIds(w: World, w': World)
    requires HandoffsOk(w) && w'.handoffs == w.handoffs && w'.freers == w.freers && w'.nextId == w.nextId + 1
    requires w'.holders == w.holders[w.nextId := {Graph}]
    requires forall id :: id in w'.handoffs ==> HandoffOk(w', id, w'.handoffs[id])
    ensures HandoffsOk(w')
  {
    hide HandoffOk;
  }

  lemma NewRange(w: World, address: nat)
    requires RangesOk(w) && OwnersOk(w)
    ensures var w' := w.(ranges := w.ranges[w.nextId := Range(address, 1)], holders := w.holders[w.nextId := {Graph}],
                         nextId := w.nextId + 1);
      RangesOk(w') && OwnersOk(w') && Spares(w, w', Graph)
  {
    KeepsOwners(w, w.(ranges := w.ranges[w.nextId := Range(address, 1)], holders := w.holders[w.nextId := {Graph}],
                      nextId := w.nextId + 1));
    hide OwnersOk;
  }

  // ---------------------------------------------------------------- leaving a range

  lemma LeaveSpares(w: World, range: nat, holder: Owner, ok: bool)
    requires RangesOk(w) && range in w.ranges && range in w.holders && holder in w.holders[range]
    ensures Spares(w, LeaveRange(w, range, holder, ok), holder) && RangesOk(LeaveRange(w, range, holder, ok))
    ensures forall r, h :: r in LeaveRange(w, range, holder, ok).holders && h in LeaveRange(w, range, holder, ok).holders[r] ==>
              r in w.holders && h in w.holders[r]
  {
    var w' := LeaveRange(w, range, holder, ok);
    var hs := w.holders[range];
    assert |hs - {holder}| == |hs| - 1;
    if w.ranges[range].refs == 1 {
      OnlyHolder(hs, holder);
    }
  }

  lemma OnlyHolder(hs: set<Owner>, h: Owner)
    requires |hs| == 1 && h in hs
    ensures hs == {h}
  {
    assert |hs - {h}| == 0;
    assert hs == (hs - {h}) + {h};
  }

  lemma GraphLeaveKeeps(w: World, range: nat, ok: bool)
    requires WorldInv(w) && GraphMay(w, GraphLeave(range, ok))
    ensures WorldInv(GraphDo(w, GraphLeave(range, ok)))
  {
    LeaveSpares(w, range, Graph, ok);
    OthersSpared(w, LeaveRange(w, range, Graph, ok), Graph);
  }

  lemma ListsKeep(w: World, candidates: seq<Candidate>)
    requires WorldInv(w)
    ensures WorldInv(w.(registry := w.registry.(candidates := candidates)))
  {
    OthersSpared(w, w.(registry := w.registry.(candidates := candidates)), Graph);
  }

  lemma GraphStepKeeps(w: World, s: Step)
    requires WorldInv(w) && GraphMay(w, s) && ByGraph(s)
    ensures WorldInv(GraphDo(w, s))
  {
    hide WorldInv;
    match s
    case GraphCreate(bytes) => CreateKeeps(w, bytes);
    case GraphRef(page) => RefKeeps(w, page);
    case GraphMap(_, _, _, _, _) => MapStepKeeps(w, s);
    case GraphUnref(page, reply) => UnrefKeeps(w, page, reply);
    case GraphRange(address) => RangeKeeps(w, address);
    case GraphLeave(range, ok) => GraphLeaveKeeps(w, range, ok);
    case RegisterStep(ptr) => ListsKeep(w, Register(w.registry, ptr).candidates);
    case UnregisterStep(ptr) => ListsKeep(w, Unregister(w.registry, ptr).candidates);
  }

  // ---------------------------------------------------------------- hand-offs

  lemma StartKeeps(w: World, s: Step)
    requires WorldInv(w) && s.HandoffStart? && HandoffMay(w, s)
    ensures WorldInv(HandoffDo(w, s))
  {
    OthersSpared(w, HandoffDo(w, s), By(w.nextId));
  }

  /** Nobody but `id` came to hold a range. */
  predicate HoldersShrink(w: World, w': World, id: nat) {
    forall r, h :: r in w'.holders && h in w'.holders[r] && h != By(id) ==> r in w.holders && h in w.holders[r]
  }

  /** What a hand-off's step may change besides the hand-off itself. */
  ghost predicate Frame(w: World, w': World, id: nat) {
    && w'.registry == w.registry && w'.nextId == w.nextId && w'.freers == w.freers
    && Spares(w, w', By(id)) && HoldersShrink(w, w', id)
    && Inv(w'.store) && OwnersOk(w') && RangesOk(w')
  }

  /** The hand-off itself moves on while nobody else is touched. */
  lemma HandoffMoves(w: World, w': World, id: nat)
    requires WorldInv(w) && id in w.handoffs && Frame(w, w', id)
    requires id in w'.handoffs && w'.handoffs == w.handoffs[id := w'.handoffs[id]] && HandoffOk(w', id, w'.handoffs[id])
    requires NotRanged(w'.handoffs[id]) ==> NotRanged(w.handoffs[id]) && w'.holders == w.holders
    ensures WorldInv(w')
  {
    hide Inv, HandoffOk, OwnersOk, RangesOk;
    OthersSpared(w, w', By(id));
    forall i | 0 <= i < |w.registry.rogues| ensures By(w.registry.rogues[i].id) != By(id) {
      assert RogueOk(w, w.registry.rogues[i]);
    }
  }

  /** A step that changes no reference but the hand-off's own, and no range. */
  lemma FrameStore(w: World, w': World, id: nat)
    requires WorldInv(w) && w'.registry == w.registry && w'.nextId == w.nextId && w'.freers == w.freers
    requires w'.ranges == w.ranges && w'.holders == w.holders && Spares(w, w', By(id)) && Inv(w'.store) && OwnersOk(w')
    ensures Frame(w, w', id)
  {
    hide Inv, HandoffsOk, OwnersOk, RoguesOk;
  }

  /** A new reference made for the hand-off is the hand-off's. */
  lemma MakeRefOwns(w: World, id: nat, source: nat)
    requires WorldInv(w) && id in w.handoffs && Live(w.store, source) && HandoffOk(w, id, w.handoffs[id])
    requires w.handoffs[id].stage.Making?
    ensures var (store, r) := PageRef(w.store, source, 0);
      var w' := w.(store := store, owner := w.owner[r := By(id)]);
      && OwnersOk(w') && Spares(w, w', By(id)) && RangesOk(w')
      && Owns(w', id, w.handoffs[id].made + [r], 0) && Apart(w.handoffs[id].made + [r])
  {
    hide Inv;
    var made := w.handoffs[id].made;
    assert forall j :: 0 <= j < |made| ==> made[j] in w.owner && made[j] < w.store.nextRef;
  }

  lemma MakeRefKeeps(w: World, id: nat)
    requires WorldInv(w) && HandoffMay(w, HandoffRef(id, true))
    ensures WorldInv(HandoffDo(w, HandoffRef(id, true)))
  {
    var h := w.handoffs[id];
    var w' := HandoffDo(w, HandoffRef(id, true));
    var source := h.sources[|h.made|];
    assert HandoffOk(w, id, h);
    PageRefKeeps(w.store, source, 0);
    MakeRefOwns(w, id, source);
    hide Inv, Owns, OwnersOk, RangesOk, PageRef, Apart, Spares, HandoffsOk, RoguesOk;
    assert w'.store == PageRef(w.store, source, 0).0;
    SparesLater(w, w.(store := w'.store, owner := w'.owner), w', By(id));
    FrameStore(w, w', id);
    MakeRefHandoff(w, w', id);
    HandoffMoves(w, w', id);
  }

  lemma SparesLater(w: World, v: World, w': World, me: Owner)
    requires Spares(w, v, me) && OwnersOk(v)
    requires w' == v.(handoffs := w'.handoffs)
    ensures Spares(w, w', me) && OwnersOk(w')
  {}

  lemma MakeRefHandoff(w: World, w': World, id: nat)
    requires id in w.handoffs && id in w'.handoffs && id < w.nextId && w'.nextId == w.nextId && w.handoffs[id].stage.Making?
    requires |w.handoffs[id].made| < |w.handoffs[id].sources|
    requires w'.handoffs[id].sources == w.handoffs[id].sources && |w'.handoffs[id].made| == |w.handoffs[id].made| + 1
    requires w'.handoffs[id].stage == if |w'.handoffs[id].made| == |w.handoffs[id].sources| then Naming(0) else Making
    requires Owns(w', id, w'.handoffs[id].made, 0) && Apart(w'.handoffs[id].made)
    ensures HandoffOk(w', id, w'.handoffs[id])
  {}

  lemma GiveUpKeeps(w: World, id: nat)
    requires WorldInv(w) && HandoffMay(w, HandoffRef(id, false))
    ensures WorldInv(HandoffDo(w, HandoffRef(id, false)))
  {
    var w' := HandoffDo(w, HandoffRef(id, false));
    assert HandoffOk(w, id, w.handoffs[id]);
    hide Inv, RoguesOk, RangesOk;
    FrameStore(w, w', id);
    HandoffMoves(w, w', id);
  }

  /** Giving a reference its address leaves all ownership as it was. */
  lemma NameSpares(w: World, r: nat, address: nat, me: Owner)
    requires OwnersOk(w) && r in w.store.refs
    ensures OwnersOk(w.(store := SetAddress(w.store, r, address)))
    ensures Spares(w, w.(store := SetAddress(w.store, r, address)), me)
  {}

  lemma NameKeeps(w: World, id: nat)
    requires WorldInv(w) && HandoffMay(w, HandoffName(id))
    ensures WorldInv(HandoffDo(w, HandoffName(id)))
  {
    var h := w.handoffs[id];
    hide WorldInv, HandoffOk, SetAddress, AddressOf;
    assert HandoffDo(w, HandoffName(id)) ==
           SetHandoff(w.(store := SetAddress(w.store, h.made[h.stage.next], AddressOf(h, h.stage.next))), id,
                      h.(stage := Naming(h.stage.next + 1)));
    assert MayName(w, h);
    hide HandoffDo, HandoffMay;
    NameMoves(w, id, h.made[h.stage.next], AddressOf(h, h.stage.next));
  }

  lemma NameMoves(w: World, id: nat, r: nat, address: nat)
    requires WorldInv(w) && id in w.handoffs && r in w.store.refs && w.store.refs[r].address == 0
    requires address in w.store.mapped && w.store.mapped[address] == w.store.refs[r].alloc
    requires w.handoffs[id].stage.Naming? && w.handoffs[id].stage.next < |w.handoffs[id].made|
    ensures WorldInv(SetHandoff(w.(store := SetAddress(w.store, r, address)), id,
                                w.handoffs[id].(stage := Naming(w.handoffs[id].stage.next + 1))))
  {
    var h := w.handoffs[id].(stage := Naming(w.handoffs[id].stage.next + 1));
    var w' := SetHandoff(w.(store := SetAddress(w.store, r, address)), id, h);
    assert HandoffOk(w, id, w.handoffs[id]);
    NamedHandoff(w, w', id, r, address);
    hide Inv, HandoffOk, Frame, RoguesOk, RangesOk, OwnersOk;
    NameFrame(w, id, r, address, h);
    HandoffMoves(w, w', id);
  }

  lemma NameFrame(w: World, id: nat, r: nat, address: nat, h: Handoff)
    requires WorldInv(w) && id in w.handoffs && r in w.store.refs && w.store.refs[r].address == 0
    requires address in w.store.mapped && w.store.mapped[address] == w.store.refs[r].alloc
    ensures Frame(w, SetHandoff(w.(store := SetAddress(w.store, r, address)), id, h), id)
  {
    hide Inv, RoguesOk, HandoffsOk, OwnersOk, RangesOk, Spares, HandoffOk;
    var v := w.(store := SetAddress(w.store, r, address));
    SetAddressKeeps(w.store, r, address);
    NameSpares(w, r, address, By(id));
    SparesLater(w, v, SetHandoff(v, id, h), By(id));
    FrameStore(w, SetHandoff(v, id, h), id);
  }

  lemma NamedHandoff(w: World, w': World, id: nat, r: nat, address: nat)
    requires id in w.handoffs && HandoffOk(w, id, w.handoffs[id]) && r in w.store.refs
    requires w.handoffs[id].stage.Naming? && w.handoffs[id].stage.next < |w.handoffs[id].made|
    requires id in w'.handoffs && w'.handoffs[id] == w.handoffs[id].(stage := Naming(w.handoffs[id].stage.next + 1))
    requires w'.store == SetAddress(w.store, r, address) && w'.owner == w.owner && w'.nextId == w.nextId
    ensures HandoffOk(w', id, w'.handoffs[id])
  {}

  /** A new holder joins a range. */
  lemma HoldSpares(w: World, range: nat, id: nat)
    requires RangesOk(w) && range in w.ranges && range in w.holders && By(id) !in w.holders[range] && id < w.nextId
    ensures var w' := w.(ranges := w.ranges[range := w.ranges[range].(refs := w.ranges[range].refs + 1)],
                         holders := w.holders[range := w.holders[range] + {By(id)}]);
      RangesOk(w') && Spares(w, w', By(id)) && HoldersShrink(w, w', id) && Keeps(w', id, range)
  {}

  lemma HoldKeeps(w: World, id: nat)
    requires WorldInv(w) && HandoffMay(w, HandoffRange(id))
    ensures WorldInv(HandoffDo(w, HandoffRange(id)))
  {
    var h := w.handoffs[id];
    var w' := HandoffDo(w, HandoffRange(id));
    assert HandoffOk(w, id, h) && By(id) !in w.holders[h.range];
    HoldSpares(w, h.range, id);
    assert OwnersOk(w') by { KeepsOwners(w, w'); }
    hide Inv, RoguesOk, OwnersOk, HandoffsOk;
    HoldMoves(w, w', id);
    HandoffMoves(w, w', id);
  }

  lemma HoldMoves(w: World, w': World, id: nat)
    requires WorldInv(w) && id in w.handoffs && HandoffOk(w, id, w.handoffs[id])
    requires w.handoffs[id].stage.Naming? && id in w'.handoffs && w'.handoffs[id] == w.handoffs[id].(stage := Ranged)
    requires w'.registry == w.registry && w'.nextId == w.nextId && w'.freers == w.freers && w'.drops == w.drops
    requires w'.store == w.store && w'.owner == w.owner && OwnersOk(w')
    requires var v := w.(ranges := w'.ranges, holders := w'.holders);
      RangesOk(v) && Spares(w, v, By(id)) && HoldersShrink(w, v, id) && Keeps(v, id, w.handoffs[id].range)
    ensures Frame(w, w', id) && HandoffOk(w', id, w'.handoffs[id])
  {
    hide Inv, OwnersOk;
  }

  lemma KeepsOwners(w: World, w': World)
    requires OwnersOk(w) && w'.store == w.store && w'.owner == w.owner && w'.drops == w.drops
    ensures OwnersOk(w')
  {}

  lemma UndoPageKeeps(w: World, id: nat, reply: Reply, rangeOk: bool)
    requires WorldInv(w) && HandoffMay(w, HandoffUndo(id, reply, rangeOk)) && w.handoffs[id].stage.next < |w.handoffs[id].made|
    ensures WorldInv(HandoffDo(w, HandoffUndo(id, reply, rangeOk)))
  {
    hide Inv, OwnersOk, Spares, DropPage;
    var h := w.handoffs[id];
    assert HandoffOk(w, id, h);
    hide WorldInv;
    var w' := HandoffDo(w, HandoffUndo(id, reply, rangeOk));
    assert w' == SetHandoff(DropPage(w, h.made[h.stage.next], reply), id,
                            h.(stage := Undoing(h.stage.next + 1, h.stage.ranged)));
    hide HandoffDo;
    DropLeaves(w, h.made[h.stage.next], reply);
    DropKeeps(w, id, h.made, h.stage.next, reply);
    SparesLater(w, DropPage(w, h.made[h.stage.next], reply), w', By(id));
    FrameStore(w, w', id);
    HandoffMoves(w, w', id);
  }

  /** Dropping the next of one's references: it is lost for good and was never dropped before. */
  lemma DropKeeps(w: World, id: nat, pages: seq<nat>, k: nat, reply: Reply)
    requires WorldInv(w) && k < |pages| && Apart(pages) && Owns(w, id, pages, k) && Live(w.store, pages[k])
    ensures var w' := DropPage(w, pages[k], reply);
      && Inv(w'.store) && OwnersOk(w') && Spares(w, w', By(id)) && Owns(w', id, pages, k + 1)
      && pages[k] !in w.drops && pages[k] in w'.drops
  {
    var page := pages[k];
    PageUnrefKeeps(w.store, page, reply);
    UnrefKeepsOthers(w.store, page, reply);
    assert w.owner[page] == By(id);
    var w' := DropPage(w, page, reply);
    assert w'.drops[|w.drops|] == page;
    forall d | d in w.drops ensures d in w'.drops {
      var i :| 0 <= i < |w.drops| && w.drops[i] == d;
      assert w'.drops[i] == d;
    }
  }

  /** The hand-off is over and leaves nothing behind. */
  lemma HandoffGone(w: World, w': World, id: nat)
    requires WorldInv(w) && id in w.handoffs && Frame(w, w', id) && w'.handoffs == w.handoffs - {id}
    ensures WorldInv(w')
  {
    hide Inv, HandoffOk, OwnersOk, RangesOk;
    OthersSpared(w, w', By(id));
    forall i | 0 <= i < |w.registry.rogues| ensures By(w.registry.rogues[i].id) != By(id) {
      assert RogueOk(w, w.registry.rogues[i]);
    }
  }

  lemma UndoEndKeeps(w: World, id: nat, reply: Reply, rangeOk: bool)
    requires WorldInv(w) && HandoffMay(w, HandoffUndo(id, reply, rangeOk)) && w.handoffs[id].stage.next >= |w.handoffs[id].made|
    ensures WorldInv(HandoffDo(w, HandoffUndo(id, reply, rangeOk)))
  {
    var h := w.handoffs[id];
    assert HandoffOk(w, id, h);
    hide Inv, OwnersOk, RoguesOk, RangesOk;
    if h.stage.ranged { UndoRangeKeeps(w, id, h.range, rangeOk); } else { HandoffGone(w, w.(handoffs := w.handoffs - {id}), id); }
  }

  lemma UndoRangeKeeps(w: World, id: nat, range: nat, rangeOk: bool)
    requires WorldInv(w) && id in w.handoffs && Keeps(w, id, range)
    ensures WorldInv(LeaveRange(w.(handoffs := w.handoffs - {id}), range, By(id), rangeOk))
  {
    hide Inv, OwnersOk, RoguesOk, HandoffsOk;
    var w' := LeaveRange(w.(handoffs := w.handoffs - {id}), range, By(id), rangeOk);
    assert OwnersOk(w') by { KeepsOwners(w, w'); }
    LeaveSpares(w, range, By(id), rangeOk);
    assert Frame(w, w', id);
    HandoffGone(w, w', id);
  }

  /** A hand-off that was declined is to be undone from its first reference on. */
  lemma ToBeUndone(w: World, id: nat)
    requires WorldInv(w) && id in w.handoffs && w.handoffs[id].stage.Ranged?
    ensures WorldInv(SetHandoff(w, id, w.handoffs[id].(stage := Undoing(0, true))))
  {
    var w' := SetHandoff(w, id, w.handoffs[id].(stage := Undoing(0, true)));
    assert HandoffOk(w, id, w.handoffs[id]);
    assert OwnersOk(w') by { KeepsOwners(w, w'); }
    hide Inv, RoguesOk, HandoffsOk, OwnersOk;
    FrameStore(w, w', id);
    HandoffMoves(w, w', id);
  }

  /** The decision: the hand-off becomes a rogue, or is undone. */
  lemma DecideKeeps(w: World, id: nat)
    requires WorldInv(w) && HandoffMay(w, HandoffDecide(id))
    ensures WorldInv(HandoffDo(w, HandoffDecide(id)))
  {
    var (registry, decision) := Decide(w.registry, RogueOf(w, id));
    if decision == Owned { BecomesRogue(w, id); } else {
      hide WorldInv;
      ListsKeep(w, registry.candidates);
      var v := w.(registry := registry);
      assert v.registry == w.registry.(candidates := registry.candidates);
      ToBeUndone(v, id);
    }
  }

  lemma BecomesRogue(w: World, id: nat)
    requires WorldInv(w) && HandoffMay(w, HandoffDecide(id)) && Decide(w.registry, RogueOf(w, id)).1 == Owned
    ensures WorldInv(HandoffDo(w, HandoffDecide(id)))
  {
    var w' := HandoffDo(w, HandoffDecide(id));
    var rogue := RogueOf(w, id);
    assert HandoffOk(w, id, w.handoffs[id]);
    assert w'.registry.rogues == [rogue] + w.registry.rogues;
    NotFreeing(w, id);
    assert RogueOk(w', rogue);
    OthersSpared(w, w', By(id));
    forall i | 0 <= i < |w.registry.rogues| ensures w.registry.rogues[i].id != id { assert RogueOk(w, w.registry.rogues[i]); }
  }

  /** Nobody frees what is still being handed off. */
  lemma NotFreeing(w: World, id: nat)
    requires WorldInv(w) && id in w.handoffs
    ensures id !in w.freers
  {}

  // ---------------------------------------------------------------- late frees

  lemma BeginKeeps(w: World, ptr: nat)
    requires WorldInv(w)
    ensures WorldInv(FreeDo(w, FreeBegin(ptr)))
  {
    var (registry, start) := BeginFree(w.registry, ptr);
    if start.Begins? { ClaimKeeps(w, ptr); } else { ListsKeep(w, registry.candidates); }
  }

  /** One caller claims the rogue; its references are all still to be dropped. */
  lemma ClaimKeeps(w: World, ptr: nat)
    requires WorldInv(w) && BeginFree(w.registry, ptr).1.Begins?
    ensures WorldInv(FreeDo(w, FreeBegin(ptr)))
  {
    var i := FindRogue(w.registry.rogues, ptr, 0);
    var rogue := w.registry.rogues[i];
    var w' := FreeDo(w, FreeBegin(ptr));
    assert RogueOk(w, rogue);
    assert RogueOk(w', rogue.(freeing := true));
    assert OwnersOk(w') by { KeepsOwners(w, w'); }
    hide Inv, OwnersOk, RogueOk, HandoffOk, RangesOk;
    RogueMoves(w, w', i);
  }

  /** One rogue moves on while nobody else is touched. */
  lemma RogueMoves(w: World, w': World, i: nat)
    requires WorldInv(w) && i < |w.registry.rogues| && |w'.registry.rogues| == |w.registry.rogues|
    requires w'.registry.rogues == w.registry.rogues[i := w'.registry.rogues[i]] && RogueOk(w', w'.registry.rogues[i])
    requires w'.registry.rogues[i].id == w.registry.rogues[i].id && Spares(w, w', By(w.registry.rogues[i].id))
    requires w'.handoffs == w.handoffs && w'.ranges == w.ranges && w'.holders == w.holders && w'.nextId == w.nextId
    requires w'.freers.Keys <= w.freers.Keys + {w.registry.rogues[i].id} && Inv(w'.store) && OwnersOk(w')
    ensures WorldInv(w')
  {
    RoguesMove(w, w', i);
    hide RoguesOk;
    assert RogueOk(w', w'.registry.rogues[i]);
    hide Inv, OwnersOk, HandoffOk;
    OthersSpared(w, w', By(w.registry.rogues[i].id));
    hide Spares;
    SameRanges(w, w');
    hide RangesOk;
  }

  lemma RoguesMove(w: World, w': World, i: nat)
    requires WorldInv(w) && i < |w.registry.rogues| && |w'.registry.rogues| == |w.registry.rogues|
    requires w'.registry.rogues == w.registry.rogues[i := w'.registry.rogues[i]] && RogueOk(w', w'.registry.rogues[i])
    requires w'.registry.rogues[i].id == w.registry.rogues[i].id && Spares(w, w', By(w.registry.rogues[i].id))
    requires w'.handoffs == w.handoffs
    ensures RoguesOk(w')
  {
    hide Inv, OwnersOk, RogueOk, HandoffOk, RangesOk, Spares;
    OthersSpared(w, w', By(w.registry.rogues[i].id));
    OtherIds(w, i);
  }

  lemma OtherIds(w: World, i: nat)
    requires RoguesOk(w) && i < |w.registry.rogues|
    ensures forall j :: 0 <= j < |w.registry.rogues| && j != i ==> w.registry.rogues[j].id != w.registry.rogues[i].id
  {}

  lemma IsOk(w: World, i: nat)
    requires WorldInv(w) && i < |w.registry.rogues|
    ensures RogueOk(w, w.registry.rogues[i])
  {}

  lemma FreePageKeeps(w: World, id: nat, reply: Reply)
    requires WorldInv(w) && FreeMay(w, FreePage(id, reply))
    ensures WorldInv(FreeDo(w, FreePage(id, reply)))
  {
    hide WorldInv, RogueOk, DropPage, FindId, Live;
    var i := FindId(w.registry.rogues, id, 0);
    var rogue := w.registry.rogues[i];
    IsOk(w, i);
    assert FreeDo(w, FreePage(id, reply)) ==
           DropPage(w, rogue.pages[w.freers[id]], reply).(freers := w.freers[id := w.freers[id] + 1]);
    hide FreeDo, FreeMay;
    DroppedKeeps(w, i, reply);
  }

  lemma DroppedKeeps(w: World, i: nat, reply: Reply)
    requires WorldInv(w) && i < |w.registry.rogues| && RogueOk(w, w.registry.rogues[i])
    requires w.registry.rogues[i].id in w.freers && w.freers[w.registry.rogues[i].id] < |w.registry.rogues[i].pages|
    requires Live(w.store, w.registry.rogues[i].pages[w.freers[w.registry.rogues[i].id]])
    ensures var (id, k) := (w.registry.rogues[i].id, w.freers[w.registry.rogues[i].id]);
      WorldInv(DropPage(w, w.registry.rogues[i].pages[k], reply).(freers := w.freers[id := k + 1]))
  {
    hide WorldInv, Inv, DropPage, RogueOk, HandoffOk, OwnersOk, Spares;
    var rogue := w.registry.rogues[i];
    var k := w.freers[rogue.id];
    DroppedMore(w, rogue, reply);
    DropLeaves(w, rogue.pages[k], reply);
    DropSpares(w, rogue, reply);
    RogueMoves(w, DropPage(w, rogue.pages[k], reply).(freers := w.freers[rogue.id := k + 1]), i);
  }

  lemma DropSpares(w: World, rogue: Rogue, reply: Reply)
    requires WorldInv(w) && RogueOk(w, rogue) && rogue.id in w.freers && w.freers[rogue.id] < |rogue.pages|
    requires Live(w.store, rogue.pages[w.freers[rogue.id]])
    ensures var w' := DropPage(w, rogue.pages[w.freers[rogue.id]], reply).(freers := w.freers[rogue.id := w.freers[rogue.id] + 1]);
      Inv(w'.store) && OwnersOk(w') && Spares(w, w', By(rogue.id))
  {
    hide WorldInv, Inv, DropPage, HandoffOk;
    var v := DropPage(w, rogue.pages[w.freers[rogue.id]], reply);
    DropLeaves(w, rogue.pages[w.freers[rogue.id]], reply);
    DropKeeps(w, rogue.id, rogue.pages, w.freers[rogue.id], reply);
    OwnersStill(v, v.(freers := w.freers[rogue.id := w.freers[rogue.id] + 1]));
    hide OwnersOk, RogueOk;
  }

  lemma OwnersStill(v: World, w': World)
    requires OwnersOk(v) && w' == v.(freers := w'.freers)
    ensures OwnersOk(w')
  {}

  lemma SameRanges(w: World, w': World)
    requires RangesOk(w) && w'.ranges == w.ranges && w'.holders == w.holders && w'.nextId == w.nextId
    ensures RangesOk(w')
  {}

  lemma DropLeaves(w: World, page: nat, reply: Reply)
    requires Live(w.store, page)
    ensures var v := DropPage(w, page, reply);
      && v.registry == w.registry && v.handoffs == w.handoffs && v.freers == w.freers && v.nextId == w.nextId
      && v.ranges == w.ranges && v.holders == w.holders
  {}

  lemma DroppedMore(w: World, rogue: Rogue, reply: Reply)
    requires WorldInv(w) && RogueOk(w, rogue) && rogue.id in w.freers && w.freers[rogue.id] < |rogue.pages|
    requires Live(w.store, rogue.pages[w.freers[rogue.id]])
    ensures RogueOk(DropPage(w, rogue.pages[w.freers[rogue.id]], reply).(freers := w.freers[rogue.id := w.freers[rogue.id] + 1]), rogue)
  {
    hide WorldInv, Inv, DropPage, OwnersOk, Live;
    DropLeaves(w, rogue.pages[w.freers[rogue.id]], reply);
    DropKeeps(w, rogue.id, rogue.pages, w.freers[rogue.id], reply);
    assert Keeps(w, rogue.id, rogue.range);
  }

  /** A rogue leaves the list only after every one of its references was dropped. */
  lemma FreeEndKeeps(w: World, id: nat, rangeOk: bool)
    requires WorldInv(w) && FreeMay(w, FreeEnd(id, rangeOk))
    ensures WorldInv(FreeDo(w, FreeEnd(id, rangeOk)))
    ensures forall j :: 0 <= j < |w.registry.rogues[FindId(w.registry.rogues, id, 0)].pages| ==>
              w.registry.rogues[FindId(w.registry.rogues, id, 0)].pages[j] in w.drops
  {
    var i := FindId(w.registry.rogues, id, 0);
    assert RogueOk(w, w.registry.rogues[i]);
    EndedKeeps(w, i, rangeOk);
  }

  lemma EndedKeeps(w: World, i: nat, rangeOk: bool)
    requires WorldInv(w) && i < |w.registry.rogues| && w.registry.rogues[i].id in w.freers
    requires w.registry.rogues[i].range in w.ranges && Keeps(w, w.registry.rogues[i].id, w.registry.rogues[i].range)
    ensures var (id, range) := (w.registry.rogues[i].id, w.registry.rogues[i].range);
      WorldInv(LeaveRange(w.(registry := w.registry.(rogues := RemoveAt(w.registry.rogues, i)), freers := w.freers - {id}),
                          range, By(id), rangeOk))
  {
    var id, range := w.registry.rogues[i].id, w.registry.rogues[i].range;
    var v := w.(registry := w.registry.(rogues := RemoveAt(w.registry.rogues, i)), freers := w.freers - {id});
    var w' := LeaveRange(v, range, By(id), rangeOk);
    assert OwnersOk(w') by { KeepsOwners(w, w'); }
    hide Inv, HandoffsOk, OwnersOk, RoguesOk, RemoveAt;
    LeaveSpares(w, range, By(id), rangeOk);
    RogueGone(w, w', i);
  }

  lemma RogueGone(w: World, w': World, i: nat)
    requires WorldInv(w) && i < |w.registry.rogues| && Spares(w, w', By(w.registry.rogues[i].id))
    requires w'.registry.rogues == RemoveAt(w.registry.rogues, i) && w'.handoffs == w.handoffs && w'.nextId == w.nextId
    requires w'.freers == w.freers - {w.registry.rogues[i].id} && HoldersShrink(w, w', w.registry.rogues[i].id)
    requires Inv(w'.store) && OwnersOk(w') && RangesOk(w')
    ensures WorldInv(w')
  {
    hide Inv, HandoffOk, OwnersOk, RangesOk;
    assert RogueOk(w, w.registry.rogues[i]);
    OthersSpared(w, w', By(w.registry.rogues[i].id));
    OtherIds(w, i);
  }

  lemma HandoffStepKeeps(w: World, s: Step)
    requires WorldInv(w) && HandoffMay(w, s) && !ByGraph(s) && !ByFree(s)
    ensures WorldInv(HandoffDo(w, s))
  {
    hide WorldInv;
    match s
    case HandoffStart(_, _, _) => StartKeeps(w, s);
    case HandoffRef(id, hostOk) => if hostOk { MakeRefKeeps(w, id); } else { GiveUpKeeps(w, id); }
    case HandoffName(id) => NameKeeps(w, id);
    case HandoffRange(id) => HoldKeeps(w, id);
    case HandoffDecide(id) => DecideKeeps(w, id);
    case HandoffUndo(id, reply, rangeOk) =>
      if w.handoffs[id].stage.next < |w.handoffs[id].made| { UndoPageKeeps(w, id, reply, rangeOk); } else { UndoEndKeeps(w, id, reply, rangeOk); }
  }

  lemma FreeStepKeeps(w: World, s: Step)
    requires WorldInv(w) && FreeMay(w, s) && ByFree(s)
    ensures WorldInv(FreeDo(w, s))
  {
    hide WorldInv;
    match s
    case FreeBegin(ptr) => BeginKeeps(w, ptr);
    case FreePage(id, reply) => FreePageKeeps(w, id, reply);
    case FreeEnd(id, rangeOk) => FreeEndKeeps(w, id, rangeOk);
  }

  lemma StepKeeps(w: World, s: Step)
    requires WorldInv(w)
    ensures WorldInv(Next(w, s))
  {
    hide WorldInv;
    if May(w, s) {
      if ByGraph(s) { GraphStepKeeps(w, s); } else if ByFree(s) { FreeStepKeeps(w, s); } else { HandoffStepKeeps(w, s); }
    }
  }

  function Run(w: World, steps: seq<Step>): World
    decreases |steps|
  {
    if steps == [] then w else Run(Next(w, steps[0]), steps[1..])
  }

  lemma {:induction false} RunKeeps(w: World, steps: seq<Step>)
    requires WorldInv(w)
    ensures WorldInv(Run(w, steps))
    decreases |steps|
  {
    if steps != [] {
      StepKeeps(w, steps[0]);
      RunKeeps(Next(w, steps[0]), steps[1..]);
    }
  }

  /**
    In every run: counts equal list lengths, charged bytes equal the live allocations' sizes,
    releases happen once and to unmapped allocations, and no reference is dropped twice.
  */
  lemma LedgerIsSound(steps: seq<Step>)
    ensures var w := Run(Initial(), steps);
      && (forall a :: a in w.store.allocs ==> w.store.allocs[a].refs == |w.store.allocs[a].references| > 0)
      && w.store.charged == SumBytes(w.store.allocs, w.store.nextAlloc)
      && Apart(w.store.released) && (forall i :: 0 <= i < |w.store.released| ==> w.store.released[i] !in w.store.allocs)
      && (forall m :: m in w.store.mapped ==> w.store.mapped[m] in w.store.allocs)
      && Apart(w.drops)
  {
    InitialInv();
    RunKeeps(Initial(), steps);
    var w := Run(Initial(), steps);
    forall m | m in w.store.mapped ensures w.store.mapped[m] in w.store.allocs { MappedIsLive(w.store, m); }
    forall a | a in w.store.allocs ensures w.store.allocs[a].refs == |w.store.allocs[a].references| > 0 {
      assert AllocationOk(w.store, a);
    }
  }

  lemma MappedIsLive(s: Store, m: nat)
    requires Inv(s) && m in s.mapped
    ensures s.mapped[m] in s.allocs
  {
    assert MappingHeld(s, m);
    var r :| r in s.refs && s.refs[r] == Ref(s.mapped[m], m);
    assert RefOk(s, r);
  }

  // ---------------------------------------------------------------- a rogue keeps its memory

  /** No step but the rogue's own late free changes or drops a reference the rogue holds. */
  lemma OwnedRefStays(w: World, s: Step, r: nat)
    requires WorldInv(w) && r in w.owner && w.owner[r].By? && r in w.store.refs
    requires w.owner[r].id !in w.handoffs && !(s.FreePage? && s.id == w.owner[r].id)
    ensures var w' := Next(w, s); r in w'.store.refs && w'.store.refs[r] == w.store.refs[r] && r in w'.owner && w'.owner[r] == w.owner[r]
  {
    if May(w, s) {
      if ByGraph(s) { GraphLeavesRef(w, s, r); }
      else if s.FreePage? { FreeLeavesRef(w, s, r); }
      else if !ByFree(s) { HandoffLeavesRef(w, s, r); }
    }
  }

  lemma GraphLeavesRef(w: World, s: Step, r: nat)
    requires WorldInv(w) && r in w.owner && w.owner[r].By? && r in w.store.refs && GraphMay(w, s) && ByGraph(s)
    ensures var w' := GraphDo(w, s); r in w'.store.refs && w'.store.refs[r] == w.store.refs[r] && r in w'.owner && w'.owner[r] == w.owner[r]
  {
    hide Inv, HandoffsOk, RoguesOk, RangesOk, PageUnref, MapReference;
    match s
    case GraphMap(page, address, mapOk, accessOk, reply) => MapReferenceKeepsOthers(w.store, page, address, mapOk, accessOk, reply);
    case GraphUnref(page, reply) => UnrefKeepsOthers(w.store, page, reply);
    case _ =>
  }

  lemma FreeLeavesRef(w: World, s: Step, r: nat)
    requires WorldInv(w) && r in w.owner && w.owner[r].By? && r in w.store.refs && FreeMay(w, s) && s.FreePage? && s.id != w.owner[r].id
    ensures var w' := FreeDo(w, s); r in w'.store.refs && w'.store.refs[r] == w.store.refs[r] && r in w'.owner && w'.owner[r] == w.owner[r]
  {
    hide Inv, HandoffsOk, RangesOk, OwnersOk, PageUnref;
    var rogue := w.registry.rogues[FindId(w.registry.rogues, s.id, 0)];
    assert RogueOk(w, rogue);
    UnrefKeepsOthers(w.store, rogue.pages[w.freers[s.id]], s.reply);
  }

  lemma HandoffLeavesRef(w: World, s: Step, r: nat)
    requires WorldInv(w) && r in w.owner && w.owner[r].By? && r in w.store.refs && HandoffMay(w, s) && !ByGraph(s) && !ByFree(s)
    requires w.owner[r].id !in w.handoffs
    ensures var w' := HandoffDo(w, s); r in w'.store.refs && w'.store.refs[r] == w.store.refs[r] && r in w'.owner && w'.owner[r] == w.owner[r]
  {
    hide Inv, RangesOk, RoguesOk, PageUnref;
    match s
    case HandoffName(id) => assert HandoffOk(w, id, w.handoffs[id]);
    case HandoffUndo(id, reply, rangeOk) =>
      assert HandoffOk(w, id, w.handoffs[id]);
      if w.handoffs[id].stage.next < |w.handoffs[id].made| {
        UnrefKeepsOthers(w.store, w.handoffs[id].made[w.handoffs[id].stage.next], reply);
      }
    case _ =>
  }

  /** The run has no late free of the rogue's pages. */
  predicate NoFreeOf(steps: seq<Step>, id: nat) {
    forall i :: 0 <= i < |steps| ==> !(steps[i].FreePage? && steps[i].id == id)
  }

  lemma HandoffIsNew(w: World, s: Step, id: nat)
    requires id !in w.handoffs && id < w.nextId
    ensures id !in Next(w, s).handoffs && id < Next(w, s).nextId
  {
    if May(w, s) {
      if ByGraph(s) { SameHandoffs(w, s); } else if ByFree(s) { SameHandoffsFree(w, s); } else { OnlyStartAdds(w, s, id); }
    }
  }

  lemma SameHandoffs(w: World, s: Step)
    requires GraphMay(w, s) && ByGraph(s)
    ensures GraphDo(w, s).handoffs == w.handoffs && w.nextId <= GraphDo(w, s).nextId
  {
    hide PageUnref, MapReference, PageRef, PageAlloc, RangeUnref, Register, Unregister;
  }

  lemma SameHandoffsFree(w: World, s: Step)
    requires FreeMay(w, s) && ByFree(s)
    ensures FreeDo(w, s).handoffs == w.handoffs && w.nextId <= FreeDo(w, s).nextId
  {
    hide PageUnref, RangeUnref, BeginFree, EndFree;
  }

  lemma OnlyStartAdds(w: World, s: Step, id: nat)
    requires HandoffMay(w, s) && !ByGraph(s) && !ByFree(s) && id !in w.handoffs && id < w.nextId
    ensures id !in HandoffDo(w, s).handoffs && id < HandoffDo(w, s).nextId
  {
    hide PageUnref, PageRef, RangeUnref, Decide, SetAddress;
    match s
    case HandoffStart(_, _, _) =>
    case HandoffRef(_, _) =>
    case HandoffUndo(_, _, _) =>
    case _ =>
  }

  /** Until its late free, every address of a rogue stays backed by the allocation it was handed off with. */
  lemma {:induction false} RogueKeepsBacking(w: World, steps: seq<Step>, r: nat)
    requires WorldInv(w) && r in w.owner && w.owner[r].By? && r in w.store.refs && w.owner[r].id !in w.handoffs
    requires w.owner[r].id < w.nextId && NoFreeOf(steps, w.owner[r].id) && w.store.refs[r].address != 0
    ensures var w' := Run(w, steps);
      && w.store.refs[r].address in w'.store.mapped
      && w'.store.mapped[w.store.refs[r].address] == w.store.refs[r].alloc
    decreases |steps|
  {
    if steps == [] {
      assert AddressOk(w.store, r);
    } else {
      StepKeeps(w, steps[0]);
      OwnedRefStays(w, steps[0], r);
      HandoffIsNew(w, steps[0], w.owner[r].id);
      assert NoFreeOf(steps[1..], w.owner[r].id);
      assert r in Next(w, steps[0]).owner;
      RogueKeepsBacking(Next(w, steps[0]), steps[1..], r);
    }
  }
}
