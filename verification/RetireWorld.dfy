/**
  The protocol between the threads that use VBAR pages, the queue registry, the device and the
  reclaim that never waits: a state machine whose steps are the regions under the two locks.
*/
module RetireWorld {
  import opened RetireModel

  /** A token that was issued for a piece of work; zero stands for an unknown queue. */
  datatype Use = Use(token: nat, work: Work)

  /** What a wait for the device waits for: everything submitted to some queues up to some moment. */
  datatype Marks = Marks(queues: set<nat>, lengths: map<nat, nat>)

  predicate Covered(m: Marks, w: Work) {
    w.queue in m.queues && w.pos < Length(m.lengths, w.queue)
  }

  datatype Stage = Frozen | Waiting(marks: Marks) | Ready | Spent

  /** A page chosen for eviction, as its identity was when it was frozen. */
  datatype Candidate = Candidate(page: nat, handle: nat, serial: nat, generation: nat, stage: Stage)

  datatype Drain = Calm | Closing | Draining(marks: Marks)

  datatype World = World(
    gpu: Gpu,
    reg: Registry,
    drain: Drain,
    issued: set<Use>,
    stamps: set<(nat, nat)>,
    nextPage: nat,
    pages: map<nat, Page>,
    uses: map<nat, set<Use>>,
    candidates: seq<Candidate>)

  datatype Kind = External | Capture

  /** How the driver answers the unmap and the release of a committed page. */
  datatype EvictReply = Freed | UnmapFails | Restored | RestoreFails | RestoreUnsure

  datatype Step =
    | SubmitStep(queue: nat)
    | CompleteStep(work: Work)
    | AcceptStep
    | NoteStep(queue: nat, refused: bool)
    | TokenStep(work: Work, refused: bool, d: Driver)
    | PeekStep(slot: nat, force: bool, d: Driver)
    | CloseStep
    | DrainStep
    | DrainedStep(ok: bool)
    | NewPageStep
    | ForgetPageStep(page: nat)
    | PinStep(page: nat)
    | CreateStep(page: nat, handle: nat)
    | RestoreStep(page: nat)
    | LoseStep(page: nat, page': Page)
    | DropPinStep(page: nat)
    | UnpinStep(page: nat, use: Use)
    | RegisterStep(page: nat, use: Use)
    | AcquireStep(page: nat, kind: Kind)
    | ReleaseStep(page: nat, kind: Kind, use: Use)
    | FreeIdleStep(page: nat, reply: EvictReply)
    | FreezeStep(page: nat, completed: seq<nat>)
    | FreezeReferenceStep(page: nat)
    | WaitStep(candidate: nat)
    | WaitedStep(candidate: nat, ok: bool)
    | CommitStep(candidate: nat, reply: EvictReply)

  // ---------------------------------------------------------------- the device and the registry

  function QueuesOf(reg: Registry, k: nat): (s: set<nat>)
    requires k <= |reg.slots|
    ensures forall i :: 0 <= i < k && reg.slots[i].owner.Owner? ==> reg.slots[i].owner.queue in s
  {
    if k == 0 then {}
    else QueuesOf(reg, k - 1) + (if reg.slots[k - 1].owner.Owner? then {reg.slots[k - 1].owner.queue} else {})
  }

  function MarksNow(w: World): Marks
    requires w.reg.count <= |w.reg.slots|
  {
    Marks(QueuesOf(w.reg, w.reg.count), w.gpu.lengths)
  }

  /** An event answers complete only when its barrier is done. */
  predicate Honest(gpu: Gpu, rq: RetireQueue, d: Driver) {
    rq.owner.Owner? ==> forall pos :: pos in d.seen ==> Work(rq.owner.queue, pos) in gpu.done
  }

  function TokenDo(w: World, work: Work, refused: bool, d: Driver): World
    requires w.reg.count <= |w.reg.slots|
  {
    var (reg', token) := IssueToken(w.reg, work.queue, refused, Length(w.gpu.lengths, work.queue), d);
    var (noted, i) := Note(w.reg, work.queue, refused);
    var closes := i < MAX_QUEUES && i < |noted.slots| && UseCloses(noted.slots[i], d);
    w.(reg := reg',
       gpu := if closes then SubmitBarrier(w.gpu, work.queue) else w.gpu,
       issued := if token != 0 then w.issued + {Use(token, work)} else w.issued)
  }

  /** The token is asked for after the work was submitted, and events answer honestly. */
  predicate TokenMay(w: World, work: Work, refused: bool, d: Driver) {
    && w.reg.count <= |w.reg.slots| && Submitted(w.gpu, work)
    && forall pos :: pos in d.seen ==> Work(work.queue, pos) in w.gpu.done
  }

  function PeekDo(w: World, i: nat, force: bool, d: Driver): World
    requires i < w.reg.count <= |w.reg.slots| && w.reg.slots[i].owner.Owner?
  {
    var rq := w.reg.slots[i];
    var rq' := Visit(rq, force, Length(w.gpu.lengths, rq.owner.queue), d);
    w.(reg := w.reg.(slots := w.reg.slots[i := rq']),
       gpu := if VisitCloses(rq, force, d) then SubmitBarrier(w.gpu, rq.owner.queue) else w.gpu,
       stamps := w.stamps + {(i, Stamp(rq'.incarnation, rq'.retiredGeneration))})
  }

  // ---------------------------------------------------------------- pages

  function SetPage(w: World, p: nat, page: Page): World {
    w.(pages := w.pages[p := page])
  }

  function UsesOf(w: World, p: nat): set<Use> {
    if p in w.uses then w.uses[p] else {}
  }

  /** The page remembers the use; a capture may hide an unknown one. */
  function ConsumeDo(w: World, p: nat, use: Use, captureShields: bool): World
    requires p in w.pages
  {
    var page' := Consume(w.pages[p], use.token, captureShields);
    var hidden := use.token == 0 && captureShields && w.pages[p].capture > 0;
    w.(pages := w.pages[p := page'], uses := if hidden then w.uses else w.uses[p := UsesOf(w, p) + {use}])
  }

  /** A thread records a token it was given, or none. */
  predicate InHand(w: World, use: Use) {
    use.token != 0 ==> use in w.issued
  }

  function HoldsOf(page: Page, kind: Kind): nat {
    if kind.External? then page.external else page.capture
  }

  function SetHolds(page: Page, kind: Kind, n: nat): Page {
    if kind.External? then page.(external := n) else page.(capture := n)
  }

  /** What may be frozen: mapped, unpinned, not held and not already frozen. */
  predicate Idle(page: Page) {
    IsMapped(page) && page.pins == 0 && !Held(page) && !page.evicting
  }

  function Freeze(w: World, p: nat): World
    requires p in w.pages
  {
    var page := w.pages[p].(evicting := true, generation := w.pages[p].generation + 1);
    SetPage(w, p, page).(candidates := w.candidates + [Candidate(p, page.handle, page.serial, page.generation, Frozen)])
  }

  function SetStage(w: World, c: nat, stage: Stage): World
    requires c < |w.candidates|
  {
    w.(candidates := w.candidates[c := w.candidates[c].(stage := stage)])
  }

  /** The page's identity is still the one that was frozen. */
  predicate StillFrozen(page: Page, c: Candidate) {
    page.evicting && page.generation == c.generation
  }

  /** What the final validation lets through to the unmap. */
  predicate Committable(page: Page, c: Candidate) {
    && StillFrozen(page, c) && page.pins == 0 && !Held(page) && IsMapped(page)
    && page.handle == c.handle && page.serial == c.serial && !page.unknown
  }

  /** Unmapping and releasing the page, with every way the driver may fail. */
  function Evict(page: Page, reply: EvictReply): Page {
    match reply
    case Freed => page.(handle := 0, mapping := Unmapped, evicting := false, tokens := [], unknown := false)
    case UnmapFails => page.(evicting := false)
    case Restored => page.(evicting := false)
    case RestoreFails => page.(evicting := false, mapping := Unmapped, unknown := true)
    case RestoreUnsure => page.(evicting := false, mapping := Indeterminate, unknown := true)
  }

  function CommitDo(w: World, c: nat, reply: EvictReply): World
    requires c < |w.candidates|
  {
    var cand := w.candidates[c];
    var spent := SetStage(w, c, Spent);
    if cand.page !in w.pages then spent
    else
      var page := w.pages[cand.page];
      if Committable(page, cand) then
        SetPage(spent, cand.page, Evict(page, reply)).(uses := if reply.Freed? then w.uses[cand.page := {}] else w.uses)
      else if StillFrozen(page, cand) then
        // An unknown page keeps its frozen mark off but its generation: the unmap itself declines.
        SetPage(spent, cand.page, if StopsLate(page, cand) then page.(evicting := false) else CancelEviction(page))
      else spent
  }

  /** The validation passes but the unmap declines, because a consumer is unknown. */
  predicate StopsLate(page: Page, c: Candidate) {
    page.pins == 0 && !Held(page) && IsMapped(page) && page.handle == c.handle && page.serial == c.serial
  }

  /** A failed wait takes the candidate's page back, unless it changed meanwhile. */
  function CancelDo(w: World, c: nat): World
    requires c < |w.candidates|
  {
    var cand := w.candidates[c];
    var spent := SetStage(w, c, Spent);
    if cand.page in w.pages && StillFrozen(w.pages[cand.page], cand) then
      SetPage(spent, cand.page, CancelEviction(w.pages[cand.page]))
    else spent
  }

  // ---------------------------------------------------------------- which steps may be taken

  predicate PageMay(w: World, s: Step) {
    match s
    case ForgetPageStep(p) => p in w.pages
    case PinStep(p) => p in w.pages && IsMapped(w.pages[p])
    case CreateStep(p, handle) => p in w.pages && !IsMapped(w.pages[p]) && handle != 0
    case RestoreStep(p) => p in w.pages && w.pages[p].handle != 0 && w.pages[p].mapping.Unmapped?
    case LoseStep(p, page') => p in w.pages && !IsMapped(w.pages[p]) && Loses(w.pages[p], page')
    case DropPinStep(p) => p in w.pages && w.pages[p].pins > 0
    case UnpinStep(p, use) => p in w.pages && w.pages[p].pins > 0 && InHand(w, use)
    case RegisterStep(p, use) => p in w.pages && IsMapped(w.pages[p]) && w.pages[p].pins > 0 && InHand(w, use)
    case AcquireStep(p, kind) => p in w.pages && IsMapped(w.pages[p])
    case ReleaseStep(p, kind, use) =>
      p in w.pages && IsMapped(w.pages[p]) && HoldsOf(w.pages[p], kind) > 0 && InHand(w, use)
    case FreeIdleStep(p, reply) => p in w.pages && Idle(w.pages[p]) && !w.pages[p].unknown
    case FreezeStep(p, completed) =>
      && p in w.pages && Idle(w.pages[p]) && RetireComplete(w.pages[p], completed)
      && forall i :: 0 <= i < |completed| ==> (i, completed[i]) in w.stamps
    case FreezeReferenceStep(p) => p in w.pages && Idle(w.pages[p]) && !w.pages[p].unknown
    case _ => true
  }

  /** A failed attempt to map or restore a page may change its handle and mapping and poison it, nothing else. */
  predicate Loses(page: Page, page': Page) {
    && !IsMapped(page') && (page.unknown ==> page'.unknown)
    && page' == page.(handle := page'.handle, mapping := page'.mapping, unknown := page'.unknown)
  }

  predicate May(w: World, s: Step) {
    match s
    case SubmitStep(queue) => true
    case CompleteStep(work) => MayComplete(w.gpu, work)
    case AcceptStep => w.drain.Calm?
    case NoteStep(queue, refused) => w.reg.count <= |w.reg.slots|
    case TokenStep(work, refused, d) => TokenMay(w, work, refused, d)
    case PeekStep(i, force, d) =>
      i < w.reg.count <= |w.reg.slots| && w.reg.slots[i].owner.Owner? && Honest(w.gpu, w.reg.slots[i], d)
    case CloseStep => w.drain.Calm?
    case DrainStep => w.drain.Closing? && w.reg.count <= |w.reg.slots|
    case DrainedStep(ok) => w.drain.Draining? && (ok ==> DrainedAll(w))
    case WaitStep(c) => c < |w.candidates| && w.candidates[c].stage.Frozen? && w.reg.count <= |w.reg.slots|
    case WaitedStep(c, ok) => c < |w.candidates| && w.candidates[c].stage.Waiting? && (ok ==> WaitedAll(w, c))
    case CommitStep(c, reply) => c < |w.candidates| && w.candidates[c].stage.Ready?
    case _ => PageMay(w, s)
  }

  predicate MarksDone(m: Marks, done: set<Work>) {
    forall q, pos: nat :: q in m.queues && pos < Length(m.lengths, q) ==> Work(q, pos) in done
  }

  predicate DrainedAll(w: World)
    requires w.drain.Draining?
  {
    MarksDone(w.drain.marks, w.gpu.done)
  }

  predicate WaitedAll(w: World, c: nat)
    requires c < |w.candidates| && w.candidates[c].stage.Waiting?
  {
    MarksDone(w.candidates[c].stage.marks, w.gpu.done)
  }

  // ---------------------------------------------------------------- the steps

  function PageDo(w: World, s: Step): World
    requires PageMay(w, s)
  {
    match s
    case NewPageStep => SetPage(w, w.nextPage, Page(0, Unmapped, 0, 0, 0, 0, [], false, false, 0)).(nextPage := w.nextPage + 1)
    case ForgetPageStep(p) => w.(pages := w.pages - {p})
    case PinStep(p) => SetPage(w, p, CancelEviction(w.pages[p]).(pins := w.pages[p].pins + 1))
    case CreateStep(p, handle) =>
      SetPage(w, p, w.pages[p].(handle := handle, mapping := Mapped, evicting := false,
                                serial := w.pages[p].serial + 1, pins := w.pages[p].pins + 1))
    case RestoreStep(p) => SetPage(w, p, w.pages[p].(mapping := Mapped))
    case LoseStep(p, page') => SetPage(w, p, page')
    case DropPinStep(p) => SetPage(w, p, w.pages[p].(pins := w.pages[p].pins - 1))
    case UnpinStep(p, use) => SetPage(ConsumeDo(w, p, use, true), p,
                                Consume(w.pages[p], use.token, true).(pins := w.pages[p].pins - 1))
    case RegisterStep(p, use) => ConsumeDo(w, p, use, true)
    case AcquireStep(p, kind) =>
      SetPage(w, p, SetHolds(CancelEviction(w.pages[p]), kind, HoldsOf(w.pages[p], kind) + 1))
    case ReleaseStep(p, kind, use) =>
      SetPage(ConsumeDo(w, p, use, false), p,
              SetHolds(Consume(w.pages[p], use.token, false), kind, HoldsOf(w.pages[p], kind) - 1))
    case FreeIdleStep(p, reply) =>
      SetPage(w, p, Evict(w.pages[p], reply)).(uses := if reply.Freed? then w.uses[p := {}] else w.uses)
    case FreezeStep(p, completed) => SetStage(Freeze(w, p), |w.candidates|, Ready)
    case FreezeReferenceStep(p) => Freeze(w, p)
    case _ => w
  }

  function Do(w: World, s: Step): World
    requires May(w, s)
  {
    match s
    case SubmitStep(queue) => w.(gpu := Submit(w.gpu, queue))
    case CompleteStep(work) => w.(gpu := w.gpu.(done := w.gpu.done + {work}))
    case AcceptStep => w.(reg := w.reg.(accepting := true))
    case NoteStep(queue, refused) => w.(reg := Note(w.reg, queue, refused).0)
    case TokenStep(work, refused, d) => TokenDo(w, work, refused, d)
    case PeekStep(i, force, d) => PeekDo(w, i, force, d)
    case CloseStep => w.(reg := w.reg.(accepting := false), drain := Closing)
    case DrainStep => w.(drain := Draining(MarksNow(w)))
    case DrainedStep(ok) => if ok then w.(reg := Reset(w.reg), drain := Calm) else w.(drain := Calm)
    case WaitStep(c) => SetStage(w, c, Waiting(MarksNow(w)))
    case WaitedStep(c, ok) => if ok then SetStage(w, c, Ready) else CancelDo(w, c)
    case CommitStep(c, reply) => CommitDo(w, c, reply)
    case _ => PageDo(w, s)
  }

  function Next(w: World, s: Step): World {
    if May(w, s) then Do(w, s) else w
  }

  function Initial(): World {
    World(Gpu(map[], {}, {}), NewRegistry(), Calm, {}, {}, 0, map[], map[], [])
  }

  // ---------------------------------------------------------------- what must never happen

  /** The step reaches the driver's unmap of a page. */
  predicate Unmaps(w: World, s: Step) {
    && s.CommitStep? && May(w, s)
    && w.candidates[s.candidate].page in w.pages
    && Committable(w.pages[w.candidates[s.candidate].page], w.candidates[s.candidate])
  }

  /** Every use recorded for the page is complete. */
  predicate UsesDone(w: World, p: nat) {
    forall u :: u in UsesOf(w, p) ==> u.work in w.gpu.done
  }
}
