/**
  Replay determinism: after any history of root frames without named scopes, rerunning the
  requests of any earlier frame is answered from the tree, with the same pointers, without
  breaking and without a driver call.
*/
module GraphReplay {
  import opened GraphModel

  /** What a frame without named scopes does: allocations, each with the place a recording would use, and frees. */
  datatype Op = Alloc(size: nat, place: Place) | Free(loc: Loc)

  function RequestOf(op: Op): Request {
    match op
    case Alloc(size, place) => AllocReq(size, place)
    case Free(loc) => FreeReq(loc)
  }

  function KeyOf(op: Op): Key {
    match op
    case Alloc(size, _) => KTake(size >= SMALL_LIMIT, size)
    case Free(loc) => KDrop(loc)
  }

  /** The answer a node gives when it is matched. */
  function AnswerOf(es: Events, node: nat): Answer {
    if node < |es| && es[node].kind.Take? then Pointer(es[node].kind.loc) else Done
  }

  function FindAt(es: Events, cursor: nat, key: Key): Found {
    if cursor < |es| then Find(es, cursor, key) else Nothing
  }

  /** The node reached from `node` by matching the operations one by one. */
  function Walk(es: Events, node: nat, ops: seq<Op>): Found
    decreases |ops|
  {
    if ops == [] then Child(node)
    else
      match FindAt(es, node, KeyOf(ops[0]))
      case Nothing => Nothing
      case Child(n) => Walk(es, n, ops[1..])
  }

  function Answers(es: Events, node: nat, ops: seq<Op>): seq<Answer>
    decreases |ops|
  {
    if ops == [] then []
    else
      match FindAt(es, node, KeyOf(ops[0]))
      case Nothing => []
      case Child(n) => [AnswerOf(es, n)] + Answers(es, n, ops[1..])
  }

  /** The tree answers the whole frame, with these answers, and the frame ends where the walk does. */
  predicate Replays(es: Events, ops: seq<Op>, answers: seq<Answer>) {
    Walk(es, 0, ops).Child? && FindAt(es, Walk(es, 0, ops).node, KEnd).Child? && Answers(es, 0, ops) == answers
  }

  // ---------------------------------------------------------------- running a frame

  function RunOps(g: Graph, ops: seq<Op>): (Graph, seq<Answer>)
    decreases |ops|
  {
    if ops == [] then (g, [])
    else
      var (r, answer) := Step(g, RequestOf(ops[0]));
      var (last, answers) := RunOps(r, ops[1..]);
      (last, [answer] + answers)
  }

  /** Opening a root frame if none is open, running the operations and leaving the frame. */
  function RunFrame(g: Graph, ops: seq<Op>): (Graph, seq<Answer>) {
    var (r, answers) := RunOps(if g.stack == [] then Step(g, RootReq).0 else g, ops);
    (Step(r, PopReq).0, answers)
  }

  // ---------------------------------------------------------------- the tree only grows, and first matches stay first

  /** `es'` extends `es`: old nodes keep their kind, and their children keep their places. */
  predicate Extended(es: Events, es': Events) {
    && |es| <= |es'|
    && forall n :: 0 <= n < |es| ==> es'[n].kind == es[n].kind && es[n].next <= es'[n].next
  }

  lemma {:induction false} FirstMatchStays(es: Events, es': Events, next: seq<nat>, next': seq<nat>, key: Key, i: nat)
    requires Extended(es, es') && next <= next' && i <= |next|
    requires FindChild(es, next, key, i) < |next|
    requires forall c :: c in next ==> c < |es|
    ensures FindChild(es', next', key, i) == FindChild(es, next, key, i)
    decreases |next| - i
  {
    assert next[i] in next && next'[i] == next[i];
    if !Matches(es[next[i]].kind, key) {
      FirstMatchStays(es, es', next, next', key, i + 1);
    }
  }

  predicate ChildrenInRange(es: Events) {
    forall n, c :: 0 <= n < |es| && c in es[n].next ==> c < |es|
  }

  lemma FindStays(es: Events, es': Events, cursor: nat, key: Key)
    requires Extended(es, es') && ChildrenInRange(es) && FindAt(es, cursor, key).Child?
    ensures FindAt(es', cursor, key) == FindAt(es, cursor, key)
    ensures AnswerOf(es', FindAt(es, cursor, key).node) == AnswerOf(es, FindAt(es, cursor, key).node)
  {
    FirstMatchStays(es, es', es[cursor].next, es'[cursor].next, key, 0);
  }

  lemma {:induction false} WalkStays(es: Events, es': Events, node: nat, ops: seq<Op>)
    requires Extended(es, es') && ChildrenInRange(es) && Walk(es, node, ops).Child?
    ensures Walk(es', node, ops) == Walk(es, node, ops) && Answers(es', node, ops) == Answers(es, node, ops)
    decreases |ops|
  {
    if ops != [] {
      FindStays(es, es', node, KeyOf(ops[0]));
      WalkStays(es, es', FindAt(es, node, KeyOf(ops[0])).node, ops[1..]);
    }
  }

  lemma ReplaysStays(es: Events, es': Events, ops: seq<Op>, answers: seq<Answer>)
    requires Extended(es, es') && ChildrenInRange(es) && Replays(es, ops, answers)
    ensures Replays(es', ops, answers)
  {
    WalkStays(es, es', 0, ops);
    FindStays(es, es', Walk(es, 0, ops).node, KEnd);
  }

  lemma ExtendedTransitive(a: Events, b: Events, c: Events)
    requires Extended(a, b) && Extended(b, c)
    ensures Extended(a, c)
  {}

  // ---------------------------------------------------------------- appending is found again

  lemma {:induction false} NoMatchBefore(es: Events, next: seq<nat>, key: Key, i: nat)
    requires i <= |next| && FindChild(es, next, key, i) == |next|
    ensures forall j :: i <= j < |next| ==> !(next[j] < |es| && Matches(es[next[j]].kind, key))
  {}

  /** An event recorded where nothing matched its key is what that key finds from then on. */
  lemma AppendedIsFound(es: Events, cursor: nat, kind: Kind, key: Key)
    requires cursor < |es| && Find(es, cursor, key) == Nothing && Matches(kind, key) && ChildrenInRange(es)
    ensures Find(Append(es, cursor, kind), cursor, key) == Child(|es|)
  {
    var es' := Append(es, cursor, kind);
    var next, next' := es[cursor].next, es'[cursor].next;
    var i := FindChild(es', next', key, 0);
    NoMatchBefore(es, next, key, 0);
    assert next' == next + [|es|];
    assert next'[|next|] == |es| && Matches(es'[|es|].kind, key);
    forall j | 0 <= j < |next| ensures !(next'[j] < |es'| && Matches(es'[next'[j]].kind, key)) {
      assert next[j] in next;
      assert es'[next[j]].kind == es[next[j]].kind;
    }
    assert i == |next|;
  }

  lemma AppendExtends(es: Events, cursor: nat, kind: Kind)
    requires cursor < |es| && ChildrenInRange(es)
    ensures Extended(es, Append(es, cursor, kind)) && ChildrenInRange(Append(es, cursor, kind))
  {
    var es' := Append(es, cursor, kind);
    forall n, c | 0 <= n < |es'| && c in es'[n].next ensures c < |es'| {
      if n == cursor && c != |es| { assert c in es[n].next; }
    }
  }

  // ---------------------------------------------------------------- one frame

  /** A frame in progress: the tree already answers what it did so far, and leads to its cursor. */
  predicate OnTrack(g: Graph, done: seq<Op>, answers: seq<Answer>) {
    && |g.stack| == 1 && !g.failed && Top(g).cursor < |g.es| && ChildrenInRange(g.es)
    && Walk(g.es, 0, done) == Child(Top(g).cursor) && Answers(g.es, 0, done) == answers
    && (Top(g).recording ==> g.es[Top(g).cursor].next == [])
  }

  lemma {:induction false} WalkOneMore(es: Events, node: nat, done: seq<Op>, op: Op)
    requires Walk(es, node, done).Child? && FindAt(es, Walk(es, node, done).node, KeyOf(op)).Child?
    ensures var n := FindAt(es, Walk(es, node, done).node, KeyOf(op)).node;
      Walk(es, node, done + [op]) == Child(n) && Answers(es, node, done + [op]) == Answers(es, node, done) + [AnswerOf(es, n)]
    decreases |done|
  {
    if done == [] {
      assert done + [op] == [op];
    } else {
      assert (done + [op])[1..] == done[1..] + [op];
      WalkOneMore(es, FindAt(es, node, KeyOf(done[0])).node, done[1..], op);
    }
  }

  /** A recorded allocation is placed in the heap its size calls for. */
  predicate WellPlaced(op: Op) {
    op.Alloc? && op.place.Place? ==> op.place.loc.Large? == (op.size >= SMALL_LIMIT)
  }

  lemma RecordedOnTrack(g: Graph, r: Graph, done: seq<Op>, answers: seq<Answer>, op: Op, kind: Kind)
    requires OnTrack(g, done, answers) && Find(g.es, Top(g).cursor, KeyOf(op)) == Nothing && Matches(kind, KeyOf(op))
    requires |r.stack| == 1 && !r.failed && r.es == Append(g.es, Top(g).cursor, kind) && Top(r).cursor == |g.es|
    ensures OnTrack(r, done + [op], answers + [AnswerOf(r.es, |g.es|)]) && Extended(g.es, r.es)
  {
    AppendExtends(g.es, Top(g).cursor, kind);
    AppendedIsFound(g.es, Top(g).cursor, kind, KeyOf(op));
    WalkStays(g.es, r.es, 0, done);
    WalkOneMore(r.es, 0, done, op);
  }

  lemma MatchedOnTrack(g: Graph, done: seq<Op>, answers: seq<Answer>, op: Op)
    requires OnTrack(g, done, answers) && !Top(g).recording && Find(g.es, Top(g).cursor, KeyOf(op)).Child?
    ensures var (r, answer) := Step(g, RequestOf(op));
      OnTrack(r, done + [op], answers + [answer]) && r.es == g.es
  {
    var n := Find(g.es, Top(g).cursor, KeyOf(op)).node;
    WalkOneMore(g.es, 0, done, op);
    assert Step(g, RequestOf(op)) == (Advance(g, n), AnswerOf(g.es, n));
  }

  lemma UnmatchedOnTrack(g: Graph, done: seq<Op>, answers: seq<Answer>, op: Op)
    requires OnTrack(g, done, answers) && WellPlaced(op)
    requires Find(g.es, Top(g).cursor, KeyOf(op)) == Nothing && !Step(g, RequestOf(op)).0.failed
    ensures var (r, answer) := Step(g, RequestOf(op));
      OnTrack(r, done + [op], answers + [answer]) && Extended(g.es, r.es)
  {
    var r := Step(g, RequestOf(op)).0;
    RecordedOnTrack(g, r, done, answers, op, if op.Alloc? then Take(op.place.loc, op.size) else Drop(op.loc));
  }

  lemma StepOnTrack(g: Graph, done: seq<Op>, answers: seq<Answer>, op: Op)
    requires OnTrack(g, done, answers) && WellPlaced(op)
    ensures var (r, answer) := Step(g, RequestOf(op));
      !r.failed ==> OnTrack(r, done + [op], answers + [answer]) && Extended(g.es, r.es)
  {
    if Find(g.es, Top(g).cursor, KeyOf(op)).Child? {
      MatchedOnTrack(g, done, answers, op);
    } else if !Step(g, RequestOf(op)).0.failed {
      UnmatchedOnTrack(g, done, answers, op);
    }
  }

  lemma {:induction false} FailureStays(g: Graph, ops: seq<Op>)
    requires g.failed
    ensures RunOps(g, ops).0.failed
    decreases |ops|
  {
    if ops != [] { FailureStays(Step(g, RequestOf(ops[0])).0, ops[1..]); }
  }

  lemma Regroup<T>(a: seq<T>, x: T, rest: seq<T>, whole: seq<T>)
    requires whole == [x] + rest
    ensures (a + [x]) + rest == a + whole
  {}

  lemma {:induction false} OpsOnTrack(g: Graph, done: seq<Op>, answers: seq<Answer>, ops: seq<Op>)
    requires OnTrack(g, done, answers) && forall i :: 0 <= i < |ops| ==> WellPlaced(ops[i])
    ensures var (r, more) := RunOps(g, ops);
      !r.failed ==> OnTrack(r, done + ops, answers + more) && Extended(g.es, r.es)
    decreases |ops|
  {
    assert Extended(g.es, g.es);
    hide OnTrack, Extended, Step, RequestOf;
    var (last, more) := RunOps(g, ops);
    if ops == [] {
      assert done + ops == done && answers + more == answers;
    } else {
      var (r, answer) := Step(g, RequestOf(ops[0]));
      if r.failed {
        FailureStays(r, ops[1..]);
      } else {
        StepOnTrack(g, done, answers, ops[0]);
        OpsOnTrack(r, done + [ops[0]], answers + [answer], ops[1..]);
        Regroup(done, ops[0], ops[1..], ops);
        Regroup(answers, answer, RunOps(r, ops[1..]).1, more);
        if !last.failed { ExtendedTransitive(g.es, r.es, last.es); }
      }
    }
  }

  /** A graph between root frames, or just created with its first root frame open. */
  predicate Startable(g: Graph) {
    && !g.failed && ChildrenInRange(g.es) && |g.es| > 0
    && (g.stack == [] || (|g.stack| == 1 && Top(g).cursor == 0 && Top(g).recording && g.es[0].next == []))
  }

  lemma PopOnTrack(g: Graph, done: seq<Op>, answers: seq<Answer>)
    requires OnTrack(g, done, answers) && |g.es| > 0
    ensures var r := Step(g, PopReq).0;
      !r.failed ==> Startable(r) && r.stack == [] && Replays(r.es, done, answers) && Extended(g.es, r.es)
  {
    var r := Step(g, PopReq).0;
    if Find(g.es, Top(g).cursor, KEnd) == Nothing && !r.failed {
      AppendExtends(g.es, Top(g).cursor, End);
      AppendedIsFound(g.es, Top(g).cursor, End, KEnd);
      WalkStays(g.es, r.es, 0, done);
    }
  }

  /** A root frame that completes is from then on answered by the tree with the answers it got. */
  lemma FrameReplays(g: Graph, ops: seq<Op>)
    requires Startable(g) && forall i :: 0 <= i < |ops| ==> WellPlaced(ops[i])
    ensures var (r, answers) := RunFrame(g, ops);
      !r.failed ==> Startable(r) && r.stack == [] && Replays(r.es, ops, answers) && Extended(g.es, r.es)
  {
    var open := if g.stack == [] then Step(g, RootReq).0 else g;
    var (last, answers) := RunOps(open, ops);
    OpsOnTrack(open, [], [], ops);
    assert [] + ops == ops && [] + answers == answers;
    if !last.failed {
      PopOnTrack(last, ops, answers);
      ExtendedTransitive(g.es, last.es, Step(last, PopReq).0.es);
    }
  }

  // ---------------------------------------------------------------- histories

  function RunHistory(g: Graph, frames: seq<seq<Op>>): Graph
    decreases |frames|
  {
    if frames == [] then g else RunHistory(RunFrame(g, frames[0]).0, frames[1..])
  }

  predicate AllWellPlaced(frames: seq<seq<Op>>) {
    forall j, i :: 0 <= j < |frames| && 0 <= i < |frames[j]| ==> WellPlaced(frames[j][i])
  }

  lemma {:induction false} FailedHistory(g: Graph, frames: seq<seq<Op>>)
    requires g.failed
    ensures RunHistory(g, frames).failed
    decreases |frames|
  {
    if frames != [] {
      FailureStays(if g.stack == [] then Step(g, RootReq).0 else g, frames[0]);
      FailedHistory(RunFrame(g, frames[0]).0, frames[1..]);
    }
  }

  lemma {:induction false} HistoryExtends(g: Graph, frames: seq<seq<Op>>)
    requires Startable(g) && AllWellPlaced(frames) && !RunHistory(g, frames).failed
    ensures Extended(g.es, RunHistory(g, frames).es) && Startable(RunHistory(g, frames))
    ensures frames != [] ==> RunHistory(g, frames).stack == []
    decreases |frames|
  {
    if frames != [] {
      var r := RunFrame(g, frames[0]).0;
      FrameReplays(g, frames[0]);
      if r.failed { FailedHistory(r, frames[1..]); }
      HistoryExtends(r, frames[1..]);
      ExtendedTransitive(g.es, r.es, RunHistory(g, frames).es);
    }
  }

  /** The answers the `j`-th frame of a history got. */
  function AnswersIn(g: Graph, frames: seq<seq<Op>>, j: nat): seq<Answer>
    requires j < |frames|
    decreases |frames|
  {
    if j == 0 then RunFrame(g, frames[0]).1 else AnswersIn(RunFrame(g, frames[0]).0, frames[1..], j - 1)
  }

  /** Every frame of a history that never failed is still answered by the tree, with the answers it got. */
  lemma {:induction false} HistoryReplays(g: Graph, frames: seq<seq<Op>>, j: nat)
    requires Startable(g) && AllWellPlaced(frames) && !RunHistory(g, frames).failed && j < |frames|
    ensures Replays(RunHistory(g, frames).es, frames[j], AnswersIn(g, frames, j))
    decreases |frames|
  {
    var r := RunFrame(g, frames[0]).0;
    FrameReplays(g, frames[0]);
    if r.failed { FailedHistory(r, frames[1..]); }
    if j == 0 {
      HistoryExtends(r, frames[1..]);
      ReplaysStays(r.es, RunHistory(g, frames).es, frames[0], AnswersIn(g, frames, 0));
    } else {
      HistoryReplays(r, frames[1..], j - 1);
    }
  }

  // ---------------------------------------------------------------- rerunning

  /** The same sizes and frees; the places a recording would need are never looked at. */
  predicate SameRequests(ops: seq<Op>, ops': seq<Op>) {
    |ops| == |ops'| && forall i :: 0 <= i < |ops| ==> KeyOf(ops[i]) == KeyOf(ops'[i])
  }

  lemma {:induction false} RerunOps(g: Graph, ops: seq<Op>, ops': seq<Op>)
    requires |g.stack| == 1 && !g.failed && !Top(g).recording && SameRequests(ops, ops')
    requires Walk(g.es, Top(g).cursor, ops).Child?
    requires Top(g).cursor < |g.es|
    ensures RunOps(g, ops').0 == Advance(g, Walk(g.es, Top(g).cursor, ops).node)
    ensures RunOps(g, ops').1 == Answers(g.es, Top(g).cursor, ops)
    ensures Walk(g.es, Top(g).cursor, ops).node < |g.es|
    decreases |ops|
  {
    if ops != [] {
      var n := FindAt(g.es, Top(g).cursor, KeyOf(ops[0])).node;
      assert KeyOf(ops'[0]) == KeyOf(ops[0]);
      assert Step(g, RequestOf(ops'[0])) == (Advance(g, n), AnswerOf(g.es, n));
      forall i | 0 <= i < |ops[1..]| ensures KeyOf(ops[1..][i]) == KeyOf(ops'[1..][i]) {
        assert KeyOf(ops[i + 1]) == KeyOf(ops'[i + 1]);
      }
      RerunOps(Advance(g, n), ops[1..], ops'[1..]);
    }
  }

  /** A frame the tree answers leaves the graph as it was: nothing recorded, mapped or changed, and the same pointers. */
  lemma RerunChangesNothing(g: Graph, ops: seq<Op>, answers: seq<Answer>, ops': seq<Op>)
    requires !g.failed && g.stack == [] && |g.es| > 0 && Replays(g.es, ops, answers) && SameRequests(ops, ops')
    ensures RunFrame(g, ops') == (g, answers)
    ensures RunOps(PushRoot(g), ops').0.stack != [] && !Top(RunOps(PushRoot(g), ops').0).recording
  {
    RerunOps(PushRoot(g), ops, ops');
  }

  /**
    After any history of leak-free root frames without named scopes, rerunning the requests of any
    earlier frame never breaks, returns the same pointers and makes no driver call.
  */
  lemma HistoryRerun(assertBreaks: bool, frames: seq<seq<Op>>, j: nat, ops': seq<Op>)
    requires AllWellPlaced(frames) && j < |frames| && SameRequests(frames[j], ops')
    requires !RunHistory(Created(assertBreaks), frames).failed
    ensures var g := RunHistory(Created(assertBreaks), frames);
      RunFrame(g, ops') == (g, AnswersIn(Created(assertBreaks), frames, j))
  {
    var g0 := Created(assertBreaks);
    HistoryReplays(g0, frames, j);
    HistoryExtends(g0, frames);
    RerunChangesNothing(RunHistory(g0, frames), frames[j], AnswersIn(g0, frames, j), ops');
  }
}
