/**
  What a break rebuilds, what a balanced push and pop leaves alone, and what abort registers.
*/
module GraphRebuild {
  import opened GraphModel
  import opened GraphTree
  import opened GraphSafety
  import opened GraphRuns

  /** The recorder's state is exactly what the innermost frame means. */
  predicate Exact(g: Graph) {
    g.stack != [] && Top(g).recording && !g.failed && g.alloc == Mean(g, |g.stack| - 1).alloc
  }

  // ---------------------------------------------------------------- single steps on an exact state

  /** After a break the recorder holds exactly what the frame means. */
  lemma BreakIsExact(g: Graph)
    requires Inv(g) && !g.failed && g.stack != [] && !Top(g).recording && !g.assertBreaks
    ensures Exact(Ready(g)) && Top(Ready(g)).tracked == Mean(g, |g.stack| - 1).tracked
  {
    ReadyKeeps(g);
  }

  lemma TakeStaysExact(g: Graph, loc: Loc, bytes: nat, sp: Space, phys: nat, small: nat)
    requires Inv(g) && Exact(g) && Top(g).cursor < |g.es|
    requires Grows(g.space, sp) && CanTake(sp, g.alloc, loc, Units(loc, bytes))
    ensures Exact(RecordTake(g, loc, bytes, sp, phys, small))
    ensures Top(RecordTake(g, loc, bytes, sp, phys, small)).tracked ==
            Mean(RecordTake(g, loc, bytes, sp, phys, small), |g.stack| - 1).tracked
  {
    RecordTakeKeeps(g, loc, bytes, sp, phys, small);
    assert FrameOk(g, |g.stack| - 1);
  }

  predicate EnteredExactly(g: Graph, k: nat)
    requires 0 < k < |g.stack|
  {
    Mean(g, k).scope < |g.es| && g.es[Mean(g, k).scope].kind.Scope? &&
    g.es[Mean(g, k).scope].kind.snapshot == Mean(g, k - 1).alloc
  }

  /** An exact scope that ends holding nothing gives its caller back exactly the caller's state. */
  lemma EndRestoresCaller(g: Graph)
    requires Inv(g) && Exact(g) && |g.stack| >= 2 && Top(g).cursor < |g.es|
    requires Mean(g, |g.stack| - 1).tracked == [] && EnteredExactly(g, |g.stack| - 1)
    ensures RecordEnd(g).alloc == Mean(RecordEnd(g), |g.stack| - 2).alloc
  {
    FrameSem(g, |g.stack| - 1);
    EmptyFrameIsSnapshot(g.es, g.space, Mean(g, |g.stack| - 1));
    RecordEndKeeps(g);
  }

  // ---------------------------------------------------------------- the caller's frame

  /** The frame itself, its meaning and what its client holds survive any request made in a frame above it. */
  lemma OuterFrameUnchanged(g: Graph, ledger: Ledger, q: Request, k: nat)
    requires Inv(g) && Agrees(g, ledger) && Fair(ledger, q) && Sound(g, q) && k + 1 < |g.stack|
    ensures k < |Step(g, q).0.stack|
    ensures Step(g, q).0.stack[k] == g.stack[k] && Mean(Step(g, q).0, k) == Mean(g, k)
  {
    CursorOk(g);
    OuterFrameKept(g, q, k);
    StepGrows(g, q);
    assert FrameOk(g, k);
    MeaningStable(g.es, Step(g, q).0.es, g.stack[k].cursor);
  }

  lemma OuterFrameKept(g: Graph, q: Request, k: nat)
    requires k + 1 < |g.stack|
    ensures k < |Step(g, q).0.stack| && Step(g, q).0.stack[k] == g.stack[k]
  {
    match q
    case AllocReq(size, place) =>
    case FreeReq(loc) =>
    case _ =>
  }

  lemma GrownItself(es: Events)
    ensures Grown(es, es)
  {}

  lemma PushGrows(g: Graph, name: string)
    requires g.stack != [] && Top(g).cursor < |g.es|
    ensures Grown(g.es, DoPush(g, name).0.es)
  {
    AppendGrows(g.es, Top(g).cursor, Call(name, |g.es| + 1));
    hide Append;
  }

  lemma StepGrows(g: Graph, q: Request)
    ensures Grown(g.es, Step(g, q).0.es)
  {
    hide Append, Grown, DoPush;
    GrownItself(g.es);
    if !g.failed && !q.RootReq? && g.stack != [] && Top(g).cursor < |g.es| {
      match q
      case AllocReq(size, place) => if place.Place? { AppendGrows(g.es, Top(g).cursor, Take(place.loc, size)); }
      case FreeReq(loc) => AppendGrows(g.es, Top(g).cursor, Drop(loc));
      case PushReq(name) => PushGrows(g, name);
      case PopReq => AppendGrows(g.es, Top(g).cursor, End);
    }
  }

  /** Requests made above frame `k`, none of which closes it. */
  predicate StaysAbove(g: Graph, ledger: Ledger, qs: seq<Request>, k: nat)
    decreases |qs|
  {
    qs == [] ||
    (k + 1 < |g.stack| &&
     var (r, answer) := Step(g, qs[0]);
     StaysAbove(r, Record(ledger, qs[0], answer, r.failed), qs[1..], k))
  }

  /** A balanced push and pop, with anything in between, leaves the caller's frame and what it holds unchanged. */
  lemma {:induction false} BalancedRunKeepsCaller(g: Graph, ledger: Ledger, qs: seq<Request>, k: nat)
    requires Inv(g) && Agrees(g, ledger) && FairRun(g, ledger, qs) && StaysAbove(g, ledger, qs, k) && k < |g.stack|
    ensures var (r, books) := Run(g, ledger, qs);
      k < |r.stack| && r.stack[k] == g.stack[k] && Mean(r, k) == Mean(g, k) && k < |books| && books[k] == ledger[k]
    decreases |qs|
  {
    if qs != [] {
      var (r, answer) := Step(g, qs[0]);
      StepKeeps(g, ledger, qs[0]);
      OuterFrameUnchanged(g, ledger, qs[0], k);
      BalancedRunKeepsCaller(r, Record(ledger, qs[0], answer, r.failed), qs[1..], k);
    }
  }

  function KeyOf(q: Request): Key {
    match q
    case AllocReq(size, _) => KTake(size >= SMALL_LIMIT, size)
    case FreeReq(loc) => KDrop(loc)
    case PushReq(name) => KCall(name)
    case _ => KEnd
  }

  // ---------------------------------------------------------------- abort

  /** The candidates abort registers: every frame's tracked list after its state was rebuilt, innermost first. */
  function AbortCandidates(g: Graph, k: nat): seq<nat>
    requires k <= |g.stack|
  {
    if k == 0 then [] else Mean(g, k - 1).tracked + AbortCandidates(g, k - 1)
  }

  function LocOf(es: Events, e: nat): Loc {
    if e < |es| && es[e].kind.Take? then es[e].kind.loc else Small(0)
  }

  /** A frame's tracked list names each of its allocations once, and nothing else. */
  lemma TrackedIsHeld(es: Events, sp: Space, s: Sem)
    requires SemOk(es, sp, s)
    ensures forall e :: e in s.tracked ==> LocOf(es, e) in HeldBy(s) && s.alloc[LocOf(es, e)].ev == e
    ensures forall l :: l in HeldBy(s) ==> s.alloc[l].ev in s.tracked
    ensures NoDuplicates(s.tracked)
  {
    forall e | e in s.tracked ensures LocOf(es, e) in HeldBy(s) && s.alloc[LocOf(es, e)].ev == e {
      assert LiveEvent(es, s.alloc, e);
    }
    forall l | l in HeldBy(s) ensures s.alloc[l].ev in s.tracked { assert Accounted(es[s.scope].kind.snapshot, s, l); }
  }

  predicate HeldSomewhere(g: Graph, k: nat, loc: Loc)
    requires k <= |g.stack|
  {
    exists j :: 0 <= j < k && loc in HeldBy(Mean(g, j))
  }

  /** Abort, failed graph or not, registers exactly the live allocations of the open frames. */
  lemma {:induction false} AbortRegistersHeld(g: Graph, k: nat)
    requires Inv(g) && k <= |g.stack|
    ensures forall e :: e in AbortCandidates(g, k) ==> HeldSomewhere(g, k, LocOf(g.es, e))
    ensures forall l :: HeldSomewhere(g, k, l) ==> exists e :: e in AbortCandidates(g, k) && LocOf(g.es, e) == l
  {
    if k > 0 {
      AbortRegistersHeld(g, k - 1);
      FrameSem(g, k - 1);
      var s := Mean(g, k - 1);
      TrackedIsHeld(g.es, g.space, s);
      var rest := AbortCandidates(g, k - 1);
      forall e | e in AbortCandidates(g, k) ensures HeldSomewhere(g, k, LocOf(g.es, e)) {
        if e !in s.tracked { assert e in rest; assert HeldSomewhere(g, k - 1, LocOf(g.es, e)); }
      }
      forall l | HeldSomewhere(g, k, l) ensures exists e :: e in AbortCandidates(g, k) && LocOf(g.es, e) == l {
        if l in HeldBy(s) {
          var e := s.alloc[l].ev;
          assert e in s.tracked && e in AbortCandidates(g, k);
          FrameSem(g, k - 1);
          assert MadeBy(g.es, l, s.alloc[l]);
        } else {
          assert HeldSomewhere(g, k - 1, l);
          var e :| e in rest && LocOf(g.es, e) == l;
          assert e in AbortCandidates(g, k);
        }
      }
    }
  }

  /** No allocation is registered twice. */
  lemma {:induction false} AbortRegistersOnce(g: Graph, k: nat)
    requires Inv(g) && k <= |g.stack|
    ensures NoDuplicates(AbortCandidates(g, k))
  {
    if k > 0 {
      AbortRegistersOnce(g, k - 1);
      FrameSem(g, k - 1);
      var s := Mean(g, k - 1);
      TrackedIsHeld(g.es, g.space, s);
      var rest := AbortCandidates(g, k - 1);
      forall e | e in rest ensures e < s.scope { OuterCandidateIsOlder(g, k - 1, e); }
      assert forall e :: e in s.tracked ==> e > s.scope;
      JoinHasNoDuplicates(s.tracked, rest, s.scope);
    }
  }

  lemma JoinHasNoDuplicates(a: seq<nat>, b: seq<nat>, bound: nat)
    requires NoDuplicates(a) && NoDuplicates(b)
    requires (forall e :: e in a ==> e > bound) && (forall e :: e in b ==> e < bound)
    ensures NoDuplicates(a + b)
  {
    assert forall i :: 0 <= i < |a| ==> a[i] in a;
    assert forall i :: 0 <= i < |b| ==> b[i] in b;
  }

  lemma OuterCandidateIsOlder(g: Graph, k: nat, e: nat)
    requires Inv(g) && k < |g.stack| && e in AbortCandidates(g, k)
    ensures e < Mean(g, k).scope
  {
    AbortRegistersHeld(g, k);
    var j := CandidateFrame(g, k, e);
    FrameSem(g, j);
    TrackedIsHeld(g.es, g.space, Mean(g, j));
    var l := LocOf(g.es, e);
    InnerSnapshotExtends(g, j, k);
    FrameSem(g, k);
    assert g.es[Mean(g, k).scope].kind.snapshot[l].ev == e;
  }

  lemma {:induction false} CandidateFrame(g: Graph, k: nat, e: nat) returns (j: nat)
    requires k <= |g.stack| && e in AbortCandidates(g, k)
    ensures j < k && e in Mean(g, j).tracked
  {
    if e in Mean(g, k - 1).tracked { j := k - 1; } else { j := CandidateFrame(g, k - 1, e); }
  }
}
