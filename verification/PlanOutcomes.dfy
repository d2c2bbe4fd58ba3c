/** Who answers a plan, with what, and on which snapshot: the steps of the plan pipeline in terms of
    the pending plans themselves. */
module PlanOutcomes {
  import opened Plans
  import opened PlanPipeline
  import opened PlanAnswers
  import opened PlanRuns
  import Heap

  // ---- one turn of a loop ----------------------------------------------------------

  /** The snapshot that a turn evaluates on: a new one unless an application is still under way and
      the loop has its optimistic view. */
  function SnapshotFor(s: State, l: Loop, fetched: Fetched): Fetched {
    if l.waitCh.NoWait? || l.snap.NoSnap? then fetched
    else if l.waitCh.c < |s.asyncs| && s.asyncs[l.waitCh.c].Closed? then fetched
    else l.snap
  }

  /** A turn up to the fast path: no snapshot and a failed evaluation are answered as such, an
      evaluation with no list left as a success, and any other is kept for submission. */
  lemma TurnOutcome(s: State, i: nat, fetched: Fetched)
    requires Allowed(s, EvaluateHeld(i, fetched))
    ensures var p, used, s' := s.loops[i].pc.p, SnapshotFor(s, s.loops[i], fetched), Apply(s, EvaluateHeld(i, fetched));
            && s'.loops[i].snap == used
            && s'.loops[i].waitCh == (if Ready(s, s.loops[i].waitCh) then NoWait else s.loops[i].waitCh)
            && (used.NoSnap? ==> s'.loops[i].pc.Idle? && s'.pend == Respond(s.pend, p, Failed(NoSnapshot)))
            && (used.Snap? ==>
                  match Evaluate(used.snap, s.pend[p].plan)
                  case Err => s'.loops[i].pc.Idle? && s'.pend == Respond(s.pend, p, Failed(BadEvaluation))
                  case Ok(r) =>
                    if r.nodeUpdate == map[] && r.nodeAllocation == map[]
                    then s'.loops[i].pc.Idle? && s'.pend == Respond(s.pend, p, Done(r))
                    else s'.loops[i].pc == Evaluated(p, r) && s'.pend == s.pend)
  {
    hide Evaluate, Respond;
    forall r: PlanResult
      ensures IsNoOp(r) <==> r.nodeUpdate == map[] && r.nodeAllocation == map[]
    {
      NoOpIff(r);
    }
    hide IsNoOp;
  }

  /** A submission: after a wait it needs a new snapshot; accepted, the result is with Raft and the
      plan unanswered. */
  lemma SubmitOutcome(s: State, i: nat, fetched: Fetched, accepted: bool, view: Fetched)
    requires Allowed(s, Submit(i, fetched, accepted, view))
    ensures var l, s' := s.loops[i], Apply(s, Submit(i, fetched, accepted, view));
            && s'.loops[i].pc.Idle?
            && (if l.waitCh.Wait? && fetched.NoSnap?
                then s'.pend == Respond(s.pend, l.pc.p, Failed(NoSnapshot)) && s'.asyncs == s.asyncs
                else if !accepted
                then s'.pend == Respond(s.pend, l.pc.p, Failed(NotSubmitted)) && s'.asyncs == s.asyncs
                else s'.pend == s.pend && s'.asyncs == s.asyncs + [Waiting(i, l.pc.p, l.pc.result)]
                     && s'.loops[i].waitCh == Wait(|s.asyncs|) && s'.loops[i].snap == view)
  {
    hide Respond;
  }

  // ---- who answers -----------------------------------------------------------------

  /** The answer that a step may give to a plan. */
  ghost predicate Answers(s: State, a: Action, p: nat, x: Answer)
    requires Allowed(s, a)
  {
    match a
    case Flush => x == Failed(Flushed)
    case EvaluateHeld(i, _) =>
      s.loops[i].pc.p == p
      && (x.Done? ==> x.result.nodeUpdate == map[] && x.result.nodeAllocation == map[])
    case Submit(i, _, _, _) => s.loops[i].pc.p == p && x.Failed?
    case RaftFails(c) => s.asyncs[c].p == p && x == Failed(NotApplied)
    case RaftApplies(c, index) => s.asyncs[c].p == p && x == Done(Applied(s.asyncs[c].result, index))
    case _ => false
  }

  lemma RespondAt(pend: seq<Pending>, p: nat, q: nat, x: Answer)
    requires q < |pend|
    ensures Respond(pend, p, x)[q] == if q == p then Answered(pend[q], x) else pend[q]
  {
  }

  /** A step leaves a plan alone, gives it the one answer it may, or takes one from its channel. */
  lemma PlanStep(s: State, at: seq<Place>, a: Action, p: nat) returns (x: Answer)
    requires Inv(s, at) && Allowed(s, a) && p < |s.pend|
    ensures p < |Apply(s, a).pend|
    ensures var q, q' := s.pend[p], Apply(s, a).pend[p];
            || q' == q
            || (q' == Answered(q, x) && Answers(s, a, p, x))
            || (a == Receive(p) && q' == q.(errCh := q.errCh[1..]))
  {
    hide LoopsPlaced, AsyncsPlaced, AnswersPlaced, QueueOk, Owned, Truthful, Heap.Push, Heap.Pop, Evaluate, RespondAll;
    x := Failed(Flushed);
    match a
    case EvaluateHeld(i, fetched) =>
      hide QueuePlaced;
      TurnOutcome(s, i, fetched);
      x := TurnAnswer(s, i, fetched, p);
    case Submit(i, fetched, accepted, view) =>
      hide QueuePlaced;
      SubmitOutcome(s, i, fetched, accepted, view);
      x := if s.loops[i].waitCh.Wait? && fetched.NoSnap? then Failed(NoSnapshot) else Failed(NotSubmitted);
      hide Respond;
      RespondAt(s.pend, s.loops[i].pc.p, p, x);
    case RaftFails(c) =>
      hide QueuePlaced;
      x := Failed(NotApplied);
    case RaftApplies(c, index) =>
      hide QueuePlaced;
      x := Done(Applied(s.asyncs[c].result, index));
    case Flush => FlushAt(s.ready, s.pend, at, Failed(Flushed), p);
    case _ =>
      hide QueuePlaced;
  }

  lemma TurnAnswer(s: State, i: nat, fetched: Fetched, p: nat) returns (x: Answer)
    requires Allowed(s, EvaluateHeld(i, fetched)) && p < |s.pend|
    ensures p < |Apply(s, EvaluateHeld(i, fetched)).pend|
    ensures var q' := Apply(s, EvaluateHeld(i, fetched)).pend[p];
            q' == s.pend[p] || (q' == Answered(s.pend[p], x) && Answers(s, EvaluateHeld(i, fetched), p, x))
  {
    TurnOutcome(s, i, fetched);
    hide Evaluate, Apply, Respond;
    var used, held := SnapshotFor(s, s.loops[i], fetched), s.loops[i].pc.p;
    x := Failed(NoSnapshot);
    if used.Snap? {
      match Evaluate(used.snap, s.pend[held].plan)
      case Err => x := Failed(BadEvaluation);
      case Ok(r) => x := if r.nodeUpdate == map[] && r.nodeAllocation == map[] then Done(r) else x;
    }
    RespondAt(s.pend, held, p, x);
  }

  /** Over every run, a positive answer with anything in it was given by the application of the plan
      through Raft, and carries that application's index. */
  lemma {:induction false} PositiveMeansApplied(run: seq<Action>, p: nat, r: PlanResult) returns (j: nat)
    requires IsRun(run) && p < |After(run).pend| && Done(r) in After(run).pend[p].sent
    requires r.nodeUpdate != map[] || r.nodeAllocation != map[]
    ensures j < |run| && IsRun(run[..j]) && run[j].RaftApplies?
    ensures var s, c := After(run[..j]), run[j].c;
            c < |s.asyncs| && s.asyncs[c].Waiting? && s.asyncs[c].p == p
            && r == Applied(s.asyncs[c].result, run[j].index) && r.allocIndex == run[j].index
    decreases |run|
  {
    hide Apply, Inv, Answers, Evaluate, Allowed;
    if run != [] {
      var last := |run| - 1;
      var pre, a := run[..last], run[last];
      var s := After(pre);
      if p < |s.pend| && Done(r) in s.pend[p].sent {
        j := PositiveMeansApplied(pre, p, r);
        assert run[..j] == pre[..j] && run[j] == pre[j];
      } else {
        j := last;
        AddedByRaft(pre, a, p, r);
      }
    }
  }

  lemma AddedByRaft(pre: seq<Action>, a: Action, p: nat, r: PlanResult)
    requires IsRun(pre) && Allowed(After(pre), a) && p < |Apply(After(pre), a).pend|
    requires Done(r) in Apply(After(pre), a).pend[p].sent
    requires p < |After(pre).pend| ==> Done(r) !in After(pre).pend[p].sent
    requires r.nodeUpdate != map[] || r.nodeAllocation != map[]
    ensures a.RaftApplies? && a.c < |After(pre).asyncs| && After(pre).asyncs[a.c].Waiting? && After(pre).asyncs[a.c].p == p
    ensures r == Applied(After(pre).asyncs[a.c].result, a.index)
  {
    hide After, IsRun, Inv, Evaluate;
    var s := After(pre);
    if p >= |s.pend| {
      NewPlanUnanswered(s, a, p);
    }
    var at := RunInv(pre);
    hide Apply;
    var x := PlanStep(s, at, a, p);
  }

  lemma NewPlanUnanswered(s: State, a: Action, p: nat)
    requires Allowed(s, a) && |s.pend| <= p < |Apply(s, a).pend|
    ensures Apply(s, a).pend[p].sent == []
  {
    hide Heap.Push, Heap.Pop, Evaluate, StepEvaluate, Earned, Honest, Respond, RespondAll;
    match a
    case EvaluateHeld(i, fetched) => var _, _ := EvaluateCases(s, i, fetched);
    case _ =>
  }

  /** A submitter receives the answer that was sent, and never another one. */
  lemma ReceivedOnce(run: seq<Action>, p: nat, a: Action)
    requires IsRun(run) && p < |After(run).pend| && Allowed(After(run), a)
    ensures var q := After(run).pend[p]; |q.errCh| > 0 ==> q.errCh == q.sent && |q.sent| == 1
    ensures p < |Apply(After(run), a).pend|
    ensures var q, q' := After(run).pend[p], Apply(After(run), a).pend[p];
            && (a == Receive(p) ==> q'.errCh == [] && q'.sent == q.sent)
            && (q.sent != [] && q.errCh == [] ==> q'.errCh == [])
  {
    hide After, IsRun, Evaluate, QueuePlaced, LoopsPlaced, AsyncsPlaced, QueueOk, Owned, Truthful, Answers;
    var s := After(run);
    var at := RunInv(run);
    assert SlotFits(s.pend[p], at[p].Over?);
    RespondNeverBlocks(run, a, p);
    var x := PlanStep(s, at, a, p);
    hide Apply;
  }
}
