/** The plan pipeline as a state machine: the plan queue, any number of planApply loops (each
    leadership starts one, and an old one may still be finishing), the goroutines that wait
    for Raft, and the one-slot channels that the submitters wait on. A pending plan is named
    by its number in order of submission; waitCh number c is closed when asyncs[c] is. */
module PlanPipeline {
  import opened Plans
  import Heap

  datatype Ticket = Ticket(id: nat, time: int)

  datatype Reason = Flushed | NoSnapshot | BadEvaluation | NotSubmitted | NotApplied

  datatype Answer = Failed(reason: Reason) | Done(result: PlanResult)

  /** A pending plan: errCh holds at most one answer; sent is every answer it was ever given. */
  datatype Pending = Pending(plan: Plan, time: int, errCh: seq<Answer>, sent: seq<Answer>)

  datatype Fetched = NoSnap | Snap(snap: Snapshot)

  datatype Pc = Idle | Held(p: nat) | Evaluated(p: nat, result: PlanResult) | Stopped

  datatype WaitCh = NoWait | Wait(c: nat)

  datatype Loop = Loop(pc: Pc, waitCh: WaitCh, snap: Fetched)

  datatype Async = Waiting(owner: nat, p: nat, result: PlanResult) | Replied(owner: nat) | Closed

  datatype State = State(
    enabled: bool,
    depth: int,
    ready: seq<Ticket>,
    pend: seq<Pending>,
    loops: seq<Loop>,
    asyncs: seq<Async>)

  datatype Action =
    | Enqueue(plan: Plan, time: int)
    | SetFlag(enabled: bool)
    | Flush
    | StartLoop
    | Take(i: nat)
    | Stop(i: nat)
    | EvaluateHeld(i: nat, fetched: Fetched)
    | Submit(i: nat, fetched: Fetched, accepted: bool, view: Fetched)
    | RaftFails(c: nat)
    | RaftApplies(c: nat, index: nat)
    | CloseWait(c: nat)
    | Receive(p: nat)

  const SLOTS := 1

  function Time(t: Ticket): int { t.time }

  // ---- the queue -------------------------------------------------------------------

  function Push(ready: seq<Ticket>, t: Ticket): seq<Ticket> {
    Heap.Push(Time, ready, t)
  }

  function Pop(ready: seq<Ticket>): (Ticket, seq<Ticket>)
    requires |ready| > 0
  {
    Heap.Pop(Time, ready)
  }

  function Answered(q: Pending, a: Answer): Pending {
    q.(errCh := q.errCh + [a], sent := q.sent + [a])
  }

  function Respond(pend: seq<Pending>, p: nat, a: Answer): (r: seq<Pending>)
    ensures |r| == |pend|
  {
    if p < |pend| then pend[p := Answered(pend[p], a)] else pend
  }

  function RespondAll(pend: seq<Pending>, ready: seq<Ticket>, a: Answer): (r: seq<Pending>)
    ensures |r| == |pend|
    decreases |ready|
  {
    if ready == [] then pend else RespondAll(Respond(pend, ready[0].id, a), ready[1..], a)
  }

  // ---- the steps -------------------------------------------------------------------

  /** A closed channel is always ready, an open or nil one is not. */
  predicate Ready(s: State, w: WaitCh) {
    w.Wait? && w.c < |s.asyncs| && s.asyncs[w.c].Closed?
  }

  predicate Allowed(s: State, a: Action) {
    match a
    case Take(i) => i < |s.loops| && s.loops[i].pc.Idle? && s.enabled && |s.ready| > 0
    case Stop(i) => i < |s.loops| && s.loops[i].pc.Idle? && !s.enabled
    case EvaluateHeld(i, _) => i < |s.loops| && s.loops[i].pc.Held? && s.loops[i].pc.p < |s.pend|
    case Submit(i, _, _, _) => i < |s.loops| && s.loops[i].pc.Evaluated?
                               && (s.loops[i].waitCh.NoWait? || Ready(s, s.loops[i].waitCh))
    case RaftFails(c) => c < |s.asyncs| && s.asyncs[c].Waiting?
    case RaftApplies(c, _) => c < |s.asyncs| && s.asyncs[c].Waiting?
    case CloseWait(c) => c < |s.asyncs| && s.asyncs[c].Replied?
    case Receive(p) => p < |s.pend| && |s.pend[p].errCh| > 0
    case _ => true
  }

  predicate IsNoOp(r: PlanResult) {
    |r.nodeUpdate| == 0 && |r.nodeAllocation| == 0
  }

  /** The loop answers its plan and goes for the next. */
  function Conclude(s: State, i: nat, l: Loop, p: nat, a: Answer): State
    requires i < |s.loops|
  {
    s.(loops := s.loops[i := l.(pc := Idle)], pend := Respond(s.pend, p, a))
  }

  /** From the check of the last application to the fast path of an empty result. */
  ghost function StepEvaluate(s: State, i: nat, fetched: Fetched): State
    requires i < |s.loops| && s.loops[i].pc.Held? && s.loops[i].pc.p < |s.pend|
  {
    var l := s.loops[i];
    var p := l.pc.p;
    var l1 := if Ready(s, l.waitCh) then l.(waitCh := NoWait, snap := NoSnap) else l;
    var fresh_ := l1.waitCh.NoWait? || l1.snap.NoSnap?;
    var l2 := if fresh_ then l1.(snap := fetched) else l1;
    if fresh_ && fetched.NoSnap? then Conclude(s, i, l2, p, Failed(NoSnapshot))
    else
      match Evaluate(l2.snap.snap, s.pend[p].plan)
      case Err => Conclude(s, i, l2, p, Failed(BadEvaluation))
      case Ok(r) =>
        if IsNoOp(r) then Conclude(s, i, l2, p, Done(r))
        else s.(loops := s.loops[i := l2.(pc := Evaluated(p, r))])
  }

  /** From the wait for the last application to the start of this one. */
  function StepSubmit(s: State, i: nat, fetched: Fetched, accepted: bool, view: Fetched): State
    requires i < |s.loops| && s.loops[i].pc.Evaluated?
  {
    var l := s.loops[i];
    var p := l.pc.p;
    var l1 := if l.waitCh.Wait? then l.(snap := fetched) else l;
    if l.waitCh.Wait? && fetched.NoSnap? then Conclude(s, i, l1, p, Failed(NoSnapshot))
    else if !accepted then Conclude(s, i, l1.(snap := view), p, Failed(NotSubmitted))
    else s.(loops := s.loops[i := Loop(Idle, Wait(|s.asyncs|), view)],
            asyncs := s.asyncs + [Waiting(i, p, l.pc.result)])
  }

  function RaftAnswer(s: State, c: nat, a: Answer): State
    requires c < |s.asyncs| && s.asyncs[c].Waiting?
  {
    s.(asyncs := s.asyncs[c := Replied(s.asyncs[c].owner)],
       pend := Respond(s.pend, s.asyncs[c].p, a))
  }

  ghost function Apply(s: State, a: Action): State
    requires Allowed(s, a)
  {
    match a
    case Enqueue(plan, time) =>
      if !s.enabled then s
      else s.(ready := Push(s.ready, Ticket(|s.pend|, time)),
              depth := s.depth + 1,
              pend := s.pend + [Pending(plan, time, [], [])])
    case SetFlag(enabled) => s.(enabled := enabled)
    case Flush => s.(pend := RespondAll(s.pend, s.ready, Failed(Flushed)), depth := 0, ready := [])
    case StartLoop => s.(loops := s.loops + [Loop(Idle, NoWait, NoSnap)])
    case Take(i) =>
      var (t, rest) := Pop(s.ready);
      s.(ready := rest, depth := s.depth - 1, loops := s.loops[i := s.loops[i].(pc := Held(t.id))])
    case Stop(i) => s.(loops := s.loops[i := s.loops[i].(pc := Stopped)])
    case EvaluateHeld(i, fetched) => StepEvaluate(s, i, fetched)
    case Submit(i, fetched, accepted, view) => StepSubmit(s, i, fetched, accepted, view)
    case RaftFails(c) => RaftAnswer(s, c, Failed(NotApplied))
    case RaftApplies(c, index) => RaftAnswer(s, c, Done(Applied(s.asyncs[c].result, index)))
    case CloseWait(c) => s.(asyncs := s.asyncs[c := Closed])
    case Receive(p) => s.(pend := s.pend[p := s.pend[p].(errCh := s.pend[p].errCh[1..])])
  }

  const START := State(false, 0, [], [], [], [])
}
