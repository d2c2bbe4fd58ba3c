/** Whole runs of the plan pipeline. */
module PlanRuns {
  import opened Plans
  import opened PlanPipeline
  import opened PlanAnswers
  import Heap
  import Sums

  ghost predicate QueueOk(s: State) {
    Heap.IsHeap(Time, s.ready) && s.depth == |s.ready|
  }

  /** A goroutine that has not closed its channel is the one its loop waits for. */
  ghost predicate Owned(loops: seq<Loop>, asyncs: seq<Async>) {
    && (forall c {:trigger asyncs[c]} :: 0 <= c < |asyncs| && !asyncs[c].Closed? ==>
          asyncs[c].owner < |loops| && loops[asyncs[c].owner].waitCh == Wait(c))
    && (forall i {:trigger loops[i]} :: 0 <= i < |loops| && loops[i].waitCh.Wait? ==> loops[i].waitCh.c < |asyncs|)
  }

  ghost predicate AllHonest(plan: Plan, sent: seq<Answer>) {
    forall k :: 0 <= k < |sent| ==> Honest(plan, sent[k])
  }

  ghost predicate LoopsEarned(loops: seq<Loop>, pend: seq<Pending>) {
    forall i {:trigger loops[i]} :: 0 <= i < |loops| && loops[i].pc.Evaluated? ==>
      loops[i].pc.p < |pend| && Earned(pend[loops[i].pc.p].plan, loops[i].pc.result)
  }

  ghost predicate AsyncsEarned(asyncs: seq<Async>, pend: seq<Pending>) {
    forall c {:trigger asyncs[c]} :: 0 <= c < |asyncs| && asyncs[c].Waiting? ==>
      asyncs[c].p < |pend| && Earned(pend[asyncs[c].p].plan, asyncs[c].result)
  }

  ghost predicate SentHonest(pend: seq<Pending>) {
    forall p {:trigger pend[p]} :: 0 <= p < |pend| ==> AllHonest(pend[p].plan, pend[p].sent)
  }

  /** Every result on its way is of its own plan, and every answer given was honest. */
  ghost predicate Truthful(s: State) {
    LoopsEarned(s.loops, s.pend) && AsyncsEarned(s.asyncs, s.pend) && SentHonest(s.pend)
  }

  lemma StepQueue(s: State, a: Action)
    requires QueueOk(s) && Allowed(s, a)
    ensures QueueOk(Apply(s, a))
    ensures a.Take? ==> Pop(s.ready).0 in s.ready && forall t :: t in s.ready ==> Pop(s.ready).0.time <= t.time
  {
    hide Heap.Push, Heap.Pop, Respond, RespondAll, Evaluate;
    match a
    case Enqueue(plan, time) => Heap.PushKeepsHeap(Time, s.ready, Ticket(|s.pend|, time));
    case Take(i) =>
      Heap.PopTakesMin(Time, s.ready);
      assert Pop(s.ready).0 in multiset(s.ready);
      forall t | t in s.ready ensures Pop(s.ready).0.time <= t.time {
        assert Time(Pop(s.ready).0) <= Time(t);
      }
    case _ =>
  }

  // ---- ownership -------------------------------------------------------------------

  lemma OwnedLoop(loops: seq<Loop>, asyncs: seq<Async>, i: nat, l: Loop)
    requires Owned(loops, asyncs) && i < |loops|
    requires l.waitCh == loops[i].waitCh
             || (l.waitCh.NoWait? && loops[i].waitCh.Wait? && asyncs[loops[i].waitCh.c].Closed?)
    ensures Owned(loops[i := l], asyncs)
  {
    var loops' := loops[i := l];
    forall c {:trigger asyncs[c]} | 0 <= c < |asyncs| && !asyncs[c].Closed?
      ensures asyncs[c].owner < |loops'| && loops'[asyncs[c].owner].waitCh == Wait(c)
    {
    }
    forall j {:trigger loops'[j]} | 0 <= j < |loops'| && loops'[j].waitCh.Wait?
      ensures loops'[j].waitCh.c < |asyncs|
    {
      assert loops[j] == loops[j];
    }
  }

  lemma OwnedStart(loops: seq<Loop>, asyncs: seq<Async>, l: Loop)
    requires Owned(loops, asyncs) && l.waitCh.NoWait?
    ensures Owned(loops + [l], asyncs)
  {
    var loops' := loops + [l];
    forall j {:trigger loops'[j]} | 0 <= j < |loops'| && loops'[j].waitCh.Wait?
      ensures loops'[j].waitCh.c < |asyncs|
    {
      assert loops[j] == loops'[j];
    }
  }

  lemma OwnedSubmit(loops: seq<Loop>, asyncs: seq<Async>, i: nat, l: Loop, a: Async)
    requires Owned(loops, asyncs) && i < |loops|
    requires loops[i].waitCh.NoWait? || asyncs[loops[i].waitCh.c].Closed?
    requires l.waitCh == Wait(|asyncs|) && a.Waiting? && a.owner == i
    ensures Owned(loops[i := l], asyncs + [a])
  {
    var loops', asyncs' := loops[i := l], asyncs + [a];
    forall c {:trigger asyncs'[c]} | 0 <= c < |asyncs'| && !asyncs'[c].Closed?
      ensures asyncs'[c].owner < |loops'| && loops'[asyncs'[c].owner].waitCh == Wait(c)
    {
      if c < |asyncs| {
        assert asyncs[c] == asyncs'[c];
      }
    }
    forall j {:trigger loops'[j]} | 0 <= j < |loops'| && loops'[j].waitCh.Wait?
      ensures loops'[j].waitCh.c < |asyncs'|
    {
      assert loops[j] == loops[j];
    }
  }

  lemma OwnedAsync(loops: seq<Loop>, asyncs: seq<Async>, c: nat, a: Async)
    requires Owned(loops, asyncs) && c < |asyncs|
    requires a.Closed? || (!asyncs[c].Closed? && a.owner == asyncs[c].owner)
    ensures Owned(loops, asyncs[c := a])
  {
    var asyncs' := asyncs[c := a];
    forall d {:trigger asyncs'[d]} | 0 <= d < |asyncs'| && !asyncs'[d].Closed?
      ensures asyncs'[d].owner < |loops| && loops[asyncs'[d].owner].waitCh == Wait(d)
    {
      assert asyncs[d] == asyncs[d];
    }
  }

  lemma StepOwned(s: State, a: Action)
    requires Owned(s.loops, s.asyncs) && Allowed(s, a)
    ensures Owned(Apply(s, a).loops, Apply(s, a).asyncs)
  {
    hide Owned, Heap.Push, Heap.Pop, Respond, RespondAll, Evaluate, StepEvaluate, Earned, Honest;
    match a
    case StartLoop => OwnedStart(s.loops, s.asyncs, Loop(Idle, NoWait, NoSnap));
    case Take(i) => OwnedLoop(s.loops, s.asyncs, i, s.loops[i].(pc := Held(Pop(s.ready).0.id)));
    case Stop(i) => OwnedLoop(s.loops, s.asyncs, i, s.loops[i].(pc := Stopped));
    case EvaluateHeld(i, fetched) =>
      var l, _ := EvaluateCases(s, i, fetched);
      OwnedLoop(s.loops, s.asyncs, i, StepEvaluate(s, i, fetched).loops[i]);
    case Submit(i, fetched, accepted, view) =>
      var s' := StepSubmit(s, i, fetched, accepted, view);
      if |s'.asyncs| == |s.asyncs| {
        OwnedLoop(s.loops, s.asyncs, i, s'.loops[i]);
      } else {
        OwnedSubmit(s.loops, s.asyncs, i, s'.loops[i], s'.asyncs[|s.asyncs|]);
      }
    case RaftFails(c) => OwnedAsync(s.loops, s.asyncs, c, Replied(s.asyncs[c].owner));
    case RaftApplies(c, _) => OwnedAsync(s.loops, s.asyncs, c, Replied(s.asyncs[c].owner));
    case CloseWait(c) => OwnedAsync(s.loops, s.asyncs, c, Closed);
    case _ =>
  }

  // ---- honest answers --------------------------------------------------------------

  /** The plans stay, new ones may follow. */
  ghost predicate PlansStay(pend: seq<Pending>, pend': seq<Pending>) {
    |pend| <= |pend'| && forall p {:trigger pend'[p]} :: 0 <= p < |pend| ==> pend'[p].plan == pend[p].plan
  }

  lemma EarnedStays(loops: seq<Loop>, asyncs: seq<Async>, pend: seq<Pending>, pend': seq<Pending>)
    requires LoopsEarned(loops, pend) && AsyncsEarned(asyncs, pend) && PlansStay(pend, pend')
    ensures LoopsEarned(loops, pend') && AsyncsEarned(asyncs, pend')
  {
    hide Earned;
  }

  lemma LoopEarns(loops: seq<Loop>, pend: seq<Pending>, i: nat, l: Loop)
    requires LoopsEarned(loops, pend) && i < |loops|
    requires l.pc.Evaluated? ==> l.pc.p < |pend| && Earned(pend[l.pc.p].plan, l.pc.result)
    ensures LoopsEarned(loops[i := l], pend)
  {
    hide Earned;
    var loops' := loops[i := l];
    forall j {:trigger loops'[j]} | 0 <= j < |loops'| && loops'[j].pc.Evaluated?
      ensures loops'[j].pc.p < |pend| && Earned(pend[loops'[j].pc.p].plan, loops'[j].pc.result)
    {
      assert loops[j] == loops[j];
    }
  }

  lemma RespondHonest(pend: seq<Pending>, p: nat, a: Answer)
    requires SentHonest(pend) && (p < |pend| ==> Honest(pend[p].plan, a))
    ensures SentHonest(Respond(pend, p, a)) && PlansStay(pend, Respond(pend, p, a))
  {
    hide Honest;
    var pend' := Respond(pend, p, a);
    forall q {:trigger pend'[q]} | 0 <= q < |pend'|
      ensures AllHonest(pend'[q].plan, pend'[q].sent)
    {
      assert AllHonest(pend[q].plan, pend[q].sent);
    }
  }

  lemma {:induction false} RespondAllHonest(pend: seq<Pending>, ready: seq<Ticket>, a: Answer)
    requires SentHonest(pend) && a.Failed?
    ensures SentHonest(RespondAll(pend, ready, a)) && PlansStay(pend, RespondAll(pend, ready, a))
    decreases |ready|
  {
    hide Respond, SentHonest;
    if ready != [] {
      RespondHonest(pend, ready[0].id, a);
      RespondAllHonest(Respond(pend, ready[0].id, a), ready[1..], a);
    }
  }

  lemma ConcludeTruthful(s: State, i: nat, l: Loop, p: nat, a: Answer)
    requires Truthful(s) && i < |s.loops| && (p < |s.pend| ==> Honest(s.pend[p].plan, a))
    ensures Truthful(Conclude(s, i, l, p, a))
  {
    hide LoopsEarned, AsyncsEarned, SentHonest, Respond, Honest;
    RespondHonest(s.pend, p, a);
    EarnedStays(s.loops, s.asyncs, s.pend, Respond(s.pend, p, a));
    LoopEarns(s.loops, Respond(s.pend, p, a), i, l.(pc := Idle));
  }

  lemma SubmitTruthful(s: State, i: nat, fetched: Fetched, accepted: bool, view: Fetched)
    requires Truthful(s) && Allowed(s, Submit(i, fetched, accepted, view))
    ensures Truthful(StepSubmit(s, i, fetched, accepted, view))
  {
    hide LoopsEarned, AsyncsEarned, SentHonest, Respond, Earned;
    var l := s.loops[i];
    var p := l.pc.p;
    var l1 := if l.waitCh.Wait? then l.(snap := fetched) else l;
    if l.waitCh.Wait? && fetched.NoSnap? {
      ConcludeTruthful(s, i, l1, p, Failed(NoSnapshot));
    } else if !accepted {
      ConcludeTruthful(s, i, l1.(snap := view), p, Failed(NotSubmitted));
    } else {
      LoopEarns(s.loops, s.pend, i, Loop(Idle, Wait(|s.asyncs|), view));
      AsyncEarns(s.loops, s.asyncs, s.pend, i);
    }
  }

  lemma AsyncEarns(loops: seq<Loop>, asyncs: seq<Async>, pend: seq<Pending>, i: nat)
    requires LoopsEarned(loops, pend) && AsyncsEarned(asyncs, pend) && i < |loops| && loops[i].pc.Evaluated?
    ensures AsyncsEarned(asyncs + [Waiting(i, loops[i].pc.p, loops[i].pc.result)], pend)
  {
    hide Earned;
  }

  lemma AsyncAnswers(asyncs: seq<Async>, pend: seq<Pending>, c: nat, a: Async)
    requires AsyncsEarned(asyncs, pend) && c < |asyncs| && !a.Waiting?
    ensures AsyncsEarned(asyncs[c := a], pend)
  {
    hide Earned;
    var asyncs' := asyncs[c := a];
    forall d {:trigger asyncs'[d]} | 0 <= d < |asyncs'| && asyncs'[d].Waiting?
      ensures asyncs'[d].p < |pend| && Earned(pend[asyncs'[d].p].plan, asyncs'[d].result)
    {
      assert asyncs[d] == asyncs'[d];
    }
  }

  lemma AppliedHonest(asyncs: seq<Async>, pend: seq<Pending>, c: nat, index: nat)
    requires AsyncsEarned(asyncs, pend) && c < |asyncs| && asyncs[c].Waiting?
    ensures asyncs[c].p < |pend| && Honest(pend[asyncs[c].p].plan, Done(Applied(asyncs[c].result, index)))
  {
    hide Earned;
  }

  lemma RaftTruthful(s: State, c: nat, a: Answer)
    requires Truthful(s) && c < |s.asyncs| && s.asyncs[c].Waiting?
    requires s.asyncs[c].p < |s.pend| ==> Honest(s.pend[s.asyncs[c].p].plan, a)
    ensures Truthful(RaftAnswer(s, c, a))
  {
    hide LoopsEarned, AsyncsEarned, SentHonest, Respond, Honest;
    var p := s.asyncs[c].p;
    RespondHonest(s.pend, p, a);
    EarnedStays(s.loops, s.asyncs, s.pend, Respond(s.pend, p, a));
    AsyncAnswers(s.asyncs, Respond(s.pend, p, a), c, Replied(s.asyncs[c].owner));
  }

  lemma EnqueueTruthful(s: State, q: Pending)
    requires Truthful(s) && q.sent == []
    ensures Truthful(s.(pend := s.pend + [q]))
  {
    hide LoopsEarned, AsyncsEarned, Honest;
    EarnedStays(s.loops, s.asyncs, s.pend, s.pend + [q]);
    var pend' := s.pend + [q];
    forall p {:trigger pend'[p]} | 0 <= p < |pend'|
      ensures AllHonest(pend'[p].plan, pend'[p].sent)
    {
      if p < |s.pend| {
        assert pend'[p] == s.pend[p];
      }
    }
  }

  lemma ReceiveTruthful(s: State, p: nat)
    requires Truthful(s) && Allowed(s, Receive(p))
    ensures Truthful(Apply(s, Receive(p)))
  {
    hide LoopsEarned, AsyncsEarned, Honest;
    var pend' := Apply(s, Receive(p)).pend;
    EarnedStays(s.loops, s.asyncs, s.pend, pend');
    forall q {:trigger pend'[q]} | 0 <= q < |pend'|
      ensures AllHonest(pend'[q].plan, pend'[q].sent)
    {
      assert AllHonest(s.pend[q].plan, s.pend[q].sent);
    }
  }

  lemma EvaluateTruthful(s: State, i: nat, fetched: Fetched)
    requires Truthful(s) && Allowed(s, EvaluateHeld(i, fetched))
    ensures Truthful(StepEvaluate(s, i, fetched))
  {
    hide LoopsEarned, AsyncsEarned, SentHonest, Respond, Honest, Earned, StepEvaluate, Evaluate;
    var l, a := EvaluateCases(s, i, fetched);
    if StepEvaluate(s, i, fetched).loops[i].pc.Idle? {
      ConcludeTruthful(s, i, l, s.loops[i].pc.p, a);
    } else {
      LoopEarns(s.loops, s.pend, i, l);
    }
  }

  lemma StepTruthful(s: State, a: Action)
    requires Truthful(s) && Allowed(s, a)
    ensures Truthful(Apply(s, a))
  {
    hide LoopsEarned, AsyncsEarned, SentHonest, Respond, RespondAll, Honest, Earned, StepEvaluate, StepSubmit, RaftAnswer, Evaluate, Heap.Push, Heap.Pop;
    match a
    case Enqueue(plan, time) => if s.enabled { EnqueueTruthful(s, Pending(plan, time, [], [])); }
    case SetFlag(_) =>
    case Flush =>
      RespondAllHonest(s.pend, s.ready, Failed(Flushed));
      EarnedStays(s.loops, s.asyncs, s.pend, RespondAll(s.pend, s.ready, Failed(Flushed)));
    case StartLoop => LoopStartsEarned(s.loops, s.pend, Loop(Idle, NoWait, NoSnap));
    case Take(i) => LoopEarns(s.loops, s.pend, i, s.loops[i].(pc := Held(Pop(s.ready).0.id)));
    case Stop(i) => LoopEarns(s.loops, s.pend, i, s.loops[i].(pc := Stopped));
    case EvaluateHeld(i, fetched) => EvaluateTruthful(s, i, fetched);
    case Submit(i, fetched, accepted, view) => SubmitTruthful(s, i, fetched, accepted, view);
    case RaftFails(c) => FailedHonest(); RaftTruthful(s, c, Failed(NotApplied));
    case RaftApplies(c, index) =>
      AppliedHonest(s.asyncs, s.pend, c, index);
      RaftTruthful(s, c, Done(Applied(s.asyncs[c].result, index)));
    case CloseWait(c) => AsyncAnswers(s.asyncs, s.pend, c, Closed);
    case Receive(p) => ReceiveTruthful(s, p);
  }

  lemma FailedHonest()
    ensures forall plan, reason :: Honest(plan, Failed(reason))
  {
  }

  lemma LoopStartsEarned(loops: seq<Loop>, pend: seq<Pending>, l: Loop)
    requires LoopsEarned(loops, pend) && l.pc.Idle?
    ensures LoopsEarned(loops + [l], pend)
  {
    hide Earned;
  }

  // ---- whole runs ------------------------------------------------------------------

  ghost predicate Inv(s: State, at: seq<Place>) {
    Placed(s, at) && QueueOk(s) && Owned(s.loops, s.asyncs) && Truthful(s)
  }

  lemma StepInv(s: State, at: seq<Place>, a: Action)
    requires Inv(s, at) && Allowed(s, a)
    ensures Inv(Apply(s, a), Next(s, a, at))
  {
    hide Placed, QueueOk, Owned, Truthful, Apply, Next;
    StepPlaces(s, at, a);
    StepQueue(s, a);
    StepOwned(s, a);
    StepTruthful(s, a);
  }

  ghost predicate IsRun(run: seq<Action>)
    decreases |run|, 0
  {
    run == [] || (IsRun(run[..|run| - 1]) && Allowed(After(run[..|run| - 1]), run[|run| - 1]))
  }

  /** The state after a run. */
  ghost function After(run: seq<Action>): State
    requires IsRun(run)
    decreases |run|, 1
  {
    if run == [] then START else Apply(After(run[..|run| - 1]), run[|run| - 1])
  }

  lemma {:induction false} RunInv(run: seq<Action>) returns (at: seq<Place>)
    requires IsRun(run)
    ensures Inv(After(run), at)
    decreases |run|
  {
    hide Apply, Placed, QueueOk, Owned, Truthful;
    if run == [] {
      at := [];
      StartInv();
    } else {
      var before := RunInv(run[..|run| - 1]);
      StepInv(After(run[..|run| - 1]), before, run[|run| - 1]);
      at := Next(After(run[..|run| - 1]), run[|run| - 1], before);
    }
  }

  lemma StartInv()
    ensures Inv(START, [])
  {
  }

  /** No plan is lost or answered twice: after every run each accepted plan is in exactly one
      place, and the depth is the length of the queue. */
  lemma NeverLost(run: seq<Action>)
    requires IsRun(run)
    ensures exists at :: Placed(After(run), at)
    ensures After(run).depth == |After(run).ready|
  {
    hide Placed, After;
    var at := RunInv(run);
  }

  /** Only answers are added. */
  lemma SentGrows(s: State, a: Action, p: nat)
    requires Allowed(s, a) && p < |s.pend|
    ensures p < |Apply(s, a).pend| && s.pend[p].sent <= Apply(s, a).pend[p].sent
  {
    hide Heap.Push, Heap.Pop, Evaluate, StepEvaluate, Earned, Honest;
    match a
    case EvaluateHeld(i, fetched) => var l, x := EvaluateCases(s, i, fetched);
    case Flush => RespondAllGrows(s.pend, s.ready, Failed(Flushed), p);
    case _ =>
  }

  lemma {:induction false} RespondAllGrows(pend: seq<Pending>, ready: seq<Ticket>, a: Answer, p: nat)
    requires p < |pend|
    ensures pend[p].sent <= RespondAll(pend, ready, a)[p].sent
    decreases |ready|
  {
    if ready != [] {
      RespondAllGrows(Respond(pend, ready[0].id, a), ready[1..], a, p);
    }
  }

  lemma AnsweredOnce(s: State, at: seq<Place>, p: nat)
    requires Placed(s, at) && p < |s.pend|
    ensures |s.pend[p].sent| <= 1 && |s.pend[p].errCh| <= |s.pend[p].sent|
  {
    hide QueuePlaced, LoopsPlaced, AsyncsPlaced;
    assert SlotFits(s.pend[p], at[p].Over?);
  }

  /** Whatever step answers a plan, it is the plan's first answer and finds room in its
      channel: respond never blocks. */
  lemma RespondNeverBlocks(run: seq<Action>, a: Action, p: nat)
    requires IsRun(run) && Allowed(After(run), a) && p < |After(run).pend|
    ensures p < |Apply(After(run), a).pend|
    ensures Apply(After(run), a).pend[p].sent != After(run).pend[p].sent ==>
              After(run).pend[p].sent == [] && |After(run).pend[p].errCh| < SLOTS
  {
    hide Placed, After, Apply, QueueOk, Owned, Truthful, Next;
    var s := After(run);
    var at := RunInv(run);
    StepInv(s, at, a);
    SentGrows(s, a, p);
    AnsweredOnce(s, at, p);
    AnsweredOnce(Apply(s, a), Next(s, a, at), p);
  }

  /** Each planApply loop has at most one application under way. */
  lemma OneApplicationPerLoop(run: seq<Action>, c: nat, d: nat)
    requires IsRun(run) && c < |After(run).asyncs| && d < |After(run).asyncs|
    requires !After(run).asyncs[c].Closed? && !After(run).asyncs[d].Closed?
    requires After(run).asyncs[c].owner == After(run).asyncs[d].owner
    ensures c == d
  {
    hide Placed, After;
    var at := RunInv(run);
    var s := After(run);
    assert s.asyncs[c] == s.asyncs[c] && s.asyncs[d] == s.asyncs[d];
  }

  /** A dequeue takes the plan that was enqueued first. */
  lemma OldestFirst(run: seq<Action>, i: nat, t: Ticket)
    requires IsRun(run) && Allowed(After(run), Take(i)) && t in After(run).ready
    ensures Pop(After(run).ready).0 in After(run).ready && Pop(After(run).ready).0.time <= t.time
  {
    hide Placed, After, Apply, Heap.Pop, Owned, Truthful;
    var at := RunInv(run);
    StepQueue(After(run), Take(i));
  }

  /** A worker that gets a result can trust it: the commit was full exactly when no refresh is
      asked for, and a refresh covers the index of the commit itself. */
  lemma AnswersAreTrue(run: seq<Action>, p: nat, r: PlanResult)
    requires IsRun(run) && p < |After(run).pend| && Done(r) in After(run).pend[p].sent
    ensures var plan := After(run).pend[p].plan;
            && (Sums.TotalLength(Did(plan, r)) == Sums.TotalLength(plan.nodeAllocation) <==> r.refreshIndex == 0)
            && (r.refreshIndex != 0 ==> r.refreshIndex >= r.allocIndex)
  {
    hide Placed, After, Owned;
    var at := RunInv(run);
    var q := After(run).pend[p];
    assert AllHonest(q.plan, q.sent);
    assert Honest(q.plan, Done(r));
    HonestIsTrue(q.plan, r);
  }

  lemma HonestIsTrue(plan: Plan, r: PlanResult)
    requires Honest(plan, Done(r))
    ensures Sums.TotalLength(Did(plan, r)) == Sums.TotalLength(plan.nodeAllocation) <==> r.refreshIndex == 0
    ensures r.refreshIndex != 0 ==> r.refreshIndex >= r.allocIndex
  {
    hide Did, Sums.TotalLength;
    if Earned(plan, r) {
      var snap :| Evaluate(snap, plan) == Ok(r);
      FullCommitIffNoRefresh(snap, plan);
      EvaluateAllocIndex(snap, plan);
    } else {
      var r0, index :| Earned(plan, r0) && r == Applied(r0, index);
      var snap :| Evaluate(snap, plan) == Ok(r0);
      AnswerTellsPartialCommit(snap, plan, index);
    }
  }

  lemma EvaluateAllocIndex(snap: Snapshot, plan: Plan)
    ensures Evaluate(snap, plan).Ok? ==> Evaluate(snap, plan).result.allocIndex == 0
  {
  }

  // ---- no deadlock -----------------------------------------------------------------

  /** How many steps a plan that has left the queue is from its answer. */
  function Left(s: State, at: seq<Place>, p: nat): nat
    requires p < |at|
  {
    match at[p]
    case Queued => 6
    case Over => 0
    case AtRaft(c) => 1
    case HeldBy(i) =>
      if i >= |s.loops| || s.loops[i].pc.Held? then 5
      else
        var w := s.loops[i].waitCh;
        if w.NoWait? || w.c >= |s.asyncs| || s.asyncs[w.c].Closed? then 2
        else if s.asyncs[w.c].Replied? then 3 else 4
  }

  /** The step that the plan is waiting for: its own loop's, or that of the application its
      loop waits for. What the environment answers is left open. */
  ghost predicate Awaited(s: State, at: seq<Place>, p: nat, a: Action)
    requires p < |at|
  {
    match at[p]
    case Queued => false
    case Over => false
    case AtRaft(c) => a == RaftFails(c) || (a.RaftApplies? && a.c == c)
    case HeldBy(i) =>
      i < |s.loops| &&
      if s.loops[i].pc.Held? then a.EvaluateHeld? && a.i == i
      else
        var w := s.loops[i].waitCh;
        if w.NoWait? || w.c >= |s.asyncs| || s.asyncs[w.c].Closed? then a.Submit? && a.i == i
        else if s.asyncs[w.c].Replied? then a == CloseWait(w.c)
        else a == RaftFails(w.c) || (a.RaftApplies? && a.c == w.c)
  }

  /** A plan that has left the queue is never stuck: the step it waits for can be taken, and
      however it turns out, it brings the plan nearer to its answer. */
  lemma NeverStuck(s: State, at: seq<Place>, p: nat, a: Action)
    requires Inv(s, at) && p < |at| && Awaited(s, at, p, a)
    ensures Allowed(s, a) && p < |Next(s, a, at)| && Left(Apply(s, a), Next(s, a, at), p) < Left(s, at, p)
  {
    hide QueuePlaced, AnswersPlaced, QueueOk, Truthful, Respond, Evaluate, Earned, Honest, StepEvaluate;
    AnswersSame(s.pend, at);
    if at[p].AtRaft? {
      assert Awaits(s.asyncs[at[p].c], p);
    } else {
      var i := at[p].i;
      assert Holds(s.loops[i], p);
      if s.loops[i].pc.Held? {
        var _, _ := EvaluateCases(s, i, a.fetched);
      }
    }
  }

  lemma SomeStepAwaited(s: State, at: seq<Place>, p: nat) returns (a: Action)
    requires Inv(s, at) && p < |at| && !at[p].Queued? && !at[p].Over?
    ensures Awaited(s, at, p, a)
  {
    hide QueuePlaced, AnswersPlaced, AsyncsPlaced, QueueOk, Truthful, Owned;
    match at[p]
    case AtRaft(c) => a := RaftFails(c);
    case HeldBy(i) =>
      var l := s.loops[i];
      var w := l.waitCh;
      if l.pc.Held? {
        a := EvaluateHeld(i, NoSnap);
      } else if w.NoWait? || w.c >= |s.asyncs| || s.asyncs[w.c].Closed? {
        a := Submit(i, NoSnap, true, NoSnap);
      } else if s.asyncs[w.c].Replied? {
        a := CloseWait(w.c);
      } else {
        a := RaftFails(w.c);
      }
  }

  /** A step that leaves the plan's place and its loop alone, and moves no other goroutine back. */
  lemma LeftStays(s: State, s': State, at: seq<Place>, at': seq<Place>, p: nat)
    requires p < |at| && p < |at'| && at'[p] == at[p]
    requires at[p].HeldBy? ==> at[p].i < |s.loops| && at[p].i < |s'.loops| && s'.loops[at[p].i] == s.loops[at[p].i]
    requires |s.asyncs| <= |s'.asyncs|
    requires forall c {:trigger s'.asyncs[c]} :: 0 <= c < |s.asyncs| ==>
      s'.asyncs[c] == s.asyncs[c] || s'.asyncs[c].Closed? || (s.asyncs[c].Waiting? && s'.asyncs[c].Replied?)
    requires at[p].HeldBy? && s.loops[at[p].i].waitCh.Wait? ==> s.loops[at[p].i].waitCh.c < |s.asyncs|
    ensures Left(s', at', p) <= Left(s, at, p)
  {
  }

  lemma HeldLoop(s: State, at: seq<Place>, p: nat)
    requires Inv(s, at) && p < |at| && at[p].HeldBy?
    ensures at[p].i < |s.loops| && Holds(s.loops[at[p].i], p)
    ensures s.loops[at[p].i].waitCh.Wait? ==> s.loops[at[p].i].waitCh.c < |s.asyncs|
  {
    hide QueuePlaced, AnswersPlaced, AsyncsPlaced, QueueOk, Truthful;
    assert Holds(s.loops[at[p].i], p);
  }

  /** What the loops and goroutines do: a step changes one loop, and goroutines only forward. */
  lemma StepForward(s: State, a: Action)
    requires Allowed(s, a)
    ensures |s.loops| <= |Apply(s, a).loops| && |s.asyncs| <= |Apply(s, a).asyncs|
    ensures forall c {:trigger Apply(s, a).asyncs[c]} :: 0 <= c < |s.asyncs| ==>
      Apply(s, a).asyncs[c] == s.asyncs[c] || Apply(s, a).asyncs[c].Closed?
      || (s.asyncs[c].Waiting? && Apply(s, a).asyncs[c].Replied?)
    ensures forall i {:trigger Apply(s, a).loops[i]} :: 0 <= i < |s.loops| && Apply(s, a).loops[i] != s.loops[i] ==>
      (a.Take? || a.Stop? || a.EvaluateHeld? || a.Submit?) && a.i == i
  {
    hide Heap.Push, Heap.Pop, Respond, RespondAll, Evaluate, StepEvaluate, Earned, Honest;
    match a
    case EvaluateHeld(i, fetched) => var _, _ := EvaluateCases(s, i, fetched);
    case _ =>
  }

  /** No step sets a plan back that has left the queue. */
  lemma NeverSetBack(s: State, at: seq<Place>, p: nat, a: Action)
    requires Inv(s, at) && p < |at| && !at[p].Queued? && Allowed(s, a)
    ensures p < |Next(s, a, at)| && !Next(s, a, at)[p].Queued?
    ensures Left(Apply(s, a), Next(s, a, at), p) <= Left(s, at, p)
  {
    if Awaited(s, at, p, a) {
      NeverStuck(s, at, p, a);
      PlaceAfter(s, at, p, a);
    } else {
      PlaceAfter(s, at, p, a);
      StepForward(s, a);
      if at[p].HeldBy? {
        HeldLoop(s, at, p);
        LoopAfter(s, at, p, a);
      }
      hide Inv, Apply, Next, Awaited;
      LeftStays(s, Apply(s, a), at, Next(s, a, at), p);
    }
  }

  /** A step that the plan does not wait for leaves its place alone. */
  lemma PlaceAfter(s: State, at: seq<Place>, p: nat, a: Action)
    requires Inv(s, at) && p < |at| && !at[p].Queued? && Allowed(s, a)
    ensures p < |Next(s, a, at)| && !Next(s, a, at)[p].Queued?
    ensures !Awaited(s, at, p, a) ==> Next(s, a, at)[p] == at[p]
  {
    hide QueuePlaced, AnswersPlaced, QueueOk, Truthful, Owned, Apply, Heap.Pop;
    if a.Take? {
      QueueTake(s.ready, s.pend, at, Pop(s.ready).0, Pop(s.ready).1, a.i);
    } else if a.RaftFails? || a.RaftApplies? {
      assert s.asyncs[a.c] == s.asyncs[a.c];
    } else if a.EvaluateHeld? || a.Submit? {
      HeldAt(s.loops, at, a.i);
    }
  }

  /** And its loop. */
  lemma LoopAfter(s: State, at: seq<Place>, p: nat, a: Action)
    requires Inv(s, at) && p < |at| && at[p].HeldBy? && Allowed(s, a) && !Awaited(s, at, p, a)
    ensures at[p].i < |s.loops| && at[p].i < |Apply(s, a).loops| && Apply(s, a).loops[at[p].i] == s.loops[at[p].i]
  {
    hide Inv, Apply;
    StepForward(s, a);
    HeldLoop(s, at, p);
    assert Apply(s, a).loops[at[p].i] == Apply(s, a).loops[at[p].i];
  }
}
