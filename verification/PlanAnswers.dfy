/** What every run of the plan pipeline keeps: each accepted plan is in exactly one place and
    is answered at most once, so that no answer ever blocks on its one-slot channel, and a
    positive answer is a true account of the plan's own evaluation. */
module PlanAnswers {
  import opened Plans
  import opened PlanPipeline
  import Heap

  /** Where a pending plan is. */
  datatype Place = Queued | HeldBy(i: nat) | AtRaft(c: nat) | Over

  function TicketOf(pend: seq<Pending>, p: nat): Ticket
    requires p < |pend|
  {
    Ticket(p, pend[p].time)
  }

  ghost predicate QueuePlaced(ready: seq<Ticket>, pend: seq<Pending>, at: seq<Place>) {
    && |at| == |pend|
    && (forall t :: t in multiset(ready) ==> t.id < |pend| && t == TicketOf(pend, t.id))
    && (forall p {:trigger at[p]} :: 0 <= p < |pend| ==>
          multiset(ready)[TicketOf(pend, p)] == if at[p].Queued? then 1 else 0)
  }

  predicate Holds(l: Loop, p: nat) {
    (l.pc.Held? || l.pc.Evaluated?) && l.pc.p == p
  }

  predicate Awaits(a: Async, p: nat) {
    a.Waiting? && a.p == p
  }

  ghost predicate LoopsPlaced(loops: seq<Loop>, at: seq<Place>) {
    && (forall i {:trigger loops[i]} :: 0 <= i < |loops| && (loops[i].pc.Held? || loops[i].pc.Evaluated?) ==>
          loops[i].pc.p < |at| && at[loops[i].pc.p] == HeldBy(i))
    && (forall p {:trigger at[p]} :: 0 <= p < |at| && at[p].HeldBy? ==>
          at[p].i < |loops| && Holds(loops[at[p].i], p))
  }

  ghost predicate AsyncsPlaced(asyncs: seq<Async>, at: seq<Place>) {
    && (forall c {:trigger asyncs[c]} :: 0 <= c < |asyncs| && asyncs[c].Waiting? ==>
          asyncs[c].p < |at| && at[asyncs[c].p] == AtRaft(c))
    && (forall p {:trigger at[p]} :: 0 <= p < |at| && at[p].AtRaft? ==>
          at[p].c < |asyncs| && Awaits(asyncs[at[p].c], p))
  }

  predicate SlotFits(q: Pending, over: bool) {
    && |q.sent| == (if over then 1 else 0)
    && (q.errCh == [] || q.errCh == q.sent)
  }

  ghost predicate AnswersPlaced(pend: seq<Pending>, at: seq<Place>) {
    |at| == |pend| && forall p {:trigger at[p]} :: 0 <= p < |pend| ==> SlotFits(pend[p], at[p].Over?)
  }

  /** Every accepted plan is queued once, held by one loop, awaited by one goroutine or
      answered once, and nothing else is anywhere. */
  ghost predicate Placed(s: State, at: seq<Place>) {
    && QueuePlaced(s.ready, s.pend, at)
    && LoopsPlaced(s.loops, at)
    && AsyncsPlaced(s.asyncs, at)
    && AnswersPlaced(s.pend, at)
  }

  // ---- the pieces under one change of place ----------------------------------------

  lemma QueueAppend(ready: seq<Ticket>, pend: seq<Pending>, at: seq<Place>, q: Pending, ready': seq<Ticket>)
    requires QueuePlaced(ready, pend, at)
    requires multiset(ready') == multiset(ready) + multiset{Ticket(|pend|, q.time)}
    ensures QueuePlaced(ready', pend + [q], at + [Queued])
  {
    var pend', at' := pend + [q], at + [Queued];
    forall p {:trigger at'[p]} | 0 <= p < |pend'|
      ensures multiset(ready')[TicketOf(pend', p)] == if at'[p].Queued? then 1 else 0
    {
      if p < |pend| {
        assert TicketOf(pend', p) == TicketOf(pend, p) && at'[p] == at[p];
      } else {
        assert Ticket(|pend|, q.time) !in multiset(ready);
      }
    }
  }

  lemma QueueTake(ready: seq<Ticket>, pend: seq<Pending>, at: seq<Place>, t: Ticket, rest: seq<Ticket>, i: nat)
    requires QueuePlaced(ready, pend, at) && multiset(ready) == multiset(rest) + multiset{t}
    ensures t.id < |pend| && at[t.id] == Queued
    ensures QueuePlaced(rest, pend, at[t.id := HeldBy(i)])
  {
    assert t in multiset(ready);
    assert multiset(ready)[TicketOf(pend, t.id)] == if at[t.id].Queued? then 1 else 0;
    var at' := at[t.id := HeldBy(i)];
    forall p {:trigger at'[p]} | 0 <= p < |pend|
      ensures multiset(rest)[TicketOf(pend, p)] == if at'[p].Queued? then 1 else 0
    {
      assert at[p] == at[p];
    }
  }

  /** A plan that is not queued may move and be answered. */
  lemma QueueMove(ready: seq<Ticket>, pend: seq<Pending>, at: seq<Place>, pend': seq<Pending>, p: nat, place: Place)
    requires QueuePlaced(ready, pend, at) && p < |at| && !at[p].Queued? && !place.Queued?
    requires |pend'| == |pend| && forall q {:trigger pend'[q]} :: 0 <= q < |pend| ==> pend'[q].time == pend[q].time
    ensures QueuePlaced(ready, pend', at[p := place])
  {
    var at' := at[p := place];
    forall q {:trigger at'[q]} | 0 <= q < |pend'|
      ensures multiset(ready)[TicketOf(pend', q)] == if at'[q].Queued? then 1 else 0
    {
      assert at[q] == at[q] && pend'[q] == pend'[q];
    }
  }

  lemma LoopsMove(loops: seq<Loop>, at: seq<Place>, i: nat, l: Loop, p: nat, place: Place)
    requires LoopsPlaced(loops, at) && i < |loops| && p < |at|
    requires Holds(l, p) <==> place == HeldBy(i)
    requires place.HeldBy? ==> place.i == i
    requires (l.pc.Held? || l.pc.Evaluated?) ==> l.pc.p == p
    requires (loops[i].pc.Held? || loops[i].pc.Evaluated?) ==> loops[i].pc.p == p
    requires at[p].HeldBy? ==> at[p].i == i
    ensures LoopsPlaced(loops[i := l], at[p := place])
  {
    var loops', at' := loops[i := l], at[p := place];
    forall q {:trigger at'[q]} | 0 <= q < |at'| && at'[q].HeldBy?
      ensures at'[q].i < |loops'| && Holds(loops'[at'[q].i], q)
    {
      if q != p {
        assert at[q] == at'[q];
        assert at[q].i != i;
      }
    }
    forall j {:trigger loops'[j]} | 0 <= j < |loops'| && (loops'[j].pc.Held? || loops'[j].pc.Evaluated?)
      ensures loops'[j].pc.p < |at'| && at'[loops'[j].pc.p] == HeldBy(j)
    {
      if j != i {
        assert loops'[j] == loops[j];
      }
    }
  }

  /** A plan that no loop holds may move, as long as no loop comes to hold it. */
  lemma LoopsAside(loops: seq<Loop>, at: seq<Place>, p: nat, place: Place)
    requires LoopsPlaced(loops, at) && p < |at| && !at[p].HeldBy? && !place.HeldBy?
    ensures LoopsPlaced(loops, at[p := place])
  {
    var at' := at[p := place];
    forall q {:trigger at'[q]} | 0 <= q < |at'| && at'[q].HeldBy?
      ensures at'[q].i < |loops| && Holds(loops[at'[q].i], q)
    {
      assert at[q] == at'[q];
    }
  }

  lemma LoopsAppend(loops: seq<Loop>, at: seq<Place>, place: Place)
    requires LoopsPlaced(loops, at) && !place.HeldBy?
    ensures LoopsPlaced(loops, at + [place])
  {
    var at' := at + [place];
    forall q {:trigger at'[q]} | 0 <= q < |at'| && at'[q].HeldBy?
      ensures at'[q].i < |loops| && Holds(loops[at'[q].i], q)
    {
      assert at[q] == at'[q];
    }
  }

  lemma LoopStarts(loops: seq<Loop>, at: seq<Place>, l: Loop)
    requires LoopsPlaced(loops, at) && l.pc.Idle?
    ensures LoopsPlaced(loops + [l], at)
  {
    var loops' := loops + [l];
    forall j {:trigger loops'[j]} | 0 <= j < |loops'| && (loops'[j].pc.Held? || loops'[j].pc.Evaluated?)
      ensures loops'[j].pc.p < |at| && at[loops'[j].pc.p] == HeldBy(j)
    {
      assert loops'[j] == loops[j];
    }
  }

  lemma AsyncsAside(asyncs: seq<Async>, at: seq<Place>, p: nat, place: Place)
    requires AsyncsPlaced(asyncs, at) && p < |at| && !at[p].AtRaft? && !place.AtRaft?
    ensures AsyncsPlaced(asyncs, at[p := place])
  {
    var at' := at[p := place];
    forall q {:trigger at'[q]} | 0 <= q < |at'| && at'[q].AtRaft?
      ensures at'[q].c < |asyncs| && Awaits(asyncs[at'[q].c], q)
    {
      assert at[q] == at'[q];
    }
  }

  lemma AsyncsAppend(asyncs: seq<Async>, at: seq<Place>, place: Place)
    requires AsyncsPlaced(asyncs, at) && !place.AtRaft?
    ensures AsyncsPlaced(asyncs, at + [place])
  {
    var at' := at + [place];
    forall q {:trigger at'[q]} | 0 <= q < |at'| && at'[q].AtRaft?
      ensures at'[q].c < |asyncs| && Awaits(asyncs[at'[q].c], q)
    {
      assert at[q] == at'[q];
    }
  }

  lemma AsyncStarts(asyncs: seq<Async>, at: seq<Place>, a: Async)
    requires AsyncsPlaced(asyncs, at) && a.Waiting? && a.p < |at| && !at[a.p].AtRaft?
    ensures AsyncsPlaced(asyncs + [a], at[a.p := AtRaft(|asyncs|)])
  {
    var asyncs', at' := asyncs + [a], at[a.p := AtRaft(|asyncs|)];
    forall q {:trigger at'[q]} | 0 <= q < |at'| && at'[q].AtRaft?
      ensures at'[q].c < |asyncs'| && Awaits(asyncs'[at'[q].c], q)
    {
      if q != a.p {
        assert at[q] == at'[q];
      }
    }
    forall c {:trigger asyncs'[c]} | 0 <= c < |asyncs'| && asyncs'[c].Waiting?
      ensures asyncs'[c].p < |at'| && at'[asyncs'[c].p] == AtRaft(c)
    {
      if c < |asyncs| {
        assert asyncs'[c] == asyncs[c];
      }
    }
  }

  lemma AsyncEnds(asyncs: seq<Async>, at: seq<Place>, c: nat, a: Async)
    requires AsyncsPlaced(asyncs, at) && c < |asyncs| && asyncs[c].Waiting? && !a.Waiting?
    ensures asyncs[c].p < |at| && at[asyncs[c].p] == AtRaft(c)
    ensures AsyncsPlaced(asyncs[c := a], at[asyncs[c].p := Over])
  {
    var asyncs', at' := asyncs[c := a], at[asyncs[c].p := Over];
    forall q {:trigger at'[q]} | 0 <= q < |at'| && at'[q].AtRaft?
      ensures at'[q].c < |asyncs'| && Awaits(asyncs'[at'[q].c], q)
    {
      assert at[q] == at'[q];
    }
    forall d {:trigger asyncs'[d]} | 0 <= d < |asyncs'| && asyncs'[d].Waiting?
      ensures asyncs'[d].p < |at'| && at'[asyncs'[d].p] == AtRaft(d)
    {
      assert asyncs'[d] == asyncs[d];
    }
  }

  lemma AsyncCloses(asyncs: seq<Async>, at: seq<Place>, c: nat)
    requires AsyncsPlaced(asyncs, at) && c < |asyncs| && !asyncs[c].Waiting?
    ensures AsyncsPlaced(asyncs[c := Closed], at)
  {
    var asyncs' := asyncs[c := Closed];
    forall d {:trigger asyncs'[d]} | 0 <= d < |asyncs'| && asyncs'[d].Waiting?
      ensures asyncs'[d].p < |at| && at[asyncs'[d].p] == AtRaft(d)
    {
      assert asyncs'[d] == asyncs[d];
    }
  }

  lemma AnswersMove(pend: seq<Pending>, at: seq<Place>, p: nat, place: Place)
    requires AnswersPlaced(pend, at) && p < |at| && !at[p].Over? && !place.Over?
    ensures AnswersPlaced(pend, at[p := place])
  {
    var at' := at[p := place];
    forall q {:trigger at'[q]} | 0 <= q < |pend|
      ensures SlotFits(pend[q], at'[q].Over?)
    {
      assert at[q] == at[q];
    }
  }

  /** The first answer of a plan finds its slot empty. */
  lemma AnswersEnd(pend: seq<Pending>, at: seq<Place>, p: nat, a: Answer)
    requires AnswersPlaced(pend, at) && p < |at| && !at[p].Over?
    ensures AnswersPlaced(Respond(pend, p, a), at[p := Over])
    ensures pend[p].errCh == [] && pend[p].sent == []
  {
    var pend', at' := Respond(pend, p, a), at[p := Over];
    assert at[p] == at[p];
    forall q {:trigger at'[q]} | 0 <= q < |pend'|
      ensures SlotFits(pend'[q], at'[q].Over?)
    {
      assert at[q] == at[q];
    }
  }

  lemma RespondTimes(pend: seq<Pending>, p: nat, a: Answer)
    ensures forall q {:trigger Respond(pend, p, a)[q]} :: 0 <= q < |pend| ==> Respond(pend, p, a)[q].time == pend[q].time
  {
  }

  // ---- flush -----------------------------------------------------------------------

  function AfterFlush(at: seq<Place>): seq<Place> {
    seq(|at|, p requires 0 <= p < |at| => if at[p].Queued? then Over else at[p])
  }

  /** Each ticket once, and each for a pending plan. */
  ghost predicate Distinct(ready: seq<Ticket>, pend: seq<Pending>) {
    && (forall i {:trigger ready[i]} :: 0 <= i < |ready| ==>
          ready[i].id < |pend| && ready[i] == TicketOf(pend, ready[i].id))
    && (forall i, j :: 0 <= i < j < |ready| ==> ready[i].id != ready[j].id)
  }

  lemma {:induction false} RespondAllAt(pend: seq<Pending>, ready: seq<Ticket>, a: Answer, p: nat)
    requires Distinct(ready, pend) && p < |pend|
    ensures RespondAll(pend, ready, a)[p]
            == if TicketOf(pend, p) in ready then Answered(pend[p], a) else pend[p]
    decreases |ready|
  {
    if ready != [] {
      var first, rest := ready[0], ready[1..];
      var pend' := Respond(pend, first.id, a);
      assert ready == [first] + rest;
      forall i {:trigger rest[i]} | 0 <= i < |rest|
        ensures rest[i].id < |pend'| && rest[i] == TicketOf(pend', rest[i].id) && rest[i].id != first.id
      {
        assert rest[i] == ready[i + 1];
      }
      RespondAllAt(pend', rest, a, p);
    }
  }

  lemma QueueDistinct(ready: seq<Ticket>, pend: seq<Pending>, at: seq<Place>)
    requires QueuePlaced(ready, pend, at)
    ensures Distinct(ready, pend)
  {
    forall i | 0 <= i < |ready|
      ensures ready[i].id < |pend| && ready[i] == TicketOf(pend, ready[i].id)
    {
      assert ready[i] in multiset(ready);
    }
    forall i, j | 0 <= i < j < |ready|
      ensures ready[i].id != ready[j].id
    {
      TwoMeansTwo(ready, i, j);
      var p := ready[i].id;
      assert multiset(ready)[TicketOf(pend, p)] == if at[p].Queued? then 1 else 0;
    }
  }

  lemma TwoMeansTwo<T>(s: seq<T>, i: nat, j: nat)
    requires i < j < |s|
    ensures s[i] == s[j] ==> multiset(s)[s[i]] >= 2
  {
    assert s == s[..j] + [s[j]] + s[j + 1..];
    assert s[i] in s[..j];
  }

  lemma FlushAt(ready: seq<Ticket>, pend: seq<Pending>, at: seq<Place>, a: Answer, p: nat)
    requires QueuePlaced(ready, pend, at) && p < |at|
    ensures RespondAll(pend, ready, a)[p] == if at[p].Queued? then Answered(pend[p], a) else pend[p]
  {
    QueueDistinct(ready, pend, at);
    RespondAllAt(pend, ready, a, p);
    assert multiset(ready)[TicketOf(pend, p)] == if at[p].Queued? then 1 else 0;
  }

  lemma FlushAnswers(ready: seq<Ticket>, pend: seq<Pending>, at: seq<Place>, a: Answer)
    requires QueuePlaced(ready, pend, at) && AnswersPlaced(pend, at)
    ensures AnswersPlaced(RespondAll(pend, ready, a), AfterFlush(at))
    ensures forall p {:trigger at[p]} :: 0 <= p < |at| && at[p].Queued? ==> pend[p].errCh == [] && pend[p].sent == []
  {
    var pend', at' := RespondAll(pend, ready, a), AfterFlush(at);
    forall p {:trigger at'[p]} | 0 <= p < |at|
      ensures SlotFits(pend'[p], at'[p].Over?)
    {
      FlushAt(ready, pend, at, a, p);
      assert SlotFits(pend[p], at[p].Over?);
    }
  }

  lemma FlushOthers(loops: seq<Loop>, asyncs: seq<Async>, at: seq<Place>)
    requires LoopsPlaced(loops, at) && AsyncsPlaced(asyncs, at)
    ensures LoopsPlaced(loops, AfterFlush(at)) && AsyncsPlaced(asyncs, AfterFlush(at))
  {
    var at' := AfterFlush(at);
    forall q {:trigger at'[q]} | 0 <= q < |at'| && at'[q].HeldBy?
      ensures at'[q].i < |loops| && Holds(loops[at'[q].i], q)
    {
      assert at[q] == at'[q];
    }
    forall q {:trigger at'[q]} | 0 <= q < |at'| && at'[q].AtRaft?
      ensures at'[q].c < |asyncs| && Awaits(asyncs[at'[q].c], q)
    {
      assert at[q] == at'[q];
    }
  }

  lemma FlushPlaces(s: State, at: seq<Place>)
    requires Placed(s, at)
    ensures Placed(Apply(s, Flush), AfterFlush(at))
  {
    hide RespondAll, LoopsPlaced, AsyncsPlaced, AnswersPlaced;
    FlushAnswers(s.ready, s.pend, at, Failed(Flushed));
    FlushOthers(s.loops, s.asyncs, at);
  }

  // ---- the steps -------------------------------------------------------------------

  /** Where an action leaves the plans. */
  ghost function Next(s: State, a: Action, at: seq<Place>): seq<Place>
    requires Allowed(s, a)
  {
    var s' := Apply(s, a);
    match a
    case Enqueue(_, _) => if s.enabled then at + [Queued] else at
    case Flush => AfterFlush(at)
    case Take(i) => var p := Pop(s.ready).0.id; if p < |at| then at[p := HeldBy(i)] else at
    case EvaluateHeld(i, _) =>
      var p := s.loops[i].pc.p;
      if p < |at| then at[p := if s'.loops[i].pc.Idle? then Over else HeldBy(i)] else at
    case Submit(i, _, _, _) =>
      var p := s.loops[i].pc.p;
      if p < |at| then at[p := if |s'.asyncs| == |s.asyncs| then Over else AtRaft(|s.asyncs|)] else at
    case RaftFails(c) => var p := s.asyncs[c].p; if p < |at| then at[p := Over] else at
    case RaftApplies(c, _) => var p := s.asyncs[c].p; if p < |at| then at[p := Over] else at
    case _ => at
  }

  lemma EnqueuePlaces(s: State, at: seq<Place>, plan: Plan, time: int)
    requires Placed(s, at) && s.enabled
    ensures Placed(Apply(s, Enqueue(plan, time)), at + [Queued])
  {
    hide Heap.Push, QueuePlaced, LoopsPlaced, AsyncsPlaced;
    var q := Pending(plan, time, [], []);
    QueueAppend(s.ready, s.pend, at, q, Push(s.ready, Ticket(|s.pend|, time)));
    LoopsAppend(s.loops, at, Queued);
    AsyncsAppend(s.asyncs, at, Queued);
    var pend', at' := s.pend + [q], at + [Queued];
    forall p {:trigger at'[p]} | 0 <= p < |pend'|
      ensures SlotFits(pend'[p], at'[p].Over?)
    {
      if p < |at| {
        assert at[p] == at'[p];
      }
    }
  }

  lemma TakePlaces(s: State, at: seq<Place>, i: nat)
    requires Placed(s, at) && Allowed(s, Take(i))
    ensures Placed(Apply(s, Take(i)), Next(s, Take(i), at))
  {
    hide QueuePlaced, LoopsPlaced, AnswersPlaced, AsyncsPlaced, Heap.Pop;
    var (t, rest) := Pop(s.ready);
    QueueTake(s.ready, s.pend, at, t, rest, i);
    AnswersSame(s.pend, at);
    LoopsMove(s.loops, at, i, s.loops[i].(pc := Held(t.id)), t.id, HeldBy(i));
    AsyncsAside(s.asyncs, at, t.id, HeldBy(i));
    AnswersMove(s.pend, at, t.id, HeldBy(i));
  }

  lemma AnswersSame(pend: seq<Pending>, at: seq<Place>)
    requires AnswersPlaced(pend, at)
    ensures |pend| == |at|
  {
  }

  /** A loop concludes with an answer. */
  lemma ConcludePlaces(s: State, at: seq<Place>, i: nat, l: Loop, p: nat, a: Answer)
    requires Placed(s, at) && i < |s.loops| && Holds(s.loops[i], p)
    ensures p < |at| && Placed(Conclude(s, i, l, p, a), at[p := Over])
    ensures s.pend[p].errCh == [] && s.pend[p].sent == []
  {
    assert p < |at| && at[p] == HeldBy(i);
    RespondTimes(s.pend, p, a);
    QueueMove(s.ready, s.pend, at, Respond(s.pend, p, a), p, Over);
    hide QueuePlaced, Respond;
    AnswersSame(s.pend, at);
    LoopsMove(s.loops, at, i, l.(pc := Idle), p, Over);
    AsyncsAside(s.asyncs, at, p, Over);
    AnswersEnd(s.pend, at, p, a);
  }

  /** The result of evaluating this plan on some snapshot. */
  ghost predicate Earned(plan: Plan, r: PlanResult) {
    exists snap :: Evaluate(snap, plan) == Ok(r)
  }

  /** A positive answer is an evaluation with nothing to apply, or one that was applied. */
  ghost predicate Honest(plan: Plan, a: Answer) {
    match a
    case Failed(_) => true
    case Done(r) => Earned(plan, r) || exists r0, index :: Earned(plan, r0) && r == Applied(r0, index)
  }

  lemma NoOpIff(r: PlanResult)
    ensures IsNoOp(r) <==> r.nodeUpdate == map[] && r.nodeAllocation == map[]
  {
    assert |r.nodeUpdate.Keys| == |r.nodeUpdate| && |r.nodeAllocation.Keys| == |r.nodeAllocation|;
    if IsNoOp(r) {
      assert r.nodeUpdate.Keys == {} && r.nodeAllocation.Keys == {};
    }
  }

  /** An evaluation step ends with an answer, a positive one only if there is nothing to apply, or with
      something to submit. */
  lemma EvaluateCases(s: State, i: nat, fetched: Fetched) returns (l: Loop, a: Answer)
    requires Allowed(s, EvaluateHeld(i, fetched))
    ensures var p := s.loops[i].pc.p;
            var s' := StepEvaluate(s, i, fetched);
            if s'.loops[i].pc.Idle?
            then && s' == Conclude(s, i, l, p, a) && Honest(s.pend[p].plan, a)
                 && (a.Done? ==> a.result.nodeUpdate == map[] && a.result.nodeAllocation == map[])
            else && l.pc.Evaluated? && l.pc.p == p && Earned(s.pend[p].plan, l.pc.result)
                 && (l.pc.result.nodeUpdate != map[] || l.pc.result.nodeAllocation != map[])
                 && s' == s.(loops := s.loops[i := l])
    ensures l.waitCh == s.loops[i].waitCh || (l.waitCh.NoWait? && Ready(s, s.loops[i].waitCh))
    ensures StepEvaluate(s, i, fetched).loops == s.loops[i := StepEvaluate(s, i, fetched).loops[i]]
    ensures StepEvaluate(s, i, fetched).loops[i].waitCh == l.waitCh
  {
    hide Evaluate;
    var l0 := s.loops[i];
    var p := l0.pc.p;
    l := if Ready(s, l0.waitCh) then l0.(waitCh := NoWait, snap := NoSnap) else l0;
    a := Failed(NoSnapshot);
    if l.waitCh.NoWait? || l.snap.NoSnap? {
      l := l.(snap := fetched);
    }
    if l.snap.Snap? {
      match Evaluate(l.snap.snap, s.pend[p].plan)
      case Err => a := Failed(BadEvaluation);
      case Ok(r) =>
        assert Earned(s.pend[p].plan, r);
        NoOpIff(r);
        if IsNoOp(r) {
          a := Done(r);
        } else {
          l := l.(pc := Evaluated(p, r));
        }
    }
  }

  lemma EvaluatePlaces(s: State, at: seq<Place>, i: nat, fetched: Fetched)
    requires Placed(s, at) && Allowed(s, EvaluateHeld(i, fetched))
    ensures Placed(Apply(s, EvaluateHeld(i, fetched)), Next(s, EvaluateHeld(i, fetched), at))
  {
    hide Evaluate, QueuePlaced, LoopsPlaced, AsyncsPlaced, AnswersPlaced, Respond, StepEvaluate, Earned, Honest;
    var p := s.loops[i].pc.p;
    HeldAt(s.loops, at, i);
    var l, a := EvaluateCases(s, i, fetched);
    if StepEvaluate(s, i, fetched).loops[i].pc.Idle? {
      ConcludePlaces(s, at, i, l, p, a);
    } else {
      LoopsMove(s.loops, at, i, l, p, HeldBy(i));
      assert at[p := HeldBy(i)] == at;
    }
  }

  lemma HeldAt(loops: seq<Loop>, at: seq<Place>, i: nat)
    requires LoopsPlaced(loops, at) && i < |loops| && (loops[i].pc.Held? || loops[i].pc.Evaluated?)
    ensures loops[i].pc.p < |at| && at[loops[i].pc.p] == HeldBy(i)
  {
  }

  lemma SubmitPlaces(s: State, at: seq<Place>, i: nat, fetched: Fetched, accepted: bool, view: Fetched)
    requires Placed(s, at) && Allowed(s, Submit(i, fetched, accepted, view))
    ensures var a := Submit(i, fetched, accepted, view); Placed(Apply(s, a), Next(s, a, at))
  {
    hide QueuePlaced, LoopsPlaced, AsyncsPlaced, AnswersPlaced, Respond;
    var l := s.loops[i];
    var p := l.pc.p;
    var s' := StepSubmit(s, i, fetched, accepted, view);
    HeldAt(s.loops, at, i);
    if |s'.asyncs| == |s.asyncs| {
      var l1 := if l.waitCh.Wait? then l.(snap := fetched) else l;
      if l.waitCh.Wait? && fetched.NoSnap? {
        ConcludePlaces(s, at, i, l1, p, Failed(NoSnapshot));
      } else {
        ConcludePlaces(s, at, i, l1.(snap := view), p, Failed(NotSubmitted));
      }
    } else {
      AnswersSame(s.pend, at);
      QueueMove(s.ready, s.pend, at, s.pend, p, AtRaft(|s.asyncs|));
      LoopsMove(s.loops, at, i, s'.loops[i], p, AtRaft(|s.asyncs|));
      AsyncStarts(s.asyncs, at, Waiting(i, p, l.pc.result));
      AnswersMove(s.pend, at, p, AtRaft(|s.asyncs|));
    }
  }

  lemma RaftPlaces(s: State, at: seq<Place>, c: nat, a: Answer)
    requires Placed(s, at) && c < |s.asyncs| && s.asyncs[c].Waiting?
    ensures s.asyncs[c].p < |at| && Placed(RaftAnswer(s, c, a), at[s.asyncs[c].p := Over])
    ensures s.pend[s.asyncs[c].p].errCh == [] && s.pend[s.asyncs[c].p].sent == []
  {
    hide QueuePlaced, LoopsPlaced, AsyncsPlaced, AnswersPlaced, Respond;
    var p := s.asyncs[c].p;
    AsyncEnds(s.asyncs, at, c, Replied(s.asyncs[c].owner));
    RespondTimes(s.pend, p, a);
    AnswersSame(s.pend, at);
    QueueMove(s.ready, s.pend, at, Respond(s.pend, p, a), p, Over);
    LoopsAside(s.loops, at, p, Over);
    AnswersEnd(s.pend, at, p, a);
  }

  lemma ReceivePlaces(s: State, at: seq<Place>, p: nat)
    requires Placed(s, at) && Allowed(s, Receive(p))
    ensures Placed(Apply(s, Receive(p)), at)
  {
    hide LoopsPlaced, AsyncsPlaced;
    var pend' := Apply(s, Receive(p)).pend;
    forall q {:trigger at[q]} | 0 <= q < |pend'|
      ensures SlotFits(pend'[q], at[q].Over?)
      ensures TicketOf(pend', q) == TicketOf(s.pend, q)
    {
    }
  }

  lemma StepPlaces(s: State, at: seq<Place>, a: Action)
    requires Placed(s, at) && Allowed(s, a)
    ensures Placed(Apply(s, a), Next(s, a, at))
  {
    hide QueuePlaced, LoopsPlaced, AsyncsPlaced, AnswersPlaced, Respond, RespondAll, StepEvaluate, StepSubmit, RaftAnswer, Heap.Push, Heap.Pop;
    match a
    case Enqueue(plan, time) => if s.enabled { EnqueuePlaces(s, at, plan, time); }
    case SetFlag(_) =>
    case Flush => FlushPlaces(s, at);
    case StartLoop => LoopStarts(s.loops, at, Loop(Idle, NoWait, NoSnap));
    case Take(i) => TakePlaces(s, at, i);
    case Stop(i) => IdleMoves(s.loops, at, i, Stopped);
    case EvaluateHeld(i, fetched) => EvaluatePlaces(s, at, i, fetched);
    case Submit(i, fetched, accepted, view) => SubmitPlaces(s, at, i, fetched, accepted, view);
    case RaftFails(c) => RaftPlaces(s, at, c, Failed(NotApplied));
    case RaftApplies(c, index) => RaftPlaces(s, at, c, Done(Applied(s.asyncs[c].result, index)));
    case CloseWait(c) => AsyncCloses(s.asyncs, at, c);
    case Receive(p) => ReceivePlaces(s, at, p);
  }

  lemma IdleMoves(loops: seq<Loop>, at: seq<Place>, i: nat, pc: Pc)
    requires LoopsPlaced(loops, at) && i < |loops| && loops[i].pc.Idle? && pc.Stopped?
    ensures LoopsPlaced(loops[i := loops[i].(pc := pc)], at)
  {
    var loops' := loops[i := loops[i].(pc := pc)];
    forall j {:trigger loops'[j]} | 0 <= j < |loops'| && (loops'[j].pc.Held? || loops'[j].pc.Evaluated?)
      ensures loops'[j].pc.p < |at| && at[loops'[j].pc.p] == HeldBy(j)
    {
      assert loops'[j] == loops[j];
    }
  }
}
