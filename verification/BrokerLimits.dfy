/** Two facts about delivery past the limit, over whole runs: how far the Unacked counters of
    the single queues drift, and what an evaluation of type "_failed" would do. */
module BrokerLimits {
  import opened Evaluations
  import opened BrokerRefinement
  import opened BrokerRuns
  import opened BrokerTheorems
  import opened BrokerConditions
  import Heap
  import L = BrokerLedger
  import B = BrokerState

  // ---- one queue's Unacked counter -------------------------------------------------

  function UnackedAt(b: B.Broker, q: string): int {
    B.SchedStats(b.stats, q).unacked
  }

  lemma PushUnacked(b: B.Broker, e: Evaluation, queue: string, q: string)
    ensures UnackedAt(B.PushReady(b, e, queue), q) == UnackedAt(b, q)
    ensures UnackedAt(B.PushBlocked(b, e), q) == UnackedAt(b, q)
  {
    hide Heap.Push;
  }

  lemma EnqueueLockedUnacked(b: B.Broker, e: Evaluation, queue: string, q: string)
    ensures UnackedAt(B.EnqueueLocked(b, e, queue), q) == UnackedAt(b, q)
  {
    hide B.PushReady, B.PushBlocked;
    PushUnacked(b, e, queue, q);
    PushUnacked(b.(jobEvals := b.jobEvals[e.jobId := e.id]), e, queue, q);
  }

  lemma EnqueueUnacked(b: B.Broker, e: Evaluation, token: string, q: string)
    ensures UnackedAt(B.ProcessEnqueue(b, e, token), q) == UnackedAt(b, q)
  {
    hide B.EnqueueLocked;
    var b1 := if b.enabled then b.(evals := b.evals[e.id := 0]) else b;
    EnqueueLockedUnacked(b1, e, e.typ, q);
  }

  lemma WaitUnacked(b: B.Broker, e: Evaluation, q: string)
    ensures UnackedAt(B.EnqueueWaiting(b, e), q) == UnackedAt(b, q)
  {
    hide B.EnqueueLocked;
    var b1 := b.(timeWait := b.timeWait - {e.id}, stats := b.stats.(totalWaiting := b.stats.totalWaiting - 1));
    EnqueueLockedUnacked(b1, e, e.typ, q);
  }

  lemma DequeueUnacked(b: B.Broker, queue: string, token: string, q: string)
    requires B.HasWork(b, queue)
    ensures UnackedAt(B.DequeueFor(b, queue, token), q) == UnackedAt(b, q) + if q == queue then 1 else 0
  {
    hide Heap.Pop;
  }

  lemma PromoteUnacked(b: B.Broker, job: string, q: string)
    ensures UnackedAt(B.Promote(b, job), q) == UnackedAt(b, q)
  {
    hide B.EnqueueLocked, Heap.Pop;
    if |Slice(b.blocked, job)| > 0 {
      var (e, rest) := Heap.Pop(ByCreateIndex, b.blocked[job]);
      var b1 := b.(blocked := if |rest| > 0 then b.blocked[job := rest] else b.blocked - {job},
                   stats := b.stats.(totalBlocked := b.stats.totalBlocked - 1));
      EnqueueLockedUnacked(b1, e, e.typ, q);
    }
  }

  lemma AckUnacked(b: B.Broker, id: string, token: string, q: string)
    ensures UnackedAt(B.Ack(b, id, token), q) == UnackedAt(b, q)
            - if B.AckOutcome(b, id, token) == B.Done && q == B.AckQueue(b, id) then 1 else 0
  {
    hide B.Promote, B.ProcessEnqueue;
    if B.AckOutcome(b, id, token) == B.Done {
      var b1 := B.Settle(b, id);
      var b2 := B.Promote(b1, b.unack[id].eval.jobId);
      PromoteUnacked(b1, b.unack[id].eval.jobId, q);
      if token in b2.requeue {
        EnqueueUnacked(b2, b2.requeue[token], "", q);
      }
    }
  }

  lemma NackUnacked(b: B.Broker, id: string, token: string, q: string)
    ensures UnackedAt(B.Nack(b, id, token), q) == UnackedAt(b, q)
            - if B.Lookup(b, id, token) == B.Done && q == b.unack[id].eval.typ then 1 else 0
  {
    hide B.EnqueueLocked;
    if B.Lookup(b, id, token) == B.Done {
      var e := b.unack[id].eval;
      var b1 := b.(requeue := b.requeue - {token}, unack := b.unack - {id}, stats := B.DebitUnacked(b.stats, e.typ));
      EnqueueLockedUnacked(b1, e, B.NackQueue(b, id), q);
    }
  }

  // ---- the deliveries outstanding from one queue -----------------------------------

  /** An Ack leaves the other outstanding deliveries alone. */
  lemma AckLeavesOthers(k: L.Book, acked: string, token: string, k': L.Book, id: string)
    requires L.AckStep(k, acked, token, k') && L.CanAck(k, acked, token)
    requires id != acked && id in k.entries && k.entries[id].place.Outstanding?
    ensures id in k'.entries && k'.entries[id] == k.entries[id]
  {
    var es2: L.Entries :| L.Promoted(k.entries - {acked}, k.entries[acked].eval.jobId, es2)
                          && k' == L.TakeRequeued(k.(entries := es2), token);
    assert id in es2 && es2[id] == k.entries[id];
  }

  /** An Ack takes its delivery off and makes no new one. */
  lemma AckOutstanding(k: L.Book, id: string, token: string, k': L.Book, q: string)
    requires L.AckStep(k, id, token, k') && L.CanAck(k, id, token)
    ensures OutstandingFrom(k'.entries, q) == OutstandingFrom(k.entries, q) - {id}
  {
    hide L.AckStep, L.CanAck;
    forall x
      ensures x in OutstandingFrom(k'.entries, q) <==> x in OutstandingFrom(k.entries, q) && x != id
    {
      if x in k'.entries {
        AckKeepsEntry(k, id, token, k', x);
      }
      if x != id && x in k.entries && k.entries[x].place.Outstanding? {
        AckLeavesOthers(k, id, token, k', x);
      }
    }
  }

  lemma NackOutstanding(limit: int, k: L.Book, id: string, token: string, q: string)
    requires L.HeldBy(k, id, token)
    ensures OutstandingFrom(L.Nack(limit, k, id, token).entries, q) == OutstandingFrom(k.entries, q) - {id}
  {
  }

  lemma DeliverOutstanding(k: L.Book, x: string, queue: string, token: string, q: string)
    requires x in k.entries && k.entries[x].place.Ready?
    ensures x !in OutstandingFrom(k.entries, q)
    ensures OutstandingFrom(L.Deliver(k, x, queue, token).entries, q)
            == OutstandingFrom(k.entries, q) + if q == queue then {x} else {}
  {
  }

  /** The other steps leave the outstanding deliveries as they are. */
  lemma SameOutstanding(limit: int, k: L.Book, a: Action, k': L.Book, q: string)
    requires BookStep(limit, k, a, k') && !a.Dequeue? && a != SetEnabled(false)
    requires a.Ack? ==> !L.CanAck(k, a.id, a.token)
    requires a.Nack? ==> !L.HeldBy(k, a.id, a.token)
    ensures OutstandingFrom(k'.entries, q) == OutstandingFrom(k.entries, q)
  {
    hide L.JobActive;
  }

  // ---- the drift -------------------------------------------------------------------

  /** A Nack of a delivery that was made past the limit. */
  predicate LateNack(b: B.Broker, a: Action) {
    a.Nack? && B.Lookup(b, a.id, a.token) == B.Done && B.Count(b, a.id) > b.limit
  }

  /** What a late Nack adds to the error of a queue's counter. */
  function Shift(b: B.Broker, a: Action, q: string): int {
    if !LateNack(b, a) then 0
    else if q == FAILED_QUEUE then 1
    else if q == b.unack[a.id].eval.typ then -1 else 0
  }

  /** What the late Nacks of a run since the last flush add up to for one queue. */
  function Drift(limit: int, run: seq<Action>, q: string): int
    decreases |run|
  {
    if run == [] || run[|run| - 1] == SetEnabled(false) then 0
    else Drift(limit, run[..|run| - 1], q) + Shift(After(limit, run[..|run| - 1]), run[|run| - 1], q)
  }

  /** How many late Nacks a run made since the last flush. */
  function LateNacks(limit: int, run: seq<Action>): nat
    decreases |run|
  {
    if run == [] || run[|run| - 1] == SetEnabled(false) then 0
    else LateNacks(limit, run[..|run| - 1]) + if LateNack(After(limit, run[..|run| - 1]), run[|run| - 1]) then 1 else 0
  }

  lemma {:induction false} DriftCounts(limit: int, run: seq<Action>, q: string)
    ensures Drift(limit, run, FAILED_QUEUE) == LateNacks(limit, run)
    ensures LateNacks(limit, run) == 0 ==> Drift(limit, run, q) == 0
    decreases |run|
  {
    hide After;
    if run != [] {
      DriftCounts(limit, run[..|run| - 1], q);
    }
  }

  ghost function Error(b: B.Broker, k: L.Book, q: string): int {
    UnackedAt(b, q) - |OutstandingFrom(k.entries, q)|
  }

  lemma RemoveOne<T>(s: set<T>, x: T)
    ensures |s - {x}| == |s| - if x in s then 1 else 0
    ensures |s + {x}| == |s| + if x in s then 0 else 1
  {
    if x !in s {
      assert s - {x} == s;
    } else {
      assert s + {x} == s;
    }
  }

  lemma NackShift(b: B.Broker, k: L.Book, id: string, token: string, q: string)
    requires b.limit >= 1 && Backed(b, k)
    ensures Error(B.Nack(b, id, token), L.Nack(b.limit, k, id, token), q) == Error(b, k, q) + Shift(b, Nack(id, token), q)
  {
    hide Agrees, L.Inv, B.Nack, L.Nack, OutstandingFrom;
    AckOutcomeIff(b, k, id, token);
    NackUnacked(b, id, token, q);
    if L.HeldBy(k, id, token) {
      NackOutstanding(b.limit, k, id, token, q);
      RemoveOne(OutstandingFrom(k.entries, q), id);
      HeldOrigin(b, k, id, q);
    } else {
      SameOutstanding(b.limit, k, Nack(id, token), L.Nack(b.limit, k, id, token), q);
    }
  }

  /** An outstanding delivery is among those from its queue, which its count decides. */
  lemma HeldOrigin(b: B.Broker, k: L.Book, id: string, q: string)
    requires b.limit >= 1 && Backed(b, k) && id in k.entries && k.entries[id].place.Outstanding?
    ensures id in b.unack && id in b.evals && b.unack[id].eval.typ != FAILED_QUEUE
    ensures id in OutstandingFrom(k.entries, q) <==>
            q == if b.evals[id] > b.limit then FAILED_QUEUE else b.unack[id].eval.typ
  {
    hide Placed, JobsMatch, QueuesKnown, L.Serialised, L.NoStarvation;
    CountOf(b, k, id);
    UnackLookup(b, k.entries, id);
  }

  lemma AckError(b: B.Broker, k: L.Book, id: string, token: string, k': L.Book, q: string)
    requires b.limit >= 1 && Backed(b, k) && L.AckStep(k, id, token, k')
    ensures Error(B.Ack(b, id, token), k', q) == Error(b, k, q)
  {
    hide Agrees, L.Inv, B.Ack, L.AckStep, OutstandingFrom, B.AckOutcome;
    AckOutcomeIff(b, k, id, token);
    AckUnacked(b, id, token, q);
    if L.CanAck(k, id, token) {
      AckOutstanding(k, id, token, k', q);
      RemoveOne(OutstandingFrom(k.entries, q), id);
      HeldOrigin(b, k, id, q);
    } else {
      SameOutstanding(b.limit, k, Ack(id, token), k', q);
    }
  }

  lemma DequeueError(b: B.Broker, k: L.Book, queue: string, token: string, q: string)
    requires b.limit >= 1 && Backed(b, k) && Allowed(b, Dequeue(queue, token))
    ensures Error(Apply(b, Dequeue(queue, token)), Follow(b, k, Dequeue(queue, token)), q) == Error(b, k, q)
  {
    hide Agrees, L.Inv, B.DequeueFor, OutstandingFrom, B.NextFor, L.Deliver;
    DequeueAgrees(b, k, queue, token);
    DequeueUnacked(b, queue, token, q);
    var x := B.NextFor(b, queue).id;
    DeliverOutstanding(k, x, queue, token, q);
    RemoveOne(OutstandingFrom(k.entries, q), x);
    assert OutstandingFrom(k.entries, q) + {} == OutstandingFrom(k.entries, q);
  }

  lemma FlushError(b: B.Broker, k: L.Book, q: string)
    ensures Error(B.SetEnabled(b, false), L.SetEnabled(k, false), q) == 0
  {
    assert OutstandingFrom(map[], q) == {};
  }

  lemma QuietError(b: B.Broker, k: L.Book, a: Action, k': L.Book, q: string)
    requires BookStep(b.limit, k, a, k')
    requires !a.Dequeue? && !a.Ack? && !a.Nack? && a != SetEnabled(false)
    ensures Error(Apply(b, a), k', q) == Error(b, k, q)
  {
    hide OutstandingFrom, B.ProcessEnqueue, B.EnqueueWaiting;
    SameOutstanding(b.limit, k, a, k', q);
    match a
    case Enqueue(e, t) => EnqueueUnacked(b, e, t, q);
    case WaitElapsed(id) => if id in b.timeWait { WaitUnacked(b, b.timeWait[id], q); }
    case _ =>
  }

  /** One step shifts the error of a counter by a late Nack and nothing else. */
  lemma StepShifts(b: B.Broker, k: L.Book, a: Action, q: string)
    requires b.limit >= 1 && Backed(b, k) && Allowed(b, a)
    ensures Error(Apply(b, a), Follow(b, k, a), q) == if a == SetEnabled(false) then 0 else Error(b, k, q) + Shift(b, a, q)
  {
    hide Error, Agrees, L.Inv, B.Ack, B.Nack, L.Nack, L.AckStep, B.AckSafe, B.NackSafe, BookStep, B.SetEnabled, B.DequeueFor;
    hide B.ProcessEnqueue, B.EnqueueWaiting, L.Enqueue, L.SetEnabled, AckBook, L.Deliver, B.NextFor, B.SetArmed;
    if a == SetEnabled(false) {
      FlushError(b, k, q);
    } else if a.Ack? {
      AckAgrees(b, k, a.id, a.token);
      AckError(b, k, a.id, a.token, Follow(b, k, a), q);
    } else if a.Nack? {
      NackShift(b, k, a.id, a.token, q);
    } else if a.Dequeue? {
      DequeueError(b, k, a.queue, a.token, q);
    } else {
      StepRefines(b, k, a);
      hide Apply, Follow;
      QuietError(b, k, a, Follow(b, k, a), q);
    }
  }

  lemma {:induction false} RunDrift(limit: int, run: seq<Action>, q: string)
    requires limit >= 1 && IsRun(limit, run)
    ensures Error(After(limit, run), BookAfter(limit, run), q) == Drift(limit, run, q)
    decreases |run|
  {
    hide Error, Shift, Apply, Follow, Allowed, Backed;
    if run == [] {
      NoError(limit, q);
    } else {
      var last := |run| - 1;
      RunDrift(limit, run[..last], q);
      AfterLimit(limit, run[..last]);
      StepShifts(After(limit, run[..last]), BookAfter(limit, run[..last]), run[last], q);
    }
  }

  lemma NoError(limit: int, q: string)
    ensures Error(B.New(limit), L.Book(false, map[], map[]), q) == 0
  {
    assert OutstandingFrom(map[], q) == {};
  }

  /** The outstanding deliveries that the run took from a queue. */
  ghost function TakenFrom(limit: int, run: seq<Action>, q: string): set<string> {
    set id | id in After(limit, run).unack && Origin(limit, run, id) == q
  }

  lemma TakenFromBook(limit: int, run: seq<Action>, q: string)
    requires limit >= 1 && IsRun(limit, run)
    ensures TakenFrom(limit, run, q) == OutstandingFrom(BookAfter(limit, run).entries, q)
  {
    hide After, IsRun, Origin, Backed;
    var k := BookAfter(limit, run);
    forall id
      ensures id in TakenFrom(limit, run, q) <==> id in OutstandingFrom(k.entries, q)
    {
      OutstandingIff(After(limit, run), k, id);
      if id in k.entries {
        HistoryIsReal(limit, run, id);
      }
    }
  }

  lemma OutstandingIff(b: B.Broker, k: L.Book, id: string)
    requires Backed(b, k)
    ensures id in b.unack <==> id in k.entries && k.entries[id].place.Outstanding?
  {
    hide L.Inv, JobsMatch, QueuesKnown, Matches, WaitMatches, StatsExact;
    UnackLookup(b, k.entries, id);
  }

  /** After every run, for every queue: the Unacked counter is the number of outstanding
      deliveries that were taken from the queue, off by the late Nacks since the last flush. */
  lemma UnackedDrift(limit: int, run: seq<Action>, q: string)
    requires limit >= 1 && IsRun(limit, run)
    ensures UnackedAt(After(limit, run), q) == |TakenFrom(limit, run, q)| + Drift(limit, run, q)
  {
    hide After, IsRun, TakenFrom, OutstandingFrom, Drift;
    TakenFromBook(limit, run, q);
    RunDrift(limit, run, q);
  }

  /** All per-queue counters are exact exactly when no delivery made past the limit was nacked
      since the last flush. */
  lemma UnackedExactIff(limit: int, run: seq<Action>)
    requires limit >= 1 && IsRun(limit, run)
    ensures (forall q :: q in After(limit, run).stats.byScheduler ==>
               After(limit, run).stats.byScheduler[q].unacked == |TakenFrom(limit, run, q)|)
            <==> LateNacks(limit, run) == 0
  {
    hide After, IsRun, TakenFrom, Drift, LateNacks;
    forall q
      ensures UnackedAt(After(limit, run), q) == |TakenFrom(limit, run, q)| + Drift(limit, run, q)
    {
      UnackedDrift(limit, run, q);
    }
    forall q
      ensures Drift(limit, run, FAILED_QUEUE) == LateNacks(limit, run)
      ensures LateNacks(limit, run) == 0 ==> Drift(limit, run, q) == 0
    {
      DriftCounts(limit, run, q);
    }
    assert UnackedAt(After(limit, run), FAILED_QUEUE) == |TakenFrom(limit, run, FAILED_QUEUE)| + LateNacks(limit, run);
  }

  // ---- a run that drifts -----------------------------------------------------------

  /** The evaluation is all there is: ready in one queue, and delivered n times so far. */
  ghost predicate Single(b: B.Broker, e: Evaluation, q: string, n: int) {
    && b.enabled && q in b.ready && b.ready[q] == [e]
    && (forall x :: x in b.ready && x != q ==> b.ready[x] == [])
    && b.evals == map[e.id := n] && b.unack == map[] && b.jobEvals == map[e.jobId := e.id]
  }

  lemma DeliverSingle(b: B.Broker, e: Evaluation, q: string, n: int, token: string)
    requires Single(b, e, q, n)
    ensures B.HasWork(b, q) && B.NextFor(b, q) == e
    ensures var b' := B.DequeueFor(b, q, token);
            && b'.enabled && b'.limit == b.limit && b'.ready == b.ready[q := []] && b'.evals == map[e.id := n + 1]
            && b'.unack == map[e.id := B.Unack(e, token, true)] && b'.jobEvals == b.jobEvals
  {
    assert Heap.Pop(ByCreateIndex, [e]).0 == e && |Heap.Pop(ByCreateIndex, [e]).1| == 0;
    hide Heap.Pop;
  }

  lemma PushFirst(e: Evaluation)
    ensures Heap.Push(ByCreateIndex, [], e) == [e]
  {
  }

  lemma NackSingle(b: B.Broker, e: Evaluation, n: int, token: string)
    requires b.enabled && (forall x :: x in b.ready ==> b.ready[x] == []) && b.evals == map[e.id := n]
    requires b.unack == map[e.id := B.Unack(e, token, true)] && b.jobEvals == map[e.jobId := e.id] && e.id != ""
    ensures B.Lookup(b, e.id, token) == B.Done
    ensures Single(B.Nack(b, e.id, token), e, if n >= b.limit then FAILED_QUEUE else e.typ, n)
    ensures B.Nack(b, e.id, token).limit == b.limit
  {
    PushFirst(e);
    hide Heap.Push;
  }

  /** One delivery and its Nack. */
  lemma Round(b: B.Broker, e: Evaluation, q: string, n: int, token: string)
    requires Single(b, e, q, n) && e.id != ""
    ensures B.HasWork(b, q) && B.NextFor(b, q) == e
    ensures var b1 := B.DequeueFor(b, q, token);
            var b' := B.Nack(b1, e.id, token);
            && e.id in b1.evals && b1.limit == b.limit && b'.limit == b.limit
            && Single(b', e, if n + 1 >= b.limit then FAILED_QUEUE else e.typ, n + 1)
    ensures var b' := B.Nack(B.DequeueFor(b, q, token), e.id, token);
            forall x {:trigger UnackedAt(b', x)} :: UnackedAt(b', x) == UnackedAt(b, x)
                        + (if x == q then 1 else 0) - (if x == e.typ then 1 else 0)
  {
    DeliverSingle(b, e, q, n, token);
    var b1 := B.DequeueFor(b, q, token);
    NackSingle(b1, e, n + 1, token);
    hide B.DequeueFor, B.Nack;
    var b' := B.Nack(b1, e.id, token);
    forall x {:trigger UnackedAt(b', x)}
      ensures UnackedAt(b', x) == UnackedAt(b, x) + (if x == q then 1 else 0) - (if x == e.typ then 1 else 0)
    {
      DequeueUnacked(b, q, token, x);
      NackUnacked(b1, e.id, token, x);
    }
  }

  function DriftingRun(): seq<Action> {
    [SetEnabled(true), Enqueue(AnEvaluation(), ""), Dequeue("service", "first"), Nack("id", "first"),
     Dequeue(FAILED_QUEUE, "second"), Nack("id", "second")]
  }

  lemma RunNext(limit: int, run: seq<Action>, a: Action)
    ensures After(limit, run + [a]) == Apply(After(limit, run), a)
    ensures IsRun(limit, run + [a]) <==> IsRun(limit, run) && Allowed(After(limit, run), a)
  {
    assert (run + [a])[..|run|] == run;
  }

  lemma EnqueuedSingle(limit: int)
    ensures var run := [SetEnabled(true), Enqueue(AnEvaluation(), "")];
            IsRun(limit, run) && Single(After(limit, run), AnEvaluation(), "service", 0) && After(limit, run).limit == limit
    ensures forall x {:trigger UnackedAt(After(limit, [SetEnabled(true), Enqueue(AnEvaluation(), "")]), x)} ::
              UnackedAt(After(limit, [SetEnabled(true), Enqueue(AnEvaluation(), "")]), x) == 0
  {
    var e := AnEvaluation();
    hide B.ProcessEnqueue;
    EnabledEnqueue(limit, e);
    RunNext(limit, [], SetEnabled(true));
    RunNext(limit, [SetEnabled(true)], Enqueue(e, ""));
    assert [] + [SetEnabled(true)] == [SetEnabled(true)];
    assert [SetEnabled(true)] + [Enqueue(e, "")] == [SetEnabled(true), Enqueue(e, "")];
    forall x
      ensures UnackedAt(B.ProcessEnqueue(B.SetEnabled(B.New(limit), true), e, ""), x) == 0
    {
      EnqueueUnacked(B.SetEnabled(B.New(limit), true), e, "", x);
    }
  }

  /** With a limit of one, a delivery from the failed queue and its Nack leave the type queue at
      minus one and the failed queue at one, with nothing outstanding. */
  lemma CountersDrift()
    ensures IsRun(1, DriftingRun())
    ensures var b := After(1, DriftingRun());
            && b.unack == map[] && UnackedAt(b, "service") == -1 && UnackedAt(b, FAILED_QUEUE) == 1
  {
    var e, run := AnEvaluation(), DriftingRun();
    hide B.DequeueFor, B.Nack, UnackedAt, IsRun, After;
    EnqueuedSingle(1);
    assert run[..2] == [SetEnabled(true), Enqueue(e, "")];
    var b := After(1, run[..2]);
    Round(b, e, "service", 0, "first");
    RunNext(1, run[..2], run[2]);
    RunNext(1, run[..2] + [run[2]], run[3]);
    assert run[..2] + [run[2]] + [run[3]] == run[..4];
    var b1 := After(1, run[..4]);
    Round(b1, e, FAILED_QUEUE, 1, "second");
    RunNext(1, run[..4], run[4]);
    RunNext(1, run[..4] + [run[4]], run[5]);
    assert run[..4] + [run[4]] + [run[5]] == run;
  }

  // ---- an evaluation of type "_failed" ---------------------------------------------

  /** A step of a run that may also accept this evaluation, whatever its type. */
  ghost predicate AllowedWith(b: B.Broker, a: Action, e: Evaluation) {
    Allowed(b, a) || (a == Enqueue(e, "") && e.id != "" && (e.wait > 0 ==> b.enabled))
  }

  ghost predicate IsRunWith(limit: int, run: seq<Action>, e: Evaluation)
    decreases |run|
  {
    run == [] || (IsRunWith(limit, run[..|run| - 1], e) && AllowedWith(After(limit, run[..|run| - 1]), run[|run| - 1], e))
  }

  lemma {:induction false} TypedRuns(limit: int, run: seq<Action>, e: Evaluation)
    requires IsRunWith(limit, run, e) && e.typ != FAILED_QUEUE
    ensures IsRun(limit, run)
    decreases |run|
  {
    hide After;
    if run != [] {
      TypedRuns(limit, run[..|run| - 1], e);
    }
  }

  /** In a run of typed evaluations the type queue delivers at most limit times. */
  lemma {:induction false} TypeBound(limit: int, run: seq<Action>, id: string)
    requires limit >= 1 && IsRun(limit, run)
    ensures TypeDeliveries(limit, run, id) <= limit
    decreases |run|
  {
    if run != [] {
      var last := |run| - 1;
      TypeBound(limit, run[..last], id);
      var b, a := After(limit, run[..last]), run[last];
      if Delivers(b, a, id) {
        DeliveredOccurs(b, a.queue, a.token);
        DeliveryLimit(limit, run, id, InUnack);
      }
    }
  }

  lemma DeliveredOccurs(b: B.Broker, q: string, token: string)
    requires B.HasWork(b, q)
    ensures Occurs(Apply(b, Dequeue(q, token)), B.NextFor(b, q).id, InUnack)
  {
    hide Heap.Pop;
  }

  /** Make the evaluation ready, after its wait if it has one. */
  function Accept(e: Evaluation): seq<Action> {
    if e.wait > 0 then [SetEnabled(true), Enqueue(e, ""), WaitElapsed(e.id)] else [SetEnabled(true), Enqueue(e, "")]
  }

  /** Then deliver it from its type queue and nack it, n times. */
  function Rounds(e: Evaluation, n: nat): seq<Action> {
    if n == 0 then Accept(e) else Rounds(e, n - 1) + [Dequeue(e.typ, "token")] + [Nack(e.id, "token")]
  }

  lemma RunWithNext(limit: int, run: seq<Action>, a: Action, e: Evaluation)
    ensures IsRunWith(limit, run + [a], e) <==> IsRunWith(limit, run, e) && AllowedWith(After(limit, run), a, e)
    ensures After(limit, run + [a]) == Apply(After(limit, run), a)
  {
    RunNext(limit, run, a);
    hide After;
    assert (run + [a])[..|run|] == run;
  }

  lemma NoActions(limit: int, e: Evaluation)
    ensures IsRunWith(limit, [], e) && After(limit, []) == B.New(limit) && TypeDeliveries(limit, [], e.id) == 0
  {
  }

  lemma WaitingEnqueue(limit: int, e: Evaluation)
    requires e.wait > 0
    ensures var b := B.ProcessEnqueue(B.SetEnabled(B.New(limit), true), e, "");
            && b.enabled && b.limit == limit && b.ready == map[] && b.evals == map[e.id := 0] && b.unack == map[]
            && b.jobEvals == map[] && b.timeWait == map[e.id := e]
  {
  }

  lemma CallbackSingle(b: B.Broker, e: Evaluation)
    requires b.enabled && b.ready == map[] && b.evals == map[e.id := 0] && b.unack == map[] && b.jobEvals == map[] && e.id != ""
    ensures Single(B.EnqueueWaiting(b, e), e, e.typ, 0) && B.EnqueueWaiting(b, e).limit == b.limit
  {
    PushFirst(e);
    hide Heap.Push;
  }

  lemma Accepted(limit: int, e: Evaluation)
    requires e.id != ""
    ensures IsRunWith(limit, Accept(e), e) && Single(After(limit, Accept(e)), e, e.typ, 0)
    ensures After(limit, Accept(e)).limit == limit && TypeDeliveries(limit, Accept(e), e.id) == 0
  {
    hide B.ProcessEnqueue, B.EnqueueWaiting, Single, After, IsRunWith, TypeDeliveries;
    NoActions(limit, e);
    var r1 := [SetEnabled(true)];
    assert [] + [SetEnabled(true)] == r1;
    RunWithNext(limit, [], SetEnabled(true), e);
    QuietDeliveries(limit, [], SetEnabled(true), e.id);
    var r2 := r1 + [Enqueue(e, "")];
    RunWithNext(limit, r1, Enqueue(e, ""), e);
    QuietDeliveries(limit, r1, Enqueue(e, ""), e.id);
    if e.wait > 0 {
      WaitingEnqueue(limit, e);
      CallbackSingle(After(limit, r2), e);
      RunWithNext(limit, r2, WaitElapsed(e.id), e);
      QuietDeliveries(limit, r2, WaitElapsed(e.id), e.id);
      assert r2 + [WaitElapsed(e.id)] == Accept(e);
    } else {
      EnabledEnqueue(limit, e);
      ReadySingle(After(limit, r2), e);
      assert r2 == Accept(e);
    }
  }

  lemma ReadySingle(b: B.Broker, e: Evaluation)
    requires b.enabled && b.ready == map[e.typ := [e]] && b.evals == map[e.id := 0] && b.unack == map[]
    requires b.jobEvals == map[e.jobId := e.id]
    ensures Single(b, e, e.typ, 0)
  {
  }

  lemma QuietDeliveries(limit: int, run: seq<Action>, a: Action, id: string)
    requires TypeDeliveries(limit, run, id) == 0 && !a.Dequeue?
    ensures TypeDeliveries(limit, run + [a], id) == 0
  {
    assert (run + [a])[..|run|] == run;
  }

  lemma RoundRun(limit: int, run: seq<Action>, e: Evaluation, n: nat)
    requires e.id != "" && e.typ == FAILED_QUEUE && IsRunWith(limit, run, e)
    requires Single(After(limit, run), e, FAILED_QUEUE, n) && After(limit, run).limit == limit
    ensures var run' := run + [Dequeue(e.typ, "token")] + [Nack(e.id, "token")];
            && IsRunWith(limit, run', e) && Single(After(limit, run'), e, FAILED_QUEUE, n + 1)
            && After(limit, run').limit == limit
            && TypeDeliveries(limit, run', e.id) == TypeDeliveries(limit, run, e.id) + 1
  {
    hide B.DequeueFor, B.Nack, Single, After, IsRunWith, TypeDeliveries, UnackedAt, B.NextFor, B.HasWork;
    var b := After(limit, run);
    SingleEnabled(b, e, FAILED_QUEUE, n);
    Round(b, e, FAILED_QUEUE, n, "token");
    RunWithNext(limit, run, Dequeue(e.typ, "token"), e);
    RunWithNext(limit, run + [Dequeue(e.typ, "token")], Nack(e.id, "token"), e);
    RoundCounts(limit, run, e);
  }

  /** Of type "_failed" it goes round for ever: each delivery is from its type queue. */
  lemma {:induction false} RoundsDeliver(limit: int, e: Evaluation, n: nat)
    requires e.id != "" && e.typ == FAILED_QUEUE
    ensures IsRunWith(limit, Rounds(e, n), e) && Single(After(limit, Rounds(e, n)), e, FAILED_QUEUE, n)
    ensures After(limit, Rounds(e, n)).limit == limit && TypeDeliveries(limit, Rounds(e, n), e.id) == n
  {
    hide Single, After, IsRunWith, TypeDeliveries;
    if n == 0 {
      Accepted(limit, e);
    } else {
      RoundsDeliver(limit, e, n - 1);
      RoundRun(limit, Rounds(e, n - 1), e, n - 1);
    }
  }

  lemma SingleEnabled(b: B.Broker, e: Evaluation, q: string, n: int)
    requires Single(b, e, q, n)
    ensures b.enabled
  {
  }

  lemma RoundCounts(limit: int, run: seq<Action>, e: Evaluation)
    requires B.HasWork(After(limit, run), e.typ) && B.NextFor(After(limit, run), e.typ) == e
    requires e.id in After(limit, run + [Dequeue(e.typ, "token")]).evals
    ensures TypeDeliveries(limit, run + [Dequeue(e.typ, "token")] + [Nack(e.id, "token")], e.id)
            == TypeDeliveries(limit, run, e.id) + 1
  {
    hide After, B.NextFor;
    var r1 := run + [Dequeue(e.typ, "token")];
    assert r1[..|run|] == run;
    assert (r1 + [Nack(e.id, "token")])[..|r1|] == r1;
  }

  /** The bound on deliveries from its type queue holds of an evaluation in every run exactly
      when its type is not that of the failed queue. */
  lemma TypeLimitExact(limit: int, e: Evaluation)
    requires limit >= 1 && e.id != ""
    ensures (forall run :: IsRunWith(limit, run, e) ==> TypeDeliveries(limit, run, e.id) <= limit)
            <==> e.typ != FAILED_QUEUE
  {
    hide IsRunWith, TypeDeliveries, IsRun;
    if e.typ == FAILED_QUEUE {
      RoundsDeliver(limit, e, limit + 1);
    } else {
      forall run | IsRunWith(limit, run, e)
        ensures TypeDeliveries(limit, run, e.id) <= limit
      {
        TypedRuns(limit, run, e);
        TypeBound(limit, run, e.id);
      }
    }
  }
}
