/** Where the broker relies on its callers, on wait timers, the delivery limit and evaluation
    IDs: what happens without the hypothesis, and the exact condition under which the code is
    right. Token pairing is in Reblocking, the failed queue's type in BrokerLimits. */
module BrokerConditions {
  import opened Evaluations
  import opened BrokerRefinement
  import opened BrokerRuns
  import Heap
  import L = BrokerLedger
  import B = BrokerState

  // ---- wait timers -----------------------------------------------------------------

  lemma PushWaiting(b: B.Broker, e: Evaluation, q: string)
    ensures B.PushReady(b, e, q).stats.totalWaiting == b.stats.totalWaiting
    ensures B.PushBlocked(b, e).stats.totalWaiting == b.stats.totalWaiting
  {
    hide Heap.Push, Slice;
  }

  lemma EnqueueLockedWaiting(b: B.Broker, e: Evaluation, q: string)
    ensures B.EnqueueLocked(b, e, q).stats.totalWaiting == b.stats.totalWaiting
    ensures B.EnqueueLocked(b, e, q).timeWait == b.timeWait
  {
    hide B.PushReady, B.PushBlocked;
    PushWaiting(b, e, q);
    PushWaiting(b.(jobEvals := b.jobEvals[e.jobId := e.id]), e, q);
    EnqueueLockedFrame(b, e, q);
  }

  /** On an enabled broker the evaluation of the callback lands in a heap. */
  lemma CallbackLands(b: B.Broker, e: Evaluation)
    requires b.enabled
    ensures var b' := B.EnqueueWaiting(b, e);
            || (e.typ in b'.ready && e in b'.ready[e.typ])
            || (e.jobId in b'.blocked && e in b'.blocked[e.jobId])
  {
    assert e in multiset(Heap.Push(ByCreateIndex, Slice(b.ready, e.typ), e));
    assert e in multiset(Heap.Push(ByCreateIndex, Slice(b.blocked, e.jobId), e));
    hide Heap.Push;
  }

  lemma HeapHolds(kind: Kind, m: map<string, seq<Evaluation>>, es: L.Entries, n: string, e: Evaluation)
    requires Matches(kind, m, es) && n in m && e in m[n]
    ensures Holds(es, e, At(kind, n))
  {
    assert multiset(m[n])[e] > 0;
    assert Lists(m[n], es, At(kind, n));
  }

  lemma CallbackHeld(b: B.Broker, e: Evaluation, k': L.Book)
    requires b.enabled && Agrees(B.EnqueueWaiting(b, e), k')
    ensures e.id in k'.entries && k'.entries[e.id].eval == e
  {
    hide B.EnqueueWaiting, Matches, JobsMatch, UnackMatches, WaitMatches, QueuesKnown, StatsExact;
    CallbackLands(b, e);
    var b' := B.EnqueueWaiting(b, e);
    if e.typ in b'.ready && e in b'.ready[e.typ] {
      HeapHolds(ReadyHeaps, b'.ready, k'.entries, e.typ, e);
    } else {
      HeapHolds(BlockedHeaps, b'.blocked, k'.entries, e.jobId, e);
    }
  }

  /** The broker as if the callback's evaluation were the registered one. */
  function Reregistered(b: B.Broker, e: Evaluation): B.Broker {
    b.(timeWait := b.timeWait[e.id := e])
  }

  ghost function Rebooked(k: L.Book, e: Evaluation): L.Book
    requires e.id in k.entries
  {
    k.(entries := k.entries[e.id := k.entries[e.id].(eval := e)])
  }

  lemma RebookedInv(limit: int, k: L.Book, e: Evaluation)
    requires L.Inv(limit, k) && e.id in k.entries && k.entries[e.id].place.Waiting? && e.typ != FAILED_QUEUE
    ensures L.Inv(limit, Rebooked(k, e))
  {
    var es, es' := k.entries, Rebooked(k, e).entries;
    forall x | x in es' && es'[x].place.Blocked?
      ensures L.JobActive(es', es'[x].eval.jobId)
    {
      var y :| y in es && es[y].Active() && es[y].eval.jobId == es[x].eval.jobId;
      assert y in es' && es'[y].Active();
    }
  }

  lemma WaitRebound(timeWait: map<string, Evaluation>, es: L.Entries, e: Evaluation)
    requires WaitMatches(timeWait, es) && e.id in timeWait
    ensures WaitMatches(timeWait[e.id := e], es[e.id := es[e.id].(eval := e)])
    ensures |timeWait[e.id := e]| == |timeWait|
  {
    assert timeWait[e.id := e].Keys == timeWait.Keys;
  }

  lemma RebookedQueued(b: B.Broker, es: L.Entries, e: Evaluation)
    requires Queued(b, es) && e.id in b.timeWait && e.id in es && es[e.id].place.Waiting?
    ensures Queued(Reregistered(b, e), es[e.id := es[e.id].(eval := e)])
  {
    hide Matches, JobsMatch, UnackMatches, WaitMatches, QueuesKnown, ReadyExact, UnackExact, NoEmptySlice;
    var c := Bound(es[e.id].(eval := e));
    MatchStays(ReadyHeaps, b.ready, es, e.id, c);
    MatchStays(BlockedHeaps, b.blocked, es, e.id, c);
    UnackStays(b.unack, es, e.id, c);
    WaitRebound(b.timeWait, es, e);
    JobsStay(b.jobEvals, es, e.id, c);
    KnownStay(b.ready, b.ready, es, e.id, c);
  }

  lemma RebookedAgrees(b: B.Broker, k: L.Book, e: Evaluation)
    requires Agrees(b, k) && e.id in b.timeWait && e.id in k.entries && k.entries[e.id].place.Waiting?
    ensures Agrees(Reregistered(b, e), Rebooked(k, e))
  {
    hide Queued;
    RebookedQueued(b, k.entries, e);
  }

  lemma CallbackRefines(b: B.Broker, k: L.Book, e: Evaluation)
    requires b.limit >= 1 && Backed(b, k) && e.id in b.timeWait && e.typ != FAILED_QUEUE
    ensures exists k': L.Book :: Backed(B.EnqueueWaiting(b, e), k')
  {
    hide Agrees, L.Inv, B.EnqueueWaiting, BookStep, Follow, Rebooked;
    WaitingEnabled(b, k, e.id);
    RebookedAgrees(b, k, e);
    RebookedInv(b.limit, k, e);
    var b2, k2 := Reregistered(b, e), Rebooked(k, e);
    StepRefines(b2, k2, WaitElapsed(e.id));
    SameCallback(b, e);
    assert Backed(B.EnqueueWaiting(b, e), Follow(b2, k2, WaitElapsed(e.id)));
  }

  lemma SameCallback(b: B.Broker, e: Evaluation)
    requires e.id in b.timeWait
    ensures B.EnqueueWaiting(Reregistered(b, e), e) == B.EnqueueWaiting(b, e)
  {
    hide B.EnqueueLocked;
    assert b.timeWait[e.id := e] - {e.id} == b.timeWait - {e.id};
  }

  lemma WaitingEnabled(b: B.Broker, k: L.Book, id: string)
    requires Backed(b, k) && id in b.timeWait
    ensures b.enabled && id in k.entries && k.entries[id].place.Waiting? && k.entries[id].eval == b.timeWait[id]
  {
    hide Queued, L.WellFormed, L.Serialised, L.NoStarvation;
    WaitLookup(b, k.entries, id);
  }

  /** The callback of a wait timer has no guard. The state stays one that some ledger vouches
      for exactly when a timer of that ID is still registered and the type is a real one; and
      it is the step that the ledger takes exactly when the callback's evaluation is the
      registered one. */
  lemma WaitCallbackExact(b: B.Broker, k: L.Book, e: Evaluation)
    requires b.limit >= 1 && Backed(b, k)
    ensures (exists k': L.Book :: Backed(B.EnqueueWaiting(b, e), k')) <==> e.id in b.timeWait && e.typ != FAILED_QUEUE
    ensures (e.id in k.entries && Backed(B.EnqueueWaiting(b, e), L.WaitElapsed(k, e.id)))
            <==> e.id in b.timeWait && b.timeWait[e.id] == e
  {
    hide Agrees, L.Inv, B.EnqueueWaiting, BookStep, L.WaitElapsed;
    if e.id !in b.timeWait {
      StaleCallback(b, k, e);
    } else {
      WaitingEnabled(b, k, e.id);
      forall k': L.Book | Backed(B.EnqueueWaiting(b, e), k')
        ensures e.typ != FAILED_QUEUE && e.id in k'.entries && k'.entries[e.id].eval == e
      {
        CallbackHeld(b, e, k');
        EnqueueWaitingLimit(b, e);
        RealType(b.limit, k', e.id);
      }
      if e.typ != FAILED_QUEUE {
        CallbackRefines(b, k, e);
      }
      WaitElapsedEval(k, e.id);
      if b.timeWait[e.id] == e {
        StepRefines(b, k, WaitElapsed(e.id));
      }
    }
  }

  lemma WaitElapsedEval(k: L.Book, id: string)
    requires id in k.entries
    ensures id in L.WaitElapsed(k, id).entries && L.WaitElapsed(k, id).entries[id].eval == k.entries[id].eval
  {
  }

  lemma EnqueueWaitingLimit(b: B.Broker, e: Evaluation)
    ensures B.EnqueueWaiting(b, e).limit == b.limit
  {
    hide Heap.Push;
  }

  lemma RealType(limit: int, k: L.Book, id: string)
    requires L.Inv(limit, k) && id in k.entries
    ensures k.entries[id].eval.typ != FAILED_QUEUE
  {
    hide L.Counted;
  }

  lemma StaleCallback(b: B.Broker, k: L.Book, e: Evaluation)
    requires Agrees(b, k) && e.id !in b.timeWait
    ensures forall k': L.Book :: !Agrees(B.EnqueueWaiting(b, e), k')
  {
    hide B.EnqueueLocked, Matches, JobsMatch, UnackMatches, WaitMatches, QueuesKnown, ReadyExact, UnackExact;
    assert b.timeWait - {e.id} == b.timeWait;
    EnqueueLockedWaiting(b.(timeWait := b.timeWait - {e.id},
                            stats := b.stats.(totalWaiting := b.stats.totalWaiting - 1)), e, e.typ);
  }

  /** An evaluation with a wait that is offered to a disabled broker leaves a timer behind:
      the ledger vouches for the result exactly when there is no wait. */
  lemma DisabledEnqueueExact(b: B.Broker, k: L.Book, e: Evaluation, token: string)
    requires b.limit >= 1 && Backed(b, k) && !b.enabled && L.Enqueueable(e)
    ensures (exists k': L.Book :: Backed(B.ProcessEnqueue(b, e, token), k')) <==> e.wait <= 0
  {
    if e.wait <= 0 {
      StepRefines(b, k, Enqueue(e, token));
    } else {
      EvalsEmpty(b, k);
      DisabledTimer(B.ProcessEnqueue(b, e, token), e);
    }
  }

  lemma EvalsEmpty(b: B.Broker, k: L.Book)
    requires Backed(b, k) && !b.enabled
    ensures b.evals == map[]
  {
    hide Queued;
  }

  lemma DisabledTimer(b: B.Broker, e: Evaluation)
    requires !b.enabled && e.id in b.timeWait
    ensures forall k': L.Book :: !Backed(b, k')
  {
    hide Matches, JobsMatch, UnackMatches, QueuesKnown, StatsExact;
    forall k': L.Book | Backed(b, k')
      ensures e.id in k'.entries
    {
    }
  }

  lemma PushOne(e: Evaluation)
    ensures Heap.Push(ByCreateIndex, [], e) == [e]
    ensures Heap.Push(ByCreateIndex, [e], e) == [e, e]
  {
    assert [] + [e] == [e] && [e] + [e] == [e, e];
  }

  /** A callback makes the evaluation ready when its job is free or names it. */
  lemma CallbackReady(b: B.Broker, e: Evaluation)
    requires b.enabled && (e.jobId in b.jobEvals ==> b.jobEvals[e.jobId] == e.id) && e.id != ""
    ensures var b' := B.EnqueueWaiting(b, e);
            && b'.ready == b.ready[e.typ := Heap.Push(ByCreateIndex, Slice(b.ready, e.typ), e)]
            && b'.jobEvals == b.jobEvals[e.jobId := e.id]
            && b'.evals == b.evals && b'.enabled
  {
    hide Heap.Push;
  }

  /** Followers apply evaluations to a disabled broker, and the new leader offers them again:
      two timers run, and the evaluation is ready twice. */
  lemma WaitWhileDisabledDuplicates(limit: int, e: Evaluation)
    requires L.Enqueueable(e) && e.wait > 0
    ensures var b1 := B.ProcessEnqueue(B.New(limit), e, "");
            var b2 := B.ProcessEnqueue(B.SetEnabled(b1, true), e, "");
            var b3 := B.EnqueueWaiting(B.EnqueueWaiting(b2, e), e);
            && |b2.timeWait| == 1 && b2.stats.totalWaiting == 2
            && b3.ready == map[e.typ := [e, e]] && b3.evals == map[e.id := 0]
  {
    hide B.EnqueueLocked, B.EnqueueWaiting, Heap.Push;
    var b1 := B.ProcessEnqueue(B.New(limit), e, "");
    var b2 := B.ProcessEnqueue(B.SetEnabled(b1, true), e, "");
    assert b2.timeWait == map[e.id := e] && b2.ready == map[] && b2.jobEvals == map[];
    PushOne(e);
    CallbackReady(b2, e);
    CallbackReady(B.EnqueueWaiting(b2, e), e);
  }

  // ---- the delivery limit ----------------------------------------------------------

  function AnEvaluation(): Evaluation {
    Evaluation("id", "job", "service", "", 0, map[], false, 0, 0)
  }

  function FirstDelivery(): seq<Action> {
    [SetEnabled(true), Enqueue(AnEvaluation(), ""), Dequeue("service", "token")]
  }

  lemma EnabledEnqueue(limit: int, e: Evaluation)
    requires e.wait <= 0
    ensures var b := B.ProcessEnqueue(B.SetEnabled(B.New(limit), true), e, "");
            && b.enabled && b.limit == limit && b.ready == map[e.typ := [e]] && b.evals == map[e.id := 0]
            && b.unack == map[] && b.requeue == map[] && b.stats.byScheduler.Keys == {e.typ}
            && b.jobEvals == map[e.jobId := e.id] && b.blocked == map[] && b.timeWait == map[]
  {
    PushOne(e);
    hide Heap.Push;
  }

  lemma DequeueOnly(b: B.Broker, e: Evaluation, token: string)
    requires b.ready == map[e.typ := [e]] && b.evals == map[e.id := 0] && b.unack == map[]
    requires b.stats.byScheduler.Keys == {e.typ}
    ensures var b' := B.DequeueFor(b, e.typ, token);
            && b'.evals == map[e.id := 1] && b'.unack == map[e.id := B.Unack(e, token, true)]
            && b'.stats.byScheduler.Keys == {e.typ} && b'.limit == b.limit
            && b'.enabled == b.enabled && b'.requeue == b.requeue
  {
    assert Heap.Pop(ByCreateIndex, [e]).0 == e;
    hide Heap.Pop;
  }

  /** A run that delivers: whatever the limit, the evaluation is then outstanding, its timer
      is armed, and its Ack would succeed. */
  lemma FirstDeliveryRuns(limit: int)
    ensures IsRun(limit, FirstDelivery())
    ensures var b := After(limit, FirstDelivery());
            && b.limit == limit && b.enabled && b.evals == map["id" := 1] && b.requeue == map[]
            && b.unack == map["id" := B.Unack(AnEvaluation(), "token", true)]
            && b.stats.byScheduler.Keys == {"service"}
            && B.AckOutcome(b, "id", "token") == B.Done
  {
    hide B.ProcessEnqueue, B.DequeueFor, B.SetEnabled;
    var e, run := AnEvaluation(), FirstDelivery();
    assert run[..2] == [SetEnabled(true), Enqueue(e, "")] && run[..2][..1] == [SetEnabled(true)];
    assert [SetEnabled(true)][..0] == [];
    EnabledEnqueue(limit, e);
    assert After(limit, []) == B.New(limit);
    assert After(limit, run[..2][..1]) == B.SetEnabled(B.New(limit), true);
    var b := After(limit, run[..2]);
    assert b == B.ProcessEnqueue(B.SetEnabled(B.New(limit), true), e, "");
    DequeueOnly(b, e, "token");
    assert After(limit, run) == B.DequeueFor(b, "service", "token");
  }

  lemma FirstDeliveryRest(limit: int)
    ensures var b := After(limit, FirstDelivery());
            && b.blocked == map[] && b.timeWait == map[] && b.jobEvals == map["job" := "id"]
            && (forall q :: q in b.ready ==> b.ready[q] == [])
  {
    hide B.ProcessEnqueue, B.DequeueFor, B.SetEnabled;
    var e, run := AnEvaluation(), FirstDelivery();
    assert run[..2] == [SetEnabled(true), Enqueue(e, "")] && run[..2][..1] == [SetEnabled(true)];
    assert [SetEnabled(true)][..0] == [];
    EnabledEnqueue(limit, e);
    assert After(limit, []) == B.New(limit);
    assert After(limit, run[..2][..1]) == B.SetEnabled(B.New(limit), true);
    var b := After(limit, run[..2]);
    DequeueRest(b, e, "token");
  }

  lemma DequeueRest(b: B.Broker, e: Evaluation, token: string)
    requires b.ready == map[e.typ := [e]]
    ensures var b' := B.DequeueFor(b, e.typ, token);
            && b'.blocked == b.blocked && b'.timeWait == b.timeWait && b'.jobEvals == b.jobEvals
            && (forall q :: q in b'.ready ==> b'.ready[q] == [])
  {
    assert |Heap.Pop(ByCreateIndex, [e]).1| == 0;
    hide Heap.Pop;
  }

  /** With a limit below one, the Ack of a first delivery debits a queue without statistics. */
  lemma NoLimitPanics(limit: int)
    requires limit < 1
    ensures IsRun(limit, FirstDelivery())
    ensures !B.AckSafe(After(limit, FirstDelivery()), "id", "token")
  {
    hide IsRun, After;
    FirstDeliveryRuns(limit);
  }

  lemma AckAlwaysSafe(limit: int, run: seq<Action>, id: string, token: string)
    requires limit >= 1 && IsRun(limit, run)
    ensures B.AckSafe(After(limit, run), id, token)
  {
    hide IsRun, After, B.AckSafe, B.NackSafe, BookStep, Follow, Apply, Backed;
    AfterLimit(limit, run);
    StepRefines(After(limit, run), BookAfter(limit, run), Ack(id, token));
  }

  /** No run makes Ack dereference a missing statistic exactly when the limit is positive. */
  lemma LimitExact(limit: int)
    ensures (forall run, id, token :: IsRun(limit, run) ==> B.AckSafe(After(limit, run), id, token)) <==> limit >= 1
  {
    hide IsRun, After, B.AckSafe;
    if limit >= 1 {
      forall run, id, token | IsRun(limit, run)
        ensures B.AckSafe(After(limit, run), id, token)
      {
        AckAlwaysSafe(limit, run, id, token);
      }
    } else {
      NoLimitPanics(limit);
    }
  }

  // ---- evaluation IDs --------------------------------------------------------------

  /** The per-job table takes an empty ID for no entry: of two new evaluations of a free
      job the second waits for the first exactly when the first has an ID. */
  lemma SerialisedIffNamed(b: B.Broker, k: L.Book, first: Evaluation, second: Evaluation)
    requires Agrees(b, k) && b.enabled && first.jobId == second.jobId && first.jobId !in b.jobEvals
    requires first.id !in b.evals && second.id !in b.evals && first.id != second.id
    requires first.wait <= 0 && second.wait <= 0
    ensures var b2 := B.ProcessEnqueue(B.ProcessEnqueue(b, first, ""), second, "");
            second.jobId in b2.blocked && second in b2.blocked[second.jobId] <==> first.id != ""
  {
    NotBlockedYet(b, k, second);
    hide Heap.Push, Agrees;
    var b1 := B.ProcessEnqueue(b, first, "");
    assert b1.jobEvals == b.jobEvals[first.jobId := first.id] && b1.blocked == b.blocked;
    assert b1.evals == b.evals[first.id := 0] && b1.enabled;
    SecondOfJob(b1, second, first.id);
  }

  lemma NotBlockedYet(b: B.Broker, k: L.Book, e: Evaluation)
    requires Agrees(b, k) && e.id !in b.evals
    ensures e !in Slice(b.blocked, e.jobId)
  {
    hide JobsMatch, UnackMatches, WaitMatches, StatsExact, QueuesKnown;
    if e.jobId in b.blocked {
      assert !Holds(k.entries, e, At(BlockedHeaps, e.jobId));
      assert multiset(b.blocked[e.jobId])[e] == 0;
    }
  }

  lemma SecondOfJob(b: B.Broker, e: Evaluation, named: string)
    requires b.enabled && e.id !in b.evals && e.wait <= 0 && e.id != named
    requires e.jobId in b.jobEvals && b.jobEvals[e.jobId] == named
    requires e !in Slice(b.blocked, e.jobId)
    ensures var b' := B.ProcessEnqueue(b, e, "");
            e.jobId in b'.blocked && e in b'.blocked[e.jobId] <==> named != ""
  {
    hide Heap.Push;
    var s := Heap.Push(ByCreateIndex, Slice(b.blocked, e.jobId), e);
    assert e in multiset(s);
  }

  // ---- the Unacked counter of one queue --------------------------------------------

  ghost function OutstandingFrom(es: L.Entries, q: string): set<string> {
    set id | id in es && es[id].place.Outstanding? && es[id].place.from == q
  }

  /** Each queue's Unacked counter is the number of deliveries taken from that queue. */
  ghost predicate PerQueueExact(stats: map<string, B.SchedulerStats>, es: L.Entries) {
    forall q :: q in stats ==> stats[q].unacked == |OutstandingFrom(es, q)|
  }

  /** The statistics after a Nack: the type queue is debited, whatever the delivery came from. */
  lemma NackStats(b: B.Broker, id: string, token: string)
    requires B.Lookup(b, id, token) == B.Done && b.enabled
    requires var e := b.unack[id].eval; e.jobId in b.jobEvals && b.jobEvals[e.jobId] == e.id
    ensures var b', typ, q := B.Nack(b, id, token), b.unack[id].eval.typ, B.NackQueue(b, id);
            && b'.stats.byScheduler.Keys == b.stats.byScheduler.Keys + {typ, q}
            && (forall x :: x in b'.stats.byScheduler ==>
                  b'.stats.byScheduler[x].unacked ==
                  B.SchedStats(b.stats, x).unacked - (if x == typ then 1 else 0))
  {
    hide Heap.Push, Slice;
  }

  lemma NothingFromUnknown(b: B.Broker, es: L.Entries, q: string)
    requires Queued(b, es) && q !in b.stats.byScheduler
    ensures OutstandingFrom(es, q) == {}
  {
    hide Matches, JobsMatch, UnackMatches, WaitMatches;
    assert forall id :: id in es && es[id].Active() && es[id].place.Outstanding? ==> es[id].place.from != q;
  }

  lemma OutstandingLess(es: L.Entries, id: string, en: L.Entry, q: string)
    requires id in es && es[id].place.Outstanding? && !en.place.Outstanding?
    ensures OutstandingFrom(es[id := en], q)
            == OutstandingFrom(es, q) - (if q == es[id].place.from then {id} else {})
    ensures |OutstandingFrom(es[id := en], q)|
            == |OutstandingFrom(es, q)| - (if q == es[id].place.from then 1 else 0)
  {
    if q == es[id].place.from {
      assert id in OutstandingFrom(es, q);
    }
  }

  /** Debiting one queue for a delivery that came from another breaks the count of both. */
  lemma DebitExact(stats: map<string, B.SchedulerStats>, stats': map<string, B.SchedulerStats>,
                   es: L.Entries, id: string, en: L.Entry, typ: string)
    requires id in es && es[id].place.Outstanding? && !en.place.Outstanding?
    requires PerQueueExact(stats, es) && typ in stats && stats.Keys <= stats'.Keys
    requires forall x :: x in stats' ==>
               stats'[x].unacked == (if x in stats then stats[x].unacked else 0) - (if x == typ then 1 else 0)
    requires forall x :: x in stats' && x !in stats ==> OutstandingFrom(es, x) == {}
    ensures PerQueueExact(stats', es[id := en]) <==> es[id].place.from == typ
  {
    forall x
      ensures |OutstandingFrom(es[id := en], x)|
              == |OutstandingFrom(es, x)| - (if x == es[id].place.from then 1 else 0)
    {
      OutstandingLess(es, id, en, x);
    }
    assert typ in stats';
  }

  /** The counters of the single queues survive a Nack exactly when the delivery came from
      the type queue, that is, when its count has not passed the limit. */
  lemma NackDriftExact(b: B.Broker, k: L.Book, id: string, token: string)
    requires b.limit >= 1 && Backed(b, k) && L.HeldBy(k, id, token)
    requires PerQueueExact(b.stats.byScheduler, k.entries)
    ensures id in b.evals
    ensures PerQueueExact(B.Nack(b, id, token).stats.byScheduler, L.Nack(b.limit, k, id, token).entries)
            <==> b.evals[id] <= b.limit
  {
    var b', k' := B.Nack(b, id, token), L.Nack(b.limit, k, id, token);
    hide Agrees, B.Nack, L.Inv, PerQueueExact, OutstandingFrom, B.AckOutcome, L.CanAck;
    CountOf(b, k, id);
    AckOutcomeIff(b, k, id, token);
    AckQueueIsOrigin(b, k, id);
    hide B.AckQueue;
    UnackNamed(b, k, id);
    NackStats(b, id, token);
    var typ, q := b.unack[id].eval.typ, B.NackQueue(b, id);
    if q !in b.stats.byScheduler {
      UnknownQueue(b, k, q);
    }
    DebitExact(b.stats.byScheduler, b'.stats.byScheduler, k.entries, id, k'.entries[id], typ);
  }

  lemma CountOf(b: B.Broker, k: L.Book, id: string)
    requires Backed(b, k) && id in k.entries
    ensures b.enabled && id in b.evals && b.evals[id] == k.entries[id].count
    ensures k.entries[id].place.Outstanding? ==>
              (k.entries[id].place.from == k.entries[id].eval.typ <==> b.evals[id] <= b.limit)
  {
    hide Queued;
    AckEnabled(b, k, id);
  }

  lemma UnackNamed(b: B.Broker, k: L.Book, id: string)
    requires Backed(b, k) && id in b.unack
    ensures b.unack[id].eval.id == id
    ensures b.unack[id].eval.jobId in b.jobEvals && b.jobEvals[b.unack[id].eval.jobId] == id
  {
    hide Placed, JobsMatch, QueuesKnown;
    UnackLookup(b, k.entries, id);
  }

  lemma UnknownQueue(b: B.Broker, k: L.Book, q: string)
    requires Agrees(b, k) && q !in b.stats.byScheduler
    ensures OutstandingFrom(k.entries, q) == {}
  {
    hide Queued;
    NothingFromUnknown(b, k.entries, q);
  }
}
