/** Disabling a broker takes the lock twice: once to clear the switch, once to flush. Whatever
    happens in between, the flush leaves the state that one step would have left, up to the
    copies stored for requeue, and no call in between finds a statistic missing. */
module BrokerGap {
  import opened Evaluations
  import opened BrokerRefinement
  import opened BrokerRuns
  import opened BrokerConditions
  import Heap
  import L = BrokerLedger
  import B = BrokerState

  /** What can happen while the broker is disabled: everything but a delivery and a switch. */
  predicate InGap(a: Action) {
    match a
    case Enqueue(e, _) => e.id != "" && e.typ != FAILED_QUEUE
    case Dequeue(_, _) => false
    case SetEnabled(_) => false
    case _ => true
  }

  function AfterGap(b: B.Broker, run: seq<Action>): B.Broker
    decreases |run|
  {
    if run == [] then b else Apply(AfterGap(b, run[..|run| - 1]), run[|run| - 1])
  }

  /** The statistics that Ack and Nack of any outstanding delivery dereference are there. */
  ghost predicate StatsKnown(unack: map<string, B.Unack>, evals: map<string, int>, limit: int, queues: set<string>) {
    forall id :: id in unack ==>
      && unack[id].eval.typ in queues
      && ((id in evals && evals[id] > limit) ==> FAILED_QUEUE in queues)
  }

  ghost predicate CopiesFit(requeue: map<string, Evaluation>) {
    forall t :: t in requeue ==> L.Enqueueable(requeue[t])
  }

  ghost predicate Disabled(b: B.Broker, limit: int) {
    !b.enabled && b.limit == limit && limit >= 1 && StatsKnown(b.unack, b.evals, limit, b.stats.byScheduler.Keys) && CopiesFit(b.requeue)
  }

  lemma KnownShrinks(unack: map<string, B.Unack>, evals: map<string, int>, limit: int, queues: set<string>,
                     unack': map<string, B.Unack>, evals': map<string, int>, queues': set<string>)
    requires StatsKnown(unack, evals, limit, queues) && queues <= queues'
    requires forall id :: id in unack' ==> id in unack && unack'[id].eval == unack[id].eval
    requires forall id :: id in unack' && id in evals' ==> id in evals && evals'[id] == evals[id]
    ensures StatsKnown(unack', evals', limit, queues')
  {
  }

  lemma KnownSafe(b: B.Broker, limit: int, id: string, token: string)
    requires Disabled(b, limit)
    ensures B.AckSafe(b, id, token) && B.NackSafe(b, id, token)
  {
  }

  lemma LockedOff(b: B.Broker, e: Evaluation)
    requires !b.enabled
    ensures B.EnqueueLocked(b, e, e.typ) == b
  {
    hide B.PushReady, B.PushBlocked;
  }

  /** An enqueue on a disabled broker stores a copy or starts a wait, and no more. */
  lemma EnqueueOff(b: B.Broker, e: Evaluation, token: string)
    requires !b.enabled
    ensures var b' := B.ProcessEnqueue(b, e, token);
            && !b'.enabled && b'.limit == b.limit && b'.unack == b.unack && b'.evals == b.evals
            && b'.stats.byScheduler == b.stats.byScheduler
            && (b'.requeue == b.requeue || b'.requeue == b.requeue[token := e])
  {
    hide B.EnqueueLocked;
    LockedOff(b, e);
  }

  lemma EnqueueInGap(b: B.Broker, e: Evaluation, token: string, limit: int)
    requires Disabled(b, limit) && L.Enqueueable(e)
    ensures Disabled(B.ProcessEnqueue(b, e, token), limit)
  {
    hide B.ProcessEnqueue, StatsKnown;
    EnqueueOff(b, e, token);
  }

  lemma PromoteOff(b: B.Broker, job: string)
    requires !b.enabled
    ensures var b' := B.Promote(b, job);
            && !b'.enabled && b'.limit == b.limit && b'.unack == b.unack && b'.evals == b.evals
            && b'.stats.byScheduler == b.stats.byScheduler && b'.requeue == b.requeue
  {
    hide Heap.Pop;
  }

  lemma SettleInGap(b: B.Broker, id: string, limit: int)
    requires Disabled(b, limit) && id in b.unack
    ensures Disabled(B.Settle(b, id), limit)
  {
    hide StatsKnown;
    var b' := B.Settle(b, id);
    KnownShrinks(b.unack, b.evals, limit, b.stats.byScheduler.Keys, b'.unack, b'.evals, b'.stats.byScheduler.Keys);
  }

  lemma DropInGap(b: B.Broker, token: string, limit: int)
    requires Disabled(b, limit)
    ensures Disabled(b.(requeue := b.requeue - {token}), limit)
  {
    hide StatsKnown;
  }

  lemma AckInGap(b: B.Broker, id: string, token: string, limit: int)
    requires Disabled(b, limit)
    ensures Disabled(B.Ack(b, id, token), limit)
  {
    hide B.Promote, B.Settle, B.ProcessEnqueue, StatsKnown, CopiesFit;
    if B.AckOutcome(b, id, token) == B.Done {
      SettleInGap(b, id, limit);
      PromoteOff(B.Settle(b, id), b.unack[id].eval.jobId);
      var b1 := B.Promote(B.Settle(b, id), b.unack[id].eval.jobId);
      if token in b1.requeue {
        CopyFits(b1.requeue, token);
        EnqueueInGap(b1, b1.requeue[token], "", limit);
        DropInGap(B.ProcessEnqueue(b1, b1.requeue[token], ""), token, limit);
      } else {
        DropInGap(b1, token, limit);
      }
    } else {
      DropInGap(b, token, limit);
    }
  }

  lemma CopyFits(requeue: map<string, Evaluation>, token: string)
    requires CopiesFit(requeue) && token in requeue
    ensures L.Enqueueable(requeue[token])
  {
  }

  lemma NackInGap(b: B.Broker, id: string, token: string, limit: int)
    requires Disabled(b, limit)
    ensures Disabled(B.Nack(b, id, token), limit)
  {
    hide StatsKnown, CopiesFit;
    DropInGap(b, token, limit);
    var b' := B.Nack(b, id, token);
    KnownShrinks(b.unack, b.evals, limit, b.stats.byScheduler.Keys, b'.unack, b'.evals, b'.stats.byScheduler.Keys);
  }

  lemma TimerInGap(b: B.Broker, id: string, armed: bool, limit: int)
    requires Disabled(b, limit)
    ensures Disabled(B.SetArmed(b, id, armed), limit)
  {
    hide CopiesFit;
  }

  lemma WaitInGap(b: B.Broker, e: Evaluation, limit: int)
    requires Disabled(b, limit)
    ensures Disabled(B.EnqueueWaiting(b, e), limit)
  {
    hide CopiesFit, StatsKnown;
  }

  lemma StepInGap(b: B.Broker, a: Action, limit: int)
    requires Disabled(b, limit) && InGap(a)
    ensures Disabled(Apply(b, a), limit)
  {
    hide B.ProcessEnqueue, B.Ack, B.Nack, B.SetArmed, B.EnqueueWaiting, StatsKnown, CopiesFit;
    match a
    case Enqueue(e, t) => EnqueueInGap(b, e, t, limit);
    case WaitElapsed(id) => if id in b.timeWait { WaitInGap(b, b.timeWait[id], limit); }
    case Ack(id, t) => AckInGap(b, id, t, limit);
    case Nack(id, t) => NackInGap(b, id, t, limit);
    case TimerFires(id) => TimerInGap(b, id, false, limit);
    case Pause(id, t) => TimerInGap(b, id, false, limit);
    case Resume(id, t) => TimerInGap(b, id, true, limit);
  }

  lemma {:induction false} GapKeeps(b: B.Broker, run: seq<Action>, limit: int)
    requires Disabled(b, limit) && forall i :: 0 <= i < |run| ==> InGap(run[i])
    ensures Disabled(AfterGap(b, run), limit)
    decreases |run|
  {
    hide Disabled, Apply, InGap;
    if run != [] {
      GapKeeps(b, run[..|run| - 1], limit);
      StepInGap(AfterGap(b, run[..|run| - 1]), run[|run| - 1], limit);
    }
  }

  lemma SwitchedOff(b: B.Broker, k: L.Book)
    requires b.limit >= 1 && Backed(b, k)
    ensures Disabled(b.(enabled := false), b.limit)
  {
    hide Queued, L.WellFormed, L.Serialised, L.NoStarvation;
    AgreesRequeue(b, k);
    forall id | id in b.unack
      ensures b.unack[id].eval.typ in b.stats.byScheduler && (id in b.evals && b.evals[id] > b.limit ==> FAILED_QUEUE in b.stats.byScheduler)
    {
      KnownStats(b, k, id);
    }
  }

  lemma KnownStats(b: B.Broker, k: L.Book, id: string)
    requires b.limit >= 1 && Backed(b, k) && id in b.unack
    ensures b.unack[id].eval.typ in b.stats.byScheduler && B.AckQueue(b, id) in b.stats.byScheduler
  {
    hide Agrees, L.Inv, Follow, BookStep, B.Nack;
    var token := b.unack[id].token;
    StepRefines(b, k, Nack(id, token));
    StepRefines(b, k, Resume(id, token));
    var b1 := Apply(b, Resume(id, token));
    StepRefines(b1, Follow(b, k, Resume(id, token)), Ack(id, token));
  }

  /** A flush clears everything but the stored copies, whatever was there. */
  lemma FlushClears(b: B.Broker, limit: int)
    requires Disabled(b, limit)
    ensures B.Flush(b) == B.SetEnabled(B.New(limit), false).(requeue := b.requeue)
    ensures Backed(B.Flush(b), L.Book(false, map[], b.requeue))
  {
    hide StatsKnown;
    EmptyAgrees(B.Flush(b), L.Book(false, map[], b.requeue));
    hide Agrees;
  }

  /** The gap does no harm: whatever ran in it was safe, and after the flush the ledger vouches
      for the broker, which is as one step would have left it but for the stored copies. */
  lemma GapHarmless(b: B.Broker, k: L.Book, run: seq<Action>, id: string, token: string)
    requires b.limit >= 1 && Backed(b, k) && forall i :: 0 <= i < |run| ==> InGap(run[i])
    ensures var b1 := AfterGap(b.(enabled := false), run);
            && B.AckSafe(b1, id, token) && B.NackSafe(b1, id, token)
            && B.Flush(b1) == B.SetEnabled(b, false).(requeue := b1.requeue)
            && Backed(B.Flush(b1), L.Book(false, map[], b1.requeue))
  {
    hide InGap, AfterGap, Backed, StatsKnown, CopiesFit, B.AckSafe, B.NackSafe;
    SwitchedOff(b, k);
    GapKeeps(b.(enabled := false), run, b.limit);
    var b1 := AfterGap(b.(enabled := false), run);
    KnownSafe(b1, b.limit, id, token);
    FlushClears(b1, b.limit);
  }

  // ---- switched on again in the gap ------------------------------------------------

  /** A late flush puts any state in order, switched on or off. */
  lemma FlushRestores(b: B.Broker)
    requires b.limit >= 1 && CopiesFit(b.requeue)
    ensures Backed(B.Flush(b), L.Book(b.enabled, map[], b.requeue))
  {
    EmptyAgrees(B.Flush(b), L.Book(b.enabled, map[], b.requeue));
    hide Agrees;
  }

  /** Another evaluation of the same job. */
  function Second(): Evaluation {
    AnEvaluation().(id := "second")
  }

  /** The first evaluation is outstanding and the second is blocked behind it. */
  ghost predicate OneBehind(b: B.Broker) {
    && b.enabled && b.evals == map["id" := 1, "second" := 0] && b.blocked == map["job" := [Second()]]
    && b.unack == map["id" := B.Unack(AnEvaluation(), "token", true)] && b.requeue == map[] && b.timeWait == map[]
    && (forall q :: q in b.ready ==> b.ready[q] == [])
  }

  lemma SecondBlocked(limit: int)
    ensures IsRun(limit, FirstDelivery() + [Enqueue(Second(), "")])
    ensures OneBehind(After(limit, FirstDelivery() + [Enqueue(Second(), "")]))
  {
    FirstDeliveryRuns(limit);
    FirstDeliveryRest(limit);
    var run := FirstDelivery();
    assert (run + [Enqueue(Second(), "")])[..|run|] == run;
    BlockSecond(After(limit, run));
    hide After, IsRun, B.ProcessEnqueue;
  }

  lemma BlockSecond(b: B.Broker)
    requires b.enabled && b.evals == map["id" := 1] && b.blocked == map[] && b.jobEvals == map["job" := "id"]
    requires b.unack == map["id" := B.Unack(AnEvaluation(), "token", true)] && b.requeue == map[] && b.timeWait == map[]
    requires forall q :: q in b.ready ==> b.ready[q] == []
    ensures OneBehind(B.ProcessEnqueue(b, Second(), ""))
  {
    PushOne(Second());
    hide Heap.Push;
  }

  /** Switched off, acknowledged and switched on again before the flush, the broker has lost the
      evaluation that the Ack should have promoted: it is tracked and is nowhere. */
  lemma SwitchedOnInGapLoses(b: B.Broker)
    requires OneBehind(b)
    ensures var b1 := B.Ack(b.(enabled := false), "id", "token").(enabled := true);
            && "second" in b1.evals && b1.blocked == map[] && b1.unack == map[] && b1.timeWait == map[]
            && (forall q :: q in b1.ready ==> b1.ready[q] == [])
            && (forall k: L.Book :: !Backed(b1, k))
  {
    assert Heap.Pop(ByCreateIndex, [Second()]).0 == Second() && |Heap.Pop(ByCreateIndex, [Second()]).1| == 0;
    hide Heap.Pop;
    var b1 := B.Ack(b.(enabled := false), "id", "token").(enabled := true);
    forall k: L.Book
      ensures !Backed(b1, k)
    {
      NowhereUnbacked(b1, k, "second");
    }
  }

  lemma NowhereUnbacked(b: B.Broker, k: L.Book, id: string)
    requires id in b.evals && b.blocked == map[] && b.unack == map[] && b.timeWait == map[]
    requires forall q :: q in b.ready ==> b.ready[q] == []
    ensures !Backed(b, k)
  {
    hide JobsMatch, QueuesKnown, StatsExact, Heap.IsHeap, L.Serialised, L.NoStarvation, L.Counted;
    if Agrees(b, k) && id in k.entries && k.entries[id].place.Ready? && k.entries[id].place.queue in b.ready {
      var e, q := k.entries[id].eval, k.entries[id].place.queue;
      assert Lists(b.ready[q], k.entries, L.Ready(q));
      assert multiset(b.ready[q])[e] == 0;
    }
  }
}
