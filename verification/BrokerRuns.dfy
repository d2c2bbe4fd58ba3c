/** Whole runs of the broker: any interleaving of enqueues, timer callbacks, dequeues,
    acknowledgements and leadership changes, one critical section at a time. */
module BrokerRuns {
  import opened Evaluations
  import opened BrokerRefinement
  import Heap
  import L = BrokerLedger
  import B = BrokerState

  datatype Action =
    | Enqueue(e: Evaluation, token: string)
    | WaitElapsed(id: string)
    | Dequeue(queue: string, token: string)
    | Ack(id: string, token: string)
    | Nack(id: string, token: string)
    | TimerFires(id: string)
    | Pause(id: string, token: string)
    | Resume(id: string, token: string)
    | SetEnabled(enabled: bool)

  /** When an action can happen. Evaluations carry an ID and a real scheduler type, and one
      with a wait is offered to an enabled broker; a wait timer that runs is still
      registered; a scan dequeues from a queue with work. Ack and Nack take any arguments. */
  ghost predicate Allowed(b: B.Broker, a: Action) {
    match a
    case Enqueue(e, _) => L.Enqueueable(e) && (e.wait > 0 ==> b.enabled)
    case WaitElapsed(id) => id in b.timeWait
    case Dequeue(q, _) => b.enabled && B.HasWork(b, q)
    case _ => true
  }

  function Apply(b: B.Broker, a: Action): B.Broker {
    match a
    case Enqueue(e, t) => B.ProcessEnqueue(b, e, t)
    case WaitElapsed(id) => if id in b.timeWait then B.EnqueueWaiting(b, b.timeWait[id]) else b
    case Dequeue(q, t) => if B.HasWork(b, q) then B.DequeueFor(b, q, t) else b
    case Ack(id, t) => B.Ack(b, id, t)
    case Nack(id, t) => B.Nack(b, id, t)
    case TimerFires(id) => B.TimerFires(b, id)
    case Pause(id, t) => B.PauseNackTimeout(b, id, t)
    case Resume(id, t) => B.ResumeNackTimeout(b, id, t)
    case SetEnabled(on) => B.SetEnabled(b, on)
  }

  /** The same action in the ledger. */
  ghost predicate BookStep(limit: int, k: L.Book, a: Action, k': L.Book) {
    match a
    case Enqueue(e, t) => k' == L.Enqueue(k, e, t)
    case WaitElapsed(id) => id in k.entries && k.entries[id].place.Waiting? && k' == L.WaitElapsed(k, id)
    case Dequeue(q, t) => exists id :: L.Oldest(k.entries, id, L.Ready(q)) && k' == L.Deliver(k, id, q, t)
    case Ack(id, t) => L.AckStep(k, id, t, k')
    case Nack(id, t) => k' == L.Nack(limit, k, id, t)
    case TimerFires(id) => k' == L.SetArmed(k, id, false)
    case Pause(id, t) => k' == if L.HeldBy(k, id, t) then L.SetArmed(k, id, false) else k
    case Resume(id, t) => k' == if L.HeldBy(k, id, t) then L.SetArmed(k, id, true) else k
    case SetEnabled(on) => k' == L.SetEnabled(k, on)
  }

  /** Every step of the ledger keeps its invariant. */
  lemma BookStepKeeps(limit: int, k: L.Book, a: Action, k': L.Book)
    requires limit >= 1 && L.Inv(limit, k) && BookStep(limit, k, a, k')
    requires a.Enqueue? ==> L.Enqueueable(a.e)
    ensures L.Inv(limit, k')
  {
    hide L.Inv;
    match a
    case Enqueue(e, t) => L.EnqueueKeeps(limit, k, e, t);
    case WaitElapsed(id) => L.WaitElapsedKeeps(limit, k, id);
    case Dequeue(q, t) =>
      var id :| L.Oldest(k.entries, id, L.Ready(q)) && k' == L.Deliver(k, id, q, t);
      L.DeliverKeeps(limit, k, id, q, t);
    case Ack(id, t) => L.AckKeeps(limit, k, id, t, k');
    case Nack(id, t) => L.NackKeeps(limit, k, id, t);
    case TimerFires(id) => L.SetArmedKeeps(limit, k, id, false);
    case Pause(id, t) => L.SetArmedKeeps(limit, k, id, false);
    case Resume(id, t) => L.SetArmedKeeps(limit, k, id, true);
    case SetEnabled(on) => L.SetEnabledKeeps(limit, k, on);
  }

  /** A state of the broker that the ledger vouches for. */
  ghost predicate Backed(b: B.Broker, k: L.Book) {
    Agrees(b, k) && L.Inv(b.limit, k)
  }

  lemma EnqueueLimit(b: B.Broker, e: Evaluation, token: string)
    ensures B.ProcessEnqueue(b, e, token).limit == b.limit
  {
    hide B.EnqueueLocked;
    EnqueueLockedFrame(b, e, e.typ);
    EnqueueLockedFrame(b.(evals := b.evals[e.id := 0]), e, e.typ);
  }

  lemma AckLimit(b: B.Broker, id: string, token: string)
    ensures B.Ack(b, id, token).limit == b.limit
  {
    hide B.Promote, B.Settle, B.ProcessEnqueue;
    if B.AckOutcome(b, id, token) == B.Done {
      var job := b.unack[id].eval.jobId;
      PromoteFrame(b, id, job);
      var b1 := B.Promote(B.Settle(b, id), job);
      if token in b1.requeue {
        EnqueueLimit(b1, b1.requeue[token], "");
      }
    }
  }

  lemma NackLimit(b: B.Broker, id: string, token: string)
    ensures B.Nack(b, id, token).limit == b.limit
  {
    hide B.EnqueueLocked, B.DebitUnacked;
    if B.Lookup(b, id, token) == B.Done {
      var e := b.unack[id].eval;
      EnqueueLockedFrame(b.(requeue := b.requeue - {token}, unack := b.unack - {id},
                            stats := B.DebitUnacked(b.stats, e.typ)), e, B.NackQueue(b, id));
    }
  }

  lemma WaitLimit(b: B.Broker, e: Evaluation)
    ensures B.EnqueueWaiting(b, e).limit == b.limit
  {
    hide B.EnqueueLocked;
    EnqueueLockedFrame(b.(timeWait := b.timeWait - {e.id},
                          stats := b.stats.(totalWaiting := b.stats.totalWaiting - 1)), e, e.typ);
  }

  lemma ApplyLimit(b: B.Broker, a: Action)
    ensures Apply(b, a).limit == b.limit
  {
    hide Heap.Pop, B.ProcessEnqueue, B.Ack, B.Nack, B.EnqueueWaiting;
    match a
    case Enqueue(e, t) => EnqueueLimit(b, e, t);
    case WaitElapsed(id) =>
      if id in b.timeWait {
        WaitLimit(b, b.timeWait[id]);
      }
    case Ack(id, t) => AckLimit(b, id, t);
    case Nack(id, t) => NackLimit(b, id, t);
    case _ =>
  }

  /** The book after an action of a backed broker. */
  ghost function Follow(b: B.Broker, k: L.Book, a: Action): L.Book
    requires Backed(b, k) && Allowed(b, a)
  {
    match a
    case Enqueue(e, t) => L.Enqueue(k, e, t)
    case WaitElapsed(id) => WaitElapsedAgrees(b, k, id); L.WaitElapsed(k, id)
    case Dequeue(q, t) => DequeueAgrees(b, k, q, t); L.Deliver(k, B.NextFor(b, q).id, q, t)
    case Ack(id, t) => AckOutcomeIff(b, k, id, t); AckBook(b, k, id, t)
    case Nack(id, t) => L.Nack(b.limit, k, id, t)
    case TimerFires(id) => L.SetArmed(k, id, false)
    case Pause(id, t) => if L.HeldBy(k, id, t) then L.SetArmed(k, id, false) else k
    case Resume(id, t) => if L.HeldBy(k, id, t) then L.SetArmed(k, id, true) else k
    case SetEnabled(on) => L.SetEnabled(k, on)
  }

  lemma DequeueKnown(b: B.Broker, k: L.Book, q: string)
    requires Agrees(b, k)
    ensures B.DequeueSafe(b, q)
  {
    hide Matches, JobsMatch, UnackMatches, WaitMatches, QueuesKnown, UnackExact, CountsMatch;
  }

  /** One step: the broker's action is the ledger's action, and no statistic is missing. */
  lemma StepRefines(b: B.Broker, k: L.Book, a: Action)
    requires b.limit >= 1 && Backed(b, k) && Allowed(b, a)
    ensures BookStep(b.limit, k, a, Follow(b, k, a))
    ensures Backed(Apply(b, a), Follow(b, k, a))
    ensures a.Ack? ==> B.AckSafe(b, a.id, a.token)
    ensures a.Nack? ==> B.NackSafe(b, a.id, a.token)
    ensures a.Dequeue? ==> B.DequeueSafe(b, a.queue)
  {
    if a.Dequeue? {
      DequeueKnown(b, k, a.queue);
    }
    hide B.DequeueSafe;
    StepAgrees(b, k, a);
    BookStepKeeps(b.limit, k, a, Follow(b, k, a));
    ApplyLimit(b, a);
  }

  lemma StepAgrees(b: B.Broker, k: L.Book, a: Action)
    requires b.limit >= 1 && Backed(b, k) && Allowed(b, a)
    ensures BookStep(b.limit, k, a, Follow(b, k, a))
    ensures Agrees(Apply(b, a), Follow(b, k, a))
    ensures a.Ack? ==> B.AckSafe(b, a.id, a.token)
    ensures a.Nack? ==> B.NackSafe(b, a.id, a.token)
  {
    hide Agrees, L.Inv, Heap.Pop, B.ProcessEnqueue, B.Ack, B.Nack, B.EnqueueWaiting, B.SetArmed, L.SetArmed;
    hide AckBook, L.AckStep, L.Oldest, L.Nack, L.Enqueue, L.Admit, B.AckSafe, B.NackSafe;
    match a
    case Enqueue(e, t) => EnqueueAgrees(b, k, e, t);
    case WaitElapsed(id) => WaitElapsedAgrees(b, k, id);
    case Dequeue(q, t) => DequeueAgrees(b, k, q, t);
    case Ack(id, t) => AckAgrees(b, k, id, t);
    case Nack(id, t) => NackAgrees(b, k, id, t);
    case TimerFires(id) => SetArmedAgrees(b, k, id, false);
    case Pause(id, t) => AckOutcomeIff(b, k, id, t); SetArmedAgrees(b, k, id, false);
    case Resume(id, t) => AckOutcomeIff(b, k, id, t); SetArmedAgrees(b, k, id, true);
    case SetEnabled(on) => SetEnabledAgrees(b, k, on);
  }

  // ---- runs from a new broker ------------------------------------------------------

  function After(limit: int, run: seq<Action>): B.Broker
    decreases |run|
  {
    if run == [] then B.New(limit)
    else
      var last := |run| - 1;
      Apply(After(limit, run[..last]), run[last])
  }

  ghost predicate IsRun(limit: int, run: seq<Action>)
    decreases |run|
  {
    run == [] ||
    (var last := |run| - 1;
     IsRun(limit, run[..last]) && Allowed(After(limit, run[..last]), run[last]))
  }

  /** The ledger that accompanies a run. */
  ghost function BookAfter(limit: int, run: seq<Action>): (k: L.Book)
    requires limit >= 1 && IsRun(limit, run)
    ensures Backed(After(limit, run), k)
    decreases |run|
  {
    if run == [] then
      var k := L.Book(false, map[], map[]);
      EmptyAgrees(B.New(limit), k);
      k
    else
      var last := |run| - 1;
      var k := BookAfter(limit, run[..last]);
      AfterLimit(limit, run[..last]);
      StepRefines(After(limit, run[..last]), k, run[last]);
      Follow(After(limit, run[..last]), k, run[last])
  }

  lemma {:induction false} AfterLimit(limit: int, run: seq<Action>)
    ensures After(limit, run).limit == limit
    decreases |run|
  {
    if run != [] {
      var last := |run| - 1;
      AfterLimit(limit, run[..last]);
      ApplyLimit(After(limit, run[..last]), run[last]);
    }
  }

  /** The broker refines the ledger: along every run each action of the broker is that
      action of the ledger. */
  lemma RunRefines(limit: int, run: seq<Action>, i: nat)
    requires limit >= 1 && IsRun(limit, run) && i < |run|
    ensures IsRun(limit, run[..i]) && IsRun(limit, run[..i + 1])
    ensures BookStep(limit, BookAfter(limit, run[..i]), run[i], BookAfter(limit, run[..i + 1]))
  {
    hide Apply, BookStep, Follow, Backed, Allowed;
    PrefixIsRun(limit, run, i + 1);
    var p := run[..i + 1];
    assert p[..i] == run[..i] && p[i] == run[i];
    AfterLimit(limit, run[..i]);
    StepRefines(After(limit, run[..i]), BookAfter(limit, run[..i]), run[i]);
  }

  lemma {:induction false} PrefixIsRun(limit: int, run: seq<Action>, i: nat)
    requires IsRun(limit, run) && i <= |run|
    ensures IsRun(limit, run[..i])
    decreases |run|
  {
    if i == |run| {
      assert run[..i] == run;
    } else {
      var last := |run| - 1;
      PrefixIsRun(limit, run[..last], i);
      assert run[..last][..i] == run[..i];
    }
  }
}
