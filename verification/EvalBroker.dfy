/** The broker object. Each method is one critical section, written as the code updates its
    fields and proved against the function of BrokerState that specifies it. The ghost
    book follows along, so that Valid() carries the ledger's invariants. */
module EvalBrokers {
  import opened Evaluations
  import opened BrokerRefinement
  import opened BrokerRuns
  import BrokerOutcomes
  import Heap
  import L = BrokerLedger
  import B = BrokerState

  datatype Scan = Disabled | NoWork | Delivered(eval: Evaluation)

  class EvalBroker {
    const deliveryLimit: int
    var enabled: bool
    var stats: B.Stats
    var evals: map<string, int>
    var jobEvals: map<string, string>
    var blocked: map<string, seq<Evaluation>>
    var ready: map<string, seq<Evaluation>>
    var unack: map<string, B.Unack>
    var requeue: map<string, Evaluation>
    var timeWait: map<string, Evaluation>
    ghost var book: L.Book

    ghost function View(): B.Broker
      reads this
    {
      B.Broker(deliveryLimit, enabled, stats, evals, jobEvals, blocked, ready, unack, requeue, timeWait)
    }

    ghost predicate Valid()
      reads this
    {
      deliveryLimit >= 1 && Backed(View(), book)
    }

    constructor (limit: int)
      ensures View() == B.New(limit) && (Valid() <==> limit >= 1)
    {
      deliveryLimit, enabled, stats := limit, false, B.NO_STATS;
      evals, jobEvals, blocked, ready := map[], map[], map[], map[];
      unack, requeue, timeWait := map[], map[], map[];
      book := L.Book(false, map[], map[]);
      new;
      EmptyAgrees(View(), book);
    }

    // ---- enqueueing ----------------------------------------------------------------

    method PushReady(e: Evaluation, queue: string)
      modifies this`ready, this`stats
      ensures View() == B.PushReady(old(View()), e, queue)
    {
      hide Heap.Push, Slice;
      ready := ready[queue := Heap.Push(ByCreateIndex, Slice(ready, queue), e)];
      stats := stats.(totalReady := stats.totalReady + 1);
      var bySched := B.SchedStats(stats, queue);
      stats := stats.(byScheduler := stats.byScheduler[queue := bySched.(ready := bySched.ready + 1)]);
    }

    method EnqueueLocked(e: Evaluation, queue: string)
      modifies this
      ensures View() == B.EnqueueLocked(old(View()), e, queue) && book == old(book)
    {
      hide Heap.Push, Slice, B.PushReady;
      if !enabled {
        return;
      }
      var pendingEval := if e.jobId in jobEvals then jobEvals[e.jobId] else "";
      if pendingEval == "" {
        jobEvals := jobEvals[e.jobId := e.id];
      } else if pendingEval != e.id {
        blocked := blocked[e.jobId := Heap.Push(ByCreateIndex, Slice(blocked, e.jobId), e)];
        stats := stats.(totalBlocked := stats.totalBlocked + 1);
        return;
      }
      PushReady(e, queue);
    }

    method ProcessEnqueue(e: Evaluation, token: string)
      modifies this
      ensures View() == B.ProcessEnqueue(old(View()), e, token) && book == old(book)
    {
      hide Heap.Push, B.EnqueueLocked;
      if e.id in evals {
        if token == "" {
          return;
        }
        if e.id in unack && unack[e.id].token == token {
          requeue := requeue[token := e];
        }
        return;
      } else if enabled {
        evals := evals[e.id := 0];
      }
      if e.wait > 0 {
        timeWait := timeWait[e.id := e];
        stats := stats.(totalWaiting := stats.totalWaiting + 1);
        return;
      }
      EnqueueLocked(e, e.typ);
    }

    /** Any evaluation is taken; the ledger follows when the broker's hypotheses hold of it. */
    method Enqueue(e: Evaluation, token: string)
      modifies this
      ensures View() == B.ProcessEnqueue(old(View()), e, token)
      ensures old(Valid()) && Allowed(old(View()), BrokerRuns.Enqueue(e, token)) ==>
                Valid() && BookStep(deliveryLimit, old(book), BrokerRuns.Enqueue(e, token), book)
    {
      hide Backed, BookStep, Follow, B.ProcessEnqueue, Allowed;
      ghost var a := BrokerRuns.Enqueue(e, token);
      if Valid() && Allowed(View(), a) {
        StepRefines(View(), book, a);
        book := Follow(View(), book, a);
      }
      ProcessEnqueue(e, token);
    }

    /** EnqueueAll ranges over a map: offers are its pairs, in whatever order that yields. */
    method EnqueueAll(offers: seq<(Evaluation, string)>)
      modifies this
      ensures View() == B.EnqueueAll(old(View()), offers)
      ensures old(Valid()) && AllAllowed(old(enabled), offers) ==> Valid()
    {
      hide Backed, BookStep, B.ProcessEnqueue;
      for i := 0 to |offers|
        invariant View() == B.EnqueueAll(old(View()), offers[..i])
        invariant old(Valid()) && AllAllowed(old(enabled), offers) ==> Valid()
        invariant enabled == old(enabled)
      {
        EnqueueEnabled(View(), offers[i].0, offers[i].1);
        Enqueue(offers[i].0, offers[i].1);
        assert offers[..i + 1][..i] == offers[..i];
      }
      assert offers[..|offers|] == offers;
    }

    /** The callback does not look whether its timer is still registered; the ledger follows
        when it is. */
    method EnqueueWaiting(e: Evaluation)
      modifies this
      ensures View() == B.EnqueueWaiting(old(View()), e)
      ensures old(Valid()) && e.id in old(timeWait) && old(timeWait)[e.id] == e ==>
                Valid() && BookStep(deliveryLimit, old(book), BrokerRuns.WaitElapsed(e.id), book)
    {
      hide Backed, BookStep, Follow, B.EnqueueLocked;
      ghost var a := BrokerRuns.WaitElapsed(e.id);
      if Valid() && e.id in timeWait && timeWait[e.id] == e {
        StepRefines(View(), book, a);
        book := Follow(View(), book, a);
      }
      timeWait := timeWait - {e.id};
      stats := stats.(totalWaiting := stats.totalWaiting - 1);
      EnqueueLocked(e, e.typ);
    }

    // ---- delivery ------------------------------------------------------------------

    method TakeNext(sched: string, token: string) returns (e: Evaluation)
      requires B.HasWork(View(), sched) && B.DequeueSafe(View(), sched)
      modifies this`ready, this`unack, this`evals, this`stats
      ensures View() == B.DequeueFor(old(View()), sched, token)
      ensures e == B.NextFor(old(View()), sched)
    {
      hide Heap.Pop;
      var (top, rest) := Heap.Pop(ByCreateIndex, ready[sched]);
      e := top;
      ready := ready[sched := rest];
      unack := unack[e.id := B.Unack(e, token, true)];
      evals := evals[e.id := (if e.id in evals then evals[e.id] else 0) + 1];
      stats := stats.(totalReady := stats.totalReady - 1, totalUnacked := stats.totalUnacked + 1);
      var bySched := stats.byScheduler[sched];
      stats := stats.(byScheduler := stats.byScheduler[sched :=
        B.SchedulerStats(bySched.ready - 1, bySched.unacked + 1)]);
    }

    method DequeueForSched(sched: string, token: string) returns (e: Evaluation)
      requires Valid() && enabled && B.HasWork(View(), sched)
      modifies this
      ensures Valid() && View() == B.DequeueFor(old(View()), sched, token)
      ensures BookStep(deliveryLimit, old(book), BrokerRuns.Dequeue(sched, token), book)
      ensures e == B.NextFor(old(View()), sched)
    {
      hide Backed, BookStep, Follow, Heap.Pop, B.DequeueFor, B.NextFor;
      ghost var a := BrokerRuns.Dequeue(sched, token);
      StepRefines(View(), book, a);
      book := Follow(View(), book, a);
      e := TakeNext(sched, token);
    }

    /** A scan never pops an empty heap; random is the number that picks among the eligible
        queues, token the new delivery's token. */
    method ScanForSchedulers(schedulers: seq<string>, random: nat, token: string) returns (r: Scan)
      requires Valid()
      modifies this
      ensures Valid()
      ensures match r
              case Disabled => !enabled && View() == old(View())
              case NoWork => enabled && View() == old(View()) && B.Eligible(old(View()), schedulers) == []
              case Delivered(e) =>
                exists q :: q in B.Eligible(old(View()), schedulers)
                            && e == B.NextFor(old(View()), q) && View() == B.DequeueFor(old(View()), q, token)
      ensures r.NoWork? <==> old(enabled) && forall q :: q in schedulers ==> q !in old(ready) || old(ready)[q] == []
      ensures r.Delivered? ==>
                exists q :: && q in schedulers && q in old(ready) && r.eval in old(ready)[q]
                            && forall e :: e in old(ready)[q] ==> r.eval.createIndex <= e.createIndex
    {
      hide Backed, Heap.Pop, B.DequeueFor, B.NextFor, B.HasWork;
      forall q
        ensures B.HasWork(View(), q) <==> q in ready && ready[q] != []
      {
        BrokerOutcomes.HasWorkIff(View(), q);
      }
      if !enabled {
        return Disabled;
      }
      var eligible: seq<string> := [];
      for i := 0 to |schedulers|
        invariant View() == old(View()) && Valid()
        invariant eligible == B.Eligible(View(), schedulers[..i])
      {
        var sched := schedulers[i];
        assert schedulers[..i + 1][..i] == schedulers[..i];
        if sched !in ready {
          continue;
        }
        if |ready[sched]| == 0 {
          continue;
        }
        eligible := eligible + [sched];
      }
      assert schedulers[..|schedulers|] == schedulers;
      if |eligible| == 0 {
        return NoWork;
      }
      var sched := if |eligible| == 1 then eligible[0] else eligible[random % |eligible|];
      assert sched in eligible;
      BackedOldest(View(), book, sched);
      var e := DequeueForSched(sched, token);
      r := Delivered(e);
    }

    // ---- acknowledgement -----------------------------------------------------------

    /** The token of an outstanding evaluation. */
    method Outstanding(id: string) returns (token: string, ok: bool)
      ensures ok <==> id in unack
      ensures token == if ok then unack[id].token else ""
    {
      if id !in unack {
        return "", false;
      }
      return unack[id].token, true;
    }

    /** Take the delivery, the counter and the job's name off the maps. */
    method Settle(id: string)
      requires id in unack && B.AckQueue(View(), id) in stats.byScheduler
      modifies this`stats, this`unack, this`evals, this`jobEvals
      ensures View() == B.Settle(old(View()), id)
    {
      var jobId := unack[id].eval.jobId;
      stats := stats.(totalUnacked := stats.totalUnacked - 1);
      var queue := unack[id].eval.typ;
      if (if id in evals then evals[id] else 0) > deliveryLimit {
        queue := FAILED_QUEUE;
      }
      var bySched := stats.byScheduler[queue];
      stats := stats.(byScheduler := stats.byScheduler[queue := bySched.(unacked := bySched.unacked - 1)]);
      unack := unack - {id};
      evals := evals - {id};
      jobEvals := jobEvals - {jobId};
    }

    /** Make the oldest blocked evaluation of a job ready. */
    method Promote(jobId: string)
      modifies this
      ensures View() == B.Promote(old(View()), jobId) && book == old(book)
    {
      hide Heap.Pop, B.EnqueueLocked;
      if jobId in blocked && |blocked[jobId]| != 0 {
        var (e, rest) := Heap.Pop(ByCreateIndex, blocked[jobId]);
        if |rest| > 0 {
          blocked := blocked[jobId := rest];
        } else {
          blocked := blocked - {jobId};
        }
        stats := stats.(totalBlocked := stats.totalBlocked - 1);
        EnqueueLocked(e, e.typ);
      }
    }

    method TryAck(id: string, token: string) returns (r: B.Outcome)
      requires B.AckSafe(View(), id, token)
      modifies this
      ensures View() == B.Ack(old(View()), id, token) && book == old(book)
      ensures r == B.AckOutcome(old(View()), id, token)
    {
      hide B.Settle, B.Promote, B.ProcessEnqueue, B.AckQueue;
      if id !in unack {
        requeue := requeue - {token};
        return B.NotFound;
      }
      if unack[id].token != token {
        requeue := requeue - {token};
        return B.TokenMismatch;
      }
      var jobId := unack[id].eval.jobId;
      if !unack[id].armed {
        requeue := requeue - {token};
        return B.TimerExpired;
      }
      Settle(id);
      Promote(jobId);
      if token in requeue {
        ProcessEnqueue(requeue[token], "");
      }
      requeue := requeue - {token};
      return B.Done;
    }

    method Ack(id: string, token: string) returns (r: B.Outcome)
      requires Valid()
      modifies this
      ensures Valid() && View() == B.Ack(old(View()), id, token)
      ensures r == B.AckOutcome(old(View()), id, token)
      ensures BookStep(deliveryLimit, old(book), BrokerRuns.Ack(id, token), book)
    {
      hide Backed, BookStep, Follow, B.Ack, B.AckSafe, B.NackSafe, B.AckOutcome;
      ghost var a := BrokerRuns.Ack(id, token);
      StepRefines(View(), book, a);
      book := Follow(View(), book, a);
      r := TryAck(id, token);
    }

    /** Take the delivery off and debit the type queue, whatever queue it came from. */
    method DropDelivery(id: string)
      requires id in unack && unack[id].eval.typ in stats.byScheduler
      modifies this`stats, this`unack
      ensures View() == old(View()).(unack := old(unack) - {id},
                                     stats := B.DebitUnacked(old(stats), old(unack)[id].eval.typ))
    {
      var typ := unack[id].eval.typ;
      unack := unack - {id};
      stats := stats.(totalUnacked := stats.totalUnacked - 1);
      var bySched := stats.byScheduler[typ];
      stats := stats.(byScheduler := stats.byScheduler[typ := bySched.(unacked := bySched.unacked - 1)]);
    }

    method TryNack(id: string, token: string) returns (r: B.Outcome)
      requires B.NackSafe(View(), id, token)
      modifies this
      ensures View() == B.Nack(old(View()), id, token) && book == old(book)
      ensures r == B.Lookup(old(View()), id, token)
    {
      hide B.EnqueueLocked, B.DebitUnacked;
      requeue := requeue - {token};
      if id !in unack {
        return B.NotFound;
      }
      if unack[id].token != token {
        return B.TokenMismatch;
      }
      var e := unack[id].eval;
      DropDelivery(id);
      if (if id in evals then evals[id] else 0) >= deliveryLimit {
        EnqueueLocked(e, FAILED_QUEUE);
      } else {
        EnqueueLocked(e, e.typ);
      }
      return B.Done;
    }

    method Nack(id: string, token: string) returns (r: B.Outcome)
      requires Valid()
      modifies this
      ensures Valid() && View() == B.Nack(old(View()), id, token)
      ensures r == B.Lookup(old(View()), id, token)
      ensures BookStep(deliveryLimit, old(book), BrokerRuns.Nack(id, token), book)
    {
      hide Backed, BookStep, Follow, B.Nack, B.AckSafe, B.NackSafe, B.Lookup;
      ghost var a := BrokerRuns.Nack(id, token);
      StepRefines(View(), book, a);
      book := Follow(View(), book, a);
      r := TryNack(id, token);
    }

    // ---- Nack timers ---------------------------------------------------------------

    method PauseNackTimeout(id: string, token: string) returns (r: B.Outcome)
      requires Valid()
      modifies this
      ensures Valid() && View() == B.PauseNackTimeout(old(View()), id, token)
      ensures r == B.AckOutcome(old(View()), id, token)
    {
      hide Backed, BookStep, Follow;
      ghost var a := BrokerRuns.Pause(id, token);
      StepRefines(View(), book, a);
      book := Follow(View(), book, a);
      if id !in unack {
        return B.NotFound;
      }
      if unack[id].token != token {
        return B.TokenMismatch;
      }
      var stopped := unack[id].armed;
      unack := unack[id := unack[id].(armed := false)];
      return if stopped then B.Done else B.TimerExpired;
    }

    method ResumeNackTimeout(id: string, token: string) returns (r: B.Outcome)
      requires Valid()
      modifies this
      ensures Valid() && View() == B.ResumeNackTimeout(old(View()), id, token)
      ensures r == B.Lookup(old(View()), id, token)
    {
      hide Backed, BookStep, Follow;
      ghost var a := BrokerRuns.Resume(id, token);
      StepRefines(View(), book, a);
      book := Follow(View(), book, a);
      if id !in unack {
        return B.NotFound;
      }
      if unack[id].token != token {
        return B.TokenMismatch;
      }
      unack := unack[id := unack[id].(armed := true)];
      return B.Done;
    }

    /** Reset reports an expired timer as an error and arms it all the same. */
    method OutstandingReset(id: string, token: string) returns (r: B.Outcome)
      requires Valid()
      modifies this
      ensures Valid() && View() == B.ResumeNackTimeout(old(View()), id, token)
      ensures r == B.AckOutcome(old(View()), id, token)
    {
      hide Backed, BookStep, Follow;
      ghost var a := BrokerRuns.Resume(id, token);
      StepRefines(View(), book, a);
      book := Follow(View(), book, a);
      if id !in unack {
        return B.NotFound;
      }
      if unack[id].token != token {
        return B.TokenMismatch;
      }
      var active := unack[id].armed;
      unack := unack[id := unack[id].(armed := true)];
      return if active then B.Done else B.TimerExpired;
    }

    // ---- leadership ----------------------------------------------------------------

    method SetEnabled(on: bool)
      requires Valid()
      modifies this
      ensures Valid() && View() == B.SetEnabled(old(View()), on)
      ensures BookStep(deliveryLimit, old(book), BrokerRuns.SetEnabled(on), book)
    {
      hide Backed, BookStep, Follow;
      ghost var a := BrokerRuns.SetEnabled(on);
      StepRefines(View(), book, a);
      book := Follow(View(), book, a);
      enabled := on;
      if !on {
        Flush();
      }
    }

    method Flush()
      modifies this
      ensures View() == B.Flush(old(View())) && book == old(book)
    {
      stats := B.NO_STATS;
      evals, jobEvals, blocked, ready := map[], map[], map[], map[];
      unack, timeWait := map[], map[];
    }
  }

  lemma BackedOldest(b: B.Broker, k: L.Book, q: string)
    requires Backed(b, k) && B.HasWork(b, q)
    ensures q in b.ready && B.NextFor(b, q) in b.ready[q]
    ensures forall e :: e in b.ready[q] ==> B.NextFor(b, q).createIndex <= e.createIndex
  {
    hide Agrees, L.Inv, B.NextFor;
    BrokerOutcomes.NextIsOldest(b, k, q);
  }

  /** Every offer meets the broker's hypotheses. */
  ghost predicate AllAllowed(enabled: bool, offers: seq<(Evaluation, string)>) {
    forall i :: 0 <= i < |offers| ==> L.Enqueueable(offers[i].0) && (offers[i].0.wait > 0 ==> enabled)
  }

  lemma EnqueueEnabled(b: B.Broker, e: Evaluation, token: string)
    ensures B.ProcessEnqueue(b, e, token).enabled == b.enabled
  {
    hide B.EnqueueLocked;
    EnqueueLockedFrame(b, e, e.typ);
    EnqueueLockedFrame(b.(evals := b.evals[e.id := 0]), e, e.typ);
  }
}
