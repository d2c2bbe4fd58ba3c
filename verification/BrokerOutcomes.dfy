/** What each call of the broker does, in terms of the contents of its maps and heaps and of which
    evaluations are ready, blocked, outstanding or waiting. */
module BrokerOutcomes {
  import opened Evaluations
  import opened BrokerRefinement
  import opened BrokerRuns
  import opened BrokerTheorems
  import Heap
  import L = BrokerLedger
  import B = BrokerState

  // ---- accepting -------------------------------------------------------------------

  /** An evaluation of the job is ready or outstanding. */
  ghost predicate JobBusy(b: B.Broker, job: string) {
    exists p :: Pending(b, p) && p.jobId == job
  }

  lemma BusyIff(limit: int, run: seq<Action>, job: string)
    requires limit >= 1 && IsRun(limit, run)
    ensures JobBusy(After(limit, run), job) <==> job in After(limit, run).jobEvals
    ensures job in After(limit, run).jobEvals ==> After(limit, run).jobEvals[job] != ""
  {
    JobSerialisation(limit, run);
    var b, k := After(limit, run), BookAfter(limit, run);
    hide After, IsRun;
    if job in b.jobEvals {
      NamedNonEmpty(b, k, job);
    }
  }

  lemma NamedNonEmpty(b: B.Broker, k: L.Book, job: string)
    requires Backed(b, k) && job in b.jobEvals
    ensures b.jobEvals[job] != ""
  {
    hide Placed, QueuesKnown, CountsMatch, L.Serialised, L.NoStarvation, L.Counted;
    assert b.jobEvals[job] in k.entries;
  }

  /** Ready in its own queue if no evaluation of its job is ready or outstanding, else blocked. */
  ghost predicate Admitted(b: B.Broker, b': B.Broker, e: Evaluation) {
    if JobBusy(b, e.jobId)
    then && multiset(Slice(b'.blocked, e.jobId)) == multiset(Slice(b.blocked, e.jobId)) + multiset{e}
         && b'.ready == b.ready && b'.jobEvals == b.jobEvals
    else && multiset(Slice(b'.ready, e.typ)) == multiset(Slice(b.ready, e.typ)) + multiset{e}
         && b'.blocked == b.blocked && b'.jobEvals == b.jobEvals[e.jobId := e.id]
  }

  lemma ReadyContents(b: B.Broker, e: Evaluation, queue: string)
    ensures var b' := B.PushReady(b, e, queue);
            && multiset(Slice(b'.ready, queue)) == multiset(Slice(b.ready, queue)) + multiset{e}
            && (forall q :: q != queue ==> Slice(b'.ready, q) == Slice(b.ready, q))
            && b'.blocked == b.blocked && b'.jobEvals == b.jobEvals && b'.evals == b.evals && b'.unack == b.unack
            && b'.timeWait == b.timeWait && b'.requeue == b.requeue
  {
    hide Heap.Push;
  }

  lemma BlockedContents(b: B.Broker, e: Evaluation)
    ensures var b' := B.PushBlocked(b, e);
            && multiset(Slice(b'.blocked, e.jobId)) == multiset(Slice(b.blocked, e.jobId)) + multiset{e}
            && (forall j :: j != e.jobId ==> Slice(b'.blocked, j) == Slice(b.blocked, j))
            && b'.ready == b.ready && b'.jobEvals == b.jobEvals && b'.evals == b.evals && b'.unack == b.unack
            && b'.timeWait == b.timeWait && b'.requeue == b.requeue
  {
    hide Heap.Push;
  }

  lemma EnqueueLockedAdmits(b0: B.Broker, b: B.Broker, e: Evaluation)
    requires b.enabled && (JobBusy(b0, e.jobId) <==> e.jobId in b.jobEvals)
    requires e.jobId in b.jobEvals ==> b.jobEvals[e.jobId] != "" && b.jobEvals[e.jobId] != e.id
    requires b0.ready == b.ready && b0.blocked == b.blocked && b0.jobEvals == b.jobEvals
    ensures var b' := B.EnqueueLocked(b, e, e.typ);
            && Admitted(b0, b', e) && b'.evals == b.evals && b'.unack == b.unack && b'.timeWait == b.timeWait
            && b'.requeue == b.requeue
            && (forall q :: q != e.typ ==> Slice(b'.ready, q) == Slice(b.ready, q))
            && (forall j :: j != e.jobId ==> Slice(b'.blocked, j) == Slice(b.blocked, j))
  {
    hide B.PushReady, B.PushBlocked, JobBusy, Slice;
    ReadyContents(b.(jobEvals := b.jobEvals[e.jobId := e.id]), e, e.typ);
    BlockedContents(b, e);
  }

  /** A new evaluation: it waits if it carries a wait, else it is ready or blocked; its counter is
      zero. */
  lemma AcceptOutcome(limit: int, run: seq<Action>, e: Evaluation, token: string)
    requires limit >= 1 && IsRun(limit, run) && After(limit, run).enabled && e.id !in After(limit, run).evals
    ensures var b := After(limit, run);
            var b' := B.ProcessEnqueue(b, e, token);
            && b'.evals == b.evals[e.id := 0] && b'.unack == b.unack && b'.requeue == b.requeue
            && (if e.wait > 0
                then b'.timeWait == b.timeWait[e.id := e] && b'.ready == b.ready && b'.blocked == b.blocked
                     && b'.jobEvals == b.jobEvals
                else b'.timeWait == b.timeWait && Admitted(b, b', e))
  {
    hide After, IsRun, JobBusy, B.EnqueueLocked, Admitted, Backed;
    BusyIff(limit, run, e.jobId);
    var b, k := After(limit, run), BookAfter(limit, run);
    NotNamed(b, k, e);
    if e.wait <= 0 {
      EnqueueLockedAdmits(b, b.(evals := b.evals[e.id := 0]), e);
    }
  }

  lemma NotNamed(b: B.Broker, k: L.Book, e: Evaluation)
    requires Backed(b, k) && e.id !in b.evals
    ensures e.jobId in b.jobEvals ==> b.jobEvals[e.jobId] != e.id
  {
    hide Placed, QueuesKnown, L.Inv;
    if e.jobId in b.jobEvals {
      assert b.jobEvals[e.jobId] in k.entries;
    }
  }

  /** An evaluation that is already tracked changes nothing but the stored copies, and those exactly
      when it comes with the token of its outstanding delivery. */
  lemma DuplicateOutcome(b: B.Broker, e: Evaluation, token: string)
    requires e.id in b.evals
    ensures B.ProcessEnqueue(b, e, token) == b.(requeue :=
              if token != "" && e.id in b.unack && b.unack[e.id].token == token then b.requeue[token := e] else b.requeue)
  {
  }

  /** A disabled broker takes nothing, save a wait. */
  lemma DisabledOutcome(b: B.Broker, e: Evaluation, token: string)
    requires !b.enabled && e.id !in b.evals
    ensures B.ProcessEnqueue(b, e, token) ==
            if e.wait > 0
            then b.(timeWait := b.timeWait[e.id := e], stats := b.stats.(totalWaiting := b.stats.totalWaiting + 1))
            else b
  {
  }

  /** The end of a wait: the evaluation leaves the timers and is ready or blocked. */
  lemma WaitOutcome(limit: int, run: seq<Action>, id: string)
    requires limit >= 1 && IsRun(limit, run) && id in After(limit, run).timeWait
    ensures var b := After(limit, run);
            var e := b.timeWait[id];
            var b' := Apply(b, WaitElapsed(id));
            && b'.timeWait == b.timeWait - {id} && b'.evals == b.evals && b'.unack == b.unack && b'.requeue == b.requeue
            && Admitted(b, b', e)
  {
    hide After, IsRun, JobBusy, B.EnqueueLocked, Admitted, Backed;
    var b, k := After(limit, run), BookAfter(limit, run);
    var e := b.timeWait[id];
    BusyIff(limit, run, e.jobId);
    WaitingNotNamed(b, k, id);
    var b1 := b.(timeWait := b.timeWait - {e.id}, stats := b.stats.(totalWaiting := b.stats.totalWaiting - 1));
    EnqueueLockedAdmits(b, b1, e);
  }

  lemma WaitingNotNamed(b: B.Broker, k: L.Book, id: string)
    requires Backed(b, k) && id in b.timeWait
    ensures b.enabled && b.timeWait[id].id == id
    ensures b.timeWait[id].jobId in b.jobEvals ==> b.jobEvals[b.timeWait[id].jobId] != id
  {
    hide Matches, UnackMatches, StatsExact, QueuesKnown, CountsMatch, L.Serialised, L.NoStarvation, L.Counted, NoEmptySlice;
    assert id in k.entries && k.entries[id].place.Waiting? && k.entries[id].eval == b.timeWait[id];
    var j := b.timeWait[id].jobId;
    if j in b.jobEvals {
      assert k.entries[b.jobEvals[j]].Active();
    }
  }

  // ---- delivering ------------------------------------------------------------------

  /** A queue has work exactly when its heap is there and is not empty. */
  lemma HasWorkIff(b: B.Broker, q: string)
    ensures B.HasWork(b, q) <==> q in b.ready && b.ready[q] != []
  {
  }

  /** In every reachable state whatever is ready can be dequeued from its queue, and the dequeue takes
      an oldest evaluation of the queue. */
  lemma ReadyIsDelivered(limit: int, run: seq<Action>, id: string, q: string, i: nat, token: string)
    requires limit >= 1 && IsRun(limit, run) && Occurs(After(limit, run), id, InReady(q, i))
    ensures Allowed(After(limit, run), Dequeue(q, token))
    ensures var b := After(limit, run);
            && B.NextFor(b, q) in b.ready[q]
            && forall e :: e in b.ready[q] ==> B.NextFor(b, q).createIndex <= e.createIndex
  {
    hide After, IsRun, B.HasWork, B.NextFor, Agrees, L.Inv;
    var b, k := After(limit, run), BookAfter(limit, run);
    Conservation(limit, run, id);
    TrackedEnabled(b, k, id);
    HasWorkIff(b, q);
    NextIsOldest(b, k, q);
  }

  lemma TrackedEnabled(b: B.Broker, k: L.Book, id: string)
    requires Backed(b, k) && id in b.evals
    ensures b.enabled
  {
    hide Queued, L.WellFormed, L.Serialised, L.NoStarvation;
  }

  lemma NextIsOldest(b: B.Broker, k: L.Book, q: string)
    requires Agrees(b, k) && q in b.ready && b.ready[q] != []
    ensures B.NextFor(b, q) in b.ready[q] && forall e :: e in b.ready[q] ==> B.NextFor(b, q).createIndex <= e.createIndex
  {
    hide Lists, JobsMatch, UnackMatches, WaitMatches, StatsExact, QueuesKnown, CountsMatch, Heap.IsHeap, Heap.Pop;
    Heap.PopTakesMin(ByCreateIndex, b.ready[q]);
    assert B.NextFor(b, q) in multiset(b.ready[q]);
    forall e | e in b.ready[q]
      ensures B.NextFor(b, q).createIndex <= e.createIndex
    {
      assert ByCreateIndex(B.NextFor(b, q)) <= ByCreateIndex(e);
    }
  }

  /** A delivery takes the evaluation from its queue, makes it outstanding under the token with its timer
      armed, and counts it. */
  lemma DequeueOutcome(limit: int, run: seq<Action>, q: string, token: string)
    requires limit >= 1 && IsRun(limit, run) && Allowed(After(limit, run), Dequeue(q, token))
    ensures var b := After(limit, run);
            var e := B.NextFor(b, q);
            var b' := Apply(b, Dequeue(q, token));
            && e.id in b.evals && e.id !in b.unack && q in b.ready
            && b'.unack == b.unack[e.id := B.Unack(e, token, true)] && b'.evals == b.evals[e.id := b.evals[e.id] + 1]
            && q in b'.ready && multiset(b'.ready[q]) == multiset(b.ready[q]) - multiset{e} && b'.ready == b.ready[q := b'.ready[q]]
            && b'.blocked == b.blocked && b'.jobEvals == b.jobEvals && b'.timeWait == b.timeWait && b'.requeue == b.requeue
  {
    hide After, IsRun, B.DequeueFor, B.NextFor, B.HasWork, Backed;
    var b, k := After(limit, run), BookAfter(limit, run);
    NextTracked(b, k, q);
    HasWorkIff(b, q);
    DeliveryContents(b, q, token);
  }

  lemma DeliveryContents(b: B.Broker, q: string, token: string)
    requires B.HasWork(b, q) && B.NextFor(b, q).id in b.evals
    ensures var e := B.NextFor(b, q);
            var b' := B.DequeueFor(b, q, token);
            && b'.unack == b.unack[e.id := B.Unack(e, token, true)] && b'.evals == b.evals[e.id := b.evals[e.id] + 1]
            && q in b.ready && q in b'.ready && multiset(b'.ready[q]) == multiset(b.ready[q]) - multiset{e}
            && b'.ready == b.ready[q := b'.ready[q]]
            && b'.blocked == b.blocked && b'.jobEvals == b.jobEvals && b'.timeWait == b.timeWait && b'.requeue == b.requeue
  {
    hide Heap.Pop;
  }

  lemma NextTracked(b: B.Broker, k: L.Book, q: string)
    requires Backed(b, k) && B.HasWork(b, q)
    ensures B.NextFor(b, q).id in b.evals && B.NextFor(b, q).id !in b.unack
  {
    hide B.NextFor, Queued, L.Serialised, L.NoStarvation, L.Counted, L.Oldest;
    NextHolds(b, k.entries, q);
  }

  // ---- answering -------------------------------------------------------------------

  /** The three refusals of Ack, of which Nack knows the first two. */
  lemma OutcomeIff(b: B.Broker, id: string, token: string)
    ensures B.Lookup(b, id, token) == B.NotFound <==> id !in b.unack
    ensures B.Lookup(b, id, token) == B.TokenMismatch <==> id in b.unack && b.unack[id].token != token
    ensures B.Lookup(b, id, token) == B.Done <==> id in b.unack && b.unack[id].token == token
    ensures B.AckOutcome(b, id, token) == B.NotFound <==> id !in b.unack
    ensures B.AckOutcome(b, id, token) == B.TokenMismatch <==> id in b.unack && b.unack[id].token != token
    ensures B.AckOutcome(b, id, token) == B.TimerExpired <==> id in b.unack && b.unack[id].token == token && !b.unack[id].armed
  {
  }

  /** A refused call changes nothing but the copy under its token, which it drops. */
  lemma RefusalOutcome(b: B.Broker, id: string, token: string)
    ensures B.AckOutcome(b, id, token) != B.Done ==> B.Ack(b, id, token) == b.(requeue := b.requeue - {token})
    ensures B.Lookup(b, id, token) != B.Done ==> B.Nack(b, id, token) == b.(requeue := b.requeue - {token})
  {
  }

  /** A Nack makes the delivery ready again, in the failed queue exactly when it was delivered as often as
      the limit allows, with its counter as it was. */
  lemma NackOutcome(limit: int, run: seq<Action>, id: string, token: string)
    requires limit >= 1 && IsRun(limit, run) && B.Lookup(After(limit, run), id, token) == B.Done
    ensures var b := After(limit, run);
            var b' := B.Nack(b, id, token);
            && id in b.evals && b'.evals == b.evals && b'.unack == b.unack - {id} && b'.requeue == b.requeue - {token}
            && b'.jobEvals == b.jobEvals && b'.blocked == b.blocked && b'.timeWait == b.timeWait
            && (var e := b.unack[id].eval;
                var q := if b.evals[id] >= limit then "_failed" else e.typ;
                && multiset(Slice(b'.ready, q)) == multiset(Slice(b.ready, q)) + multiset{e}
                && forall x :: x != q ==> Slice(b'.ready, x) == Slice(b.ready, x))
  {
    hide After, IsRun, B.Nack, Slice, Backed, B.Lookup;
    var b, k := After(limit, run), BookAfter(limit, run);
    AfterLimit(limit, run);
    OutcomeIff(b, id, token);
    OutstandingNamed(b, k, id);
    NackContents(b, id, token);
  }

  lemma NackContents(b: B.Broker, id: string, token: string)
    requires B.Lookup(b, id, token) == B.Done && b.enabled && id in b.evals && id != "" && b.unack[id].eval.id == id
    requires b.unack[id].eval.jobId in b.jobEvals && b.jobEvals[b.unack[id].eval.jobId] == id
    ensures var b' := B.Nack(b, id, token);
            && b'.evals == b.evals && b'.unack == b.unack - {id} && b'.requeue == b.requeue - {token}
            && b'.jobEvals == b.jobEvals && b'.blocked == b.blocked && b'.timeWait == b.timeWait
            && (var e := b.unack[id].eval;
                var q := if b.evals[id] >= b.limit then "_failed" else e.typ;
                && multiset(Slice(b'.ready, q)) == multiset(Slice(b.ready, q)) + multiset{e}
                && forall x :: x != q ==> Slice(b'.ready, x) == Slice(b.ready, x))
  {
    hide B.PushReady, B.PushBlocked, Slice;
    var e := b.unack[id].eval;
    ReadyContents(b.(requeue := b.requeue - {token}, unack := b.unack - {id}, stats := B.DebitUnacked(b.stats, e.typ)),
                  e, B.NackQueue(b, id));
  }

  lemma OutstandingNamed(b: B.Broker, k: L.Book, id: string)
    requires Backed(b, k) && id in b.unack
    ensures b.enabled && id in b.evals && b.unack[id].eval.id == id && id != ""
    ensures b.unack[id].eval.jobId in b.jobEvals && b.jobEvals[b.unack[id].eval.jobId] == id
  {
    hide Matches, WaitMatches, StatsExact, QueuesKnown, NoEmptySlice, L.Serialised, L.NoStarvation, L.Counted;
    assert k.entries[id].Active();
  }

  /** An Ack without a stored copy takes its evaluation out. The job is then free, or named after the
      blocked evaluation that moves from its heap to its type's queue. */
  lemma AckContents(b: B.Broker, id: string, token: string)
    requires B.AckOutcome(b, id, token) == B.Done && token !in b.requeue && b.enabled
    requires forall e :: e in Slice(b.blocked, b.unack[id].eval.jobId) ==> e.jobId == b.unack[id].eval.jobId
    ensures var b', job := B.Ack(b, id, token), b.unack[id].eval.jobId;
            && b'.unack == b.unack - {id} && b'.evals == b.evals - {id} && b'.timeWait == b.timeWait
            && b'.requeue == b.requeue
            && (if Slice(b.blocked, job) == []
                then b'.ready == b.ready && b'.blocked == b.blocked && b'.jobEvals == b.jobEvals - {job}
                else exists e :: Moved(b, b', job, e))
  {
    hide B.Settle, B.Promote, Slice, Heap.Pop, B.AckOutcome, B.Ack;
    AckIsSettle(b, id, token);
    var job := b.unack[id].eval.jobId;
    var b1 := B.Settle(b, id);
    SettleContents(b, id);
    assert b.requeue - {token} == b.requeue;
    if Slice(b.blocked, job) == [] {
      NothingPromoted(b1, job);
    } else {
      BlockedAt(b.blocked, job);
      var (e, rest) := Heap.Pop(ByCreateIndex, b.blocked[job]);
      assert e in multiset(b.blocked[job]);
      PromoteContents(b1, job, e, rest);
      assert b1.jobEvals[job := e.id] == b.jobEvals[job := e.id];
      assert Moved(b, B.Ack(b, id, token), job, e);
    }
  }

  /** An Ack with a stored copy is the Ack without it, followed by the enqueue of the copy. */
  lemma AckThenEnqueue(b: B.Broker, id: string, token: string)
    requires B.AckOutcome(b, id, token) == B.Done && token in b.requeue
    ensures var b1 := B.Ack(b.(requeue := b.requeue - {token}), id, token);
            B.Ack(b, id, token) == B.ProcessEnqueue(b1, b.requeue[token], "")
  {
    hide B.EnqueueLocked, B.Settle, B.Promote, B.ProcessEnqueue;
    var r := b.requeue - {token};
    var job := b.unack[id].eval.jobId;
    SettleCopies(b, id, r);
    PromoteCopies(B.Settle(b, id), job, r);
    var b1 := B.Promote(B.Settle(b, id), job);
    PromoteKeepsCopies(B.Settle(b, id), job);
    EnqueueCopies(b1, b.requeue[token], b1.requeue);
    EnqueueCopies(b1, b.requeue[token], r);
    assert r - {token} == r;
    assert b.(requeue := r).unack[id] == b.unack[id];
    assert B.Ack(b.(requeue := r), id, token) == b1.(requeue := r);
  }

  lemma SettleCopies(b: B.Broker, id: string, r: map<string, Evaluation>)
    requires id in b.unack
    ensures B.Settle(b.(requeue := r), id) == B.Settle(b, id).(requeue := r) && B.Settle(b, id).requeue == b.requeue
  {
    hide B.DebitUnacked;
  }

  lemma LockedCopies(b: B.Broker, e: Evaluation, r: map<string, Evaluation>)
    ensures B.EnqueueLocked(b.(requeue := r), e, e.typ) == B.EnqueueLocked(b, e, e.typ).(requeue := r)
  {
    hide B.PushReady, B.PushBlocked;
    PushCopies(b.(jobEvals := b.jobEvals[e.jobId := e.id]), e, r);
    PushCopies(b, e, r);
  }

  lemma PushCopies(b: B.Broker, e: Evaluation, r: map<string, Evaluation>)
    ensures B.PushReady(b.(requeue := r), e, e.typ) == B.PushReady(b, e, e.typ).(requeue := r)
    ensures B.PushBlocked(b.(requeue := r), e) == B.PushBlocked(b, e).(requeue := r)
  {
    hide Heap.Push, Slice, B.SchedStats;
  }

  lemma WaitingCopies(b: B.Broker, e: Evaluation, r: map<string, Evaluation>)
    ensures B.AddWaiting(b.(requeue := r), e) == B.AddWaiting(b, e).(requeue := r)
  {
  }

  lemma PromoteCopies(b: B.Broker, job: string, r: map<string, Evaluation>)
    ensures B.Promote(b.(requeue := r), job) == B.Promote(b, job).(requeue := r)
  {
    hide B.EnqueueLocked, Heap.Pop;
    if |Slice(b.blocked, job)| > 0 {
      var (e, rest) := Heap.Pop(ByCreateIndex, b.blocked[job]);
      LockedCopies(b.(blocked := if |rest| > 0 then b.blocked[job := rest] else b.blocked - {job},
                      stats := b.stats.(totalBlocked := b.stats.totalBlocked - 1)), e, r);
    }
  }

  lemma PromoteKeepsCopies(b: B.Broker, job: string)
    ensures B.Promote(b, job).requeue == b.requeue
  {
    hide B.Promote;
    PromoteCopies(b, job, b.requeue);
  }

  lemma EnqueueCopies(b: B.Broker, e: Evaluation, r: map<string, Evaluation>)
    ensures B.ProcessEnqueue(b.(requeue := r), e, "") == B.ProcessEnqueue(b, e, "").(requeue := r)
  {
    hide B.EnqueueLocked, B.AddWaiting;
    var b1 := if b.enabled then b.(evals := b.evals[e.id := 0]) else b;
    LockedCopies(b1, e, r);
    assert B.AddWaiting(b1.(requeue := r), e) == B.AddWaiting(b1, e).(requeue := r) by {
      WaitingCopies(b1, e, r);
    }
  }

  lemma AckIsSettle(b: B.Broker, id: string, token: string)
    requires B.AckOutcome(b, id, token) == B.Done
    ensures id in b.unack
    ensures var b1 := B.Promote(B.Settle(b, id), b.unack[id].eval.jobId);
            token !in b1.requeue ==> B.Ack(b, id, token) == b1.(requeue := b1.requeue - {token})
  {
    hide B.Settle, B.Promote, B.ProcessEnqueue;
  }

  lemma SettleContents(b: B.Broker, id: string)
    requires id in b.unack
    ensures var b' := B.Settle(b, id);
            && b'.enabled == b.enabled && b'.unack == b.unack - {id} && b'.evals == b.evals - {id}
            && b'.jobEvals == b.jobEvals - {b.unack[id].eval.jobId} && b'.ready == b.ready && b'.blocked == b.blocked
            && b'.timeWait == b.timeWait && b'.requeue == b.requeue
  {
    hide B.DebitUnacked, B.AckQueue;
  }

  lemma NothingPromoted(b: B.Broker, job: string)
    requires Slice(b.blocked, job) == []
    ensures B.Promote(b, job) == b
  {
    hide B.EnqueueLocked;
  }

  lemma BlockedAt(m: map<string, seq<Evaluation>>, job: string)
    requires Slice(m, job) != []
    ensures job in m && m[job] == Slice(m, job)
  {
  }

  ghost predicate Moved(b: B.Broker, b': B.Broker, job: string, e: Evaluation) {
    && multiset(Slice(b.blocked, job)) == multiset(Slice(b'.blocked, job)) + multiset{e}
    && multiset(Slice(b'.ready, e.typ)) == multiset(Slice(b.ready, e.typ)) + multiset{e}
    && b'.jobEvals == b.jobEvals[job := e.id] && e.jobId == job
  }

  lemma PromoteContents(b: B.Broker, job: string, e: Evaluation, rest: seq<Evaluation>)
    requires b.enabled && job !in b.jobEvals && Slice(b.blocked, job) != []
    requires (e, rest) == Heap.Pop(ByCreateIndex, b.blocked[job])
    ensures var b' := B.Promote(b, job);
            && b'.unack == b.unack && b'.evals == b.evals && b'.timeWait == b.timeWait && b'.requeue == b.requeue
            && multiset(Slice(b.blocked, job)) == multiset(rest) + multiset{e}
            && (e.jobId == job ==>
                  && multiset(Slice(b'.blocked, job)) == multiset(rest)
                  && multiset(Slice(b'.ready, e.typ)) == multiset(Slice(b.ready, e.typ)) + multiset{e}
                  && b'.jobEvals == b.jobEvals[job := e.id])
  {
    hide B.EnqueueLocked, Heap.Pop, B.PushReady, B.PushBlocked;
    var b1 := b.(blocked := if |rest| > 0 then b.blocked[job := rest] else b.blocked - {job},
                 stats := b.stats.(totalBlocked := b.stats.totalBlocked - 1));
    assert B.Promote(b, job) == B.EnqueueLocked(b1, e, e.typ);
    if e.jobId == job {
      FreeJobReady(b1, e);
    } else {
      LockedFrame(b1, e);
    }
  }

  lemma FreeJobReady(b: B.Broker, e: Evaluation)
    requires b.enabled && e.jobId !in b.jobEvals
    ensures var b' := B.EnqueueLocked(b, e, e.typ);
            && multiset(Slice(b'.ready, e.typ)) == multiset(Slice(b.ready, e.typ)) + multiset{e}
            && b'.jobEvals == b.jobEvals[e.jobId := e.id] && b'.blocked == b.blocked
            && b'.unack == b.unack && b'.evals == b.evals && b'.timeWait == b.timeWait && b'.requeue == b.requeue
  {
    hide B.PushReady, B.PushBlocked, Slice;
    ReadyContents(b.(jobEvals := b.jobEvals[e.jobId := e.id]), e, e.typ);
  }

  lemma LockedFrame(b: B.Broker, e: Evaluation)
    ensures var b' := B.EnqueueLocked(b, e, e.typ);
            b'.unack == b.unack && b'.evals == b.evals && b'.timeWait == b.timeWait && b'.requeue == b.requeue
  {
    hide B.PushReady, B.PushBlocked, Slice;
    ReadyContents(b.(jobEvals := b.jobEvals[e.jobId := e.id]), e, e.typ);
    ReadyContents(b, e, e.typ);
    BlockedContents(b, e);
  }

  // ---- timers and the switch -------------------------------------------------------

  /** Pausing stops and resuming arms the timer of the delivery named, and touches nothing else; a timer
      that runs out is stopped. */
  lemma TimerOutcome(b: B.Broker, id: string, token: string)
    ensures B.PauseNackTimeout(b, id, token) ==
            if id in b.unack && b.unack[id].token == token
            then b.(unack := b.unack[id := b.unack[id].(armed := false)]) else b
    ensures B.ResumeNackTimeout(b, id, token) ==
            if id in b.unack && b.unack[id].token == token
            then b.(unack := b.unack[id := b.unack[id].(armed := true)]) else b
    ensures B.TimerFires(b, id) == if id in b.unack then b.(unack := b.unack[id := b.unack[id].(armed := false)]) else b
  {
  }

  /** Disabling leaves the stored copies and nothing else. */
  lemma SwitchOutcome(b: B.Broker)
    ensures B.SetEnabled(b, false) == B.New(b.limit).(requeue := b.requeue)
    ensures B.SetEnabled(b, true) == b.(enabled := true)
  {
  }
}
