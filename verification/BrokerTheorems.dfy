/** What the broker promises, for every run and in terms of its own maps and heaps. */
module BrokerTheorems {
  import opened Evaluations
  import opened BrokerRefinement
  import opened BrokerRuns
  import opened Sums
  import Heap
  import L = BrokerLedger
  import B = BrokerState

  /** A position in the broker's structures. */
  datatype Spot = InReady(queue: string, i: nat) | InBlocked(job: string, i: nat) | InUnack | InWait

  ghost predicate Occurs(b: B.Broker, id: string, s: Spot) {
    match s
    case InReady(q, i) => q in b.ready && i < |b.ready[q]| && b.ready[q][i].id == id
    case InBlocked(j, i) => j in b.blocked && i < |b.blocked[j]| && b.blocked[j][i].id == id
    case InUnack => id in b.unack
    case InWait => id in b.timeWait
  }

  // ---- conservation ----------------------------------------------------------------

  /** An element at two indexes has multiplicity two. */
  lemma TwoIndexes<T>(s: seq<T>, i: nat, j: nat)
    requires i < j < |s| && s[i] == s[j]
    ensures multiset(s)[s[i]] >= 2
  {
    assert s == s[..j] + s[j..];
    assert s[i] in s[..j] && s[j] in s[j..];
  }

  lemma OneIndex<T>(s: seq<T>, i: nat, j: nat)
    requires i < |s| && j < |s| && s[i] == s[j]
    ensures i != j ==> multiset(s)[s[i]] >= 2
  {
    if i < j {
      TwoIndexes(s, i, j);
    } else if j < i {
      TwoIndexes(s, j, i);
    }
  }

  lemma HeapSpot(kind: Kind, m: map<string, seq<Evaluation>>, es: L.Entries, n: string, i: nat)
    requires Matches(kind, m, es) && n in m && i < |m[n]|
    ensures Holds(es, m[n][i], At(kind, n))
  {
    assert m[n][i] in multiset(m[n]);
    assert multiset(m[n])[m[n][i]] > 0;
  }

  lemma SameSlot(kind: Kind, m: map<string, seq<Evaluation>>, es: L.Entries, n: string, i: nat, j: nat)
    requires Matches(kind, m, es) && n in m && i < |m[n]| && j < |m[n]| && m[n][i].id == m[n][j].id
    ensures i == j
  {
    HeapSpot(kind, m, es, n, i);
    HeapSpot(kind, m, es, n, j);
    assert multiset(m[n])[m[n][i]] == 1;
    OneIndex(m[n], i, j);
  }

  lemma HeapHas(kind: Kind, m: map<string, seq<Evaluation>>, es: L.Entries, id: string) returns (i: nat)
    requires Matches(kind, m, es) && id in es && OfKind(kind, es[id].place) && es[id].eval.id == id
    ensures var n := NameOf(es[id].place);
            n in m && i < |m[n]| && m[n][i] == es[id].eval
  {
    var n := NameOf(es[id].place);
    var e := es[id].eval;
    assert Holds(es, e, At(kind, n));
    assert multiset(m[n])[e] == 1;
    assert e in m[n];
    i :| 0 <= i < |m[n]| && m[n][i] == e;
  }

  /** Where the ledger puts the evaluation that a spot holds. */
  lemma SpotPlace(b: B.Broker, es: L.Entries, id: string, s: Spot)
    requires Placed(b, es) && Occurs(b, id, s)
    ensures id in es
    ensures match s
            case InReady(q, _) => es[id].place == L.Ready(q)
            case InBlocked(j, _) => es[id].place == L.Blocked(j)
            case InUnack => es[id].place.Outstanding?
            case InWait => es[id].place.Waiting?
  {
    match s
    case InReady(q, i) => HeapSpot(ReadyHeaps, b.ready, es, q, i);
    case InBlocked(j, i) => HeapSpot(BlockedHeaps, b.blocked, es, j, i);
    case InUnack =>
    case InWait =>
  }

  lemma SpotUnique(b: B.Broker, es: L.Entries, id: string, s1: Spot, s2: Spot)
    requires Placed(b, es) && Occurs(b, id, s1) && Occurs(b, id, s2)
    ensures s1 == s2
  {
    SpotPlace(b, es, id, s1);
    SpotPlace(b, es, id, s2);
    if s1.InReady? {
      SameSlot(ReadyHeaps, b.ready, es, s1.queue, s1.i, s2.i);
    } else if s1.InBlocked? {
      SameSlot(BlockedHeaps, b.blocked, es, s1.job, s1.i, s2.i);
    }
  }

  lemma SpotExists(b: B.Broker, es: L.Entries, id: string) returns (s: Spot)
    requires Placed(b, es) && id in es && es[id].eval.id == id
    ensures Occurs(b, id, s)
  {
    match es[id].place
    case Waiting => s := InWait;
    case Outstanding(_, _, _) => s := InUnack;
    case Ready(q) =>
      var i := HeapHas(ReadyHeaps, b.ready, es, id);
      s := InReady(q, i);
    case Blocked(j) =>
      var i := HeapHas(BlockedHeaps, b.blocked, es, id);
      s := InBlocked(j, i);
  }

  /** In every reachable state each tracked evaluation is at exactly one position, and
      nothing untracked is at any position. */
  lemma Conservation(limit: int, run: seq<Action>, id: string)
    requires limit >= 1 && IsRun(limit, run)
    ensures var b := After(limit, run);
            && (id in b.evals <==> exists s: Spot :: Occurs(b, id, s))
            && (forall s1: Spot, s2: Spot :: Occurs(b, id, s1) && Occurs(b, id, s2) ==> s1 == s2)
  {
    var b := After(limit, run);
    var es := BookAfter(limit, run).entries;
    assert Placed(b, es) && CountsMatch(b.evals, es) && (id in es ==> es[id].eval.id == id);
    hide Placed, Occurs;
    if id in es {
      var s := SpotExists(b, es, id);
    }
    forall s: Spot | Occurs(b, id, s)
      ensures id in es
    {
      SpotPlace(b, es, id, s);
    }
    forall s1: Spot, s2: Spot | Occurs(b, id, s1) && Occurs(b, id, s2)
      ensures s1 == s2
    {
      SpotUnique(b, es, id, s1, s2);
    }
  }

  /** Nothing but a successful Ack of the evaluation itself and a flush takes it out. */
  lemma BookLeaves(limit: int, k: L.Book, a: Action, k': L.Book, id: string)
    requires BookStep(limit, k, a, k') && id in k.entries && id !in k'.entries
    ensures a == SetEnabled(false) || (a.Ack? && a.id == id && L.CanAck(k, id, a.token))
  {
    if a.Ack? && L.CanAck(k, a.id, a.token) {
      var es2: L.Entries :| L.Promoted(k.entries - {a.id}, k.entries[a.id].eval.jobId, es2)
                            && k' == L.TakeRequeued(k.(entries := es2), a.token);
      assert es2.Keys == k.entries.Keys - {a.id};
    }
  }

  /** An accepted evaluation leaves the broker only by a successful Ack of its own
      delivery, or when the broker is disabled. */
  lemma LeavesByAckOrFlush(limit: int, run: seq<Action>, i: nat, id: string)
    requires limit >= 1 && IsRun(limit, run) && i < |run|
    requires id in After(limit, run[..i]).evals && id !in After(limit, run[..i + 1]).evals
    ensures run[i] == SetEnabled(false)
            || (run[i].Ack? && run[i].id == id
                && B.AckOutcome(After(limit, run[..i]), id, run[i].token) == B.Done)
  {
    RunRefines(limit, run, i);
    var k := BookAfter(limit, run[..i]);
    var k' := BookAfter(limit, run[..i + 1]);
    hide BookStep, Queued, L.Inv, After, B.AckOutcome;
    BookLeaves(limit, k, run[i], k', id);
    if run[i].Ack? {
      AckOutcomeIff(After(limit, run[..i]), k, id, run[i].token);
    }
  }

  // ---- one evaluation per job ------------------------------------------------------

  /** The evaluation is ready or outstanding. */
  ghost predicate Pending(b: B.Broker, e: Evaluation) {
    || (e.id in b.unack && b.unack[e.id].eval == e)
    || (exists q :: q in b.ready && e in b.ready[q])
  }

  lemma PendingActive(b: B.Broker, es: L.Entries, e: Evaluation)
    requires Placed(b, es) && (forall id :: id in es ==> es[id].eval.id == id)
    ensures Pending(b, e) <==> e.id in es && es[e.id].eval == e && es[e.id].Active()
  {
    hide Matches, WaitMatches;
    if q :| q in b.ready && e in b.ready[q] {
      var i :| 0 <= i < |b.ready[q]| && b.ready[q][i] == e;
      HeapSpot(ReadyHeaps, b.ready, es, q, i);
    }
    if e.id in es && es[e.id].eval == e && es[e.id].place.Ready? {
      var i := HeapHas(ReadyHeaps, b.ready, es, e.id);
      assert e in b.ready[es[e.id].place.queue];
    }
  }

  ghost predicate Keyed(es: L.Entries) {
    forall id :: id in es ==> es[id].eval.id == id
  }

  lemma PendingNamed(b: B.Broker, es: L.Entries, e: Evaluation)
    requires Queued(b, es) && Keyed(es) && Pending(b, e)
    ensures e.jobId in b.jobEvals && b.jobEvals[e.jobId] == e.id
  {
    hide Placed, Pending, QueuesKnown;
    PendingActive(b, es, e);
  }

  lemma NamedPending(b: B.Broker, es: L.Entries, j: string)
    requires Queued(b, es) && Keyed(es) && j in b.jobEvals
    ensures exists e :: Pending(b, e) && e.jobId == j && e.id == b.jobEvals[j]
  {
    hide Placed, Pending, QueuesKnown;
    var e := es[b.jobEvals[j]].eval;
    PendingActive(b, es, e);
  }

  lemma BlockedNamed(b: B.Broker, es: L.Entries, j: string)
    requires Queued(b, es) && j in b.blocked && L.NoStarvation(es)
    requires forall id :: id in es && es[id].place.Blocked? ==> es[id].place.job == es[id].eval.jobId
    ensures |b.blocked[j]| > 0 && j in b.jobEvals
  {
    hide JobsMatch, QueuesKnown, UnackMatches, WaitMatches, StatsExact;
    HeapSpot(BlockedHeaps, b.blocked, es, j, 0);
    JobActiveIff(b.jobEvals, es, j);
  }

  /** jobEvals names exactly the ready or outstanding evaluations, so a job has at most
      one of them, and a job with blocked evaluations has one. */
  lemma JobSerialisation(limit: int, run: seq<Action>)
    requires limit >= 1 && IsRun(limit, run)
    ensures var b := After(limit, run);
            && (forall e :: Pending(b, e) ==> e.jobId in b.jobEvals && b.jobEvals[e.jobId] == e.id)
            && (forall j :: j in b.jobEvals ==>
                  exists e :: Pending(b, e) && e.jobId == j && e.id == b.jobEvals[j])
            && (forall j :: j in b.blocked ==> |b.blocked[j]| > 0 && j in b.jobEvals)
  {
    hide Queued, Pending, After, IsRun, L.Counted, L.Serialised;
    var b := After(limit, run);
    var es := BookAfter(limit, run).entries;
    assert Queued(b, es) && Keyed(es) && L.NoStarvation(es);
    assert forall id :: id in es && es[id].place.Blocked? ==> es[id].place.job == es[id].eval.jobId;
    hide L.NoStarvation, Keyed;
    forall e | Pending(b, e)
      ensures e.jobId in b.jobEvals && b.jobEvals[e.jobId] == e.id
    {
      PendingNamed(b, es, e);
    }
    forall j | j in b.jobEvals
      ensures exists e :: Pending(b, e) && e.jobId == j && e.id == b.jobEvals[j]
    {
      NamedPending(b, es, j);
    }
    forall j | j in b.blocked
      ensures |b.blocked[j]| > 0 && j in b.jobEvals
    {
      BlockedNamed(b, es, j);
    }
  }

  /** An Ack that finds blocked evaluations of the job makes the oldest of them ready. */
  lemma BookAckPromotes(k: L.Book, id: string, token: string, k': L.Book) returns (p: string)
    requires L.AckStep(k, id, token, k') && L.CanAck(k, id, token)
    requires L.HasBlocked(k.entries, k.entries[id].eval.jobId)
    ensures L.Oldest(k.entries, p, L.Blocked(k.entries[id].eval.jobId))
    ensures p in k'.entries && k'.entries[p] == k.entries[p].(place := L.Ready(k.entries[p].eval.typ))
  {
    var job := k.entries[id].eval.jobId;
    var es1 := k.entries - {id};
    var es2: L.Entries :| L.Promoted(es1, job, es2) && k' == L.TakeRequeued(k.(entries := es2), token);
    var x :| x in k.entries && k.entries[x].place == L.Blocked(job);
    assert x in es1;
    assert L.HasBlocked(es1, job);
    p :| L.Oldest(es1, p, L.Blocked(job)) && es2 == es1[p := es1[p].(place := L.Ready(es1[p].eval.typ))];
    forall y | y in k.entries && k.entries[y].place == L.Blocked(job)
      ensures k.entries[p].eval.createIndex <= k.entries[y].eval.createIndex
    {
      assert y in es1 && es1[y].place == L.Blocked(job);
    }
  }

  /** The oldest entry of a place is the smallest element of its heap. */
  lemma OldestInHeap(kind: Kind, m: map<string, seq<Evaluation>>, es: L.Entries, n: string, x: string)
    requires Matches(kind, m, es) && Keyed(es) && L.Oldest(es, x, At(kind, n))
    ensures n in m && es[x].eval in m[n]
    ensures forall e :: e in m[n] ==> es[x].eval.createIndex <= e.createIndex
  {
    var i := HeapHas(kind, m, es, x);
    forall e | e in m[n]
      ensures es[x].eval.createIndex <= e.createIndex
    {
      var j :| 0 <= j < |m[n]| && m[n][j] == e;
      HeapSpot(kind, m, es, n, j);
    }
  }

  lemma AckPromotesOldest(limit: int, run: seq<Action>, id: string, token: string) returns (p: Evaluation)
    requires limit >= 1 && IsRun(limit, run)
    requires B.AckOutcome(After(limit, run), id, token) == B.Done
    requires After(limit, run).unack[id].eval.jobId in After(limit, run).blocked
    ensures var b := After(limit, run);
            var b' := B.Ack(b, id, token);
            var job := b.unack[id].eval.jobId;
            && p in b.blocked[job] && (forall e :: e in b.blocked[job] ==> p.createIndex <= e.createIndex)
            && p.typ in b'.ready && p in b'.ready[p.typ]
            && job in b'.jobEvals && b'.jobEvals[job] == p.id
  {
    var b, k := After(limit, run), BookAfter(limit, run);
    AfterLimit(limit, run);
    AckOutcomeIff(b, k, id, token);
    AckAgrees(b, k, id, token);
    assert Keyed(k.entries);
    assert forall x :: x in k.entries && k.entries[x].place.Blocked? ==> k.entries[x].place.job == k.entries[x].eval.jobId;
    p := PromotedFrom(b, k, B.Ack(b, id, token), AckBook(b, k, id, token), id, token);
  }

  lemma PromotedFrom(b: B.Broker, k: L.Book, b': B.Broker, k': L.Book, id: string, token: string)
    returns (p: Evaluation)
    requires Agrees(b, k) && Agrees(b', k') && Keyed(k.entries)
    requires forall x :: x in k.entries && k.entries[x].place.Blocked? ==> k.entries[x].place.job == k.entries[x].eval.jobId
    requires L.CanAck(k, id, token) && L.AckStep(k, id, token, k')
    requires k.entries[id].eval.jobId in b.blocked
    ensures var job := k.entries[id].eval.jobId;
            && p in b.blocked[job] && (forall e :: e in b.blocked[job] ==> p.createIndex <= e.createIndex)
            && p.typ in b'.ready && p in b'.ready[p.typ]
            && job in b'.jobEvals && b'.jobEvals[job] == p.id
  {
    hide Matches, UnackMatches, WaitMatches, StatsExact, QueuesKnown, L.AckStep, L.HasBlocked;
    var job := k.entries[id].eval.jobId;
    HasBlockedIff(b, k.entries, job);
    var x := BookAckPromotes(k, id, token, k');
    p := k.entries[x].eval;
    OldestInHeap(BlockedHeaps, b.blocked, k.entries, job, x);
    var r := HeapHas(ReadyHeaps, b'.ready, k'.entries, x);
    assert p in b'.ready[p.typ];
    assert k'.entries[x].Active();
  }

  // ---- counters --------------------------------------------------------------------

  /** After every step the counters are the sizes of the structures, and the per-queue
      Unacked counters add up to the outstanding deliveries. */
  lemma CountersExact(limit: int, run: seq<Action>)
    requires limit >= 1 && IsRun(limit, run)
    ensures var b := After(limit, run);
            && b.stats.totalReady == TotalLength(b.ready)
            && b.stats.totalBlocked == TotalLength(b.blocked)
            && b.stats.totalUnacked == |b.unack|
            && b.stats.totalWaiting == |b.timeWait|
            && b.stats.byScheduler.Keys == b.ready.Keys
            && (forall q :: q in b.ready ==> b.stats.byScheduler[q].ready == |b.ready[q]|)
            && Total(UnackedOf(b.stats.byScheduler)) == |b.unack|
  {
    hide Matches, JobsMatch, UnackMatches, WaitMatches, QueuesKnown, L.Inv, After, TotalLength;
    var k := BookAfter(limit, run);
  }

  // ---- the delivery limit ----------------------------------------------------------

  ghost predicate Fresh(k: L.Book, a: Action, id: string) {
    id !in k.entries || (a.Ack? && a.id == id && L.CanAck(k, id, a.token))
  }

  /** How an entry changes in one step, for any action but its own delivery. */
  lemma EntryKept(limit: int, k: L.Book, a: Action, k': L.Book, id: string)
    requires BookStep(limit, k, a, k') && id in k'.entries
    requires a.Dequeue? ==> exists x :: x != id && x in k.entries && k' == L.Deliver(k, x, a.queue, a.token)
    ensures Fresh(k, a, id) ==> k'.entries[id].count == k'.entries[id].fromType == 0
                                && !k'.entries[id].place.Outstanding?
    ensures !Fresh(k, a, id) ==>
              && id in k.entries
              && k'.entries[id].count == k.entries[id].count
              && k'.entries[id].fromType == k.entries[id].fromType
              && (k'.entries[id].place.Outstanding? ==>
                    && k.entries[id].place.Outstanding?
                    && k'.entries[id].place.from == k.entries[id].place.from
                    && k'.entries[id].place.token == k.entries[id].place.token)
  {
    hide L.AckStep;
    if a.Ack? && L.CanAck(k, a.id, a.token) {
      AckKeepsEntry(k, a.id, a.token, k', id);
    } else if a.Ack? {
      AckFails(k, a.id, a.token, k');
    }
  }

  lemma AckFails(k: L.Book, id: string, token: string, k': L.Book)
    requires L.AckStep(k, id, token, k') && !L.CanAck(k, id, token)
    ensures k'.entries == k.entries
  {
  }

  /** An Ack leaves the other entries' counts and deliveries alone. */
  lemma AckKeepsEntry(k: L.Book, acked: string, token: string, k': L.Book, id: string)
    requires L.AckStep(k, acked, token, k') && L.CanAck(k, acked, token) && id in k'.entries
    ensures id == acked || id !in k.entries ==> k'.entries[id].count == k'.entries[id].fromType == 0
                                                && !k'.entries[id].place.Outstanding?
    ensures id != acked && id in k.entries ==>
              && k'.entries[id].count == k.entries[id].count
              && k'.entries[id].fromType == k.entries[id].fromType
              && (k'.entries[id].place.Outstanding? ==> k'.entries[id] == k.entries[id])
  {
    var es2: L.Entries :| L.Promoted(k.entries - {acked}, k.entries[acked].eval.jobId, es2)
                          && k' == L.TakeRequeued(k.(entries := es2), token);
    assert es2.Keys == k.entries.Keys - {acked};
  }

  /** The action delivers the evaluation. */
  predicate Delivers(b: B.Broker, a: Action, id: string) {
    a.Dequeue? && B.HasWork(b, a.queue) && B.NextFor(b, a.queue).id == id
  }

  /** The action acknowledges the evaluation. */
  predicate Acknowledges(b: B.Broker, a: Action, id: string) {
    a.Ack? && a.id == id && B.AckOutcome(b, id, a.token) == B.Done
  }

  /** How often a run delivered the evaluation from its type queue since it was last
      accepted: enqueued when not tracked, or re-enqueued by its own Ack. */
  function TypeDeliveries(limit: int, run: seq<Action>, id: string): int
    decreases |run|
  {
    if run == [] then 0
    else
      var last := |run| - 1;
      var b, a := After(limit, run[..last]), run[last];
      if Delivers(b, a, id) then
        TypeDeliveries(limit, run[..last], id) + (if a.queue == B.NextFor(b, a.queue).typ then 1 else 0)
      else if id !in b.evals || Acknowledges(b, a, id) then 0
      else TypeDeliveries(limit, run[..last], id)
  }

  /** The queue that a run delivered the evaluation from most recently. */
  function Origin(limit: int, run: seq<Action>, id: string): string
    decreases |run|
  {
    if run == [] then ""
    else
      var last := |run| - 1;
      var b, a := After(limit, run[..last]), run[last];
      if Delivers(b, a, id) then a.queue else Origin(limit, run[..last], id)
  }

  /** The ledger's history fields are what happened in the run. */
  lemma {:induction false} HistoryIsReal(limit: int, run: seq<Action>, id: string)
    requires limit >= 1 && IsRun(limit, run) && id in BookAfter(limit, run).entries
    ensures var en := BookAfter(limit, run).entries[id];
            && en.fromType == TypeDeliveries(limit, run, id)
            && (en.place.Outstanding? ==> en.place.from == Origin(limit, run, id))
    decreases |run|
  {
    hide Queued, L.Inv, Apply, AckBook, L.Admit, Heap.Pop;
    if run != [] {
      var last := |run| - 1;
      var pre, a := run[..last], run[last];
      var b, k, k' := After(limit, pre), BookAfter(limit, pre), BookAfter(limit, run);
      AfterLimit(limit, pre);
      StepRefines(b, k, a);
      if id in k.entries {
        HistoryIsReal(limit, pre, id);
      }
      if Delivers(b, a, id) {
        DequeueAgrees(b, k, a.queue, a.token);
      } else {
        StepKeeps(b, k, a, k', id);
      }
    }
  }

  lemma StepKeeps(b: B.Broker, k: L.Book, a: Action, k': L.Book, id: string)
    requires b.limit >= 1 && Backed(b, k) && Allowed(b, a) && k' == Follow(b, k, a)
    requires id in k'.entries && !Delivers(b, a, id)
    ensures id !in b.evals || Acknowledges(b, a, id) ==>
              k'.entries[id].fromType == 0 && !k'.entries[id].place.Outstanding?
    ensures !(id !in b.evals || Acknowledges(b, a, id)) ==>
              && id in k.entries
              && k'.entries[id].fromType == k.entries[id].fromType
              && (k'.entries[id].place.Outstanding? ==>
                    && k.entries[id].place.Outstanding?
                    && k'.entries[id].place.from == k.entries[id].place.from)
  {
    hide Agrees, L.Inv, Apply, AckBook, Heap.Pop, BookStep, B.AckOutcome, B.AckSafe, B.NackSafe;
    hide L.Enqueue, L.Nack, L.SetArmed, L.WaitElapsed, L.CanAck;
    StepRefines(b, k, a);
    EvalsMatch(b, k, id);
    if a.Ack? {
      AckOutcomeIff(b, k, a.id, a.token);
    } else if a.Dequeue? {
      DequeueAgrees(b, k, a.queue, a.token);
      assert B.NextFor(b, a.queue).id != id;
    }
    EntryKept(b.limit, k, a, k', id);
  }

  lemma EvalsMatch(b: B.Broker, k: L.Book, id: string)
    requires Agrees(b, k)
    ensures id in b.evals <==> id in k.entries
    ensures id in b.evals ==> b.evals[id] == k.entries[id].count
  {
    hide Queued;
  }

  /** What the delivery counter says of the evaluation at a spot. */
  ghost predicate CountFits(b: B.Broker, id: string, s: Spot)
    requires Occurs(b, id, s) && id in b.evals
  {
    match s
    case InWait => b.evals[id] == 0
    case InBlocked(_, _) => b.evals[id] == 0
    case InReady(q, i) =>
      0 <= b.evals[id] && q == (if b.evals[id] < b.limit then b.ready[q][i].typ else FAILED_QUEUE)
    case InUnack =>
      1 <= b.evals[id] && (B.AckQueue(b, id) == FAILED_QUEUE <==> b.evals[id] > b.limit)
  }

  lemma CounterTellsQueue(b: B.Broker, k: L.Book, id: string, s: Spot)
    requires Backed(b, k) && id in b.evals && b.limit >= 1 && Occurs(b, id, s)
    ensures id in k.entries && k.entries[id].fromType <= b.limit
    ensures CountFits(b, id, s)
    ensures s.InUnack? ==> k.entries[id].place.Outstanding? && k.entries[id].place.from == B.AckQueue(b, id)
  {
    hide Placed, JobsMatch, QueuesKnown, L.Serialised, L.NoStarvation;
    var es := k.entries;
    SpotPlace(b, es, id, s);
    if s.InReady? {
      ReadySpotEval(b, es, id, s.queue, s.i);
    } else if s.InUnack? {
      AckQueueIsOrigin(b, k, id);
    }
  }

  lemma ReadySpotEval(b: B.Broker, es: L.Entries, id: string, q: string, i: nat)
    requires Placed(b, es) && Occurs(b, id, InReady(q, i))
    ensures id in es && es[id].place == L.Ready(q) && es[id].eval == b.ready[q][i]
  {
    HeapSpot(ReadyHeaps, b.ready, es, q, i);
  }

  /** Over every run an evaluation is delivered from its type queue at most limit times
      before its Ack; the counter fits the place of everything that is waiting, blocked,
      ready or outstanding; and Ack debits the queue that the delivery was taken from. */
  lemma DeliveryLimit(limit: int, run: seq<Action>, id: string, s: Spot)
    requires limit >= 1 && IsRun(limit, run) && Occurs(After(limit, run), id, s)
    ensures TypeDeliveries(limit, run, id) <= limit
    ensures id in After(limit, run).evals && CountFits(After(limit, run), id, s)
    ensures s.InUnack? ==> Origin(limit, run, id) == B.AckQueue(After(limit, run), id)
  {
    var b, k := After(limit, run), BookAfter(limit, run);
    hide After, Occurs, CountFits, TypeDeliveries, Origin, Queued, L.Inv;
    Conservation(limit, run, id);
    AfterLimit(limit, run);
    CounterTellsQueue(b, k, id, s);
    HistoryIsReal(limit, run, id);
  }
}
