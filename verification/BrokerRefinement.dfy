/** The broker follows the ledger: Agrees relates the maps, heaps and counters to the
    book, and every step of the broker from an agreeing state is the step of the book. */
module BrokerRefinement {
  import opened Evaluations
  import opened Sums
  import Heap
  import L = BrokerLedger
  import B = BrokerState

  // ---- the relation ----------------------------------------------------------------

  /** e is the evaluation that the book has at place p. */
  ghost predicate Holds(es: L.Entries, e: Evaluation, p: L.Place) {
    e.id in es && es[e.id].eval == e && es[e.id].place == p
  }

  /** The slice holds exactly the evaluations at place p, each once. */
  ghost predicate Lists(s: seq<Evaluation>, es: L.Entries, p: L.Place) {
    forall e: Evaluation {:trigger multiset(s)[e]} :: multiset(s)[e] == (if Holds(es, e, p) then 1 else 0)
  }

  datatype Kind = ReadyHeaps | BlockedHeaps

  function At(kind: Kind, name: string): L.Place {
    match kind
    case ReadyHeaps => L.Ready(name)
    case BlockedHeaps => L.Blocked(name)
  }

  ghost predicate OfKind(kind: Kind, p: L.Place) {
    match kind
    case ReadyHeaps => p.Ready?
    case BlockedHeaps => p.Blocked?
  }

  function NameOf(p: L.Place): string {
    match p
    case Ready(q) => q
    case Blocked(j) => j
    case _ => ""
  }

  /** Each slice is a heap that lists its place, and no place of the kind lacks a slice. */
  ghost predicate Matches(kind: Kind, m: map<string, seq<Evaluation>>, es: L.Entries) {
    && (forall n :: n in m ==> Heap.IsHeap(ByCreateIndex, m[n]) && Lists(m[n], es, At(kind, n)))
    && (forall id :: id in es && OfKind(kind, es[id].place) ==> NameOf(es[id].place) in m)
  }

  ghost predicate JobsMatch(jobs: map<string, string>, es: L.Entries) {
    && (forall j {:trigger jobs[j]} :: j in jobs ==> jobs[j] in es && es[jobs[j]].Active() && es[jobs[j]].eval.jobId == j)
    && (forall id {:trigger es[id].Active()} :: id in es && es[id].Active() ==> es[id].eval.jobId in jobs && jobs[es[id].eval.jobId] == id)
  }

  ghost predicate UnackMatches(unack: map<string, B.Unack>, es: L.Entries) {
    && (forall id :: id in unack <==> id in es && es[id].place.Outstanding?)
    && (forall id :: id in unack ==>
          unack[id] == B.Unack(es[id].eval, es[id].place.token, es[id].place.armed))
  }

  ghost predicate WaitMatches(timeWait: map<string, Evaluation>, es: L.Entries) {
    && (forall id :: id in timeWait <==> id in es && es[id].place.Waiting?)
    && (forall id :: id in timeWait ==> timeWait[id] == es[id].eval)
  }

  ghost predicate CountsMatch(evals: map<string, int>, es: L.Entries) {
    && (forall id :: id in evals <==> id in es)
    && (forall id :: id in evals ==> evals[id] == es[id].count)
  }

  /** The queues of an active entry have statistics, so no debit meets a missing entry. */
  ghost predicate QueuesKnown(ready: map<string, seq<Evaluation>>, es: L.Entries) {
    forall id :: id in es && es[id].Active() ==>
      && es[id].eval.typ in ready
      && (es[id].place.Outstanding? ==> es[id].place.from in ready)
  }

  ghost function UnackedOf(stats: map<string, B.SchedulerStats>): map<string, int> {
    map q | q in stats :: stats[q].unacked
  }

  ghost predicate ReadyExact(stats: B.Stats, ready: map<string, seq<Evaluation>>) {
    && stats.totalReady == TotalLength(ready)
    && stats.byScheduler.Keys == ready.Keys
    && (forall q :: q in ready ==> stats.byScheduler[q].ready == |ready[q]|)
  }

  ghost predicate UnackExact(stats: B.Stats, unack: map<string, B.Unack>) {
    stats.totalUnacked == |unack| == Total(UnackedOf(stats.byScheduler))
  }

  /** Every counter is the size of what it counts. */
  ghost predicate StatsExact(b: B.Broker) {
    && ReadyExact(b.stats, b.ready)
    && UnackExact(b.stats, b.unack)
    && b.stats.totalBlocked == TotalLength(b.blocked)
    && b.stats.totalWaiting == |b.timeWait|
  }

  ghost predicate NoEmptySlice(m: map<string, seq<Evaluation>>) {
    forall n :: n in m ==> |m[n]| > 0
  }

  /** Heaps, deliveries, wait timers and counters, for the evaluations in es. */
  ghost predicate Placed(b: B.Broker, es: L.Entries) {
    && Matches(ReadyHeaps, b.ready, es)
    && Matches(BlockedHeaps, b.blocked, es)
    && NoEmptySlice(b.blocked)
    && UnackMatches(b.unack, es)
    && WaitMatches(b.timeWait, es)
    && StatsExact(b)
  }

  /** All of the relation that EnqueueLocked can change. */
  ghost predicate Queued(b: B.Broker, es: L.Entries) {
    Placed(b, es) && JobsMatch(b.jobEvals, es) && QueuesKnown(b.ready, es)
  }

  /** The broker's state represents the book. */
  ghost predicate Agrees(b: B.Broker, k: L.Book) {
    && b.enabled == k.enabled
    && b.requeue == k.requeue
    && Queued(b, k.entries)
    && CountsMatch(b.evals, k.entries)
  }

  // ---- heaps under a change of one entry -------------------------------------------

  /** The entries with one key bound anew; Absent drops the key. */
  datatype Change = Absent | Bound(en: L.Entry)

  function Set(es: L.Entries, id: string, c: Change): L.Entries {
    match c
    case Absent => es - {id}
    case Bound(en) => es[id := en]
  }

  ghost predicate Away(c: Change, p: L.Place) {
    c.Bound? ==> c.en.place != p
  }

  ghost predicate Elsewhere(kind: Kind, c: Change) {
    c.Bound? ==> !OfKind(kind, c.en.place)
  }

  ghost function Old(es: L.Entries, id: string): Change {
    if id in es then Bound(es[id]) else Absent
  }

  lemma ListsStay(s: seq<Evaluation>, es: L.Entries, p: L.Place, id: string, c: Change)
    requires Lists(s, es, p) && Away(Old(es, id), p) && Away(c, p)
    ensures Lists(s, Set(es, id, c), p)
  {
    var es' := Set(es, id, c);
    forall e: Evaluation
      ensures multiset(s)[e] == (if Holds(es', e, p) then 1 else 0)
    {
      assert Holds(es', e, p) == Holds(es, e, p);
    }
  }

  lemma ListsPush(s: seq<Evaluation>, es: L.Entries, en: L.Entry)
    requires Lists(s, es, en.place) && Away(Old(es, en.eval.id), en.place)
    ensures Lists(Heap.Push(ByCreateIndex, s, en.eval), es[en.eval.id := en], en.place)
  {
    hide Heap.Push;
    var s' := Heap.Push(ByCreateIndex, s, en.eval);
    var es' := es[en.eval.id := en];
    forall e: Evaluation
      ensures multiset(s')[e] == (if Holds(es', e, en.place) then 1 else 0)
    {
      assert multiset(s')[e] == multiset(s)[e] + multiset{en.eval}[e];
      assert multiset(s)[e] == (if Holds(es, e, en.place) then 1 else 0);
    }
  }

  lemma ListsPop(s: seq<Evaluation>, es: L.Entries, p: L.Place, c: Change)
    requires |s| > 0 && Lists(s, es, p)
    requires Away(c, p)
    ensures var (e, rest) := Heap.Pop(ByCreateIndex, s);
            Holds(es, e, p) && Lists(rest, Set(es, e.id, c), p)
  {
    hide Heap.Pop;
    var (top, rest) := Heap.Pop(ByCreateIndex, s);
    assert multiset(s)[top] == multiset(rest)[top] + 1;
    assert Holds(es, top, p);
    var es' := Set(es, top.id, c);
    forall e: Evaluation
      ensures multiset(rest)[e] == (if Holds(es', e, p) then 1 else 0)
    {
      assert multiset(s)[e] == multiset(rest)[e] + multiset{top}[e];
      assert multiset(s)[e] == (if Holds(es, e, p) then 1 else 0);
    }
  }

  lemma ListsNone(kind: Kind, m: map<string, seq<Evaluation>>, es: L.Entries, name: string)
    requires Matches(kind, m, es)
    ensures Lists(Slice(m, name), es, At(kind, name))
    ensures Heap.IsHeap(ByCreateIndex, Slice(m, name))
  {
    if name !in m {
      forall e: Evaluation
        ensures !Holds(es, e, At(kind, name))
      {
        assert NameOf(At(kind, name)) == name;
      }
    }
  }

  /** An entry that is of the kind neither before nor after does not show in the heaps. */
  lemma MatchStays(kind: Kind, m: map<string, seq<Evaluation>>, es: L.Entries, id: string, c: Change)
    requires Matches(kind, m, es) && Elsewhere(kind, Old(es, id)) && Elsewhere(kind, c)
    ensures Matches(kind, m, Set(es, id, c))
  {
    forall n | n in m
      ensures Lists(m[n], Set(es, id, c), At(kind, n))
    {
      ListsStay(m[n], es, At(kind, n), id, c);
    }
  }

  ghost predicate OnlyAt(kind: Kind, c: Change, name: string) {
    c.Bound? && OfKind(kind, c.en.place) ==> c.en.place == At(kind, name)
  }

  /** Rebinding one slice, when one entry moves from and to that slice's place at most. */
  lemma MatchUpdate(kind: Kind, m: map<string, seq<Evaluation>>, es: L.Entries,
                    name: string, s: seq<Evaluation>, id: string, c: Change)
    requires Matches(kind, m, es) && OnlyAt(kind, Old(es, id), name) && OnlyAt(kind, c, name)
    requires Heap.IsHeap(ByCreateIndex, s) && Lists(s, Set(es, id, c), At(kind, name))
    ensures Matches(kind, m[name := s], Set(es, id, c))
  {
    var m', es' := m[name := s], Set(es, id, c);
    forall n | n in m'
      ensures Heap.IsHeap(ByCreateIndex, m'[n]) && Lists(m'[n], es', At(kind, n))
    {
      if n != name {
        assert m'[n] == m[n];
        ListsStay(m[n], es, At(kind, n), id, c);
      }
    }
  }

  /** Pushing an evaluation when its entry moves to the heap's place. */
  lemma MatchPush(kind: Kind, m: map<string, seq<Evaluation>>, es: L.Entries, en: L.Entry, name: string)
    requires Matches(kind, m, es) && Elsewhere(kind, Old(es, en.eval.id)) && en.place == At(kind, name)
    ensures Matches(kind, m[name := Heap.Push(ByCreateIndex, Slice(m, name), en.eval)],
                    es[en.eval.id := en])
  {
    hide Heap.Push;
    ListsNone(kind, m, es, name);
    ListsPush(Slice(m, name), es, en);
    Heap.PushKeepsHeap(ByCreateIndex, Slice(m, name), en.eval);
    MatchUpdate(kind, m, es, name, Heap.Push(ByCreateIndex, Slice(m, name), en.eval), en.eval.id, Bound(en));
  }

  /** The root of a heap is the oldest entry at its place. */
  lemma PopIsOldest(kind: Kind, m: map<string, seq<Evaluation>>, es: L.Entries, name: string)
    requires Matches(kind, m, es) && |Slice(m, name)| > 0
    requires forall id :: id in es ==> es[id].eval.id == id
    ensures var e := Heap.Pop(ByCreateIndex, m[name]).0;
            Holds(es, e, At(kind, name)) && L.Oldest(es, e.id, At(kind, name))
  {
    hide Heap.Pop;
    var s := m[name];
    ListsPop(s, es, At(kind, name), Absent);
    Heap.PopTakesMin(ByCreateIndex, s);
    var top := Heap.Pop(ByCreateIndex, s).0;
    forall x | x in es && es[x].place == At(kind, name)
      ensures top.createIndex <= es[x].eval.createIndex
    {
      assert Holds(es, es[x].eval, At(kind, name));
      assert multiset(s)[es[x].eval] == 1;
      assert es[x].eval in s;
      assert ByCreateIndex(top) <= ByCreateIndex(es[x].eval);
    }
  }

  /** Popping an evaluation when its entry leaves the kind; the slice stays bound. */
  lemma MatchPop(kind: Kind, m: map<string, seq<Evaluation>>, es: L.Entries, name: string, c: Change)
    requires Matches(kind, m, es) && |Slice(m, name)| > 0 && Elsewhere(kind, c)
    ensures var (e, rest) := Heap.Pop(ByCreateIndex, m[name]);
            Matches(kind, m[name := rest], Set(es, e.id, c))
  {
    hide Heap.Pop;
    var (e, rest) := Heap.Pop(ByCreateIndex, m[name]);
    ListsPop(m[name], es, At(kind, name), c);
    Heap.PopTakesMin(ByCreateIndex, m[name]);
    MatchUpdate(kind, m, es, name, rest, e.id, c);
  }

  /** An empty slice may be unbound. */
  lemma MatchDrop(kind: Kind, m: map<string, seq<Evaluation>>, es: L.Entries, name: string)
    requires Matches(kind, m, es) && name in m && m[name] == []
    requires forall id :: id in es ==> es[id].eval.id == id
    ensures Matches(kind, m - {name}, es)
  {
    forall id | id in es && OfKind(kind, es[id].place)
      ensures NameOf(es[id].place) in m - {name}
    {
      assert multiset(m[name])[es[id].eval] == 0;
      assert !Holds(es, es[id].eval, At(kind, name));
    }
  }

  // ---- placing one evaluation ------------------------------------------------------

  lemma UnackedOfUpdate(stats: map<string, B.SchedulerStats>, q: string, s: B.SchedulerStats)
    ensures UnackedOf(stats[q := s]) == UnackedOf(stats)[q := s.unacked]
  {
  }

  /** The counters of one queue, and so the sum over the queues. */
  lemma UnackedUpdate(stats: map<string, B.SchedulerStats>, q: string, s: B.SchedulerStats)
    ensures Total(UnackedOf(stats[q := s]))
            == Total(UnackedOf(stats)) + s.unacked - (if q in stats then stats[q].unacked else 0)
  {
    UnackedOfUpdate(stats, q, s);
    TotalUpdate(UnackedOf(stats), q, s.unacked);
  }

  lemma ReadyStatsUpdate(stats: B.Stats, ready: map<string, seq<Evaluation>>, q: string,
                         s: seq<Evaluation>, stats': B.Stats)
    requires ReadyExact(stats, ready)
    requires stats'.totalReady == stats.totalReady + |s| - |Slice(ready, q)|
    requires q in stats'.byScheduler && stats'.byScheduler[q].ready == |s|
    requires stats'.byScheduler == stats.byScheduler[q := stats'.byScheduler[q]]
    ensures ReadyExact(stats', ready[q := s])
  {
    TotalLengthUpdate(ready, q, s);
  }

  lemma StatsPushReady(b: B.Broker, e: Evaluation, q: string)
    requires StatsExact(b)
    ensures StatsExact(B.PushReady(b, e, q))
  {
    hide Heap.Push;
    var b' := B.PushReady(b, e, q);
    UnackedUpdate(b.stats.byScheduler, q, b'.stats.byScheduler[q]);
    ReadyStatsUpdate(b.stats, b.ready, q, b'.ready[q], b'.stats);
  }

  lemma StatsPushBlocked(b: B.Broker, e: Evaluation)
    requires StatsExact(b)
    ensures StatsExact(B.PushBlocked(b, e))
  {
    hide Heap.Push;
    TotalLengthUpdate(b.blocked, e.jobId, B.PushBlocked(b, e).blocked[e.jobId]);
  }

  lemma UnackStays(unack: map<string, B.Unack>, es: L.Entries, id: string, c: Change)
    requires UnackMatches(unack, es)
    requires Old(es, id).Bound? ==> !es[id].place.Outstanding?
    requires c.Bound? ==> !c.en.place.Outstanding?
    ensures UnackMatches(unack, Set(es, id, c))
  {
  }

  lemma WaitStays(timeWait: map<string, Evaluation>, es: L.Entries, id: string, c: Change)
    requires WaitMatches(timeWait, es)
    requires Old(es, id).Bound? ==> !es[id].place.Waiting?
    requires c.Bound? ==> !c.en.place.Waiting?
    ensures WaitMatches(timeWait, Set(es, id, c))
  {
  }

  lemma PlacePush(b: B.Broker, es: L.Entries, en: L.Entry, q: string)
    requires Placed(b, es) && en.eval.id !in es && en.place == L.Ready(q)
    ensures Placed(B.PushReady(b, en.eval, q), es[en.eval.id := en])
  {
    hide Heap.Push;
    MatchPush(ReadyHeaps, b.ready, es, en, q);
    MatchStays(BlockedHeaps, b.blocked, es, en.eval.id, Bound(en));
    UnackStays(b.unack, es, en.eval.id, Bound(en));
    WaitStays(b.timeWait, es, en.eval.id, Bound(en));
    StatsPushReady(b, en.eval, q);
  }

  lemma PlacePushBlocked(b: B.Broker, es: L.Entries, en: L.Entry)
    requires Placed(b, es) && en.eval.id !in es && en.place == L.Blocked(en.eval.jobId)
    ensures Placed(B.PushBlocked(b, en.eval), es[en.eval.id := en])
  {
    hide Heap.Push;
    MatchPush(BlockedHeaps, b.blocked, es, en, en.eval.jobId);
    MatchStays(ReadyHeaps, b.ready, es, en.eval.id, Bound(en));
    UnackStays(b.unack, es, en.eval.id, Bound(en));
    WaitStays(b.timeWait, es, en.eval.id, Bound(en));
    StatsPushBlocked(b, en.eval);
  }

  lemma JobActiveIff(jobs: map<string, string>, es: L.Entries, j: string)
    requires JobsMatch(jobs, es)
    ensures j in jobs <==> L.JobActive(es, j)
    ensures j in jobs ==> jobs[j] in es
  {
    if j in jobs {
      assert es[jobs[j]].Active();
    }
  }

  lemma JobsAdd(jobs: map<string, string>, es: L.Entries, en: L.Entry)
    requires JobsMatch(jobs, es) && en.eval.id !in es && en.Active() && en.eval.jobId !in jobs
    ensures JobsMatch(jobs[en.eval.jobId := en.eval.id], es[en.eval.id := en])
  {
  }

  lemma JobsStay(jobs: map<string, string>, es: L.Entries, id: string, c: Change)
    requires JobsMatch(jobs, es)
    requires id in es ==> !es[id].Active()
    requires c.Bound? ==> !c.en.Active()
    ensures JobsMatch(jobs, Set(es, id, c))
  {
  }

  lemma JobsMove(jobs: map<string, string>, es: L.Entries, id: string, en: L.Entry)
    requires JobsMatch(jobs, es)
    requires id in es && es[id].Active() && en.Active() && en.eval == es[id].eval
    ensures JobsMatch(jobs, es[id := en])
  {
  }

  lemma KnownStay(ready: map<string, seq<Evaluation>>, ready': map<string, seq<Evaluation>>,
                  es: L.Entries, id: string, c: Change)
    requires QueuesKnown(ready, es) && ready.Keys <= ready'.Keys
    requires c.Bound? && c.en.Active() ==>
               && c.en.eval.typ in ready'
               && (c.en.place.Outstanding? ==> c.en.place.from in ready')
    ensures QueuesKnown(ready', Set(es, id, c))
  {
  }

  lemma AdmittedBlocked(b: B.Broker, es: L.Entries, en: L.Entry)
    requires Queued(b, es) && en.eval.id !in es && en.place == L.Blocked(en.eval.jobId)
    ensures Queued(B.PushBlocked(b, en.eval), es[en.eval.id := en])
  {
    hide Matches, UnackMatches, WaitMatches, StatsExact, NoEmptySlice, JobsMatch, QueuesKnown, Heap.Push;
    PlacePushBlocked(b, es, en);
    JobsStay(b.jobEvals, es, en.eval.id, Bound(en));
    KnownStay(b.ready, b.ready, es, en.eval.id, Bound(en));
  }

  lemma AdmittedReady(b: B.Broker, es: L.Entries, en: L.Entry)
    requires Queued(b, es) && en.eval.id !in es && en.place == L.Ready(en.eval.typ)
    requires en.eval.jobId !in b.jobEvals
    ensures Queued(B.PushReady(b.(jobEvals := b.jobEvals[en.eval.jobId := en.eval.id]), en.eval, en.eval.typ),
                   es[en.eval.id := en])
  {
    hide Matches, UnackMatches, WaitMatches, ReadyExact, UnackExact, NoEmptySlice, JobsMatch, QueuesKnown, Heap.Push;
    var b1 := b.(jobEvals := b.jobEvals[en.eval.jobId := en.eval.id]);
    assert Placed(b1, es);
    PlacePush(b1, es, en, en.eval.typ);
    JobsAdd(b.jobEvals, es, en);
    KnownStay(b.ready, B.PushReady(b1, en.eval, en.eval.typ).ready, es, en.eval.id, Bound(en));
  }

  /** EnqueueLocked puts an evaluation that has no entry where the ledger admits it. */
  lemma Admitted(b: B.Broker, es: L.Entries, e: Evaluation, count: int, fromType: int)
    requires b.enabled && Queued(b, es) && e.id !in es && "" !in es
    ensures Queued(B.EnqueueLocked(b, e, e.typ), es[e.id := L.Entry(e, L.Admit(es, e), count, fromType)])
  {
    hide Placed, JobsMatch, QueuesKnown, B.PushReady, B.PushBlocked;
    var en := L.Entry(e, L.Admit(es, e), count, fromType);
    JobActiveIff(b.jobEvals, es, e.jobId);
    if e.jobId in b.jobEvals {
      AdmittedBlocked(b, es, en);
    } else {
      AdmittedReady(b, es, en);
    }
  }

  ghost predicate SameFrame(b: B.Broker, b': B.Broker) {
    && b'.enabled == b.enabled && b'.evals == b.evals && b'.requeue == b.requeue
    && b'.limit == b.limit && b'.unack == b.unack && b'.timeWait == b.timeWait
  }

  lemma PushFrame(b: B.Broker, e: Evaluation, q: string)
    ensures SameFrame(b, B.PushReady(b, e, q)) && SameFrame(b, B.PushBlocked(b, e))
  {
    hide Heap.Push, Slice;
  }

  /** What EnqueueLocked leaves alone. */
  lemma EnqueueLockedFrame(b: B.Broker, e: Evaluation, q: string)
    ensures SameFrame(b, B.EnqueueLocked(b, e, q))
  {
    hide B.PushReady, B.PushBlocked;
    var b1 := b.(jobEvals := b.jobEvals[e.jobId := e.id]);
    assert SameFrame(b, b1);
    PushFrame(b, e, q);
    PushFrame(b1, e, q);
  }

  lemma QueuedSame(b: B.Broker, b': B.Broker, es: L.Entries)
    requires Queued(b, es)
    requires b'.ready == b.ready && b'.blocked == b.blocked && b'.unack == b.unack
    requires b'.timeWait == b.timeWait && b'.stats == b.stats && b'.jobEvals == b.jobEvals
    ensures Queued(b', es)
  {
    hide Matches, UnackMatches, WaitMatches, ReadyExact, UnackExact, NoEmptySlice, JobsMatch, QueuesKnown;
  }

  // ---- enqueueing ------------------------------------------------------------------

  lemma WaitAdd(timeWait: map<string, Evaluation>, es: L.Entries, en: L.Entry)
    requires WaitMatches(timeWait, es) && en.eval.id !in es && en.place.Waiting?
    ensures WaitMatches(timeWait[en.eval.id := en.eval], es[en.eval.id := en])
    ensures |timeWait[en.eval.id := en.eval]| == |timeWait| + 1
  {
  }

  lemma QueuedWaiting(b: B.Broker, es: L.Entries, en: L.Entry)
    requires Queued(b, es) && en.eval.id !in es && en.place.Waiting?
    ensures Queued(B.AddWaiting(b, en.eval), es[en.eval.id := en])
  {
    hide Matches, UnackMatches, WaitMatches, ReadyExact, UnackExact, NoEmptySlice, JobsMatch, QueuesKnown;
    var id := en.eval.id;
    MatchStays(ReadyHeaps, b.ready, es, id, Bound(en));
    MatchStays(BlockedHeaps, b.blocked, es, id, Bound(en));
    UnackStays(b.unack, es, id, Bound(en));
    WaitAdd(b.timeWait, es, en);
    JobsStay(b.jobEvals, es, id, Bound(en));
    KnownStay(b.ready, b.ready, es, id, Bound(en));
    StatsSame(b.stats, B.AddWaiting(b, en.eval).stats, b.ready, b.unack);
  }

  /** The waiting and blocked totals do not enter the queue counters. */
  lemma StatsSame(stats: B.Stats, stats': B.Stats, ready: map<string, seq<Evaluation>>, unack: map<string, B.Unack>)
    requires ReadyExact(stats, ready) && UnackExact(stats, unack)
    requires stats'.totalReady == stats.totalReady && stats'.totalUnacked == stats.totalUnacked
    requires stats'.byScheduler == stats.byScheduler
    ensures ReadyExact(stats', ready) && UnackExact(stats', unack)
  {
  }

  /** A new evaluation goes to the wait list or where the ledger admits it. */
  lemma EnqueueNew(b: B.Broker, k: L.Book, e: Evaluation)
    requires Agrees(b, k) && b.enabled && e.id !in b.evals && "" !in k.entries
    ensures Agrees(B.ProcessEnqueue(b, e, ""), L.Enqueue(k, e, ""))
  {
    hide Queued, B.EnqueueLocked, L.Admit;
    var es := k.entries;
    assert e.id !in es;
    var b1 := b.(evals := b.evals[e.id := 0]);
    QueuedSame(b, b1, es);
    if e.wait > 0 {
      QueuedWaiting(b1, es, L.Entry(e, L.Waiting, 0, 0));
    } else {
      Admitted(b1, es, e, 0, 0);
      EnqueueLockedFrame(b1, e, e.typ);
    }
  }

  lemma EnqueueAgrees(b: B.Broker, k: L.Book, e: Evaluation, token: string)
    requires Agrees(b, k) && L.Inv(b.limit, k) && L.Enqueueable(e)
    requires e.wait > 0 ==> b.enabled
    ensures Agrees(B.ProcessEnqueue(b, e, token), L.Enqueue(k, e, token))
  {
    hide Placed, JobsMatch, QueuesKnown, L.Admit;
    if !b.enabled {
      assert e.id !in b.evals;
    } else if e.id !in b.evals {
      EnqueueNew(b, k, e);
    } else {
      UnackLookup(b, k.entries, e.id);
      var b1 := b.(requeue := b.requeue[token := e]);
      QueuedSame(b, b1, k.entries);
    }
  }

  lemma UnackLookup(b: B.Broker, es: L.Entries, id: string)
    requires Queued(b, es)
    ensures id in b.unack <==> id in es && es[id].place.Outstanding?
    ensures id in b.unack ==>
              && b.unack[id] == B.Unack(es[id].eval, es[id].place.token, es[id].place.armed)
              && es[id].eval.jobId in b.jobEvals && b.jobEvals[es[id].eval.jobId] == id
              && es[id].eval.typ in b.stats.byScheduler && es[id].place.from in b.stats.byScheduler
  {
    hide Matches;
    if id in b.unack {
      assert es[id].Active();
    }
  }

  // ---- leaving a place -------------------------------------------------------------

  lemma WaitRemove(timeWait: map<string, Evaluation>, es: L.Entries, id: string)
    requires WaitMatches(timeWait, es) && id in timeWait
    ensures WaitMatches(timeWait - {id}, es - {id})
    ensures |timeWait - {id}| == |timeWait| - 1
  {
    assert (timeWait - {id}).Keys == timeWait.Keys - {id};
  }

  /** The wait timer of an evaluation runs out; until it is queued it has no entry. */
  lemma LeaveWaiting(b: B.Broker, es: L.Entries, id: string, b1: B.Broker)
    requires Queued(b, es) && id in b.timeWait
    requires b1 == b.(timeWait := b.timeWait - {id},
                      stats := b.stats.(totalWaiting := b.stats.totalWaiting - 1))
    ensures Queued(b1, es - {id})
  {
    assert id in es && es[id].place.Waiting?;
    hide Matches, UnackMatches, WaitMatches, ReadyExact, UnackExact, NoEmptySlice, JobsMatch, QueuesKnown;
    MatchStays(ReadyHeaps, b.ready, es, id, Absent);
    MatchStays(BlockedHeaps, b.blocked, es, id, Absent);
    UnackStays(b.unack, es, id, Absent);
    WaitRemove(b.timeWait, es, id);
    JobsStay(b.jobEvals, es, id, Absent);
    KnownStay(b.ready, b.ready, es, id, Absent);
    StatsSame(b.stats, b1.stats, b.ready, b.unack);
  }

  lemma AdmitWithout(es: L.Entries, id: string, e: Evaluation)
    requires id in es ==> !es[id].Active()
    ensures L.Admit(es - {id}, e) == L.Admit(es, e)
  {
    var es1 := es - {id};
    if L.JobActive(es, e.jobId) {
      var x :| x in es && es[x].Active() && es[x].eval.jobId == e.jobId;
      assert x in es1 && es1[x].Active();
    }
  }

  lemma WaitLookup(b: B.Broker, es: L.Entries, id: string)
    requires Queued(b, es)
    ensures id in b.timeWait <==> id in es && es[id].place.Waiting?
    ensures id in b.timeWait ==> b.timeWait[id] == es[id].eval
  {
    hide Matches, UnackMatches, ReadyExact, UnackExact, NoEmptySlice, JobsMatch, QueuesKnown;
  }

  lemma WaitElapsedAgrees(b: B.Broker, k: L.Book, id: string)
    requires Agrees(b, k) && L.Inv(b.limit, k) && id in b.timeWait
    ensures id in k.entries && k.entries[id].place.Waiting?
    ensures Agrees(B.EnqueueWaiting(b, b.timeWait[id]), L.WaitElapsed(k, id))
  {
    hide Placed, JobsMatch, QueuesKnown, L.Admit, B.EnqueueLocked;
    var es := k.entries;
    WaitLookup(b, es, id);
    var en := es[id];
    var b1 := b.(timeWait := b.timeWait - {id},
                 stats := b.stats.(totalWaiting := b.stats.totalWaiting - 1));
    LeaveWaiting(b, es, id, b1);
    AdmitWithout(es, id, en.eval);
    Admitted(b1, es - {id}, en.eval, en.count, en.fromType);
    EnqueueLockedFrame(b1, en.eval, en.eval.typ);
    assert (es - {id})[id := en.(place := L.Admit(es, en.eval))] == es[id := en.(place := L.Admit(es, en.eval))];
  }

  // ---- delivery --------------------------------------------------------------------

  lemma UnackAdd(unack: map<string, B.Unack>, es: L.Entries, id: string, en: L.Entry)
    requires UnackMatches(unack, es) && id !in unack && en.place.Outstanding?
    ensures UnackMatches(unack[id := B.Unack(en.eval, en.place.token, en.place.armed)], es[id := en])
    ensures |unack[id := B.Unack(en.eval, en.place.token, en.place.armed)]| == |unack| + 1
  {
  }

  lemma UnackStatsUpdate(stats: B.Stats, unack: map<string, B.Unack>, q: string,
                         stats': B.Stats, unack': map<string, B.Unack>)
    requires UnackExact(stats, unack) && stats'.totalUnacked == |unack'|
    requires q in stats'.byScheduler && stats'.byScheduler == stats.byScheduler[q := stats'.byScheduler[q]]
    requires stats'.byScheduler[q].unacked - B.SchedStats(stats, q).unacked == |unack'| - |unack|
    ensures UnackExact(stats', unack')
  {
    UnackedUpdate(stats.byScheduler, q, stats'.byScheduler[q]);
  }

  lemma StatsDequeue(b: B.Broker, q: string, token: string)
    requires B.HasWork(b, q) && StatsExact(b) && q in b.stats.byScheduler && B.NextFor(b, q).id !in b.unack
    ensures StatsExact(B.DequeueFor(b, q, token))
  {
    hide Heap.Pop, UnackExact, TotalLength;
    var b' := B.DequeueFor(b, q, token);
    assert |b'.unack| == |b.unack| + 1;
    assert b.stats.totalUnacked == |b.unack| by { UnackTotal(b); }
    UnackStatsUpdate(b.stats, b.unack, q, b'.stats, b'.unack);
    ReadyStatsUpdate(b.stats, b.ready, q, b'.ready[q], b'.stats);
  }

  lemma UnackTotal(b: B.Broker)
    requires StatsExact(b)
    ensures b.stats.totalUnacked == |b.unack|
  {
  }

  lemma NextHolds(b: B.Broker, es: L.Entries, q: string)
    requires Queued(b, es) && B.HasWork(b, q)
    requires forall id :: id in es ==> es[id].eval.id == id
    ensures var e := B.NextFor(b, q);
            Holds(es, e, L.Ready(q)) && L.Oldest(es, e.id, L.Ready(q)) && e.id !in b.unack
    ensures q in b.stats.byScheduler && B.NextFor(b, q).typ in b.ready
  {
    hide Heap.Pop;
    PopIsOldest(ReadyHeaps, b.ready, es, q);
    assert es[B.NextFor(b, q).id].Active();
  }

  lemma Dequeued(b: B.Broker, es: L.Entries, q: string, token: string, en: L.Entry)
    requires Queued(b, es) && B.HasWork(b, q)
    requires Holds(es, B.NextFor(b, q), L.Ready(q)) && B.NextFor(b, q).id !in b.unack
    requires q in b.stats.byScheduler && en.eval.typ in b.ready
    requires en.eval == B.NextFor(b, q) && en.place == L.Outstanding(token, true, q)
    ensures Queued(B.DequeueFor(b, q, token), es[en.eval.id := en])
  {
    hide Matches, UnackMatches, WaitMatches, NoEmptySlice, JobsMatch, QueuesKnown, StatsExact, Heap.Pop;
    StatsDequeue(b, q, token);
    MatchPop(ReadyHeaps, b.ready, es, q, Bound(en));
    MatchStays(BlockedHeaps, b.blocked, es, en.eval.id, Bound(en));
    UnackAdd(b.unack, es, en.eval.id, en);
    WaitStays(b.timeWait, es, en.eval.id, Bound(en));
    JobsMove(b.jobEvals, es, en.eval.id, en);
    KnownStay(b.ready, B.DequeueFor(b, q, token).ready, es, en.eval.id, Bound(en));
  }

  /** A dequeue delivers the oldest ready evaluation of the queue. */
  lemma DequeueAgrees(b: B.Broker, k: L.Book, q: string, token: string)
    requires Agrees(b, k) && L.Inv(b.limit, k) && B.HasWork(b, q)
    ensures var id := B.NextFor(b, q).id;
            && L.Oldest(k.entries, id, L.Ready(q)) && k.entries[id].eval == B.NextFor(b, q)
            && Agrees(B.DequeueFor(b, q, token), L.Deliver(k, id, q, token))
  {
    hide Queued, L.Oldest, Heap.Pop;
    NextHolds(b, k.entries, q);
    var id := B.NextFor(b, q).id;
    Dequeued(b, k.entries, q, token, L.Deliver(k, id, q, token).entries[id]);
  }

  // ---- acknowledgement -------------------------------------------------------------

  lemma UnackRemove(unack: map<string, B.Unack>, es: L.Entries, id: string)
    requires UnackMatches(unack, es) && id in unack
    ensures UnackMatches(unack - {id}, es - {id})
    ensures |unack - {id}| == |unack| - 1
  {
    assert (unack - {id}).Keys == unack.Keys - {id};
  }

  /** One delivery less, debited from a known queue. */
  lemma StatsDebit(b: B.Broker, id: string, q: string, b': B.Broker)
    requires StatsExact(b) && id in b.unack && q in b.stats.byScheduler
    requires b'.stats == B.DebitUnacked(b.stats, q) && b'.unack == b.unack - {id}
    requires b'.ready == b.ready && b'.blocked == b.blocked && b'.timeWait == b.timeWait
    ensures StatsExact(b')
  {
    hide UnackExact, TotalLength;
    assert b'.unack.Keys == b.unack.Keys - {id};
    assert |b'.unack| == |b.unack| - 1;
    UnackTotal(b);
    UnackStatsUpdate(b.stats, b.unack, q, b'.stats, b'.unack);
    ReadyStatsUpdate(b.stats, b.ready, q, b.ready[q], b'.stats);
    assert b.ready[q := b.ready[q]] == b.ready;
  }

  /** An outstanding evaluation loses its delivery; until it is queued it has no entry. */
  lemma LeaveUnack(b: B.Broker, es: L.Entries, id: string, q: string, b': B.Broker)
    requires Placed(b, es) && QueuesKnown(b.ready, es) && id in b.unack && q in b.stats.byScheduler
    requires b'.stats == B.DebitUnacked(b.stats, q) && b'.unack == b.unack - {id}
    requires b'.ready == b.ready && b'.blocked == b.blocked && b'.timeWait == b.timeWait
    ensures Placed(b', es - {id}) && QueuesKnown(b'.ready, es - {id})
  {
    assert id in es && es[id].place.Outstanding?;
    hide Matches, UnackMatches, WaitMatches, NoEmptySlice, QueuesKnown, StatsExact;
    StatsDebit(b, id, q, b');
    MatchStays(ReadyHeaps, b.ready, es, id, Absent);
    MatchStays(BlockedHeaps, b.blocked, es, id, Absent);
    UnackRemove(b.unack, es, id);
    WaitStays(b.timeWait, es, id, Absent);
    KnownStay(b.ready, b.ready, es, id, Absent);
  }

  lemma JobsRemove(jobs: map<string, string>, es: L.Entries, id: string)
    requires JobsMatch(jobs, es) && id in es && es[id].Active()
    ensures JobsMatch(jobs - {es[id].eval.jobId}, es - {id})
  {
    var es1 := es - {id};
    forall x | x in es1 && es1[x].Active()
      ensures es1[x].eval.jobId in jobs - {es[id].eval.jobId}
    {
      assert es[x].Active();
    }
  }

  /** Ack debits the queue that the delivery came from. */
  lemma AckQueueIsOrigin(b: B.Broker, k: L.Book, id: string)
    requires Agrees(b, k) && L.Inv(b.limit, k) && id in b.unack
    ensures id in k.entries && k.entries[id].place.Outstanding?
    ensures B.AckQueue(b, id) == k.entries[id].place.from
    ensures B.AckQueue(b, id) in b.stats.byScheduler
    ensures b.unack[id].eval.typ in b.stats.byScheduler
  {
    hide Placed, JobsMatch, QueuesKnown;
    UnackLookup(b, k.entries, id);
  }

  lemma CountsRemove(evals: map<string, int>, es: L.Entries, id: string)
    requires CountsMatch(evals, es)
    ensures CountsMatch(evals - {id}, es - {id})
  {
  }

  /** Ack's first part: the delivery is gone. */
  lemma Settled(b: B.Broker, k: L.Book, id: string)
    requires Agrees(b, k) && L.Inv(b.limit, k) && id in b.unack
    ensures Agrees(B.Settle(b, id), k.(entries := k.entries - {id}))
  {
    hide Placed, JobsMatch, QueuesKnown, CountsMatch, L.Inv, B.DebitUnacked, B.AckQueue;
    AckQueueIsOrigin(b, k, id);
    UnackLookup(b, k.entries, id);
    LeaveUnack(b, k.entries, id, B.AckQueue(b, id), B.Settle(b, id));
    JobsRemove(b.jobEvals, k.entries, id);
    CountsRemove(b.evals, k.entries, id);
  }

  lemma BlockedListed(m: map<string, seq<Evaluation>>, es: L.Entries, job: string, x: string)
    requires Matches(BlockedHeaps, m, es) && x in es && es[x].eval.id == x && es[x].place == L.Blocked(job)
    ensures |Slice(m, job)| > 0
  {
    hide Matches;
    ListsNone(BlockedHeaps, m, es, job);
    assert Holds(es, es[x].eval, At(BlockedHeaps, job));
    assert multiset(Slice(m, job))[es[x].eval] == 1;
  }

  lemma HasBlockedIff(b: B.Broker, es: L.Entries, job: string)
    requires Queued(b, es)
    requires forall id :: id in es ==> es[id].eval.id == id
    ensures L.HasBlocked(es, job) <==> |Slice(b.blocked, job)| > 0
    ensures |Slice(b.blocked, job)| > 0 ==>
              var e := Heap.Pop(ByCreateIndex, b.blocked[job]).0;
              Holds(es, e, L.Blocked(job)) && L.Oldest(es, e.id, L.Blocked(job))
  {
    hide Heap.Pop, UnackMatches, WaitMatches, StatsExact, JobsMatch, QueuesKnown;
    if |Slice(b.blocked, job)| > 0 {
      PopIsOldest(BlockedHeaps, b.blocked, es, job);
    }
    if L.HasBlocked(es, job) {
      var x :| x in es && es[x].place == L.Blocked(job);
      BlockedListed(b.blocked, es, job, x);
    }
  }

  /** The blocked heap of the job without its root; an emptied heap is unbound. */
  function PopBlocked(b: B.Broker, job: string): B.Broker
    requires |Slice(b.blocked, job)| > 0
  {
    var rest := Heap.Pop(ByCreateIndex, b.blocked[job]).1;
    b.(blocked := if |rest| > 0 then b.blocked[job := rest] else b.blocked - {job},
       stats := b.stats.(totalBlocked := b.stats.totalBlocked - 1))
  }

  lemma BlockedPopped(m: map<string, seq<Evaluation>>, es: L.Entries, job: string)
    requires Matches(BlockedHeaps, m, es) && NoEmptySlice(m) && |Slice(m, job)| > 0
    requires forall id :: id in es ==> es[id].eval.id == id
    ensures var (e, rest) := Heap.Pop(ByCreateIndex, m[job]);
            var m' := if |rest| > 0 then m[job := rest] else m - {job};
            && Matches(BlockedHeaps, m', es - {e.id}) && NoEmptySlice(m')
            && TotalLength(m') == TotalLength(m) - 1
  {
    hide Matches, Heap.Pop, TotalLength;
    var (e, rest) := Heap.Pop(ByCreateIndex, m[job]);
    MatchPop(BlockedHeaps, m, es, job, Absent);
    TotalLengthUpdate(m, job, rest);
    if |rest| == 0 {
      MatchDrop(BlockedHeaps, m[job := rest], es - {e.id}, job);
      assert m[job := rest] - {job} == m - {job};
      TotalLengthRemove(m, job);
    }
  }

  lemma LeaveBlocked(b: B.Broker, es: L.Entries, job: string)
    requires Queued(b, es) && |Slice(b.blocked, job)| > 0
    requires forall id :: id in es ==> es[id].eval.id == id
    ensures var e := Heap.Pop(ByCreateIndex, b.blocked[job]).0;
            Queued(PopBlocked(b, job), es - {e.id})
  {
    hide Matches, UnackMatches, WaitMatches, NoEmptySlice, JobsMatch, QueuesKnown;
    hide ReadyExact, UnackExact, TotalLength, Heap.Pop, L.Oldest, L.HasBlocked;
    HasBlockedIff(b, es, job);
    var e := Heap.Pop(ByCreateIndex, b.blocked[job]).0;
    BlockedPopped(b.blocked, es, job);
    MatchStays(ReadyHeaps, b.ready, es, e.id, Absent);
    UnackStays(b.unack, es, e.id, Absent);
    WaitStays(b.timeWait, es, e.id, Absent);
    JobsStay(b.jobEvals, es, e.id, Absent);
    KnownStay(b.ready, b.ready, es, e.id, Absent);
    StatsSame(b.stats, PopBlocked(b, job).stats, b.ready, b.unack);
  }

  lemma AdmitReady(es: L.Entries, p: string, job: string)
    requires p in es && es[p].place == L.Blocked(job) && es[p].eval.jobId == job && !L.JobActive(es, job)
    ensures L.Admit(es - {p}, es[p].eval) == L.Ready(es[p].eval.typ)
  {
    AdmitWithout(es, p, es[p].eval);
  }

  ghost function PromotedEntries(b: B.Broker, es: L.Entries, job: string): L.Entries {
    if |Slice(b.blocked, job)| == 0 then es
    else
      var p := Heap.Pop(ByCreateIndex, b.blocked[job]).0.id;
      if p in es then es[p := es[p].(place := L.Ready(es[p].eval.typ))] else es
  }

  /** Ack's second part: the oldest blocked evaluation of the job becomes ready. */
  lemma PromoteAgrees(b: B.Broker, k: L.Book, job: string)
    requires Agrees(b, k) && b.enabled && !L.JobActive(k.entries, job)
    requires forall id :: id in k.entries ==>
               && k.entries[id].eval.id == id && id != ""
               && (k.entries[id].place.Blocked? ==> k.entries[id].place.job == k.entries[id].eval.jobId)
    ensures L.Promoted(k.entries, job, PromotedEntries(b, k.entries, job))
    ensures Agrees(B.Promote(b, job), k.(entries := PromotedEntries(b, k.entries, job)))
  {
    hide Placed, JobsMatch, QueuesKnown, L.Admit, L.Oldest, L.HasBlocked, Heap.Pop, B.EnqueueLocked;
    var es := k.entries;
    HasBlockedIff(b, es, job);
    if |Slice(b.blocked, job)| > 0 {
      var e := Heap.Pop(ByCreateIndex, b.blocked[job]).0;
      var en := es[e.id];
      var b1 := PopBlocked(b, job);
      LeaveBlocked(b, es, job);
      AdmitReady(es, e.id, job);
      Admitted(b1, es - {e.id}, e, en.count, en.fromType);
      EnqueueLockedFrame(b1, e, e.typ);
      assert (es - {e.id})[e.id := en.(place := L.Ready(e.typ))] == es[e.id := en.(place := L.Ready(e.typ))];
    }
  }

  lemma JobFree(es: L.Entries, id: string)
    requires L.Serialised(es) && id in es && es[id].Active()
    ensures !L.JobActive(es - {id}, es[id].eval.jobId)
  {
  }

  lemma AckOutcomeIff(b: B.Broker, k: L.Book, id: string, token: string)
    requires Agrees(b, k)
    ensures B.Lookup(b, id, token) == B.Done <==> L.HeldBy(k, id, token)
    ensures B.AckOutcome(b, id, token) == B.Done <==> L.CanAck(k, id, token)
    ensures L.HeldBy(k, id, token) ==> id in b.unack && b.unack[id].eval == k.entries[id].eval
  {
    hide Placed, JobsMatch, QueuesKnown;
    UnackLookup(b, k.entries, id);
  }

  /** The book after an Ack of the broker. */
  ghost function AckBook(b: B.Broker, k: L.Book, id: string, token: string): L.Book
    requires L.CanAck(k, id, token) ==> id in b.unack
  {
    if !L.CanAck(k, id, token) then k.(requeue := k.requeue - {token})
    else
      var es1 := k.entries - {id};
      var es2 := PromotedEntries(B.Settle(b, id), es1, k.entries[id].eval.jobId);
      L.TakeRequeued(k.(entries := es2), token)
  }

  lemma RequeueDropped(b: B.Broker, k: L.Book, token: string)
    requires Agrees(b, k)
    ensures Agrees(b.(requeue := b.requeue - {token}), k.(requeue := k.requeue - {token}))
  {
    hide Queued;
    QueuedSame(b, b.(requeue := b.requeue - {token}), k.entries);
  }

  lemma RequeueAgrees(b: B.Broker, k: L.Book, token: string)
    requires Agrees(b, k) && L.Inv(b.limit, k) && b.enabled
    ensures Agrees(B.Requeue(b, token), L.TakeRequeued(k, token))
  {
    hide Agrees, L.Enqueue, B.ProcessEnqueue;
    assert b.requeue == k.requeue by { AgreesRequeue(b, k); }
    if token in b.requeue {
      var e := b.requeue[token];
      EnqueueAgrees(b, k, e, "");
      RequeueDropped(B.ProcessEnqueue(b, e, ""), L.Enqueue(k, e, ""), token);
    } else {
      RequeueDropped(b, k, token);
    }
  }

  lemma AgreesRequeue(b: B.Broker, k: L.Book)
    requires Agrees(b, k)
    ensures b.requeue == k.requeue && b.enabled == k.enabled
  {
    hide Queued, CountsMatch;
  }

  /** Settling and promoting, in the book. */
  lemma SettlePromote(b: B.Broker, k: L.Book, id: string, token: string)
    requires Agrees(b, k) && L.Inv(b.limit, k) && b.limit >= 1 && L.CanAck(k, id, token) && id in b.unack
    ensures var job := k.entries[id].eval.jobId;
            var es2 := PromotedEntries(B.Settle(b, id), k.entries - {id}, job);
            && L.Promoted(k.entries - {id}, job, es2)
            && Agrees(B.Promote(B.Settle(b, id), job), k.(entries := es2))
            && L.Inv(b.limit, k.(entries := es2))
  {
    hide Queued, CountsMatch, L.Promoted, PromotedEntries, B.Promote, L.JobActive, L.Counted, L.NoStarvation;
    Settled(b, k, id);
    JobFree(k.entries, id);
    var job := k.entries[id].eval.jobId;
    PromoteAgrees(B.Settle(b, id), k.(entries := k.entries - {id}), job);
    L.PromotedKeeps(b.limit, k, id, PromotedEntries(B.Settle(b, id), k.entries - {id}, job));
  }

  lemma PromoteFrame(b: B.Broker, id: string, job: string)
    requires id in b.unack
    ensures var b' := B.Promote(B.Settle(b, id), job);
            b'.limit == b.limit && b'.enabled == b.enabled && b'.requeue == b.requeue
  {
    hide Heap.Pop, B.EnqueueLocked, B.DebitUnacked;
    var b1 := B.Settle(b, id);
    if |Slice(b1.blocked, job)| > 0 {
      var e := Heap.Pop(ByCreateIndex, b1.blocked[job]).0;
      EnqueueLockedFrame(PopBlocked(b1, job), e, e.typ);
    }
  }

  lemma AckEnabled(b: B.Broker, k: L.Book, id: string)
    requires Agrees(b, k) && L.Inv(b.limit, k) && id in k.entries
    ensures b.enabled
  {
    hide Queued, CountsMatch;
  }

  /** An Ack of the broker is an Ack of the book. */
  lemma AckAgrees(b: B.Broker, k: L.Book, id: string, token: string)
    requires Agrees(b, k) && L.Inv(b.limit, k) && b.limit >= 1
    ensures B.AckSafe(b, id, token)
    ensures L.CanAck(k, id, token) ==> id in b.unack
    ensures L.AckStep(k, id, token, AckBook(b, k, id, token))
    ensures Agrees(B.Ack(b, id, token), AckBook(b, k, id, token))
  {
    hide Agrees, L.CanAck, PromotedEntries, L.Promoted, L.TakeRequeued, B.Promote, B.Settle, B.Requeue, L.Inv;
    AckOutcomeIff(b, k, id, token);
    if L.CanAck(k, id, token) {
      AckQueueIsOrigin(b, k, id);
      SettlePromote(b, k, id, token);
      var job := k.entries[id].eval.jobId;
      PromoteFrame(b, id, job);
      assert b.enabled by { AckEnabled(b, k, id); }
      var es2 := PromotedEntries(B.Settle(b, id), k.entries - {id}, job);
      RequeueAgrees(B.Promote(B.Settle(b, id), job), k.(entries := es2), token);
    } else {
      RequeueDropped(b, k, token);
    }
  }

  lemma Nacked(b: B.Broker, k: L.Book, id: string, token: string, b1: B.Broker, q: string)
    requires Agrees(b, k) && L.HeldBy(k, id, token) && id in b.unack
    requires b1 == b.(requeue := b.requeue - {token}, unack := b.unack - {id},
                      stats := B.DebitUnacked(b.stats, b.unack[id].eval.typ))
    requires b.unack[id].eval == k.entries[id].eval && b.unack[id].eval.typ in b.stats.byScheduler
    requires k.entries[id].eval.id == id
    ensures var en := k.entries[id].(place := L.Ready(q));
            Queued(B.PushReady(b1, en.eval, q), k.entries[id := en])
  {
    hide Matches, UnackMatches, WaitMatches, NoEmptySlice, JobsMatch, QueuesKnown, StatsExact, Heap.Push;
    var es := k.entries;
    var en := es[id].(place := L.Ready(q));
    LeaveUnack(b, es, id, en.eval.typ, b1);
    PlacePush(b1, es - {id}, en, q);
    assert (es - {id})[id := en] == es[id := en];
    JobsMove(b.jobEvals, es, id, en);
    UnackLookup(b, es, id);
    assert en.eval.typ in b.ready by { ReadyKnown(b, en.eval.typ); }
    KnownStay(b.ready, B.PushReady(b1, en.eval, q).ready, es, id, Bound(en));
  }

  lemma ReadyKnown(b: B.Broker, q: string)
    requires StatsExact(b)
    ensures q in b.ready <==> q in b.stats.byScheduler
  {
  }

  /** A Nack of the broker is a Nack of the book. */
  lemma NackAgrees(b: B.Broker, k: L.Book, id: string, token: string)
    requires Agrees(b, k) && L.Inv(b.limit, k)
    ensures B.NackSafe(b, id, token)
    ensures Agrees(B.Nack(b, id, token), L.Nack(b.limit, k, id, token))
  {
    AckOutcomeIff(b, k, id, token);
    if L.HeldBy(k, id, token) {
      AckQueueIsOrigin(b, k, id);
      NackHeld(b, k, id, token);
    } else {
      RequeueDropped(b, k, token);
    }
  }

  lemma NackHeld(b: B.Broker, k: L.Book, id: string, token: string)
    requires Agrees(b, k) && L.Inv(b.limit, k) && L.HeldBy(k, id, token) && B.Lookup(b, id, token) == B.Done
    requires b.unack[id].eval == k.entries[id].eval && b.unack[id].eval.typ in b.stats.byScheduler
    ensures Agrees(B.Nack(b, id, token), L.Nack(b.limit, k, id, token))
  {
    hide Placed, JobsMatch, QueuesKnown, B.PushReady, B.DebitUnacked;
    hide L.Counted, L.Serialised, L.NoStarvation;
    var e := b.unack[id].eval;
    var q := B.NackQueue(b, id);
    var b1 := b.(requeue := b.requeue - {token}, unack := b.unack - {id},
                 stats := B.DebitUnacked(b.stats, e.typ));
    UnackLookup(b, k.entries, id);
    Nacked(b, k, id, token, b1, q);
    PushFrame(b1, e, q);
  }

  lemma UnackRearm(unack: map<string, B.Unack>, es: L.Entries, id: string, armed: bool)
    requires UnackMatches(unack, es) && id in unack
    ensures id in es && es[id].place.Outstanding?
    ensures UnackMatches(unack[id := unack[id].(armed := armed)],
                         es[id := es[id].(place := es[id].place.(armed := armed))])
    ensures |unack[id := unack[id].(armed := armed)]| == |unack|
  {
    assert unack[id := unack[id].(armed := armed)].Keys == unack.Keys;
  }

  lemma SetArmedHeld(b: B.Broker, es: L.Entries, id: string, armed: bool)
    requires Queued(b, es) && id in b.unack
    ensures id in es && es[id].place.Outstanding?
    ensures Queued(B.SetArmed(b, id, armed), es[id := es[id].(place := es[id].place.(armed := armed))])
  {
    hide Matches, UnackMatches, WaitMatches, NoEmptySlice, JobsMatch, QueuesKnown, ReadyExact;
    UnackLookup(b, es, id);
    UnackRearm(b.unack, es, id, armed);
    var en := es[id].(place := es[id].place.(armed := armed));
    MatchStays(ReadyHeaps, b.ready, es, id, Bound(en));
    MatchStays(BlockedHeaps, b.blocked, es, id, Bound(en));
    WaitStays(b.timeWait, es, id, Bound(en));
    JobsMove(b.jobEvals, es, id, en);
    ReadyKnown(b, en.eval.typ);
    ReadyKnown(b, en.place.from);
    KnownStay(b.ready, b.ready, es, id, Bound(en));
  }

  lemma SetArmedAgrees(b: B.Broker, k: L.Book, id: string, armed: bool)
    requires Agrees(b, k)
    ensures Agrees(B.SetArmed(b, id, armed), L.SetArmed(k, id, armed))
  {
    hide Placed, JobsMatch, QueuesKnown;
    UnackLookup(b, k.entries, id);
    if id in b.unack {
      SetArmedHeld(b, k.entries, id, armed);
    }
  }

  lemma EmptyAgrees(b: B.Broker, k: L.Book)
    requires b == B.Flush(b) && b.enabled == k.enabled && b.requeue == k.requeue && k.entries == map[]
    ensures Agrees(b, k)
  {
    assert UnackedOf(b.stats.byScheduler) == map[];
  }

  lemma SetEnabledAgrees(b: B.Broker, k: L.Book, enabled: bool)
    requires Agrees(b, k)
    ensures Agrees(B.SetEnabled(b, enabled), L.SetEnabled(k, enabled))
  {
    hide Queued;
    if enabled {
      QueuedSame(b, B.SetEnabled(b, enabled), k.entries);
    } else {
      EmptyAgrees(B.SetEnabled(b, enabled), L.SetEnabled(k, enabled));
    }
  }
}
