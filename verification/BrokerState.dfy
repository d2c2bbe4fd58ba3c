/** The evaluation broker as values: its maps, heaps and counters, and one function for
    every critical section of internal/server/eval_broker.go. These functions are the
    specification of the methods of class EvalBroker and the subject of the invariants.

    A Nack timer is reduced to whether it is armed: Stop reports that bit and clears it,
    Reset reports it and sets it. A wait timer is the evaluation its callback holds. Tokens
    are drawn outside and passed in. The wake-up channels are left out. */
module BrokerState {
  import opened Evaluations
  import Heap

  datatype SchedulerStats = SchedulerStats(ready: int, unacked: int)

  datatype Stats = Stats(
    totalReady: int,
    totalUnacked: int,
    totalBlocked: int,
    totalWaiting: int,
    byScheduler: map<string, SchedulerStats>)

  /** An un-acknowledged delivery. */
  datatype Unack = Unack(eval: Evaluation, token: string, armed: bool)

  datatype Broker = Broker(
    limit: int,
    enabled: bool,
    stats: Stats,
    evals: map<string, int>,
    jobEvals: map<string, string>,
    blocked: map<string, seq<Evaluation>>,
    ready: map<string, seq<Evaluation>>,
    unack: map<string, Unack>,
    requeue: map<string, Evaluation>,
    timeWait: map<string, Evaluation>)

  datatype Outcome = Done | NotFound | TokenMismatch | TimerExpired

  const NO_STATS := Stats(0, 0, 0, 0, map[])

  function New(limit: int): Broker {
    Broker(limit, false, NO_STATS, map[], map[], map[], map[], map[], map[], map[])
  }

  function SchedStats(stats: Stats, queue: string): SchedulerStats {
    if queue in stats.byScheduler then stats.byScheduler[queue] else SchedulerStats(0, 0)
  }

  /** The delivery counter; a missing entry reads as zero. */
  function Count(b: Broker, id: string): int {
    if id in b.evals then b.evals[id] else 0
  }

  // ---- enqueueing ------------------------------------------------------------------

  function PushReady(b: Broker, e: Evaluation, queue: string): Broker {
    var s := SchedStats(b.stats, queue);
    b.(ready := b.ready[queue := Heap.Push(ByCreateIndex, Slice(b.ready, queue), e)],
       stats := b.stats.(totalReady := b.stats.totalReady + 1,
                         byScheduler := b.stats.byScheduler[queue := s.(ready := s.ready + 1)]))
  }

  function PushBlocked(b: Broker, e: Evaluation): Broker {
    b.(blocked := b.blocked[e.jobId := Heap.Push(ByCreateIndex, Slice(b.blocked, e.jobId), e)],
       stats := b.stats.(totalBlocked := b.stats.totalBlocked + 1))
  }

  /** Make the evaluation ready, unless another evaluation of its job is pending. */
  function EnqueueLocked(b: Broker, e: Evaluation, queue: string): Broker {
    if !b.enabled then b
    else
      var pending := if e.jobId in b.jobEvals then b.jobEvals[e.jobId] else "";
      if pending == "" then PushReady(b.(jobEvals := b.jobEvals[e.jobId := e.id]), e, queue)
      else if pending != e.id then PushBlocked(b, e)
      else PushReady(b, e, queue)
  }

  function AddWaiting(b: Broker, e: Evaluation): Broker {
    b.(timeWait := b.timeWait[e.id := e],
       stats := b.stats.(totalWaiting := b.stats.totalWaiting + 1))
  }

  /** Deduplicate by ID; a matching token stores the evaluation for re-enqueueing on Ack. */
  function ProcessEnqueue(b: Broker, e: Evaluation, token: string): Broker {
    if e.id in b.evals then
      if token != "" && e.id in b.unack && b.unack[e.id].token == token
      then b.(requeue := b.requeue[token := e])
      else b
    else
      var b1 := if b.enabled then b.(evals := b.evals[e.id := 0]) else b;
      if e.wait > 0 then AddWaiting(b1, e) else EnqueueLocked(b1, e, e.typ)
  }

  /** EnqueueAll ranges over a Go map, so over its pairs in some order. */
  function EnqueueAll(b: Broker, pairs: seq<(Evaluation, string)>): Broker
    decreases |pairs|
  {
    if pairs == [] then b
    else
      var last := |pairs| - 1;
      ProcessEnqueue(EnqueueAll(b, pairs[..last]), pairs[last].0, pairs[last].1)
  }

  /** The callback of a wait timer. */
  function EnqueueWaiting(b: Broker, e: Evaluation): Broker {
    EnqueueLocked(b.(timeWait := b.timeWait - {e.id},
                     stats := b.stats.(totalWaiting := b.stats.totalWaiting - 1)), e, e.typ)
  }

  // ---- delivery --------------------------------------------------------------------

  function HasWork(b: Broker, sched: string): bool {
    |Slice(b.ready, sched)| > 0
  }

  /** The scheduler queues that a scan finds work in, in the order asked for. */
  function Eligible(b: Broker, schedulers: seq<string>): (r: seq<string>)
    ensures forall q :: q in r <==> q in schedulers && HasWork(b, q)
    decreases |schedulers|
  {
    if schedulers == [] then []
    else
      var last := |schedulers| - 1;
      var r := Eligible(b, schedulers[..last]);
      assert schedulers == schedulers[..last] + [schedulers[last]];
      if HasWork(b, schedulers[last]) then r + [schedulers[last]] else r
  }

  function NextFor(b: Broker, sched: string): Evaluation
    requires HasWork(b, sched)
  {
    Heap.Pop(ByCreateIndex, b.ready[sched]).0
  }

  /** A dequeue dereferences the statistics of its queue; a missing entry panics. */
  ghost predicate DequeueSafe(b: Broker, sched: string) {
    HasWork(b, sched) ==> sched in b.stats.byScheduler
  }

  function DequeueFor(b: Broker, sched: string, token: string): Broker
    requires HasWork(b, sched)
  {
    var (e, rest) := Heap.Pop(ByCreateIndex, b.ready[sched]);
    var s := SchedStats(b.stats, sched);
    b.(ready := b.ready[sched := rest],
       unack := b.unack[e.id := Unack(e, token, true)],
       evals := b.evals[e.id := Count(b, e.id) + 1],
       stats := b.stats.(totalReady := b.stats.totalReady - 1,
                         totalUnacked := b.stats.totalUnacked + 1,
                         byScheduler := b.stats.byScheduler[sched :=
                           SchedulerStats(s.ready - 1, s.unacked + 1)]))
  }

  // ---- acknowledgement -------------------------------------------------------------

  function Lookup(b: Broker, id: string, token: string): Outcome {
    if id !in b.unack then NotFound
    else if b.unack[id].token != token then TokenMismatch
    else Done
  }

  /** Ack also has to stop the Nack timer. */
  function AckOutcome(b: Broker, id: string, token: string): Outcome {
    var o := Lookup(b, id, token);
    if o == Done && !b.unack[id].armed then TimerExpired else o
  }

  /** The queue whose Unacked counter Ack debits. */
  function AckQueue(b: Broker, id: string): string
    requires id in b.unack
  {
    if Count(b, id) > b.limit then FAILED_QUEUE else b.unack[id].eval.typ
  }

  /** Ack and Nack dereference the statistics of a queue; a missing entry panics. */
  ghost predicate AckSafe(b: Broker, id: string, token: string) {
    AckOutcome(b, id, token) == Done ==> AckQueue(b, id) in b.stats.byScheduler
  }

  ghost predicate NackSafe(b: Broker, id: string, token: string) {
    Lookup(b, id, token) == Done ==> b.unack[id].eval.typ in b.stats.byScheduler
  }

  function DebitUnacked(stats: Stats, queue: string): Stats {
    var s := SchedStats(stats, queue);
    stats.(totalUnacked := stats.totalUnacked - 1,
           byScheduler := stats.byScheduler[queue := s.(unacked := s.unacked - 1)])
  }

  /** Take the delivery off the broker. */
  function Settle(b: Broker, id: string): Broker
    requires id in b.unack
  {
    b.(stats := DebitUnacked(b.stats, AckQueue(b, id)),
       unack := b.unack - {id},
       evals := b.evals - {id},
       jobEvals := b.jobEvals - {b.unack[id].eval.jobId})
  }

  /** Make the oldest blocked evaluation of a job ready. */
  function Promote(b: Broker, job: string): Broker {
    if |Slice(b.blocked, job)| == 0 then b
    else
      var (e, rest) := Heap.Pop(ByCreateIndex, b.blocked[job]);
      EnqueueLocked(
        b.(blocked := if |rest| > 0 then b.blocked[job := rest] else b.blocked - {job},
           stats := b.stats.(totalBlocked := b.stats.totalBlocked - 1)), e, e.typ)
  }

  function Requeue(b: Broker, token: string): Broker {
    var b1 := if token in b.requeue then ProcessEnqueue(b, b.requeue[token], "") else b;
    b1.(requeue := b1.requeue - {token})
  }

  function Ack(b: Broker, id: string, token: string): Broker {
    if AckOutcome(b, id, token) != Done then b.(requeue := b.requeue - {token})
    else Requeue(Promote(Settle(b, id), b.unack[id].eval.jobId), token)
  }

  function NackQueue(b: Broker, id: string): string
    requires id in b.unack
  {
    if Count(b, id) >= b.limit then FAILED_QUEUE else b.unack[id].eval.typ
  }

  function Nack(b: Broker, id: string, token: string): Broker {
    var b1 := b.(requeue := b.requeue - {token});
    if Lookup(b, id, token) != Done then b1
    else
      var e := b.unack[id].eval;
      EnqueueLocked(b1.(unack := b.unack - {id}, stats := DebitUnacked(b.stats, e.typ)),
                    e, NackQueue(b, id))
  }

  // ---- Nack timers -----------------------------------------------------------------

  function SetArmed(b: Broker, id: string, armed: bool): Broker {
    if id in b.unack then b.(unack := b.unack[id := b.unack[id].(armed := armed)]) else b
  }

  /** A Nack timer runs out. Its callback, a Nack, runs later. */
  function TimerFires(b: Broker, id: string): Broker {
    SetArmed(b, id, false)
  }

  /** Stop the timer; fails when it was not armed. */
  function PauseNackTimeout(b: Broker, id: string, token: string): Broker {
    if Lookup(b, id, token) != Done then b else SetArmed(b, id, false)
  }

  /** Arm the timer again, whatever its state. */
  function ResumeNackTimeout(b: Broker, id: string, token: string): Broker {
    if Lookup(b, id, token) != Done then b else SetArmed(b, id, true)
  }

  // ---- leadership ------------------------------------------------------------------

  /** Everything but the requeue map and the configuration is cleared. */
  function Flush(b: Broker): Broker {
    b.(stats := NO_STATS, evals := map[], jobEvals := map[], blocked := map[], ready := map[],
       unack := map[], timeWait := map[])
  }

  /** Disabling flushes; the two critical sections are taken as one step. */
  function SetEnabled(b: Broker, enabled: bool): Broker {
    var b1 := b.(enabled := enabled);
    if enabled then b1 else Flush(b1)
  }
}
