# The scheduling core of a dtle server, modelled and proved in Dafny

A dtle leader keeps its scheduling state in a handful of lock-protected structures. This
project models them and proves what they keep over every run. One critical section is one
step; timers, channel sends, worker replies and Raft answers are steps of their own, taken in
any order.

- Evaluation broker: Evaluations, Heap, Sums, BrokerState, BrokerLedger, BrokerRefinement,
  BrokerRuns, BrokerTheorems, BrokerOutcomes, BrokerConditions, BrokerLimits, BrokerGap,
  EvalBroker.
- Blocked evaluations, and both together: BlockedState, BlockedTheorems, BlockedRuns,
  BlockedOutcomes, BlockedEvals, Reblocking, LostReblock.
- Plan evaluation, plan queue and planApply: Plans, PlanEvaluation, PlanPipeline, PlanAnswers,
  PlanRuns, PlanOutcomes, PlanQueue.
- Time table: TimeTables. Allocation lists and class eligibility: Allocations, Eligibility.
- Batching of client updates: UpdateBatches. Printers and parsers: Text, LoadMaps, InstanceKeys.

`dafny verify dfyconfig.toml` checks everything.

## How the model is built

State that the server updates in place is a class (`EvalBroker`, `BlockedEvals`,
`EvaluatePool`, `PlanQueue`, `TimeTable`, `Node`, `InstanceKeyMap`). The methods of the
stateful ones are proved against functions on the values of their fields, and the theorems
over runs are about those functions; `PlanQueue` holds futures, so its methods are tied to the
steps of `PlanPipeline` by the predicate `Shows`. `EvaluatePlan` is proved against the
sequential function `Plans.Evaluate`.

The broker has a second description, the ledger of `BrokerLedger`: one entry per evaluation
that says where it is. It has no heaps, no per-job table and no counters, so an evaluation
cannot be in two places of it. `BrokerRefinement` shows that every step of the eight maps,
the heaps and the counters is a step of the ledger; the theorems then follow for every run.
`Reblocking` runs broker and blocked tracker side by side.

The three `Outcomes` modules say what each call does without naming the function that does it:
which heap an evaluation moves to, which evaluations an unblock hands over, which step answers a
plan and with what. With `Plans.CommitsExactly` and `Plans.FailsExactly` they fix the specification
functions themselves.

`PlanEvaluation` writes Go's `select` as a nondeterministic choice and the pool's workers as
further choices, so one proof covers every schedule, and a state in which nothing is ready
would be an error. `PlanPipeline` allows any number of planApply loops, because a loop of an
earlier leadership may still be finishing when the next one starts.

## What the code relies on

Hypotheses of the runs that the code does not check. For each there is the exact condition
under which the code keeps its promise, and an input on which it fails.

- Evaluations have a non-empty ID (`SerialisedIffNamed`) and a type other than `_failed`
  (`TypeLimitExact`, `RoundsDeliver`).
- The delivery limit is at least one: with a smaller one the Ack of a first delivery
  dereferences a missing statistic (`LimitExact`, `NoLimitPanics`).
- A wait callback runs for a registered timer, and an evaluation with a wait is offered to an
  enabled broker, by the tracker too. Followers do offer such evaluations to a disabled
  broker, and then one can become ready twice (`WaitCallbackExact`, `DisabledEnqueueExact`,
  `WaitWhileDisabledDuplicates`).
- Callers pair a delivery token with its own evaluation, and tokens are not drawn twice
  (`MispairedCallLoses`, `MispairedCallCanLose`). The broker's own theorems need neither: Ack
  and Nack take any arguments there.
- An ID determines its job, for the blocked tracker only (`BlockKeepsExact`,
  `TrackTwiceBreaks`), and the indexes of one class do not decrease (`RecordExact`,
  `DecreasingIndexMisses`).
- The granularity of a time table is positive (`DescendingExact`, `RestoreExact`).

Two things are one step of the model and two critical sections of the source: disabling and
flushing the broker, and disabling and flushing the tracker. What runs in between does no harm
(`BrokerGap.GapHarmless`, `BlockedRuns.GapHarmless`), as long as the broker is not switched on
again before the flush. The loops of two leaderships are separate goroutines, so that can
happen; an Ack in between then leaves an evaluation tracked that is nowhere
(`SwitchedOnInGapLoses`), until the late flush puts the state in order (`FlushRestores`).

What the model takes for granted: delivery tokens are not the empty string, and a clock reading
is an exact integer.

Where the code and its comments differ, the model follows the code: heaps order evaluations by
CreateIndex alone and plans by enqueue time alone, not by priority; `Peek` reads the last slot
and is used only to see whether a heap is empty; the `break` inside evaluatePlan's `select`
does not leave the loop, so an error does not stop the sending of further nodes; Nack always
debits the type queue, so the counters of the single queues drift (`UnackedDrift`); and a failed
Ack or Nack still deletes the copy stored under its token, so a reblocked evaluation can be
lost by a repeated Ack (`RepeatedAckLoses`, `ReblockCanBeLost`).

## Model

| member | source | states |
|---|---|---|
| `BrokerTheorems.Conservation` | internal/server/eval_broker.go:177-263 | After every run, an ID is in `evals` exactly when it occurs at some position of a ready heap, a blocked heap, `unack` or `timeWait`, and it occurs at one position only |
| `BrokerTheorems.LeavesByAckOrFlush` | internal/server/eval_broker.go:463-519 | An ID that a step takes out of `evals` left by a successful Ack of its own delivery, or because the broker was disabled |
| `BrokerTheorems.JobSerialisation` | internal/server/eval_broker.go:218-247 | After every run `jobEvals` names exactly the ready or outstanding evaluations, so a job has at most one, and a job with blocked evaluations has one |
| `BrokerTheorems.AckPromotesOldest` | internal/server/eval_broker.go:495-511 | A successful Ack in a job with blocked evaluations makes the one with the smallest CreateIndex ready and names it in `jobEvals` |
| `BrokerTheorems.BookAckPromotes` | internal/server/eval_broker.go:500-511 | The same on the reference machine: the entry promoted is an oldest blocked one of the job and keeps its counters |
| `BrokerTheorems.CountersExact` | internal/server/eval_broker.go:200-256 | After every run TotalReady, TotalBlocked, TotalUnacked and TotalWaiting are the sizes of their structures, each queue's Ready is its heap's length, and the per-queue Unacked add up to the size of `unack` |
| `BrokerTheorems.DeliveryLimit` | internal/server/eval_broker.go:356-389 | Over every run an evaluation is delivered from its type queue at most `deliveryLimit` times between acceptance and Ack; the delivery counter fits the place of every waiting, blocked, ready or outstanding evaluation; and the queue that Ack debits is the one the delivery was taken from |
| `BrokerTheorems.HistoryIsReal` | internal/server/eval_broker.go:356-389 | The ghost delivery counts and origins of the reference machine are those of the run itself, counted from its Dequeue steps |
| `BrokerTheorems.CounterTellsQueue` | internal/server/eval_broker.go:486-493 | An outstanding delivery came from the failed queue exactly when its count exceeds the limit |
| `BrokerTheorems.BookLeaves` | internal/server/eval_broker.go:463-519 | In the reference machine nothing but a successful Ack of the entry itself or a flush removes an entry |
| `BrokerTheorems.EntryKept` | internal/server/eval_broker.go:463-558 | A step other than its own delivery leaves an entry's counts, token and origin alone, or the entry is fresh with counts of zero |
| `BrokerRuns.RunRefines` | internal/server/eval_broker.go:146-627 | Along every run, with any interleaving, each step of the broker is that step of the reference machine, which keeps one entry per evaluation and has no heaps, job table or counters |
| `BrokerRuns.StepRefines` | internal/server/eval_broker.go:146-627 | One step from any state that the reference machine vouches for: same step, invariant kept, and Ack, Nack and Dequeue find the statistics they dereference |
| `BrokerRuns.BookStepKeeps` | internal/server/eval_broker.go:146-627 | Every step of the reference machine keeps serialisation, the absence of starvation and the link between delivery counter and queue |
| `BrokerRuns.BookAfter` | internal/server/eval_broker.go:105-125 | The reference state that accompanies a run vouches for the broker's state after it |
| `BrokerRefinement.EnqueueAgrees` | internal/server/eval_broker.go:177-206 | Accepting, deduplicating, or storing for requeue under the token matches the reference step, for every evaluation and token |
| `BrokerRefinement.WaitElapsedAgrees` | internal/server/eval_broker.go:209-215 | A registered wait timer moves its evaluation to ready or blocked, as the reference step does |
| `BrokerRefinement.DequeueAgrees` | internal/server/eval_broker.go:356-389 | A dequeue delivers an oldest ready entry of that queue |
| `BrokerRefinement.AckAgrees` | internal/server/eval_broker.go:463-519 | Ack removes the delivery, promotes an oldest blocked evaluation and re-enqueues the stored copy, and is safe to call with any arguments |
| `BrokerRefinement.AckOutcomeIff` | internal/server/eval_broker.go:472-484 | Ack succeeds exactly when the reference machine holds an armed delivery of that evaluation under that token |
| `BrokerRefinement.AckQueueIsOrigin` | internal/server/eval_broker.go:486-493 | The queue Ack debits is the queue the delivery came from |
| `BrokerRefinement.NackAgrees` | internal/server/eval_broker.go:522-558 | Nack puts a held delivery back into its type queue or the failed queue, and is safe to call with any arguments |
| `BrokerRefinement.PromoteAgrees` | internal/server/eval_broker.go:500-511 | Popping a job's blocked heap is promoting an oldest blocked entry |
| `BrokerRefinement.SetArmedAgrees` | internal/server/eval_broker.go:562-592 | Pausing, resuming or firing a Nack timer touches nothing but the delivery's armed bit |
| `BrokerRefinement.SetEnabledAgrees` | internal/server/eval_broker.go:595-627 | Disabling and its flush empty the reference machine, and leave `requeue` as it was |
| `BrokerRefinement.PopIsOldest` | internal/server/eval_broker.go:687-725 | The element popped from a heap is an entry of that place with the smallest CreateIndex |
| `BrokerLedger.EnqueueKeeps` | internal/server/eval_broker.go:177-263 | Accepting an evaluation keeps the reference invariant |
| `BrokerLedger.WaitElapsedKeeps` | internal/server/eval_broker.go:209-215 | The end of a wait keeps the reference invariant |
| `BrokerLedger.DeliverKeeps` | internal/server/eval_broker.go:356-389 | A delivery keeps the reference invariant; the counter goes up by one |
| `BrokerLedger.AckKeeps` | internal/server/eval_broker.go:463-519 | An Ack, with promotion and requeue, keeps the reference invariant |
| `BrokerLedger.NackKeeps` | internal/server/eval_broker.go:522-558 | A Nack keeps the reference invariant: the counter decides between the type and the failed queue |
| `BrokerLedger.PromotedKeeps` | internal/server/eval_broker.go:495-511 | Taking the job's active evaluation away and promoting an oldest blocked one keeps serialisation and leaves nobody starving |
| `BrokerConditions.WaitCallbackExact` | internal/server/eval_broker.go:209-215 | The unguarded wait callback, for any evaluation: it leaves a state that some reference state vouches for if and only if a timer of that ID is registered and the type is not that of the failed queue; and it is the reference step if and only if its evaluation is the registered one |
| `BrokerConditions.DisabledEnqueueExact` | internal/server/eval_broker.go:177-206 | An enqueue on a disabled broker leaves such a state if and only if the evaluation carries no wait |
| `BrokerConditions.WaitWhileDisabledDuplicates` | internal/server/eval_broker.go:195-215 | A concrete failing run: an evaluation with a wait, offered while disabled and again by the new leader, ends up in the ready heap twice with TotalWaiting wrong |
| `BrokerConditions.LimitExact` | internal/server/eval_broker.go:486-493 | No run makes Ack dereference missing statistics if and only if `deliveryLimit` is at least one |
| `BrokerConditions.NoLimitPanics` | internal/server/eval_broker.go:486-493 | With a limit below one, the Ack of a first delivery does |
| `BrokerConditions.FirstDeliveryRuns` | internal/server/eval_broker.go:356-389 | A concrete run, for every limit, after which an evaluation is outstanding and its Ack would succeed |
| `BrokerConditions.SerialisedIffNamed` | internal/server/eval_broker.go:218-234 | Of two new evaluations of a free job, the second is blocked if and only if the first has a non-empty ID |
| `BrokerConditions.NackDriftExact` | internal/server/eval_broker.go:545-548 | Per-queue Unacked counters stay exact across a Nack if and only if the delivery's count has not passed the limit |
| `BrokerConditions.NackStats` | internal/server/eval_broker.go:545-548 | Nack debits the type queue, whatever queue the delivery came from |
| `BrokerLimits.UnackedDrift` | internal/server/eval_broker.go:381-386 | After every run, for every queue, Unacked is the number of outstanding deliveries that the run took from the queue, off by the late Nacks since the last flush: plus one on the failed queue and minus one on the type queue for each |
| `BrokerLimits.UnackedExactIff` | internal/server/eval_broker.go:545-548 | After every run all per-queue Unacked counters are exact if and only if no delivery made past the limit was nacked since the last flush |
| `BrokerLimits.CountersDrift` | internal/server/eval_broker.go:545-548 | A concrete run under a limit of one: with nothing outstanding the type queue reads minus one and the failed queue one |
| `BrokerLimits.StepShifts` | internal/server/eval_broker.go:356-558 | No step but a late Nack changes the error of a counter, and a flush clears it |
| `BrokerLimits.TypeLimitExact` | internal/server/eval_broker.go:550-556 | For any evaluation with an ID: the bound on deliveries from its type queue holds in every run that accepts it if and only if its type is not that of the failed queue |
| `BrokerLimits.RoundsDeliver` | internal/server/eval_broker.go:550-556 | An evaluation of the failed queue's type is delivered from its type queue as often as one likes |
| `BrokerGap.GapHarmless` | internal/server/eval_broker.go:136-143 | Whatever runs between the switch and the flush of SetEnabled finds its statistics, and after the flush the broker is as one step would have left it, up to the copies stored for requeue |
| `BrokerGap.SwitchedOnInGapLoses` | internal/server/eval_broker.go:136-143 | Switched off, acknowledged and switched on again before the flush, the broker has lost the evaluation the Ack should have promoted: it is in `evals` and in no structure |
| `BrokerGap.SecondBlocked` | internal/server/eval_broker.go:218-234 | A run, for every limit, to the state this starts from: one evaluation outstanding, another of its job blocked |
| `BrokerGap.FlushRestores` | internal/server/eval_broker.go:595-627 | A flush puts any state in order, switched on or off |
| `BrokerOutcomes.HasWorkIff` | internal/server/eval_broker.go:303-352 | A scan finds work in a queue exactly when the queue's heap is there and not empty |
| `BrokerOutcomes.ReadyIsDelivered` | internal/server/eval_broker.go:303-389 | After every run whatever is ready can be dequeued from its queue, and the dequeue takes an evaluation of that queue with the smallest CreateIndex |
| `BrokerOutcomes.BusyIff` | internal/server/eval_broker.go:218-234 | After every run `jobEvals` names a job exactly when one of its evaluations is ready or outstanding, and never with the empty ID |
| `BrokerOutcomes.AcceptOutcome` | internal/server/eval_broker.go:177-263 | After every run a new evaluation gets the count zero; it joins the timers if it carries a wait, else the ready heap of its type if no evaluation of its job is ready or outstanding, else its job's blocked heap; contents of the heaps stated |
| `BrokerOutcomes.DuplicateOutcome` | internal/server/eval_broker.go:177-193 | A tracked evaluation changes nothing but the stored copies, and those exactly when it comes with the token of its outstanding delivery |
| `BrokerOutcomes.DisabledOutcome` | internal/server/eval_broker.go:177-226 | A disabled broker takes nothing, save the registration of a wait |
| `BrokerOutcomes.WaitOutcome` | internal/server/eval_broker.go:209-263 | After every run the end of a wait takes the evaluation off the timers and makes it ready, or blocked if its job is busy |
| `BrokerOutcomes.DequeueOutcome` | internal/server/eval_broker.go:356-389 | After every run a delivery takes its evaluation from that one heap, makes it outstanding under the token with its timer armed, counts it, and touches nothing else |
| `BrokerOutcomes.OutcomeIff` | internal/server/eval_broker.go:471-484 | The refusals of Ack and Nack, each exactly: not outstanding, another token, and for Ack a timer that is not armed |
| `BrokerOutcomes.RefusalOutcome` | internal/server/eval_broker.go:463-484 | A refused Ack or Nack changes nothing but the copy under its token, which it drops |
| `BrokerOutcomes.NackOutcome` | internal/server/eval_broker.go:522-558 | After every run a Nack makes its evaluation ready again, in `_failed` exactly when its count has reached the limit, with its count and its job's claim as they were |
| `BrokerOutcomes.AckContents` | internal/server/eval_broker.go:486-519 | An Ack without a stored copy removes its evaluation; its job is then free, or named after the one evaluation that moved from its blocked heap to the ready heap of its type |
| `BrokerOutcomes.AckThenEnqueue` | internal/server/eval_broker.go:512-517 | An Ack with a stored copy is the Ack without it followed by the enqueue of that copy, in every state |
| `BrokerOutcomes.TimerOutcome` | internal/server/eval_broker.go:562-592 | Pause stops and resume arms the timer of the delivery named, and a timer that runs out is stopped; nothing else changes |
| `BrokerOutcomes.SwitchOutcome` | internal/server/eval_broker.go:136-143 | Disabling leaves a new broker with the stored copies, enabling changes the switch alone |
| `Heap.PopTakesMin` | internal/server/eval_broker.go:687-725 | Popping a heap returns a minimum of its contents and leaves a heap |
| `Heap.PushKeepsHeap` | internal/server/eval_broker.go:687-725 | Pushing keeps heap order |
| `Heap.Push` | internal/server/eval_broker.go:704-707 | The contents are the old ones and the new element |
| `Heap.Pop` | internal/server/eval_broker.go:709-716 | The contents are the old ones without the element returned |
| `Heap.RootIsMin` | internal/server/plan_queue.go:228-234 | In heap order the first slot is a minimum |
| `Heap.PushMapped` | internal/server/plan_queue.go:240-244 | Pushing commutes with replacing the elements by stand-ins of the same key |
| `Heap.PopMapped` | internal/server/plan_queue.go:246-253 | So does popping |
| `EvalBrokers.EvalBroker.constructor` | internal/server/eval_broker.go:105-125 | A new broker is empty and disabled, and vouched for if and only if the limit is at least one |
| `EvalBrokers.EvalBroker.Enqueue` | internal/server/eval_broker.go:146-150 | The maps become those of the specification step, for any evaluation; when the broker's hypotheses hold of it, that step is the reference machine's |
| `EvalBrokers.EvalBroker.EnqueueAll` | internal/server/eval_broker.go:162-171 | The offers are processed one after the other, in the order the map yields; the broker stays vouched for when the hypotheses hold of them |
| `EvalBrokers.EvalBroker.ProcessEnqueue` | internal/server/eval_broker.go:177-206 | Deduplication, requeue under a matching token, wait or immediate enqueue |
| `EvalBrokers.EvalBroker.EnqueueLocked` | internal/server/eval_broker.go:218-263 | Ready if the job is free or names this evaluation, else blocked; counters with it |
| `EvalBrokers.EvalBroker.EnqueueWaiting` | internal/server/eval_broker.go:209-215 | The wait callback, registered or stale; when it is registered, that step is the reference machine's |
| `EvalBrokers.EvalBroker.ScanForSchedulers` | internal/server/eval_broker.go:303-352 | Reports a disabled broker; no work exactly when the heap of every asked-for queue is missing or empty; else delivers an evaluation with the smallest CreateIndex of the heap of an asked-for queue |
| `EvalBrokers.EvalBroker.DequeueForSched` | internal/server/eval_broker.go:356-389 | Delivers the heap's minimum under the new token and arms its timer |
| `EvalBrokers.EvalBroker.Outstanding` | internal/server/eval_broker.go:434-442 | The token of an outstanding evaluation, if it is outstanding |
| `EvalBrokers.EvalBroker.OutstandingReset` | internal/server/eval_broker.go:446-460 | Arms the timer again even when it reports that the timer had expired |
| `EvalBrokers.EvalBroker.Ack` | internal/server/eval_broker.go:463-519 | Outcome and new state are the specification's, for any ID and token, without a missing statistic |
| `EvalBrokers.EvalBroker.Nack` | internal/server/eval_broker.go:522-558 | Outcome and new state are the specification's, for any ID and token, without a missing statistic |
| `EvalBrokers.EvalBroker.PauseNackTimeout` | internal/server/eval_broker.go:562-576 | Stops the timer of the delivery named; fails if it was not armed |
| `EvalBrokers.EvalBroker.ResumeNackTimeout` | internal/server/eval_broker.go:580-592 | Arms the timer of the delivery named, whatever its state |
| `EvalBrokers.EvalBroker.SetEnabled` | internal/server/eval_broker.go:136-143 | Switches the broker, flushing it when disabled |
| `EvalBrokers.EvalBroker.Flush` | internal/server/eval_broker.go:595-627 | Everything is cleared except `requeue`, the limit and the switch |
| `BlockedRuns.NoMissedUnblock` | internal/server/blocked_evals.go:154-252 | In every reachable state, whatever the interleaving of Block, record, send, take and process: if a recorded unblock above its snapshot concerns a tracked evaluation, an update of that class is unsent, queued or taken, and processing it releases the evaluation |
| `BlockedRuns.NothingLost` | internal/server/blocked_evals.go:154-214 | Every evaluation blocked while enabled is in exactly one place: tracked, a duplicate, handed to the broker, untracked, cancelled as a duplicate, or flushed |
| `BlockedRuns.AlwaysIndexed` | internal/server/blocked_evals.go:154-214 | In every reachable state `captured` and `escaped` are disjoint, `jobs` maps each job to its one tracked evaluation and nothing else, and the counters are the map sizes |
| `BlockedRuns.StepKeeps` | internal/server/blocked_evals.go:119-459 | Every step keeps the index and keeps every passed-by evaluation covered by a coming update |
| `BlockedRuns.StepBalanced` | internal/server/blocked_evals.go:154-459 | No step loses or invents a blocked evaluation |
| `BlockedRuns.UnblockReleases` | internal/server/blocked_evals.go:327-375 | An unblock releases a tracked evaluation exactly unless it is not escaped and marked the class ineligible |
| `BlockedOutcomes.BlockOutcome` | internal/server/blocked_evals.go:154-252 | After every run, an evaluation blocked while its job is free is handed straight to the broker if and only if some unblock recorded in the run is above its snapshot and of a class it did not mark ineligible, or of any class if it escaped; otherwise it is tracked under its token |
| `BlockedOutcomes.DuplicateOutcome` | internal/server/blocked_evals.go:162-177 | A second evaluation of a blocked job becomes the last duplicate, and nothing else changes |
| `BlockedOutcomes.UnblockOutcome` | internal/server/blocked_evals.go:327-375 | unblock hands over exactly the tracked evaluations it does not keep, each under its token: the escaped ones, and those that did not mark the class ineligible |
| `BlockedOutcomes.FailedOutcome` | internal/server/blocked_evals.go:379-410 | UnblockFailed hands over exactly the tracked evaluations triggered by `max-plan-attempts`, each under its token, and keeps exactly the others |
| `BlockedOutcomes.UntrackOutcome` | internal/server/blocked_evals.go:257-286 | Untrack drops the evaluation of its job and keeps every other as it was |
| `BlockedOutcomes.SwitchOutcome` | internal/server/blocked_evals.go:119-135 | Disabling drops what is tracked, the duplicates and the queued updates, and keeps the noted indexes and the updates on their way |
| `BlockedOutcomes.DisabledOutcome` | internal/server/blocked_evals.go:154-410 | A disabled tracker blocks, releases, untracks and records nothing |
| `BlockedRuns.RecordExact` | internal/server/blocked_evals.go:291-310 | `unblockIndexes` keeps the highest index of a class if and only if the new index is not below the stored one |
| `BlockedRuns.DecreasingIndexMisses` | internal/server/blocked_evals.go:291-310 | A concrete sequence with a decreasing index after which a tracked evaluation missed an unblock and no update is on its way |
| `BlockedRuns.GapHarmless` | internal/server/blocked_evals.go:119-135 | A step between the switch and the flush touches nothing that the flush does not clear, save the updates on their way |
| `BlockedTheorems.BlockKeepsExact` | internal/server/blocked_evals.go:154-214 | Blocking keeps the index if and only if it does not track an ID a second time under another job |
| `BlockedTheorems.TrackTwiceBreaks` | internal/server/blocked_evals.go:191-213 | Tracking an ID that is already tracked under another job breaks the index |
| `BlockedTheorems.SameJobNotTwice` | internal/server/blocked_evals.go:162-213 | When an ID determines its job, that cannot happen |
| `BlockedTheorems.UnblockKeeps` | internal/server/blocked_evals.go:327-375 | unblock keeps the index, counters included |
| `BlockedTheorems.UnblockFailedKeeps` | internal/server/blocked_evals.go:379-410 | UnblockFailed keeps the index, counters included |
| `BlockedTheorems.UntrackKeeps` | internal/server/blocked_evals.go:257-286 | Untrack keeps the index, counters included |
| `BlockedTheorems.UntrackIsRelease` | internal/server/blocked_evals.go:257-286 | Untrack removes exactly the job's one tracked evaluation |
| `BlockedEvalsTracker.BlockedEvals.constructor` | internal/server/blocked_evals.go:96-108 | A new tracker is empty and disabled |
| `BlockedEvalsTracker.BlockedEvals.MissedUnblock` | internal/server/blocked_evals.go:221-252 | For every iteration order the loop answers yes if and only if some noted index is above the snapshot and its class is not marked ineligible, or the evaluation escaped |
| `BlockedEvalsTracker.BlockedEvals.ProcessBlock` | internal/server/blocked_evals.go:154-214 | Tracker and broker become those of the specification: tracked, duplicate, or handed over with its token; the index survives if and only if no ID is tracked a second time |
| `BlockedEvalsTracker.BlockedEvals.Unblock` | internal/server/blocked_evals.go:327-375 | Hands each released evaluation to the broker once, in any order, and keeps the index |
| `BlockedEvalsTracker.BlockedEvals.UnblockFailed` | internal/server/blocked_evals.go:379-410 | Hands each evaluation blocked by failed planning to the broker once, and keeps the index |
| `BlockedEvalsTracker.BlockedEvals.Untrack` | internal/server/blocked_evals.go:257-286 | The job's evaluation is no longer tracked |
| `BlockedEvalsTracker.BlockedEvals.RecordUnblock` | internal/server/blocked_evals.go:291-305 | The index is noted and the update is due to be sent |
| `BlockedEvalsTracker.BlockedEvals.GetDuplicates` | internal/server/blocked_evals.go:414-442 | Returns the duplicates and clears them |
| `BlockedEvalsTracker.BlockedEvals.SetEnabled` | internal/server/blocked_evals.go:119-135 | Switches the tracker, flushing it when disabled |
| `BlockedEvalsTracker.BlockedEvals.Flush` | internal/server/blocked_evals.go:445-459 | Clears what is tracked and the duplicates |
| `Reblocking.ReblockedStaysLive` | internal/server/blocked_evals.go:183-189 | From the step that hands a reblocked evaluation to the broker, through every further run of broker and tracker: it is safe all along if and only if nothing spoils it, and then its ID is live. Spoiling is a flush, a successful Ack of another delivery of it without a stored copy, or a re-arming of this delivery after its copy is gone; late Acks, Nacks and timeouts do not |
| `Reblocking.DeliveryEnds` | internal/server/eval_broker.go:463-558 | The delivery's own Ack re-enqueues the evaluation or fails and leaves it outstanding; its Nack drops the copy and queues the original again with its count |
| `Reblocking.AckKeepsIdExact` | internal/server/eval_broker.go:512-517 | A successful Ack leaves the ID in the broker if and only if a copy of that evaluation is stored under the token |
| `Reblocking.RepeatedAckLoses` | internal/server/eval_broker.go:466-484 | With a copy stored and the timer stopped: resumed and then acknowledged, the evaluation stays; acknowledged too early, resumed and acknowledged again, it is removed for good |
| `Reblocking.HandedLive` | internal/server/blocked_evals.go:367-374 | Every evaluation handed to an enabled broker is live in it, and no Ack of a delivery still outstanding under its token can take it out |
| `Reblocking.LiveThroughOffers` | internal/server/eval_broker.go:162-206 | Further offers leave it live |
| `Reblocking.NextOk` | internal/server/blocked_evals.go:154-375 | Every event of broker or tracker keeps both invariants and the ownership of tokens |
| `Reblocking.StartOk` | internal/server/blocked_evals.go:96-108 | A new broker and a new tracker satisfy those invariants |
| `Reblocking.SafeStep` | internal/server/eval_broker.go:463-558 | Any one event keeps the evaluation safe if and only if it is not one of the spoiling ones |
| `Reblocking.SafeMeans` | internal/server/eval_broker.go:463-519 | Safe means: live, and still live after an Ack of this delivery |
| `Reblocking.SafeRun` | internal/server/eval_broker.go:463-592 | Over every run from a safe state the evaluation is safe all along if and only if no event spoils it |
| `Reblocking.LiveStep` | internal/server/eval_broker.go:463-592 | The same for one step of the reference machine, both directions |
| `Reblocking.MispairedCallLoses` | internal/server/eval_broker.go:466-469 | With a copy stored under its token, a delivery's Ack keeps the evaluation after any Ack or Nack that names the token if and only if that call named the delivery's own evaluation |
| `LostReblock.HandedRun` | internal/server/blocked_evals.go:327-375 | A run of broker and tracker from the start: delivered, reblocked under its token, unblocked and handed back, with the copy stored |
| `LostReblock.ReblockCanBeLost` | internal/server/eval_broker.go:466-484 | That run continued by pause, Ack, resume, Ack: live up to the last call, which succeeds and removes the ID |
| `LostReblock.MispairedCallCanLose` | internal/server/eval_broker.go:466-469 | That run continued by an Ack that names the token with another evaluation: the delivery's own Ack then removes the ID |
| `Reblocking.NackRequeues` | internal/server/eval_broker.go:522-558 | A Nack of a held delivery leaves the original in a ready heap, its counter unchanged, and no stored copy |
| `PlanEvaluation.EvaluatePlan` | internal/server/plan_apply.go:176-288 | For every schedule of sends, worker evaluations and replies: no deadlock, the outcome is the sequential one, each node of the plan is evaluated once, and the pool is left with no request or reply |
| `PlanEvaluation.SendAll` | internal/server/plan_apply.go:231-254 | The first loop sends every node, even after an error, and folds the replies that come meanwhile |
| `PlanEvaluation.Drain` | internal/server/plan_apply.go:256-266 | The second loop receives every outstanding reply and ignores those after an error |
| `PlanEvaluation.HandleResult` | internal/server/plan_apply.go:206-229 | Folding one more reply gives the sequential fold of one more node |
| `PlanEvaluation.CollectNodes` | internal/server/plan_apply.go:185-200 | Each node of the two maps is listed once |
| `PlanEvaluation.EvaluatePool.WorkerTakes` | internal/server/plan_apply_pool.go:107-118 | A worker takes the first request; nothing in flight is lost |
| `PlanEvaluation.EvaluatePool.WorkerReplies` | internal/server/plan_apply_pool.go:107-118 | A busy worker evaluates its node once and replies; nothing in flight is lost |
| `Plans.FullCommitIffNoRefresh` | internal/server/plan_apply.go:268-288 | When a plan evaluates without error, the counts of FullCommit are equal if and only if RefreshIndex is zero |
| `Plans.FullCommit` | internal/models/plan.go:119-128 | The loop counts the planned allocations and those committed on the same nodes, for every iteration order |
| `Plans.CommitsExactly` | internal/server/plan_apply.go:206-310 | When a plan evaluates without error, its placements on a node are committed if and only if there are some and the node is known and ready, its evictions if and only if there are some and the node is ready or has no placements, and in both cases as the plan's own list |
| `Plans.FailsExactly` | internal/server/plan_apply.go:268-310 | The evaluation fails if and only if a node it places on cannot be looked up, a ready one's allocations cannot be listed, or the commit is partial and there is no index to refresh to |
| `Plans.RefreshExactly` | internal/server/plan_apply.go:268-286 | A partial commit asks for the larger of the two table indexes: not below either and equal to one; a full one asks for none |
| `Plans.CommittedOnReadyNodes` | internal/server/plan_apply.go:291-310 | Every committed placement is on a node that the snapshot holds as ready, and is not empty |
| `Plans.AnswerTellsPartialCommit` | internal/server/plan_apply.go:160-170 | After asyncPlanWait the answer has the lists of the evaluation and still tells a partial commit exactly; a refresh covers the commit's own index and equals it or the snapshot's |
| `PlanRuns.NeverLost` | internal/server/plan_queue.go:102-189 | After every run of queue, planApply loops, Raft goroutines and waiters, each accepted plan is queued once, held by one loop, awaited by one goroutine or answered once; Depth is the queue's length |
| `PlanRuns.RespondNeverBlocks` | internal/server/plan_queue.go:66-76 | Whatever step answers a plan, it is the plan's first answer and its one-slot channel is empty |
| `PlanRuns.OneApplicationPerLoop` | internal/server/plan_apply.go:77-100 | Each planApply loop has at most one Raft application under way |
| `PlanRuns.OldestFirst` | internal/server/plan_queue.go:133-149 | After every run a dequeue takes a plan with the smallest enqueue time |
| `PlanRuns.AnswersAreTrue` | internal/server/plan_apply.go:148-171 | Every positive answer ever given was a full commit exactly when it asks for no refresh, and a refresh covers its own commit |
| `PlanRuns.NeverStuck` | internal/server/plan_apply.go:37-100 | For a plan that has left the queue, the step it waits for can be taken, and however Raft, the snapshot or the submission turn out, it brings the plan strictly nearer to its answer |
| `PlanRuns.SomeStepAwaited` | internal/server/plan_apply.go:37-100 | There always is such a step |
| `PlanRuns.NeverSetBack` | internal/server/plan_apply.go:37-171 | No step of any loop, goroutine, submitter or leader sets a plan back that has left the queue |
| `PlanRuns.RunInv` | internal/server/plan_apply.go:23-171 | Every run keeps placement, heap order, channel ownership and the honesty of answers |
| `PlanAnswers.StepPlaces` | internal/server/plan_apply.go:37-171 | Every step moves a plan from one place to one other |
| `PlanAnswers.FlushPlaces` | internal/server/plan_queue.go:171-189 | A flush answers every queued plan once and touches no other |
| `PlanAnswers.RespondAllAt` | internal/server/plan_queue.go:175-178 | The flush loop answers exactly the plans whose tickets are queued |
| `PlanAnswers.ConcludePlaces` | internal/server/plan_apply.go:54-95 | Every early exit of a planApply turn answers the plan it holds, for the first time |
| `PlanAnswers.EvaluateCases` | internal/server/plan_apply.go:44-75 | A planApply turn up to the fast path ends in one honest answer, positive only when there is nothing to apply, or with a non-empty result of its own plan to submit |
| `PlanOutcomes.TurnOutcome` | internal/server/plan_apply.go:44-75 | A planApply turn evaluates the plan on a new snapshot unless an application is under way and the loop has its optimistic view; a missing snapshot or a failed evaluation is answered as such, a result with neither list is answered at once, and any other is kept to be submitted with the plan unanswered |
| `PlanOutcomes.SubmitOutcome` | internal/server/plan_apply.go:77-99 | A submission without a snapshot after a wait, or refused, is answered as such; accepted, the loop's own result is with Raft and the plan stays unanswered |
| `PlanOutcomes.PlanStep` | internal/server/plan_apply.go:37-171 | In every reachable state each step leaves a plan alone, gives it the one answer that this step can give it, or takes one from its channel |
| `PlanOutcomes.PositiveMeansApplied` | internal/server/plan_apply.go:71-171 | Over every run, a positive answer with any placement or eviction in it was given by the Raft application of that plan's own result, and carries that application's index |
| `PlanOutcomes.ReceivedOnce` | internal/server/plan_queue.go:66-76 | After every run a submitter receives the one answer that was sent, and its channel is never filled again |
| `PlanRuns.HonestIsTrue` | internal/server/plan_apply.go:148-171 | A result of the plan's own evaluation, applied or empty, tells a partial commit exactly |
| `PlanQueues.PlanQueue.Enqueue` | internal/server/plan_queue.go:102-130 | Refused while disabled, else a new unanswered plan joins the heap; it is the pipeline's step |
| `PlanQueues.PlanQueue.Dequeue` | internal/server/plan_queue.go:133-151 | Takes a plan with the smallest enqueue time, if there is one; it is the pipeline's step, and the plan is the one its loop then holds |
| `PlanQueues.PlanQueue.Flush` | internal/server/plan_queue.go:171-189 | Every queued plan gets the flush error, once, into an empty slot; it is the pipeline's step |
| `PlanQueues.PlanQueue.SetEnabled` | internal/server/plan_queue.go:92-99 | Disabling flushes; it is the pipeline's two steps |
| `PlanQueues.PendingPlan.Respond` | internal/server/plan_queue.go:73-76 | Sets the result and fills the free slot |
| `PlanQueues.PendingPlan.Wait` | internal/server/plan_queue.go:67-70 | Takes the error from the slot and returns the result with it |
| `TimeTables.RestoreRoundTrip` | internal/server/timetable.go:56-71 | Deserializing a reachable table into a fresh one of the same granularity and limit rebuilds it entry for entry, whether or not the initial entry was evicted |
| `TimeTables.RestoreExact` | internal/server/timetable.go:56-97 | For any granularity that does not divide by zero: restoring rebuilds every reachable table if and only if the granularity is positive |
| `TimeTables.DescendingExact` | internal/server/timetable.go:74-97 | For any such granularity: the times descend in every run if and only if it is positive or the table holds one entry only |
| `TimeTables.ReplaySuffix` | internal/server/timetable.go:65-69 | Witnessing the older entries again rebuilds them, above the initial entry where that was evicted |
| `TimeTables.After` | internal/server/timetable.go:73-97 | Every run of Witness calls keeps the table within its capacity and its indexes in order; with a positive granularity its times are at least a granularity apart in descending order |
| `TimeTables.CutoffIsSafe` | internal/server/timetable.go:99-112 | With growing indexes and an arbitrary clock, the index found for a time is not above that of anything witnessed after that time |
| `TimeTables.Search` | internal/server/timetable.go:104-111 | Bisection finds a border of any property, and for one that holds of all older entries too it equals the linear scan for the newest entry |
| `TimeTables.TimesMonotone` | internal/server/timetable.go:104-107 | NearestIndex searches for such a property |
| `TimeTables.IndexesMonotone` | internal/server/timetable.go:119-122 | NearestTime searches for such a property |
| `TimeTables.CapacityExactly` | internal/server/timetable.go:36-47 | A table has room for as many granularities as fit into the limit, and for one entry at least |
| `TimeTables.EnteredExactly` | internal/server/timetable.go:74-97 | After every run a reading is entered if and only if its index is not below and its time a granularity after those of the newest entry, and the oldest entry leaves if and only if the table is full |
| `TimeTables.EntriesAreReadings` | internal/server/timetable.go:74-97 | Every entry of a reachable table is the initial one or was witnessed |
| `TimeTables.NeverBehind` | internal/server/timetable.go:74-97 | With growing indexes the newest entry is never a granularity behind anything witnessed |
| `TimeTables.IndexAtMeans` | internal/server/timetable.go:100-112 | The index found is that of an entry not after the time while all newer ones are after it, or zero when all are |
| `TimeTables.TimeAtMeans` | internal/server/timetable.go:115-127 | The time found is that of an entry not above the index while all newer ones are above it, or the zero time when all are |
| `TimeTables.TimeTable.constructor` | internal/server/timetable.go:36-47 | A fresh table holds the zero entry; only a granularity of zero, which divides by zero, is excluded |
| `TimeTables.TimeTable.Witness` | internal/server/timetable.go:74-97 | The shift in place skips, grows or evicts as specified |
| `TimeTables.TimeTable.NearestIndex` | internal/server/timetable.go:100-112 | With a positive granularity, the index of the newest entry not after the time, or zero if every entry is after it; otherwise that of some border |
| `TimeTables.TimeTable.NearestTime` | internal/server/timetable.go:115-127 | The time of the newest entry whose index is not above, or the zero time |
| `TimeTables.TimeTable.Deserialize` | internal/server/timetable.go:58-71 | The entries are witnessed from oldest to newest |
| `Allocations.RemoveAllocs` | internal/models/funcs.go:17-35 | In place: the first n slots hold each allocation as often as it was there, or not at all if its ID is to be removed, without nils, and the rest is cleared |
| `Allocations.ProposedAllocs` | internal/server/scheduler/context.go:124-147 | For every iteration order each ID occurs once, as the planned allocation if one is planned, else as a surviving existing one |
| `Allocations.SurvivorsCount` | internal/models/funcs.go:17-35 | An allocation survives as often as it was there, or not at all if its ID is removed |
| `Allocations.LastByIdIsLast` | internal/server/scheduler/context.go:131-139 | Of planned allocations with one ID the last one of the list counts |
| `Allocations.OverlayDetermined` | internal/server/scheduler/context.go:131-145 | With distinct existing IDs the outcome does not depend on any order |
| `Allocations.SurvivingAllocs` | internal/server/scheduler/context.go:126-129 | What remains are the existing allocations that are not evicted |
| `Eligibility.GetClasses` | internal/server/scheduler/context.go:236-267 | For every iteration order a class is listed exactly when the job or a task decides it, as eligible exactly when one of them finds it so |
| `Eligibility.SummaryIsUnique` | internal/server/scheduler/context.go:236-267 | That determines the result |
| `UpdateBatches.BatchesConserve` | internal/server/node_endpoint.go:546-579 | After every run the lists that were answered, are in flight or are pending, in the order of their futures, are exactly what the run submitted, in order of arrival |
| `UpdateBatches.ListOfIsWaiting` | internal/server/node_endpoint.go:546-579 | The list a future stands for holds exactly what the calls that wait on it submitted |
| `UpdateBatches.AnsweredForItsCalls` | internal/server/node_endpoint.go:582-599 | Every future is answered at most once, and then for exactly the calls that wait on it, in order of arrival |
| `UpdateBatches.AnsweredByCommit` | internal/server/node_endpoint.go:582-599 | Over every run an answered future was answered by the commit of its own flight, with that flight's list and that commit's index and outcome |
| `UpdateBatches.PendingIffUpdates` | internal/server/node_endpoint.go:546-569 | The pending future is nil exactly while the pending list is empty, and one timer is armed exactly while it is not |
| `UpdateBatches.RunInv` | internal/server/node_endpoint.go:546-599 | Every interleaving of calls, timer callbacks and commits keeps these |
| `UpdateBatches.Node.UpdateAlloc` | internal/server/node_endpoint.go:541-569 | Refuses an empty call, else appends it and returns the future of its own batch |
| `UpdateBatches.Node.TimerFires` | internal/server/node_endpoint.go:555-563 | Takes list and future away together; there is always a future |
| `UpdateBatches.Node.BatchUpdate` | internal/server/node_endpoint.go:582-599 | Answers a future that was still open |
| `LoadMaps.RoundTripIffGoodKeys` | internal/config/mysql/load_map.go:28-71 | Parsing the printed form gives the map back if and only if its keys are non-empty and hold neither ',' nor '=' |
| `LoadMaps.PrintedIsCanonical` | internal/config/mysql/load_map.go:63-71 | The printed form does not depend on the iteration order |
| `LoadMaps.String` | internal/config/mysql/load_map.go:63-71 | Each token once, sorted, joined by commas; parsing the string returned gives the map back if and only if the keys are good |
| `LoadMaps.ParseLoadMap` | internal/config/mysql/load_map.go:28-51 | The loop is the specification's fold; with an error it returns what came before the bad condition |
| `LoadMaps.ParsedKeysGood` | internal/config/mysql/load_map.go:34-48 | Whatever is parsed has such keys |
| `LoadMaps.ConditionExactly` | internal/config/mysql/load_map.go:36-46 | A condition parses if and only if it is a non-empty key, exactly one '=' and a 64-bit number, and then as that key and number |
| `LoadMaps.ConditionsExactly` | internal/config/mysql/load_map.go:34-50 | A list parses if and only if every condition does, and a key reads as the last condition that gives it |
| `LoadMaps.OrderMeans` | internal/config/mysql/load_map.go:69-69 | The sort order is that of the first difference, a prefix coming first |
| `LoadMaps.TokenInjective` | internal/config/mysql/load_map.go:66-66 | Two tokens are equal only for the same key |
| `LoadMaps.SortedUnique` | internal/config/mysql/load_map.go:69-69 | Two sorted lists of the same tokens are equal |
| `InstanceKeys.RoundTripIffGoodHosts` | internal/config/mysql/instance_key_map.go:70-103 | Reading a printed list into a fresh map gives the keys back if and only if no host holds ':' or ',', for every order of printing |
| `InstanceKeys.KeyRoundTrip` | internal/config/mysql/instance_key.go:28-49 | Parsing a printed key gives it back if and only if its host holds no colon |
| `InstanceKeys.KeyExactly` | internal/config/mysql/instance_key.go:28-49 | A host alone reads as it does with `:3306` behind it; otherwise the host ends at the first colon and what follows must be a number |
| `InstanceKeys.InstanceKeyMap.ReadCommaDelimitedList` | internal/config/mysql/instance_key_map.go:90-103 | Adds the keys read to those there; on an error those read before it stay |
| `InstanceKeys.InstanceKeyMap.ToCommaDelimitedList` | internal/config/mysql/instance_key_map.go:70-76 | Each key once, in whatever order, joined by commas; reading the list returned gives the keys back if and only if the hosts are good |
| `Text.ParseFormat` | internal/config/mysql/instance_key.go:104-106 | Parsing a printed 64-bit number gives it back |
| `Text.SplitJoin` | internal/config/mysql/load_map.go:34-34 | Splitting undoes joining when no token holds the separator |
| `Text.JoinSplit` | internal/config/mysql/load_map.go:34-34 | Joining undoes splitting, of any string |
| `Text.DigitsOfValue` | internal/config/mysql/load_map.go:43-43 | Printing the value of digits without leading zeros gives them back, and leading zeros do not count |
| `Text.ParseIntExactly` | internal/config/mysql/load_map.go:43-43 | A number parses if and only if it is an optional sign and at least one digit, within 64 bits |

## Left out

- Raft, Serf, the state store and the FSM: a snapshot is a map of node states, two sets of failing lookups and two indexes; a Raft application is a step with an arbitrary outcome.
- RPC forwarding, HTTP endpoints, commands, configuration, logging, metrics, Stats and EmitStats: field copies and input/output.
- Wake-up channels (`waiting` and waitForSchedulers in the broker, `waitCh` in the plan queue, `duplicateCh`), and with them the time-outs of Dequeue and GetDuplicates: one call is one scan, and a caller that finds nothing calls again.
- Real time: a Nack timer is armed or not, a wait timer is a registered entry, a batch timer is armed or not.
- NewEvalBroker's error for a negative time-out, and the random choice among eligible queues, which is a parameter.
- PlanQueues.PlanQueue.Dequeue: is the scan; the blocking wait is left out.
- TimeTables.TimeTable.constructor: excludes a granularity of zero, on which the source divides by zero.
- planApply as a loop: it never returns while the server leads, so it is a machine with one step per turn up to the next point where another goroutine can be seen. The optimistic update of the snapshot by applyPlan is an arbitrary new snapshot.
- The values allocated by evaluateNodePlan for its proposed list: the source computes the list and does not use it.
- EvaluatePool.SetSize and Shutdown, Plan.AppendUpdate, PopUpdate and AppendAlloc, EvalEligibility's setters and status lookups: they would add easy members.
- The binary encoding of a time table: Serialize and Deserialize pass the entries as values.
- Strings are sequences of characters, so sorting is by character and not by encoded byte; integers are 64 bits wide where they are parsed or printed, and unbounded elsewhere.
- Reference counting of connections, worker pausing, failover rewriting, client run loops, drivers and binlog handling.
