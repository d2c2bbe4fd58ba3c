/** The evaluation record, reduced to the fields that the broker and the blocked
    tracker read. Integers are unbounded: the Raft indexes and the delivery counter
    never come near the end of their 64-bit range. */
module Evaluations {

  datatype Evaluation = Evaluation(
    id: string,
    jobId: string,
    typ: string,
    triggeredBy: string,
    wait: int,
    classEligibility: map<string, bool>,
    escaped: bool,
    snapshotIndex: nat,
    createIndex: nat)

  /** Evaluations that reached the delivery limit are queued here. */
  const FAILED_QUEUE := "_failed"

  /** The key of PendingEvaluations.Less. */
  function ByCreateIndex(e: Evaluation): int { e.createIndex }

  /** A slice looked up in a Go map: a missing key reads as the empty slice. */
  function Slice<T>(m: map<string, seq<T>>, k: string): (s: seq<T>)
    ensures k !in m ==> s == []
  {
    if k in m then m[k] else []
  }
}
