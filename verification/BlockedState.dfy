/** The tracker of blocked evaluations as values: internal/server/blocked_evals.go with one
    function per critical section. An unblock is recorded under the lock, sent to the
    capacity channel after it, taken off by the watcher and processed under the lock
    again, so an update is unsent, queued or taken until it is processed. What a step
    hands to the broker is its second result. */
module BlockedState {
  import opened Evaluations

  datatype Wrapped = Wrapped(eval: Evaluation, token: string)

  datatype Update = Update(class_: string, index: nat)

  datatype Tracker = Tracker(
    enabled: bool,
    captured: map<string, Wrapped>,
    escaped: map<string, Wrapped>,
    jobs: map<string, string>,
    unblockIndexes: map<string, nat>,
    duplicates: seq<Evaluation>,
    totalEscaped: int,
    totalBlocked: int,
    unsent: multiset<Update>,
    queue: seq<Update>,
    taken: multiset<Update>)

  const MAX_PLANS := "max-plan-attempts"

  function New(): Tracker {
    Tracker(false, map[], map[], map[], map[], [], 0, 0, multiset{}, [], multiset{})
  }

  /** The evaluation marked the class as not feasible. */
  predicate Ineligible(e: Evaluation, class_: string) {
    class_ in e.classEligibility && !e.classEligibility[class_]
  }

  /** An unblock of the class above the snapshot concerns the evaluation. */
  predicate MissedClass(t: Tracker, e: Evaluation, class_: string) {
    class_ in t.unblockIndexes && e.snapshotIndex < t.unblockIndexes[class_]
    && (e.escaped || !Ineligible(e, class_))
  }

  ghost predicate MissedUnblock(t: Tracker, e: Evaluation) {
    exists c :: MissedClass(t, e, c)
  }

  function Track(t: Tracker, e: Evaluation, token: string): Tracker {
    var t1 := t.(jobs := t.jobs[e.jobId := e.id], totalBlocked := t.totalBlocked + 1);
    if e.escaped
    then t1.(escaped := t.escaped[e.id := Wrapped(e, token)], totalEscaped := t.totalEscaped + 1)
    else t1.(captured := t.captured[e.id := Wrapped(e, token)])
  }

  /** Block (with an empty token) and Reblock. */
  ghost function ProcessBlock(t: Tracker, e: Evaluation, token: string): (Tracker, seq<Wrapped>) {
    if !t.enabled then (t, [])
    else if e.jobId in t.jobs then (t.(duplicates := t.duplicates + [e]), [])
    else if MissedUnblock(t, e) then (t, [Wrapped(e, token)])
    else (Track(t, e, token), [])
  }

  function DropCaptured(t: Tracker, id: string): Tracker {
    if id in t.captured
    then t.(jobs := t.jobs - {t.captured[id].eval.jobId}, captured := t.captured - {id},
            totalBlocked := t.totalBlocked - 1)
    else t
  }

  function DropEscaped(t: Tracker, id: string): Tracker {
    if id in t.escaped
    then t.(jobs := t.jobs - {t.escaped[id].eval.jobId}, escaped := t.escaped - {id},
            totalEscaped := t.totalEscaped - 1, totalBlocked := t.totalBlocked - 1)
    else t
  }

  function Untrack(t: Tracker, job: string): Tracker {
    if !t.enabled || job !in t.jobs then t
    else DropEscaped(DropCaptured(t, t.jobs[job]), t.jobs[job])
  }

  /** The first part of Unblock: note the index and get ready to send the update. */
  function RecordUnblock(t: Tracker, class_: string, index: nat): Tracker {
    if !t.enabled then t
    else t.(unblockIndexes := t.unblockIndexes[class_ := index],
            unsent := t.unsent + multiset{Update(class_, index)})
  }

  /** The second part: the update enters the capacity channel. */
  function Send(t: Tracker, u: Update): Tracker {
    t.(unsent := t.unsent - multiset{u}, queue := t.queue + [u])
  }

  /** A watcher receives the first update. */
  function Take(t: Tracker): Tracker
    requires |t.queue| > 0
  {
    t.(queue := t.queue[1..], taken := t.taken + multiset{t.queue[0]})
  }

  function JobsOf(m: map<string, Wrapped>, ids: set<string>): set<string> {
    set id | id in ids && id in m :: m[id].eval.jobId
  }

  /** Take a part of the tracked evaluations off, leaving the counters alone. */
  function Release(t: Tracker, captured: set<string>, escaped: set<string>): Tracker {
    t.(captured := t.captured - captured, escaped := t.escaped - escaped,
       jobs := t.jobs - (JobsOf(t.captured, captured) + JobsOf(t.escaped, escaped)))
  }

  /** Captured evaluations that did not rule the class out. */
  function Eligible(t: Tracker, class_: string): set<string> {
    set id | id in t.captured && !Ineligible(t.captured[id].eval, class_)
  }

  function Only(m: map<string, Wrapped>, ids: set<string>): map<string, Wrapped> {
    map id | id in m && id in ids :: m[id]
  }

  /** What an unblock of the class hands to the broker. */
  function UnblockedBy(t: Tracker, class_: string): map<string, Wrapped> {
    Only(t.captured, Eligible(t, class_)) + t.escaped
  }

  function Unblock(t: Tracker, class_: string): Tracker {
    var c := Eligible(t, class_);
    var n := |c| + |t.escaped|;
    var t1 := Release(t, c, t.escaped.Keys);
    if n == 0 then t1 else t1.(totalEscaped := 0, totalBlocked := t.totalBlocked - n)
  }

  function FailedIn(m: map<string, Wrapped>): set<string> {
    set id | id in m && m[id].eval.triggeredBy == MAX_PLANS
  }

  /** What UnblockFailed hands to the broker. */
  function FailedTracked(t: Tracker): map<string, Wrapped> {
    Only(t.captured, FailedIn(t.captured)) + Only(t.escaped, FailedIn(t.escaped))
  }

  function UnblockFailed(t: Tracker): Tracker {
    if !t.enabled then t
    else
      var c, s := FailedIn(t.captured), FailedIn(t.escaped);
      Release(t, c, s).(totalEscaped := t.totalEscaped - |s|, totalBlocked := t.totalBlocked - |c| - |s|)
  }

  /** A watcher processes an update it has taken. */
  function Process(t: Tracker, u: Update): Tracker {
    var t1 := t.(taken := t.taken - multiset{u});
    if !t.enabled then t1 else Unblock(t1, u.class_)
  }

  function Flush(t: Tracker): Tracker {
    t.(totalEscaped := 0, totalBlocked := 0, captured := map[], escaped := map[], jobs := map[],
       duplicates := [], queue := [])
  }

  function SetEnabled(t: Tracker, on: bool): Tracker {
    if t.enabled == on then t
    else if on then t.(enabled := true)
    else Flush(t.(enabled := false))
  }

  /** The evaluation tracked under an ID. */
  function Tracked(t: Tracker): map<string, Wrapped> {
    t.captured + t.escaped
  }
}
