/** What each call of the tracker does, in terms of the evaluations themselves: which of them it
    tracks, keeps, releases and hands to the broker, and under which token. */
module BlockedOutcomes {
  import opened Evaluations
  import opened BlockedState
  import opened BlockedTheorems
  import opened BlockedRuns

  // ---- blocking --------------------------------------------------------------------

  lemma MissedRecorded(s: System, e: Evaluation)
    requires Highest(s)
    ensures MissedUnblock(s.t, e) <==>
            exists u :: u in s.recorded && e.snapshotIndex < u.index
                        && (e.escaped || u.class_ !in e.classEligibility || e.classEligibility[u.class_])
  {
    if MissedUnblock(s.t, e) {
      var c :| MissedClass(s.t, e, c);
      assert Update(c, s.t.unblockIndexes[c]) in s.recorded;
    }
    if u :| u in s.recorded && e.snapshotIndex < u.index
            && (e.escaped || u.class_ !in e.classEligibility || e.classEligibility[u.class_]) {
      assert MissedClass(s.t, e, u.class_);
    }
  }

  /** After every run: an evaluation blocked while its job is free is handed straight to the broker
      exactly when some unblock recorded since is above its snapshot and of a class it did not rule
      out, or of any class if it escaped; otherwise it is tracked, under its token. */
  lemma BlockOutcome(run: seq<Action>, e: Evaluation, token: string)
    requires IsRun(run) && After(run).t.enabled && e.jobId !in After(run).t.jobs && e.id !in Tracked(After(run).t)
    ensures var s := After(run);
            var (t', handed) := ProcessBlock(s.t, e, token);
            if exists u :: u in s.recorded && e.snapshotIndex < u.index
                           && (e.escaped || u.class_ !in e.classEligibility || e.classEligibility[u.class_])
            then handed == [Wrapped(e, token)] && t' == s.t
            else handed == [] && Tracked(t') == Tracked(s.t)[e.id := Wrapped(e, token)]
                 && t'.jobs == s.t.jobs[e.jobId := e.id]
  {
    RunSound(run);
    var s := After(run);
    hide After, IsRun, Good, Held, Highest, Tracked, MissedUnblock, Track;
    MissedRecorded(s, e);
    TrackedAdd(s.t, e, token);
    TrackJobs(s.t, e, token);
  }

  lemma TrackJobs(t: Tracker, e: Evaluation, token: string)
    ensures Track(t, e, token).jobs == t.jobs[e.jobId := e.id]
  {
  }

  /** A second evaluation of a blocked job is a duplicate, and nothing else changes. */
  lemma DuplicateOutcome(t: Tracker, e: Evaluation, token: string)
    requires t.enabled && e.jobId in t.jobs
    ensures ProcessBlock(t, e, token) == (t.(duplicates := t.duplicates + [e]), [])
  {
  }

  // ---- releasing -------------------------------------------------------------------

  /** An unblock of a class hands over exactly the tracked evaluations that it does not keep, each as
      it was tracked. */
  lemma UnblockOutcome(t: Tracker, class_: string, id: string)
    requires Index(t)
    ensures id in UnblockedBy(t, class_) <==> id in Tracked(t) && id !in Tracked(Unblock(t, class_))
    ensures id in UnblockedBy(t, class_) ==> UnblockedBy(t, class_)[id] == Tracked(t)[id]
    ensures id in Tracked(t) ==>
            var e := Tracked(t)[id].eval;
            (id in UnblockedBy(t, class_) <==> e.escaped || class_ !in e.classEligibility || e.classEligibility[class_])
  {
    hide JobsIndex, CountsExact, JobsOf;
    UnblockTracked(t, class_);
  }

  /** UnblockFailed hands over exactly the tracked evaluations that planning gave up on, each as it
      was tracked, and keeps the others. */
  lemma FailedOutcome(t: Tracker, id: string)
    requires Index(t) && t.enabled
    ensures id in FailedTracked(t) <==> id in Tracked(t) && Tracked(t)[id].eval.triggeredBy == "max-plan-attempts"
    ensures id in FailedTracked(t) ==> FailedTracked(t)[id] == Tracked(t)[id]
    ensures id in Tracked(UnblockFailed(t)) <==> id in Tracked(t) && Tracked(t)[id].eval.triggeredBy != "max-plan-attempts"
    ensures id in Tracked(UnblockFailed(t)) ==> Tracked(UnblockFailed(t))[id] == Tracked(t)[id]
  {
    hide JobsIndex, CountsExact, JobsOf;
  }

  /** Untrack drops the job's evaluation and no other. */
  lemma UntrackOutcome(t: Tracker, job: string, id: string)
    requires Index(t) && t.enabled
    ensures id in Tracked(Untrack(t, job)) <==> id in Tracked(t) && Tracked(t)[id].eval.jobId != job
    ensures id in Tracked(Untrack(t, job)) ==> Tracked(Untrack(t, job))[id] == Tracked(t)[id]
  {
    hide CountsExact;
    if job in t.jobs {
      assert Tracked(t)[t.jobs[job]].eval.jobId == job;
    }
    if id in Tracked(t) {
      assert Tracked(t)[id].eval.jobId in t.jobs && t.jobs[Tracked(t)[id].eval.jobId] == id;
    }
  }

  /** Disabling drops everything tracked and every update still queued, and nothing on its way; the
      indexes noted stay. */
  lemma SwitchOutcome(t: Tracker)
    requires t.enabled
    ensures var t' := SetEnabled(t, false);
            && !t'.enabled && Tracked(t') == map[] && t'.jobs == map[] && t'.duplicates == [] && t'.queue == []
            && t'.totalBlocked == t'.totalEscaped == 0
            && t'.unblockIndexes == t.unblockIndexes && t'.unsent == t.unsent && t'.taken == t.taken
    ensures SetEnabled(t, true) == t && SetEnabled(t.(enabled := false), true) == t
  {
  }

  /** A disabled tracker does nothing. */
  lemma DisabledOutcome(t: Tracker, e: Evaluation, token: string, job: string, u: Update)
    requires !t.enabled
    ensures ProcessBlock(t, e, token) == (t, []) && Untrack(t, job) == t && UnblockFailed(t) == t
    ensures RecordUnblock(t, u.class_, u.index) == t && Process(t, u) == t.(taken := t.taken - multiset{u})
  {
  }
}
