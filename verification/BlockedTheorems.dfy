/** What the blocked tracker promises over every interleaving of blocks, untracks,
    unblocks, sends, receptions and leadership changes. */
module BlockedTheorems {
  import opened Evaluations
  import opened BlockedState

  // ---- the tracker as an index -----------------------------------------------------

  /** A map of wrapped evaluations under their IDs, all escaped or all not. */
  ghost predicate Holds(m: map<string, Wrapped>, escaped: bool) {
    forall id :: id in m ==> m[id].eval.id == id && m[id].eval.escaped == escaped
  }

  /** jobs maps each job to its one tracked evaluation, and nothing else. */
  ghost predicate JobsIndex(jobs: map<string, string>, m: map<string, Wrapped>) {
    && (forall j {:trigger jobs[j]} :: j in jobs ==> jobs[j] in m && m[jobs[j]].eval.jobId == j)
    && (forall id {:trigger m[id]} :: id in m ==> m[id].eval.jobId in jobs && jobs[m[id].eval.jobId] == id)
  }

  ghost predicate CountsExact(t: Tracker) {
    && t.totalEscaped == |t.escaped|
    && t.totalBlocked == |t.captured| + |t.escaped|
  }

  ghost predicate Index(t: Tracker) {
    && t.captured.Keys !! t.escaped.Keys
    && Holds(t.captured, false)
    && Holds(t.escaped, true)
    && JobsIndex(t.jobs, Tracked(t))
    && CountsExact(t)
    && (!t.enabled ==> t.captured == map[] && t.escaped == map[])
  }

  lemma JobsAdd(jobs: map<string, string>, m: map<string, Wrapped>, w: Wrapped)
    requires JobsIndex(jobs, m) && w.eval.id !in m && w.eval.jobId !in jobs
    ensures JobsIndex(jobs[w.eval.jobId := w.eval.id], m[w.eval.id := w])
  {
  }

  lemma JobsRemove(jobs: map<string, string>, m: map<string, Wrapped>, ids: set<string>, gone: set<string>)
    requires JobsIndex(jobs, m) && gone == JobsOf(m, ids)
    ensures JobsIndex(jobs - gone, m - ids)
  {
    var jobs', m' := jobs - gone, m - ids;
    forall j | j in jobs'
      ensures jobs'[j] in m' && m'[jobs'[j]].eval.jobId == j
    {
      assert jobs[j] in m && m[jobs[j]].eval.jobId == j;
    }
    forall id | id in m'
      ensures m'[id].eval.jobId in jobs'
    {
      assert m[id].eval.jobId in jobs && jobs[m[id].eval.jobId] == id;
    }
  }

  lemma TrackedKeys(t: Tracker)
    ensures Tracked(t).Keys == t.captured.Keys + t.escaped.Keys
  {
  }

  lemma TrackedAdd(t: Tracker, e: Evaluation, token: string)
    requires e.id !in Tracked(t)
    ensures Tracked(Track(t, e, token)) == Tracked(t)[e.id := Wrapped(e, token)]
  {
  }

  lemma TrackedSame(t: Tracker, t': Tracker)
    requires t'.captured == t.captured && t'.escaped == t.escaped
    ensures Tracked(t') == Tracked(t)
  {
  }

  lemma TrackCounts(t: Tracker, e: Evaluation, token: string)
    requires CountsExact(t) && e.id !in t.captured && e.id !in t.escaped
    requires t.captured.Keys !! t.escaped.Keys && Holds(t.captured, false) && Holds(t.escaped, true)
    ensures var t' := Track(t, e, token);
            && CountsExact(t') && t'.captured.Keys !! t'.escaped.Keys
            && Holds(t'.captured, false) && Holds(t'.escaped, true)
  {
  }

  /** Tracking a new evaluation of a free job. */
  lemma TrackKeeps(t: Tracker, e: Evaluation, token: string)
    requires Index(t) && t.enabled && e.jobId !in t.jobs && e.id !in Tracked(t)
    ensures Index(Track(t, e, token))
  {
    hide JobsIndex, Tracked, CountsExact, Holds;
    TrackedKeys(t);
    TrackedAdd(t, e, token);
    JobsAdd(t.jobs, Tracked(t), Wrapped(e, token));
    TrackCounts(t, e, token);
  }

  lemma WrongJob(jobs: map<string, string>, m: map<string, Wrapped>, job: string)
    requires job in jobs && jobs[job] in m && m[jobs[job]].eval.jobId != job
    ensures !JobsIndex(jobs, m)
  {
  }

  lemma JobNamed(jobs: map<string, string>, m: map<string, Wrapped>, id: string)
    requires JobsIndex(jobs, m) && id in m
    ensures m[id].eval.jobId in jobs && jobs[m[id].eval.jobId] == id
  {
  }

  lemma TrackedAgain(t: Tracker, e: Evaluation, token: string)
    requires Track(t, e, token).captured.Keys !! Track(t, e, token).escaped.Keys
    ensures e.id in Tracked(Track(t, e, token)) && Tracked(Track(t, e, token))[e.id].eval == e
  {
  }

  /** Tracking an ID that is tracked under another job breaks the index. */
  lemma TrackTwiceBreaks(t: Tracker, e: Evaluation, token: string)
    requires Index(t) && t.enabled && e.jobId !in t.jobs && e.id in Tracked(t)
    ensures !Index(Track(t, e, token))
  {
    hide Holds, CountsExact, JobsIndex, Tracked;
    var t' := Track(t, e, token);
    var other := Tracked(t)[e.id].eval.jobId;
    JobNamed(t.jobs, Tracked(t), e.id);
    if t'.captured.Keys !! t'.escaped.Keys {
      TrackedAgain(t, e, token);
      WrongJob(t'.jobs, Tracked(t'), other);
    }
  }

  /** Blocking keeps the index exactly when it does not track an ID a second time; that
      cannot happen when an ID determines its job. */
  lemma BlockKeepsExact(t: Tracker, e: Evaluation, token: string)
    requires Index(t)
    ensures Index(ProcessBlock(t, e, token).0) <==>
            !(t.enabled && e.jobId !in t.jobs && !MissedUnblock(t, e) && e.id in Tracked(t))
  {
    hide Tracked, JobsIndex, Holds, Track, MissedUnblock;
    if t.enabled && e.jobId !in t.jobs && !MissedUnblock(t, e) {
      if e.id in Tracked(t) {
        TrackTwiceBreaks(t, e, token);
      } else {
        TrackKeeps(t, e, token);
      }
    } else if t.enabled && e.jobId in t.jobs {
      TrackedSame(t, ProcessBlock(t, e, token).0);
    }
  }

  lemma SameJobNotTwice(t: Tracker, e: Evaluation)
    requires Index(t) && (e.id in Tracked(t) ==> Tracked(t)[e.id].eval.jobId == e.jobId)
    ensures e.jobId !in t.jobs ==> e.id !in Tracked(t)
  {
  }

  lemma RemovedSize(m: map<string, Wrapped>, ids: set<string>)
    requires ids <= m.Keys
    ensures |m - ids| == |m| - |ids|
  {
    assert (m - ids).Keys == m.Keys - ids;
  }

  lemma HoldsLess(m: map<string, Wrapped>, escaped: bool, ids: set<string>)
    requires Holds(m, escaped)
    ensures Holds(m - ids, escaped)
  {
  }

  lemma TrackedRelease(t: Tracker, c: set<string>, s: set<string>)
    requires t.captured.Keys !! t.escaped.Keys && c <= t.captured.Keys && s <= t.escaped.Keys
    ensures Tracked(Release(t, c, s)) == Tracked(t) - (c + s)
  {
  }

  lemma JobsOfParts(m: map<string, Wrapped>, n: map<string, Wrapped>, c: set<string>, s: set<string>)
    requires m.Keys !! n.Keys && c <= m.Keys && s <= n.Keys
    ensures JobsOf(m, c) + JobsOf(n, s) == JobsOf(m + n, c + s)
  {
    forall j | j in JobsOf(m + n, c + s)
      ensures j in JobsOf(m, c) + JobsOf(n, s)
    {
      var id :| id in c + s && id in m + n && (m + n)[id].eval.jobId == j;
      assert id in c ==> m[id].eval.jobId == j;
      assert id in s ==> n[id].eval.jobId == j;
    }
    forall j | j in JobsOf(m, c)
      ensures j in JobsOf(m + n, c + s)
    {
      var id :| id in c && id in m && m[id].eval.jobId == j;
      assert id in c + s && (m + n)[id].eval.jobId == j;
    }
    forall j | j in JobsOf(n, s)
      ensures j in JobsOf(m + n, c + s)
    {
      var id :| id in s && id in n && n[id].eval.jobId == j;
      assert id in c + s && (m + n)[id].eval.jobId == j;
    }
  }

  lemma ReleaseJobsIndex(t: Tracker, c: set<string>, s: set<string>)
    requires Index(t) && c <= t.captured.Keys && s <= t.escaped.Keys
    ensures JobsIndex(Release(t, c, s).jobs, Tracked(Release(t, c, s)))
  {
    hide JobsIndex, JobsOf, Holds, CountsExact;
    TrackedRelease(t, c, s);
    JobsOfParts(t.captured, t.escaped, c, s);
    JobsRemove(t.jobs, Tracked(t), c + s, JobsOf(Tracked(t), c + s));
  }

  /** Releasing any part of the tracked evaluations keeps the index, once the counters
      are brought down by what left. */
  lemma ReleaseKeeps(t: Tracker, c: set<string>, s: set<string>, t': Tracker)
    requires Index(t) && c <= t.captured.Keys && s <= t.escaped.Keys
    requires t' == Release(t, c, s).(totalEscaped := t.totalEscaped - |s|, totalBlocked := t.totalBlocked - |c| - |s|)
    ensures Index(t')
  {
    hide JobsIndex, Tracked, JobsOf, Holds;
    HoldsLess(t.captured, false, c);
    HoldsLess(t.escaped, true, s);
    RemovedSize(t.captured, c);
    RemovedSize(t.escaped, s);
    ReleaseJobsIndex(t, c, s);
    TrackedSame(Release(t, c, s), t');
  }

  lemma EligibleCaptured(t: Tracker, class_: string)
    ensures Eligible(t, class_) <= t.captured.Keys
  {
  }

  lemma UnblockKeeps(t: Tracker, class_: string)
    requires Index(t)
    ensures Index(Unblock(t, class_))
  {
    hide JobsIndex, Tracked, JobsOf, Holds, Eligible;
    EligibleCaptured(t, class_);
    assert |t.escaped.Keys| == |t.escaped|;
    ReleaseKeeps(t, Eligible(t, class_), t.escaped.Keys, Unblock(t, class_));
  }

  lemma UnblockFailedKeeps(t: Tracker)
    requires Index(t)
    ensures Index(UnblockFailed(t))
  {
    hide JobsIndex, Tracked, JobsOf, Holds, CountsExact;
    if t.enabled {
      ReleaseKeeps(t, FailedIn(t.captured), FailedIn(t.escaped), UnblockFailed(t));
    }
  }

  lemma JobsOfOne(m: map<string, Wrapped>, id: string)
    requires id in m
    ensures JobsOf(m, {id}) == {m[id].eval.jobId}
  {
  }

  lemma JobsOfNone(m: map<string, Wrapped>)
    ensures JobsOf(m, {}) == {} && m - {} == m
  {
  }

  lemma DropCapturedIsRelease(t: Tracker, id: string)
    requires id in t.captured && id !in t.escaped
    ensures DropEscaped(DropCaptured(t, id), id) == Release(t, {id}, {}).(totalBlocked := t.totalBlocked - 1)
  {
    hide JobsOf;
    JobsOfOne(t.captured, id);
    JobsOfNone(t.escaped);
  }

  lemma DropEscapedIsRelease(t: Tracker, id: string)
    requires id !in t.captured && id in t.escaped
    ensures DropEscaped(DropCaptured(t, id), id)
            == Release(t, {}, {id}).(totalBlocked := t.totalBlocked - 1, totalEscaped := t.totalEscaped - 1)
  {
    hide JobsOf;
    JobsOfOne(t.escaped, id);
    JobsOfNone(t.captured);
  }

  /** Untracking a job releases its one tracked evaluation. */
  lemma UntrackIsRelease(t: Tracker, job: string)
    requires Index(t) && t.enabled && job in t.jobs
    ensures var id, t' := t.jobs[job], Untrack(t, job);
            && (id in t.captured || id in t.escaped)
            && (id in t.captured ==> t' == Release(t, {id}, {}).(totalBlocked := t.totalBlocked - 1))
            && (id in t.escaped ==> t' == Release(t, {}, {id}).(
                  totalBlocked := t.totalBlocked - 1, totalEscaped := t.totalEscaped - 1))
  {
    assert t.jobs[job] in Tracked(t);
    hide JobsIndex, Release, Holds, CountsExact, DropCaptured, DropEscaped;
    TrackedKeys(t);
    var id := t.jobs[job];
    if id in t.captured {
      DropCapturedIsRelease(t, id);
    } else {
      DropEscapedIsRelease(t, id);
    }
  }

  lemma UntrackKeeps(t: Tracker, job: string)
    requires Index(t)
    ensures Index(Untrack(t, job))
  {
    hide JobsIndex, Holds, JobsOf, CountsExact, DropCaptured, DropEscaped;
    if t.enabled && job in t.jobs {
      UntrackIsRelease(t, job);
      var id := t.jobs[job];
      if id in t.captured {
        ReleaseKeeps(t, {id}, {}, Untrack(t, job));
      } else {
        ReleaseKeeps(t, {}, {id}, Untrack(t, job));
      }
    }
  }
}
