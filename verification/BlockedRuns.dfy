/** Whole runs of the blocked tracker, with a history of what was recorded and of where
    every blocked evaluation went. */
module BlockedRuns {
  import opened Evaluations
  import opened BlockedState
  import opened BlockedTheorems

  datatype Action =
    | Block(e: Evaluation, token: string)
    | UntrackJob(job: string)
    | Record(class_: string, index: nat)
    | SendUpdate(u: Update)
    | TakeUpdate
    | ProcessUpdate(u: Update)
    | Failed
    | Drain
    | Enable(on: bool)

  /** The tracker and the history: every unblock recorded while enabled, and the
      evaluations blocked while enabled by where they went. */
  datatype System = System(
    t: Tracker,
    recorded: set<Update>,
    accepted: multiset<Evaluation>,
    handed: multiset<Evaluation>,
    untracked: multiset<Evaluation>,
    cancelled: multiset<Evaluation>,
    flushed: multiset<Evaluation>)

  const UNBLOCK_BUFFER := 8096

  /** An ID determines its job; Raft indexes of a class do not decrease; the channel has
      room; a processed update was taken. */
  ghost predicate Allowed(t: Tracker, a: Action) {
    match a
    case Block(e, _) => e.id in Tracked(t) ==> Tracked(t)[e.id].eval.jobId == e.jobId
    case Record(c, i) => c in t.unblockIndexes ==> t.unblockIndexes[c] <= i
    case SendUpdate(u) => u in t.unsent && |t.queue| < UNBLOCK_BUFFER
    case TakeUpdate => |t.queue| > 0
    case ProcessUpdate(u) => u in t.taken
    case _ => true
  }

  ghost function Apply(t: Tracker, a: Action): Tracker
    requires Allowed(t, a)
  {
    match a
    case Block(e, token) => ProcessBlock(t, e, token).0
    case UntrackJob(job) => Untrack(t, job)
    case Record(c, i) => RecordUnblock(t, c, i)
    case SendUpdate(u) => Send(t, u)
    case TakeUpdate => Take(t)
    case ProcessUpdate(u) => Process(t, u)
    case Failed => UnblockFailed(t)
    case Drain => t.(duplicates := [])
    case Enable(on) => SetEnabled(t, on)
  }

  // ---- no missed unblock -----------------------------------------------------------

  /** The updates that are still to be processed. */
  function Pending(t: Tracker): multiset<Update> {
    t.unsent + multiset(t.queue) + t.taken
  }

  ghost predicate PendingFor(t: Tracker, class_: string) {
    exists u :: u in Pending(t) && u.class_ == class_
  }

  /** A tracked evaluation that an unblock passed by has an update coming. */
  ghost predicate Covered(t: Tracker) {
    forall id, c {:trigger MissedClass(t, Tracked(t)[id].eval, c)} ::
      id in Tracked(t) && MissedClass(t, Tracked(t)[id].eval, c) ==> PendingFor(t, c)
  }

  /** Covered survives when evaluations leave and updates stay. */
  lemma CoverShrinks(t: Tracker, t': Tracker)
    requires Covered(t) && t'.unblockIndexes == t.unblockIndexes && Pending(t') == Pending(t)
    requires forall id :: id in Tracked(t') ==> id in Tracked(t) && Tracked(t')[id] == Tracked(t)[id]
    ensures Covered(t')
  {
    forall id, c | id in Tracked(t') && MissedClass(t', Tracked(t')[id].eval, c)
      ensures PendingFor(t', c)
    {
      assert MissedClass(t, Tracked(t)[id].eval, c);
      var u :| u in Pending(t) && u.class_ == c;
      assert u in Pending(t');
    }
  }

  lemma CoverTrack(t: Tracker, e: Evaluation, token: string)
    requires Covered(t) && e.id !in Tracked(t) && !MissedUnblock(t, e)
    ensures Covered(Track(t, e, token))
  {
    var t' := Track(t, e, token);
    TrackedAdd(t, e, token);
    hide Track, Tracked;
    assert t'.unblockIndexes == t.unblockIndexes && Pending(t') == Pending(t) by { TrackFrame(t, e, token); }
    forall id, c | id in Tracked(t') && MissedClass(t', Tracked(t')[id].eval, c)
      ensures PendingFor(t', c)
    {
      assert MissedClass(t, Tracked(t')[id].eval, c);
      assert id != e.id;
      assert MissedClass(t, Tracked(t)[id].eval, c);
      var u :| u in Pending(t) && u.class_ == c;
      assert u in Pending(t');
    }
  }

  lemma TrackFrame(t: Tracker, e: Evaluation, token: string)
    ensures var t' := Track(t, e, token);
            t'.unblockIndexes == t.unblockIndexes && Pending(t') == Pending(t)
  {
  }

  lemma CoverRecord(t: Tracker, c: string, i: nat)
    requires Covered(t)
    ensures Covered(RecordUnblock(t, c, i))
  {
    var t' := RecordUnblock(t, c, i);
    if t.enabled {
      TrackedSame(t, t');
      assert Pending(t') == Pending(t) + multiset{Update(c, i)};
      forall id, d | id in Tracked(t') && MissedClass(t', Tracked(t')[id].eval, d)
        ensures PendingFor(t', d)
      {
        if d == c {
          assert Update(c, i) in Pending(t');
        } else {
          assert MissedClass(t, Tracked(t)[id].eval, d);
          var u :| u in Pending(t) && u.class_ == d;
          assert u in Pending(t');
        }
      }
    }
  }

  /** Processing an update releases every tracked evaluation that the class concerns. */
  lemma UnblockReleases(t: Tracker, class_: string, id: string)
    requires Index(t) && id in Tracked(t)
    ensures id in Tracked(Unblock(t, class_)) <==>
            var e := Tracked(t)[id].eval;
            !e.escaped && class_ in e.classEligibility && !e.classEligibility[class_]
    ensures id in Tracked(Unblock(t, class_)) ==> Tracked(Unblock(t, class_))[id] == Tracked(t)[id]
  {
    UnblockTracked(t, class_);
    hide JobsIndex, CountsExact, Unblock;
  }

  lemma UnblockTracked(t: Tracker, class_: string)
    requires Index(t)
    ensures Tracked(Unblock(t, class_)) == Tracked(t) - (Eligible(t, class_) + t.escaped.Keys)
  {
    hide JobsIndex, CountsExact, Holds, Release, Tracked;
    TrackedRelease(t, Eligible(t, class_), t.escaped.Keys);
    TrackedSame(Release(t, Eligible(t, class_), t.escaped.Keys), Unblock(t, class_));
  }

  /** After a processed update the tracked evaluations did not wait for its class. */
  lemma ProcessTracked(t: Tracker, u: Update, id: string)
    requires Index(t) && id in Tracked(Process(t, u))
    ensures id in Tracked(t) && Tracked(Process(t, u))[id] == Tracked(t)[id]
    ensures !Tracked(t)[id].eval.escaped && Ineligible(Tracked(t)[id].eval, u.class_)
  {
    hide Index, Unblock, Tracked;
    var t1 := t.(taken := t.taken - multiset{u});
    IndexSame(t, t1);
    TrackedSame(t, t1);
    if t.enabled {
      UnblockTracked(t1, u.class_);
      UnblockReleases(t1, u.class_, id);
    } else {
      DisabledEmpty(t);
      TrackedSame(t, Process(t, u));
    }
  }

  lemma DisabledEmpty(t: Tracker)
    requires Index(t) && !t.enabled
    ensures Tracked(t) == map[]
  {
  }

  lemma CoverProcess(t: Tracker, u: Update)
    requires Index(t) && Covered(t) && u in t.taken
    ensures Covered(Process(t, u))
  {
    hide Process, Index, Pending, Tracked, Ineligible;
    var t' := Process(t, u);
    ProcessFrame(t, u);
    forall id, c | id in Tracked(t') && MissedClass(t', Tracked(t')[id].eval, c)
      ensures PendingFor(t', c)
    {
      ProcessTracked(t, u, id);
      assert MissedClass(t, Tracked(t)[id].eval, c);
      var v :| v in Pending(t) && v.class_ == c;
      assert v in Pending(t');
    }
  }

  lemma ProcessFields(t: Tracker, u: Update)
    ensures var t' := Process(t, u);
            t'.unsent == t.unsent && t'.queue == t.queue && t'.taken == t.taken - multiset{u}
            && t'.unblockIndexes == t.unblockIndexes
  {
    hide Unblock;
    UnblockFields(t.(taken := t.taken - multiset{u}), u.class_);
  }

  lemma UnblockFields(t: Tracker, class_: string)
    ensures var t' := Unblock(t, class_);
            t'.unsent == t.unsent && t'.queue == t.queue && t'.taken == t.taken && t'.unblockIndexes == t.unblockIndexes
  {
    hide Eligible, Release;
    ReleaseFields(t, Eligible(t, class_), t.escaped.Keys);
  }

  lemma ReleaseFields(t: Tracker, c: set<string>, s: set<string>)
    ensures var t' := Release(t, c, s);
            t'.unsent == t.unsent && t'.queue == t.queue && t'.taken == t.taken && t'.unblockIndexes == t.unblockIndexes
  {
    hide JobsOf;
  }

  lemma ProcessFrame(t: Tracker, u: Update)
    requires u in t.taken
    ensures var t' := Process(t, u);
            Pending(t) == Pending(t') + multiset{u} && t'.unblockIndexes == t.unblockIndexes
  {
    hide Process;
    ProcessFields(t, u);
    assert t.taken == t.taken - multiset{u} + multiset{u};
  }

  lemma SetEnabledKeeps(t: Tracker, on: bool)
    requires Index(t) && Covered(t)
    ensures Index(SetEnabled(t, on)) && Covered(SetEnabled(t, on))
  {
    if t.enabled != on {
      if on {
        TrackedSame(t, SetEnabled(t, on));
        CoverShrinks(t, SetEnabled(t, on));
      } else {
        assert Tracked(SetEnabled(t, on)) == map[];
      }
    }
  }

  lemma QueueFrame(t: Tracker, a: Action)
    requires Allowed(t, a) && (a.SendUpdate? || a.TakeUpdate?)
    ensures Pending(Apply(t, a)) == Pending(t)
  {
    if a.TakeUpdate? {
      assert t.queue == [t.queue[0]] + t.queue[1..];
    }
  }

  /** The tracked evaluations and the index do not look at the update queues. */
  lemma IndexSame(t: Tracker, t': Tracker)
    requires Index(t)
    requires t'.enabled == t.enabled && t'.captured == t.captured && t'.escaped == t.escaped
    requires t'.jobs == t.jobs && t'.totalEscaped == t.totalEscaped && t'.totalBlocked == t.totalBlocked
    ensures Index(t')
  {
    hide JobsIndex, Tracked;
    TrackedSame(t, t');
  }

  ghost predicate Good(t: Tracker) {
    Index(t) && Covered(t)
  }

  lemma BlockKeeps(t: Tracker, e: Evaluation, token: string)
    requires Good(t) && Allowed(t, Block(e, token))
    ensures Good(ProcessBlock(t, e, token).0)
  {
    SameJobNotTwice(t, e);
    hide Index, Covered, Track, Tracked, MissedUnblock;
    if t.enabled && e.jobId !in t.jobs && !MissedUnblock(t, e) {
      TrackKeeps(t, e, token);
      CoverTrack(t, e, token);
    } else if t.enabled && e.jobId in t.jobs {
      var t' := ProcessBlock(t, e, token).0;
      IndexSame(t, t');
      TrackedSame(t, t');
      CoverShrinks(t, t');
    }
  }

  lemma ReleaseCover(t: Tracker, c: set<string>, s: set<string>, t': Tracker)
    requires Index(t) && Covered(t) && c <= t.captured.Keys && s <= t.escaped.Keys
    requires t' == Release(t, c, s).(totalEscaped := t'.totalEscaped, totalBlocked := t'.totalBlocked)
    ensures Covered(t')
  {
    hide JobsIndex, JobsOf, Covered, Tracked;
    TrackedRelease(t, c, s);
    TrackedSame(Release(t, c, s), t');
    CoverShrinks(t, t');
  }

  lemma UntrackGood(t: Tracker, job: string)
    requires Good(t)
    ensures Good(Untrack(t, job))
  {
    hide Covered, JobsIndex, Holds, CountsExact, DropCaptured, DropEscaped, Release;
    UntrackKeeps(t, job);
    if t.enabled && job in t.jobs {
      UntrackIsRelease(t, job);
      var id := t.jobs[job];
      if id in t.captured {
        ReleaseCover(t, {id}, {}, Untrack(t, job));
      } else {
        ReleaseCover(t, {}, {id}, Untrack(t, job));
      }
    }
  }

  lemma FailedGood(t: Tracker)
    requires Good(t)
    ensures Good(UnblockFailed(t))
  {
    hide Covered, JobsIndex, Holds, CountsExact, Release;
    UnblockFailedKeeps(t);
    if t.enabled {
      ReleaseCover(t, FailedIn(t.captured), FailedIn(t.escaped), UnblockFailed(t));
    }
  }

  lemma ProcessGood(t: Tracker, u: Update)
    requires Good(t) && u in t.taken
    ensures Good(Process(t, u))
  {
    hide Covered, Index, Unblock;
    CoverProcess(t, u);
    var t1 := t.(taken := t.taken - multiset{u});
    IndexSame(t, t1);
    UnblockKeeps(t1, u.class_);
  }

  /** Every step keeps the index consistent and every passed-by evaluation covered. */
  lemma StepKeeps(t: Tracker, a: Action)
    requires Good(t) && Allowed(t, a)
    ensures Good(Apply(t, a))
  {
    hide Covered, Index, ProcessBlock, Untrack, Process, UnblockFailed;
    match a
    case Block(e, token) => BlockKeeps(t, e, token);
    case UntrackJob(job) => UntrackGood(t, job);
    case Record(c, i) => IndexSame(t, Apply(t, a)); CoverRecord(t, c, i);
    case SendUpdate(u) => QueueFrame(t, a); IndexSame(t, Apply(t, a)); CoverQueue(t, Apply(t, a));
    case TakeUpdate => QueueFrame(t, a); IndexSame(t, Apply(t, a)); CoverQueue(t, Apply(t, a));
    case ProcessUpdate(u) => ProcessGood(t, u);
    case Failed => FailedGood(t);
    case Drain => IndexSame(t, Apply(t, a)); CoverQueue(t, Apply(t, a));
    case Enable(on) => SetEnabledKeeps(t, on);
  }

  lemma CoverQueue(t: Tracker, t': Tracker)
    requires Covered(t) && t'.unblockIndexes == t.unblockIndexes && Pending(t') == Pending(t)
    requires t'.captured == t.captured && t'.escaped == t.escaped
    ensures Covered(t')
  {
    hide Covered, Tracked;
    TrackedSame(t, t');
    CoverShrinks(t, t');
  }

  // ---- where every blocked evaluation goes -----------------------------------------

  function Evals(m: map<string, Wrapped>): set<Evaluation> {
    set id | id in m :: m[id].eval
  }

  function Count(m: map<string, Wrapped>): multiset<Evaluation> {
    multiset(Evals(m))
  }

  ghost predicate Keyed(m: map<string, Wrapped>) {
    forall id :: id in m ==> m[id].eval.id == id
  }

  lemma CountSplit(m: map<string, Wrapped>, ids: set<string>)
    requires Keyed(m)
    ensures Count(m) == Count(m - ids) + Count(Only(m, ids))
  {
    var rest, part := m - ids, Only(m, ids);
    forall e
      ensures e in Evals(m) <==> e in Evals(rest) || e in Evals(part)
      ensures !(e in Evals(rest) && e in Evals(part))
    {
      assert e in Evals(m) ==> e.id in m && m[e.id].eval == e;
      assert e in Evals(rest) ==> e.id in rest && rest[e.id].eval == e;
      assert e in Evals(part) ==> e.id in part && part[e.id].eval == e;
      if e.id in rest && rest[e.id].eval == e {
        assert m[e.id].eval == e;
      }
      if e.id in part && part[e.id].eval == e {
        assert m[e.id].eval == e;
      }
    }
    assert Evals(m) == Evals(rest) + Evals(part) && Evals(rest) !! Evals(part);
  }

  lemma CountAdd(m: map<string, Wrapped>, w: Wrapped)
    requires Keyed(m) && w.eval.id !in m
    ensures Count(m[w.eval.id := w]) == Count(m) + multiset{w.eval}
  {
    var m' := m[w.eval.id := w];
    assert m'[w.eval.id].eval == w.eval;
    assert Evals(m') == Evals(m) + {w.eval} by {
      forall e | e in Evals(m)
        ensures e in Evals(m')
      {
        var id :| id in m && m[id].eval == e;
        assert m'[id].eval == e;
      }
    }
    assert w.eval !in Evals(m);
  }

  lemma TrackedKeyed(t: Tracker)
    requires Index(t)
    ensures Keyed(Tracked(t))
  {
  }

  lemma IndexDisjoint(t: Tracker)
    requires Index(t)
    ensures t.captured.Keys !! t.escaped.Keys
  {
  }

  lemma OnlyParts(m: map<string, Wrapped>, n: map<string, Wrapped>, c: set<string>, s: set<string>)
    requires m.Keys !! n.Keys && c <= m.Keys && s <= n.Keys
    ensures Only(m + n, c + s) == Only(m, c) + Only(n, s)
  {
  }

  /** Releasing takes the released evaluations off and nothing else. */
  lemma ReleaseCount(t: Tracker, c: set<string>, s: set<string>, t': Tracker)
    requires Index(t) && c <= t.captured.Keys && s <= t.escaped.Keys
    requires t'.captured == Release(t, c, s).captured && t'.escaped == Release(t, c, s).escaped
    ensures Count(Tracked(t)) == Count(Tracked(t')) + Count(Only(t.captured, c) + Only(t.escaped, s))
  {
    hide Count, Release, Index, Only;
    IndexDisjoint(t);
    TrackedKeyed(t);
    TrackedRelease(t, c, s);
    TrackedSame(Release(t, c, s), t');
    OnlyParts(t.captured, t.escaped, c, s);
    CountSplit(Tracked(t), c + s);
  }

  /** What a step hands to the broker. */
  ghost function Handed(t: Tracker, a: Action): multiset<Evaluation> {
    match a
    case Block(e, token) => if ProcessBlock(t, e, token).1 != [] then multiset{e} else multiset{}
    case ProcessUpdate(u) => if t.enabled then Count(UnblockedBy(t, u.class_)) else multiset{}
    case Failed => if t.enabled then Count(FailedTracked(t)) else multiset{}
    case _ => multiset{}
  }

  ghost function Accepted(t: Tracker, a: Action): multiset<Evaluation> {
    if a.Block? && t.enabled then multiset{a.e} else multiset{}
  }

  ghost function Untracked(t: Tracker, a: Action): multiset<Evaluation> {
    if a.UntrackJob? && t.enabled && a.job in t.jobs && t.jobs[a.job] in Tracked(t)
    then multiset{Tracked(t)[t.jobs[a.job]].eval} else multiset{}
  }

  ghost function Cancelled(t: Tracker, a: Action): multiset<Evaluation> {
    if a.Drain? then multiset(t.duplicates) else multiset{}
  }

  ghost function Flushed(t: Tracker, a: Action): multiset<Evaluation> {
    if a == Enable(false) && t.enabled then Count(Tracked(t)) + multiset(t.duplicates) else multiset{}
  }

  /** What the tracker still holds. */
  ghost function Held(t: Tracker): multiset<Evaluation> {
    Count(Tracked(t)) + multiset(t.duplicates)
  }

  ghost predicate Balanced(t: Tracker, a: Action, t': Tracker) {
    Held(t) + Accepted(t, a) == Held(t') + Handed(t, a) + Untracked(t, a) + Cancelled(t, a) + Flushed(t, a)
  }

  lemma BlockBalanced(t: Tracker, e: Evaluation, token: string)
    requires Index(t) && Allowed(t, Block(e, token))
    ensures Balanced(t, Block(e, token), ProcessBlock(t, e, token).0)
  {
    hide Index, Count, MissedUnblock, Track;
    if t.enabled && e.jobId !in t.jobs && !MissedUnblock(t, e) {
      SameJobNotTwice(t, e);
      TrackCount(t, e, token);
    } else {
      TrackedSame(t, ProcessBlock(t, e, token).0);
    }
  }

  lemma TrackCount(t: Tracker, e: Evaluation, token: string)
    requires Index(t) && e.id !in Tracked(t)
    ensures Count(Tracked(Track(t, e, token))) == Count(Tracked(t)) + multiset{e}
    ensures Track(t, e, token).duplicates == t.duplicates
  {
    hide Index, Count, Tracked;
    TrackedKeyed(t);
    TrackedAdd(t, e, token);
    CountAdd(Tracked(t), Wrapped(e, token));
  }

  lemma UntrackCount(t: Tracker, job: string)
    requires Index(t) && t.enabled && job in t.jobs
    ensures t.jobs[job] in Tracked(t)
    ensures Count(Tracked(t)) == Count(Tracked(Untrack(t, job))) + multiset{Tracked(t)[t.jobs[job]].eval}
    ensures Untrack(t, job).duplicates == t.duplicates
  {
    hide Index, Count, JobsOf, Untrack, Only;
    IndexDisjoint(t);
    UntrackIsRelease(t, job);
    var id, t' := t.jobs[job], Untrack(t, job);
    TrackedKeys(t);
    if id in t.captured {
      ReleaseCount(t, {id}, {}, t');
      OnlyOne(t.captured, t.escaped, id);
      CountOne(id, t.captured[id]);
    } else {
      ReleaseCount(t, {}, {id}, t');
      OnlyOne(t.escaped, t.captured, id);
      CountOne(id, t.escaped[id]);
    }
  }

  lemma OnlyOne(m: map<string, Wrapped>, n: map<string, Wrapped>, id: string)
    requires id in m
    ensures Only(m, {id}) + Only(n, {}) == map[id := m[id]]
    ensures Only(n, {}) + Only(m, {id}) == map[id := m[id]]
  {
  }

  lemma UntrackBalanced(t: Tracker, job: string)
    requires Index(t)
    ensures Balanced(t, UntrackJob(job), Untrack(t, job))
  {
    hide Index, Count, Untrack, Tracked;
    if t.enabled && job in t.jobs {
      UntrackCount(t, job);
    } else {
      UntrackNothing(t, job);
    }
  }

  lemma UntrackNothing(t: Tracker, job: string)
    requires !t.enabled || job !in t.jobs
    ensures Untrack(t, job) == t
  {
  }

  lemma CountOne(id: string, w: Wrapped)
    ensures Count(map[id := w]) == multiset{w.eval}
  {
    var m := map[id := w];
    assert id in m && m[id].eval == w.eval;
    assert Evals(m) == {w.eval};
  }

  lemma ProcessCount(t: Tracker, class_: string)
    requires Index(t)
    ensures Count(Tracked(t)) == Count(Tracked(Unblock(t, class_))) + Count(UnblockedBy(t, class_))
    ensures Unblock(t, class_).duplicates == t.duplicates
  {
    hide Index, Count, JobsOf, Tracked;
    assert Only(t.escaped, t.escaped.Keys) == t.escaped;
    ReleaseCount(t, Eligible(t, class_), t.escaped.Keys, Unblock(t, class_));
  }

  lemma ProcessBalanced(t: Tracker, u: Update)
    requires Index(t) && u in t.taken
    ensures Balanced(t, ProcessUpdate(u), Process(t, u))
  {
    hide Index, Count, Tracked, Unblock;
    var t1 := t.(taken := t.taken - multiset{u});
    IndexSame(t, t1);
    TrackedSame(t, t1);
    assert UnblockedBy(t1, u.class_) == UnblockedBy(t, u.class_);
    ProcessCount(t1, u.class_);
  }

  lemma FailedCount(t: Tracker)
    requires Index(t) && t.enabled
    ensures Count(Tracked(t)) == Count(Tracked(UnblockFailed(t))) + Count(FailedTracked(t))
    ensures UnblockFailed(t).duplicates == t.duplicates
  {
    hide Index, Count, JobsOf, Tracked, Only;
    ReleaseCount(t, FailedIn(t.captured), FailedIn(t.escaped), UnblockFailed(t));
  }

  lemma FailedBalanced(t: Tracker)
    requires Index(t)
    ensures Balanced(t, Failed, UnblockFailed(t))
  {
    hide Index, Count, Tracked, Release, FailedTracked, FailedIn;
    if t.enabled {
      FailedCount(t);
    }
  }

  /** No step loses or invents a blocked evaluation. */
  lemma StepBalanced(t: Tracker, a: Action)
    requires Good(t) && Allowed(t, a)
    ensures Balanced(t, a, Apply(t, a))
  {
    hide Covered, Index, ProcessBlock, Untrack, Process, UnblockFailed, Count, Balanced;
    match a
    case Block(e, token) => BlockBalanced(t, e, token);
    case UntrackJob(job) => UntrackBalanced(t, job);
    case ProcessUpdate(u) => ProcessBalanced(t, u);
    case Failed => FailedBalanced(t);
    case Enable(on) => EnableBalanced(t, on);
    case _ => QuietBalanced(t, a);
  }

  lemma QuietBalanced(t: Tracker, a: Action)
    requires Allowed(t, a) && (a.Record? || a.SendUpdate? || a.TakeUpdate? || a.Drain?)
    ensures Balanced(t, a, Apply(t, a))
  {
    hide Apply, Allowed, Handed, Accepted, Untracked, Cancelled, Flushed, Count, Tracked;
    QuietTerms(t, a);
    QuietFields(t, a);
    TrackedSame(t, Apply(t, a));
    assert Held(t) == Held(Apply(t, a)) + Cancelled(t, a);
  }

  lemma QuietTerms(t: Tracker, a: Action)
    requires a.Record? || a.SendUpdate? || a.TakeUpdate? || a.Drain?
    ensures Handed(t, a) == Accepted(t, a) == Untracked(t, a) == Flushed(t, a) == multiset{}
    ensures Cancelled(t, a) == if a.Drain? then multiset(t.duplicates) else multiset{}
  {
  }

  lemma QuietFields(t: Tracker, a: Action)
    requires Allowed(t, a) && (a.Record? || a.SendUpdate? || a.TakeUpdate? || a.Drain?)
    ensures var t' := Apply(t, a);
            t'.captured == t.captured && t'.escaped == t.escaped && t'.duplicates == if a.Drain? then [] else t.duplicates
  {
  }

  lemma EnableBalanced(t: Tracker, on: bool)
    ensures Balanced(t, Enable(on), SetEnabled(t, on))
  {
    assert Evals(map[]) == {};
    hide Evals;
    if on || !t.enabled {
      TrackedSame(t, SetEnabled(t, on));
    } else {
      assert Tracked(SetEnabled(t, on)) == map[];
    }
  }

  // ---- between the switch and the flush --------------------------------------------

  /** Disabling clears the switch and flushes under separate locks. A step in between touches
      nothing that the flush does not clear anyway, save the updates on their way. */
  lemma GapHarmless(t: Tracker, a: Action)
    requires !t.enabled && Allowed(t, a) && !a.Enable?
    ensures var t' := Apply(t, a);
            !t'.enabled && Flush(t') == Flush(t).(unsent := t'.unsent, taken := t'.taken)
    ensures Handed(t, a) == multiset{}
  {
  }

  // ---- runs ------------------------------------------------------------------------

  ghost function Next(s: System, a: Action): System
    requires Allowed(s.t, a)
  {
    System(Apply(s.t, a),
           if a.Record? && s.t.enabled then s.recorded + {Update(a.class_, a.index)} else s.recorded,
           s.accepted + Accepted(s.t, a),
           s.handed + Handed(s.t, a),
           s.untracked + Untracked(s.t, a),
           s.cancelled + Cancelled(s.t, a),
           s.flushed + Flushed(s.t, a))
  }

  ghost const START := System(New(), {}, multiset{}, multiset{}, multiset{}, multiset{}, multiset{})

  ghost predicate IsRun(run: seq<Action>)
    decreases |run|, 0
  {
    run == [] ||
    (var last := |run| - 1;
     IsRun(run[..last]) && Allowed(After(run[..last]).t, run[last]))
  }

  ghost function After(run: seq<Action>): System
    requires IsRun(run)
    decreases |run|, 1
  {
    if run == [] then START
    else
      var last := |run| - 1;
      Next(After(run[..last]), run[last])
  }

  /** unblockIndexes holds the highest recorded index of each class. */
  ghost predicate Highest(s: System) {
    && (forall u :: u in s.recorded ==>
          u.class_ in s.t.unblockIndexes && u.index <= s.t.unblockIndexes[u.class_])
    && (forall c :: c in s.t.unblockIndexes ==> Update(c, s.t.unblockIndexes[c]) in s.recorded)
  }

  ghost predicate Sound(s: System) {
    && Good(s.t) && Highest(s)
    && s.accepted == Held(s.t) + s.handed + s.untracked + s.cancelled + s.flushed
  }

  lemma ReleaseFrame(t: Tracker, c: set<string>, s: set<string>)
    ensures Release(t, c, s).unblockIndexes == t.unblockIndexes
  {
    hide JobsOf;
  }

  lemma DropFrame(t: Tracker, id: string)
    ensures DropCaptured(t, id).unblockIndexes == DropEscaped(t, id).unblockIndexes == t.unblockIndexes
  {
  }

  lemma UntrackFrame(t: Tracker, job: string)
    ensures Untrack(t, job).unblockIndexes == t.unblockIndexes
  {
    hide DropCaptured, DropEscaped;
    if t.enabled && job in t.jobs {
      DropFrame(t, t.jobs[job]);
      DropFrame(DropCaptured(t, t.jobs[job]), t.jobs[job]);
    }
  }

  lemma FailedFrame(t: Tracker)
    ensures UnblockFailed(t).unblockIndexes == t.unblockIndexes
  {
    hide Release, FailedIn;
    ReleaseFrame(t, FailedIn(t.captured), FailedIn(t.escaped));
  }

  lemma BlockFrame(t: Tracker, e: Evaluation, token: string)
    ensures ProcessBlock(t, e, token).0.unblockIndexes == t.unblockIndexes
  {
    hide Track, MissedUnblock;
    TrackFrame(t, e, token);
  }

  lemma IndexesFrame(t: Tracker, a: Action)
    requires Allowed(t, a) && !a.Record?
    ensures Apply(t, a).unblockIndexes == t.unblockIndexes
  {
    hide ProcessBlock, Untrack, UnblockFailed, Process, Tracked;
    match a
    case Block(e, token) => BlockFrame(t, e, token);
    case UntrackJob(job) => UntrackFrame(t, job);
    case ProcessUpdate(u) => ProcessFrame(t, u);
    case Failed => FailedFrame(t);
    case _ =>
  }

  /** Recording keeps the highest index exactly when it is not below the one it replaces. */
  lemma RecordExact(s: System, class_: string, index: nat)
    requires Highest(s) && s.t.enabled
    ensures var s' := s.(t := RecordUnblock(s.t, class_, index), recorded := s.recorded + {Update(class_, index)});
            Highest(s') <==> (class_ in s.t.unblockIndexes ==> s.t.unblockIndexes[class_] <= index)
  {
    var s' := s.(t := RecordUnblock(s.t, class_, index), recorded := s.recorded + {Update(class_, index)});
    if class_ in s.t.unblockIndexes {
      assert Update(class_, s.t.unblockIndexes[class_]) in s'.recorded;
    }
  }

  lemma NextHighest(s: System, a: Action)
    requires Highest(s) && Allowed(s.t, a)
    ensures Highest(Next(s, a))
  {
    hide Apply;
    if a.Record? {
      RecordHighest(s, a);
    } else {
      IndexesFrame(s.t, a);
    }
  }

  lemma RecordHighest(s: System, a: Action)
    requires Highest(s) && a.Record? && Allowed(s.t, a)
    ensures Highest(Next(s, a))
  {
    if s.t.enabled {
      RecordExact(s, a.class_, a.index);
    }
  }

  lemma Regroup<T>(held: multiset<T>, held': multiset<T>, new_: multiset<T>,
                   h: multiset<T>, h': multiset<T>, u: multiset<T>, u': multiset<T>,
                   c: multiset<T>, c': multiset<T>, f: multiset<T>, f': multiset<T>)
    requires held + new_ == held' + h' + u' + c' + f'
    ensures held + h + u + c + f + new_ == held' + (h + h') + (u + u') + (c + c') + (f + f')
  {
    assert held + h + u + c + f + new_ == (held + new_) + h + u + c + f;
  }

  lemma NextSound(s: System, a: Action)
    requires Sound(s) && Allowed(s.t, a)
    ensures Sound(Next(s, a))
  {
    hide Good, Highest, Held, Handed, Untracked, Cancelled, Flushed, Accepted, Apply, Allowed;
    StepKeeps(s.t, a);
    StepBalanced(s.t, a);
    NextHighest(s, a);
    Regroup(Held(s.t), Held(Apply(s.t, a)), Accepted(s.t, a), s.handed, Handed(s.t, a), s.untracked, Untracked(s.t, a),
            s.cancelled, Cancelled(s.t, a), s.flushed, Flushed(s.t, a));
  }

  lemma {:induction false} RunSound(run: seq<Action>)
    requires IsRun(run)
    ensures Sound(After(run))
    decreases |run|
  {
    if run == [] {
      assert Evals(map[]) == {};
    } else {
      hide Sound, Next;
      var last := |run| - 1;
      RunSound(run[..last]);
      NextSound(After(run[..last]), run[last]);
    }
  }

  /** The tracker is a consistent index in every reachable state. */
  lemma AlwaysIndexed(run: seq<Action>)
    requires IsRun(run)
    ensures Index(After(run).t)
  {
    RunSound(run);
  }

  /** Every evaluation blocked while enabled is in exactly one place: tracked, among the
      duplicates, handed to the broker, untracked, cancelled or flushed. */
  lemma NothingLost(run: seq<Action>)
    requires IsRun(run)
    ensures var s := After(run);
            s.accepted == Count(Tracked(s.t)) + multiset(s.t.duplicates)
                          + s.handed + s.untracked + s.cancelled + s.flushed
  {
    RunSound(run);
  }

  /** No missed unblock: when a recorded unblock above its snapshot concerns a tracked
      evaluation, an update of that class is unsent, queued or taken, and its processing
      releases the evaluation. */
  lemma NoMissedUnblock(run: seq<Action>, id: string, u: Update) returns (p: Update)
    requires IsRun(run) && id in Tracked(After(run).t) && u in After(run).recorded
    requires var e := Tracked(After(run).t)[id].eval;
             e.snapshotIndex < u.index
             && (e.escaped || u.class_ !in e.classEligibility || e.classEligibility[u.class_])
    ensures var t := After(run).t;
            && p in Pending(t) && p.class_ == u.class_
            && t.enabled && id !in Tracked(Unblock(t, p.class_))
  {
    RunSound(run);
    var t := After(run).t;
    assert t.enabled;
    hide After, IsRun, Unblock, Pending, Held, JobsIndex, Holds, CountsExact, Tracked;
    assert MissedClass(t, Tracked(t)[id].eval, u.class_);
    p :| p in Pending(t) && p.class_ == u.class_;
    UnblockReleases(t, p.class_, id);
  }

  // ---- indexes that decrease -------------------------------------------------------

  /** An unblock of a class from the record to its processing, with nothing tracked. */
  function Passed(t: Tracker, u: Update): Tracker
    requires t.enabled && t.queue == []
  {
    Process(Take(Send(RecordUnblock(t, u.class_, u.index), u)), u)
  }

  /** The evaluation that ran on a snapshot between the two indexes. */
  function Between(): Evaluation {
    Evaluation("id", "job", "service", "", 0, map[], false, 4, 0)
  }

  /** With indexes that decrease an unblock is missed: a class is unblocked at 5 and then at 3, and an
      evaluation that ran at 4 is then tracked with no update of the class on its way. */
  lemma DecreasingIndexMisses()
    ensures var t1 := Passed(SetEnabled(New(), true), Update("class", 5));
            t1.enabled && t1.queue == [] && Pending(t1) == multiset{}
    ensures var t1 := Passed(SetEnabled(New(), true), Update("class", 5));
            var t2 := Passed(t1, Update("class", 3));
            var t3 := ProcessBlock(t2, Between(), "").0;
            "id" in Tracked(t3) && Between().snapshotIndex < 5 && !PendingFor(t3, "class")
  {
    PassedEmpty(SetEnabled(New(), true), Update("class", 5));
    var t1 := Passed(SetEnabled(New(), true), Update("class", 5));
    PassedEmpty(t1, Update("class", 3));
    var t2 := Passed(t1, Update("class", 3));
    assert !MissedUnblock(t2, Between());
  }

  lemma PassedEmpty(t: Tracker, u: Update)
    requires t.enabled && t.queue == [] && t.captured == map[] && t.escaped == map[] && t.jobs == map[]
    requires t.unsent == multiset{} && t.taken == multiset{}
    ensures var t' := Passed(t, u);
            && t'.enabled && t'.queue == [] && t'.captured == map[] && t'.escaped == map[] && t'.jobs == map[]
            && t'.unsent == multiset{} && t'.taken == multiset{}
            && t'.unblockIndexes == t.unblockIndexes[u.class_ := u.index]
  {
    assert [u][1..] == [];
  }
}
