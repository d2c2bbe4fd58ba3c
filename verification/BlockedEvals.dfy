/** The blocked-evaluation tracker object, with its broker. The methods are proved against
    the functions of BlockedState; the loops range over Go maps in any order. */
module BlockedEvalsTracker {
  import opened Evaluations
  import opened BlockedState
  import opened BlockedTheorems
  import opened Reblocking
  import opened EvalBrokers
  import L = BrokerLedger
  import B = BrokerState
  import R = BrokerRuns

  lemma ListingAdd(order: seq<Wrapped>, m: map<string, Wrapped>, w: Wrapped)
    requires ListingOf(order, m) && w.eval.id !in m
    ensures ListingOf(order + [w], m[w.eval.id := w])
  {
    var order', m' := order + [w], m[w.eval.id := w];
    assert order'[|order|] == w;
    forall id | id in m'
      ensures m'[id] in order'
    {
      if id != w.eval.id {
        var i :| 0 <= i < |order| && order[i] == m[id];
        assert order'[i] == m[id];
      }
    }
  }

  class BlockedEvals {
    const evalBroker: EvalBroker
    var enabled: bool
    var captured: map<string, Wrapped>
    var escaped: map<string, Wrapped>
    var jobs: map<string, string>
    var unblockIndexes: map<string, nat>
    var duplicates: seq<Evaluation>
    var totalEscaped: int
    var totalBlocked: int
    var unsent: multiset<Update>
    var queue: seq<Update>
    var taken: multiset<Update>

    ghost function View(): Tracker
      reads this
    {
      Tracker(enabled, captured, escaped, jobs, unblockIndexes, duplicates, totalEscaped, totalBlocked,
              unsent, queue, taken)
    }

    ghost predicate Valid()
      reads this
    {
      Index(View())
    }

    constructor (broker: EvalBroker)
      ensures Valid() && View() == New() && evalBroker == broker
    {
      evalBroker := broker;
      enabled, captured, escaped, jobs, unblockIndexes := false, map[], map[], map[], map[];
      duplicates, totalEscaped, totalBlocked := [], 0, 0;
      unsent, queue, taken := multiset{}, [], multiset{};
      new;
      hide Index;
      EmptyIsIndexed(View());
    }

    /** A running maximum of the indexes decides for an escaped evaluation; a class that
        concerns the evaluation ends the loop at once. */
    method MissedUnblock(e: Evaluation) returns (missed: bool)
      ensures missed <==> BlockedState.MissedUnblock(View(), e)
      ensures missed <==> exists c :: c in unblockIndexes && e.snapshotIndex < unblockIndexes[c]
                                      && (e.escaped || c !in e.classEligibility || e.classEligibility[c])
    {
      MissedMeans(View(), e);
      var max: nat := 0;
      var rest := unblockIndexes.Keys;
      while rest != {}
        invariant rest <= unblockIndexes.Keys
        invariant forall c :: c in unblockIndexes.Keys - rest ==>
                    unblockIndexes[c] <= max && (MissedClass(View(), e, c) ==> e.escaped)
        invariant max == 0 || exists c :: c in unblockIndexes.Keys - rest && unblockIndexes[c] == max
        decreases |rest|
      {
        var class_ :| class_ in rest;
        var index := unblockIndexes[class_];
        ghost var seen := unblockIndexes.Keys - rest;
        ghost var best := max;
        if max < index {
          max := index;
        }
        rest := rest - {class_};
        assert unblockIndexes.Keys - rest == seen + {class_};
        if class_ !in e.classEligibility && e.snapshotIndex < index {
          assert MissedClass(View(), e, class_);
          return true;
        }
        if class_ in e.classEligibility && e.classEligibility[class_] && e.snapshotIndex < index {
          assert MissedClass(View(), e, class_);
          return true;
        }
        assert class_ in unblockIndexes.Keys - rest && unblockIndexes[class_] == index;
      }
      assert unblockIndexes.Keys - rest == unblockIndexes.Keys;
      if e.escaped && e.snapshotIndex < max {
        var c :| c in unblockIndexes && unblockIndexes[c] == max;
        assert MissedClass(View(), e, c);
        return true;
      }
      return false;
    }

    method TrackEval(e: Evaluation, token: string)
      modifies this
      ensures View() == Track(old(View()), e, token)
    {
      totalBlocked := totalBlocked + 1;
      jobs := jobs[e.jobId := e.id];
      if e.escaped {
        escaped := escaped[e.id := Wrapped(e, token)];
        totalEscaped := totalEscaped + 1;
        return;
      }
      captured := captured[e.id := Wrapped(e, token)];
    }

    /** The broker takes the evaluations in the order given. */
    method HandToBroker(order: seq<Wrapped>)
      modifies evalBroker
      ensures evalBroker.View() == B.EnqueueAll(old(evalBroker.View()), Offers(order))
      ensures old(evalBroker.Valid()) && AllAllowed(old(evalBroker.enabled), Offers(order)) ==> evalBroker.Valid()
    {
      hide R.Backed, B.EnqueueAll;
      evalBroker.EnqueueAll(Offers(order));
    }

    /** The index survives exactly when no ID is tracked a second time; the broker stays valid
        when what it is handed meets its hypotheses. */
    method ProcessBlock(e: Evaluation, token: string)
      requires Valid()
      modifies this, evalBroker
      ensures View() == BlockedState.ProcessBlock(old(View()), e, token).0
      ensures Valid() <==> !old(enabled && e.jobId !in jobs && !BlockedState.MissedUnblock(View(), e) && e.id in Tracked(View()))
      ensures var order := BlockedState.ProcessBlock(old(View()), e, token).1;
              && evalBroker.View() == B.EnqueueAll(old(evalBroker.View()), Offers(order))
              && (old(evalBroker.Valid()) && AllAllowed(old(evalBroker.enabled), Offers(order)) ==> evalBroker.Valid())
    {
      hide R.Backed, BlockedState.MissedUnblock, Index, Track, Tracked;
      BlockKeepsExact(View(), e, token);
      OffersNone();
      EnqueueNothing(evalBroker.View());
      if !enabled {
        return;
      }
      if e.jobId in jobs {
        duplicates := duplicates + [e];
        return;
      }
      var missed := MissedUnblock(e);
      if missed {
        HandToBroker([Wrapped(e, token)]);
        return;
      }
      TrackEval(e, token);
    }

    /** Take the picked escaped evaluations off, in any order. */
    method DrainEscaped(pick: Evaluation -> bool) returns (order: seq<Wrapped>)
      requires Holds(escaped, true)
      modifies this`escaped, this`jobs
      ensures Drained(old(escaped), escaped, old(jobs), jobs, order, Chosen(old(escaped), pick))
    {
      hide Drained, Chosen, ChosenIn;
      order := [];
      var rest := escaped.Keys;
      ghost var m := escaped;
      ChosenAll(m, pick);
      DrainedNothing(m, jobs);
      assert m.Keys - rest == {};
      while rest != {}
        invariant rest <= m.Keys
        invariant forall id :: id in rest ==> id in escaped && escaped[id] == m[id]
        invariant Drained(m, escaped, old(jobs), jobs, order, ChosenIn(m, pick, m.Keys - rest))
        decreases |rest|
      {
        var id :| id in rest;
        ghost var seen := m.Keys - rest;
        rest := rest - {id};
        assert m.Keys - rest == seen + {id};
        ChosenNext(m, pick, seen, id);
        var wrapped := escaped[id];
        if pick(wrapped.eval) {
          DrainedNext(m, escaped, old(jobs), jobs, order, ChosenIn(m, pick, seen), id);
          order := order + [wrapped];
          escaped := escaped - {id};
          jobs := jobs - {wrapped.eval.jobId};
        } else {
          assert ChosenIn(m, pick, seen) + {} == ChosenIn(m, pick, seen);
        }
      }
    }

    /** Take the picked captured evaluations off, in any order. */
    method DrainCaptured(pick: Evaluation -> bool) returns (order: seq<Wrapped>)
      requires Holds(captured, false)
      modifies this`captured, this`jobs
      ensures Drained(old(captured), captured, old(jobs), jobs, order, Chosen(old(captured), pick))
    {
      hide Drained, Chosen, ChosenIn;
      order := [];
      var rest := captured.Keys;
      ghost var m := captured;
      ChosenAll(m, pick);
      DrainedNothing(m, jobs);
      assert m.Keys - rest == {};
      while rest != {}
        invariant rest <= m.Keys
        invariant forall id :: id in rest ==> id in captured && captured[id] == m[id]
        invariant Drained(m, captured, old(jobs), jobs, order, ChosenIn(m, pick, m.Keys - rest))
        decreases |rest|
      {
        var id :| id in rest;
        ghost var seen := m.Keys - rest;
        rest := rest - {id};
        assert m.Keys - rest == seen + {id};
        ChosenNext(m, pick, seen, id);
        var wrapped := captured[id];
        if pick(wrapped.eval) {
          DrainedNext(m, captured, old(jobs), jobs, order, ChosenIn(m, pick, seen), id);
          order := order + [wrapped];
          captured := captured - {id};
          jobs := jobs - {wrapped.eval.jobId};
        } else {
          assert ChosenIn(m, pick, seen) + {} == ChosenIn(m, pick, seen);
        }
      }
    }

    /** All escaped evaluations, and the captured ones that did not rule the class out. */
    method ReleaseFor(class_: string) returns (order: seq<Wrapped>)
      requires Index(View())
      modifies this
      ensures View() == BlockedState.Unblock(old(View()), class_)
      ensures ListingOf(order, UnblockedBy(old(View()), class_))
    {
      hide JobsIndex, Tracked, JobsOf, Only, ListingOf, Release, CountsExact, Drained, Holds;
      ghost var t := View();
      var all := (e: Evaluation) => true;
      var suited := (e: Evaluation) => !Ineligible(e, class_);
      var first := DrainEscaped(all);
      ghost var mid := jobs;
      var second := DrainCaptured(suited);
      order := first + second;
      assert Chosen(t.escaped, all) == t.escaped.Keys && Chosen(t.captured, suited) == Eligible(t, class_);
      DrainedBoth(t, Eligible(t, class_), t.escaped.Keys, captured, escaped, mid, jobs, second, first);
      OnlyEverything(t.escaped);
      hide Chosen, Eligible;
      if |order| != 0 {
        totalEscaped := 0;
        totalBlocked := totalBlocked - |order|;
      }
    }

    method ReleaseFailed() returns (order: seq<Wrapped>)
      requires Index(View()) && enabled
      modifies this
      ensures View() == BlockedState.UnblockFailed(old(View()))
      ensures ListingOf(order, FailedTracked(old(View())))
    {
      hide JobsIndex, Tracked, JobsOf, Only, ListingOf, Release, CountsExact, Drained, Holds;
      ghost var t := View();
      var failed := (e: Evaluation) => e.triggeredBy == MAX_PLANS;
      var first := DrainCaptured(failed);
      ghost var mid := jobs;
      var second := DrainEscaped(failed);
      order := first + second;
      assert Chosen(t.captured, failed) == FailedIn(t.captured) && Chosen(t.escaped, failed) == FailedIn(t.escaped);
      DrainedBothAgain(t, FailedIn(t.captured), FailedIn(t.escaped), captured, escaped, mid, jobs, first, second);
      DrainedSize(t.escaped, escaped, mid, jobs, second, FailedIn(t.escaped));
      hide Chosen, FailedIn;
      totalEscaped := totalEscaped - |second|;
      if |order| > 0 {
        totalBlocked := totalBlocked - |order|;
      }
    }

    /** watchCapacity's unblock. */
    method Unblock(class_: string) returns (order: seq<Wrapped>)
      requires Valid()
      modifies this, evalBroker
      ensures Valid()
      ensures View() == if old(enabled) then BlockedState.Unblock(old(View()), class_) else old(View())
      ensures if old(enabled) then ListingOf(order, UnblockedBy(old(View()), class_)) else order == []
      ensures evalBroker.View() == B.EnqueueAll(old(evalBroker.View()), Offers(order))
      ensures old(evalBroker.Valid()) && AllAllowed(old(evalBroker.enabled), Offers(order)) ==> evalBroker.Valid()
    {
      hide R.Backed, Index, ListingOf, B.EnqueueAll, BlockedState.Unblock, UnblockedBy;
      order := [];
      OffersNone();
      EnqueueNothing(evalBroker.View());
      if enabled {
        ghost var t := View();
        UnblockKeeps(t, class_);
        order := ReleaseFor(class_);
        HandToBroker(order);
      }
    }

    method UnblockFailed() returns (order: seq<Wrapped>)
      requires Valid()
      modifies this, evalBroker
      ensures Valid() && View() == BlockedState.UnblockFailed(old(View()))
      ensures if old(enabled) then ListingOf(order, FailedTracked(old(View()))) else order == []
      ensures evalBroker.View() == B.EnqueueAll(old(evalBroker.View()), Offers(order))
      ensures old(evalBroker.Valid()) && AllAllowed(old(evalBroker.enabled), Offers(order)) ==> evalBroker.Valid()
    {
      hide R.Backed, Index, ListingOf, B.EnqueueAll, FailedTracked;
      order := [];
      OffersNone();
      EnqueueNothing(evalBroker.View());
      ghost var t := View();
      UnblockFailedKeeps(t);
      DisabledSame(t);
      hide BlockedState.UnblockFailed;
      if enabled {
        order := ReleaseFailed();
        HandToBroker(order);
      }
    }

    // ---- jobs, updates, duplicates and leadership ----------------------------------

    method Untrack(job: string)
      requires Valid()
      modifies this
      ensures Valid() && View() == BlockedState.Untrack(old(View()), job)
    {
      hide Index;
      UntrackKeeps(View(), job);
      if !enabled || job !in jobs {
        return;
      }
      var id := jobs[job];
      DropCaptured(id);
      DropEscaped(id);
    }

    method DropCaptured(id: string)
      modifies this`captured, this`jobs, this`totalBlocked
      ensures View() == BlockedState.DropCaptured(old(View()), id)
    {
      if id in captured {
        jobs := jobs - {captured[id].eval.jobId};
        captured := captured - {id};
        totalBlocked := totalBlocked - 1;
      }
    }

    method DropEscaped(id: string)
      modifies this`escaped, this`jobs, this`totalBlocked, this`totalEscaped
      ensures View() == BlockedState.DropEscaped(old(View()), id)
    {
      if id in escaped {
        jobs := jobs - {escaped[id].eval.jobId};
        escaped := escaped - {id};
        totalEscaped := totalEscaped - 1;
        totalBlocked := totalBlocked - 1;
      }
    }

    /** Unblock, up to the release of the lock: the index is noted, the update not yet sent. */
    method RecordUnblock(class_: string, index: nat)
      modifies this`unblockIndexes, this`unsent
      ensures View() == BlockedState.RecordUnblock(old(View()), class_, index)
    {
      if !enabled {
        return;
      }
      unblockIndexes := unblockIndexes[class_ := index];
      unsent := unsent + multiset{Update(class_, index)};
    }

    method GetDuplicates() returns (dups: seq<Evaluation>)
      modifies this`duplicates
      ensures dups == old(duplicates) && View() == old(View()).(duplicates := [])
    {
      dups := duplicates;
      duplicates := [];
    }

    method Flush()
      modifies this
      ensures View() == BlockedState.Flush(old(View()))
    {
      totalEscaped, totalBlocked := 0, 0;
      captured, escaped, jobs := map[], map[], map[];
      duplicates, queue := [], [];
    }

    method SetEnabled(on: bool)
      requires Valid()
      modifies this
      ensures Valid() && View() == BlockedState.SetEnabled(old(View()), on)
    {
      hide Index;
      EnableKeeps(View(), on);
      if enabled == on {
        return;
      }
      enabled := on;
      if !on {
        Flush();
      }
    }
  }

  lemma MissedMeans(t: Tracker, e: Evaluation)
    ensures BlockedState.MissedUnblock(t, e) <==>
            exists c :: c in t.unblockIndexes && e.snapshotIndex < t.unblockIndexes[c]
                        && (e.escaped || c !in e.classEligibility || e.classEligibility[c])
  {
    if BlockedState.MissedUnblock(t, e) {
      var c :| MissedClass(t, e, c);
      assert c in t.unblockIndexes;
    }
    if c :| c in t.unblockIndexes && e.snapshotIndex < t.unblockIndexes[c]
            && (e.escaped || c !in e.classEligibility || e.classEligibility[c]) {
      assert MissedClass(t, e, c);
    }
  }

  ghost function Chosen(m: map<string, Wrapped>, pick: Evaluation -> bool): set<string> {
    set id | id in m && pick(m[id].eval)
  }

  /** The chosen ones among the visited keys. */
  ghost function ChosenIn(m: map<string, Wrapped>, pick: Evaluation -> bool, seen: set<string>): set<string> {
    set id | id in m && id in seen && pick(m[id].eval)
  }

  lemma ChosenAll(m: map<string, Wrapped>, pick: Evaluation -> bool)
    ensures ChosenIn(m, pick, m.Keys - {}) == Chosen(m, pick)
    ensures ChosenIn(m, pick, {}) == {}
  {
  }

  lemma ChosenNext(m: map<string, Wrapped>, pick: Evaluation -> bool, seen: set<string>, id: string)
    requires id in m && id !in seen
    ensures ChosenIn(m, pick, seen + {id}) == ChosenIn(m, pick, seen) + (if pick(m[id].eval) then {id} else {})
    ensures id !in ChosenIn(m, pick, seen)
  {
  }

  lemma OnlyNext(m: map<string, Wrapped>, ids: set<string>, id: string)
    requires id in m
    ensures Only(m, ids + {id}) == Only(m, ids)[id := m[id]]
    ensures JobsOf(m, ids + {id}) == JobsOf(m, ids) + {m[id].eval.jobId}
  {
    forall j | j in JobsOf(m, ids + {id})
      ensures j in JobsOf(m, ids) + {m[id].eval.jobId}
    {
      var x :| x in ids + {id} && x in m && m[x].eval.jobId == j;
      assert x != id ==> x in ids;
    }
    forall j | j in JobsOf(m, ids)
      ensures j in JobsOf(m, ids + {id})
    {
      var x :| x in ids && x in m && m[x].eval.jobId == j;
      assert x in ids + {id};
    }
    assert id in ids + {id};
  }

  lemma OnlyNothing(m: map<string, Wrapped>)
    ensures Only(m, {}) == map[] && JobsOf(m, {}) == {} && m - {} == m
  {
  }

  /** One map of the tracker after the loop has visited some of its keys. */
  ghost predicate Drained(m: map<string, Wrapped>, now: map<string, Wrapped>, jobs: map<string, string>,
                          jobsNow: map<string, string>, order: seq<Wrapped>, ids: set<string>) {
    && now == m - ids
    && jobsNow == jobs - JobsOf(m, ids)
    && ListingOf(order, Only(m, ids))
    && |order| == |ids|
  }

  lemma DrainedNext(m: map<string, Wrapped>, now: map<string, Wrapped>, jobs: map<string, string>,
                    jobsNow: map<string, string>, order: seq<Wrapped>, ids: set<string>, id: string)
    requires Drained(m, now, jobs, jobsNow, order, ids) && id in m && id !in ids && m[id].eval.id == id
    ensures Drained(m, now - {id}, jobs, jobsNow - {m[id].eval.jobId}, order + [m[id]], ids + {id})
  {
    hide ListingOf, Only, JobsOf;
    OnlyNext(m, ids, id);
    assert id !in Only(m, ids) by { OnlyKeys(m, ids); }
    ListingAdd(order, Only(m, ids), m[id]);
    assert m - ids - {id} == m - (ids + {id});
    assert jobs - JobsOf(m, ids) - {m[id].eval.jobId} == jobs - (JobsOf(m, ids) + {m[id].eval.jobId});
  }

  lemma OnlyKeys(m: map<string, Wrapped>, ids: set<string>)
    ensures Only(m, ids).Keys == m.Keys * ids
  {
  }

  lemma DrainedNothing(m: map<string, Wrapped>, jobs: map<string, string>)
    ensures Drained(m, m, jobs, jobs, [], {})
  {
    OnlyNothing(m);
  }

  lemma EnqueueNothing(b: B.Broker)
    ensures B.EnqueueAll(b, []) == b
  {
  }

  lemma ListingConcat(o1: seq<Wrapped>, m1: map<string, Wrapped>, o2: seq<Wrapped>, m2: map<string, Wrapped>)
    requires ListingOf(o1, m1) && ListingOf(o2, m2) && m1.Keys !! m2.Keys
    ensures ListingOf(o1 + o2, m1 + m2)
  {
    var o, m := o1 + o2, m1 + m2;
    forall id | id in m
      ensures m[id] in o
    {
      if id in m1 {
        var i :| 0 <= i < |o1| && o1[i] == m1[id];
        assert o[i] == m1[id];
      } else {
        var i :| 0 <= i < |o2| && o2[i] == m2[id];
        assert o[|o1| + i] == m2[id];
      }
    }
    forall i, j | 0 <= i < j < |o|
      ensures o[i] != o[j]
    {
      if i < |o1| && |o1| <= j {
        assert o[i].eval.id in m1 && o[j] == o2[j - |o1|] && o[j].eval.id in m2;
      }
    }
  }

  lemma OnlyEverything(m: map<string, Wrapped>)
    ensures Only(m, m.Keys) == m
  {
  }

  /** Draining both maps, the escaped one first, is a release. */
  lemma DrainedBoth(t: Tracker, c: set<string>, s: set<string>, captured: map<string, Wrapped>,
                    escaped: map<string, Wrapped>, mid: map<string, string>, jobs: map<string, string>,
                    oc: seq<Wrapped>, os: seq<Wrapped>)
    requires t.captured.Keys !! t.escaped.Keys
    requires Drained(t.escaped, escaped, t.jobs, mid, os, s) && Drained(t.captured, captured, mid, jobs, oc, c)
    ensures Release(t, c, s) == t.(captured := captured, escaped := escaped, jobs := jobs)
    ensures ListingOf(os + oc, Only(t.captured, c) + Only(t.escaped, s)) && |os + oc| == |c| + |s|
  {
    hide ListingOf, JobsOf, Only;
    OnlyKeys(t.captured, c);
    OnlyKeys(t.escaped, s);
    ListingConcat(os, Only(t.escaped, s), oc, Only(t.captured, c));
    assert Only(t.captured, c) + Only(t.escaped, s) == Only(t.escaped, s) + Only(t.captured, c);
  }

  /** Draining both maps, the captured one first, is a release. */
  lemma DrainedBothAgain(t: Tracker, c: set<string>, s: set<string>, captured: map<string, Wrapped>,
                         escaped: map<string, Wrapped>, mid: map<string, string>, jobs: map<string, string>,
                         oc: seq<Wrapped>, os: seq<Wrapped>)
    requires t.captured.Keys !! t.escaped.Keys
    requires Drained(t.captured, captured, t.jobs, mid, oc, c) && Drained(t.escaped, escaped, mid, jobs, os, s)
    ensures Release(t, c, s) == t.(captured := captured, escaped := escaped, jobs := jobs)
    ensures ListingOf(oc + os, Only(t.captured, c) + Only(t.escaped, s)) && |oc + os| == |c| + |s|
  {
    hide ListingOf, JobsOf, Only;
    OnlyKeys(t.captured, c);
    OnlyKeys(t.escaped, s);
    ListingConcat(oc, Only(t.captured, c), os, Only(t.escaped, s));
  }

  lemma DrainedSize(m: map<string, Wrapped>, now: map<string, Wrapped>, jobs: map<string, string>,
                    jobsNow: map<string, string>, order: seq<Wrapped>, ids: set<string>)
    requires Drained(m, now, jobs, jobsNow, order, ids)
    ensures |order| == |ids|
  {
  }

  lemma DisabledSame(t: Tracker)
    ensures !t.enabled ==> BlockedState.UnblockFailed(t) == t
  {
  }

  lemma EnableKeeps(t: Tracker, on: bool)
    requires Index(t)
    ensures Index(BlockedState.SetEnabled(t, on))
  {
    hide JobsIndex, Holds, Tracked;
    if t.enabled != on && on {
      TrackedSame(t, BlockedState.SetEnabled(t, on));
    } else if t.enabled != on {
      EmptyIsIndexed(BlockedState.SetEnabled(t, on));
    }
  }

  lemma EmptyIsIndexed(t: Tracker)
    requires t.captured == map[] && t.escaped == map[] && t.jobs == map[] && t.totalEscaped == t.totalBlocked == 0
    ensures Index(t)
  {
    assert Tracked(t) == map[];
  }
}
