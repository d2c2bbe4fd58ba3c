/** Eligibility of node classes across a job and its tasks, as a blocked evaluation carries it:
    GetClasses folds nested maps whose iteration order is arbitrary. */
module Eligibility {

  datatype Feasibility = Unknown | Ineligible | Eligible | Escaped

  type Classes = map<string, Feasibility>

  predicate Says(m: Classes, class_: string, f: Feasibility) {
    class_ in m && m[class_] == f
  }

  predicate Decides(m: Classes, class_: string) {
    Says(m, class_, Eligible) || Says(m, class_, Ineligible)
  }

  ghost predicate AnySays(tasks: map<string, Classes>, done: set<string>, class_: string, f: Feasibility) {
    exists t :: t in done && t in tasks && Says(tasks[t], class_, f)
  }

  /** A class is listed when the job or one of the tasks decides it, as eligible when one of
      them finds it so. */
  ghost predicate Summarises(job: Classes, tasks: map<string, Classes>, done: set<string>, elig: map<string, bool>) {
    forall c :: && (c in elig <==> Decides(job, c) || AnySays(tasks, done, c, Eligible) || AnySays(tasks, done, c, Ineligible))
                && (c in elig ==> (elig[c] <==> Says(job, c, Eligible) || AnySays(tasks, done, c, Eligible)))
  }

  /** The effect of one class map on what was found so far. */
  ghost predicate Merged(elig: map<string, bool>, m: Classes, done: set<string>, elig': map<string, bool>) {
    forall c :: && (c in elig' <==> c in elig || (c in done && Decides(m, c)))
                && (c in elig' ==> (elig'[c] <==> (c in elig && elig[c]) || (c in done && Says(m, c, Eligible))))
  }

  method JobClasses(job: Classes) returns (elig: map<string, bool>)
    ensures forall c :: (c in elig <==> Decides(job, c)) && (c in elig ==> (elig[c] <==> Says(job, c, Eligible)))
  {
    elig := map[];
    var rest := job.Keys;
    while rest != {}
      invariant rest <= job.Keys
      invariant forall c :: (c in elig <==> c !in rest && Decides(job, c)) && (c in elig ==> (elig[c] <==> Says(job, c, Eligible)))
      decreases |rest|
    {
      var class_ :| class_ in rest;
      match job[class_] {
        case Eligible => elig := elig[class_ := true];
        case Ineligible => elig := elig[class_ := false];
        case _ =>
      }
      rest := rest - {class_};
    }
  }

  method TaskClasses(elig: map<string, bool>, m: Classes) returns (elig': map<string, bool>)
    ensures Merged(elig, m, m.Keys, elig')
  {
    elig' := elig;
    var rest := m.Keys;
    while rest != {}
      invariant rest <= m.Keys && Merged(elig, m, m.Keys - rest, elig')
      decreases |rest|
    {
      var class_ :| class_ in rest;
      match m[class_] {
        case Eligible => elig' := elig'[class_ := true];
        case Ineligible =>
          if class_ !in elig' {
            elig' := elig'[class_ := false];
          }
        case _ =>
      }
      rest := rest - {class_};
    }
    assert m.Keys - rest == m.Keys;
  }

  lemma MergeTask(job: Classes, tasks: map<string, Classes>, done: set<string>, t: string, elig: map<string, bool>, elig': map<string, bool>)
    requires Summarises(job, tasks, done, elig) && t in tasks && Merged(elig, tasks[t], tasks[t].Keys, elig')
    ensures Summarises(job, tasks, done + {t}, elig')
  {
    forall c, f
      ensures AnySays(tasks, done + {t}, c, f) <==> AnySays(tasks, done, c, f) || Says(tasks[t], c, f)
    {
      if Says(tasks[t], c, f) {
        assert t in done + {t};
      }
      if AnySays(tasks, done, c, f) {
        var u :| u in done && u in tasks && Says(tasks[u], c, f);
        assert u in done + {t};
      }
    }
    hide AnySays;
  }

  /** For every iteration order the result is the same summary. */
  method GetClasses(job: Classes, tasks: map<string, Classes>) returns (elig: map<string, bool>)
    ensures Summarises(job, tasks, tasks.Keys, elig)
    ensures forall c :: c in elig && elig[c] <==>
      (c in job && job[c] == Eligible) || exists t :: t in tasks && c in tasks[t] && tasks[t][c] == Eligible
    ensures forall c :: c in elig && !elig[c] <==>
      && !((c in job && job[c] == Eligible) || exists t :: t in tasks && c in tasks[t] && tasks[t][c] == Eligible)
      && ((c in job && job[c] == Ineligible) || exists t :: t in tasks && c in tasks[t] && tasks[t][c] == Ineligible)
  {
    elig := JobClasses(job);
    var rest := tasks.Keys;
    while rest != {}
      invariant rest <= tasks.Keys && Summarises(job, tasks, tasks.Keys - rest, elig)
      decreases |rest|
    {
      var t :| t in rest;
      ghost var before := elig;
      elig := TaskClasses(elig, tasks[t]);
      MergeTask(job, tasks, tasks.Keys - rest, t, before, elig);
      assert tasks.Keys - rest + {t} == tasks.Keys - (rest - {t});
      rest := rest - {t};
    }
    assert tasks.Keys - rest == tasks.Keys;
  }

  /** The summary is determined by the maps. */
  lemma SummaryIsUnique(job: Classes, tasks: map<string, Classes>, e1: map<string, bool>, e2: map<string, bool>)
    requires Summarises(job, tasks, tasks.Keys, e1) && Summarises(job, tasks, tasks.Keys, e2)
    ensures e1 == e2
  {
    hide AnySays;
    assert forall c :: c in e1 <==> c in e2;
    assert e1.Keys == e2.Keys;
  }
}
