/** Batching of client updates: UpdateAlloc appends to the pending list and waits on the
    pending future; the first of a batch arms a timer that takes list and future away and
    commits them together. Futures are numbered in order of creation. */
module UpdateBatches {
  import opened Plans

  datatype Pending = NoFuture | Future(f: nat)

  /** What a future was answered with; closed counts how often its channel was closed. */
  datatype Answer = Answer(closed: nat, batch: seq<Allocation>, index: nat, ok: bool)

  /** A timer callback on its way from taking the batch to answering the future. */
  datatype Flight = Flight(f: nat, batch: seq<Allocation>)

  /** A call that was accepted, and the future it waits on. */
  datatype Call = Call(allocs: seq<Allocation>, f: nat)

  /** The endpoint, with every accepted call so far. */
  datatype State = State(
    updates: seq<Allocation>,
    future: Pending,
    timers: nat,
    flights: seq<Flight>,
    answers: seq<Answer>,
    calls: seq<Call>)

  const START := State([], NoFuture, 0, [], [], [])
  const OPEN := Answer(0, [], 0, false)

  datatype Action =
    | Update(allocs: seq<Allocation>)
    | Fire
    | Commit(k: nat, index: nat, ok: bool)

  predicate Allowed(s: State, a: Action) {
    match a
    case Update(_) => true
    case Fire => s.timers > 0
    case Commit(k, _, _) => k < |s.flights|
  }

  function StepUpdate(s: State, allocs: seq<Allocation>): State {
    if allocs == [] then s
    else
      var fresh_ := s.future.NoFuture?;
      var f := if fresh_ then |s.answers| else s.future.f;
      s.(updates := s.updates + allocs,
         future := Future(f),
         timers := if fresh_ then s.timers + 1 else s.timers,
         answers := if fresh_ then s.answers + [OPEN] else s.answers,
         calls := s.calls + [Call(allocs, f)])
  }

  /** Without a future the callback would answer nil; the invariant excludes that. */
  function StepFire(s: State): State
    requires s.timers > 0
  {
    s.(updates := [], future := NoFuture, timers := s.timers - 1,
       flights := if s.future.Future? then s.flights + [Flight(s.future.f, s.updates)] else s.flights)
  }

  function StepCommit(s: State, k: nat, index: nat, ok: bool): State
    requires k < |s.flights|
  {
    var x := s.flights[k];
    s.(flights := s.flights[..k] + s.flights[k + 1..],
       answers := if x.f < |s.answers|
                  then s.answers[x.f := Answer(s.answers[x.f].closed + 1, x.batch, index, ok)] else s.answers)
  }

  function Apply(s: State, a: Action): State
    requires Allowed(s, a)
  {
    match a
    case Update(allocs) => StepUpdate(s, allocs)
    case Fire => StepFire(s)
    case Commit(k, index, ok) => StepCommit(s, k, index, ok)
  }

  // ---- what was submitted ----------------------------------------------------------

  /** Everything submitted to wait on one future, in order of arrival. */
  function Waiting(calls: seq<Call>, f: nat): seq<Allocation> {
    if calls == [] then []
    else
      var n := |calls| - 1;
      Waiting(calls[..n], f) + if calls[n].f == f then calls[n].allocs else []
  }

  /** Everything submitted, in order of arrival. */
  function Submitted(calls: seq<Call>): seq<Allocation> {
    if calls == [] then [] else Submitted(calls[..|calls| - 1]) + calls[|calls| - 1].allocs
  }

  lemma WaitingNext(calls: seq<Call>, c: Call, f: nat)
    ensures Waiting(calls + [c], f) == Waiting(calls, f) + if c.f == f then c.allocs else []
    ensures Submitted(calls + [c]) == Submitted(calls) + c.allocs
  {
    assert (calls + [c])[..|calls|] == calls;
  }

  lemma {:induction false} NoneWaiting(calls: seq<Call>, f: nat)
    requires forall i :: 0 <= i < |calls| ==> calls[i].f < f
    ensures Waiting(calls, f) == []
    decreases |calls|
  {
    if calls != [] {
      NoneWaiting(calls[..|calls| - 1], f);
    }
  }

  // ---- the invariant ---------------------------------------------------------------

  ghost predicate PendingOk(s: State) {
    match s.future
    case NoFuture => s.updates == [] && s.timers == 0
    case Future(f) =>
      && f + 1 == |s.answers| && s.timers == 1
      && s.updates != [] && s.updates == Waiting(s.calls, f)
      && s.answers[f].closed == 0
  }

  ghost predicate FlightsOk(s: State) {
    && (forall k {:trigger s.flights[k]} :: 0 <= k < |s.flights| ==>
          && s.flights[k].f < |s.answers| && s.future != Future(s.flights[k].f)
          && s.answers[s.flights[k].f].closed == 0
          && s.flights[k].batch == Waiting(s.calls, s.flights[k].f))
    && (forall j, k :: 0 <= j < k < |s.flights| ==> s.flights[j].f != s.flights[k].f)
  }

  /** A future that is neither pending nor in flight was answered once, with its own calls. */
  ghost predicate AnswersOk(s: State) {
    forall f {:trigger s.answers[f]} :: 0 <= f < |s.answers| ==>
      || s.future == Future(f)
      || InFlight(s.flights, f)
      || (s.answers[f].closed == 1 && s.answers[f].batch == Waiting(s.calls, f))
  }

  ghost predicate InFlight(flights: seq<Flight>, f: nat) {
    exists k :: 0 <= k < |flights| && flights[k].f == f
  }

  /** Calls wait on existing futures, later calls on later or equal ones. */
  ghost predicate CallsOk(s: State) {
    && (forall i {:trigger s.calls[i]} :: 0 <= i < |s.calls| ==> s.calls[i].f < |s.answers|)
    && (forall i, j :: 0 <= i <= j < |s.calls| ==> s.calls[i].f <= s.calls[j].f)
  }

  ghost predicate Inv(s: State) {
    PendingOk(s) && FlightsOk(s) && AnswersOk(s) && CallsOk(s)
  }

  /** A call changes what waits on its own future only. */
  lemma UpdateWaiting(s: State, allocs: seq<Allocation>, g: nat)
    requires allocs != []
    ensures var s' := StepUpdate(s, allocs);
            Waiting(s'.calls, g) == Waiting(s.calls, g) + if g == s'.future.f then allocs else []
  {
    WaitingNext(s.calls, Call(allocs, StepUpdate(s, allocs).future.f), g);
  }

  lemma UpdatePending(s: State, allocs: seq<Allocation>)
    requires PendingOk(s) && CallsOk(s) && allocs != []
    ensures PendingOk(StepUpdate(s, allocs)) && CallsOk(StepUpdate(s, allocs))
  {
    var s' := StepUpdate(s, allocs);
    UpdateWaiting(s, allocs, s'.future.f);
    if s.future.NoFuture? {
      NoneWaiting(s.calls, s'.future.f);
    }
    hide Waiting;
    forall i {:trigger s'.calls[i]} | 0 <= i < |s'.calls|
      ensures s'.calls[i].f <= s'.future.f
    {
      if i < |s.calls| {
        assert s'.calls[i] == s.calls[i];
      }
    }
  }

  lemma UpdateFlights(s: State, allocs: seq<Allocation>)
    requires FlightsOk(s) && PendingOk(s) && allocs != []
    ensures FlightsOk(StepUpdate(s, allocs))
  {
    hide Waiting;
    var s' := StepUpdate(s, allocs);
    forall k {:trigger s'.flights[k]} | 0 <= k < |s'.flights|
      ensures s'.future != Future(s'.flights[k].f)
      ensures s'.flights[k].batch == Waiting(s'.calls, s'.flights[k].f)
    {
      UpdateWaiting(s, allocs, s.flights[k].f);
    }
  }

  lemma UpdateAnswers(s: State, allocs: seq<Allocation>)
    requires AnswersOk(s) && PendingOk(s) && allocs != []
    ensures AnswersOk(StepUpdate(s, allocs))
  {
    hide Waiting, InFlight;
    var s' := StepUpdate(s, allocs);
    forall g {:trigger s'.answers[g]} | 0 <= g < |s'.answers|
      ensures s'.future == Future(g) || InFlight(s'.flights, g)
              || (s'.answers[g].closed == 1 && s'.answers[g].batch == Waiting(s'.calls, g))
    {
      UpdateWaiting(s, allocs, g);
      if g < |s.answers| {
        assert s.answers[g] == s'.answers[g];
      }
    }
  }

  lemma UpdateKeeps(s: State, allocs: seq<Allocation>)
    requires Inv(s)
    ensures Inv(StepUpdate(s, allocs))
  {
    if allocs != [] {
      UpdatePending(s, allocs);
      UpdateFlights(s, allocs);
      UpdateAnswers(s, allocs);
    }
  }

  lemma FireKeeps(s: State)
    requires Inv(s) && s.timers > 0
    ensures Inv(StepFire(s)) && s.future.Future?
  {
    hide Waiting;
    var s' := StepFire(s);
    forall g {:trigger s'.answers[g]} | 0 <= g < |s'.answers|
      ensures InFlight(s'.flights, g) || (s'.answers[g].closed == 1 && s'.answers[g].batch == Waiting(s'.calls, g))
    {
      assert s.answers[g] == s'.answers[g];
      if s.future == Future(g) {
        assert s'.flights[|s.flights|].f == g;
      } else if InFlight(s.flights, g) {
        var k :| 0 <= k < |s.flights| && s.flights[k].f == g;
        assert s'.flights[k].f == g;
      }
    }
  }

  lemma CommitAnswers(s: State, k: nat, index: nat, ok: bool)
    requires FlightsOk(s) && AnswersOk(s) && k < |s.flights|
    ensures AnswersOk(StepCommit(s, k, index, ok))
  {
    hide Waiting;
    var s', x := StepCommit(s, k, index, ok), s.flights[k];
    forall g {:trigger s'.answers[g]} | 0 <= g < |s'.answers|
      ensures s'.future == Future(g) || InFlight(s'.flights, g)
              || (s'.answers[g].closed == 1 && s'.answers[g].batch == Waiting(s'.calls, g))
    {
      assert s.answers[g] == s.answers[g];
      if g != x.f && InFlight(s.flights, g) {
        var j :| 0 <= j < |s.flights| && s.flights[j].f == g;
        var j' := if j < k then j else j - 1;
        assert s'.flights[j'] == s.flights[j];
      }
    }
  }

  lemma CommitFlights(s: State, k: nat, index: nat, ok: bool)
    requires FlightsOk(s) && k < |s.flights|
    ensures FlightsOk(StepCommit(s, k, index, ok))
  {
    hide Waiting;
    var s', x := StepCommit(s, k, index, ok), s.flights[k];
    forall j {:trigger s'.flights[j]} | 0 <= j < |s'.flights|
      ensures s'.flights[j] == s.flights[if j < k then j else j + 1]
      ensures s'.flights[j].f != x.f
    {
    }
  }

  lemma CommitKeeps(s: State, k: nat, index: nat, ok: bool)
    requires Inv(s) && k < |s.flights|
    ensures Inv(StepCommit(s, k, index, ok))
  {
    hide Waiting, InFlight;
    CommitAnswers(s, k, index, ok);
    CommitFlights(s, k, index, ok);
    assert s.future != Future(s.flights[k].f);
  }

  // ---- whole runs ------------------------------------------------------------------

  ghost predicate IsRun(run: seq<Action>)
    decreases |run|, 0
  {
    run == [] || (IsRun(run[..|run| - 1]) && Allowed(After(run[..|run| - 1]), run[|run| - 1]))
  }

  ghost function After(run: seq<Action>): State
    requires IsRun(run)
    decreases |run|, 1
  {
    if run == [] then START else Apply(After(run[..|run| - 1]), run[|run| - 1])
  }

  lemma {:induction false} RunInv(run: seq<Action>)
    requires IsRun(run)
    ensures Inv(After(run))
    decreases |run|
  {
    if run != [] {
      var s := After(run[..|run| - 1]);
      RunInv(run[..|run| - 1]);
      hide Inv, StepUpdate, StepFire, StepCommit;
      match run[|run| - 1]
      case Update(allocs) => UpdateKeeps(s, allocs);
      case Fire => FireKeeps(s);
      case Commit(k, index, ok) => CommitKeeps(s, k, index, ok);
    }
  }

  /** The pending future is there exactly while updates are, with one timer to take them. */
  lemma {:induction false} PendingIffUpdates(run: seq<Action>)
    requires IsRun(run)
    ensures After(run).future.NoFuture? <==> After(run).updates == []
    ensures After(run).timers == if After(run).updates == [] then 0 else 1
  {
    RunInv(run);
  }

  /** Every future is answered at most once, and then for exactly the calls that wait on it,
      in order of arrival. */
  lemma AnsweredForItsCalls(run: seq<Action>, f: nat)
    requires IsRun(run) && f < |After(run).answers|
    ensures After(run).answers[f].closed <= 1
    ensures After(run).answers[f].closed == 1 ==> After(run).answers[f].batch == Waiting(After(run).calls, f)
  {
    RunInv(run);
    var s := After(run);
    hide After, IsRun, Waiting;
    assert s.answers[f] == s.answers[f];
    if InFlight(s.flights, f) {
      var k :| 0 <= k < |s.flights| && s.flights[k].f == f;
      assert s.flights[k] == s.flights[k];
    }
  }

  /** A future is answered by the commit of its own flight, with that commit's index and outcome. */
  lemma {:induction false} AnsweredByCommit(run: seq<Action>, f: nat) returns (j: nat)
    requires IsRun(run) && f < |After(run).answers| && After(run).answers[f].closed > 0
    ensures j < |run| && run[j].Commit? && IsRun(run[..j])
    ensures var s, a := After(run[..j]), run[j];
            && a.k < |s.flights| && s.flights[a.k].f == f
            && After(run).answers[f] == Answer(1, s.flights[a.k].batch, a.index, a.ok)
    decreases |run|
  {
    var last := |run| - 1;
    var pre := run[..last];
    var s, a := After(pre), run[last];
    RunInv(pre);
    if f < |s.answers| && After(run).answers[f] == s.answers[f] {
      j := AnsweredByCommit(pre, f);
      assert pre[..j] == run[..j];
    } else {
      j := last;
      CommitChanges(s, a, f);
    }
  }

  /** Only the commit of its flight changes a future. */
  lemma CommitChanges(s: State, a: Action, f: nat)
    requires Inv(s) && Allowed(s, a) && f < |Apply(s, a).answers| && Apply(s, a).answers[f].closed > 0
    requires f < |s.answers| ==> Apply(s, a).answers[f] != s.answers[f]
    ensures a.Commit? && s.flights[a.k].f == f
    ensures Apply(s, a).answers[f] == Answer(1, s.flights[a.k].batch, a.index, a.ok)
  {
    hide Waiting, InFlight;
  }

  /** The batches of the first n futures, one after the other. */
  function Batches(calls: seq<Call>, n: nat): seq<Allocation> {
    if n == 0 then [] else Batches(calls, n - 1) + Waiting(calls, n - 1)
  }

  lemma {:induction false} BatchesNext(calls: seq<Call>, c: Call, n: nat)
    requires c.f + 1 >= n
    ensures Batches(calls + [c], n) == Batches(calls, n) + if n == c.f + 1 then c.allocs else []
    decreases n
  {
    if n > 0 {
      BatchesNext(calls, c, n - 1);
      WaitingNext(calls, c, n - 1);
    }
  }

  lemma {:induction false} BatchesSame(calls: seq<Call>, m: nat, n: nat)
    requires m <= n && forall i :: 0 <= i < |calls| ==> calls[i].f < m
    ensures Batches(calls, m) == Batches(calls, n)
    decreases n
  {
    if m < n {
      BatchesSame(calls, m, n - 1);
      NoneWaiting(calls, n - 1);
    }
  }

  lemma NoBatches(calls: seq<Call>)
    ensures Batches(calls, 0) == []
  {
  }

  /** Put together, the batches are what was submitted, in order of arrival. */
  lemma {:induction false} NothingLostOrReordered(calls: seq<Call>, n: nat)
    requires forall i :: 0 <= i < |calls| ==> calls[i].f < n
    requires forall i, j :: 0 <= i <= j < |calls| ==> calls[i].f <= calls[j].f
    ensures Batches(calls, n) == Submitted(calls)
    decreases |calls|
  {
    hide Batches, Waiting;
    if calls == [] {
      NoBatches(calls);
      BatchesSame(calls, 0, n);
    } else {
      var before, c := calls[..|calls| - 1], calls[|calls| - 1];
      assert calls == before + [c];
      NothingLostOrReordered(before, c.f + 1);
      BatchesNext(before, c, c.f + 1);
      BatchesSame(calls, c.f + 1, n);
    }
  }

  // ---- conservation ----------------------------------------------------------------

  /** The list that a future stands for: the pending one, the one in flight, or the one it was
      answered with. */
  ghost function ListOf(s: State, f: nat): seq<Allocation>
    requires f < |s.answers|
  {
    if s.future == Future(f) then s.updates
    else if InFlight(s.flights, f) then
      var k :| 0 <= k < |s.flights| && s.flights[k].f == f;
      s.flights[k].batch
    else s.answers[f].batch
  }

  /** The lists of the first n futures, one after the other. */
  ghost function Lists(s: State, n: nat): seq<Allocation>
    requires n <= |s.answers|
  {
    if n == 0 then [] else Lists(s, n - 1) + ListOf(s, n - 1)
  }

  /** What the calls of a run submitted, in order of arrival. */
  function SubmittedBy(run: seq<Action>): seq<Allocation> {
    if run == [] then []
    else SubmittedBy(run[..|run| - 1]) + match run[|run| - 1] case Update(allocs) => allocs case _ => []
  }

  /** The list of a future holds what the calls that wait on it submitted. */
  lemma ListOfIsWaiting(s: State, f: nat)
    requires Inv(s) && f < |s.answers|
    ensures ListOf(s, f) == Waiting(s.calls, f)
  {
    hide Waiting;
    assert s.answers[f] == s.answers[f];
    if s.future != Future(f) && InFlight(s.flights, f) {
      var k :| 0 <= k < |s.flights| && s.flights[k].f == f && ListOf(s, f) == s.flights[k].batch;
      assert s.flights[k] == s.flights[k];
    }
  }

  lemma {:induction false} ListsAreBatches(s: State, n: nat)
    requires Inv(s) && n <= |s.answers|
    ensures Lists(s, n) == Batches(s.calls, n)
  {
    hide Inv, ListOf, Waiting;
    if n > 0 {
      ListsAreBatches(s, n - 1);
      ListOfIsWaiting(s, n - 1);
    }
  }

  lemma {:induction false} CallsAreUpdates(run: seq<Action>)
    requires IsRun(run)
    ensures Submitted(After(run).calls) == SubmittedBy(run)
    decreases |run|
  {
    if run != [] {
      var last := |run| - 1;
      CallsAreUpdates(run[..last]);
      CallsNext(After(run[..last]), run[last]);
      hide Apply, Allowed;
    }
  }

  lemma CallsNext(s: State, a: Action)
    requires Allowed(s, a)
    ensures Submitted(Apply(s, a).calls) == Submitted(s.calls) + match a case Update(allocs) => allocs case _ => []
  {
    if a.Update? && a.allocs != [] {
      WaitingNext(s.calls, Call(a.allocs, StepUpdate(s, a.allocs).future.f), 0);
    }
  }

  /** Nothing is lost, doubled or reordered: after every run the lists that were answered, are in
      flight or are pending, in the order of their futures, are all that the run submitted. */
  lemma BatchesConserve(run: seq<Action>)
    requires IsRun(run)
    ensures Lists(After(run), |After(run).answers|) == SubmittedBy(run)
  {
    RunInv(run);
    CallsAreUpdates(run);
    var s := After(run);
    hide After, Lists, Batches, Submitted, SubmittedBy, IsRun;
    ListsAreBatches(s, |s.answers|);
    NothingLostOrReordered(s.calls, |s.answers|);
  }

  // ---- the endpoint in place -------------------------------------------------------

  /** The Node endpoint; a timer that was started is an armed callback until it fires. */
  class Node {
    var updates: seq<Allocation>
    var updateFuture: Pending
    var timers: nat
    var flights: seq<Flight>
    var answers: seq<Answer>
    ghost var calls: seq<Call>

    ghost function View(): State
      reads this
    {
      State(updates, updateFuture, timers, flights, answers, calls)
    }

    constructor ()
      ensures View() == START && Inv(View())
    {
      updates, updateFuture, timers, flights, answers, calls := [], NoFuture, 0, [], [], [];
    }

    /** The locked part of UpdateAlloc: the future that the caller then waits on. */
    method UpdateAlloc(allocs: seq<Allocation>) returns (future: Pending)
      requires Inv(View())
      modifies this
      ensures View() == StepUpdate(old(View()), allocs) && Inv(View())
      ensures future.NoFuture? <==> allocs == []
      ensures future.Future? ==> calls == old(calls) + [Call(allocs, future.f)] && updateFuture == future
    {
      hide Inv;
      UpdateKeeps(View(), allocs);
      if |allocs| == 0 {
        return NoFuture;
      }
      updates := updates + allocs;
      future := updateFuture;
      if future.NoFuture? {
        future := Future(|answers|);
        answers := answers + [OPEN];
        updateFuture := future;
        timers := timers + 1;
      }
      calls := calls + [Call(allocs, future.f)];
    }

    /** The locked part of the timer's callback; there is always a future to answer. */
    method TimerFires() returns (flight: Flight)
      requires Inv(View()) && timers > 0
      modifies this
      ensures View() == StepFire(old(View())) && Inv(View())
      ensures flights == old(flights) + [flight] && flight == Flight(old(updateFuture).f, old(updates))
    {
      hide Inv;
      FireKeeps(View());
      flight := Flight(updateFuture.f, updates);
      updates := [];
      updateFuture := NoFuture;
      timers := timers - 1;
      flights := flights + [flight];
    }

    /** batchUpdate answers the future, closing a channel that is still open. */
    method BatchUpdate(k: nat, index: nat, ok: bool)
      requires Inv(View()) && k < |flights|
      modifies this
      ensures View() == StepCommit(old(View()), k, index, ok) && Inv(View())
      ensures var f := old(flights[k].f);
              f < |answers| && old(answers)[f].closed == 0 && answers[f] == Answer(1, old(flights[k].batch), index, ok)
    {
      CommitKeeps(View(), k, index, ok);
      var x := flights[k];
      flights := flights[..k] + flights[k + 1..];
      answers := answers[x.f := Answer(answers[x.f].closed + 1, x.batch, index, ok)];
    }
  }
}
