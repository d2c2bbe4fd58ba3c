/** A run of broker and tracker together that loses a reblocked evaluation: it is delivered,
    reblocked under its token, unblocked, and its copy is stored; then the timer is paused,
    an Ack fails and drops the copy, the timer is resumed, and the Ack is repeated. */
module LostReblock {
  import opened Evaluations
  import opened BrokerConditions
  import opened BrokerRefinement
  import opened Reblocking
  import B = BrokerState
  import R = BrokerRuns
  import S = BlockedState
  import SR = BlockedRuns

  function TheUpdate(): S.Update { S.Update("class", 1) }

  function TheWrapped(): S.Wrapped { S.Wrapped(AnEvaluation(), "token") }

  /** Delivery, reblock and the unblock up to its processing. */
  function Reblocked(): seq<Event> {
    [OnBroker(R.SetEnabled(true)), OnBroker(R.Enqueue(AnEvaluation(), "")), OnBroker(R.Dequeue("service", "token")),
     OnTracker(SR.Enable(true), []), OnTracker(SR.Block(AnEvaluation(), "token"), []),
     OnTracker(SR.Record("class", 1), []), OnTracker(SR.SendUpdate(TheUpdate()), []), OnTracker(SR.TakeUpdate, [])]
  }

  function Unblocked(): Event { OnTracker(SR.ProcessUpdate(TheUpdate()), [TheWrapped()]) }

  function Calls(): seq<Event> {
    [OnBroker(R.Pause("id", "token")), OnBroker(R.Ack("id", "token")), OnBroker(R.Resume("id", "token")),
     OnBroker(R.Ack("id", "token"))]
  }

  lemma Extend(s: System, run: seq<Event>, ev: Event)
    requires Ok(s) && IsRun(s, run) && Allowed(After(s, run), ev)
    ensures IsRun(s, run + [ev]) && After(s, run + [ev]) == Next(After(s, run), ev)
  {
    hide Ok, Allowed, Next;
    assert (run + [ev])[..|run|] == run;
  }

  // ---- the tracker's part ----------------------------------------------------------

  function Tracker1(): S.Tracker { S.SetEnabled(S.New(), true) }

  function Tracker2(): S.Tracker { S.Track(Tracker1(), AnEvaluation(), "token") }

  function Tracker3(): S.Tracker { S.RecordUnblock(Tracker2(), "class", 1) }

  function Tracker4(): S.Tracker { S.Send(Tracker3(), TheUpdate()) }

  function Tracker5(): S.Tracker
  {
    assert Tracker4().queue == [TheUpdate()];
    S.Take(Tracker4())
  }

  lemma Blocks()
    ensures SR.Allowed(Tracker1(), SR.Block(AnEvaluation(), "token"))
    ensures SR.Apply(Tracker1(), SR.Block(AnEvaluation(), "token")) == Tracker2()
    ensures Handed(Tracker1(), SR.Block(AnEvaluation(), "token")) == map[]
  {
  }

  lemma Unblocks()
    ensures SR.Allowed(Tracker5(), SR.ProcessUpdate(TheUpdate()))
    ensures Handed(Tracker5(), SR.ProcessUpdate(TheUpdate())) == map["id" := TheWrapped()]
  {
  }

  lemma NothingHanded()
    ensures ListingOf([], map[]) && ListingOf([TheWrapped()], map["id" := TheWrapped()])
  {
  }

  /** A tracker step that hands nothing over leaves the broker alone. */
  lemma TrackerStep(s: System, a: SR.Action)
    requires Ok(s) && SR.Allowed(s.t, a) && Handed(s.t, a) == map[] && (a.Block? ==> Fit(s.issued, S.Wrapped(a.e, a.token)))
    ensures Allowed(s, OnTracker(a, []))
    ensures Next(s, OnTracker(a, [])) == s.(t := SR.Apply(s.t, a))
  {
    hide Ok, SR.Allowed, SR.Apply, Handed;
    NothingHanded();
    OffersNone();
  }

  // ---- the broker's part -----------------------------------------------------------

  /** The broker with the evaluation outstanding and the copy stored or not, the timer armed or not. */
  ghost predicate Delivered(b: B.Broker, stored: bool, armed: bool) {
    && b.enabled && b.evals == map["id" := 1]
    && b.unack == map["id" := B.Unack(AnEvaluation(), "token", armed)]
    && b.requeue == (if stored then map["token" := AnEvaluation()] else map[])
  }

  lemma CopyStored(b: B.Broker)
    requires Delivered(b, false, true)
    ensures Delivered(B.EnqueueAll(b, Offers([TheWrapped()])), true, true)
  {
    var offers := Offers([TheWrapped()]);
    assert offers == [(AnEvaluation(), "token")] && offers[..0] == [];
  }

  lemma PauseAckResume(b: B.Broker)
    requires Delivered(b, true, true)
    ensures var b1 := R.Apply(b, R.Pause("id", "token"));
            var b2 := R.Apply(b1, R.Ack("id", "token"));
            var b3 := R.Apply(b2, R.Resume("id", "token"));
            Delivered(b1, true, false) && Delivered(b2, false, false) && Delivered(b3, false, true)
  {
  }

  lemma BrokerStep(s: System, a: R.Action)
    requires Ok(s) && R.Allowed(s.b, a) && TokensMatch(s.issued, a)
    ensures Allowed(s, OnBroker(a))
    ensures var s' := Next(s, OnBroker(a));
            s'.b == R.Apply(s.b, a) && s'.t == s.t && s'.issued == Draw(s.b, s.issued, a)
  {
    hide Ok, R.Allowed, R.Apply, TokensMatch, Draw;
  }

  lemma FirstSteps(limit: int)
    ensures var b1 := R.Apply(B.New(limit), R.SetEnabled(true));
            var b2 := R.Apply(b1, R.Enqueue(AnEvaluation(), ""));
            && R.Allowed(b1, R.Enqueue(AnEvaluation(), ""))
            && R.Allowed(b2, R.Dequeue("service", "token"))
            && Draw(b2, map[], R.Dequeue("service", "token")) == map["token" := "id"]
            && Delivered(R.Apply(b2, R.Dequeue("service", "token")), false, true)
  {
    var e := AnEvaluation();
    hide B.ProcessEnqueue, B.DequeueFor;
    EnabledEnqueue(limit, e);
    var b := B.ProcessEnqueue(B.SetEnabled(B.New(limit), true), e, "");
    DequeueOnly(b, e, "token");
    NextIsOnly(b, e);
  }

  lemma NextIsOnly(b: B.Broker, e: Evaluation)
    requires b.ready == map[e.typ := [e]]
    ensures B.HasWork(b, e.typ) && B.NextFor(b, e.typ) == e
  {
  }

  // ---- the run ---------------------------------------------------------------------

  lemma NoEvents(s: System)
    requires Ok(s)
    ensures IsRun(s, []) && After(s, []) == s
  {
    hide Ok;
  }

  lemma BrokerMove(s: System, run: seq<Event>, a: R.Action)
    requires Ok(s) && IsRun(s, run) && R.Allowed(After(s, run).b, a) && TokensMatch(After(s, run).issued, a)
    ensures IsRun(s, run + [OnBroker(a)])
    ensures var s1, s' := After(s, run), After(s, run + [OnBroker(a)]);
            s'.b == R.Apply(s1.b, a) && s'.t == s1.t && s'.issued == Draw(s1.b, s1.issued, a)
  {
    hide Ok, Allowed, Next, R.Apply, R.Allowed, TokensMatch, Draw;
    BrokerStep(After(s, run), a);
    Extend(s, run, OnBroker(a));
  }

  lemma DeliveredRun(limit: int)
    requires limit >= 1
    ensures Ok(Start(limit)) && IsRun(Start(limit), Reblocked()[..3])
    ensures var s := After(Start(limit), Reblocked()[..3]);
            Delivered(s.b, false, true) && s.t == S.New() && s.issued == map["token" := "id"]
  {
    hide Ok, Allowed, Next, R.Apply, R.Allowed, Delivered, Draw, After, IsRun;
    StartOk(limit);
    FirstSteps(limit);
    var s, events := Start(limit), Reblocked();
    NoEvents(s);
    NoDraw(s.b, R.SetEnabled(true));
    BrokerMove(s, [], R.SetEnabled(true));
    assert [] + [events[0]] == events[..1];
    NoDraw(After(s, events[..1]).b, events[1].a);
    BrokerMove(s, events[..1], events[1].a);
    assert events[..1] + [events[1]] == events[..2];
    BrokerMove(s, events[..2], events[2].a);
    assert events[..2] + [events[2]] == events[..3];
  }

  lemma NoDraw(b: B.Broker, a: R.Action)
    requires !a.Dequeue?
    ensures Draw(b, map[], a) == map[] && (a.SetEnabled? ==> R.Allowed(b, a))
  {
  }

  lemma TrackerSteps()
    ensures SR.Allowed(S.New(), SR.Enable(true)) && SR.Apply(S.New(), SR.Enable(true)) == Tracker1()
    ensures SR.Allowed(Tracker2(), SR.Record("class", 1)) && SR.Apply(Tracker2(), SR.Record("class", 1)) == Tracker3()
    ensures SR.Allowed(Tracker3(), SR.SendUpdate(TheUpdate())) && SR.Apply(Tracker3(), SR.SendUpdate(TheUpdate())) == Tracker4()
    ensures SR.Allowed(Tracker4(), SR.TakeUpdate) && SR.Apply(Tracker4(), SR.TakeUpdate) == Tracker5()
  {
  }

  lemma HandsNothing(t: S.Tracker, a: SR.Action)
    requires a.Enable? || a.Record? || a.SendUpdate? || a.TakeUpdate?
    ensures Handed(t, a) == map[]
  {
  }

  lemma FitsToken(issued: Issued)
    requires issued == map["token" := "id"]
    ensures Fit(issued, TheWrapped())
  {
  }

  /** After the reblock and before the update is processed. */
  lemma ReblockedRun(limit: int)
    requires limit >= 1
    ensures Ok(Start(limit)) && IsRun(Start(limit), Reblocked())
    ensures var s := After(Start(limit), Reblocked());
            Delivered(s.b, false, true) && s.t == Tracker5() && s.issued == map["token" := "id"]
  {
    hide Ok, Allowed, Next, Delivered, SR.Allowed, SR.Apply, Handed, Fit, Tracker1, Tracker2, Tracker3, Tracker4, Tracker5;
    DeliveredRun(limit);
    TrackerSteps();
    Blocks();
    var s, events := Start(limit), Reblocked();
    TrackerMove(s, events[..3], SR.Enable(true));
    assert events[..3] + [events[3]] == events[..4];
    FitsToken(After(s, events[..4]).issued);
    TrackerMove(s, events[..4], SR.Block(AnEvaluation(), "token"));
    assert events[..4] + [events[4]] == events[..5];
    TrackerMove(s, events[..5], SR.Record("class", 1));
    assert events[..5] + [events[5]] == events[..6];
    TrackerMove(s, events[..6], SR.SendUpdate(TheUpdate()));
    assert events[..6] + [events[6]] == events[..7];
    TrackerMove(s, events[..7], SR.TakeUpdate);
    assert events[..7] + [events[7]] == events;
  }

  lemma TrackerMove(s: System, run: seq<Event>, a: SR.Action)
    requires Ok(s) && IsRun(s, run) && SR.Allowed(After(s, run).t, a)
    requires a.Enable? || a.Record? || a.SendUpdate? || a.TakeUpdate?
             || (a.Block? && Handed(After(s, run).t, a) == map[] && Fit(After(s, run).issued, S.Wrapped(a.e, a.token)))
    ensures IsRun(s, run + [OnTracker(a, [])])
    ensures After(s, run + [OnTracker(a, [])]) == After(s, run).(t := SR.Apply(After(s, run).t, a))
  {
    hide Ok, Allowed, Next, SR.Allowed, SR.Apply, Handed, Fit;
    if !a.Block? {
      HandsNothing(After(s, run).t, a);
    }
    TrackerStep(After(s, run), a);
    Extend(s, run, OnTracker(a, []));
  }

  /** Once the update is processed the copy is stored, and the evaluation is safe. */
  lemma HandedRun(limit: int)
    requires limit >= 1
    ensures Ok(Start(limit)) && IsRun(Start(limit), Reblocked()) && IsRun(Start(limit), Reblocked() + [Unblocked()])
    ensures Allowed(After(Start(limit), Reblocked()), Unblocked())
    ensures var s := After(Start(limit), Reblocked() + [Unblocked()]);
            Delivered(s.b, true, true) && s.issued == map["token" := "id"] && Safe(s, "id", "token")
  {
    hide Ok, Next, Delivered, SR.Allowed, Handed, Fit, Tracker5, Safe, After;
    ReblockedRun(limit);
    var s := After(Start(limit), Reblocked());
    Unblocks();
    NothingHanded();
    Extend(Start(limit), Reblocked(), Unblocked());
    CopyStored(s.b);
    NextBroker(s);
    StoredIsSafe(After(Start(limit), Reblocked() + [Unblocked()]));
  }

  lemma NextBroker(s: System)
    requires Ok(s) && Allowed(s, Unblocked())
    ensures Next(s, Unblocked()).b == B.EnqueueAll(s.b, Offers([TheWrapped()])) && Next(s, Unblocked()).issued == s.issued
  {
    hide Ok, Allowed, B.EnqueueAll, BookAll, SR.Apply;
  }

  lemma StoredIsSafe(s: System)
    requires Ok(s) && Delivered(s.b, true, true)
    ensures Safe(s, "id", "token")
  {
    hide Queued, Owned, TrackedFit;
  }

  /** The run that loses it. It is live up to the last call, which succeeds. */
  lemma ReblockCanBeLost(limit: int)
    requires limit >= 1
    ensures Ok(Start(limit)) && IsRun(Start(limit), Reblocked() + [Unblocked()] + Calls()[..3])
    ensures IsRun(Start(limit), Reblocked() + [Unblocked()] + Calls())
    ensures var s := After(Start(limit), Reblocked() + [Unblocked()] + Calls()[..3]);
            "id" in s.b.evals && B.AckOutcome(s.b, "id", "token") == B.Done
    ensures "id" !in After(Start(limit), Reblocked() + [Unblocked()] + Calls()).b.evals
  {
    hide Ok, Next, Delivered, Safe, After, IsRun, R.Apply, R.Allowed, TokensMatch, Draw, Allowed;
    HandedRun(limit);
    var s, run, calls := Start(limit), Reblocked() + [Unblocked()], Calls();
    PauseAckResume(After(s, run).b);
    CallsPaired(After(s, run).b);
    CallsPaired(R.Apply(After(s, run).b, calls[0].a));
    CallsPaired(R.Apply(R.Apply(After(s, run).b, calls[0].a), calls[1].a));
    BrokerMove(s, run, calls[0].a);
    BrokerMove(s, run + [calls[0]], calls[1].a);
    BrokerMove(s, run + [calls[0]] + [calls[1]], calls[2].a);
    var early := run + [calls[0]] + [calls[1]] + [calls[2]];
    assert early == run + calls[..3];
    CallsPaired(After(s, early).b);
    BrokerMove(s, early, calls[3].a);
    assert early + [calls[3]] == run + calls;
    UnstoredIsLost(After(s, early));
  }

  lemma CallsPaired(b: B.Broker)
    ensures forall i {:trigger Calls()[i]} :: 0 <= i < |Calls()| ==>
      && R.Allowed(b, Calls()[i].a) && TokensMatch(map["token" := "id"], Calls()[i].a)
      && Draw(b, map["token" := "id"], Calls()[i].a) == map["token" := "id"]
  {
  }

  lemma UnstoredIsLost(s: System)
    requires Ok(s) && Delivered(s.b, false, true)
    ensures "id" in s.b.evals && B.AckOutcome(s.b, "id", "token") == B.Done
    ensures "id" !in R.Apply(s.b, R.Ack("id", "token")).evals
  {
    hide Queued, Owned, TrackedFit, R.Backed, B.Ack;
    AckKeepsIdExact(s.b, s.k, "id", "token");
  }

  /** From the same state an Ack that names the token with another evaluation loses it too. */
  lemma MispairedCallCanLose(limit: int)
    requires limit >= 1
    ensures Ok(Start(limit)) && IsRun(Start(limit), Reblocked() + [Unblocked()])
    ensures var b := After(Start(limit), Reblocked() + [Unblocked()]).b;
            && "id" in b.evals && B.AckOutcome(b, "id", "token") == B.Done && "id" in B.Ack(b, "id", "token").evals
            && "id" !in B.Ack(B.Ack(b, "other", "token"), "id", "token").evals
  {
    hide R.Backed, Owned, SR.Good, TrackedFit, Safe, After, IsRun, B.Ack, Allowed;
    HandedRun(limit);
    var s := After(Start(limit), Reblocked() + [Unblocked()]);
    AckKeepsIdExact(s.b, s.k, "id", "token");
    MispairedCallLoses(s.b, s.k, R.Ack("other", "token"), "id", "token");
  }
}
