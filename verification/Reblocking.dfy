/** The blocked tracker and the broker together: an evaluation reblocked by an outstanding
    delivery and then unblocked is not lost, however the unblock interleaves with the
    Ack, Nack or timeout of that delivery. */
module Reblocking {
  import opened Evaluations
  import opened BrokerRefinement
  import L = BrokerLedger
  import B = BrokerState
  import R = BrokerRuns
  import T = BrokerTheorems
  import S = BlockedState
  import ST = BlockedTheorems
  import SR = BlockedRuns

  /** Which evaluation each token was drawn for. */
  type Issued = map<string, string>

  /** Outstanding deliveries carry the tokens drawn for them. */
  ghost predicate Owned(k: L.Book, issued: Issued) {
    forall x :: x in k.entries && k.entries[x].place.Outstanding? ==>
      k.entries[x].place.token in issued && issued[k.entries[x].place.token] == x
  }

  /** Tokens are fresh, and a call names a token together with its own evaluation. */
  ghost predicate TokensMatch(issued: Issued, a: R.Action) {
    match a
    case Dequeue(_, t) => t != "" && t !in issued
    case Enqueue(e, t) => t != "" && t in issued ==> issued[t] == e.id
    case Ack(id, t) => t in issued ==> issued[t] == id
    case Nack(id, t) => t in issued ==> issued[t] == id
    case _ => true
  }

  ghost function Draw(b: B.Broker, issued: Issued, a: R.Action): Issued {
    if a.Dequeue? && B.HasWork(b, a.queue) then issued[a.token := B.NextFor(b, a.queue).id] else issued
  }

  /** A copy of the evaluation is stored under the token. */
  ghost predicate Stored(k: L.Book, id: string, token: string) {
    token in k.requeue && k.requeue[token].id == id
  }

  /** While the delivery with this token is outstanding, no Ack of it can take the evaluation
      out: a copy is stored, or the timer is stopped and the Ack would fail. */
  ghost predicate Guarded(k: L.Book, id: string, token: string) {
    L.HeldBy(k, id, token) ==> Stored(k, id, token) || !k.entries[id].place.armed
  }

  /** The token belongs to the evaluation, or there is none. */
  ghost predicate TokenOf(issued: Issued, id: string, token: string) {
    token == "" || (token in issued && issued[token] == id)
  }

  // ---- one delivery's Ack ----------------------------------------------------------

  /** A successful Ack leaves the ID in the broker exactly when a copy of the evaluation
      was stored under the token. */
  lemma BookAckKeepsIdExact(k: L.Book, id: string, token: string, k': L.Book)
    requires L.AckStep(k, id, token, k') && L.CanAck(k, id, token) && k.enabled
    ensures id in k'.entries <==> token in k.requeue && k.requeue[token].id == id
  {
    var es2: L.Entries :| L.Promoted(k.entries - {id}, k.entries[id].eval.jobId, es2)
                          && k' == L.TakeRequeued(k.(entries := es2), token);
    assert es2.Keys == k.entries.Keys - {id};
  }

  lemma AckKeepsIdExact(b: B.Broker, k: L.Book, id: string, token: string)
    requires b.limit >= 1 && R.Backed(b, k) && B.AckOutcome(b, id, token) == B.Done
    ensures id in B.Ack(b, id, token).evals <==> token in b.requeue && b.requeue[token].id == id
  {
    hide Queued, L.Inv, B.Ack;
    AckOutcomeIff(b, k, id, token);
    AckAgrees(b, k, id, token);
    AckEnabled(b, k, id);
    BookAckKeepsIdExact(k, id, token, AckBook(b, k, id, token));
  }

  lemma ExpiredThenResumed(b: B.Broker, id: string, token: string)
    requires B.AckOutcome(b, id, token) == B.TimerExpired
    ensures var b1 := B.Ack(b, id, token);
            var b2 := B.ResumeNackTimeout(b1, id, token);
            && b1 == b.(requeue := b.requeue - {token})
            && b2 == b1.(unack := b.unack[id := b.unack[id].(armed := true)])
            && B.AckOutcome(b2, id, token) == B.Done
    ensures var b2 := B.ResumeNackTimeout(b, id, token);
            b2.requeue == b.requeue && b2.limit == b.limit && B.AckOutcome(b2, id, token) == B.Done
  {
  }

  /** An Ack that finds the timer stopped loses the stored copy: had the timer been armed
      again first, the Ack would have re-enqueued the evaluation; tried too early, it fails,
      and repeated once the timer is armed it removes the evaluation for good. */
  lemma RepeatedAckLoses(b: B.Broker, k: L.Book, id: string, token: string)
    requires b.limit >= 1 && R.Backed(b, k) && B.AckOutcome(b, id, token) == B.TimerExpired
    requires token in b.requeue && b.requeue[token].id == id
    ensures var early := B.ResumeNackTimeout(B.Ack(b, id, token), id, token);
            var ready := B.ResumeNackTimeout(b, id, token);
            && B.AckOutcome(ready, id, token) == B.Done && id in B.Ack(ready, id, token).evals
            && B.AckOutcome(early, id, token) == B.Done && id !in B.Ack(early, id, token).evals
  {
    hide R.Backed, R.Follow, R.BookStep, B.Ack, B.ResumeNackTimeout, B.AckOutcome, B.AckSafe, B.NackSafe;
    ExpiredThenResumed(b, id, token);
    var b1 := B.Ack(b, id, token);
    R.StepRefines(b, k, R.Ack(id, token));
    var k1 := R.Follow(b, k, R.Ack(id, token));
    R.StepRefines(b1, k1, R.Resume(id, token));
    AckKeepsIdExact(B.ResumeNackTimeout(b1, id, token), R.Follow(b1, k1, R.Resume(id, token)), id, token);
    R.StepRefines(b, k, R.Resume(id, token));
    AckKeepsIdExact(B.ResumeNackTimeout(b, id, token), R.Follow(b, k, R.Resume(id, token)), id, token);
  }

  // ---- calls that name a token with another evaluation -----------------------------

  /** A call for another evaluation leaves an outstanding delivery alone and drops the copy. */
  lemma OtherCall(limit: int, k: L.Book, a: R.Action, k': L.Book, id: string, token: string)
    requires (a.Ack? || a.Nack?) && a.id != id && a.token == token && R.BookStep(limit, k, a, k')
    requires id in k.entries && k.entries[id].place.Outstanding?
    ensures id in k'.entries && k'.entries[id] == k.entries[id] && token !in k'.requeue
  {
    if a.Ack? && L.CanAck(k, a.id, token) {
      var es2: L.Entries :| L.Promoted(k.entries - {a.id}, k.entries[a.id].eval.jobId, es2)
                            && k' == L.TakeRequeued(k.(entries := es2), token);
      assert id in es2 && es2[id] == k.entries[id];
    }
  }

  /** The delivery's own call settles it and leaves the ID in the broker. */
  lemma OwnCallEnds(limit: int, k: L.Book, a: R.Action, k': L.Book, id: string, token: string)
    requires (a == R.Ack(id, token) || a == R.Nack(id, token)) && R.BookStep(limit, k, a, k') && k.enabled
    requires L.CanAck(k, id, token) && Stored(k, id, token)
    ensures id in k'.entries && !k'.entries[id].place.Outstanding?
  {
    hide L.AckStep;
    if a.Ack? {
      BookAckKeepsIdExact(k, id, token, k');
      T.AckKeepsEntry(k, id, token, k', id);
    }
  }

  /** Pairing matters. With a copy stored under its token, a delivery's own Ack keeps the
      evaluation after an Ack or Nack that names the token exactly when that call named the
      delivery's own evaluation. This covers a token drawn twice as well. */
  lemma MispairedCallLoses(b: B.Broker, k: L.Book, a: R.Action, id: string, token: string)
    requires b.limit >= 1 && R.Backed(b, k) && B.AckOutcome(b, id, token) == B.Done
    requires token in b.requeue && b.requeue[token].id == id
    requires (a.Ack? || a.Nack?) && a.token == token
    ensures id in B.Ack(R.Apply(b, a), id, token).evals <==> a.id == id
  {
    hide Agrees, L.Inv, R.Follow, R.BookStep, R.Apply, B.Ack, B.AckOutcome, B.AckSafe, B.NackSafe;
    AckOutcomeIff(b, k, id, token);
    AckEnabled(b, k, id);
    AgreesRequeue(b, k);
    R.StepRefines(b, k, a);
    R.ApplyLimit(b, a);
    var b', k' := R.Apply(b, a), R.Follow(b, k, a);
    AckOutcomeIff(b', k', id, token);
    T.EvalsMatch(b', k', id);
    AgreesRequeue(b', k');
    if a.id == id {
      OwnCallEnds(b.limit, k, a, k', id, token);
      FailedAckKeeps(b', id, token);
    } else {
      OtherCall(b.limit, k, a, k', id, token);
      AckKeepsIdExact(b', k', id, token);
    }
  }

  lemma FailedAckKeeps(b: B.Broker, id: string, token: string)
    requires B.AckOutcome(b, id, token) != B.Done
    ensures B.Ack(b, id, token).evals == b.evals
  {
  }

  // ---- surviving a run -------------------------------------------------------------

  /** The steps that end the evaluation's safety: a flush, a successful Ack of some other
      delivery of it without a stored copy, and a re-arming of this delivery after its copy
      is gone. */
  ghost predicate Spoils(k: L.Book, a: R.Action, id: string, token: string) {
    || a == R.SetEnabled(false)
    || (a.Ack? && a.id == id && a.token != token && L.CanAck(k, id, a.token) && !Stored(k, id, a.token))
    || (a == R.Resume(id, token) && L.HeldBy(k, id, token) && !Stored(k, id, token))
  }

  lemma OwnedStep(limit: int, k: L.Book, a: R.Action, k': L.Book, issued: Issued, issued': Issued)
    requires Owned(k, issued) && R.BookStep(limit, k, a, k') && TokensMatch(issued, a)
    requires if a.Dequeue?
             then exists x :: x in k.entries && k' == L.Deliver(k, x, a.queue, a.token) && issued' == issued[a.token := x]
             else issued' == issued
    ensures Owned(k', issued')
  {
    if a.Dequeue? {
      var x :| x in k.entries && k' == L.Deliver(k, x, a.queue, a.token) && issued' == issued[a.token := x];
    } else {
      forall x | x in k'.entries && k'.entries[x].place.Outstanding?
        ensures k'.entries[x].place.token in issued' && issued'[k'.entries[x].place.token] == x
      {
        T.EntryKept(limit, k, a, k', x);
      }
    }
  }

  /** One step keeps a live, guarded evaluation so exactly when it does not spoil it. */
  lemma LiveStep(limit: int, k: L.Book, a: R.Action, k': L.Book, issued: Issued, id: string, token: string)
    requires Owned(k, issued) && R.BookStep(limit, k, a, k') && TokensMatch(issued, a) && k.enabled
    requires a.Dequeue? ==> exists x :: x in k.entries && k' == L.Deliver(k, x, a.queue, a.token)
    requires id in k.entries && Guarded(k, id, token) && TokenOf(issued, id, token)
    ensures id in k'.entries && Guarded(k', id, token) <==> !Spoils(k, a, id, token)
  {
    hide R.BookStep, Guarded, Owned, TokensMatch, TokenOf;
    if Spoils(k, a, id, token) {
      SpoiledStep(limit, k, a, k', id, token);
    } else {
      LiveStays(limit, k, a, k', id, token);
      GuardStays(limit, k, a, k', issued, id, token);
    }
  }

  lemma SpoiledStep(limit: int, k: L.Book, a: R.Action, k': L.Book, id: string, token: string)
    requires R.BookStep(limit, k, a, k') && k.enabled && Spoils(k, a, id, token)
    ensures !(id in k'.entries && Guarded(k', id, token))
  {
    if a.Ack? {
      BookAckKeepsIdExact(k, id, a.token, k');
    }
  }

  lemma LiveStays(limit: int, k: L.Book, a: R.Action, k': L.Book, id: string, token: string)
    requires R.BookStep(limit, k, a, k') && k.enabled
    requires id in k.entries && Guarded(k, id, token) && !Spoils(k, a, id, token)
    ensures id in k'.entries
  {
    hide R.BookStep, L.AckStep;
    if id !in k'.entries {
      T.BookLeaves(limit, k, a, k', id);
      AckOfToken(limit, k, a, k', id);
    }
  }

  lemma AckOfToken(limit: int, k: L.Book, a: R.Action, k': L.Book, id: string)
    requires R.BookStep(limit, k, a, k') && k.enabled
    requires a.Ack? && a.id == id && L.CanAck(k, id, a.token) && Stored(k, id, a.token)
    ensures id in k'.entries
  {
    BookAckKeepsIdExact(k, id, a.token, k');
  }

  /** Only re-arming it turns a stopped timer on. */
  lemma StaysStopped(limit: int, k: L.Book, a: R.Action, k': L.Book, id: string, token: string)
    requires R.BookStep(limit, k, a, k') && !a.Dequeue? && a != R.Resume(id, token)
    requires L.HeldBy(k', id, token) && L.HeldBy(k, id, token) && !k.entries[id].place.armed
    ensures !k'.entries[id].place.armed
  {
    hide L.AckStep;
    if a.Ack? && L.CanAck(k, a.id, a.token) {
      T.AckKeepsEntry(k, a.id, a.token, k', id);
    } else if a.Ack? {
      T.AckFails(k, a.id, a.token, k');
    }
  }

  /** An Ack or Nack of the delivery leaves it unheld or stopped. */
  lemma OwnCall(limit: int, k: L.Book, a: R.Action, k': L.Book, id: string, token: string)
    requires R.BookStep(limit, k, a, k') && (a == R.Ack(id, token) || a == R.Nack(id, token))
    ensures L.HeldBy(k', id, token) ==> !k'.entries[id].place.armed
  {
    hide L.AckStep;
    if a.Ack? && L.CanAck(k, id, token) {
      if id in k'.entries {
        T.AckKeepsEntry(k, id, token, k', id);
      }
    } else if a.Ack? {
      T.AckFails(k, id, token, k');
    }
  }

  lemma GuardStays(limit: int, k: L.Book, a: R.Action, k': L.Book, issued: Issued, id: string, token: string)
    requires Owned(k, issued) && R.BookStep(limit, k, a, k') && TokensMatch(issued, a) && k.enabled
    requires a.Dequeue? ==> exists x :: x in k.entries && k' == L.Deliver(k, x, a.queue, a.token)
    requires id in k.entries && id in k'.entries && Guarded(k, id, token) && TokenOf(issued, id, token)
    requires !Spoils(k, a, id, token)
    ensures Guarded(k', id, token)
  {
    if L.HeldBy(k', id, token) {
      if a.Dequeue? {
        var x :| x in k.entries && k' == L.Deliver(k, x, a.queue, a.token);
      } else {
        hide R.BookStep, L.AckStep;
        T.EntryKept(limit, k, a, k', id);
        if (a.Ack? || a.Nack?) && a.token == token {
          OwnCall(limit, k, a, k', id, token);
        } else if Stored(k, id, token) {
          RequeueStays(limit, k, a, k', issued, id, token);
        } else {
          StaysStopped(limit, k, a, k', id, token);
        }
      }
    }
  }

  lemma RequeueStays(limit: int, k: L.Book, a: R.Action, k': L.Book, issued: Issued, id: string, token: string)
    requires R.BookStep(limit, k, a, k') && TokensMatch(issued, a) && !a.Dequeue?
    requires TokenOf(issued, id, token) && Owned(k, issued) && L.HeldBy(k, id, token)
    requires token in k.requeue && k.requeue[token].id == id
    requires a.Ack? || a.Nack? ==> a.token != token
    ensures token in k'.requeue && k'.requeue[token].id == id
  {
  }

  // ---- handing evaluations to the broker -------------------------------------------

  /** An evaluation from the tracker: it can be enqueued, and its token is its own. */
  ghost predicate Fit(issued: Issued, w: S.Wrapped) {
    L.Enqueueable(w.eval) && TokenOf(issued, w.eval.id, w.token)
  }

  /** Nothing with a wait is offered to a disabled broker. */
  ghost predicate Timely(enabled: bool, order: seq<S.Wrapped>) {
    forall i :: 0 <= i < |order| && order[i].eval.wait > 0 ==> enabled
  }

  function Offers(order: seq<S.Wrapped>): seq<(Evaluation, string)> {
    seq(|order|, i requires 0 <= i < |order| => (order[i].eval, order[i].token))
  }

  ghost function BookAll(k: L.Book, order: seq<S.Wrapped>): L.Book
    decreases |order|
  {
    if order == [] then k
    else
      var last := |order| - 1;
      L.Enqueue(BookAll(k, order[..last]), order[last].eval, order[last].token)
  }

  lemma OffersPrefix(order: seq<S.Wrapped>)
    requires order != []
    ensures var last := |order| - 1;
            && |Offers(order)| == |order| && Offers(order)[..last] == Offers(order[..last])
            && Offers(order)[last] == (order[last].eval, order[last].token)
  {
  }

  ghost predicate AllFit(issued: Issued, order: seq<S.Wrapped>) {
    forall i :: 0 <= i < |order| ==> Fit(issued, order[i])
  }

  lemma AllFitPrefix(issued: Issued, order: seq<S.Wrapped>)
    requires AllFit(issued, order) && order != []
    ensures AllFit(issued, order[..|order| - 1]) && Fit(issued, order[|order| - 1])
  {
  }

  /** An offer to an enabled book leaves the ID in it and the delivery armed. */
  lemma OfferLive(k: L.Book, e: Evaluation, token: string)
    requires k.enabled
    ensures var k' := L.Enqueue(k, e, token);
            e.id in k'.entries && (token != "" ==> Guarded(k', e.id, token)) && k'.enabled
  {
  }

  lemma NoTokenNotHeld(k: L.Book, issued: Issued, id: string)
    requires Owned(k, issued) && "" !in issued
    ensures !L.HeldBy(k, id, "")
  {
  }

  lemma HandOne(b: B.Broker, k: L.Book, issued: Issued, w: S.Wrapped)
    requires b.limit >= 1 && R.Backed(b, k) && Owned(k, issued) && "" !in issued && Fit(issued, w)
    requires w.eval.wait > 0 ==> k.enabled
    ensures var b', k' := B.ProcessEnqueue(b, w.eval, w.token), L.Enqueue(k, w.eval, w.token);
            && R.Backed(b', k') && Owned(k', issued) && b'.limit == b.limit && k'.enabled == k.enabled
            && R.BookStep(b.limit, k, R.Enqueue(w.eval, w.token), k') && TokensMatch(issued, R.Enqueue(w.eval, w.token))
            && (k.enabled ==> w.eval.id in k'.entries && Guarded(k', w.eval.id, w.token))
  {
    hide R.Backed, B.ProcessEnqueue, L.Enqueue, Owned, Guarded, B.AckSafe, B.NackSafe;
    var a, k' := R.Enqueue(w.eval, w.token), L.Enqueue(k, w.eval, w.token);
    SameSwitch(b, k);
    R.StepRefines(b, k, a);
    R.EnqueueLimit(b, w.eval, w.token);
    OwnedStep(b.limit, k, a, k', issued, issued);
    if k.enabled {
      OfferLive(k, w.eval, w.token);
      if w.token == "" {
        NoTokenGuarded(k', issued, w.eval.id);
      }
    } else {
      EnqueueDisabled(k, w.eval, w.token);
    }
  }

  lemma SameSwitch(b: B.Broker, k: L.Book)
    requires R.Backed(b, k)
    ensures b.enabled == k.enabled
  {
    AgreesRequeue(b, k);
  }

  lemma NoTokenGuarded(k: L.Book, issued: Issued, id: string)
    requires Owned(k, issued) && "" !in issued
    ensures Guarded(k, id, "")
  {
    NoTokenNotHeld(k, issued, id);
  }

  lemma EnqueueDisabled(k: L.Book, e: Evaluation, token: string)
    requires !k.enabled
    ensures L.Enqueue(k, e, token) == k
  {
  }

  /** The broker and its book after the offers. */
  lemma {:induction false} HandOver(b: B.Broker, k: L.Book, issued: Issued, order: seq<S.Wrapped>)
    requires b.limit >= 1 && R.Backed(b, k) && Owned(k, issued) && "" !in issued && AllFit(issued, order)
    requires Timely(k.enabled, order)
    ensures var b', k' := B.EnqueueAll(b, Offers(order)), BookAll(k, order);
            R.Backed(b', k') && Owned(k', issued) && b'.limit == b.limit && k'.enabled == k.enabled
    decreases |order|
  {
    hide R.Backed, Owned, B.ProcessEnqueue, L.Enqueue, AllFit, Fit, R.BookStep, TokensMatch, Guarded, Offers;
    if order == [] {
      OffersNone();
    } else {
      var last := |order| - 1;
      AllFitPrefix(issued, order);
      HandOver(b, k, issued, order[..last]);
      OffersPrefix(order);
      HandOne(B.EnqueueAll(b, Offers(order[..last])), BookAll(k, order[..last]), issued, order[last]);
    }
  }

  lemma OffersNone()
    ensures Offers([]) == []
  {
  }

  /** What was live and armed before the offers is so afterwards. */
  lemma {:induction false} LiveThroughOffers(b: B.Broker, k: L.Book, issued: Issued, order: seq<S.Wrapped>,
                                             id: string, token: string)
    requires b.limit >= 1 && R.Backed(b, k) && Owned(k, issued) && "" !in issued && AllFit(issued, order) && k.enabled
    requires id in k.entries && Guarded(k, id, token) && TokenOf(issued, id, token)
    ensures id in BookAll(k, order).entries && Guarded(BookAll(k, order), id, token)
    decreases |order|
  {
    hide R.Backed, Owned, L.Enqueue, AllFit, Fit, Guarded, TokenOf, R.BookStep, TokensMatch, Offers;
    hide L.CanAck, L.HeldBy, B.EnqueueAll;
    if order != [] {
      var last := |order| - 1;
      AllFitPrefix(issued, order);
      LiveThroughOffers(b, k, issued, order[..last], id, token);
      HandOver(b, k, issued, order[..last]);
      var w, k1 := order[last], BookAll(k, order[..last]);
      HandOne(B.EnqueueAll(b, Offers(order[..last])), k1, issued, w);
      LiveStep(b.limit, k1, R.Enqueue(w.eval, w.token), L.Enqueue(k1, w.eval, w.token), issued, id, token);
    }
  }

  /** Every evaluation handed to an enabled broker is live in it, and if the delivery that
      reblocked it is still outstanding, that delivery's Ack will re-enqueue it. */
  lemma {:induction false} HandedLive(b: B.Broker, k: L.Book, issued: Issued, order: seq<S.Wrapped>, i: nat)
    requires b.limit >= 1 && R.Backed(b, k) && Owned(k, issued) && "" !in issued && AllFit(issued, order) && k.enabled && i < |order|
    ensures order[i].eval.id in BookAll(k, order).entries
    ensures Guarded(BookAll(k, order), order[i].eval.id, order[i].token)
    decreases |order|
  {
    hide R.Backed, Owned, L.Enqueue, Guarded, TokenOf, R.BookStep, TokensMatch, Offers;
    var last := |order| - 1;
    HandOver(b, k, issued, order[..last]);
    var w, k1, b1 := order[last], BookAll(k, order[..last]), B.EnqueueAll(b, Offers(order[..last]));
    HandOne(b1, k1, issued, w);
    if i < last {
      HandedLive(b, k, issued, order[..last], i);
      LiveStep(b.limit, k1, R.Enqueue(w.eval, w.token), L.Enqueue(k1, w.eval, w.token), issued,
               order[i].eval.id, order[i].token);
    }
  }

  // ---- the composed system ---------------------------------------------------------

  datatype System = System(b: B.Broker, k: L.Book, t: S.Tracker, issued: Issued)

  /** order is the order in which the broker's loop takes the handed evaluations. */
  datatype Event = OnBroker(a: R.Action) | OnTracker(s: SR.Action, order: seq<S.Wrapped>)

  /** What a step of the tracker hands over, by ID. */
  ghost function Handed(t: S.Tracker, a: SR.Action): map<string, S.Wrapped> {
    match a
    case Block(e, token) => if S.ProcessBlock(t, e, token).1 != [] then map[e.id := S.Wrapped(e, token)] else map[]
    case ProcessUpdate(u) => if t.enabled then S.UnblockedBy(t, u.class_) else map[]
    case Failed => if t.enabled then S.FailedTracked(t) else map[]
    case _ => map[]
  }

  /** The sequence holds each value of the map once. */
  ghost predicate ListingOf(order: seq<S.Wrapped>, m: map<string, S.Wrapped>) {
    && (forall i :: 0 <= i < |order| ==> order[i].eval.id in m && m[order[i].eval.id] == order[i])
    && (forall id :: id in m ==> m[id] in order)
    && (forall i, j :: 0 <= i < j < |order| ==> order[i] != order[j])
  }

  ghost predicate Allowed(s: System, ev: Event) {
    match ev
    case OnBroker(a) => R.Allowed(s.b, a) && TokensMatch(s.issued, a)
    case OnTracker(a, order) =>
      && SR.Allowed(s.t, a)
      && ListingOf(order, Handed(s.t, a))
      && (a.Block? ==> Fit(s.issued, S.Wrapped(a.e, a.token)))
      && Timely(s.b.enabled, order)
  }

  ghost predicate TrackedFit(t: S.Tracker, issued: Issued) {
    forall id :: id in S.Tracked(t) ==> Fit(issued, S.Tracked(t)[id])
  }

  ghost predicate Ok(s: System) {
    && s.b.limit >= 1 && R.Backed(s.b, s.k)
    && Owned(s.k, s.issued) && "" !in s.issued
    && SR.Good(s.t) && TrackedFit(s.t, s.issued)
  }

  /** A new broker with a positive limit and a new tracker. */
  function Start(limit: int): System {
    System(B.New(limit), L.Book(false, map[], map[]), S.New(), map[])
  }

  lemma StartOk(limit: int)
    requires limit >= 1
    ensures Ok(Start(limit))
  {
    EmptyAgrees(B.New(limit), L.Book(false, map[], map[]));
    assert S.Tracked(S.New()) == map[];
    hide Agrees;
  }

  ghost function Next(s: System, ev: Event): System
    requires Ok(s) && Allowed(s, ev)
  {
    match ev
    case OnBroker(a) => System(R.Apply(s.b, a), R.Follow(s.b, s.k, a), s.t, Draw(s.b, s.issued, a))
    case OnTracker(a, order) =>
      System(B.EnqueueAll(s.b, Offers(order)), BookAll(s.k, order), SR.Apply(s.t, a), s.issued)
  }

  lemma HandedFit(t: S.Tracker, issued: Issued, a: SR.Action, order: seq<S.Wrapped>)
    requires SR.Good(t) && TrackedFit(t, issued) && ListingOf(order, Handed(t, a))
    requires a.Block? ==> Fit(issued, S.Wrapped(a.e, a.token))
    ensures AllFit(issued, order)
  {
    forall i | 0 <= i < |order|
      ensures Fit(issued, order[i])
    {
      var id := order[i].eval.id;
      if !a.Block? {
        HandedTracked(t, a, id);
      }
    }
  }

  /** Whatever is handed over was tracked, except an evaluation that was just blocked. */
  lemma HandedTracked(t: S.Tracker, a: SR.Action, id: string)
    requires ST.Index(t) && id in Handed(t, a) && !a.Block?
    ensures id in S.Tracked(t) && S.Tracked(t)[id] == Handed(t, a)[id]
  {
    hide ST.JobsIndex, ST.CountsExact, S.MissedUnblock;
  }

  lemma {:induction false} TrackedSubset(t: S.Tracker, a: SR.Action, id: string)
    requires SR.Good(t) && SR.Allowed(t, a) && id in S.Tracked(SR.Apply(t, a))
    ensures var w := S.Tracked(SR.Apply(t, a))[id];
            (id in S.Tracked(t) && w == S.Tracked(t)[id]) || (a.Block? && w == S.Wrapped(a.e, a.token))
  {
    hide ST.JobsIndex, ST.Holds, ST.CountsExact, S.JobsOf, SR.Covered, S.MissedUnblock;
    match a
    case Block(e, token) =>
      hide S.Track;
      if S.ProcessBlock(t, e, token).0 == S.Track(t, e, token) {
        TrackedAfterTrack(t, e, token, id);
      } else {
        ST.TrackedSame(t, S.ProcessBlock(t, e, token).0);
      }
    case UntrackJob(job) => UntrackSubset(t, job, id);
    case ProcessUpdate(u) => SR.ProcessTracked(t, u, id);
    case Failed =>
    case _ =>
  }

  lemma TrackedAfterTrack(t: S.Tracker, e: Evaluation, token: string, id: string)
    requires id in S.Tracked(S.Track(t, e, token))
    ensures var w := S.Tracked(S.Track(t, e, token))[id];
            (id in S.Tracked(t) && w == S.Tracked(t)[id]) || w == S.Wrapped(e, token)
  {
  }

  lemma UntrackSubset(t: S.Tracker, job: string, id: string)
    requires id in S.Tracked(S.Untrack(t, job)) && t.captured.Keys !! t.escaped.Keys
    ensures id in S.Tracked(t) && S.Tracked(S.Untrack(t, job))[id] == S.Tracked(t)[id]
  {
  }

  lemma TrackerFitStep(s: System, a: SR.Action)
    requires Ok(s) && SR.Allowed(s.t, a) && (a.Block? ==> Fit(s.issued, S.Wrapped(a.e, a.token)))
    ensures SR.Good(SR.Apply(s.t, a)) && TrackedFit(SR.Apply(s.t, a), s.issued)
  {
    hide R.Backed, Owned, SR.Good, SR.Apply, SR.Allowed, S.Tracked, Fit;
    SR.StepKeeps(s.t, a);
    forall id | id in S.Tracked(SR.Apply(s.t, a))
      ensures Fit(s.issued, S.Tracked(SR.Apply(s.t, a))[id])
    {
      TrackedSubset(s.t, a, id);
    }
  }

  /** A drawn token is new, so it is nobody else's. */
  lemma FitGrows(issued: Issued, issued': Issued, w: S.Wrapped)
    requires Fit(issued, w) && forall t :: t in issued ==> t in issued' && issued'[t] == issued[t]
    ensures Fit(issued', w)
  {
  }

  lemma BrokerStepOk(s: System, a: R.Action)
    requires Ok(s) && R.Allowed(s.b, a) && TokensMatch(s.issued, a)
    ensures var k', issued' := R.Follow(s.b, s.k, a), Draw(s.b, s.issued, a);
            && R.Backed(R.Apply(s.b, a), k') && R.Apply(s.b, a).limit == s.b.limit
            && Owned(k', issued') && "" !in issued' && TrackedFit(s.t, issued')
            && R.BookStep(s.b.limit, s.k, a, k')
            && (a.Dequeue? ==> exists x :: x in s.k.entries && k' == L.Deliver(s.k, x, a.queue, a.token))
  {
    hide R.Backed, R.Apply, R.BookStep, Owned, SR.Good, S.Tracked, Fit, B.AckSafe, B.NackSafe, B.NextFor;
    R.StepRefines(s.b, s.k, a);
    R.ApplyLimit(s.b, a);
    var k', issued' := R.Follow(s.b, s.k, a), Draw(s.b, s.issued, a);
    if a.Dequeue? {
      FollowDeliver(s.b, s.k, a);
    }
    OwnedStep(s.b.limit, s.k, a, k', s.issued, issued');
    forall id | id in S.Tracked(s.t)
      ensures Fit(issued', S.Tracked(s.t)[id])
    {
      FitGrows(s.issued, issued', S.Tracked(s.t)[id]);
    }
  }

  lemma FollowDeliver(b: B.Broker, k: L.Book, a: R.Action)
    requires R.Backed(b, k) && R.Allowed(b, a) && a.Dequeue?
    ensures B.HasWork(b, a.queue)
    ensures var x := B.NextFor(b, a.queue).id;
            x in k.entries && R.Follow(b, k, a) == L.Deliver(k, x, a.queue, a.token)
  {
    hide Agrees, L.Inv, B.NextFor, B.DequeueFor;
    DequeueAgrees(b, k, a.queue, a.token);
  }

  /** Every event keeps both invariants. */
  lemma NextOk(s: System, ev: Event)
    requires Ok(s) && Allowed(s, ev)
    ensures Ok(Next(s, ev)) && Next(s, ev).b.limit == s.b.limit
  {
    match ev
    case OnBroker(a) =>
      hide R.Backed, R.Apply, R.BookStep, Owned, SR.Good, TrackedFit, R.Follow, Draw;
      BrokerStepOk(s, a);
    case OnTracker(a, order) =>
      hide R.Backed, Owned, SR.Good, TrackedFit, SR.Apply, SR.Allowed, Handed, ListingOf, Fit;
      HandedFit(s.t, s.issued, a, order);
      SameSwitch(s.b, s.k);
      HandOver(s.b, s.k, s.issued, order);
      TrackerFitStep(s, a);
  }

  /** The evaluation is live, and an outstanding delivery with the token is guarded. */
  ghost predicate Safe(s: System, id: string, token: string) {
    id in s.b.evals && Guarded(s.k, id, token)
  }

  /** That is: it is live, and it would still be after an Ack of this delivery. */
  lemma SafeMeans(s: System, id: string, token: string)
    requires Ok(s)
    ensures Safe(s, id, token) <==>
            id in s.b.evals && (B.AckOutcome(s.b, id, token) == B.Done ==> id in B.Ack(s.b, id, token).evals)
  {
    hide Agrees, L.Inv, Owned, SR.Good, TrackedFit, B.Ack;
    EntriesAre(s, id);
    AckOutcomeIff(s.b, s.k, id, token);
    AgreesRequeue(s.b, s.k);
    if B.AckOutcome(s.b, id, token) == B.Done {
      AckKeepsIdExact(s.b, s.k, id, token);
    }
  }

  ghost predicate SpoilsEvent(s: System, ev: Event, id: string, token: string) {
    ev.OnBroker? && Spoils(s.k, ev.a, id, token)
  }

  lemma EntriesAre(s: System, id: string)
    requires Ok(s)
    ensures id in s.b.evals <==> id in s.k.entries
    ensures id in s.k.entries ==> s.k.enabled
  {
    hide Queued, Owned, SR.Good, TrackedFit;
    T.EvalsMatch(s.b, s.k, id);
  }

  lemma SafeBrokerStep(s: System, a: R.Action, id: string, token: string)
    requires Ok(s) && R.Allowed(s.b, a) && TokensMatch(s.issued, a)
    requires id in s.k.entries && s.k.enabled && Guarded(s.k, id, token) && TokenOf(s.issued, id, token)
    ensures var k' := R.Follow(s.b, s.k, a);
            id in k'.entries && Guarded(k', id, token) <==> !Spoils(s.k, a, id, token)
    ensures TokenOf(Draw(s.b, s.issued, a), id, token)
  {
    hide R.Backed, R.Apply, R.BookStep, Owned, SR.Good, TrackedFit, R.Follow, Guarded, Spoils, L.Deliver, B.NextFor;
    BrokerStepOk(s, a);
    LiveStep(s.b.limit, s.k, a, R.Follow(s.b, s.k, a), s.issued, id, token);
  }

  lemma SafeTrackerStep(s: System, a: SR.Action, order: seq<S.Wrapped>, id: string, token: string)
    requires Ok(s) && Allowed(s, OnTracker(a, order))
    requires id in s.k.entries && s.k.enabled && Guarded(s.k, id, token) && TokenOf(s.issued, id, token)
    ensures var k' := BookAll(s.k, order); id in k'.entries && Guarded(k', id, token)
  {
    hide R.Backed, Owned, SR.Good, TrackedFit, SR.Apply, SR.Allowed, Handed, ListingOf, Fit, Guarded;
    HandedFit(s.t, s.issued, a, order);
    LiveThroughOffers(s.b, s.k, s.issued, order, id, token);
  }

  /** One event of the system keeps the evaluation safe exactly when it does not spoil it. */
  lemma SafeStep(s: System, ev: Event, id: string, token: string)
    requires Ok(s) && Allowed(s, ev) && Safe(s, id, token) && TokenOf(s.issued, id, token)
    ensures Safe(Next(s, ev), id, token) <==> !SpoilsEvent(s, ev, id, token)
    ensures TokenOf(Next(s, ev).issued, id, token)
  {
    hide Ok, Guarded, TokenOf, Spoils, R.Apply, R.Follow, B.EnqueueAll, BookAll, SR.Apply, SR.Allowed, R.Allowed;
    NextOk(s, ev);
    EntriesAre(s, id);
    EntriesAre(Next(s, ev), id);
    match ev
    case OnBroker(a) => SafeBrokerStep(s, a, id, token);
    case OnTracker(a, order) => SafeTrackerStep(s, a, order, id, token);
  }

  // ---- runs of the composed system -------------------------------------------------

  ghost predicate IsRun(s: System, run: seq<Event>)
    requires Ok(s)
    decreases |run|, 0
  {
    run == [] ||
    (var last := |run| - 1;
     IsRun(s, run[..last]) && Allowed(After(s, run[..last]), run[last]))
  }

  ghost function After(s: System, run: seq<Event>): (r: System)
    requires Ok(s) && IsRun(s, run)
    ensures Ok(r)
    decreases |run|, 1
  {
    if run == [] then s
    else
      var last := |run| - 1;
      var s1 := After(s, run[..last]);
      NextOk(s1, run[last]);
      Next(s1, run[last])
  }

  /** No event of the run ends the evaluation's safety. */
  ghost predicate Unspoiled(s: System, run: seq<Event>, id: string, token: string)
    requires Ok(s) && IsRun(s, run)
    decreases |run|
  {
    run == [] ||
    (var last := |run| - 1;
     Unspoiled(s, run[..last], id, token) && !SpoilsEvent(After(s, run[..last]), run[last], id, token))
  }

  /** The evaluation is safe all along the run. */
  ghost predicate AlwaysSafe(s: System, run: seq<Event>, id: string, token: string)
    requires Ok(s) && IsRun(s, run)
    decreases |run|
  {
    Safe(After(s, run), id, token) && (run != [] ==> AlwaysSafe(s, run[..|run| - 1], id, token))
  }

  lemma {:induction false} TokenStays(s: System, run: seq<Event>, id: string, token: string)
    requires Ok(s) && IsRun(s, run) && TokenOf(s.issued, id, token)
    ensures TokenOf(After(s, run).issued, id, token)
    decreases |run|
  {
    hide Ok, Allowed, TokenOf, R.Apply, R.Follow, B.EnqueueAll, BookAll, SR.Apply;
    if run != [] {
      var last := |run| - 1;
      TokenStays(s, run[..last], id, token);
      DrawKeeps(After(s, run[..last]), run[last], id, token);
    }
  }

  lemma DrawKeeps(s: System, ev: Event, id: string, token: string)
    requires Ok(s) && Allowed(s, ev) && TokenOf(s.issued, id, token)
    ensures TokenOf(Next(s, ev).issued, id, token)
  {
    hide Ok, R.Apply, R.Follow, B.EnqueueAll, BookAll, SR.Apply, R.Allowed, SR.Allowed, Handed, ListingOf, B.NextFor;
  }

  /** Over a whole run the evaluation is safe all along exactly when nothing spoils it. */
  lemma {:induction false} SafeRun(s: System, run: seq<Event>, id: string, token: string)
    requires Ok(s) && IsRun(s, run) && Safe(s, id, token) && TokenOf(s.issued, id, token)
    ensures AlwaysSafe(s, run, id, token) <==> Unspoiled(s, run, id, token)
    decreases |run|
  {
    hide Ok, Allowed, Next, Safe, SpoilsEvent, TokenOf;
    if run != [] {
      var last := |run| - 1;
      SafeRun(s, run[..last], id, token);
      TokenStays(s, run[..last], id, token);
      if AlwaysSafe(s, run[..last], id, token) {
        SafeStep(After(s, run[..last]), run[last], id, token);
      }
    }
  }

  /** Once the tracker has handed an evaluation to the broker, under the token of the
      delivery that reblocked it or under none, it is safe through every further run of
      broker and tracker for exactly as long as nothing spoils it: its ID stays live,
      whether the delivery is acknowledged in time or too late, nacked or timed out. */
  lemma ReblockedStaysLive(s: System, a: SR.Action, order: seq<S.Wrapped>, i: nat, run: seq<Event>)
    requires Ok(s) && Allowed(s, OnTracker(a, order)) && s.b.enabled && i < |order|
    requires Ok(Next(s, OnTracker(a, order))) && IsRun(Next(s, OnTracker(a, order)), run)
    ensures var s1, id, token := Next(s, OnTracker(a, order)), order[i].eval.id, order[i].token;
            && (AlwaysSafe(s1, run, id, token) <==> Unspoiled(s1, run, id, token))
            && (Unspoiled(s1, run, id, token) ==> id in After(s1, run).b.evals)
  {
    var s1 := Next(s, OnTracker(a, order));
    var id, token := order[i].eval.id, order[i].token;
    assert s.k.enabled by { AgreesRequeue(s.b, s.k); }
    HandedFit(s.t, s.issued, a, order);
    HandedLive(s.b, s.k, s.issued, order, i);
    EntriesAre(s1, id);
    assert Fit(s.issued, order[i]);
    assert Safe(s1, id, token) && TokenOf(s1.issued, id, token);
    hide Ok, Allowed, Next, Unspoiled, IsRun, After, Guarded;
    SafeRun(s1, run, id, token);
  }

  /** The Ack of the delivery that was handed over re-enqueues the evaluation, and a Nack
      drops the copy while the original is queued again. */
  lemma DeliveryEnds(s: System, id: string, token: string)
    requires Ok(s) && Safe(s, id, token) && L.HeldBy(s.k, id, token)
    ensures B.AckOutcome(s.b, id, token) == B.Done ==> id in B.Ack(s.b, id, token).evals
    ensures B.AckOutcome(s.b, id, token) != B.Done ==> id in B.Ack(s.b, id, token).evals && id in B.Ack(s.b, id, token).unack
    ensures var b' := B.Nack(s.b, id, token);
            && token !in b'.requeue && id in b'.evals && id !in b'.unack
            && b'.evals[id] == s.b.evals[id]
            && (exists q :: q in b'.ready && s.b.unack[id].eval in b'.ready[q])
  {
    AckOutcomeIff(s.b, s.k, id, token);
    if B.AckOutcome(s.b, id, token) == B.Done {
      AckKeepsIdExact(s.b, s.k, id, token);
      AgreesRequeue(s.b, s.k);
    }
    NackRequeues(s.b, s.k, id, token);
  }

  lemma NackRequeues(b: B.Broker, k: L.Book, id: string, token: string)
    requires b.limit >= 1 && R.Backed(b, k) && L.HeldBy(k, id, token)
    ensures id in b.unack && id in b.evals
    ensures var b' := B.Nack(b, id, token);
            && token !in b'.requeue && id in b'.evals && id !in b'.unack
            && b'.evals[id] == b.evals[id]
            && (exists q :: q in b'.ready && b.unack[id].eval in b'.ready[q])
  {
    hide Placed, JobsMatch, QueuesKnown, B.Nack, R.Follow, R.BookStep, L.Counted;
    AckOutcomeIff(b, k, id, token);
    NackAgrees(b, k, id, token);
    L.NackKeeps(b.limit, k, id, token);
    T.EvalsMatch(b, k, id);
    var b', k' := B.Nack(b, id, token), L.Nack(b.limit, k, id, token);
    T.EvalsMatch(b', k', id);
    AgreesRequeue(b', k');
    UnackLookup(b', k'.entries, id);
    var i := ReadyHas(b', k'.entries, id);
  }

  lemma ReadyHas(b: B.Broker, es: L.Entries, id: string) returns (i: nat)
    requires Placed(b, es) && id in es && es[id].place.Ready? && es[id].eval.id == id
    ensures var q := es[id].place.queue; q in b.ready && i < |b.ready[q]| && b.ready[q][i] == es[id].eval
  {
    i := T.HeapHas(ReadyHeaps, b.ready, es, id);
  }
}
