/** The reference machine for the broker: one book entry per live evaluation, saying
    where it is. An evaluation cannot be in two places, because a map has one value per
    key; there are no heaps, no per-job table and no counters. BrokerRefinement shows
    that the real broker follows this machine step by step. */
module BrokerLedger {
  import opened Evaluations

  datatype Place =
    | Waiting
    | Blocked(job: string)
    | Ready(queue: string)
    | Outstanding(token: string, armed: bool, from: string)

  /** count: deliveries so far. fromType: how many of them came from the type queue. */
  datatype Entry = Entry(eval: Evaluation, place: Place, count: int, fromType: int) {
    /** The entry that the broker's per-job table names. */
    predicate Active() { place.Ready? || place.Outstanding? }
  }

  type Entries = map<string, Entry>

  datatype Book = Book(enabled: bool, entries: Entries, requeue: map<string, Evaluation>)

  ghost predicate JobActive(es: Entries, job: string) {
    exists id :: id in es && es[id].Active() && es[id].eval.jobId == job
  }

  /** Where an evaluation that may run now goes. */
  ghost function Admit(es: Entries, e: Evaluation): Place {
    if JobActive(es, e.jobId) then Blocked(e.jobId) else Ready(e.typ)
  }

  /** id has the smallest CreateIndex of the entries at place p. */
  ghost predicate Oldest(es: Entries, id: string, p: Place) {
    && id in es && es[id].place == p
    && forall x :: x in es && es[x].place == p ==> es[id].eval.createIndex <= es[x].eval.createIndex
  }

  // ---- steps -----------------------------------------------------------------------

  ghost function Enqueue(k: Book, e: Evaluation, token: string): Book {
    if !k.enabled then k
    else if e.id in k.entries then
      var p := k.entries[e.id].place;
      if token != "" && p.Outstanding? && p.token == token
      then k.(requeue := k.requeue[token := e])
      else k
    else
      var p := if e.wait > 0 then Waiting else Admit(k.entries, e);
      k.(entries := k.entries[e.id := Entry(e, p, 0, 0)])
  }

  ghost function WaitElapsed(k: Book, id: string): Book
    requires id in k.entries
  {
    var en := k.entries[id];
    k.(entries := k.entries[id := en.(place := Admit(k.entries, en.eval))])
  }

  ghost function Deliver(k: Book, id: string, queue: string, token: string): Book
    requires id in k.entries
  {
    var en := k.entries[id];
    k.(entries := k.entries[id := Entry(en.eval, Outstanding(token, true, queue), en.count + 1,
         if queue == en.eval.typ then en.fromType + 1 else en.fromType)])
  }

  ghost predicate HeldBy(k: Book, id: string, token: string) {
    id in k.entries && k.entries[id].place.Outstanding? && k.entries[id].place.token == token
  }

  ghost predicate CanAck(k: Book, id: string, token: string) {
    HeldBy(k, id, token) && k.entries[id].place.armed
  }

  ghost predicate HasBlocked(es: Entries, job: string) {
    exists x :: x in es && es[x].place == Blocked(job)
  }

  /** es2 is es1 with the oldest blocked entry of the job, if there is one, made ready. */
  ghost predicate Promoted(es1: Entries, job: string, es2: Entries) {
    if !HasBlocked(es1, job) then es2 == es1
    else exists p :: Oldest(es1, p, Blocked(job))
                     && es2 == es1[p := es1[p].(place := Ready(es1[p].eval.typ))]
  }

  ghost function TakeRequeued(k: Book, token: string): Book {
    var k1 := if token in k.requeue then Enqueue(k, k.requeue[token], "") else k;
    k1.(requeue := k1.requeue - {token})
  }

  ghost predicate AckStep(k: Book, id: string, token: string, k': Book) {
    if !CanAck(k, id, token) then k' == k.(requeue := k.requeue - {token})
    else
      exists es2: Entries ::
        && Promoted(k.entries - {id}, k.entries[id].eval.jobId, es2)
        && k' == TakeRequeued(k.(entries := es2), token)
  }

  ghost function Nack(limit: int, k: Book, id: string, token: string): Book {
    var k1 := k.(requeue := k.requeue - {token});
    if !HeldBy(k, id, token) then k1
    else
      var en := k.entries[id];
      var q := if en.count >= limit then FAILED_QUEUE else en.eval.typ;
      k1.(entries := k.entries[id := en.(place := Ready(q))])
  }

  ghost function SetArmed(k: Book, id: string, armed: bool): Book {
    if id in k.entries && k.entries[id].place.Outstanding?
    then k.(entries := k.entries[id := k.entries[id].(place := k.entries[id].place.(armed := armed))])
    else k
  }

  ghost function SetEnabled(k: Book, enabled: bool): Book {
    Book(enabled, if enabled then k.entries else map[], k.requeue)
  }

  // ---- what the steps keep ---------------------------------------------------------

  /** The delivery counter decides the queue: below the limit the type queue, from the
      limit on the failed queue; an outstanding delivery already counts itself. */
  ghost predicate Counted(limit: int, en: Entry) {
    && (match en.place
        case Waiting => en.count == 0
        case Blocked(_) => en.count == 0
        case Ready(q) => 0 <= en.count && q == (if en.count < limit then en.eval.typ else FAILED_QUEUE)
        case Outstanding(_, _, q) =>
          1 <= en.count && q == (if en.count <= limit then en.eval.typ else FAILED_QUEUE))
    && en.fromType == (if en.count <= limit then en.count else limit)
  }

  ghost predicate WellFormed(limit: int, es: Entries) {
    forall id :: id in es ==>
      && es[id].eval.id == id && id != ""
      && es[id].eval.typ != FAILED_QUEUE
      && (es[id].place.Blocked? ==> es[id].place.job == es[id].eval.jobId)
      && Counted(limit, es[id])
  }

  /** At most one evaluation of a job is ready or outstanding. */
  ghost predicate Serialised(es: Entries) {
    forall x, y ::
      (x in es && y in es && es[x].Active() && es[y].Active() && es[x].eval.jobId == es[y].eval.jobId)
      ==> x == y
  }

  /** A blocked evaluation always waits for a ready or outstanding one of its job. */
  ghost predicate NoStarvation(es: Entries) {
    forall x :: x in es && es[x].place.Blocked? ==> JobActive(es, es[x].eval.jobId)
  }

  ghost predicate Inv(limit: int, k: Book) {
    && WellFormed(limit, k.entries)
    && Serialised(k.entries)
    && NoStarvation(k.entries)
    && (!k.enabled ==> k.entries == map[])
    && (forall t :: t in k.requeue ==> Enqueueable(k.requeue[t]))
  }

  /** The two things the broker relies on without checking. */
  ghost predicate Enqueueable(e: Evaluation) {
    e.id != "" && e.typ != FAILED_QUEUE
  }

  lemma AdmitKeeps(limit: int, k: Book, e: Evaluation)
    requires Inv(limit, k) && k.enabled && Enqueueable(e) && limit >= 1
    requires e.id in k.entries ==> !k.entries[e.id].Active()
    ensures Inv(limit, k.(entries := k.entries[e.id := Entry(e, Admit(k.entries, e), 0, 0)]))
  {
    var es := k.entries;
    var es' := es[e.id := Entry(e, Admit(es, e), 0, 0)];
    forall x | x in es' && es'[x].place.Blocked?
      ensures JobActive(es', es'[x].eval.jobId)
    {
      var y :| y in es && es[y].Active() && es[y].eval.jobId == es'[x].eval.jobId;
      assert y in es' && es'[y].Active();
    }
  }

  lemma EnqueueKeeps(limit: int, k: Book, e: Evaluation, token: string)
    requires Inv(limit, k) && Enqueueable(e) && limit >= 1
    ensures Inv(limit, Enqueue(k, e, token))
  {
    if k.enabled && e.id !in k.entries {
      if e.wait > 0 {
        AddInactiveKeeps(limit, k, Entry(e, Waiting, 0, 0));
      } else {
        AdmitKeeps(limit, k, e);
      }
    }
  }

  lemma AddInactiveKeeps(limit: int, k: Book, en: Entry)
    requires Inv(limit, k) && k.enabled && en.eval.id !in k.entries && limit >= 1
    requires en.place == Waiting && en.count == en.fromType == 0 && Enqueueable(en.eval)
    ensures Inv(limit, k.(entries := k.entries[en.eval.id := en]))
  {
    var es := k.entries;
    var es' := es[en.eval.id := en];
    forall x | x in es' && es'[x].place.Blocked?
      ensures JobActive(es', es'[x].eval.jobId)
    {
      var y :| y in es && es[y].Active() && es[y].eval.jobId == es[x].eval.jobId;
      assert y in es' && es'[y].Active();
    }
  }

  lemma WaitElapsedKeeps(limit: int, k: Book, id: string)
    requires Inv(limit, k) && limit >= 1 && id in k.entries && k.entries[id].place.Waiting?
    ensures Inv(limit, WaitElapsed(k, id))
  {
    AdmitKeeps(limit, k, k.entries[id].eval);
  }

  /** Moving an active entry to another active place keeps the job structure. */
  lemma MoveActiveKeeps(limit: int, k: Book, id: string, en: Entry)
    requires Inv(limit, k) && id in k.entries && k.entries[id].Active() && en.Active()
    requires en.eval == k.entries[id].eval && Counted(limit, en)
    ensures Inv(limit, k.(entries := k.entries[id := en]))
  {
    var es := k.entries;
    var es' := es[id := en];
    forall x | x in es' && es'[x].place.Blocked?
      ensures JobActive(es', es'[x].eval.jobId)
    {
      var y :| y in es && es[y].Active() && es[y].eval.jobId == es[x].eval.jobId;
      assert y in es' && es'[y].Active();
    }
  }

  lemma DeliverKeeps(limit: int, k: Book, id: string, queue: string, token: string)
    requires Inv(limit, k) && limit >= 1 && id in k.entries && k.entries[id].place == Ready(queue)
    ensures Inv(limit, Deliver(k, id, queue, token))
  {
    MoveActiveKeeps(limit, k, id, Deliver(k, id, queue, token).entries[id]);
  }

  lemma NackKeeps(limit: int, k: Book, id: string, token: string)
    requires Inv(limit, k)
    ensures Inv(limit, Nack(limit, k, id, token))
  {
    if HeldBy(k, id, token) {
      MoveActiveKeeps(limit, k, id, Nack(limit, k, id, token).entries[id]);
    }
  }

  lemma SetArmedKeeps(limit: int, k: Book, id: string, armed: bool)
    requires Inv(limit, k)
    ensures Inv(limit, SetArmed(k, id, armed))
  {
    if id in k.entries && k.entries[id].place.Outstanding? {
      MoveActiveKeeps(limit, k, id, SetArmed(k, id, armed).entries[id]);
    }
  }

  lemma BlockedOwnJob(limit: int, es: Entries)
    requires WellFormed(limit, es)
    ensures forall x :: x in es && es[x].place.Blocked? ==> es[x].place.job == es[x].eval.jobId
  {
    hide Counted;
  }

  lemma PromotedForms(limit: int, k: Book, id: string, es2: Entries)
    requires Inv(limit, k) && limit >= 1 && id in k.entries && k.entries[id].Active()
    requires Promoted(k.entries - {id}, k.entries[id].eval.jobId, es2)
    ensures WellFormed(limit, es2) && Serialised(es2)
  {
    hide NoStarvation;
  }

  /** Removing the active evaluation of a job and promoting its oldest blocked one. */
  lemma PromotedKeeps(limit: int, k: Book, id: string, es2: Entries)
    requires Inv(limit, k) && limit >= 1 && id in k.entries && k.entries[id].Active()
    requires Promoted(k.entries - {id}, k.entries[id].eval.jobId, es2)
    ensures Inv(limit, k.(entries := es2))
  {
    PromotedForms(limit, k, id, es2);
    hide Counted, Serialised, WellFormed;
    BlockedOwnJob(limit, k.entries);
    var es, job := k.entries, k.entries[id].eval.jobId;
    var es1 := es - {id};
    forall x | x in es2 && es2[x].place.Blocked?
      ensures JobActive(es2, es2[x].eval.jobId)
    {
      if es2[x].eval.jobId == job {
        assert es1[x].place == Blocked(job);
        assert HasBlocked(es1, job);
        var p :| Oldest(es1, p, Blocked(job)) && es2 == es1[p := es1[p].(place := Ready(es1[p].eval.typ))];
        assert p in es2 && es2[p].Active() && es2[p].eval.jobId == job;
      } else {
        var y :| y in es && es[y].Active() && es[y].eval.jobId == es[x].eval.jobId;
        assert y in es2 && es2[y].Active();
      }
    }
  }

  lemma AckKeeps(limit: int, k: Book, id: string, token: string, k': Book)
    requires Inv(limit, k) && limit >= 1
    requires AckStep(k, id, token, k')
    ensures Inv(limit, k')
  {
    if CanAck(k, id, token) {
      var es2: Entries :| Promoted(k.entries - {id}, k.entries[id].eval.jobId, es2)
                          && k' == TakeRequeued(k.(entries := es2), token);
      PromotedKeeps(limit, k, id, es2);
      if token in k.requeue {
        EnqueueKeeps(limit, k.(entries := es2), k.requeue[token], "");
      }
    }
  }

  lemma SetEnabledKeeps(limit: int, k: Book, enabled: bool)
    requires Inv(limit, k)
    ensures Inv(limit, SetEnabled(k, enabled))
  {
  }
}
