/** The plan queue with its futures, updated in place, and tied to the queue of the plan
    pipeline: each method is the pipeline's step. The wait channel only wakes a blocked
    Dequeue and is left out: Dequeue is one scan. */
module PlanQueues {
  import opened Plans
  import Heap
  import P = PlanPipeline

  datatype Error = NoError | QueueFlushed | OtherError

  class PendingPlan {
    const plan: Plan
    const enqueueTime: int
    /** The plan's number in order of submission. */
    ghost const id: nat
    var result: seq<PlanResult>
    /** The channel has one slot. */
    var errCh: seq<Error>

    constructor (plan: Plan, now: int, ghost id: nat)
      ensures this.plan == plan && enqueueTime == now && this.id == id && result == [] && errCh == []
    {
      this.plan, enqueueTime, this.id := plan, now, id;
      result, errCh := [], [];
    }

    /** A send that finds the slot free, and so does not block. */
    method Respond(answer: seq<PlanResult>, err: Error)
      requires errCh == []
      modifies this
      ensures result == answer && errCh == [err]
    {
      result := answer;
      errCh := errCh + [err];
    }

    method Wait() returns (answer: seq<PlanResult>, err: Error)
      requires |errCh| > 0
      modifies this`errCh
      ensures err == old(errCh[0]) && errCh == old(errCh[1..]) && answer == result
    {
      err := errCh[0];
      errCh := errCh[1..];
      answer := result;
    }
  }

  function EnqueuedAt(p: PendingPlan): int { p.enqueueTime }

  ghost function TicketFor(p: PendingPlan): P.Ticket { P.Ticket(p.id, p.enqueueTime) }

  class PlanQueue {
    var enabled: bool
    var depth: int
    var ready: seq<PendingPlan>
    ghost var submitted: nat

    ghost function Tickets(): seq<P.Ticket>
      reads this
    {
      Heap.Mapped(TicketFor, ready)
    }

    /** The queue is that of a state of the pipeline. */
    ghost predicate Shows(s: P.State)
      reads this
    {
      enabled == s.enabled && depth == s.depth && Tickets() == s.ready && submitted == |s.pend|
    }

    /** The queue is a heap of distinct plans, none of them answered. */
    ghost predicate Valid()
      reads this, ready
    {
      && depth == |ready|
      && Heap.IsHeap(EnqueuedAt, ready)
      && (forall p :: p in ready ==> multiset(ready)[p] == 1)
      && (forall p :: p in ready ==> p.errCh == [])
    }

    constructor ()
      ensures Valid() && Shows(P.START) && ready == []
    {
      enabled, depth, ready, submitted := false, 0, [], 0;
    }

    /** Nothing is accepted while disabled. */
    method Enqueue(plan: Plan, now: int) returns (future: PendingPlan?)
      requires Valid()
      modifies this
      ensures Valid() && enabled == old(enabled)
      ensures future != null <==> old(enabled)
      ensures future != null ==> fresh(future) && future.plan == plan && future.errCh == []
                                 && multiset(ready) == multiset(old(ready)) + multiset{future}
      ensures future == null ==> ready == old(ready)
      ensures forall s: P.State :: old(Shows(s)) ==> Shows(P.Apply(s, P.Enqueue(plan, now)))
    {
      hide Heap.Push, Heap.IsHeap, P.Apply;
      if !enabled {
        forall s: P.State | Shows(s)
          ensures Shows(P.Apply(s, P.Enqueue(plan, now)))
        {
          EnqueueStep(s, plan, now);
        }
        return null;
      }
      var pending := new PendingPlan(plan, now, submitted);
      Heap.PushMapped(TicketFor, EnqueuedAt, P.Time, ready, pending);
      submitted := submitted + 1;
      Heap.PushKeepsHeap(EnqueuedAt, ready, pending);
      assert pending !in multiset(ready);
      ready := Heap.Push(EnqueuedAt, ready, pending);
      depth := depth + 1;
      assert forall p :: p in ready <==> p in multiset(ready);
      forall s: P.State | old(Shows(s))
        ensures Shows(P.Apply(s, P.Enqueue(plan, now)))
      {
        EnqueueStep(s, plan, now);
      }
      return pending;
    }

    /** The scan of Dequeue: the plan that was enqueued first, if there is any. */
    method Dequeue() returns (pending: PendingPlan?, ok: bool)
      requires Valid()
      modifies this
      ensures Valid() && enabled == old(enabled)
      ensures ok == old(enabled)
      ensures pending != null <==> old(enabled) && |old(ready)| > 0
      ensures pending == null ==> ready == old(ready)
      ensures pending != null ==>
        && multiset(old(ready)) == multiset(ready) + multiset{pending}
        && pending !in ready && pending.errCh == []
        && forall p :: p in old(ready) ==> pending.enqueueTime <= p.enqueueTime
      ensures pending != null ==> forall s: P.State, i: nat :: old(Shows(s)) && P.Allowed(s, P.Take(i)) ==>
        Shows(P.Apply(s, P.Take(i))) && P.Apply(s, P.Take(i)).loops[i].pc == P.Held(pending.id)
    {
      hide Heap.Pop, Heap.IsHeap;
      if !enabled {
        return null, false;
      }
      if |ready| > 0 {
        Heap.PopTakesMin(EnqueuedAt, ready);
        Heap.PopMapped(TicketFor, EnqueuedAt, P.Time, ready);
        ghost var before := ready;
        var (first, rest) := Heap.Pop(EnqueuedAt, ready);
        assert multiset(before)[first] == multiset(rest)[first] + 1;
        assert first in before && first !in multiset(rest);
        forall p | p in before
          ensures first.enqueueTime <= p.enqueueTime
        {
          assert EnqueuedAt(first) <= EnqueuedAt(p);
        }
        Subset(before, rest, first);
        ready := rest;
        depth := depth - 1;
        return first, true;
      }
      return null, true;
    }

    /** Every queued plan is answered with the flush error, once. */
    method Flush()
      requires Valid()
      modifies this, ready
      ensures Valid() && enabled == old(enabled) && ready == []
      ensures forall p :: p in old(ready) ==> p.errCh == [QueueFlushed] && p.result == []
      ensures forall s: P.State :: old(Shows(s)) ==> Shows(P.Apply(s, P.Flush))
    {
      hide Heap.IsHeap;
      var i := 0;
      while i < |ready|
        invariant 0 <= i <= |ready| && ready == old(ready) && enabled == old(enabled) && submitted == old(submitted)
        invariant forall k :: 0 <= k < i ==> ready[k].errCh == [QueueFlushed] && ready[k].result == []
        invariant forall k :: i <= k < |ready| ==> ready[k].errCh == []
        modifies ready
      {
        forall k | 0 <= k < |ready| && k != i
          ensures ready[k] != ready[i]
        {
          TwoApart(ready, i, k);
          assert multiset(ready)[ready[i]] <= 1;
        }
        ready[i].Respond([], QueueFlushed);
        i := i + 1;
      }
      depth := 0;
      ready := [];
      EmptyHeap();
    }

    method SetEnabled(enabled: bool)
      requires Valid()
      modifies this, ready
      ensures Valid() && this.enabled == enabled
      ensures enabled ==> ready == old(ready)
      ensures !enabled ==> ready == [] && forall p :: p in old(ready) ==> p.errCh == [QueueFlushed] && p.result == []
      ensures forall s: P.State :: old(Shows(s)) ==>
        var s1 := P.Apply(s, P.SetFlag(enabled)); Shows(if enabled then s1 else P.Apply(s1, P.Flush))
    {
      this.enabled := enabled;
      if !enabled {
        Flush();
      }
    }
  }

  /** What the pipeline's enqueue does to the queue. */
  ghost predicate EnqueueIs(s: P.State, plan: Plan, now: int) {
    var s' := P.Apply(s, P.Enqueue(plan, now));
    if s.enabled
    then s'.enabled && s'.depth == s.depth + 1 && |s'.pend| == |s.pend| + 1
         && s'.ready == Heap.Push(P.Time, s.ready, P.Ticket(|s.pend|, now))
    else s' == s
  }

  lemma EnqueueStep(s: P.State, plan: Plan, now: int)
    ensures EnqueueIs(s, plan, now)
  {
    hide Heap.Push;
  }

  lemma EmptyHeap()
    ensures Heap.IsHeap(EnqueuedAt, [])
  {
  }

  lemma Subset(before: seq<PendingPlan>, rest: seq<PendingPlan>, first: PendingPlan)
    requires multiset(before) == multiset(rest) + multiset{first}
    ensures forall p :: p in rest ==> p in before
    ensures forall p {:trigger multiset(rest)[p]} :: multiset(rest)[p] <= multiset(before)[p]
  {
    forall p | p in rest
      ensures p in before
    {
      assert p in multiset(before);
    }
  }

  lemma TwoApart<T>(s: seq<T>, i: nat, j: nat)
    requires i < |s| && j < |s| && i != j
    ensures s[i] == s[j] ==> multiset(s)[s[i]] >= 2
  {
    var lo, hi := if i < j then i else j, if i < j then j else i;
    assert s == s[..hi] + [s[hi]] + s[hi + 1..];
    assert s[lo] in s[..hi];
  }
}
