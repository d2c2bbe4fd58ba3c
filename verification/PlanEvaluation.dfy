/** Parallel plan evaluation: evaluatePlan feeds the nodes of a plan to a pool of workers
    and folds their replies in whatever order they come. A select statement is a
    nondeterministic choice among the ready cases, and the workers' own steps are further
    cases, so each loop covers every schedule; that some case is always ready is the
    absence of deadlock. Requests and replies carry the node; the snapshot and plan are
    the same for all that are in flight, because the pool is idle between evaluations. */
module PlanEvaluation {
  import opened Plans

  const BUFFER := 64

  class EvaluatePool {
    const workers: nat
    var req: seq<string>
    var busy: multiset<string>
    var res: seq<string>
    /** The node evaluations that workers have done. */
    ghost var evaluated: multiset<string>

    ghost predicate Idle()
      reads this
    {
      req == [] && busy == multiset{} && res == []
    }

    ghost function InFlight(): multiset<string>
      reads this
    {
      multiset(req) + busy + multiset(res)
    }

    constructor (workers: nat)
      ensures Idle() && this.workers == workers && evaluated == multiset{}
    {
      this.workers := workers;
      req, busy, res, evaluated := [], multiset{}, [], multiset{};
    }

    /** The plan applier sends a request while the channel has room. */
    method Send(node: string)
      requires |req| < BUFFER
      modifies this`req
      ensures req == old(req) + [node] && InFlight() == old(InFlight()) + multiset{node}
    {
      req := req + [node];
    }

    /** An idle worker receives the first request. */
    method WorkerTakes()
      requires |req| > 0 && |busy| < workers
      modifies this`req, this`busy
      ensures InFlight() == old(InFlight()) && |req| == old(|req|) - 1 && |busy| == old(|busy|) + 1
    {
      assert req == [req[0]] + req[1..];
      busy := busy + multiset{req[0]};
      req := req[1..];
    }

    /** Some busy worker evaluates its node and sends the reply. */
    method WorkerReplies()
      requires |busy| > 0 && |res| < BUFFER
      modifies this`busy, this`res, this`evaluated
      ensures InFlight() == old(InFlight()) && |res| == old(|res|) + 1 && |busy| == old(|busy|) - 1
      ensures exists node :: node in old(busy) && res == old(res) + [node]
                             && evaluated == old(evaluated) + multiset{node}
    {
      var node :| node in busy;
      busy := busy - multiset{node};
      res := res + [node];
      evaluated := evaluated + multiset{node};
    }
  }

  lemma AddOne(seen: set<string>, node: string)
    requires node !in seen
    ensures multiset(seen + {node}) == multiset(seen) + multiset{node}
  {
  }

  /** Append the keys that were not seen yet, in the order the map happens to yield. */
  method AppendNew(list: seq<string>, seen: set<string>, keys: set<string>)
    returns (list': seq<string>, seen': set<string>)
    requires multiset(list) == multiset(seen)
    ensures seen' == seen + keys && multiset(list') == multiset(seen')
  {
    list', seen' := list, seen;
    var rest := keys;
    while rest != {}
      invariant rest <= keys && seen' == seen + (keys - rest)
      invariant multiset(list') == multiset(seen')
      decreases |rest|
    {
      var node :| node in rest;
      rest := rest - {node};
      if node !in seen' {
        AddOne(seen', node);
        seen' := seen' + {node};
        list' := list' + [node];
      }
    }
  }

  /** The nodes of the plan, each once. */
  method CollectNodes(plan: Plan) returns (list: seq<string>)
    ensures multiset(list) == multiset(Nodes(plan))
  {
    var seen: set<string>;
    list, seen := AppendNew([], {}, plan.nodeUpdate.Keys);
    list, seen := AppendNew(list, seen, plan.nodeAllocation.Keys);
    assert seen == Nodes(plan);
  }

  /** What has been folded from the nodes in got. */
  datatype Fold = Fold(update: ByNode, alloc: ByNode, partial: bool, failed: bool)

  ghost predicate Folded(snap: Snapshot, plan: Plan, got: set<string>, f: Fold) {
    && got <= Nodes(plan)
    && (f.failed ==> AnyBroken(snap, plan, Nodes(plan)))
    && (!f.failed ==>
          && !AnyBroken(snap, plan, got)
          && f.update == Committed(snap, plan, plan.nodeUpdate, got)
          && f.alloc == Committed(snap, plan, plan.nodeAllocation, got)
          && (f.partial <==> AnyUnfit(snap, plan, got)))
  }

  lemma CommittedNext(snap: Snapshot, plan: Plan, m: ByNode, got: set<string>, node: string)
    ensures Committed(snap, plan, m, got + {node})
            == if NodeVerdict(snap, plan, node) == Fits && |ListAt(m, node)| > 0
               then Committed(snap, plan, m, got)[node := m[node]] else Committed(snap, plan, m, got)
  {
  }

  lemma AnyNext(snap: Snapshot, plan: Plan, got: set<string>, node: string)
    ensures AnyUnfit(snap, plan, got + {node}) <==> AnyUnfit(snap, plan, got) || NodeVerdict(snap, plan, node) == Unfit
    ensures AnyBroken(snap, plan, got + {node}) <==> AnyBroken(snap, plan, got) || NodeVerdict(snap, plan, node) == Broken
  {
    assert node in got + {node};
    forall n | n in got
      ensures n in got + {node}
    {
    }
  }

  /** handleResult, for the reply of one node. */
  method HandleResult(snap: Snapshot, plan: Plan, ghost got: set<string>, f: Fold, node: string)
    returns (f': Fold, cancel: bool)
    requires Folded(snap, plan, got, f) && node in Nodes(plan) && node !in got
    ensures Folded(snap, plan, got + {node}, f')
    ensures cancel ==> f'.failed
    ensures f.failed ==> f'.failed
  {
    CommittedNext(snap, plan, plan.nodeUpdate, got, node);
    CommittedNext(snap, plan, plan.nodeAllocation, got, node);
    AnyNext(snap, plan, got, node);
    if NodeVerdict(snap, plan, node) == Broken {
      BrokenNode(snap, plan, node);
    }
    hide Committed, AnyUnfit, AnyBroken, NodeVerdict;
    f' := f;
    cancel := false;
    match NodeVerdict(snap, plan, node)
    case Broken =>
      f' := f'.(failed := true);
      cancel := true;
    case Unfit =>
      f' := f'.(partial := true);
    case Fits =>
      var nodeUpdate := ListAt(plan.nodeUpdate, node);
      if |nodeUpdate| > 0 {
        f' := f'.(update := f'.update[node := nodeUpdate]);
      }
      var nodeAlloc := ListAt(plan.nodeAllocation, node);
      if |nodeAlloc| > 0 {
        f' := f'.(alloc := f'.alloc[node := nodeAlloc]);
      }
  }

  lemma BrokenNode(snap: Snapshot, plan: Plan, node: string)
    requires node in Nodes(plan) && NodeVerdict(snap, plan, node) == Broken
    ensures AnyBroken(snap, plan, Nodes(plan))
  {
  }

  /** All nodes of the plan are still listed, in flight or folded, each once. */
  ghost predicate Accounted(plan: Plan, list: seq<string>, flight: multiset<string>, got: set<string>) {
    multiset(list) + flight + multiset(got) == multiset(Nodes(plan))
  }

  lemma SendAccounts(plan: Plan, list: seq<string>, flight: multiset<string>, got: set<string>, flight': multiset<string>)
    requires |list| > 0 && Accounted(plan, list, flight, got) && flight' == flight + multiset{list[0]}
    ensures Accounted(plan, list[1..], flight', got)
  {
    assert list == [list[0]] + list[1..];
    assert multiset(list[1..]) + flight' == multiset(list) + flight;
  }

  /** A node that is in flight is of the plan and not folded yet. */
  lemma ReceiveAccounts(plan: Plan, list: seq<string>, flight: multiset<string>, got: set<string>, node: string, flight': multiset<string>)
    requires Accounted(plan, list, flight, got) && flight == flight' + multiset{node}
    ensures node in Nodes(plan) && node !in got
    ensures Accounted(plan, list, flight', got + {node})
  {
    assert multiset(Nodes(plan))[node] <= 1;
    assert multiset(got)[node] == 0;
    AddOne(got, node);
    assert multiset(list) + flight' + (multiset(got) + multiset{node}) == multiset(list) + flight + multiset(got);
  }

  /** The evaluations done so far are those before, those whose replies wait and those folded. */
  ghost predicate Tallied(done: multiset<string>, before: multiset<string>, res: seq<string>, got: set<string>) {
    done == before + multiset(res) + multiset(got)
  }

  lemma ReceiveTallies(done: multiset<string>, before: multiset<string>, res: seq<string>, got: set<string>, node: string, res': seq<string>)
    requires Tallied(done, before, res, got) && node !in got && res == [node] + res'
    ensures Tallied(done, before, res', got + {node})
  {
    AddOne(got, node);
  }

  lemma FoldOutcome(snap: Snapshot, plan: Plan, f: Fold)
    requires Folded(snap, plan, Nodes(plan), f)
    ensures Evaluate(snap, plan) ==
            if f.failed || (f.partial && RefreshFails(snap)) then Err
            else Ok(PlanResult(f.update, f.alloc, if f.partial then RefreshIndex(snap) else 0, 0))
  {
  }

  lemma Start(plan: Plan, list: seq<string>, before: multiset<string>)
    requires multiset(list) == multiset(Nodes(plan))
    ensures Accounted(plan, list, multiset{}, {}) && Tallied(before, before, [], {})
  {
  }

  lemma AllGot(plan: Plan, got: set<string>, done: multiset<string>, before: multiset<string>)
    requires Accounted(plan, [], multiset{}, got) && Tallied(done, before, [], got)
    ensures got == Nodes(plan) && done == before + multiset(Nodes(plan))
  {
    assert multiset(got) == multiset(Nodes(plan));
    forall n
      ensures n in got <==> n in Nodes(plan)
    {
      assert n in got <==> n in multiset(got);
      assert n in Nodes(plan) <==> n in multiset(Nodes(plan));
    }
  }

  /** Receive the first reply. */
  method Receive(pool: EvaluatePool) returns (node: string)
    requires |pool.res| > 0
    modifies pool`res
    ensures old(pool.res) == [node] + pool.res
    ensures old(pool.InFlight()) == pool.InFlight() + multiset{node}
  {
    assert pool.res == [pool.res[0]] + pool.res[1..];
    node := pool.res[0];
    pool.res := pool.res[1..];
  }

  lemma FoldStart(snap: Snapshot, plan: Plan, f: Fold)
    requires f == Fold(map[], map[], false, false)
    ensures Folded(snap, plan, {}, f)
  {
  }

  lemma FailedStays(snap: Snapshot, plan: Plan, got: set<string>, f: Fold, node: string)
    requires Folded(snap, plan, got, f) && f.failed && node in Nodes(plan)
    ensures Folded(snap, plan, got + {node}, f)
  {
  }

  /** What both loops keep. */
  ghost predicate Underway(snap: Snapshot, plan: Plan, pool: EvaluatePool, before: multiset<string>,
                           list: seq<string>, got: set<string>, outstanding: int, f: Fold, didCancel: bool)
    reads pool
  {
    && outstanding == |pool.req| + |pool.busy| + |pool.res|
    && |pool.busy| <= pool.workers
    && Accounted(plan, list, pool.InFlight(), got)
    && Tallied(pool.evaluated, before, pool.res, got)
    && Folded(snap, plan, got, f)
    && (didCancel ==> f.failed)
  }

  /** A step of some worker. */
  method WorkerStep(pool: EvaluatePool, snap: Snapshot, plan: Plan, ghost before: multiset<string>,
                    ghost list: seq<string>, ghost got: set<string>, ghost outstanding: int, ghost f: Fold, ghost didCancel: bool)
    requires Underway(snap, plan, pool, before, list, got, outstanding, f, didCancel)
    requires (|pool.req| > 0 && |pool.busy| < pool.workers) || (|pool.busy| > 0 && |pool.res| < BUFFER)
    modifies pool
    ensures Underway(snap, plan, pool, before, list, got, outstanding, f, didCancel)
    ensures 3 * |pool.req| + 2 * |pool.busy| + |pool.res| < old(3 * |pool.req| + 2 * |pool.busy| + |pool.res|)
  {
    hide Accounted, Folded;
    if
    case |pool.req| > 0 && |pool.busy| < pool.workers =>
      pool.WorkerTakes();
    case |pool.busy| > 0 && |pool.res| < BUFFER =>
      pool.WorkerReplies();
  }

  /** The first loop: every node is sent, replies are folded as they come. A break in the
      source's select leaves only the select, so an error does not stop the sending. */
  method SendAll(pool: EvaluatePool, snap: Snapshot, plan: Plan, ghost before: multiset<string>, list: seq<string>, f0: Fold)
    returns (ghost got: set<string>, outstanding: nat, f: Fold, didCancel: bool)
    requires Underway(snap, plan, pool, before, list, {}, 0, f0, false)
    requires pool.workers >= 1
    modifies pool
    ensures Underway(snap, plan, pool, before, [], got, outstanding, f, didCancel)
  {
    hide Folded, Accounted, Tallied;
    var nodeIDList := list;
    got, outstanding, f, didCancel := {}, 0, f0, false;
    while |nodeIDList| > 0
      invariant Underway(snap, plan, pool, before, nodeIDList, got, outstanding, f, didCancel)
      decreases 4 * |nodeIDList| + 3 * |pool.req| + 2 * |pool.busy| + |pool.res|
    {
      if
      case |pool.req| < BUFFER =>
        ghost var flight := pool.InFlight();
        pool.Send(nodeIDList[0]);
        SendAccounts(plan, nodeIDList, flight, got, pool.InFlight());
        outstanding := outstanding + 1;
        nodeIDList := nodeIDList[1..];
      case |pool.res| > 0 =>
        ghost var res, flight := pool.res, pool.InFlight();
        var node := Receive(pool);
        outstanding := outstanding - 1;
        ReceiveAccounts(plan, nodeIDList, flight, got, node, pool.InFlight());
        ReceiveTallies(pool.evaluated, before, res, got, node, pool.res);
        var cancel;
        f, cancel := HandleResult(snap, plan, got, f, node);
        got := got + {node};
        if cancel {
          didCancel := true;
        }
      case (|pool.req| > 0 && |pool.busy| < pool.workers) || (|pool.busy| > 0 && |pool.res| < BUFFER) =>
        WorkerStep(pool, snap, plan, before, nodeIDList, got, outstanding, f, didCancel);
    }
    assert nodeIDList == [];
  }

  /** The second loop: the remaining replies are received, and folded unless one failed. */
  method Drain(pool: EvaluatePool, snap: Snapshot, plan: Plan, ghost before: multiset<string>,
               ghost got0: set<string>, outstanding0: nat, f0: Fold, didCancel0: bool)
    returns (ghost got: set<string>, f: Fold)
    requires Underway(snap, plan, pool, before, [], got0, outstanding0, f0, didCancel0)
    requires pool.workers >= 1
    modifies pool
    ensures pool.Idle() && Folded(snap, plan, got, f)
    ensures Accounted(plan, [], multiset{}, got) && Tallied(pool.evaluated, before, [], got)
  {
    hide Folded, Accounted, Tallied;
    var outstanding, didCancel := outstanding0, didCancel0;
    got, f := got0, f0;
    while outstanding > 0
      invariant Underway(snap, plan, pool, before, [], got, outstanding, f, didCancel)
      decreases 3 * |pool.req| + 2 * |pool.busy| + |pool.res|
    {
      if
      case |pool.res| > 0 =>
        ghost var res, flight := pool.res, pool.InFlight();
        var node := Receive(pool);
        ReceiveAccounts(plan, [], flight, got, node, pool.InFlight());
        ReceiveTallies(pool.evaluated, before, res, got, node, pool.res);
        if !didCancel {
          var cancel;
          f, cancel := HandleResult(snap, plan, got, f, node);
          if cancel {
            didCancel := true;
          }
        } else {
          FailedStays(snap, plan, got, f, node);
        }
        got := got + {node};
        outstanding := outstanding - 1;
      case (|pool.req| > 0 && |pool.busy| < pool.workers) || (|pool.busy| > 0 && |pool.res| < BUFFER) =>
        WorkerStep(pool, snap, plan, before, [], got, outstanding, f, didCancel);
    }
    assert pool.InFlight() == multiset{};
  }

  /** For every schedule of sends, evaluations and replies: the outcome is the sequential
      one, each node of the plan is evaluated once, and the pool is left idle. */
  method EvaluatePlan(pool: EvaluatePool, snap: Snapshot, plan: Plan) returns (r: Outcome)
    requires pool.Idle() && pool.workers >= 1
    modifies pool
    ensures r == Evaluate(snap, plan)
    ensures pool.Idle()
    ensures pool.evaluated == old(pool.evaluated) + multiset(Nodes(plan))
  {
    hide Folded, Evaluate, Accounted, Tallied;
    var nodeIDList := CollectNodes(plan);
    var f := Fold(map[], map[], false, false);
    ghost var before := pool.evaluated;
    FoldStart(snap, plan, f);
    Start(plan, nodeIDList, before);
    assert pool.InFlight() == multiset{};
    ghost var got;
    var outstanding, didCancel;
    got, outstanding, f, didCancel := SendAll(pool, snap, plan, before, nodeIDList, f);
    got, f := Drain(pool, snap, plan, before, got, outstanding, f, didCancel);
    AllGot(plan, got, pool.evaluated, before);
    FoldOutcome(snap, plan, f);
    if f.failed || (f.partial && RefreshFails(snap)) {
      r := Err;
    } else {
      r := Ok(PlanResult(f.update, f.alloc, if f.partial then RefreshIndex(snap) else 0, 0));
    }
  }
}
