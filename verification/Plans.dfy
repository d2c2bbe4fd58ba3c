/** Plans, their results and the snapshot they are evaluated against, with the sequential
    meaning of a plan evaluation. */
module Plans {
  import opened Sums

  datatype Allocation = Allocation(id: string, nodeId: string, status: string)

  type ByNode = map<string, seq<Allocation>>

  datatype Plan = Plan(nodeUpdate: ByNode, nodeAllocation: ByNode)

  datatype PlanResult = PlanResult(nodeUpdate: ByNode, nodeAllocation: ByNode, refreshIndex: nat, allocIndex: nat)

  /** A snapshot of the state store: the status of each node, the nodes whose lookup or whose
      allocation query fails, and the two table indexes, absent when their lookup fails. */
  datatype Index = NoIndex | At(index: nat)
  datatype Snapshot = Snapshot(
    status: map<string, string>,
    nodeErrors: set<string>,
    allocErrors: set<string>,
    nodesIndex: Index,
    allocsIndex: Index)

  const READY := "ready"

  datatype Verdict = Fits | Unfit | Broken

  datatype Outcome = Ok(result: PlanResult) | Err

  function ListAt(m: ByNode, node: string): seq<Allocation> {
    if node in m then m[node] else []
  }

  /** evaluateNodePlan: a plan that only evicts always fits. */
  function NodeVerdict(snap: Snapshot, plan: Plan, node: string): Verdict {
    if |ListAt(plan.nodeAllocation, node)| == 0 then Fits
    else if node in snap.nodeErrors then Broken
    else if node !in snap.status || snap.status[node] != READY then Unfit
    else if node in snap.allocErrors then Broken
    else Fits
  }

  function Nodes(plan: Plan): set<string> {
    plan.nodeUpdate.Keys + plan.nodeAllocation.Keys
  }

  /** The non-empty lists of the nodes in a set that fit. */
  function Committed(snap: Snapshot, plan: Plan, m: ByNode, nodes: set<string>): ByNode {
    map n | n in m && n in nodes && NodeVerdict(snap, plan, n) == Fits && |m[n]| > 0 :: m[n]
  }

  ghost predicate AnyUnfit(snap: Snapshot, plan: Plan, nodes: set<string>) {
    exists n :: n in nodes && NodeVerdict(snap, plan, n) == Unfit
  }

  ghost predicate AnyBroken(snap: Snapshot, plan: Plan, nodes: set<string>) {
    exists n :: n in nodes && NodeVerdict(snap, plan, n) == Broken
  }

  function Max(a: nat, b: nat): nat { if a > b then a else b }

  /** An index that could not be read counts as zero, and as an error. */
  function IndexOr0(i: Index): nat {
    match i
    case NoIndex => 0
    case At(n) => n
  }

  function RefreshIndex(snap: Snapshot): nat {
    Max(IndexOr0(snap.nodesIndex), IndexOr0(snap.allocsIndex))
  }

  predicate RefreshFails(snap: Snapshot) {
    snap.nodesIndex.NoIndex? || snap.allocsIndex.NoIndex? || RefreshIndex(snap) == 0
  }

  /** The meaning of a plan evaluation, without workers: what fits is committed, and a
      partial commit carries the index to refresh to. */
  ghost function Evaluate(snap: Snapshot, plan: Plan): Outcome {
    var nodes := Nodes(plan);
    var partial := AnyUnfit(snap, plan, nodes);
    if AnyBroken(snap, plan, nodes) || (partial && RefreshFails(snap)) then Err
    else Ok(PlanResult(Committed(snap, plan, plan.nodeUpdate, nodes),
                       Committed(snap, plan, plan.nodeAllocation, nodes),
                       if partial then RefreshIndex(snap) else 0, 0))
  }

  // ---- the evaluation in terms of plan and snapshot --------------------------------

  /** A node that the plan places something on. */
  predicate Places(plan: Plan, n: string) {
    n in plan.nodeAllocation && plan.nodeAllocation[n] != []
  }

  predicate IsReady(snap: Snapshot, n: string) {
    n in snap.status && snap.status[n] == "ready"
  }

  /** What is committed, node by node: placements exactly on ready nodes, evictions also where nothing
      is placed, and in both cases the plan's own list. */
  lemma CommitsExactly(snap: Snapshot, plan: Plan, n: string)
    requires Evaluate(snap, plan).Ok?
    ensures var r := Evaluate(snap, plan).result;
            && (n in r.nodeAllocation <==> Places(plan, n) && IsReady(snap, n))
            && (n in r.nodeAllocation ==> r.nodeAllocation[n] == plan.nodeAllocation[n])
            && (n in r.nodeUpdate <==>
                  n in plan.nodeUpdate && plan.nodeUpdate[n] != [] && (!Places(plan, n) || IsReady(snap, n)))
            && (n in r.nodeUpdate ==> r.nodeUpdate[n] == plan.nodeUpdate[n])
            && r.allocIndex == 0
  {
    assert n in Nodes(plan) && NodeVerdict(snap, plan, n) == Broken ==> AnyBroken(snap, plan, Nodes(plan));
  }

  /** Some placement is on a node that is missing or not ready. */
  ghost predicate Partial(snap: Snapshot, plan: Plan) {
    exists n :: Places(plan, n) && n !in snap.nodeErrors && !IsReady(snap, n)
  }

  /** Some placement is on a node whose lookup fails, or on a ready one whose allocations cannot be
      listed. */
  ghost predicate Unreadable(snap: Snapshot, plan: Plan) {
    exists n :: Places(plan, n) && (n in snap.nodeErrors || (IsReady(snap, n) && n in snap.allocErrors))
  }

  lemma PartialIff(snap: Snapshot, plan: Plan)
    ensures AnyUnfit(snap, plan, Nodes(plan)) <==> Partial(snap, plan)
    ensures AnyBroken(snap, plan, Nodes(plan)) <==> Unreadable(snap, plan)
  {
    if AnyUnfit(snap, plan, Nodes(plan)) {
      var n :| n in Nodes(plan) && NodeVerdict(snap, plan, n) == Unfit;
      assert Places(plan, n);
    }
    if n :| Places(plan, n) && n !in snap.nodeErrors && !IsReady(snap, n) {
      assert n in Nodes(plan) && NodeVerdict(snap, plan, n) == Unfit;
    }
    if AnyBroken(snap, plan, Nodes(plan)) {
      var n :| n in Nodes(plan) && NodeVerdict(snap, plan, n) == Broken;
      assert Places(plan, n);
    }
    if n :| Places(plan, n) && (n in snap.nodeErrors || (IsReady(snap, n) && n in snap.allocErrors)) {
      assert n in Nodes(plan) && NodeVerdict(snap, plan, n) == Broken;
    }
  }

  /** The evaluation fails exactly when a lookup does, or when the commit is partial and there is no
      index to refresh to. */
  lemma FailsExactly(snap: Snapshot, plan: Plan)
    ensures Evaluate(snap, plan).Err? <==>
            || Unreadable(snap, plan)
            || (Partial(snap, plan)
                && (snap.nodesIndex.NoIndex? || snap.allocsIndex.NoIndex?
                    || (snap.nodesIndex.index == 0 && snap.allocsIndex.index == 0)))
  {
    hide AnyUnfit, AnyBroken, Partial, Unreadable, Committed;
    PartialIff(snap, plan);
  }

  /** A partial commit asks for the larger of the two table indexes, a full one for none. */
  lemma RefreshExactly(snap: Snapshot, plan: Plan)
    requires Evaluate(snap, plan).Ok?
    ensures var r := Evaluate(snap, plan).result;
            if Partial(snap, plan)
            then && snap.nodesIndex.At? && snap.allocsIndex.At?
                 && r.refreshIndex >= snap.nodesIndex.index && r.refreshIndex >= snap.allocsIndex.index
                 && (r.refreshIndex == snap.nodesIndex.index || r.refreshIndex == snap.allocsIndex.index)
                 && r.refreshIndex > 0
            else r.refreshIndex == 0
  {
    hide AnyUnfit, AnyBroken, Partial, Unreadable, Committed;
    PartialIff(snap, plan);
  }

  // ---- full commit -----------------------------------------------------------------

  /** The committed lists of the given nodes; a node without one has the empty list. */
  function DidOn(m: ByNode, result: PlanResult): ByNode {
    map n | n in m :: ListAt(result.nodeAllocation, n)
  }

  /** The committed list of each node that the plan allocates on. */
  function Did(plan: Plan, result: PlanResult): ByNode {
    DidOn(plan.nodeAllocation, result)
  }

  lemma DidWithout(m: ByNode, result: PlanResult, name: string)
    requires name in m
    ensures TotalLength(DidOn(m - {name}, result)) == TotalLength(DidOn(m, result)) - |ListAt(result.nodeAllocation, name)|
    ensures TotalLength(m - {name}) == TotalLength(m) - |m[name]|
    ensures |m - {name}| == |m| - 1
  {
    hide TotalLength;
    TotalLengthRemove(m, name);
    TotalLengthRemove(DidOn(m, result), name);
    assert DidOn(m - {name}, result) == DidOn(m, result) - {name};
    assert (m - {name}).Keys == m.Keys - {name};
  }

  lemma NothingDid(result: PlanResult)
    ensures TotalLength<Allocation>(map[]) == 0 && DidOn(map[], result) == map[]
  {
    assert Lengths<Allocation>(map[]) == map[];
  }

  /** PlanResult.FullCommit counts the planned and the committed allocations. */
  method FullCommit(result: PlanResult, plan: Plan) returns (full: bool, expected: int, actual: int)
    ensures expected == TotalLength(plan.nodeAllocation)
    ensures actual == TotalLength(Did(plan, result))
    ensures full <==> actual == expected
  {
    hide TotalLength, DidOn;
    expected, actual := 0, 0;
    var rest := plan.nodeAllocation;
    while rest != map[]
      invariant expected == TotalLength(plan.nodeAllocation) - TotalLength(rest)
      invariant actual == TotalLength(Did(plan, result)) - TotalLength(DidOn(rest, result))
      decreases |rest|
    {
      var name :| name in rest;
      var didAlloc := ListAt(result.nodeAllocation, name);
      expected := expected + |rest[name]|;
      actual := actual + |didAlloc|;
      DidWithout(rest, result, name);
      rest := rest - {name};
    }
    NothingDid(result);
    full := actual == expected;
  }

  /** Sums of pointwise smaller numbers are equal exactly when the numbers are. */
  lemma {:induction false} TotalsEqual(m: map<string, int>, n: map<string, int>)
    requires m.Keys == n.Keys && forall k :: k in m ==> n[k] <= m[k]
    ensures Total(n) <= Total(m)
    ensures Total(n) == Total(m) <==> n == m
    decreases |m|
  {
    if |m| > 0 {
      var k := AnyKey(m);
      TotalSplit(m, k);
      TotalSplit(n, k);
      TotalsEqual(Without(m, k), Without(n, k));
      if Without(m, k) == Without(n, k) && m[k] == n[k] {
        assert forall x :: x in m ==> m[x] == n[x] by {
          forall x | x in m ensures m[x] == n[x] {
            if x != k {
              assert Without(m, k)[x] == m[x] && Without(n, k)[x] == n[x];
            }
          }
        }
        assert m == n;
      }
    } else {
      assert m == map[] && n == map[];
    }
  }

  lemma DidLists(snap: Snapshot, plan: Plan, result: PlanResult, n: string)
    requires result.nodeAllocation == Committed(snap, plan, plan.nodeAllocation, Nodes(plan)) && n in plan.nodeAllocation
    ensures Did(plan, result)[n] == if NodeVerdict(snap, plan, n) == Fits then plan.nodeAllocation[n] else []
  {
  }

  /** A result without error is a full commit exactly when it asks for no refresh. */
  lemma FullCommitIffNoRefresh(snap: Snapshot, plan: Plan)
    requires Evaluate(snap, plan).Ok?
    ensures var r := Evaluate(snap, plan).result;
            TotalLength(Did(plan, r)) == TotalLength(plan.nodeAllocation) <==> r.refreshIndex == 0
  {
    var r := Evaluate(snap, plan).result;
    var m, n := Lengths(plan.nodeAllocation), Lengths(Did(plan, r));
    forall k | k in m
      ensures n[k] <= m[k]
      ensures n[k] == m[k] <==> NodeVerdict(snap, plan, k) == Fits
    {
      DidLists(snap, plan, r, k);
    }
    TotalsEqual(m, n);
    if AnyUnfit(snap, plan, Nodes(plan)) {
      var k :| k in Nodes(plan) && NodeVerdict(snap, plan, k) == Unfit;
      assert k in m && n[k] != m[k];
    } else {
      assert forall k :: k in m ==> NodeVerdict(snap, plan, k) == Fits;
      assert m == n;
    }
  }

  /** Every committed placement is on a node that is present and ready in the snapshot. */
  lemma CommittedOnReadyNodes(snap: Snapshot, plan: Plan, node: string)
    requires Evaluate(snap, plan).Ok? && node in Evaluate(snap, plan).result.nodeAllocation
    ensures node in snap.status && snap.status[node] == READY
    ensures |Evaluate(snap, plan).result.nodeAllocation[node]| > 0
  {
  }

  // ---- the answer to the worker ----------------------------------------------------

  /** asyncPlanWait: the committed index, and a refresh index that covers it. */
  function Applied(r: PlanResult, index: nat): PlanResult {
    r.(allocIndex := index,
       refreshIndex := if r.refreshIndex != 0 then Max(r.refreshIndex, index) else 0)
  }

  /** The answer asks for a refresh exactly when the commit was partial, and then up to the
      placements it made itself. */
  lemma AnswerTellsPartialCommit(snap: Snapshot, plan: Plan, index: nat)
    requires Evaluate(snap, plan).Ok?
    ensures var r := Applied(Evaluate(snap, plan).result, index);
            && (TotalLength(Did(plan, r)) == TotalLength(plan.nodeAllocation) <==> r.refreshIndex == 0)
            && (r.refreshIndex != 0 ==> r.refreshIndex >= index && r.refreshIndex >= RefreshIndex(snap))
            && (r.refreshIndex != 0 ==> r.refreshIndex == index || r.refreshIndex == RefreshIndex(snap))
            && r.allocIndex == index
            && r.nodeAllocation == Evaluate(snap, plan).result.nodeAllocation
            && r.nodeUpdate == Evaluate(snap, plan).result.nodeUpdate
  {
    FullCommitIffNoRefresh(snap, plan);
    var r0 := Evaluate(snap, plan).result;
    assert Did(plan, Applied(r0, index)) == Did(plan, r0);
  }
}
