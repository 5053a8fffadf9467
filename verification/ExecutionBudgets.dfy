/**
 * Execution budgets and the acceptance of a task set
 * (src/financial_intelligence/domain/orchestration/budget.py).
 */
module ExecutionBudgets {
  import opened Outcomes
  import opened ResearchTasks
  import opened TaskGraph

  datatype Budget = Budget(
    maxTasks: nat,
    maxAttemptsPerTask: nat,
    maxTotalAttempts: nat,
    maxPlanDepth: nat,
    maxExternalCalls: nat)

  datatype BudgetError = TooManyTasks | TaskAttempts | PlanDepth | TotalAttempts | ExternalCalls

  /** What the budget constructor accepts. */
  predicate ConstructibleBudget(b: Budget) {
    && 1 <= b.maxTasks <= 100
    && 1 <= b.maxAttemptsPerTask <= 10
    && 1 <= b.maxTotalAttempts <= 500
    && 1 <= b.maxPlanDepth <= 50
    && 1 <= b.maxExternalCalls <= 500
  }

  // ----- Ancestors -----

  /** The dependencies the search finds under `id`: those of the last task of that name, if any. */
  ghost function DependenciesOf(ts: seq<Task>, id: TaskId): seq<TaskId> {
    if ts == [] then []
    else if ts[|ts| - 1].id == id then ts[|ts| - 1].dependencies
    else DependenciesOf(ts[..|ts| - 1], id)
  }

  /** A path that starts in `start` and follows dependencies. */
  ghost predicate Walk(ts: seq<Task>, start: seq<TaskId>, path: seq<TaskId>) {
    && path != []
    && path[0] in start
    && (forall k :: 0 <= k < |path| - 1 ==> path[k + 1] in DependenciesOf(ts, path[k]))
  }

  ghost predicate Reaches(ts: seq<Task>, start: seq<TaskId>, x: TaskId) {
    exists path :: Walk(ts, start, path) && path[|path| - 1] == x
  }

  ghost function Mentioned(ts: seq<Task>): set<TaskId> {
    if ts == [] then {} else Mentioned(ts[..|ts| - 1]) + Elements(ts[|ts| - 1].dependencies)
  }

  lemma {:induction false} DependenciesAreMentioned(ts: seq<Task>, id: TaskId, d: TaskId)
    requires d in DependenciesOf(ts, id)
    ensures d in Mentioned(ts)
  {
    if ts[|ts| - 1].id != id {
      DependenciesAreMentioned(ts[..|ts| - 1], id, d);
    }
  }

  lemma {:induction false} WalkStaysMentioned(ts: seq<Task>, start: seq<TaskId>, x: TaskId)
    requires Reaches(ts, start, x)
    ensures x in Elements(start) + Mentioned(ts)
  {
    var path :| Walk(ts, start, path) && path[|path| - 1] == x;
    if |path| > 1 {
      DependenciesAreMentioned(ts, path[|path| - 2], x);
    }
  }

  /** Every identity reachable from `start` along dependencies, present in the plan or not. */
  ghost function Ancestors(ts: seq<Task>, start: seq<TaskId>): set<TaskId> {
    set x | x in Elements(start) + Mentioned(ts) && Reaches(ts, start, x)
  }

  /** The depth the budget charges to a task: one more than its number of distinct ancestors. */
  ghost function Depth(ts: seq<Task>, t: Task): nat {
    1 + |Ancestors(ts, t.dependencies)|
  }

  lemma ReachesStart(ts: seq<Task>, start: seq<TaskId>, x: TaskId)
    requires x in start
    ensures Reaches(ts, start, x)
  {
    assert Walk(ts, start, [x]);
  }

  lemma ReachesFurther(ts: seq<Task>, start: seq<TaskId>, x: TaskId, d: TaskId)
    requires Reaches(ts, start, x) && d in DependenciesOf(ts, x)
    ensures Reaches(ts, start, d)
  {
    var path :| Walk(ts, start, path) && path[|path| - 1] == x;
    var longer := path + [d];
    assert forall k :: 0 <= k < |path| ==> longer[k] == path[k];
    assert Walk(ts, start, longer);
  }

  // ----- The worklist search -----

  method TaskIndex(ts: seq<Task>) returns (byId: map<TaskId, Task>)
    ensures forall x :: x in byId ==> byId[x].dependencies == DependenciesOf(ts, x)
    ensures forall x :: x !in byId ==> DependenciesOf(ts, x) == []
  {
    byId := map[];
    for i := 0 to |ts|
      invariant forall x :: x in byId ==> byId[x].dependencies == DependenciesOf(ts[..i], x)
      invariant forall x :: x !in byId ==> DependenciesOf(ts[..i], x) == []
    {
      assert ts[..i + 1][..i] == ts[..i];
      byId := byId[ts[i].id := ts[i]];
    }
    assert ts[..|ts|] == ts;
  }

  ghost predicate AllReached(ts: seq<Task>, start: seq<TaskId>, ids: set<TaskId>) {
    forall x :: x in ids ==> Reaches(ts, start, x)
  }

  /** Whatever follows from `seen` is itself seen or waiting on the stack. */
  ghost predicate Covered(ts: seq<Task>, start: seq<TaskId>, seen: set<TaskId>, waiting: set<TaskId>) {
    && (forall d :: d in start ==> d in seen + waiting)
    && (forall x :: x in seen ==> Elements(DependenciesOf(ts, x)) <= seen + waiting)
  }

  lemma {:induction false} CoveredWalk(ts: seq<Task>, start: seq<TaskId>, seen: set<TaskId>, path: seq<TaskId>, k: nat)
    requires Covered(ts, start, seen, {}) && Walk(ts, start, path) && k < |path|
    ensures path[k] in seen
  {
    var x := path[k];
    if k > 0 {
      CoveredWalk(ts, start, seen, path, k - 1);
      assert path[k - 1 + 1] in DependenciesOf(ts, path[k - 1]);
      assert x in Elements(DependenciesOf(ts, path[k - 1]));
    } else {
      assert x in start;
    }
  }

  lemma SearchIsExact(ts: seq<Task>, start: seq<TaskId>, seen: set<TaskId>)
    requires AllReached(ts, start, seen) && Covered(ts, start, seen, {})
    ensures seen == Ancestors(ts, start)
  {
    forall x | x in seen ensures x in Ancestors(ts, start) {
      WalkStaysMentioned(ts, start, x);
    }
    forall x | x in Ancestors(ts, start) ensures x in seen {
      var path :| Walk(ts, start, path) && path[|path| - 1] == x;
      CoveredWalk(ts, start, seen, path, |path| - 1);
    }
  }

  lemma PopStack(stack: seq<TaskId>)
    requires stack != []
    ensures Elements(stack) == Elements(stack[..|stack| - 1]) + {stack[|stack| - 1]}
  {
    assert stack == stack[..|stack| - 1] + [stack[|stack| - 1]];
  }

  lemma PushDependencies(stack: seq<TaskId>, more: seq<TaskId>)
    ensures Elements(stack + more) == Elements(stack) + Elements(more)
  {
  }

  lemma VisitStep(ts: seq<Task>, start: seq<TaskId>, seen: set<TaskId>, waiting: set<TaskId>, dep: TaskId)
    requires AllReached(ts, start, seen + waiting + {dep}) && Covered(ts, start, seen, waiting + {dep})
    ensures AllReached(ts, start, seen + {dep} + (waiting + Elements(DependenciesOf(ts, dep))))
    ensures Covered(ts, start, seen + {dep}, waiting + Elements(DependenciesOf(ts, dep)))
  {
    forall d | d in DependenciesOf(ts, dep) ensures Reaches(ts, start, d) {
      ReachesFurther(ts, start, dep, d);
    }
  }

  /** Depth-first search with an explicit stack; it ends on every graph, cyclic or not. */
  method SearchAncestors(ts: seq<Task>, byId: map<TaskId, Task>, start: seq<TaskId>) returns (depth: nat)
    requires forall x :: x in byId ==> byId[x].dependencies == DependenciesOf(ts, x)
    requires forall x :: x !in byId ==> DependenciesOf(ts, x) == []
    ensures depth == 1 + |Ancestors(ts, start)|
  {
    depth := 1;
    var seen: set<TaskId> := {};
    var stack := start;
    ghost var universe := Elements(start) + Mentioned(ts);
    forall x | x in start ensures Reaches(ts, start, x) { ReachesStart(ts, start, x); }
    while stack != []
      invariant depth == 1 + |seen|
      invariant seen <= universe
      invariant AllReached(ts, start, seen + Elements(stack))
      invariant Covered(ts, start, seen, Elements(stack))
      decreases universe - seen, |stack|
    {
      var dep := stack[|stack| - 1];
      PopStack(stack);
      stack := stack[..|stack| - 1];
      if dep !in seen {
        WalkStaysMentioned(ts, start, dep);
        VisitStep(ts, start, seen, Elements(stack), dep);
        seen := seen + {dep};
        depth := depth + 1;
        if dep in byId {
          PushDependencies(stack, byId[dep].dependencies);
          stack := stack + byId[dep].dependencies;
        }
      }
    }
    SearchIsExact(ts, start, seen);
  }

  // ----- Acceptance -----

  ghost function SumMaxAttempts(ts: seq<Task>): int {
    if ts == [] then 0 else SumMaxAttempts(ts[..|ts| - 1]) + ts[|ts| - 1].maxAttempts
  }

  ghost predicate TaskWithin(b: Budget, ts: seq<Task>, t: Task) {
    t.maxAttempts <= b.maxAttemptsPerTask && Depth(ts, t) <= b.maxPlanDepth
  }

  ghost predicate TasksWithin(b: Budget, ts: seq<Task>, n: nat)
    requires n <= |ts|
  {
    forall i {:trigger TaskWithin(b, ts, ts[i])} :: 0 <= i < n ==> TaskWithin(b, ts, ts[i])
  }

  ghost predicate Accepts(b: Budget, ts: seq<Task>) {
    && |ts| <= b.maxTasks
    && TasksWithin(b, ts, |ts|)
    && SumMaxAttempts(ts) <= b.maxTotalAttempts
    && |ts| <= b.maxExternalCalls
  }

  /** Accepts a task set exactly when it keeps every bound; otherwise names the first bound it breaks. */
  method ValidateTasks(b: Budget, ts: seq<Task>) returns (r: Result<(), BudgetError>)
    ensures r.Ok? <==> Accepts(b, ts)
    ensures r.Ok? <==>
              && |ts| <= b.maxTasks && |ts| <= b.maxExternalCalls && SumMaxAttempts(ts) <= b.maxTotalAttempts
              && forall i :: 0 <= i < |ts| ==>
                   ts[i].maxAttempts <= b.maxAttemptsPerTask && Depth(ts, ts[i]) <= b.maxPlanDepth
    ensures r == Err(TooManyTasks) <==> |ts| > b.maxTasks
    ensures r == Err(TaskAttempts) ==>
              exists i :: 0 <= i < |ts| && TasksWithin(b, ts, i) && ts[i].maxAttempts > b.maxAttemptsPerTask
    ensures r == Err(PlanDepth) ==>
              exists i :: 0 <= i < |ts| && TasksWithin(b, ts, i)
                && ts[i].maxAttempts <= b.maxAttemptsPerTask && Depth(ts, ts[i]) > b.maxPlanDepth
    ensures r == Err(TotalAttempts) ==> TasksWithin(b, ts, |ts|) && SumMaxAttempts(ts) > b.maxTotalAttempts
    ensures r == Err(ExternalCalls) ==>
              TasksWithin(b, ts, |ts|) && SumMaxAttempts(ts) <= b.maxTotalAttempts && |ts| > b.maxExternalCalls
  {
    if |ts| > b.maxTasks {
      return Err(TooManyTasks);
    }
    var totalAttempts := 0;
    var byId := TaskIndex(ts);
    for i := 0 to |ts|
      invariant totalAttempts == SumMaxAttempts(ts[..i])
      invariant TasksWithin(b, ts, i)
    {
      if ts[i].maxAttempts > b.maxAttemptsPerTask {
        assert !TaskWithin(b, ts, ts[i]);
        return Err(TaskAttempts);
      }
      assert ts[..i + 1][..i] == ts[..i];
      totalAttempts := totalAttempts + ts[i].maxAttempts;
      var depth := SearchAncestors(ts, byId, ts[i].dependencies);
      if depth > b.maxPlanDepth {
        assert !TaskWithin(b, ts, ts[i]);
        return Err(PlanDepth);
      }
    }
    assert ts[..|ts|] == ts;
    if totalAttempts > b.maxTotalAttempts {
      return Err(TotalAttempts);
    }
    if |ts| > b.maxExternalCalls {
      return Err(ExternalCalls);
    }
    forall i | 0 <= i < |ts| ensures ts[i].maxAttempts <= b.maxAttemptsPerTask && Depth(ts, ts[i]) <= b.maxPlanDepth {
      assert TaskWithin(b, ts, ts[i]);
    }
    return Ok(());
  }

  // ----- What acceptance means for a plan -----

  lemma {:induction false} DependenciesOfTask(ts: seq<Task>, i: nat)
    requires UniqueIds(ts) && i < |ts|
    ensures DependenciesOf(ts, ts[i].id) == ts[i].dependencies
  {
    if i < |ts| - 1 {
      assert ts[i].id != ts[|ts| - 1].id;
      var shorter := ts[..|ts| - 1];
      forall j, k | 0 <= j < k < |shorter| ensures shorter[j].id != shorter[k].id { assert ts[j].id != ts[k].id; }
      DependenciesOfTask(shorter, i);
    }
  }

  /** A chain of tasks, each depending on the next. */
  ghost predicate DependencyChain(ts: seq<Task>, chain: seq<nat>) {
    && (forall k :: 0 <= k < |chain| ==> chain[k] < |ts|)
    && (forall k :: 0 <= k < |chain| - 1 ==> ts[chain[k + 1]].id in ts[chain[k]].dependencies)
  }

  lemma {:induction false} ChainRanksFall(ts: seq<Task>, rank: map<TaskId, nat>, chain: seq<nat>, j: nat, k: nat)
    requires Ranked(ts, rank) && DependencyChain(ts, chain) && j < k < |chain|
    ensures ts[chain[j]].id in rank && ts[chain[k]].id in rank
    ensures rank[ts[chain[k]].id] < rank[ts[chain[j]].id]
    decreases k - j
  {
    var d := ts[chain[k - 1 + 1]].id;
    assert RanksAbove(ts[chain[k - 1]], rank) && d in ts[chain[k - 1]].dependencies;
    if j < k - 1 {
      ChainRanksFall(ts, rank, chain, j, k - 1);
    }
  }

  lemma {:induction false} ChainReaches(ts: seq<Task>, chain: seq<nat>, k: nat)
    requires UniqueIds(ts) && DependencyChain(ts, chain) && 1 <= k < |chain|
    ensures Reaches(ts, ts[chain[0]].dependencies, ts[chain[k]].id)
  {
    if k == 1 {
      ReachesStart(ts, ts[chain[0]].dependencies, ts[chain[1]].id);
    } else {
      ChainReaches(ts, chain, k - 1);
      DependenciesOfTask(ts, chain[k - 1]);
      ReachesFurther(ts, ts[chain[0]].dependencies, ts[chain[k - 1]].id, ts[chain[k]].id);
    }
  }

  /** Task `i` depends on task `j`, directly or through others. */
  ghost predicate Upstream(ts: seq<Task>, i: nat, j: nat) {
    exists chain :: DependencyChain(ts, chain) && |chain| >= 2 && chain[0] == i && chain[|chain| - 1] == j
  }

  ghost function AllUpstream(ts: seq<Task>, i: nat): set<nat> {
    set j: nat | j < |ts| && Upstream(ts, i, j)
  }

  lemma {:induction false} WalkIsChain(ts: seq<Task>, i: nat, path: seq<TaskId>) returns (chain: seq<nat>)
    requires UniqueIds(ts) && ClosedDependencies(ts) && i < |ts| && Walk(ts, ts[i].dependencies, path)
    ensures DependencyChain(ts, chain) && |chain| == |path| + 1 && chain[0] == i
    ensures chain[|path|] < |ts| && ts[chain[|path|]].id == path[|path| - 1]
  {
    var shorter, last := path[..|path| - 1], path[|path| - 1];
    if shorter == [] {
      chain := [i];
    } else {
      forall k | 0 <= k < |shorter| - 1 ensures shorter[k + 1] in DependenciesOf(ts, shorter[k]) {
        assert path[k + 1] in DependenciesOf(ts, path[k]);
      }
      chain := WalkIsChain(ts, i, shorter);
      DependenciesOfTask(ts, chain[|shorter|]);
      assert path[|path| - 2 + 1] in DependenciesOf(ts, path[|path| - 2]);
    }
    var c := chain[|shorter|];
    assert DependsWithin(ts[c], Ids(ts)) && last in ts[c].dependencies;
    chain := chain + [IndexOf(ts, last)];
  }

  lemma {:induction false} IdentitiesCount(ts: seq<Task>, js: set<nat>)
    requires UniqueIds(ts) && forall j :: j in js ==> j < |ts|
    ensures |set j | j in js :: ts[j].id| == |js|
  {
    if js != {} {
      var j :| j in js;
      IdentitiesCount(ts, js - {j});
      assert (set k | k in js :: ts[k].id) == (set k | k in js - {j} :: ts[k].id) + {ts[j].id};
    }
  }

  /** The depth charged to a task of a plan: one more than the number of tasks it depends on, directly or not. */
  lemma DepthCountsUpstream(ts: seq<Task>, i: nat)
    requires UniqueIds(ts) && ClosedDependencies(ts) && i < |ts|
    ensures Depth(ts, ts[i]) == 1 + |AllUpstream(ts, i)|
  {
    var js, start := AllUpstream(ts, i), ts[i].dependencies;
    var ids := set j | j in js :: ts[j].id;
    forall x | x in ids ensures x in Ancestors(ts, start) {
      var j :| j in js && ts[j].id == x;
      var chain :| DependencyChain(ts, chain) && |chain| >= 2 && chain[0] == i && chain[|chain| - 1] == j;
      ChainReaches(ts, chain, |chain| - 1);
      WalkStaysMentioned(ts, start, x);
    }
    forall x | x in Ancestors(ts, start) ensures x in ids {
      var path :| Walk(ts, start, path) && path[|path| - 1] == x;
      var chain := WalkIsChain(ts, i, path);
      assert Upstream(ts, i, chain[|path|]);
    }
    assert Ancestors(ts, start) == ids;
    IdentitiesCount(ts, js);
  }

  /** An accepted valid graph has no dependency chain of more than `maxPlanDepth` tasks. */
  lemma AcceptedChainsAreShort(b: Budget, ts: seq<Task>, chain: seq<nat>)
    requires ValidGraph(ts) && Accepts(b, ts) && DependencyChain(ts, chain) && chain != []
    ensures |chain| <= b.maxPlanDepth
  {
    var rank :| Ranked(ts, rank);
    var below := seq(|chain| - 1, k requires 0 <= k < |chain| - 1 => ts[chain[k + 1]].id);
    forall j, k | 0 <= j < k < |below| ensures below[j] != below[k] {
      ChainRanksFall(ts, rank, chain, j + 1, k + 1);
    }
    var ancestors := Ancestors(ts, ts[chain[0]].dependencies);
    forall x | x in below ensures x in ancestors {
      var k :| 0 <= k < |below| && below[k] == x;
      ChainReaches(ts, chain, k + 1);
      WalkStaysMentioned(ts, ts[chain[0]].dependencies, x);
    }
    DistinctCount(below);
    SubsetSize(Elements(below), ancestors);
    assert TaskWithin(b, ts, ts[chain[0]]);
  }

  // ----- The converse fails: the bound counts ancestors, not the longest chain -----

  /** Two independent tasks and one that depends on both. */
  const FAN_IN := [
    Task(1, [], Pending, 1, true, 0, 1),
    Task(2, [], Pending, 1, true, 0, 1),
    Task(3, [1, 2], Pending, 1, true, 0, 1)]

  const TWO_LEVELS := Budget(3, 1, 3, 2, 3)

  function Second(path: seq<TaskId>): TaskId {
    if |path| > 1 then path[0 + 1] else 0
  }

  lemma FanInAncestors()
    ensures Depth(FAN_IN, FAN_IN[2]) == 3
  {
    var start := FAN_IN[2].dependencies;
    assert FAN_IN[..2][..1] == FAN_IN[..1] && DependenciesOf(FAN_IN[..1], 1) == []
           && DependenciesOf(FAN_IN[..2], 2) == [];
    ReachesStart(FAN_IN, start, 1);
    ReachesStart(FAN_IN, start, 2);
    forall x | Reaches(FAN_IN, start, x) ensures x in {1, 2} {
      var path :| Walk(FAN_IN, start, path) && path[|path| - 1] == x;
      assert DependenciesOf(FAN_IN, path[0]) == DependenciesOf(FAN_IN[..2], path[0]) == [];
      var next := Second(path);
      if |path| > 1 {
        assert false;
      }
    }
    assert Elements(start) == {1, 2};
    assert Ancestors(FAN_IN, start) == {1, 2};
  }

  const FAN_IN_RANK: map<TaskId, nat> := map[1 := 0, 2 := 0, 3 := 1]

  /** A chain is at most one longer than the rank of its first task. */
  lemma {:induction false} RankBoundsChain(ts: seq<Task>, rank: map<TaskId, nat>, chain: seq<nat>)
    requires Ranked(ts, rank) && DependencyChain(ts, chain) && chain != []
    requires forall i :: 0 <= i < |ts| ==> ts[i].id in rank
    ensures |chain| - 1 <= rank[ts[chain[0]].id]
  {
    if |chain| > 1 {
      var rest := chain[1..];
      assert forall k :: 0 <= k < |rest| ==> rest[k] == chain[k + 1];
      RankBoundsChain(ts, rank, rest);
      ChainRanksFall(ts, rank, chain, 0, 1);
    }
  }

  lemma NoAncestors(ts: seq<Task>)
    ensures Ancestors(ts, []) == {}
  {
    forall x ensures !Reaches(ts, [], x) {}
  }

  lemma FanInIsValid()
    ensures ValidGraph(FAN_IN) && Ranked(FAN_IN, FAN_IN_RANK)
  {
    forall i | 0 <= i < |FAN_IN|
      ensures DependsWithin(FAN_IN[i], Ids(FAN_IN)) && Distinct(FAN_IN[i].dependencies)
              && RanksAbove(FAN_IN[i], FAN_IN_RANK)
    {
      assert FAN_IN[0].id in Ids(FAN_IN) && FAN_IN[1].id in Ids(FAN_IN);
    }
    assert Ranked(FAN_IN, FAN_IN_RANK);
  }

  lemma FanInAttempts()
    ensures SumMaxAttempts(FAN_IN) == 3
  {
    var two, one := FAN_IN[..2], FAN_IN[..1];
    assert two[..1] == one && one[..0] == [];
    assert SumMaxAttempts(one) == 1 && SumMaxAttempts(two) == 2;
  }

  /** A valid graph whose chains all have at most `maxPlanDepth` tasks can be refused, for its depth alone. */
  lemma ShortChainsCanBeRefused()
    ensures ConstructibleBudget(TWO_LEVELS) && forall i :: 0 <= i < |FAN_IN| ==> Constructible(FAN_IN[i])
    ensures ValidGraph(FAN_IN) && !Accepts(TWO_LEVELS, FAN_IN) && Accepts(TWO_LEVELS.(maxPlanDepth := 3), FAN_IN)
    ensures forall chain :: DependencyChain(FAN_IN, chain) ==> |chain| <= TWO_LEVELS.maxPlanDepth
  {
    FanInAncestors();
    FanInIsValid();
    FanInAttempts();
    assert !TaskWithin(TWO_LEVELS, FAN_IN, FAN_IN[2]);
    var roomy := TWO_LEVELS.(maxPlanDepth := 3);
    forall i | 0 <= i < |FAN_IN| ensures TaskWithin(roomy, FAN_IN, FAN_IN[i]) {
      if i < 2 { NoAncestors(FAN_IN); }
    }
    forall chain: seq<nat> | DependencyChain(FAN_IN, chain) ensures |chain| <= TWO_LEVELS.maxPlanDepth {
      if chain != [] {
        RankBoundsChain(FAN_IN, FAN_IN_RANK, chain);
      }
    }
  }
}
