/**
 * Exactly when the calls of a run follow the plan order, whatever the executor answers
 * (src/financial_intelligence/domain/orchestration/graph.py, select_next_ready_task, in the loop of
 * src/financial_intelligence/application/execute_research_plan.py).
 */
module Overtaking {
  import opened ResearchTasks
  import opened TaskGraph
  import opened TopologicalOrder
  import opened Scheduling
  import opened ExecutionBudgets
  import opened TaskResults
  import opened PlanExecution
  import opened RunSafety
  import opened RunProgress
  import opened StaticOrder
  import opened Resume
  import opened BudgetSlack
  import opened Completion

  // ----- Orders of identities -----

  ghost predicate Precedes(ids: seq<TaskId>, x: TaskId, y: TaskId) {
    exists k, l :: 0 <= k < l < |ids| && ids[k] == x && ids[l] == y
  }

  lemma {:induction false} CollapseKeepsMembers(ids: seq<TaskId>, x: TaskId)
    requires x in ids
    ensures x in Collapse(ids)
  {
    var shorter, last := ids[..|ids| - 1], ids[|ids| - 1];
    assert ids == shorter + [last];
    if x != last {
      CollapseKeepsMembers(shorter, x);
    }
  }

  lemma {:induction false} CollapseKeepsPrecedes(ids: seq<TaskId>, x: TaskId, y: TaskId)
    requires x != y && Precedes(ids, x, y)
    ensures Precedes(Collapse(ids), x, y)
  {
    var k, l :| 0 <= k < l < |ids| && ids[k] == x && ids[l] == y;
    var shorter := ids[..|ids| - 1];
    var before, after := Collapse(shorter), Collapse(ids);
    assert shorter[k] == x;
    if l < |ids| - 1 {
      assert shorter[l] == y;
      CollapseKeepsPrecedes(shorter, x, y);
      var a, b :| 0 <= a < b < |before| && before[a] == x && before[b] == y;
      assert after[a] == x && after[b] == y;
    } else {
      CollapseKeepsMembers(shorter, x);
      var a :| 0 <= a < |before| && before[a] == x;
      assert after[a] == x && after[|after| - 1] == y;
    }
  }

  /** The called tasks come in plan order. */
  lemma {:induction false} CalledIdsInPlanOrder(ts: seq<Task>, calls: seq<Call>, x: TaskId, y: TaskId)
    returns (a: nat, b: nat)
    requires Precedes(CalledIds(ts, calls), x, y)
    ensures a < b < |ts| && ts[a].id == x && ts[b].id == y
  {
    var ids, shorter := CalledIds(ts, calls), ts[..|ts| - 1];
    var before := CalledIds(shorter, calls);
    var k, l :| 0 <= k < l < |ids| && ids[k] == x && ids[l] == y;
    if l < |before| {
      assert before[k] == x && before[l] == y;
      a, b := CalledIdsInPlanOrder(shorter, calls, x, y);
    } else {
      assert before[k] == x && x in before;
      CalledIdsAreIds(shorter, calls, x);
      a, b := IndexOf(shorter, x), |ts| - 1;
    }
  }

  lemma {:induction false} TraceIdsAt(calls: seq<Call>, k: nat)
    requires k < |calls|
    ensures |TraceIds(calls)| == |calls| && TraceIds(calls)[k] == calls[k].task.id
  {
    if k < |calls| - 1 {
      TraceIdsAt(calls[..|calls| - 1], k);
    } else if |calls| > 1 {
      TraceIdsAt(calls[..|calls| - 1], 0);
    }
  }

  // ----- Runs in which every call succeeds -----

  ghost predicate AllCanBegin(ts: seq<Task>) {
    forall k {:trigger CanBegin(ts[k])} :: 0 <= k < |ts| && ts[k].Unsettled() ==> CanBegin(ts[k])
  }

  /** A run in which nothing is doomed, nothing is refused and every call will succeed. */
  ghost predicate Healthy(e: Engine, s: State) {
    && Good(e.budget, s) && NoneRunning(s.tasks) && Propagated(s.tasks) == s.tasks
    && AllCanBegin(s.tasks) && HasSlack(e.budget, s) && e.execute == Willing()
  }

  /** When failures have been propagated and every unsettled task has an attempt left, all of them can succeed. */
  lemma {:induction false} UndoomedIsHopeful(ts: seq<Task>, k: nat)
    requires ValidPlan(ts) && NoneRunning(ts) && Propagated(ts) == ts && AllCanBegin(ts)
    requires k < |ts| && !ts[k].Failing()
    ensures ts[k].id in Hopeful(ts)
  {
    PlanDependsOnEarlier(ts);
    HopefulIff(ts, k);
    if ts[k].Unsettled() {
      assert DependsWithin(ts[k], Ids(ts[..k])) && CanBegin(ts[k]);
      forall d | d in ts[k].dependencies ensures d in Hopeful(ts) {
        var j := IndexOf(ts[..k], d);
        NotFailing(ts, k, j);
        UndoomedIsHopeful(ts, j);
      }
    }
  }

  lemma NotFailing(ts: seq<Task>, k: nat, j: nat)
    requires UniqueIds(ts) && Propagated(ts) == ts && k < |ts| && j < |ts| && ts[k].Unsettled()
             && ts[j].id in ts[k].dependencies
    ensures !ts[j].Failing()
  {
    NothingDoomedAfterwards(ts, ts[k]);
    if ts[j].Failing() {
      DoomedByParent(ts, ts[k], ts[j]);
    }
  }

  lemma HopefulIsUndoomed(ts: seq<Task>)
    requires UniqueIds(ts) && DependsOnEarlier(ts)
    requires forall k :: 0 <= k < |ts| && ts[k].Unsettled() ==> ts[k].id in Hopeful(ts)
    ensures Propagated(ts) == ts
  {
    forall k | 0 <= k < |ts| ensures !Doomed(ts, ts[k]) {
      if Doomed(ts, ts[k]) {
        DoomedIsUnsettled(ts, ts[k]);
        DoomedIsHopeless(ts, ts[k]);
      }
    }
  }

  lemma HealthyHasSlack(e: Engine, s: State)
    requires Healthy(e, s)
    ensures Slack(e.budget, s) && NothingRefusable(e.budget, s.tasks) && Propagate(s) == s
  {
    PropagationKeepsPotential(e.budget, s);
    forall k | 0 <= k < |s.tasks| ensures !Refusable(e.budget, Hopeful(s.tasks), s.tasks[k]) {
      assert s.tasks[k].Unsettled() ==> CanBegin(s.tasks[k]);
    }
  }

  lemma WillingCall(e: Engine, s: State, i: nat)
    requires Healthy(e, s) && IsNext(s.tasks, i)
    ensures var s' := Called(e, s, i);
            && CanBegin(s.tasks[i]) && PlayRound(e, Go, s) == Next(s')
            && s'.tasks == s.tasks[i := s'.tasks[i]] && s'.tasks[i].Shape() == s.tasks[i].Shape()
            && s'.tasks[i].status.Succeeded? && s'.tasks[i].id == s.tasks[i].id
            && |s'.trace| == |s.trace| + 1 && s.trace <= s'.trace && s'.trace[|s.trace|].task.id == s.tasks[i].id
  {
    HealthyHasSlack(e, s);
    SelectedIsOrderly(s, i);
    assert CanBegin(s.tasks[i]) && Fits(e.budget, s.tasks[i]);
    NextIsUnique(s.tasks, i);
  }

  lemma HealthyAfterCall(e: Engine, s: State, i: nat)
    requires Healthy(e, s) && IsNext(s.tasks, i)
    ensures Healthy(e, Called(e, s, i))
  {
    var us := Called(e, s, i).tasks;
    WillingCall(e, s, i);
    HealthyHasSlack(e, s);
    SlackAfterRound(e, s);
    RoundKeepsNoneRunning(e, Go, s);
    CallUsesOne(e, s, i);
    forall k | 0 <= k < |us| && us[k].Unsettled() ensures CanBegin(us[k]) && us[k].id in Hopeful(us) {
      assert us[k] == s.tasks[k] && CanBegin(s.tasks[k]);
      UndoomedIsHopeful(s.tasks, k);
    }
    PlanDependsOnEarlier(us);
    HopefulIsUndoomed(us);
  }

  /** In a healthy run the first unsettled task can run, so some task is next. */
  lemma HealthyNext(e: Engine, s: State, f: nat) returns (first: nat, i: nat)
    requires Healthy(e, s) && f < |s.tasks| && s.tasks[f].Unsettled()
    ensures first <= f && s.tasks[first].Unsettled() && Runnable(s.tasks, s.tasks[first])
    ensures forall j :: 0 <= j < first ==> !s.tasks[j].Unsettled()
    ensures i < |s.tasks| && IsNext(s.tasks, i) && i >= first
  {
    first := FirstUnsettled(s.tasks, f);
    NothingDoomedAfterwards(s.tasks, s.tasks[first]);
    FirstUnsettledIsRunnable(s.tasks, first);
    i := LeastRunnable(s.tasks, first);
    assert Runnable(s.tasks, s.tasks[i]);
  }

  ghost predicate CallsFrom(trace: seq<Call>, n: nat, id: TaskId) {
    exists l :: n <= l < |trace| && trace[l].task.id == id
  }

  /** A healthy run calls every unsettled task. */
  lemma {:induction false} EveryTaskIsCalled(e: Engine, s: State, round: nat, maxRounds: nat, f: nat)
    requires Healthy(e, s) && round + Work(s.tasks) < maxRounds && f < |s.tasks| && s.tasks[f].Unsettled()
    ensures var o := Run(e, Uninterrupted(), s, round, maxRounds);
            s.trace <= o.state.trace && CallsFrom(o.state.trace, |s.trace|, s.tasks[f].id)
    decreases maxRounds - round
  {
    WorkBound(e.budget, s.tasks);
    OneRound(e, Uninterrupted(), s, round, maxRounds);
    var first, i := HealthyNext(e, s, f);
    WillingCall(e, s, i);
    HealthyAfterCall(e, s, i);
    WorkAfterRound(e, s);
    var s' := Called(e, s, i);
    var o := Run(e, Uninterrupted(), s', round + 1, maxRounds);
    var calls := RunAdvances(e, Uninterrupted(), s', round + 1, maxRounds);
    if i == f {
      assert o.state.trace[|s.trace|].task.id == s.tasks[f].id;
    } else {
      EveryTaskIsCalled(e, s', round + 1, maxRounds, f);
    }
  }

  // ----- An overtaken task is called late -----

  /** From position `m` on, `x` is called at some point and `y` later. */
  ghost predicate CalledBefore(trace: seq<Call>, m: nat, x: TaskId, y: TaskId) {
    exists k, l :: m <= k < l < |trace| && trace[k].task.id == x && trace[l].task.id == y
  }

  /** `f` is the first task of the plan that another can overtake. */
  ghost predicate FirstOvertaken(ts: seq<Task>, f: nat, j: nat) {
    Overtakes(ts, f, j) && forall a, b {:trigger Overtakes(ts, a, b)} :: Overtakes(ts, a, b) ==> f <= a
  }

  /**
   * When the overtaken task is the first unsettled one, the overtaking task can run, and the selection
   * is neither before nor at it.
   */
  lemma OvertakenIsPassed(e: Engine, s: State, f: nat, j: nat, i: nat)
    requires Healthy(e, s) && Overtakes(s.tasks, f, j) && IsNext(s.tasks, i)
    requires forall k :: 0 <= k < f ==> !s.tasks[k].Unsettled()
    ensures i > f
  {
    var ts := s.tasks;
    forall d | d in ts[j].dependencies ensures d in SucceededIds(ts) {
      if d in Ids(ts[..f]) {
        var k := IndexOf(ts[..f], d);
        assert ts[k].id == d;
        if ts[k].Failing() {
          DoomedByParent(ts, ts[j], ts[k]);
          NothingDoomedAfterwards(ts, ts[j]);
        }
      }
    }
    assert Runnable(ts, ts[j]) && Runnable(ts, ts[i]);
  }

  /** Otherwise the first unsettled task is next, and its success leaves the same tasks overtaking. */
  lemma FirstIsNext(e: Engine, s: State, f: nat, j: nat, first: nat, i: nat)
    requires Healthy(e, s) && FirstOvertaken(s.tasks, f, j) && first < f && IsNext(s.tasks, i)
    requires Runnable(s.tasks, s.tasks[first]) && forall k :: 0 <= k < first ==> !s.tasks[k].Unsettled()
    ensures i == first
    ensures FirstOvertaken(Called(e, s, i).tasks, f, j)
  {
    var ts := s.tasks;
    assert Runnable(ts, ts[i]) && i >= first;
    if i != first {
      assert ts[i].id != ts[first].id;
      assert Overtakes(ts, first, i);
    }
    WillingCall(e, s, i);
    var us := Called(e, s, i).tasks;
    StillOvertakes(ts, first, us[first], f, j);
    forall a: int, b: int ensures Overtakes(us, a, b) ==> Overtakes(ts, a, b) {
      if Overtakes(us, a, b) {
        OvertakesBefore(ts, first, us[first], a, b);
      }
    }
  }

  lemma StillOvertakes(ts: seq<Task>, first: nat, t: Task, f: nat, j: nat)
    requires first < f && Overtakes(ts, f, j) && t.status.Succeeded? && t.Shape() == ts[first].Shape()
    requires ts[first].Unsettled()
    ensures Overtakes(ts[first := t], f, j)
  {
    var us := ts[first := t];
    SameMaxAttempts(ts[first], t);
    assert Ids(us[..f]) == Ids(ts[..f]) by {
      assert forall i :: 0 <= i < f ==> us[..f][i].id == ts[..f][i].id;
    }
    forall d | d in SucceededIds(ts) ensures d in SucceededIds(us) {
      var k :| 0 <= k < |ts| && ts[k].status.Succeeded? && ts[k].id == d;
      assert us[k] == ts[k];
    }
  }

  lemma {:induction false} OvertakenIsCalledLate(e: Engine, s: State, f: nat, j: nat, round: nat, maxRounds: nat)
    returns (n: nat)
    requires Healthy(e, s) && FirstOvertaken(s.tasks, f, j) && round + Work(s.tasks) < maxRounds
    ensures f < n < |s.tasks|
    ensures CalledBefore(Run(e, Uninterrupted(), s, round, maxRounds).state.trace, |s.trace|, s.tasks[n].id,
                         s.tasks[f].id)
    decreases maxRounds - round
  {
    WorkBound(e.budget, s.tasks);
    OneRound(e, Uninterrupted(), s, round, maxRounds);
    var first, i := HealthyNext(e, s, f);
    WillingCall(e, s, i);
    HealthyAfterCall(e, s, i);
    WorkAfterRound(e, s);
    var s' := Called(e, s, i);
    if first == f {
      OvertakenIsPassed(e, s, f, j, i);
      n := i;
      EveryTaskIsCalled(e, s', round + 1, maxRounds, f);
      var trace := Run(e, Uninterrupted(), s', round + 1, maxRounds).state.trace;
      var l :| |s'.trace| <= l < |trace| && trace[l].task.id == s.tasks[f].id;
      assert trace[|s.trace|].task.id == s.tasks[n].id;
    } else {
      FirstIsNext(e, s, f, j, first, i);
      n := OvertakenIsCalledLate(e, s', f, j, round + 1, maxRounds);
    }
  }

  // ----- The exact condition -----

  /** The new calls of a run, with adjacent repetitions merged, are the plan restricted to the called tasks. */
  ghost predicate InPlanOrder(s: State, o: Outcome) {
    Collapse(TraceIds(NewCalls(s, o))) == CalledIds(s.tasks, NewCalls(s, o))
  }

  lemma NotBackwards(ts: seq<Task>, calls: seq<Call>, f: nat, n: nat)
    requires UniqueIds(ts) && f < n < |ts|
    ensures !Precedes(CalledIds(ts, calls), ts[n].id, ts[f].id)
  {
    if Precedes(CalledIds(ts, calls), ts[n].id, ts[f].id) {
      var a, b := CalledIdsInPlanOrder(ts, calls, ts[n].id, ts[f].id);
    }
  }

  lemma CalledBeforeBreaksOrder(s: State, o: Outcome, f: nat, n: nat)
    requires UniqueIds(s.tasks) && f < n < |s.tasks| && |s.trace| <= |o.state.trace|
    requires CalledBefore(o.state.trace, |s.trace|, s.tasks[n].id, s.tasks[f].id)
    ensures !InPlanOrder(s, o)
  {
    var calls, trace, x, y := NewCalls(s, o), o.state.trace, s.tasks[n].id, s.tasks[f].id;
    var k, l :| |s.trace| <= k < l < |trace| && trace[k].task.id == x && trace[l].task.id == y;
    TraceIdsAt(calls, k - |s.trace|);
    TraceIdsAt(calls, l - |s.trace|);
    assert Precedes(TraceIds(calls), x, y);
    CollapseKeepsPrecedes(TraceIds(calls), x, y);
    NotBackwards(s.tasks, calls, f, n);
  }

  lemma {:induction false} LeastOvertaken(ts: seq<Task>, f: nat, j: nat) returns (f': nat, j': nat)
    requires Overtakes(ts, f, j)
    ensures FirstOvertaken(ts, f', j')
    decreases f
  {
    if c, d :| Overtakes(ts, c, d) && c < f {
      f', j' := LeastOvertaken(ts, c, d);
    } else {
      f', j' := f, j;
    }
  }

  /** Propagating failures before a run changes nothing of it. */
  lemma RunOfPropagated(e: Engine, s: State)
    requires Good(e.budget, s) && Slack(e.budget, s)
    ensures RunPlan(e, Uninterrupted(), s) == RunPlan(e, Uninterrupted(), Propagate(s))
  {
    var p, max := Propagate(s), MaxRounds(e.budget, |s.tasks|);
    PropagationIsIdempotent(s.tasks);
    assert Propagate(p) == p;
    OneRound(e, Uninterrupted(), s, 0, max);
    OneRound(e, Uninterrupted(), p, 0, max);
  }

  /** When a task can overtake another, the executor whose every call succeeds makes the run leave the plan order. */
  lemma OvertakingBreaksOrder(e: Engine, s: State, f: nat, j: nat)
    requires Good(e.budget, s) && NoneRunning(s.tasks) && AllCanBegin(Propagated(s.tasks)) && HasSlack(e.budget, s)
    requires e.execute == Willing() && Overtakes(Propagated(s.tasks), f, j)
    ensures !InPlanOrder(s, RunPlan(e, Uninterrupted(), s))
  {
    var p := Propagate(s);
    PropagationKeepsPotential(e.budget, s);
    PropagationIsIdempotent(s.tasks);
    PropagationIsQuiet(s.tasks);
    var f', j' := LeastOvertaken(p.tasks, f, j);
    WorkBound(e.budget, p.tasks);
    RunOfPropagated(e, s);
    var n := OvertakenIsCalledLate(e, p, f', j', 0, MaxRounds(e.budget, |p.tasks|));
    assert QuietChange(s.tasks[f'], p.tasks[f']) && QuietChange(s.tasks[n], p.tasks[n]);
    SameMaxAttempts(s.tasks[f'], p.tasks[f']);
    SameMaxAttempts(s.tasks[n], p.tasks[n]);
    RunPlanAdvances(e, Uninterrupted(), s);
    CalledBeforeBreaksOrder(s, RunPlan(e, Uninterrupted(), s), f', n);
  }

  /**
   * With caps and attempts to spare, the calls of an uninterrupted run follow the plan order for every
   * executor if and only if no task can overtake another once failures are propagated.
   */
  lemma PlanOrderForEveryExecutorIff(b: Budget, company: Company, s: State)
    requires Good(b, s) && NoneRunning(s.tasks) && AllCanBegin(Propagated(s.tasks)) && HasSlack(b, s)
    ensures NoOvertaking(Propagated(s.tasks)) <==>
              forall execute: (nat, Task) -> TaskResult ::
                InPlanOrder(s, RunPlan(Engine(b, company, execute), Uninterrupted(), s))
  {
    if NoOvertaking(Propagated(s.tasks)) {
      forall execute: (nat, Task) -> TaskResult
        ensures InPlanOrder(s, RunPlan(Engine(b, company, execute), Uninterrupted(), s))
      {
        CallsFollowPlanOrder(Engine(b, company, execute), Uninterrupted(), s);
      }
    } else {
      var f, j :| Overtakes(Propagated(s.tasks), f, j);
      OvertakingBreaksOrder(Engine(b, company, Willing()), s, f, j);
    }
  }

  // ----- A plan in which a task is overtaken -----

  const SLOW := Task(1, [], Pending, 5, true, 0, 1)
  const DONE := Task(2, [], Succeeded, 9, true, 1, 1)
  const URGENT := Task(3, [2], Pending, 1, true, 0, 1)

  const URGENT_PLAN := [SLOW, DONE, URGENT]

  lemma UrgentIds()
    ensures Ids(URGENT_PLAN) == {1, 2, 3} && SucceededIds(URGENT_PLAN) == {2}
    ensures Ids(URGENT_PLAN[..0]) == {} && Ids(URGENT_PLAN[..1]) == {1} && Ids(URGENT_PLAN[..2]) == {1, 2}
  {
    var one, two := URGENT_PLAN[..1], URGENT_PLAN[..2];
    assert URGENT_PLAN[0].id == 1 && URGENT_PLAN[1].id == 2 && URGENT_PLAN[2].id == 3;
    assert one[0].id == 1 && two[0].id == 1 && two[1].id == 2;
  }

  lemma UrgentIsGraph()
    ensures ValidGraph(URGENT_PLAN)
  {
    UrgentIds();
    hide Ids, SucceededIds;
    var rank: map<TaskId, nat> := map[1 := 0, 2 := 0, 3 := 1];
    forall i | 0 <= i < |URGENT_PLAN|
      ensures RanksAbove(URGENT_PLAN[i], rank)
      ensures DependsWithin(URGENT_PLAN[i], {1, 2, 3}) && Distinct(URGENT_PLAN[i].dependencies)
    {
    }
    assert Ranked(URGENT_PLAN, rank);
  }

  lemma UrgentIsPlan()
    ensures ValidPlan(URGENT_PLAN)
  {
    UrgentIds();
    UrgentIsGraph();
    hide Ids, SucceededIds, ValidGraph;
    forall i | 0 <= i < |URGENT_PLAN| ensures GreedyChoice(URGENT_PLAN, Ids(URGENT_PLAN[..i]), URGENT_PLAN[i]) {
      assert 2 in URGENT_PLAN[2].dependencies;
    }
  }

  /** The second task has succeeded already, so the urgent third overtakes the first. */
  lemma UrgentOvertakes()
    ensures ValidPlan(URGENT_PLAN) && forall i :: 0 <= i < |URGENT_PLAN| ==> Constructible(URGENT_PLAN[i])
    ensures Overtakes(URGENT_PLAN, 0, 2) && NextIndex(URGENT_PLAN) == 2
  {
    UrgentIds();
    UrgentIsPlan();
    hide Ids, SucceededIds, GreedyPrefix;
    assert Runnable(URGENT_PLAN, URGENT_PLAN[2]);
    assert IsNext(URGENT_PLAN, 2);
    NextIsUnique(URGENT_PLAN, 2);
  }

  lemma {:induction false} DependenciesAreIds(ts: seq<Task>, all: set<TaskId>, id: TaskId, d: TaskId)
    requires (forall i {:trigger DependsWithin(ts[i], all)} :: 0 <= i < |ts| ==> DependsWithin(ts[i], all))
             && d in DependenciesOf(ts, id)
    ensures d in all
  {
    if ts != [] {
      var shorter, last := ts[..|ts| - 1], ts[|ts| - 1];
      forall i | 0 <= i < |shorter| ensures DependsWithin(shorter[i], all) {
        assert DependsWithin(ts[i], all);
      }
      assert DependsWithin(ts[|ts| - 1], all);
      if last.id != id {
        DependenciesAreIds(shorter, all, id, d);
      }
    }
  }

  /** A task of a closed graph has no more ancestors than there are tasks. */
  lemma DepthIsBounded(ts: seq<Task>, i: nat)
    requires ClosedDependencies(ts) && i < |ts|
    ensures Depth(ts, ts[i]) <= 1 + |Ids(ts)|
  {
    var start := ts[i].dependencies;
    assert DependsWithin(ts[i], Ids(ts));
    forall x | Reaches(ts, start, x) ensures x in Ids(ts) {
      var path :| Walk(ts, start, path) && path[|path| - 1] == x;
      if |path| > 1 {
        DependenciesAreIds(ts, Ids(ts), path[|path| - 2], x);
      }
    }
    SubsetSize(Ancestors(ts, start), Ids(ts));
  }

  lemma SubsetSize<T>(a: set<T>, b: set<T>)
    requires a <= b
    ensures |a| <= |b|
  {
    assert b == a + (b - a);
  }

  function UrgentEngine(): Engine {
    Engine(Budget(3, 1, 9, 9, 9), Company(0, {}, {}), Willing())
  }

  lemma UrgentIsAccepted()
    ensures Accepts(UrgentEngine().budget, URGENT_PLAN)
  {
    UrgentIsGraph();
    UrgentIds();
    var plan := URGENT_PLAN;
    forall i | 0 <= i < |plan| ensures TaskWithin(UrgentEngine().budget, plan, plan[i]) {
      DepthIsBounded(plan, i);
    }
    var one, two := plan[..1], plan[..2];
    assert two[..1] == one && one[..0] == [];
    assert SumMaxAttempts(one) == 1 && SumMaxAttempts(two) == 2;
  }

  lemma DoomedNeedsFailure(ts: seq<Task>, t: Task)
    ensures Doomed(ts, t) ==> exists j :: 0 <= j < |ts| && ts[j].Failing()
  {
    if chain :| FailureChain(ts, chain) && chain[0] == t {
      assert chain[|chain| - 1] in ts;
    }
  }

  lemma UrgentHasSlack(hope: set<TaskId>)
    ensures Propagated(URGENT_PLAN) == URGENT_PLAN && AllCanBegin(URGENT_PLAN) && PotentialIn(URGENT_PLAN, hope) <= 2
  {
    var plan := URGENT_PLAN;
    forall i | 0 <= i < |plan| ensures Propagated(plan)[i] == plan[i] {
      DoomedNeedsFailure(plan, plan[i]);
    }
    var one, two := plan[..1], plan[..2];
    assert two[..1] == one && one[..0] == [];
    assert PotentialIn(one, hope) <= 1 && PotentialIn(two, hope) <= 1;
  }

  /** An accepted plan whose run calls the third task before the first. */
  lemma UrgentPlanLeavesOrder()
    ensures var e, plan := UrgentEngine(), URGENT_PLAN;
            var s := StartState(plan, 0, 0, [], [], []);
            && ValidPlan(plan) && Accepts(e.budget, plan) && (forall i :: 0 <= i < |plan| ==> Constructible(plan[i]))
            && !InPlanOrder(s, RunPlan(e, Uninterrupted(), s))
  {
    UrgentOvertakes();
    UrgentIsAccepted();
    UrgentHasSlack(Hopeful(URGENT_PLAN));
    var e, s := UrgentEngine(), StartState(URGENT_PLAN, 0, 0, [], [], []);
    StartIsGood(e.budget, URGENT_PLAN, 0, 0, [], [], []);
    assert NoneRunning(URGENT_PLAN);
    assert HasSlack(e.budget, s);
    hide ValidPlan, Accepts, Good, Propagated, AllCanBegin, HasSlack, Overtakes, RunPlan, InPlanOrder;
    OvertakingBreaksOrder(e, s, 0, 2);
  }
}
