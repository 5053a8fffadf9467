/** What every run keeps: dependency safety, attempt conservation, and absorbing final statuses. */
module RunSafety {
  import opened Outcomes
  import opened ResearchTasks
  import opened TaskSteps
  import opened TaskGraph
  import opened TopologicalOrder
  import opened ResearchPlans
  import opened Scheduling
  import opened ExecutionBudgets
  import opened TaskResults
  import opened PlanExecution

  // ----- The invariant of a state -----

  predicate Fits(b: Budget, t: Task) {
    0 <= t.attemptCount <= t.maxAttempts <= b.maxAttemptsPerTask
  }

  ghost predicate AllFit(b: Budget, ts: seq<Task>) {
    forall i {:trigger Fits(b, ts[i])} :: 0 <= i < |ts| ==> Fits(b, ts[i])
  }

  /** A plan within its budget whose record of finished tasks is up to date. */
  ghost predicate Good(b: Budget, s: State) {
    && ValidPlan(s.tasks)
    && AllFit(b, s.tasks)
    && s.succeeded == SucceededIds(s.tasks)
  }

  lemma StartIsGood(b: Budget, plan: seq<Task>, totalAttempts: nat, externalCalls: nat, results: seq<TaskResult>,
                    warnings: seq<Warning>, trace: seq<Call>)
    requires ValidPlan(plan) && Accepts(b, plan) && forall i :: 0 <= i < |plan| ==> Constructible(plan[i])
    ensures Good(b, StartState(plan, totalAttempts, externalCalls, results, warnings, trace))
  {
    forall i | 0 <= i < |plan| ensures Fits(b, plan[i]) {
      assert TaskWithin(b, plan, plan[i]);
    }
  }

  // ----- What a run adds -----

  predicate Succeeds(c: Call) {
    TaskStatusOf(c.result.status).Succeeded?
  }

  /** The identities finished at the start or by one of the calls. */
  ghost function SucceededBy(start: set<TaskId>, calls: seq<Call>): set<TaskId> {
    if calls == [] then start
    else
      var last := calls[|calls| - 1];
      SucceededBy(start, calls[..|calls| - 1]) + (if Succeeds(last) then {last.task.id} else {})
  }

  /** Call `k` runs a task whose dependencies have all succeeded and which has not succeeded itself. */
  ghost predicate OrderlyCall(start: set<TaskId>, calls: seq<Call>, k: nat)
    requires k < |calls|
  {
    && calls[k].task.status.Running?
    && DependsWithin(calls[k].task, SucceededBy(start, calls[..k]))
    && calls[k].task.id !in SucceededBy(start, calls[..k])
  }

  ghost predicate OrderlyCalls(start: set<TaskId>, calls: seq<Call>) {
    forall k {:trigger OrderlyCall(start, calls, k)} :: 0 <= k < |calls| ==> OrderlyCall(start, calls, k)
  }

  ghost function CallsTo(id: TaskId, calls: seq<Call>): nat {
    if calls == [] then 0
    else CallsTo(id, calls[..|calls| - 1]) + (if calls[|calls| - 1].task.id == id then 1 else 0)
  }

  ghost function SumAttempts(ts: seq<Task>): int {
    if ts == [] then 0 else SumAttempts(ts[..|ts| - 1]) + ts[|ts| - 1].attemptCount
  }

  /** One task between two states: settled ones stay, and attempts grow by the calls made to it. */
  ghost predicate TaskAdvances(before: Task, after: Task, calls: seq<Call>) {
    && after.Shape() == before.Shape()
    && (!before.Unsettled() ==> after == before)
    && after.attemptCount == before.attemptCount + CallsTo(before.id, calls)
  }

  ghost predicate TasksAdvance(a: seq<Task>, b: seq<Task>, calls: seq<Call>) {
    && |a| == |b|
    && (forall i {:trigger TaskAdvances(a[i], b[i], calls)} :: 0 <= i < |a| ==> TaskAdvances(a[i], b[i], calls))
  }

  /** `s'` follows from `s` by rounds that made exactly `calls`. */
  ghost predicate Advances(s: State, s': State, calls: seq<Call>) {
    && s'.trace == s.trace + calls
    && s'.totalAttempts == s.totalAttempts + |calls|
    && s'.externalCalls == s.externalCalls + |calls|
    && SumAttempts(s'.tasks) == SumAttempts(s.tasks) + |calls|
    && TasksAdvance(s.tasks, s'.tasks, calls)
    && OrderlyCalls(s.succeeded, calls)
    && s'.succeeded == SucceededBy(s.succeeded, calls)
  }

  lemma {:induction false} CallsToAppend(id: TaskId, a: seq<Call>, b: seq<Call>)
    ensures CallsTo(id, a + b) == CallsTo(id, a) + CallsTo(id, b)
  {
    if b == [] {
      assert a + b == a;
    } else {
      assert (a + b)[..|a + b| - 1] == a + b[..|b| - 1];
      CallsToAppend(id, a, b[..|b| - 1]);
    }
  }

  lemma {:induction false} SucceededByAppend(start: set<TaskId>, a: seq<Call>, b: seq<Call>)
    ensures SucceededBy(start, a + b) == SucceededBy(SucceededBy(start, a), b)
  {
    if b == [] {
      assert a + b == a;
    } else {
      assert (a + b)[..|a + b| - 1] == a + b[..|b| - 1];
      SucceededByAppend(start, a, b[..|b| - 1]);
    }
  }

  lemma OrderlyAppend(start: set<TaskId>, a: seq<Call>, b: seq<Call>)
    requires OrderlyCalls(start, a) && OrderlyCalls(SucceededBy(start, a), b)
    ensures OrderlyCalls(start, a + b)
  {
    var calls := a + b;
    forall k | 0 <= k < |calls| ensures OrderlyCall(start, calls, k) {
      if k < |a| {
        assert calls[..k] == a[..k];
        assert OrderlyCall(start, a, k);
      } else {
        assert calls[..k] == a + b[..k - |a|];
        SucceededByAppend(start, a, b[..k - |a|]);
        assert OrderlyCall(SucceededBy(start, a), b, k - |a|);
      }
    }
  }

  lemma AdvancesCompose(s: State, m: State, s': State, a: seq<Call>, b: seq<Call>)
    requires Advances(s, m, a) && Advances(m, s', b)
    ensures Advances(s, s', a + b)
  {
    SucceededByAppend(s.succeeded, a, b);
    OrderlyAppend(s.succeeded, a, b);
    forall i | 0 <= i < |s.tasks| ensures TaskAdvances(s.tasks[i], s'.tasks[i], a + b) {
      assert TaskAdvances(s.tasks[i], m.tasks[i], a) && TaskAdvances(m.tasks[i], s'.tasks[i], b);
      ShapeDecidesChoice(s.tasks[i], m.tasks[i], {});
      CallsToAppend(s.tasks[i].id, a, b);
    }
  }

  // ----- Steps that make no call -----

  lemma {:induction false} SumAttemptsEqual(a: seq<Task>, b: seq<Task>)
    requires |a| == |b| && forall i :: 0 <= i < |a| ==> a[i].attemptCount == b[i].attemptCount
    ensures SumAttempts(a) == SumAttempts(b)
  {
    if a != [] {
      SumAttemptsEqual(a[..|a| - 1], b[..|b| - 1]);
    }
  }

  lemma {:induction false} SumAttemptsUpdate(ts: seq<Task>, i: nat, t: Task)
    requires i < |ts|
    ensures SumAttempts(ts[i := t]) == SumAttempts(ts) - ts[i].attemptCount + t.attemptCount
  {
    var shorter := ts[..|ts| - 1];
    if i < |ts| - 1 {
      assert ts[i := t][..|ts| - 1] == shorter[i := t];
      SumAttemptsUpdate(shorter, i, t);
    } else {
      assert ts[i := t][..|ts| - 1] == shorter;
    }
  }

  /** Statuses of unsettled tasks may change to anything but SUCCEEDED; attempts stay. */
  ghost predicate QuietChange(before: Task, after: Task) {
    && after.Shape() == before.Shape()
    && after.attemptCount == before.attemptCount
    && (!before.Unsettled() ==> after == before)
    && (after.status.Succeeded? ==> before.status.Succeeded?)
  }

  ghost predicate QuietChanges(a: seq<Task>, b: seq<Task>) {
    |a| == |b| && forall i {:trigger QuietChange(a[i], b[i])} :: 0 <= i < |a| ==> QuietChange(a[i], b[i])
  }

  lemma QuietChangesAdvance(b: Budget, s: State, tasks: seq<Task>)
    requires Good(b, s) && QuietChanges(s.tasks, tasks)
    ensures Good(b, s.(tasks := tasks)) && Advances(s, s.(tasks := tasks), [])
  {
    forall i | 0 <= i < |tasks|
      ensures TaskAdvances(s.tasks[i], tasks[i], []) && Fits(b, tasks[i]) && tasks[i].Shape() == s.tasks[i].Shape()
    {
      assert QuietChange(s.tasks[i], tasks[i]) && Fits(b, s.tasks[i]);
      SameMaxAttempts(s.tasks[i], tasks[i]);
    }
    SameShapesSamePlan(s.tasks, tasks);
    SumAttemptsEqual(s.tasks, tasks) by {
      forall i | 0 <= i < |tasks| ensures s.tasks[i].attemptCount == tasks[i].attemptCount {
        assert QuietChange(s.tasks[i], tasks[i]);
      }
    }
    SameSucceeded(s.tasks, tasks);
  }

  lemma SameMaxAttempts(a: Task, b: Task)
    requires a.Shape() == b.Shape()
    ensures a.maxAttempts == b.maxAttempts && a.required == b.required && a.id == b.id
  {
    assert a.Shape().maxAttempts == a.maxAttempts && b.Shape().maxAttempts == b.maxAttempts;
    assert a.Shape().required == a.required && b.Shape().required == b.required;
    assert a.Shape().id == a.id && b.Shape().id == b.id;
  }

  lemma SameSucceeded(a: seq<Task>, b: seq<Task>)
    requires QuietChanges(a, b)
    ensures SucceededIds(a) == SucceededIds(b)
  {
    forall i | 0 <= i < |a|
      ensures a[i].id == b[i].id && (a[i].status.Succeeded? <==> b[i].status.Succeeded?)
    {
      assert QuietChange(a[i], b[i]);
      SameMaxAttempts(a[i], b[i]);
    }
  }

  lemma PropagationIsQuiet(ts: seq<Task>)
    ensures QuietChanges(ts, Propagated(ts))
  {
  }

  lemma SkippingIsQuiet(ts: seq<Task>)
    ensures QuietChanges(ts, SkipUnsettled(ts))
  {
  }

  lemma FinalizingIsQuiet(ts: seq<Task>)
    ensures QuietChanges(ts, Finalized(ts))
  {
  }

  lemma UpdateIsQuiet(ts: seq<Task>, i: nat, t: Task)
    requires i < |ts| && QuietChange(ts[i], t)
    ensures QuietChanges(ts, ts[i := t])
  {
    forall k | 0 <= k < |ts| ensures QuietChange(ts[k], ts[i := t][k]) {}
  }

  // ----- A step that calls the executor -----

  lemma SucceededAfterUpdate(ts: seq<Task>, i: nat, t: Task)
    requires UniqueIds(ts) && i < |ts| && t.id == ts[i].id && !ts[i].status.Succeeded?
    ensures SucceededIds(ts[i := t]) == SucceededIds(ts) + (if t.status.Succeeded? then {t.id} else {})
  {
    var us := ts[i := t];
    forall k | 0 <= k < |ts| && us[k].status.Succeeded?
      ensures us[k].id in SucceededIds(ts) + (if t.status.Succeeded? then {t.id} else {})
    {
      if k != i { assert ts[k] == us[k]; }
    }
    forall k | 0 <= k < |ts| && ts[k].status.Succeeded? ensures ts[k].id in SucceededIds(us) {
      assert us[k] == ts[k];
    }
    if t.status.Succeeded? { assert us[i].status.Succeeded?; }
  }

  lemma SelectedIsOrderly(s: State, i: nat)
    requires UniqueIds(s.tasks) && s.succeeded == SucceededIds(s.tasks) && IsNext(s.tasks, i)
    ensures DependsWithin(s.tasks[i], s.succeeded)
    ensures s.tasks[i].id !in s.succeeded
    ensures s.tasks[i].Unsettled()
  {
    assert Runnable(s.tasks, s.tasks[i]);
    forall k | 0 <= k < |s.tasks| && s.tasks[k].status.Succeeded? ensures s.tasks[k].id != s.tasks[i].id {}
  }

  lemma CallAdvances(e: Engine, s: State, i: nat)
    requires Good(e.budget, s) && IsNext(s.tasks, i)
    requires s.tasks[i].attemptCount + 1 <= s.tasks[i].maxAttempts
    ensures Good(e.budget, Called(e, s, i))
    ensures var running := Started(s.tasks[i]);
            Advances(s, Called(e, s, i), [Call(running, CallResult(e, |s.trace|, running))])
  {
    var t := s.tasks[i];
    var running := Started(t);
    var result := CallResult(e, |s.trace|, running);
    var after := AfterCall(e.budget, running, result, s.totalAttempts + 1);
    var call := Call(running, result);
    var s' := Called(e, s, i);
    SelectedIsOrderly(s, i);
    assert [call][..0] == [];
    assert OrderlyCall(s.succeeded, [call], 0);
    forall k | 0 <= k < |s.tasks|
      ensures TaskAdvances(s.tasks[k], s'.tasks[k], [call]) && Fits(e.budget, s'.tasks[k])
      ensures s'.tasks[k].Shape() == s.tasks[k].Shape()
    {
      assert Fits(e.budget, s.tasks[k]);
      if k != i { assert s.tasks[k].id != t.id; }
    }
    SameShapesSamePlan(s.tasks, s'.tasks);
    SumAttemptsUpdate(s.tasks, i, after);
    SucceededAfterUpdate(s.tasks, i, after);
    assert Succeeds(call) <==> after.status.Succeeded?;
  }

  // ----- Rounds -----

  lemma QuietRound(b: Budget, s: State, s': State)
    requires Good(b, s) && QuietChanges(s.tasks, s'.tasks)
    requires s'.succeeded == s.succeeded && s'.trace == s.trace
    requires s'.totalAttempts == s.totalAttempts && s'.externalCalls == s.externalCalls
    ensures Good(b, s') && Advances(s, s', [])
  {
    QuietChangesAdvance(b, s, s'.tasks);
  }

  lemma NothingChangesQuietly(ts: seq<Task>)
    ensures QuietChanges(ts, ts)
  {
    forall i | 0 <= i < |ts| ensures QuietChange(ts[i], ts[i]) {}
  }

  ghost predicate DeadHalt(halt: Halt) {
    halt.CallsWouldExceed? || halt.AttemptsWouldExceed?
  }

  /** The round of a selected task makes one call within both caps, or none. */
  lemma AttemptAdvances(e: Engine, s: State, i: nat) returns (calls: seq<Call>)
    requires Good(e.budget, s) && IsNext(s.tasks, i)
    requires s.totalAttempts < e.budget.maxTotalAttempts && s.externalCalls < e.budget.maxExternalCalls
    ensures Good(e.budget, Attempt(e, s, i).state) && Advances(s, Attempt(e, s, i).state, calls)
    ensures |calls| <= 1
    ensures Attempt(e, s, i).Stop? ==> !DeadHalt(Attempt(e, s, i).halt)
    ensures Attempt(e, s, i) == Next(Called(e, s, i)) || calls == []
    ensures Attempt(e, s, i).state.warnings == s.warnings ||
            exists w: Warning :: !w.DuplicatePrevented? && Attempt(e, s, i).state.warnings == s.warnings + [w]
  {
    var t := s.tasks[i];
    SelectedIsOrderly(s, i);
    assert Fits(e.budget, t);
    NothingChangesQuietly(s.tasks);
    if t.attemptCount >= e.budget.maxAttemptsPerTask {
      UpdateIsQuiet(s.tasks, i, EndWithoutCall(t));
      QuietRound(e.budget, s, Attempt(e, s, i).state);
      calls := [];
    } else if t.attemptCount + 1 > t.maxAttempts {
      QuietRound(e.budget, s, Attempt(e, s, i).state);
      assert Attempt(e, s, i).state.warnings == s.warnings + [StartRefusal(AttemptsExceeded)];
      calls := [];
    } else {
      CallAdvances(e, s, i);
      var running := Started(t);
      calls := [Call(running, CallResult(e, |s.trace|, running))];
      if CallResult(e, |s.trace|, running).status.Partial? {
        assert Called(e, s, i).warnings == s.warnings + [PartialResult(t.id)];
      } else {
        assert Called(e, s, i).warnings == s.warnings;
      }
    }
  }

  ghost predicate KnownDuplicates(before: seq<Warning>, after: seq<Warning>) {
    forall w :: w in after && w.DuplicatePrevented? ==> w in before
  }

  lemma RoundAdvances(e: Engine, control: Control, s: State) returns (calls: seq<Call>)
    requires Good(e.budget, s)
    ensures Good(e.budget, PlayRound(e, control, s).state)
    ensures Advances(s, PlayRound(e, control, s).state, calls)
    ensures |calls| <= 1
    ensures calls != [] ==> s.totalAttempts < e.budget.maxTotalAttempts && s.externalCalls < e.budget.maxExternalCalls
    ensures PlayRound(e, control, s).Stop? ==> !DeadHalt(PlayRound(e, control, s).halt)
    ensures KnownDuplicates(s.warnings, PlayRound(e, control, s).state.warnings)
  {
    var round := PlayRound(e, control, s);
    calls := [];
    NothingChangesQuietly(s.tasks);
    if control.Cancel? {
      SkippingIsQuiet(s.tasks);
      QuietRound(e.budget, s, round.state);
    } else if control.Pause? || s.totalAttempts >= e.budget.maxTotalAttempts
      || s.externalCalls >= e.budget.maxExternalCalls {
      QuietRound(e.budget, s, round.state);
    } else {
      PropagationIsQuiet(s.tasks);
      var p := Propagate(s);
      QuietRound(e.budget, s, p);
      calls := ScheduledAdvances(e, p);
      AdvancesCompose(s, p, round.state, [], calls);
      assert [] + calls == calls;
    }
  }

  lemma ScheduledAdvances(e: Engine, s: State) returns (calls: seq<Call>)
    requires Good(e.budget, s)
    requires s.totalAttempts < e.budget.maxTotalAttempts && s.externalCalls < e.budget.maxExternalCalls
    ensures Good(e.budget, Scheduled(e, s).state) && Advances(s, Scheduled(e, s).state, calls)
    ensures |calls| <= 1
    ensures Scheduled(e, s).Stop? ==> !DeadHalt(Scheduled(e, s).halt)
    ensures KnownDuplicates(s.warnings, Scheduled(e, s).state.warnings)
  {
    var i := NextIndex(s.tasks);
    if 0 <= i < |s.tasks| {
      assert IsNext(s.tasks, i);
      calls := AttemptAdvances(e, s, i);
    } else {
      FinalizingIsQuiet(s.tasks);
      QuietRound(e.budget, s, Scheduled(e, s).state);
      calls := [];
    }
  }

  // ----- Whole runs -----

  /** Within both caps, if they were respected before. */
  predicate WithinCaps(b: Budget, s: State) {
    s.totalAttempts <= b.maxTotalAttempts && s.externalCalls <= b.maxExternalCalls
  }

  lemma {:induction false} RunAdvances(e: Engine, poll: nat -> Control, s: State, round: nat, maxRounds: nat)
    returns (calls: seq<Call>)
    requires Good(e.budget, s)
    ensures var o := Run(e, poll, s, round, maxRounds);
            && Good(e.budget, o.state)
            && Advances(s, o.state, calls)
            && !DeadHalt(o.halt)
            && KnownDuplicates(s.warnings, o.state.warnings)
            && (WithinCaps(e.budget, s) ==> WithinCaps(e.budget, o.state))
    decreases maxRounds - round
  {
    var o := Run(e, poll, s, round, maxRounds);
    if round >= maxRounds {
      NothingChangesQuietly(s.tasks);
      QuietRound(e.budget, s, o.state);
      calls := [];
    } else {
      var first := RoundAdvances(e, poll(round + 1), s);
      var played := PlayRound(e, poll(round + 1), s);
      if played.Next? {
        var rest := RunAdvances(e, poll, played.state, round + 1, maxRounds);
        AdvancesCompose(s, played.state, o.state, first, rest);
        calls := first + rest;
      } else {
        calls := first;
      }
    }
  }

  /** The calls a run adds to the record. */
  ghost function NewCalls(s: State, o: Outcome): seq<Call> {
    if |s.trace| <= |o.state.trace| then o.state.trace[|s.trace|..] else []
  }

  lemma RunPlanAdvances(e: Engine, poll: nat -> Control, s: State)
    requires Good(e.budget, s)
    ensures var o := RunPlan(e, poll, s);
            Good(e.budget, o.state) && Advances(s, o.state, NewCalls(s, o))
  {
    var calls := RunAdvances(e, poll, s, 0, MaxRounds(e.budget, |s.tasks|));
    assert NewCalls(s, RunPlan(e, poll, s)) == calls;
  }

  /**
   * Dependency safety of whole runs, for any executor and any control: every call runs a task
   * whose dependencies have all succeeded before that call, a task that has succeeded is never
   * called again, and the guard against duplicate execution never fires.
   */
  lemma DependencySafety(e: Engine, poll: nat -> Control, s: State)
    requires Good(e.budget, s)
    ensures var o := RunPlan(e, poll, s);
            var calls := NewCalls(s, o);
            && (forall k :: 0 <= k < |calls| ==> DependsWithin(calls[k].task, SucceededBy(s.succeeded, calls[..k])))
            && (forall j, k :: 0 <= j < k < |calls| && Succeeds(calls[j]) ==> calls[k].task.id != calls[j].task.id)
            && (forall k :: 0 <= k < |calls| ==> calls[k].task.id !in s.succeeded)
            && KnownDuplicates(s.warnings, o.state.warnings)
  {
    var o := RunPlan(e, poll, s);
    var calls := NewCalls(s, o);
    RunPlanAdvances(e, poll, s);
    var same := RunAdvances(e, poll, s, 0, MaxRounds(e.budget, |s.tasks|));
    forall k | 0 <= k < |calls|
      ensures DependsWithin(calls[k].task, SucceededBy(s.succeeded, calls[..k])) && calls[k].task.id !in s.succeeded
    {
      assert OrderlyCall(s.succeeded, calls, k);
      StartStaysSucceeded(s.succeeded, calls[..k]);
    }
    forall j, k | 0 <= j < k < |calls| && Succeeds(calls[j]) ensures calls[k].task.id != calls[j].task.id {
      assert OrderlyCall(s.succeeded, calls, k);
      CallStaysSucceeded(s.succeeded, calls[..k], j);
    }
  }

  lemma {:induction false} StartStaysSucceeded(start: set<TaskId>, calls: seq<Call>)
    ensures start <= SucceededBy(start, calls)
  {
    if calls != [] {
      StartStaysSucceeded(start, calls[..|calls| - 1]);
    }
  }

  lemma {:induction false} CallStaysSucceeded(start: set<TaskId>, calls: seq<Call>, j: nat)
    requires j < |calls| && Succeeds(calls[j])
    ensures calls[j].task.id in SucceededBy(start, calls)
  {
    if j < |calls| - 1 {
      CallStaysSucceeded(start, calls[..|calls| - 1], j);
    }
  }

  /** A settled task is never touched again, whatever its status: SUCCEEDED, FAILED, SKIPPED and BLOCKED are final. */
  lemma SettledTasksAreFinal(e: Engine, poll: nat -> Control, s: State, i: nat)
    requires Good(e.budget, s) && i < |s.tasks| && !s.tasks[i].Unsettled()
    ensures var o := RunPlan(e, poll, s);
            |o.state.tasks| == |s.tasks| && o.state.tasks[i] == s.tasks[i]
  {
    RunPlanAdvances(e, poll, s);
    var o := RunPlan(e, poll, s);
    assert TaskAdvances(s.tasks[i], o.state.tasks[i], NewCalls(s, o));
  }

  /**
   * Attempt conservation: executor calls, the growth of both counters and the growth of the summed
   * attempt counts are one number; each task's count grows by the calls made to it and stays within
   * its maximum; and neither cap is passed.
   */
  lemma AttemptConservation(e: Engine, poll: nat -> Control, s: State)
    requires Good(e.budget, s)
    ensures var o := RunPlan(e, poll, s);
            var calls := NewCalls(s, o);
            && o.state.trace == s.trace + calls
            && o.state.totalAttempts - s.totalAttempts == |calls|
            && o.state.externalCalls - s.externalCalls == |calls|
            && SumAttempts(o.state.tasks) - SumAttempts(s.tasks) == |calls|
            && |o.state.tasks| == |s.tasks|
            && (forall i :: 0 <= i < |s.tasks| ==>
                  && o.state.tasks[i].attemptCount == s.tasks[i].attemptCount + CallsTo(s.tasks[i].id, calls)
                  && o.state.tasks[i].attemptCount <= s.tasks[i].maxAttempts)
            && (WithinCaps(e.budget, s) ==> WithinCaps(e.budget, o.state))
            && !o.halt.CallsWouldExceed? && !o.halt.AttemptsWouldExceed?
  {
    var o := RunPlan(e, poll, s);
    var calls := NewCalls(s, o);
    RunPlanAdvances(e, poll, s);
    var same := RunAdvances(e, poll, s, 0, MaxRounds(e.budget, |s.tasks|));
    forall i | 0 <= i < |s.tasks|
      ensures o.state.tasks[i].attemptCount == s.tasks[i].attemptCount + CallsTo(s.tasks[i].id, calls)
      ensures o.state.tasks[i].attemptCount <= s.tasks[i].maxAttempts
    {
      assert TaskAdvances(s.tasks[i], o.state.tasks[i], calls);
      assert Fits(e.budget, o.state.tasks[i]);
      SameMaxAttempts(s.tasks[i], o.state.tasks[i]);
    }
  }

  // ----- The transition table -----

  /** Step `k` of a log is in the transition table, and FAILED to READY only as an authorised retry. */
  ghost predicate TableStep(ts: seq<Task>, steps: seq<Step>, k: nat)
    requires k < |steps|
  {
    && Replay(ts, steps[..k]).Some?
    && steps[k].at < |Replay(ts, steps[..k]).value|
    && steps[k].to in AllowedTransitions(StatusBefore(ts, steps, k))
    && (StatusBefore(ts, steps, k).Failed? && steps[k].to.Ready? ==> steps[k].retry)
  }

  ghost predicate FollowsTable(ts: seq<Task>, steps: seq<Step>, calls: seq<Call>) {
    && (forall k {:trigger TableStep(ts, steps, k)} :: 0 <= k < |steps| ==> TableStep(ts, steps, k))
    && (forall i {:trigger StartsOf(steps, i)} :: 0 <= i < |ts| ==> StartsOf(steps, i) == CallsTo(ts[i].id, calls))
  }

  lemma LogFollowsTable(s: State, s': State, calls: seq<Call>, steps: seq<Step>)
    requires Advances(s, s', calls) && Replay(s.tasks, steps) == Some(s'.tasks)
    ensures FollowsTable(s.tasks, steps, calls)
  {
    forall k | 0 <= k < |steps| ensures TableStep(s.tasks, steps, k) {
      StepFollowsTable(s.tasks, steps, k);
    }
    forall i | 0 <= i < |s.tasks| ensures StartsOf(steps, i) == CallsTo(s.tasks[i].id, calls) {
      ReplayCountsStarts(s.tasks, steps, i);
      assert TaskAdvances(s.tasks[i], s'.tasks[i], calls);
    }
  }

  /**
   * Whatever lifecycle steps a round logs, each is in the transition table, FAILED becomes READY only
   * as an authorised retry, and a task enters RUNNING exactly as often as it is called.
   */
  lemma RoundFollowsTable(e: Engine, control: Control, s: State, steps: seq<Step>)
    requires Good(e.budget, s) && Replay(s.tasks, steps) == Some(PlayRound(e, control, s).state.tasks)
    ensures |s.trace| <= |PlayRound(e, control, s).state.trace|
    ensures FollowsTable(s.tasks, steps, PlayRound(e, control, s).state.trace[|s.trace|..])
  {
    var calls := RoundAdvances(e, control, s);
    assert PlayRound(e, control, s).state.trace[|s.trace|..] == calls;
    LogFollowsTable(s, PlayRound(e, control, s).state, calls, steps);
  }

  /** The same over a whole run. */
  lemma RunFollowsTable(e: Engine, poll: nat -> Control, s: State, steps: seq<Step>)
    requires Good(e.budget, s) && Replay(s.tasks, steps) == Some(RunPlan(e, poll, s).state.tasks)
    ensures FollowsTable(s.tasks, steps, NewCalls(s, RunPlan(e, poll, s)))
  {
    RunPlanAdvances(e, poll, s);
    LogFollowsTable(s, RunPlan(e, poll, s).state, NewCalls(s, RunPlan(e, poll, s)), steps);
  }
}
