/**
 * How the tasks end that a run never calls
 * (src/financial_intelligence/application/execute_research_plan.py, execute_prepared,
 * _skip_remaining and _finalize_no_ready; domain/orchestration/graph.py, apply_failure_propagation).
 */
module UncalledTasks {
  import opened Outcomes
  import opened ResearchTasks
  import opened TaskGraph
  import opened TopologicalOrder
  import opened Scheduling
  import opened ExecutionBudgets
  import opened TaskResults
  import opened PlanExecution
  import opened RunSafety
  import opened RunProgress

  /** Some dependency of the task failed, is blocked or was skipped. */
  ghost predicate DependencyLost(ts: seq<Task>, t: Task) {
    exists j :: 0 <= j < |ts| && ts[j].id in t.dependencies
                && (ts[j].status == Failed || ts[j].status == Blocked || ts[j].status == Skipped)
  }

  ghost predicate DependenciesMet(ts: seq<Task>, t: Task) {
    forall j :: 0 <= j < |ts| && ts[j].id in t.dependencies ==> ts[j].status == Succeeded
  }

  /**
   * What becomes of an unsettled task without a call: nothing; behind a lost dependency it is blocked if
   * required and skipped if not; with its attempts used up it is skipped when its turn comes; and a
   * cancellation skips it.
   */
  ghost predicate Stands(b: Budget, before: Task, after: Task, ts: seq<Task>, cancelled: bool) {
    || after == before
    || (DependencyLost(ts, before) && after == before.(status := if before.required then Blocked else Skipped))
    || (&& before.attemptCount >= b.maxAttemptsPerTask && DependenciesMet(ts, before)
        && after == before.(status := Skipped))
    || (cancelled && after == before.(status := Skipped))
  }

  // ----- One round -----

  lemma PropagatedStands(ts: seq<Task>, i: nat)
    requires i < |ts|
    ensures Propagated(ts)[i] != ts[i] ==>
              && DependencyLost(Propagated(ts), ts[i])
              && Propagated(ts)[i] == ts[i].(status := if ts[i].required then Blocked else Skipped)
  {
    var after := Propagated(ts);
    if chain :| FailureChain(ts, chain) && chain[0] == ts[i] {
      assert chain[1] in ts;
      var j :| 0 <= j < |ts| && ts[j] == chain[1];
      if ts[j].Unsettled() {
        var rest := chain[1..];
        assert forall k :: 0 <= k < |rest| ==> rest[k] == chain[k + 1];
        assert FailureChain(ts, rest) && rest[0] == ts[j];
      }
      assert after[j].Failing() && after[j].id in ts[i].dependencies;
    }
  }

  /** Settled tasks are the same in both. */
  ghost predicate KeepsSettled(ts: seq<Task>, us: seq<Task>) {
    && |us| == |ts|
    && forall j {:trigger us[j]} {:trigger ts[j]} :: 0 <= j < |ts| ==>
         us[j].id == ts[j].id && (!ts[j].Unsettled() ==> us[j] == ts[j])
  }

  lemma LostLater(t: Task, ts: seq<Task>, us: seq<Task>)
    requires KeepsSettled(ts, us) && DependencyLost(ts, t)
    ensures DependencyLost(us, t)
  {
    var j :| 0 <= j < |ts| && ts[j].id in t.dependencies
             && (ts[j].status == Failed || ts[j].status == Blocked || ts[j].status == Skipped);
    assert us[j] == ts[j];
  }

  lemma StandsLater(b: Budget, before: Task, after: Task, ts: seq<Task>, us: seq<Task>)
    requires KeepsSettled(ts, us) && Stands(b, before, after, ts, false)
    ensures Stands(b, before, after, us, false)
  {
    if DependencyLost(ts, before) { LostLater(before, ts, us); }
    if DependenciesMet(ts, before) {
      forall j | 0 <= j < |us| && us[j].id in before.dependencies ensures us[j].status == Succeeded {
        assert ts[j].id == us[j].id;
      }
    }
  }

  lemma RunnableIsMet(ts: seq<Task>, t: Task)
    requires UniqueIds(ts) && Runnable(ts, t)
    ensures DependenciesMet(ts, t)
  {
    forall j | 0 <= j < |ts| && ts[j].id in t.dependencies ensures ts[j].status == Succeeded {
      assert ts[j].id in SucceededIds(ts);
    }
  }

  /** The turn of task `n`: of the others nothing changes, and without a call it is skipped or stays. */
  lemma AttemptStands(e: Engine, s: State, n: nat, i: nat)
    requires Good(e.budget, s) && IsNext(s.tasks, n) && i < |s.tasks|
    requires s.totalAttempts < e.budget.maxTotalAttempts && s.externalCalls < e.budget.maxExternalCalls
    ensures var round := Attempt(e, s, n);
            && KeepsSettled(s.tasks, round.state.tasks)
            && (round.Stop? ==> round.halt.StartRefused?)
            && (|| (i == n && |round.state.trace| == |s.trace| + 1
                    && round.state.trace[|s.trace|].task.id == s.tasks[i].id)
                || (i == n && Stands(e.budget, s.tasks[i], round.state.tasks[i], round.state.tasks, false))
                || (i != n && round.state.tasks[i] == s.tasks[i]))
  {
    var t, round := s.tasks[n], Attempt(e, s, n);
    assert Fits(e.budget, t) && Runnable(s.tasks, t);
    SelectedIsOrderly(s, n);
    RunnableIsMet(s.tasks, t);
    if t.attemptCount >= e.budget.maxAttemptsPerTask {
      assert round.state.tasks == s.tasks[n := t.(status := Skipped)];
      assert DependenciesMet(round.state.tasks, t);
    }
  }

  /** The round calls the task, or leaves it as `Stands` says. */
  ghost predicate RoundLeaves(e: Engine, s: State, round: Round, i: nat)
    requires i < |s.tasks|
  {
    && |round.state.tasks| == |s.tasks|
    && (|| (|round.state.trace| > |s.trace| && round.state.trace[|s.trace|].task.id == s.tasks[i].id)
        || Stands(e.budget, s.tasks[i], round.state.tasks[i], round.state.tasks, round.Stop? && round.halt.Cancelled?))
  }

  lemma RoundStands(e: Engine, control: Control, s: State, i: nat)
    requires Good(e.budget, s) && NoneRunning(s.tasks) && i < |s.tasks| && s.tasks[i].Unsettled()
    ensures RoundLeaves(e, s, PlayRound(e, control, s), i)
    ensures PlayRound(e, control, s).Stop? && PlayRound(e, control, s).halt.Cancelled? ==>
              forall j :: 0 <= j < |s.tasks| ==> !PlayRound(e, control, s).state.tasks[j].Unsettled()
  {
    var round, p := PlayRound(e, control, s), Propagate(s);
    if control.Go? && s.totalAttempts < e.budget.maxTotalAttempts && s.externalCalls < e.budget.maxExternalCalls {
      PropagatedStands(s.tasks, i);
      PropagationIsQuiet(s.tasks);
      QuietRound(e.budget, s, p);
      var n := NextIndex(p.tasks);
      if 0 <= n < |p.tasks| {
        assert IsNext(p.tasks, n);
        AttemptStands(e, p, n, i);
        StandsLater(e.budget, s.tasks[i], p.tasks[i], p.tasks, round.state.tasks);
        NextIsUntouched(s.tasks, n);
      } else {
        RoundFinish(e, control, s);
      }
    }
  }

  lemma NextIsUntouched(ts: seq<Task>, n: nat)
    requires IsNext(Propagated(ts), n)
    ensures n < |ts| && Propagated(ts)[n] == ts[n]
  {
    assert Runnable(Propagated(ts), Propagated(ts)[n]);
  }

  // ----- A whole run -----

  ghost predicate NotCalled(id: TaskId, trace: seq<Call>, before: nat) {
    forall l :: before <= l < |trace| ==> trace[l].task.id != id
  }

  lemma AdvancedKeepsSettled(s: State, s': State, calls: seq<Call>)
    requires Advances(s, s', calls)
    ensures KeepsSettled(s.tasks, s'.tasks) && s.trace <= s'.trace
  {
    forall j | 0 <= j < |s.tasks|
      ensures s'.tasks[j].id == s.tasks[j].id && (!s.tasks[j].Unsettled() ==> s'.tasks[j] == s.tasks[j])
    {
      assert TaskAdvances(s.tasks[j], s'.tasks[j], calls);
      ShapeDecidesChoice(s'.tasks[j], s.tasks[j], {});
    }
  }

  lemma {:induction false} RunStands(e: Engine, poll: nat -> Control, s: State, i: nat, round: nat, maxRounds: nat)
    requires Good(e.budget, s) && NoneRunning(s.tasks) && i < |s.tasks| && s.tasks[i].Unsettled()
    requires round + Work(s.tasks) < maxRounds
    requires NotCalled(s.tasks[i].id, Run(e, poll, s, round, maxRounds).state.trace, |s.trace|)
    ensures var o := Run(e, poll, s, round, maxRounds);
            && |o.state.tasks| == |s.tasks|
            && Stands(e.budget, s.tasks[i], o.state.tasks[i], o.state.tasks, o.halt.Cancelled?)
            && (o.halt.Cancelled? ==> !o.state.tasks[i].Unsettled())
    decreases maxRounds - round
  {
    WorkBound(e.budget, s.tasks);
    OneRound(e, poll, s, round, maxRounds);
    var control := poll(round + 1);
    RoundStands(e, control, s, i);
    var played := PlayRound(e, control, s);
    if played.Next? {
      var s' := played.state;
      var calls := RoundAdvances(e, control, s);
      RoundReducesWork(e, control, s);
      RoundKeepsNoneRunning(e, control, s);
      var o := Run(e, poll, s', round + 1, maxRounds);
      var rest := RunAdvances(e, poll, s', round + 1, maxRounds);
      AdvancedKeepsSettled(s, s', calls);
      AdvancedKeepsSettled(s', o.state, rest);
      hide PlayRound, Run, Advances, Good, NoneRunning;
      assert Stands(e.budget, s.tasks[i], s'.tasks[i], s'.tasks, false);
      if s'.tasks[i].Unsettled() {
        assert s'.tasks[i] == s.tasks[i];
        RunStands(e, poll, s', i, round + 1, maxRounds);
      } else {
        StandsLater(e.budget, s.tasks[i], s'.tasks[i], s'.tasks, o.state.tasks);
      }
    }
  }

  /**
   * How a task ends that the run does not call, for every executor and control. A finished run blocks or
   * skips it exactly behind a lost dependency, and otherwise its attempts were used up; a cancelled run
   * leaves no task unsettled; and any other run leaves the task as it was or settled in these ways.
   */
  lemma UncalledTasksEnd(e: Engine, poll: nat -> Control, s: State, i: nat)
    requires Good(e.budget, s) && NoneRunning(s.tasks) && i < |s.tasks|
    requires s.tasks[i].status == Pending || s.tasks[i].status == Ready
    requires forall l :: |s.trace| <= l < |RunPlan(e, poll, s).state.trace| ==>
               RunPlan(e, poll, s).state.trace[l].task.id != s.tasks[i].id
    ensures var o := RunPlan(e, poll, s);
            |o.state.tasks| == |s.tasks|
            && var before, after := s.tasks[i], o.state.tasks[i];
            && Stands(e.budget, before, after, o.state.tasks, o.halt.Cancelled?)
            && (o.halt.Finished? ==>
                  if DependencyLost(o.state.tasks, before)
                  then after == before.(status := if before.required then Blocked else Skipped)
                  else after == before.(status := Skipped) && before.attemptCount >= e.budget.maxAttemptsPerTask)
            && (o.halt.Cancelled? ==> after.status != Pending && after.status != Ready)
  {
    var o, max := RunPlan(e, poll, s), MaxRounds(e.budget, |s.tasks|);
    WorkBound(e.budget, s.tasks);
    RunStands(e, poll, s, i, 0, max);
    if o.halt.Finished? {
      FinishedRunIsSettled(e, poll, s, 0, max);
      if DependencyLost(o.state.tasks, s.tasks[i]) && DependenciesMet(o.state.tasks, s.tasks[i]) {
        assert false;
      }
    }
  }

  // ----- What is recorded for them -----

  /** Position `n` is skipped with its attempts used up; -1 stands for none. The others keep clear of that. */
  ghost predicate SkipsOnly(b: Budget, ts: seq<Task>, us: seq<Task>, n: int) {
    && |us| == |ts|
    && (0 <= n < |ts| ==>
          && ts[n].Unsettled() && ts[n].attemptCount >= b.maxAttemptsPerTask
          && us[n] == ts[n].(status := Skipped) && DependenciesMet(us, ts[n]))
    && forall i {:trigger us[i]} :: 0 <= i < |ts| && i != n ==>
         || us[i] == ts[i]
         || (DependencyLost(us, ts[i]) && !us[i].Unsettled())
         || (us[i].attemptCount > ts[i].attemptCount
             && (us[i].Unsettled() ==> us[i].attemptCount < b.maxAttemptsPerTask))
  }

  /** One result for the call or for the skipped position, which is then a budget violation of that task. */
  ghost predicate RecordsOne(s: State, s': State, n: int) {
    && s.results <= s'.results
    && |s'.results| - |s.results| == |s'.trace| - |s.trace| + (if 0 <= n < |s.tasks| then 1 else 0)
    && (0 <= n < |s.tasks| ==>
          && |s'.results| > |s.results|
          && s'.results[|s.results|] == TaskResult(s.tasks[n].id, ResultFailed, [], false, Some(BudgetViolation)))
  }

  lemma AttemptSkips(e: Engine, s: State, i: nat) returns (n: int)
    requires Good(e.budget, s) && IsNext(s.tasks, i)
    requires s.totalAttempts < e.budget.maxTotalAttempts && s.externalCalls < e.budget.maxExternalCalls
    ensures var s' := Attempt(e, s, i).state;
            -1 <= n < |s.tasks| && SkipsOnly(e.budget, s.tasks, s'.tasks, n) && RecordsOne(s, s', n)
  {
    var t, s' := s.tasks[i], Attempt(e, s, i).state;
    assert Fits(e.budget, t) && Runnable(s.tasks, t);
    SelectedIsOrderly(s, i);
    RunnableIsMet(s.tasks, t);
    n := if t.attemptCount >= e.budget.maxAttemptsPerTask then i else -1;
    if n == i {
      assert s'.tasks == s.tasks[i := t.(status := Skipped)];
      assert DependenciesMet(s'.tasks, t);
    }
  }

  lemma RoundSkips(e: Engine, control: Control, s: State) returns (n: int)
    requires Good(e.budget, s) && NoneRunning(s.tasks)
    ensures var round := PlayRound(e, control, s);
            && -1 <= n < |s.tasks| && RecordsOne(s, round.state, n)
            && (!(round.Stop? && round.halt.Cancelled?) ==> SkipsOnly(e.budget, s.tasks, round.state.tasks, n))
  {
    var round, p := PlayRound(e, control, s), Propagate(s);
    n := -1;
    if control.Go? && s.totalAttempts < e.budget.maxTotalAttempts && s.externalCalls < e.budget.maxExternalCalls {
      PropagationIsQuiet(s.tasks);
      QuietRound(e.budget, s, p);
      var i := NextIndex(p.tasks);
      if 0 <= i < |p.tasks| {
        assert IsNext(p.tasks, i);
        n := AttemptSkips(e, p, i);
        AttemptStands(e, p, i, i);
        NextIsUntouched(s.tasks, i);
        SkipsAfterPropagation(e.budget, s.tasks, round.state.tasks, n);
      } else {
        RoundFinish(e, control, s);
        SkipsAfterPropagation(e.budget, s.tasks, round.state.tasks, n);
      }
    }
  }

  lemma SkipsAfterPropagation(b: Budget, ts: seq<Task>, us: seq<Task>, n: int)
    requires SkipsOnly(b, Propagated(ts), us, n) && KeepsSettled(Propagated(ts), us)
    requires 0 <= n < |ts| ==> Propagated(ts)[n] == ts[n]
    ensures SkipsOnly(b, ts, us, n)
  {
    var p := Propagated(ts);
    forall i | 0 <= i < |ts| && i != n
      ensures us[i] == ts[i] || (DependencyLost(us, ts[i]) && !us[i].Unsettled())
        || (us[i].attemptCount > ts[i].attemptCount
            && (us[i].Unsettled() ==> us[i].attemptCount < b.maxAttemptsPerTask))
    {
      PropagatedStands(ts, i);
      if p[i] != ts[i] {
        LostLater(ts[i], p, us);
        assert us[i] == p[i];
      }
    }
  }

  /** The positions that a run skips because their attempts are used up. */
  ghost function UsedUp(b: Budget, ts: seq<Task>, us: seq<Task>): set<int>
    requires |us| == |ts|
  {
    set i | && 0 <= i < |ts| && ts[i].Unsettled() && ts[i].attemptCount >= b.maxAttemptsPerTask
            && us[i] == ts[i].(status := Skipped) && DependenciesMet(us, ts[i])
  }

  lemma UsedUpOneMore(b: Budget, ts: seq<Task>, us: seq<Task>, last: seq<Task>, n: int)
    requires SkipsOnly(b, ts, us, n) && KeepsSettled(ts, us) && KeepsSettled(us, last) && -1 <= n < |ts|
    requires forall i {:trigger last[i]} :: 0 <= i < |us| ==> last[i].attemptCount >= us[i].attemptCount
    ensures UsedUp(b, ts, last) == UsedUp(b, us, last) + (if n >= 0 then {n} else {})
    ensures n !in UsedUp(b, us, last)
  {
    forall i ensures i in UsedUp(b, ts, last) <==> i in UsedUp(b, us, last) || (i == n && n >= 0) {
      if 0 <= i < |ts| && i != n && us[i] != ts[i] && DependencyLost(us, ts[i]) {
        LostLater(ts[i], us, last);
      }
      if 0 <= i < |ts| && i == n {
        StandsLater(b, ts[n], us[n], us, last);
      }
    }
  }

  lemma NothingUsedUp(b: Budget, ts: seq<Task>, us: seq<Task>, n: int)
    requires SkipsOnly(b, ts, us, n) && -1 <= n < |ts|
    ensures UsedUp(b, ts, us) == if n >= 0 then {n} else {}
  {
    forall i ensures i in UsedUp(b, ts, us) <==> i == n && n >= 0 {}
  }

  /** The results added are one for every call and one violation for every position skipped. */
  ghost predicate Accounted(b: Budget, s: State, s': State) {
    && |s'.tasks| == |s.tasks| && s.results <= s'.results
    && |s'.results| - |s.results| == |s'.trace| - |s.trace| + |UsedUp(b, s.tasks, s'.tasks)|
    && forall i :: i in UsedUp(b, s.tasks, s'.tasks) ==> ViolationOf(s.tasks[i].id, s'.results, |s.results|)
  }

  ghost predicate ViolationOf(id: TaskId, results: seq<TaskResult>, from: nat) {
    exists k :: from <= k < |results| && results[k] == TaskResult(id, ResultFailed, [], false, Some(BudgetViolation))
  }

  lemma AccountRound(b: Budget, s: State, s': State, n: int)
    requires -1 <= n < |s.tasks| && RecordsOne(s, s', n) && SkipsOnly(b, s.tasks, s'.tasks, n)
    ensures Accounted(b, s, s')
  {
    NothingUsedUp(b, s.tasks, s'.tasks, n);
  }

  lemma AccountRest(b: Budget, s: State, s': State, last: State, n: int)
    requires -1 <= n < |s.tasks| && RecordsOne(s, s', n) && SkipsOnly(b, s.tasks, s'.tasks, n)
    requires KeepsSettled(s.tasks, s'.tasks) && KeepsSettled(s'.tasks, last.tasks)
    requires forall i {:trigger last.tasks[i]} :: 0 <= i < |s'.tasks| ==>
               last.tasks[i].attemptCount >= s'.tasks[i].attemptCount
    requires Accounted(b, s', last)
    ensures Accounted(b, s, last)
  {
    UsedUpOneMore(b, s.tasks, s'.tasks, last.tasks, n);
    var earlier, later := UsedUp(b, s.tasks, last.tasks), UsedUp(b, s'.tasks, last.tasks);
    assert |earlier| == |later| + (if n >= 0 then 1 else 0);
    forall i | i in earlier ensures ViolationOf(s.tasks[i].id, last.results, |s.results|) {
      if i in later {
        assert ViolationOf(s'.tasks[i].id, last.results, |s'.results|);
      } else {
        assert last.results[|s.results|] == s'.results[|s.results|];
      }
    }
  }

  lemma AttemptsGrow(s: State, s': State, calls: seq<Call>)
    requires Advances(s, s', calls)
    ensures |s'.tasks| == |s.tasks|
    ensures forall i {:trigger s'.tasks[i]} :: 0 <= i < |s.tasks| ==>
              s'.tasks[i].attemptCount >= s.tasks[i].attemptCount
  {
    forall i | 0 <= i < |s.tasks| ensures s'.tasks[i].attemptCount >= s.tasks[i].attemptCount {
      assert TaskAdvances(s.tasks[i], s'.tasks[i], calls);
    }
  }

  lemma {:induction false} RunAccounts(e: Engine, poll: nat -> Control, s: State, round: nat, maxRounds: nat)
    requires Good(e.budget, s) && NoneRunning(s.tasks) && round + Work(s.tasks) < maxRounds
    ensures var o := Run(e, poll, s, round, maxRounds);
            !o.halt.Cancelled? ==> Accounted(e.budget, s, o.state)
    decreases maxRounds - round
  {
    WorkBound(e.budget, s.tasks);
    OneRound(e, poll, s, round, maxRounds);
    var control, o := poll(round + 1), Run(e, poll, s, round, maxRounds);
    var played := PlayRound(e, control, s);
    if !o.halt.Cancelled? {
      var n := RoundSkips(e, control, s);
      if played.Next? {
        var s' := played.state;
        var calls := RoundAdvances(e, control, s);
        RoundReducesWork(e, control, s);
        RoundKeepsNoneRunning(e, control, s);
        var rest := RunAdvances(e, poll, s', round + 1, maxRounds);
        AdvancedKeepsSettled(s, s', calls);
        AdvancedKeepsSettled(s', o.state, rest);
        AttemptsGrow(s', o.state, rest);
        RunAccounts(e, poll, s', round + 1, maxRounds);
        hide *;
        AccountRest(e.budget, s, s', o.state, n);
      } else {
        AccountRound(e.budget, s, o.state, n);
      }
    }
  }

  /**
   * The results a run adds, unless it was cancelled: one for every call, and one budget violation for
   * every task that was skipped because its attempts were used up, under that task's identity.
   */
  lemma ViolationsAreAccountedFor(e: Engine, poll: nat -> Control, s: State)
    requires Good(e.budget, s) && NoneRunning(s.tasks) && !RunPlan(e, poll, s).halt.Cancelled?
    ensures var o := RunPlan(e, poll, s).state;
            |o.tasks| == |s.tasks|
            && var usedUp := UsedUp(e.budget, s.tasks, o.tasks);
            && |o.results| == |s.results| + (|o.trace| - |s.trace|) + |usedUp|
            && forall i :: i in usedUp ==>
                 exists k :: |s.results| <= k < |o.results|
                             && o.results[k]
                                == TaskResult(s.tasks[i].id, ResultFailed, [], false, Some(BudgetViolation))
  {
    WorkBound(e.budget, s.tasks);
    RunAccounts(e, poll, s, 0, MaxRounds(e.budget, |s.tasks|));
    hide RunPlan, Good, NoneRunning, UsedUp;
    var o := RunPlan(e, poll, s).state;
    forall i | i in UsedUp(e.budget, s.tasks, o.tasks)
      ensures exists k :: |s.results| <= k < |o.results|
                          && o.results[k] == TaskResult(s.tasks[i].id, ResultFailed, [], false, Some(BudgetViolation))
    {
      assert ViolationOf(s.tasks[i].id, o.results, |s.results|);
    }
  }
}
