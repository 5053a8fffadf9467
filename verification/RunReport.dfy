/** What the reported status of a run says about the run (execute_research_plan.py, _to_result). */
module RunReport {
  import opened ResearchTasks
  import opened Scheduling
  import opened ExecutionBudgets
  import opened TaskResults
  import opened PlanExecution
  import opened ExecutionLoop
  import opened RunSafety
  import opened RunProgress

  // ----- Required tasks are served -----

  /** A required task is not skipped, and has an attempt left while it is unsettled. */
  ghost predicate Served(t: Task) {
    t.required ==> !t.status.Skipped? && (t.Unsettled() ==> t.attemptCount < t.maxAttempts)
  }

  ghost predicate AllServed(ts: seq<Task>) {
    forall i {:trigger Served(ts[i])} :: 0 <= i < |ts| ==> Served(ts[i])
  }

  lemma PropagationServes(ts: seq<Task>)
    requires AllServed(ts)
    ensures AllServed(Propagated(ts))
  {
    forall i | 0 <= i < |ts| ensures Served(Propagated(ts)[i]) {
      assert Served(ts[i]);
    }
  }

  lemma AttemptServes(e: Engine, s: State, i: nat)
    requires Good(e.budget, s) && IsNext(s.tasks, i) && AllServed(s.tasks)
    ensures AllServed(Attempt(e, s, i).state.tasks)
  {
    var us := Attempt(e, s, i).state.tasks;
    SelectedIsOrderly(s, i);
    assert Fits(e.budget, s.tasks[i]) && Served(s.tasks[i]) && Runnable(s.tasks, s.tasks[i]);
    forall k | 0 <= k < |us| ensures Served(us[k]) {
      assert Served(s.tasks[k]);
    }
  }

  lemma RoundServes(e: Engine, control: Control, s: State)
    requires Good(e.budget, s) && NoneRunning(s.tasks) && AllServed(s.tasks) && !control.Cancel?
    ensures AllServed(PlayRound(e, control, s).state.tasks)
  {
    var round, p := PlayRound(e, control, s), Propagate(s);
    PropagationServes(s.tasks);
    if round.Stop? && round.halt.Finished? {
      RoundFinish(e, control, s);
    } else if round.state.tasks != s.tasks {
      PropagationIsQuiet(s.tasks);
      QuietRound(e.budget, s, p);
      var i := NextIndex(p.tasks);
      if 0 <= i < |p.tasks| {
        assert IsNext(p.tasks, i);
        AttemptServes(e, p, i);
      }
    }
  }

  /** A run that is not cancelled keeps required tasks served, so a paused run can be resumed likewise. */
  lemma {:induction false} RunServes(e: Engine, poll: nat -> Control, s: State, round: nat, maxRounds: nat)
    requires Good(e.budget, s) && NoneRunning(s.tasks) && AllServed(s.tasks)
    ensures var o := Run(e, poll, s, round, maxRounds);
            !o.halt.Cancelled? ==> AllServed(o.state.tasks)
    decreases maxRounds - round
  {
    if round < maxRounds {
      OneRound(e, poll, s, round, maxRounds);
      var control := poll(round + 1);
      if !control.Cancel? {
        RoundServes(e, control, s);
        var played := PlayRound(e, control, s);
        if played.Next? {
          var calls := RoundAdvances(e, control, s);
          RoundKeepsNoneRunning(e, control, s);
          RunServes(e, poll, played.state, round + 1, maxRounds);
        }
      }
    }
  }

  // ----- The reported status -----

  /**
   * A run, fresh or resumed, reports CANCELLED exactly when it was cancelled or paused,
   * BUDGET_EXCEEDED exactly when a cap ended it, and COMPLETED exactly when it finished by itself, or
   * met a task without an attempt left, with at least one required task, every required task
   * succeeded, no optional task failed and no result partial.
   */
  lemma ReportedStatusIff(e: Engine, poll: nat -> Control, s: State, r: Report)
    requires Good(e.budget, s) && Reports(r, RunPlan(e, poll, s))
    ensures var halt := RunPlan(e, poll, s).halt;
            && (r.status.RunCancelled? <==> halt.Cancelled? || halt.Paused?)
            && (r.status.RunBudgetExceeded? <==> halt.AttemptsExhausted? || halt.CallsExhausted?)
            && (r.status.RunCompleted? <==>
                  && (halt.Finished? || halt.StartRefused?)
                  && AllRequiredSucceeded(r.tasks) && !AnyWith(r.tasks, false, Failed)
                  && forall i :: 0 <= i < |r.results| ==> !r.results[i].status.Partial?)
  {
    var calls := RunAdvances(e, poll, s, 0, MaxRounds(e.budget, |s.tasks|));
    NoProgressGuardUnreachable(e, poll, s);
    NoPartialResults(r.results);
    if AllRequiredSucceeded(r.tasks) {
      assert !AnyWith(r.tasks, true, Failed) && !AnyWith(r.tasks, true, Blocked);
    }
  }

  lemma {:induction false} NoPartialResults(results: seq<TaskResult>)
    ensures CountPartial(results) == 0 <==> forall i :: 0 <= i < |results| ==> !results[i].status.Partial?
  {
    if results != [] {
      var shorter := results[..|results| - 1];
      NoPartialResults(shorter);
      assert forall i :: 0 <= i < |shorter| ==> shorter[i] == results[i];
    }
  }

  /**
   * After a natural finish every required task succeeded, failed or is blocked, provided none was
   * skipped or out of attempts before the run; so "incomplete required coverage" is then never the
   * reason for PARTIAL, and FAILED or BLOCKED is reported exactly when no required task succeeded.
   */
  lemma RequiredTasksAreAccountedFor(e: Engine, poll: nat -> Control, s: State, r: Report)
    requires Good(e.budget, s) && NoneRunning(s.tasks) && AllServed(s.tasks)
    requires Reports(r, RunPlan(e, poll, s)) && RunPlan(e, poll, s).halt.Finished?
    requires exists i :: 0 <= i < |r.tasks| && r.tasks[i].required
    ensures AllRequiredSucceeded(r.tasks) || AnyWith(r.tasks, true, Failed) || AnyWith(r.tasks, true, Blocked)
    ensures r.status.RunFailed? || r.status.RunBlocked? <==> !AnyWith(r.tasks, true, Succeeded)
  {
    var max := MaxRounds(e.budget, |s.tasks|);
    RunServes(e, poll, s, 0, max);
    FinishedRunIsSettled(e, poll, s, 0, max);
    RunKeepsNoneRunning(e, poll, s, 0, max);
    forall i | 0 <= i < |r.tasks| && r.tasks[i].required
      ensures r.tasks[i].status.Succeeded? || r.tasks[i].status.Failed? || r.tasks[i].status.Blocked?
    {
      assert Served(r.tasks[i]) && !r.tasks[i].Unsettled();
    }
    var i :| 0 <= i < |r.tasks| && r.tasks[i].required;
  }

  /**
   * The status of a run that finished by itself or met a refused start, read off its final tasks:
   * FAILED when a required task failed and none succeeded, BLOCKED when a required task is blocked and
   * none failed or succeeded, COMPLETED when there is a required task, all of them succeeded, no optional
   * one failed and no result is partial, and PARTIAL in every other case.
   */
  lemma EndedStatusIff(e: Engine, poll: nat -> Control, s: State, r: Report)
    requires Good(e.budget, s) && Reports(r, RunPlan(e, poll, s))
    requires RunPlan(e, poll, s).halt.Finished? || RunPlan(e, poll, s).halt.StartRefused?
    ensures var ts := r.tasks;
            var succeeded := exists i :: 0 <= i < |ts| && ts[i].required && ts[i].status == Succeeded;
            var failed := exists i :: 0 <= i < |ts| && ts[i].required && ts[i].status == Failed;
            var blocked := exists i :: 0 <= i < |ts| && ts[i].required && ts[i].status == Blocked;
            var complete := && (forall i :: 0 <= i < |ts| && ts[i].required ==> ts[i].status == Succeeded)
                            && (forall i :: 0 <= i < |ts| && !ts[i].required ==> ts[i].status != Failed)
                            && (forall k :: 0 <= k < |r.results| ==> r.results[k].status != Partial);
            && (r.status == RunFailed <==> failed && !succeeded)
            && (r.status == RunBlocked <==> blocked && !failed && !succeeded)
            && (r.status == RunCompleted <==> succeeded && complete)
            && (r.status == RunPartial <==>
                  !(failed && !succeeded) && !(blocked && !failed && !succeeded) && !(succeeded && complete))
  {
    hide RunPlan, Good, CountStatus, DedupedEvidence, AllEvidence, Deduplicated;
    NoPartialResults(r.results);
    var ts := r.tasks;
    assert AnyWith(ts, true, Failed) <==> exists i :: 0 <= i < |ts| && ts[i].required && ts[i].status == Failed;
    assert AnyWith(ts, true, Blocked) <==> exists i :: 0 <= i < |ts| && ts[i].required && ts[i].status == Blocked;
    assert AnyWith(ts, true, Succeeded) <==> exists i :: 0 <= i < |ts| && ts[i].required && ts[i].status == Succeeded;
    assert AnyWith(ts, false, Failed) <==> exists i :: 0 <= i < |ts| && !ts[i].required && ts[i].status == Failed;
  }

  // ----- Which cap ended the run -----

  /** How the counters stand at the head of the round that ends the run. */
  ghost predicate CountersAt(b: Budget, o: Outcome) {
    var attempts, calls := o.state.totalAttempts, o.state.externalCalls;
    && (o.halt.AttemptsExhausted? ==> attempts >= b.maxTotalAttempts)
    && (o.halt.CallsExhausted? ==> attempts < b.maxTotalAttempts && calls >= b.maxExternalCalls)
    && (o.halt.Finished? || o.halt.StartRefused? ==> attempts < b.maxTotalAttempts && calls < b.maxExternalCalls)
  }

  lemma {:induction false} RunStopsAt(e: Engine, poll: nat -> Control, s: State, round: nat, maxRounds: nat)
    ensures CountersAt(e.budget, Run(e, poll, s, round, maxRounds))
    decreases maxRounds - round
  {
    if round < maxRounds {
      OneRound(e, poll, s, round, maxRounds);
      var played := PlayRound(e, poll(round + 1), s);
      if played.Next? {
        RunStopsAt(e, poll, played.state, round + 1, maxRounds);
      }
    }
  }

  /**
   * The attempts are looked at first: a run ends for its attempts exactly when it is over budget with the
   * attempts used up, and for its calls when it is over budget with attempts left; a run that ends by
   * itself has both to spare.
   */
  lemma CapThatEnded(e: Engine, poll: nat -> Control, s: State)
    ensures var o := RunPlan(e, poll, s);
            var attempts, calls := o.state.totalAttempts, o.state.externalCalls;
            var exhausted := o.halt.AttemptsExhausted? || o.halt.CallsExhausted?;
            && (o.halt.AttemptsExhausted? <==> exhausted && attempts >= e.budget.maxTotalAttempts)
            && (o.halt.CallsExhausted? <==> exhausted && attempts < e.budget.maxTotalAttempts)
            && (o.halt.CallsExhausted? ==> calls >= e.budget.maxExternalCalls)
            && (o.halt.Finished? || o.halt.StartRefused? ==>
                  attempts < e.budget.maxTotalAttempts && calls < e.budget.maxExternalCalls)
  {
    RunStopsAt(e, poll, s, 0, MaxRounds(e.budget, |s.tasks|));
  }

  // ----- The reported counts -----

  ghost function WithStatusIn(ts: seq<Task>, status: TaskStatus): set<int> {
    set i | 0 <= i < |ts| && ts[i].status == status
  }

  lemma {:induction false} CountIsSize(ts: seq<Task>, status: TaskStatus)
    ensures CountStatus(ts, status) == |WithStatusIn(ts, status)|
  {
    if ts != [] {
      var n := |ts| - 1;
      CountIsSize(ts[..n], status);
      assert WithStatusIn(ts, status) == WithStatusIn(ts[..n], status) + (if ts[n].status == status then {n} else {});
    }
  }

  ghost function PartialIn(results: seq<TaskResult>): set<int> {
    set k | 0 <= k < |results| && results[k].status == Partial
  }

  lemma {:induction false} PartialIsSize(results: seq<TaskResult>)
    ensures CountPartial(results) == |PartialIn(results)|
  {
    if results != [] {
      var n := |results| - 1;
      PartialIsSize(results[..n]);
      assert PartialIn(results) == PartialIn(results[..n]) + (if results[n].status == Partial then {n} else {});
    }
  }

  /** The counts of a report are the numbers of its tasks in each status and of its partial results. */
  lemma ReportedCountsAreExact(r: Report, o: Outcome)
    requires Reports(r, o)
    ensures r.completed == |set i | 0 <= i < |r.tasks| && r.tasks[i].status == Succeeded|
    ensures r.failed == |set i | 0 <= i < |r.tasks| && r.tasks[i].status == Failed|
    ensures r.blocked == |set i | 0 <= i < |r.tasks| && r.tasks[i].status == Blocked|
    ensures r.skipped == |set i | 0 <= i < |r.tasks| && r.tasks[i].status == Skipped|
    ensures r.partial == |set k | 0 <= k < |r.results| && r.results[k].status == Partial|
  {
    CountIsSize(r.tasks, Succeeded);
    CountIsSize(r.tasks, Failed);
    CountIsSize(r.tasks, Blocked);
    CountIsSize(r.tasks, Skipped);
    PartialIsSize(r.results);
    assert WithStatusIn(r.tasks, Succeeded) == set i | 0 <= i < |r.tasks| && r.tasks[i].status == Succeeded;
    assert WithStatusIn(r.tasks, Failed) == set i | 0 <= i < |r.tasks| && r.tasks[i].status == Failed;
    assert WithStatusIn(r.tasks, Blocked) == set i | 0 <= i < |r.tasks| && r.tasks[i].status == Blocked;
    assert WithStatusIn(r.tasks, Skipped) == set i | 0 <= i < |r.tasks| && r.tasks[i].status == Skipped;
    assert PartialIn(r.results) == set k | 0 <= k < |r.results| && r.results[k].status == Partial;
  }
}
