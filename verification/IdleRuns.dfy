/**
 * When a run leaves everything a checkpoint holds as it was
 * (src/financial_intelligence/application/execute_research_plan.py, execute_prepared).
 */
module IdleRuns {
  import opened ResearchTasks
  import opened Scheduling
  import opened ExecutionBudgets
  import opened PlanExecution
  import opened ExecutionLoop
  import opened RunSafety
  import opened RunProgress
  import opened Resume

  /** The checkpoint that holds exactly what the run started from. */
  ghost function Untouched(s: State): Checkpoint {
    Checkpoint(s.tasks, s.totalAttempts, s.externalCalls, s.results, s.warnings)
  }

  predicate Capped(e: Engine, s: State) {
    s.totalAttempts >= e.budget.maxTotalAttempts || s.externalCalls >= e.budget.maxExternalCalls
  }

  /** The next task may not be attempted any more, and the run has already been stopped by it before. */
  ghost predicate RefusedBefore(e: Engine, s: State) {
    var i := NextIndex(s.tasks);
    && Propagated(s.tasks) == s.tasks
    && 0 <= i < |s.tasks|
    && s.tasks[i].maxAttempts <= s.tasks[i].attemptCount < e.budget.maxAttemptsPerTask
    && StartRefusal(AttemptsExceeded) in s.warnings
  }

  /** What stops a run in its first round before it changes anything. */
  ghost predicate NothingToDo(e: Engine, control: Control, s: State) {
    match control
    case Pause => true
    case Cancel => AllSettled(s.tasks)
    case Go => Capped(e, s) || AllSettled(s.tasks) || RefusedBefore(e, s)
  }

  /** No progress came with the start: nothing counted, no result, no warning. */
  predicate NothingSeeded(s: State) {
    s.totalAttempts == 0 && s.externalCalls == 0 && s.results == [] && s.warnings == []
  }

  // ----- Results are never taken back -----

  lemma RoundKeepsResults(e: Engine, control: Control, s: State)
    ensures |PlayRound(e, control, s).state.results| >= |s.results|
  {
  }

  lemma RoundThatGoesOnAddsResult(e: Engine, control: Control, s: State)
    requires Good(e.budget, s) && PlayRound(e, control, s).Next?
    ensures |PlayRound(e, control, s).state.results| > |s.results|
  {
    var p := Propagate(s);
    PropagationIsQuiet(s.tasks);
    QuietRound(e.budget, s, p);
    var i := NextIndex(p.tasks);
    assert IsNext(p.tasks, i);
    SelectedIsOrderly(p, i);
  }

  lemma {:induction false} RunKeepsResults(e: Engine, poll: nat -> Control, s: State, round: nat, maxRounds: nat)
    ensures |Run(e, poll, s, round, maxRounds).state.results| >= |s.results|
    decreases maxRounds - round
  {
    if round < maxRounds {
      OneRound(e, poll, s, round, maxRounds);
      var played := PlayRound(e, poll(round + 1), s);
      RoundKeepsResults(e, poll(round + 1), s);
      if played.Next? {
        RunKeepsResults(e, poll, played.state, round + 1, maxRounds);
      }
    }
  }

  // ----- The first round -----

  lemma RepeatedWarningIff(known: seq<Warning>, w: Warning)
    ensures Deduplicated(known + [w]) == known <==> Deduplicated(known) == known && w in known
  {
    assert (known + [w])[..|known|] == known;
    DeduplicatedKeeps(known);
    if w !in known {
      assert w in Deduplicated(known) + [w];
    }
  }

  lemma SettledStay(ts: seq<Task>)
    requires AllSettled(ts)
    ensures Propagated(ts) == ts && NextIndex(ts) == -1
  {
    forall i | 0 <= i < |ts| ensures Propagated(ts)[i] == ts[i] {
      if Doomed(ts, ts[i]) { DoomedIsUnsettled(ts, ts[i]); }
    }
    assert forall i :: 0 <= i < |ts| ==> !Runnable(ts, ts[i]);
  }

  lemma SkippingChangesNothingIff(ts: seq<Task>)
    ensures SkipUnsettled(ts) == ts <==> AllSettled(ts)
  {
    if !AllSettled(ts) {
      var i :| 0 <= i < |ts| && ts[i].Unsettled();
      assert SkipUnsettled(ts)[i] != ts[i];
    } else {
      forall i | 0 <= i < |ts| ensures SkipUnsettled(ts)[i] == ts[i] {}
      assert SkipUnsettled(ts) == ts;
    }
  }

  /** A round that stops leaves everything as it was exactly when there is nothing to do. */
  lemma StoppedRoundKeepsIff(e: Engine, control: Control, s: State)
    requires Good(e.budget, s) && NoneRunning(s.tasks) && PlayRound(e, control, s).Stop?
    ensures var last := PlayRound(e, control, s);
            Saved(Outcome(last.state, last.halt)) == Untouched(s) <==>
              Deduplicated(s.warnings) == s.warnings && NothingToDo(e, control, s)
  {
    if control.Cancel? {
      SkippingChangesNothingIff(s.tasks);
    } else if control.Go? && !Capped(e, s) {
      StoppedGoKeepsIff(e, s);
    }
  }

  lemma StoppedGoKeepsIff(e: Engine, s: State)
    requires Good(e.budget, s) && NoneRunning(s.tasks) && !Capped(e, s) && PlayRound(e, Go, s).Stop?
    ensures var last := PlayRound(e, Go, s);
            Saved(Outcome(last.state, last.halt)) == Untouched(s) <==>
              Deduplicated(s.warnings) == s.warnings && (AllSettled(s.tasks) || RefusedBefore(e, s))
  {
    var p := Propagate(s);
    if AllSettled(s.tasks) {
      SettledStay(s.tasks);
    }
    PropagationIsQuiet(s.tasks);
    QuietRound(e.budget, s, p);
    var i := NextIndex(p.tasks);
    if 0 <= i < |p.tasks| {
      assert IsNext(p.tasks, i);
      SelectedIsOrderly(p, i);
      assert Fits(e.budget, p.tasks[i]);
      RepeatedWarningIff(s.warnings, StartRefusal(AttemptsExceeded));
    } else {
      RoundFinish(e, Go, s);
    }
  }

  lemma NothingToDoStops(e: Engine, control: Control, s: State)
    requires Good(e.budget, s)
    ensures NothingToDo(e, control, s) ==> PlayRound(e, control, s).Stop?
  {
    if AllSettled(s.tasks) {
      SettledStay(s.tasks);
    } else if RefusedBefore(e, s) {
      var i := NextIndex(s.tasks);
      assert Propagate(s) == s && IsNext(s.tasks, i);
      SelectedIsOrderly(s, i);
    }
  }

  /**
   * Exactly when a run leaves everything a checkpoint holds as it was: no warning was repeated at the
   * start, and the first round stops before it changes anything.
   */
  lemma RunChangesNothingIff(e: Engine, poll: nat -> Control, s: State)
    requires Good(e.budget, s) && NoneRunning(s.tasks)
    ensures Saved(RunPlan(e, poll, s)) == Untouched(s) <==>
              Deduplicated(s.warnings) == s.warnings && NothingToDo(e, poll(1), s)
  {
    var max := MaxRounds(e.budget, |s.tasks|);
    OneRound(e, poll, s, 0, max);
    var first := PlayRound(e, poll(1), s);
    if first.Stop? {
      StoppedRoundKeepsIff(e, poll(1), s);
    } else {
      RoundThatGoesOnAddsResult(e, poll(1), s);
      RunKeepsResults(e, poll, first.state, 1, max);
      NothingToDoStops(e, poll(1), s);
    }
  }

  /** A run of settled tasks makes no call. */
  lemma SettledMakesNoCall(e: Engine, poll: nat -> Control, s: State)
    requires Good(e.budget, s) && NoneRunning(s.tasks) && AllSettled(s.tasks)
    ensures NewCalls(s, RunPlan(e, poll, s)) == []
  {
    var o := RunPlan(e, poll, s);
    RunPlanAdvances(e, poll, s);
    forall i | 0 <= i < |s.tasks| ensures o.state.tasks[i] == s.tasks[i] {
      assert TaskAdvances(s.tasks[i], o.state.tasks[i], NewCalls(s, o));
    }
    assert o.state.tasks == s.tasks;
    AttemptConservation(e, poll, s);
  }

  lemma SkippedIsGood(b: Budget, s: State)
    requires Good(b, s) && NoneRunning(s.tasks)
    ensures Good(b, s.(tasks := SkipUnsettled(s.tasks)))
    ensures AllSettled(SkipUnsettled(s.tasks)) && NoneRunning(SkipUnsettled(s.tasks))
    ensures SucceededIds(SkipUnsettled(s.tasks)) == SucceededIds(s.tasks)
  {
    SkippingIsQuiet(s.tasks);
    QuietRound(b, s, s.(tasks := SkipUnsettled(s.tasks)));
    SameSucceeded(s.tasks, SkipUnsettled(s.tasks));
  }
}
