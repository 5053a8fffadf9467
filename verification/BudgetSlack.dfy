/**
 * How the caps end a run. Both caps are checked before the question whether anything is left to
 * run, so a run only finishes with one unit of each to spare.
 */
module BudgetSlack {
  import opened Outcomes
  import opened ResearchTasks
  import opened TaskGraph
  import opened Scheduling
  import opened ExecutionBudgets
  import opened TaskResults
  import opened PlanExecution
  import opened ExecutionLoop
  import opened RunSafety
  import opened RunProgress
  import opened StaticOrder
  import opened Resume
  import opened IdleRuns

  predicate Exhausted(halt: Halt) {
    halt.AttemptsExhausted? || halt.CallsExhausted?
  }

  /** The same engine with other caps. */
  function WithCaps(e: Engine, attempts: nat, calls: nat): Engine {
    e.(budget := e.budget.(maxTotalAttempts := attempts, maxExternalCalls := calls))
  }

  predicate Slack(b: Budget, s: State) {
    s.totalAttempts < b.maxTotalAttempts && s.externalCalls < b.maxExternalCalls
  }

  lemma GoodUnderOtherCaps(e: Engine, f: Engine, s: State)
    requires Good(e.budget, s) && f.budget.maxAttemptsPerTask == e.budget.maxAttemptsPerTask
    ensures Good(f.budget, s)
  {
    forall i | 0 <= i < |s.tasks| ensures Fits(f.budget, s.tasks[i]) {
      assert Fits(e.budget, s.tasks[i]);
    }
  }

  /** Two engines with the same tasks, executor and company. */
  ghost predicate SameButCaps(e: Engine, f: Engine) {
    && f.execute == e.execute && f.company == e.company
    && f.budget.maxAttemptsPerTask == e.budget.maxAttemptsPerTask
  }

  /** With a unit to spare after the round, both engines play it alike. */
  lemma SameRoundWithSlack(e: Engine, f: Engine, s: State)
    requires SameButCaps(e, f) && Good(e.budget, s)
    requires Slack(e.budget, s) && Slack(f.budget, s)
    requires s.totalAttempts + 1 < e.budget.maxTotalAttempts || PlayRound(f, Go, s).Stop?
    requires s.totalAttempts + 1 < f.budget.maxTotalAttempts || PlayRound(f, Go, s).Stop?
    ensures PlayRound(e, Go, s) == PlayRound(f, Go, s)
  {
    var p := Propagate(s);
    var i := NextIndex(p.tasks);
    if 0 <= i < |p.tasks| {
      SameAttempt(e, f, p, i);
    }
  }

  lemma SameAttempt(e: Engine, f: Engine, s: State, i: nat)
    requires SameButCaps(e, f) && i < |s.tasks| && Slack(e.budget, s) && Slack(f.budget, s)
    requires s.totalAttempts + 1 < e.budget.maxTotalAttempts || Attempt(f, s, i).Stop?
    requires s.totalAttempts + 1 < f.budget.maxTotalAttempts || Attempt(f, s, i).Stop?
    ensures Attempt(e, s, i) == Attempt(f, s, i)
  {
  }

  /** Whether a round stops does not depend on caps that leave room for it; a call moves both counters by one. */
  lemma SameKindOfRound(e: Engine, f: Engine, s: State)
    requires SameButCaps(e, f) && Good(e.budget, s)
    requires Slack(e.budget, s) && Slack(f.budget, s)
    ensures PlayRound(e, Go, s).Next? <==> PlayRound(f, Go, s).Next?
    ensures PlayRound(e, Go, s).state.totalAttempts == PlayRound(f, Go, s).state.totalAttempts
    ensures PlayRound(e, Go, s).state.externalCalls == PlayRound(f, Go, s).state.externalCalls
    ensures PlayRound(f, Go, s).Stop? ==> PlayRound(f, Go, s).state.totalAttempts == s.totalAttempts
    ensures PlayRound(f, Go, s).Stop? ==> PlayRound(f, Go, s).state.externalCalls == s.externalCalls
    ensures PlayRound(f, Go, s).Stop? ==> !Exhausted(PlayRound(f, Go, s).halt)
    ensures s.totalAttempts <= PlayRound(e, Go, s).state.totalAttempts <= s.totalAttempts + 1
    ensures PlayRound(f, Go, s).state.totalAttempts == s.totalAttempts ==>
              PlayRound(e, Go, s) == PlayRound(f, Go, s)
  {
  }

  lemma {:induction false} CountersGrow(e: Engine, s: State, round: nat, maxRounds: nat)
    requires Good(e.budget, s)
    ensures var o := Run(e, Uninterrupted(), s, round, maxRounds);
            s.totalAttempts <= o.state.totalAttempts && s.externalCalls <= o.state.externalCalls
  {
    var calls := RunAdvances(e, Uninterrupted(), s, round, maxRounds);
  }

  /** With slack at the end the tighter caps are never noticed. */
  lemma {:induction false} SlackMeansSameRun(e: Engine, f: Engine, s: State, round: nat, maxRounds: nat)
    requires SameButCaps(e, f) && Good(e.budget, s) && round + Work(s.tasks) < maxRounds
    requires Slack(f.budget, Run(f, Uninterrupted(), s, round, maxRounds).state)
    requires Slack(e.budget, Run(f, Uninterrupted(), s, round, maxRounds).state)
    ensures Run(e, Uninterrupted(), s, round, maxRounds) == Run(f, Uninterrupted(), s, round, maxRounds)
    decreases maxRounds - round
  {
    WorkBound(e.budget, s.tasks);
    GoodUnderOtherCaps(e, f, s);
    CountersGrow(f, s, round, maxRounds);
    OneRound(e, Uninterrupted(), s, round, maxRounds);
    OneRound(f, Uninterrupted(), s, round, maxRounds);
    SameKindOfRound(e, f, s);
    var played := PlayRound(f, Go, s);
    if played.Next? {
      WorkAfterRound(f, s);
      CountersGrow(f, played.state, round + 1, maxRounds);
      if played.state.totalAttempts > s.totalAttempts {
        SameRoundWithSlack(e, f, s);
      }
      WorkAfterRound(e, s);
      SlackMeansSameRun(e, f, played.state, round + 1, maxRounds);
    } else {
      SameRoundWithSlack(e, f, s);
    }
  }

  /** Without slack at the end the tighter caps end the run. */
  lemma {:induction false} NoSlackMeansExhausted(e: Engine, f: Engine, s: State, round: nat, maxRounds: nat)
    requires SameButCaps(e, f) && Good(e.budget, s) && round + Work(s.tasks) < maxRounds
    requires Slack(f.budget, Run(f, Uninterrupted(), s, round, maxRounds).state)
    requires !Slack(e.budget, Run(f, Uninterrupted(), s, round, maxRounds).state)
    ensures Exhausted(Run(e, Uninterrupted(), s, round, maxRounds).halt)
    decreases maxRounds - round
  {
    WorkBound(e.budget, s.tasks);
    GoodUnderOtherCaps(e, f, s);
    CountersGrow(f, s, round, maxRounds);
    OneRound(e, Uninterrupted(), s, round, maxRounds);
    OneRound(f, Uninterrupted(), s, round, maxRounds);
    if Slack(e.budget, s) {
      SameKindOfRound(e, f, s);
      WorkAfterRound(e, s);
      var next := PlayRound(e, Go, s).state;
      if next.totalAttempts < e.budget.maxTotalAttempts {
        var played := PlayRound(f, Go, s);
        WorkAfterRound(f, s);
        CountersGrow(f, played.state, round + 1, maxRounds);
        if played.state.totalAttempts > s.totalAttempts {
          SameRoundWithSlack(e, f, s);
        }
        NoSlackMeansExhausted(e, f, next, round + 1, maxRounds);
      } else {
        WorkBound(e.budget, next.tasks);
        OneRound(e, Uninterrupted(), next, round + 1, maxRounds);
      }
    }
  }

  /**
   * An uninterrupted run is ended by a cap exactly when the run that has caps to spare uses one of
   * them up; otherwise the two runs are the same.
   */
  lemma CapsEndRunIff(e: Engine, s: State, attempts: nat, calls: nat)
    requires Good(e.budget, s)
    requires Slack(WithCaps(e, attempts, calls).budget, RunPlan(WithCaps(e, attempts, calls), Uninterrupted(), s).state)
    ensures var o := RunPlan(e, Uninterrupted(), s);
            var free := RunPlan(WithCaps(e, attempts, calls), Uninterrupted(), s);
            && (Exhausted(o.halt) <==>
                  free.state.totalAttempts >= e.budget.maxTotalAttempts
                    || free.state.externalCalls >= e.budget.maxExternalCalls)
            && (!Exhausted(o.halt) ==> o == free)
  {
    var f := WithCaps(e, attempts, calls);
    var max := MaxRounds(e.budget, |s.tasks|);
    var free := RunPlan(f, Uninterrupted(), s);
    WorkBound(e.budget, s.tasks);
    if Slack(e.budget, free.state) {
      SlackMeansSameRun(e, f, s, 0, max);
      ExhaustedHasNoSlack(f, s, 0, max);
    } else {
      NoSlackMeansExhausted(e, f, s, 0, max);
    }
  }

  lemma {:induction false} ExhaustedHasNoSlack(f: Engine, s: State, round: nat, maxRounds: nat)
    ensures var o := Run(f, Uninterrupted(), s, round, maxRounds);
            Exhausted(o.halt) ==> !Slack(f.budget, o.state)
    decreases maxRounds - round
  {
    if round < maxRounds {
      OneRound(f, Uninterrupted(), s, round, maxRounds);
      var played := PlayRound(f, Go, s);
      if played.Next? {
        ExhaustedHasNoSlack(f, played.state, round + 1, maxRounds);
      }
    }
  }

  // ----- A run whose every task succeeded and that is still reported as over budget -----

  const LONE_TASK := Task(1, [], Pending, 1, true, 0, 1)

  function LoneEngine(): Engine {
    Engine(Budget(1, 1, 1, 1, 1), Company(0, {}, {}), (calls, t: Task) => TaskResult(t.id, Success, [], false, None))
  }

  function RoomyEngine(): Engine {
    WithCaps(LoneEngine(), 2, 2)
  }

  lemma LonePlanIsFresh(e: Engine)
    requires e == LoneEngine() || e == RoomyEngine()
    ensures FreshPlan([LONE_TASK]) && Accepts(e.budget, [LONE_TASK]) && ConstructibleBudget(e.budget)
  {
    var plan := [LONE_TASK];
    assert RanksAbove(plan[0], map[]);
    assert Ranked(plan, map[]);
    assert plan[..0] == [];
    assert Depth(plan, LONE_TASK) == 1 by {
      forall x ensures !Reaches(plan, [], x) {}
      assert Ancestors(plan, []) == {};
    }
    assert TaskWithin(e.budget, plan, plan[0]);
    assert SumMaxAttempts(plan) == SumMaxAttempts(plan[..0]) + 1;
  }

  lemma LoneTaskIsNext()
    ensures Propagated([LONE_TASK]) == [LONE_TASK]
    ensures NextIndex([LONE_TASK]) == 0
  {
    var plan := [LONE_TASK];
    assert !Doomed(plan, LONE_TASK);
    assert Propagated(plan)[0] == plan[0];
    assert Runnable(plan, plan[0]);
    assert IsNext(plan, 0);
    NextIsUnique(plan, 0);
  }

  const LONE_RESULT := TaskResult(1, Success, [], false, None)

  function LoneStart(): State {
    State([LONE_TASK], 0, 0, [], [], {}, [])
  }

  const LONE_TASK_DONE := LONE_TASK.(status := Succeeded, attemptCount := 1)

  function LoneNext(): State {
    State([LONE_TASK_DONE], 1, 1, [LONE_RESULT], [], {1}, [Call(Started(LONE_TASK), LONE_RESULT)])
  }

  lemma LoneResult(e: Engine)
    requires e == LoneEngine() || e == RoomyEngine()
    ensures CallResult(e, 0, Started(LONE_TASK)) == LONE_RESULT
    ensures AfterCall(e.budget, Started(LONE_TASK), LONE_RESULT, 1) == LONE_TASK_DONE
  {
  }

  lemma LoneCall(e: Engine)
    requires e == LoneEngine() || e == RoomyEngine()
    ensures Attempt(e, LoneStart(), 0) == Next(LoneNext())
  {
    LoneResult(e);
    hide CallResult, AfterCall;
    var s := LoneStart();
    assert s.tasks[0 := LONE_TASK_DONE] == [LONE_TASK_DONE];
    assert Called(e, s, 0) == LoneNext();
    hide Called, LoneNext;
  }

  lemma LoneStarts()
    ensures LoneStart() == StartState([LONE_TASK], 0, 0, [], [], []) && Propagate(LoneStart()) == LoneStart()
  {
    LoneTaskIsNext();
    hide Propagated, NextIndex;
    assert [LONE_TASK][0] == LONE_TASK;
    assert SucceededIds([LONE_TASK]) == {};
  }

  lemma LoneFirstRound(e: Engine)
    requires e == LoneEngine() || e == RoomyEngine()
    ensures PlayRound(e, Go, LoneStart()) == Next(LoneNext())
  {
    LoneStarts();
    LoneTaskIsNext();
    LoneCall(e);
    hide Attempt, Propagate, NextIndex, LoneNext;
  }

  lemma LoneTaskDone()
    ensures AllSettled([LONE_TASK_DONE]) && AllRequiredSucceeded([LONE_TASK_DONE]) && CountPartial([LONE_RESULT]) == 0
  {
    var ts, rs := [LONE_TASK_DONE], [LONE_RESULT];
    assert ts[0].required;
    assert rs[..0] == [];
  }

  /**
   * The run is over budget although its only task succeeded: its one call used up a cap, and the
   * caps are looked at before the question whether anything is left to run.
   */
  lemma AllSucceededYetOverBudget()
    ensures var e, plan := LoneEngine(), [LONE_TASK];
            var o := RunPlan(e, Uninterrupted(), StartState(plan, 0, 0, [], [], []));
            && FreshPlan(plan) && Accepts(e.budget, plan) && ConstructibleBudget(e.budget)
            && AllRequiredSucceeded(o.state.tasks)
            && Classify(o.halt, o.state.tasks, CountPartial(o.state.results)) == RunBudgetExceeded
  {
    var e := LoneEngine();
    LonePlanIsFresh(e);
    LoneStarts();
    LoneFirstRound(e);
    LoneTaskDone();
    hide FreshPlan, Accepts, ConstructibleBudget, AllRequiredSucceeded, StartState;
    OneRound(e, Uninterrupted(), LoneStart(), 0, 4);
    OneRound(e, Uninterrupted(), LoneNext(), 1, 4);
  }

  /** With a unit of each cap to spare the same plan completes, in one call. */
  lemma LoneRunCompletes()
    ensures var e, plan := RoomyEngine(), [LONE_TASK];
            var o := RunPlan(e, Uninterrupted(), StartState(plan, 0, 0, [], [], []));
            && FreshPlan(plan) && Accepts(e.budget, plan) && ConstructibleBudget(e.budget)
            && o == Outcome(LoneNext(), Finished)
            && Classify(o.halt, o.state.tasks, CountPartial(o.state.results)) == RunCompleted
  {
    var e := RoomyEngine();
    LonePlanIsFresh(e);
    LoneStarts();
    LoneFirstRound(e);
    LoneLastRound(e);
    LoneTaskDone();
    hide FreshPlan, Accepts, ConstructibleBudget, AllRequiredSucceeded, StartState, PlayRound;
    OneRound(e, Uninterrupted(), LoneStart(), 0, 4);
    OneRound(e, Uninterrupted(), LoneNext(), 1, 4);
  }

  lemma LoneLastRound(e: Engine)
    requires e == RoomyEngine()
    ensures PlayRound(e, Go, LoneNext()) == Stop(LoneNext(), Finished)
  {
    LoneTaskDone();
    SettledStay([LONE_TASK_DONE]);
    hide Propagated, NextIndex;
    assert Finalized([LONE_TASK_DONE]) == [LONE_TASK_DONE];
  }
}
