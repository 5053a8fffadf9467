/**
 * The bounded execution loop and its report, proved against the rounds of PlanExecution
 * (src/financial_intelligence/application/execute_research_plan.py).
 */
module ExecutionLoop {
  import opened Outcomes
  import opened ResearchTasks
  import opened TaskSteps
  import opened TaskGraph
  import opened TopologicalOrder
  import opened ResearchPlans
  import opened Scheduling
  import opened ExecutionBudgets
  import opened TaskResults
  import opened PlanExecution

  // ----- Plan updates: every one validates and sorts again -----

  method Resort(given: seq<Task>, ghost plan: seq<Task>, ghost updated: seq<Task>) returns (r: seq<Task>)
    requires ValidPlan(plan) && SameShapes(plan, updated) && SameTasks(given, updated)
    ensures r == updated && ValidPlan(r)
  {
    SameShapesSamePlan(plan, updated);
    SameTasksCompose(given, updated, updated);
    RearrangedGraphIsValid(updated, given);
    var made := MakePlan(given);
    r := made.value;
    ResortKeepsPlanOrder(plan, updated, given, r);
  }

  lemma RearrangedGraphIsValid(plan: seq<Task>, given: seq<Task>)
    requires ValidPlan(plan) && SameTasks(plan, given)
    ensures given != [] && ValidGraph(given)
  {
    assert plan[0].id in Ids(given);
    var rank :| Ranked(plan, rank);
    forall i | 0 <= i < |given|
      ensures DependsWithin(given[i], Ids(given)) && Distinct(given[i].dependencies) && RanksAbove(given[i], rank)
    {
      assert given[i].id in Ids(given);
      var k := IndexOf(plan, given[i].id);
      assert plan[k] == given[i];
      assert DependsWithin(plan[k], Ids(plan)) && Distinct(plan[k].dependencies) && RanksAbove(plan[k], rank);
    }
    assert Ranked(given, rank);
  }

  method ReplaceTask(plan: seq<Task>, task: Task, ghost i: nat) returns (r: seq<Task>)
    requires ValidPlan(plan) && i < |plan| && task.Shape() == plan[i].Shape()
    ensures r == plan[i := task] && ValidPlan(r)
  {
    ShapeDecidesChoice(task, plan[i], {});
    var given := seq(|plan|, k requires 0 <= k < |plan| => if plan[k].id == task.id then task else plan[k]);
    forall k | 0 <= k < |plan| ensures given[k] == plan[i := task][k] {
      assert k != i ==> plan[k].id != plan[i].id;
    }
    assert given == plan[i := task];
    SameShapesSamePlan(plan, given);
    r := Resort(given, plan, given);
  }

  method PropagateFailures(plan: seq<Task>) returns (r: seq<Task>, ghost steps: seq<Step>)
    requires ValidPlan(plan)
    ensures r == Propagated(plan) && ValidPlan(r)
    ensures Replay(plan, steps) == Some(r) && OnlySettles(steps)
  {
    var propagated;
    propagated, steps := ApplyFailurePropagation(plan);
    PropagatedShapes(plan);
    r := Resort(propagated, plan, Propagated(plan));
  }

  /** One more lifecycle step of the task at position `i`. */
  lemma LogStep(ts: seq<Task>, steps: seq<Step>, us: seq<Task>, i: nat, to: TaskStatus, retry: bool)
    requires Replay(ts, steps) == Some(us) && i < |us| && WithStatus(us[i], to, retry).Ok?
    ensures Replay(ts, steps + [Step(i, to, retry)]) == Some(us[i := WithStatus(us[i], to, retry).value])
  {
    ReplayOneMore(ts, steps, Step(i, to, retry));
  }

  lemma LogTwoSteps(ts: seq<Task>, steps: seq<Step>, us: seq<Task>, i: nat, via: TaskStatus, to: TaskStatus, t: Task)
    requires Replay(ts, steps) == Some(us) && i < |us| && WithStatus(us[i], via).Ok?
    requires WithStatus(WithStatus(us[i], via).value, to) == Ok(t)
    ensures Replay(ts, steps + [Step(i, via, false), Step(i, to, false)]) == Some(us[i := t])
  {
    LogStep(ts, steps, us, i, via, false);
    LogStep(ts, steps + [Step(i, via, false)], us[i := WithStatus(us[i], via).value], i, to, false);
    assert us[i := WithStatus(us[i], via).value][i := t] == us[i := t];
    assert steps + [Step(i, via, false)] + [Step(i, to, false)] == steps + [Step(i, via, false), Step(i, to, false)];
  }

  /** The first `i` of the tasks are done, as in `target`; the others are still as in `from`. */
  ghost predicate DoneUpTo(us: seq<Task>, i: nat, from: seq<Task>, target: seq<Task>)
    requires |from| == |target|
  {
    && |us| == |target|
    && (forall k :: 0 <= k < i && k < |us| ==> us[k] == target[k])
    && (forall k :: i <= k < |us| ==> us[k] == from[k])
  }

  /** Gives up a task that is still PENDING; `us` are the tasks as the steps have left them. */
  method GiveUpIfPending(task: Task, ghost ts: seq<Task>, ghost steps0: seq<Step>, ghost us: seq<Task>, ghost i: nat)
    returns (r: Task, ghost steps: seq<Step>)
    requires Replay(ts, steps0) == Some(us) && OnlySettles(steps0) && i < |us| && us[i] == task
    ensures r == GiveUpPending(task)
    ensures Replay(ts, steps) == Some(us[i := r]) && OnlySettles(steps)
  {
    r, steps := task, steps0;
    if task.status.Pending? {
      if task.required {
        LogStep(ts, steps, us, i, Blocked, false);
        steps := steps + [Step(i, Blocked, false)];
        r := WithStatus(task, Blocked).value;
      } else {
        var current := WithStatus(task, Ready).value;
        r := WithStatus(current, Skipped).value;
        LogTwoSteps(ts, steps, us, i, Ready, Skipped, r);
        steps := steps + [Step(i, Ready, false), Step(i, Skipped, false)];
      }
    } else {
      assert us[i := task] == us;
    }
  }

  /** The natural end of a run: what is left PENDING is given up step by step. */
  method FinalizeNoReady(plan: seq<Task>) returns (r: seq<Task>, ghost steps: seq<Step>)
    requires ValidPlan(plan)
    ensures r == Finalized(plan) && ValidPlan(r)
    ensures forall i :: 0 <= i < |plan| ==>
              var t := Propagated(plan)[i];
              r[i] == if t.status == Pending then t.(status := if t.required then Blocked else Skipped) else t
    ensures Replay(plan, steps) == Some(r) && OnlySettles(steps)
  {
    var propagated;
    propagated, steps := PropagateFailures(plan);
    var finalTasks: seq<Task> := [];
    ghost var us, target := propagated, Finalized(plan);
    for i := 0 to |propagated|
      invariant |finalTasks| == i && DoneUpTo(us, i, propagated, target)
      invariant forall k :: 0 <= k < i ==> finalTasks[k] == target[k]
      invariant Replay(plan, steps) == Some(us) && OnlySettles(steps)
    {
      var task;
      task, steps := GiveUpIfPending(propagated[i], plan, steps, us, i);
      us := us[i := task];
      finalTasks := finalTasks + [task];
    }
    assert finalTasks == target && us == target;
    PropagatedShapes(plan);
    SameShapesSamePlan(plan, finalTasks);
    r := Resort(finalTasks, plan, finalTasks);
  }

  /** Skips a task that has not started; `us` are the tasks as the steps have left them. */
  method SkipIfUnsettled(task: Task, ghost ts: seq<Task>, ghost steps0: seq<Step>, ghost us: seq<Task>, ghost i: nat)
    returns (r: Task, ghost steps: seq<Step>)
    requires Replay(ts, steps0) == Some(us) && OnlySettles(steps0) && i < |us| && us[i] == task
    ensures r == Skip(task)
    ensures Replay(ts, steps) == Some(us[i := r]) && OnlySettles(steps)
  {
    r, steps := task, steps0;
    if task.status.Pending? {
      var current := WithStatus(task, Ready).value;
      r := WithStatus(current, Skipped).value;
      LogTwoSteps(ts, steps, us, i, Ready, Skipped, r);
      steps := steps + [Step(i, Ready, false), Step(i, Skipped, false)];
    } else if task.status.Ready? {
      LogStep(ts, steps, us, i, Skipped, false);
      steps := steps + [Step(i, Skipped, false)];
      r := WithStatus(task, Skipped).value;
    } else {
      assert us[i := task] == us;
    }
  }

  /** A hard cancel: PENDING and READY tasks become SKIPPED. */
  method SkipRemaining(plan: seq<Task>) returns (r: seq<Task>, ghost steps: seq<Step>)
    requires ValidPlan(plan)
    ensures r == SkipUnsettled(plan) && ValidPlan(r)
    ensures forall i :: 0 <= i < |plan| ==>
              r[i] == if plan[i].status == Pending || plan[i].status == Ready then plan[i].(status := Skipped)
                else plan[i]
    ensures Replay(plan, steps) == Some(r) && OnlySettles(steps)
  {
    var updated: seq<Task> := [];
    steps := [];
    ghost var us, target := plan, SkipUnsettled(plan);
    for i := 0 to |plan|
      invariant |updated| == i && DoneUpTo(us, i, plan, target)
      invariant forall k :: 0 <= k < i ==> updated[k] == target[k]
      invariant Replay(plan, steps) == Some(us) && OnlySettles(steps)
    {
      var task;
      task, steps := SkipIfUnsettled(plan[i], plan, steps, us, i);
      us := us[i := task];
      updated := updated + [task];
    }
    assert updated == target && us == target;
    SameShapesSamePlan(plan, updated);
    r := Resort(updated, plan, updated);
  }

  // ----- One round -----

  /** Makes a PENDING task READY. */
  method MakeReady(ts: seq<Task>, t: Task, ghost i: nat) returns (ready: Task, ghost steps: seq<Step>)
    requires i < |ts| && ts[i] == t && t.Unsettled()
    ensures ready == t.(status := Ready)
    ensures Replay(ts, steps) == Some(ts[i := ready]) && OnlySettles(steps) && Starts(steps) == 0
  {
    ready, steps := t, [];
    if t.status.Pending? {
      ready := WithStatus(t, Ready).value;
      LogStep(ts, [], ts, i, Ready, false);
      steps := [] + [Step(i, Ready, false)];
    } else {
      assert ts[i := t] == ts;
    }
  }

  /** Ends a task whose attempts are used up, without a call. */
  method Exhaust(ts: seq<Task>, t: Task, ghost i: nat) returns (r: Task, ghost steps: seq<Step>)
    requires i < |ts| && ts[i] == t && t.Unsettled()
    ensures r == EndWithoutCall(t)
    ensures Replay(ts, steps) == Some(ts[i := r]) && forall k :: 0 <= k < |steps| ==> !steps[k].retry
  {
    r, steps := MakeReady(ts, t, i);
    ghost var us := ts[i := r];
    if r.attemptCount < r.maxAttempts {
      r := WithStatus(r, Running).value;
      LogTwoSteps(ts, steps, us, i, Running, Failed, WithStatus(r, Failed).value);
      steps := steps + [Step(i, Running, false), Step(i, Failed, false)];
      r := WithStatus(r, Failed).value;
    } else {
      LogStep(ts, steps, us, i, Skipped, false);
      steps := steps + [Step(i, Skipped, false)];
      r := WithStatus(r, Skipped).value;
    }
    assert us[i := r] == ts[i := r];
  }

  /** Settles a running task by its result; a FAILED task goes back to READY only with the policy's leave. */
  method SettleCall(budget: Budget, ts: seq<Task>, running: Task, result: TaskResult, totalAttempts: nat, ghost i: nat)
    returns (finished: Task, ghost steps: seq<Step>)
    requires i < |ts| && ts[i] == running && running.status.Running?
    ensures finished == AfterCall(budget, running, result, totalAttempts)
    ensures Replay(ts, steps) == Some(ts[i := finished])
    ensures forall k :: 0 <= k < |steps| && steps[k].retry ==> finished.status.Ready? && steps[k].at == i
  {
    var ended := TaskStatusOf(result.status);
    finished := WithStatus(running, ended).value;
    LogStep(ts, [], ts, i, ended, false);
    steps := [] + [Step(i, ended, false)];
    if finished.status.Failed? && ShouldRetry(finished, result, budget, totalAttempts) {
      LogStep(ts, steps, ts[i := finished], i, Ready, true);
      steps := steps + [Step(i, Ready, true)];
      assert ts[i := finished][i := WithStatus(finished, Ready, true).value]
             == ts[i := WithStatus(finished, Ready, true).value];
      finished := WithStatus(finished, Ready, true).value;
    }
  }

  /** The retries among the steps of a round are those the retry policy grants to the task just called. */
  ghost predicate RetriesGranted(e: Engine, s: State, round: Round, steps: seq<Step>) {
    forall k :: 0 <= k < |steps| && steps[k].retry ==>
      && steps[k].at < |s.tasks|
      && round == Next(Called(e, s, steps[k].at))
      && RetryGranted(e, s, steps[k].at)
  }

  method CallExecutor(e: Engine, s: State, running: Task, ghost i: nat) returns (s': State, ghost steps: seq<Step>)
    requires i < |s.tasks| && ValidPlan(s.tasks) && running == Started(s.tasks[i])
    ensures s' == Called(e, s, i) && ValidPlan(s'.tasks)
    ensures Replay(s.tasks[i := running], steps) == Some(s'.tasks) && RetriesGranted(e, s, Next(s'), steps)
  {
    var started := ReplaceTask(s.tasks, running, i);
    var raw := e.execute(|s.trace|, running);
    var result := EnforceIdentity(raw, e.company, running);
    var totalAttempts, externalCalls := s.totalAttempts + 1, s.externalCalls + 1;
    var finished;
    finished, steps := SettleCall(e.budget, started, running, result, totalAttempts, i);
    var succeeded, warnings := s.succeeded, s.warnings;
    if finished.status.Succeeded? {
      succeeded := succeeded + {running.id};
      if result.status.Partial? {
        warnings := warnings + [PartialResult(running.id)];
      }
    }
    var tasks := ReplaceTask(started, finished, i);
    assert tasks == s.tasks[i := finished];
    s' := State(tasks, totalAttempts, externalCalls, s.results + [result], warnings, succeeded,
                s.trace + [Call(running, result)]);
  }

  lemma LogContinues(ts: seq<Task>, a: seq<Step>, us: seq<Task>, b: seq<Step>, vs: seq<Task>)
    requires Replay(ts, a) == Some(us) && Replay(us, b) == Some(vs)
    ensures Replay(ts, a + b) == Some(vs)
  {
    ReplayAppend(ts, a, b);
  }

  /** Starts the task and calls the executor, unless the start is refused or would pass the cap. */
  method Launch(e: Engine, s: State, t: Task, ghost i: nat) returns (round: Round, ghost steps: seq<Step>)
    requires i < |s.tasks| && ValidPlan(s.tasks) && t == s.tasks[i] && t.Unsettled()
    requires t.id !in s.succeeded && s.externalCalls < e.budget.maxExternalCalls
             && t.attemptCount < e.budget.maxAttemptsPerTask
    ensures round == Attempt(e, s, i)
    ensures ValidPlan(round.state.tasks)
    ensures Replay(s.tasks, steps) == Some(round.state.tasks) && RetriesGranted(e, s, round, steps)
  {
    hide ValidPlan, Called;
    var ready;
    ready, steps := MakeReady(s.tasks, t, i);
    var running := WithStatus(ready, Running);
    if running.Err? {
      return Stop(s.(warnings := s.warnings + [StartRefusal(running.error)]), StartRefused), [];
    }
    LogStep(s.tasks, steps, s.tasks[i := ready], i, Running, false);
    steps := steps + [Step(i, Running, false)];
    assert s.tasks[i := ready][i := running.value] == s.tasks[i := running.value];
    if s.totalAttempts + 1 > e.budget.maxTotalAttempts {
      var started := ReplaceTask(s.tasks, running.value, i);
      var failed := WithStatus(running.value, Failed).value;
      LogStep(s.tasks, steps, started, i, Failed, false);
      steps := steps + [Step(i, Failed, false)];
      var tasks := ReplaceTask(started, failed, i);
      assert tasks == s.tasks[i := failed];
      return Stop(s.(tasks := tasks, results := s.results + [Violation(t.id)]), AttemptsWouldExceed), steps;
    }
    ghost var settling: seq<Step>;
    var s';
    s', settling := CallExecutor(e, s, running.value, i);
    LogContinues(s.tasks, steps, s.tasks[i := running.value], settling, s'.tasks);
    return Next(s'), steps + settling;
  }

  /** `steps` logs the lifecycle steps of the round. */
  method AttemptTask(e: Engine, s: State, t: Task, ghost i: nat) returns (round: Round, ghost steps: seq<Step>)
    requires i < |s.tasks| && ValidPlan(s.tasks) && t == s.tasks[i] && t.Unsettled()
    ensures round == Attempt(e, s, i)
    ensures ValidPlan(round.state.tasks)
    ensures Replay(s.tasks, steps) == Some(round.state.tasks) && RetriesGranted(e, s, round, steps)
  {
    hide ValidPlan, Called;
    steps := [];
    if t.id in s.succeeded {
      var skipped := WithStatus(t, Skipped).value;
      LogStep(s.tasks, [], s.tasks, i, Skipped, false);
      var tasks := ReplaceTask(s.tasks, skipped, i);
      return Next(s.(tasks := tasks, warnings := s.warnings + [DuplicatePrevented(t.id)])),
        [] + [Step(i, Skipped, false)];
    }
    if s.externalCalls + 1 > e.budget.maxExternalCalls {
      return Stop(s, CallsWouldExceed), [];
    }
    if t.attemptCount >= e.budget.maxAttemptsPerTask {
      var ended;
      ended, steps := Exhaust(s.tasks, t, i);
      var tasks := ReplaceTask(s.tasks, ended, i);
      return Next(s.(tasks := tasks, results := s.results + [Violation(t.id)])), steps;
    }
    round, steps := Launch(e, s, t, i);
  }

  /** One round; `steps` logs every lifecycle step it takes, by position in the plan. */
  method ExecuteRound(e: Engine, control: Control, s: State) returns (round: Round, ghost steps: seq<Step>)
    requires ValidPlan(s.tasks)
    ensures round == PlayRound(e, control, s)
    ensures ValidPlan(round.state.tasks)
    ensures Replay(s.tasks, steps) == Some(round.state.tasks) && RetriesGranted(e, Propagate(s), round, steps)
  {
    hide Called, Attempt, Propagated, Finalized, SkipUnsettled;
    if control.Cancel? {
      var skipped;
      skipped, steps := SkipRemaining(s.tasks);
      return Stop(s.(tasks := skipped), Cancelled), steps;
    }
    if control.Pause? {
      return Stop(s, Paused), [];
    }
    if s.totalAttempts >= e.budget.maxTotalAttempts {
      return Stop(s, AttemptsExhausted), [];
    }
    if s.externalCalls >= e.budget.maxExternalCalls {
      return Stop(s, CallsExhausted), [];
    }
    var propagated;
    propagated, steps := PropagateFailures(s.tasks);
    var s' := s.(tasks := propagated);
    assert s' == Propagate(s);
    var next := SelectNextReadyTask(s'.tasks);
    ghost var more: seq<Step>;
    if next.None? {
      var final;
      final, more := FinalizeNoReady(s'.tasks);
      LogContinues(s.tasks, steps, s'.tasks, more, final);
      return Stop(s'.(tasks := final), Finished), steps + more;
    }
    round, more := AttemptTask(e, s', next.value, NextIndex(s'.tasks));
    LogContinues(s.tasks, steps, s'.tasks, more, round.state.tasks);
    steps := steps + more;
  }

  // ----- The report -----

  datatype RunStatus = RunCompleted | RunPartial | RunFailed | RunBlocked | RunCancelled | RunBudgetExceeded

  predicate BudgetHalt(halt: Halt) {
    halt.AttemptsExhausted? || halt.CallsExhausted? || halt.CallsWouldExceed? || halt.AttemptsWouldExceed?
  }

  predicate AnyWith(ts: seq<Task>, required: bool, status: TaskStatus) {
    exists i :: 0 <= i < |ts| && ts[i].required == required && ts[i].status == status
  }

  predicate AllRequiredSucceeded(ts: seq<Task>) {
    && (exists i :: 0 <= i < |ts| && ts[i].required)
    && (forall i :: 0 <= i < |ts| && ts[i].required ==> ts[i].status.Succeeded?)
  }

  /** The status a run reports. A FAILED orchestration status is not consulted, only the tasks are. */
  function Classify(halt: Halt, ts: seq<Task>, partialResults: nat): RunStatus {
    if halt.Cancelled? || halt.Paused? then RunCancelled
    else if BudgetHalt(halt) then RunBudgetExceeded
    else if AnyWith(ts, true, Failed) then
      if AnyWith(ts, true, Succeeded) then RunPartial else RunFailed
    else if AnyWith(ts, true, Blocked) then
      if AnyWith(ts, true, Succeeded) then RunPartial else RunBlocked
    else if AllRequiredSucceeded(ts) then
      if partialResults > 0 || AnyWith(ts, false, Failed) then RunPartial else RunCompleted
    else RunPartial
  }

  function CountStatus(ts: seq<Task>, status: TaskStatus): nat {
    if ts == [] then 0
    else CountStatus(ts[..|ts| - 1], status) + (if ts[|ts| - 1].status == status then 1 else 0)
  }

  function CountPartial(results: seq<TaskResult>): nat {
    if results == [] then 0
    else CountPartial(results[..|results| - 1]) + (if results[|results| - 1].status.Partial? then 1 else 0)
  }

  function AllEvidence(results: seq<TaskResult>): seq<EvidenceRef> {
    if results == [] then [] else AllEvidence(results[..|results| - 1]) + results[|results| - 1].evidence
  }

  /** Keeps the first occurrence of every warning. */
  function Deduplicated(warnings: seq<Warning>): seq<Warning> {
    if warnings == [] then []
    else
      var before := Deduplicated(warnings[..|warnings| - 1]);
      var last := warnings[|warnings| - 1];
      if last in before then before else before + [last]
  }

  datatype Report = Report(
    status: RunStatus,
    tasks: seq<Task>,
    totalAttempts: nat,
    externalCalls: nat,
    results: seq<TaskResult>,
    evidence: seq<EvidenceRef>,
    warnings: seq<Warning>,
    completed: nat,
    failed: nat,
    blocked: nat,
    partial: nat,
    skipped: nat)

  ghost predicate Reports(r: Report, o: Outcome) {
    && r.status == Classify(o.halt, o.state.tasks, CountPartial(o.state.results))
    && r.tasks == o.state.tasks
    && r.totalAttempts == o.state.totalAttempts
    && r.externalCalls == o.state.externalCalls
    && r.results == o.state.results
    && r.evidence == DedupedEvidence(AllEvidence(o.state.results))
    && r.warnings == Deduplicated(o.state.warnings)
    && r.completed == CountStatus(o.state.tasks, Succeeded)
    && r.failed == CountStatus(o.state.tasks, Failed)
    && r.blocked == CountStatus(o.state.tasks, Blocked)
    && r.skipped == CountStatus(o.state.tasks, Skipped)
    && r.partial == CountPartial(o.state.results)
  }

  /** The report of an outcome. */
  ghost function ReportOf(o: Outcome): (r: Report)
    ensures Reports(r, o)
  {
    var ts, partial := o.state.tasks, CountPartial(o.state.results);
    Report(Classify(o.halt, ts, partial), ts, o.state.totalAttempts, o.state.externalCalls, o.state.results,
           DedupedEvidence(AllEvidence(o.state.results)), Deduplicated(o.state.warnings),
           CountStatus(ts, Succeeded), CountStatus(ts, Failed), CountStatus(ts, Blocked), partial,
             CountStatus(ts, Skipped))
  }

  /** `stateWarnings` is what the state recorded; the loop's own list extends it. */
  method ToResult(s: State, halt: Halt, stateWarnings: seq<Warning>) returns (r: Report)
    requires stateWarnings <= s.warnings
    ensures Reports(r, Outcome(s, halt))
  {
    var evidence := DedupeEvidence(AllEvidence(s.results));
    var partial := CountPartial(s.results);
    RepeatedPrefixIsDropped(stateWarnings, s.warnings);
    r := Report(
      Classify(halt, s.tasks, partial), s.tasks, s.totalAttempts, s.externalCalls, s.results, evidence,
      Deduplicated(stateWarnings + s.warnings),
      CountStatus(s.tasks, Succeeded), CountStatus(s.tasks, Failed), CountStatus(s.tasks, Blocked),
      partial, CountStatus(s.tasks, Skipped));
  }

  /** Each kept warning is a first occurrence, and the ones kept before it are exactly the warnings before that. */
  lemma {:induction false} DeduplicatedKeepsFirsts(ws: seq<Warning>, k: nat) returns (i: nat)
    requires k < |Deduplicated(ws)|
    ensures i < |ws| && ws[i] == Deduplicated(ws)[k] && ws[i] !in ws[..i]
    ensures forall w :: w in Deduplicated(ws)[..k] <==> w in ws[..i]
  {
    var shorter := ws[..|ws| - 1];
    var before := Deduplicated(shorter);
    DeduplicatedKeeps(shorter);
    if k < |before| {
      i := DeduplicatedKeepsFirsts(shorter, k);
      assert ws[..i] == shorter[..i] && Deduplicated(ws)[..k] == before[..k];
    } else {
      i := |ws| - 1;
      assert Deduplicated(ws)[..k] == before;
    }
  }

  lemma {:induction false} DeduplicatedKeeps(ws: seq<Warning>)
    ensures forall w :: w in Deduplicated(ws) <==> w in ws
  {
    if ws != [] {
      DeduplicatedKeeps(ws[..|ws| - 1]);
      assert ws == ws[..|ws| - 1] + [ws[|ws| - 1]];
    }
  }

  /** Appending warnings already present changes nothing. */
  lemma {:induction false} KnownWarningsAddNothing(known: seq<Warning>, more: seq<Warning>)
    requires forall w :: w in more ==> w in known
    ensures Deduplicated(known + more) == Deduplicated(known)
  {
    if more == [] {
      assert known + more == known;
    } else {
      var shorter, last := more[..|more| - 1], more[|more| - 1];
      assert last in more;
      assert (known + more)[..|known + more| - 1] == known + shorter;
      forall w | w in shorter ensures w in known { assert w in more; }
      KnownWarningsAddNothing(known, shorter);
      DeduplicatedKeeps(known);
    }
  }

  /** Deduplication of a concatenation only depends on the first part through its deduplication. */
  lemma {:induction false} DeduplicatedAppend(a: seq<Warning>, b: seq<Warning>, more: seq<Warning>)
    requires Deduplicated(a) == Deduplicated(b)
    ensures Deduplicated(a + more) == Deduplicated(b + more)
  {
    if more == [] {
      assert a + more == a && b + more == b;
    } else {
      var shorter := more[..|more| - 1];
      assert (a + more)[..|a + more| - 1] == a + shorter && (b + more)[..|b + more| - 1] == b + shorter;
      DeduplicatedAppend(a, b, shorter);
    }
  }

  lemma {:induction false} DeduplicatedTwice(ws: seq<Warning>)
    ensures Deduplicated(Deduplicated(ws)) == Deduplicated(ws)
  {
    if ws != [] {
      var before, last := ws[..|ws| - 1], ws[|ws| - 1];
      DeduplicatedTwice(before);
      var d := Deduplicated(before);
      if last !in d {
        assert (d + [last])[..|d + [last]| - 1] == d;
      }
    }
  }

  lemma RepeatedPrefixIsDropped(prefix: seq<Warning>, ws: seq<Warning>)
    requires prefix <= ws
    ensures Deduplicated(prefix + ws) == Deduplicated(ws)
  {
    var rest := ws[|prefix|..];
    assert ws == prefix + rest && prefix + ws == (prefix + prefix) + rest;
    KnownWarningsAddNothing(prefix, prefix);
    DeduplicatedAppend(prefix + prefix, prefix, rest);
  }

  // ----- The execution -----

  datatype ExecutionResult =
    | IdentityContradiction
    | PlanRefused(error: BudgetError)
    | CancelledBeforeStart(tasks: seq<Task>, skippedCount: nat)
    | Ran(report: Report, halt: Halt, trace: seq<Call>)

  method SucceededAtStart(plan: seq<Task>) returns (ids: set<TaskId>)
    ensures ids == SucceededIds(plan)
  {
    ids := set t | t in plan && t.status.Succeeded? :: t.id;
    forall t | t in plan && t.status.Succeeded? ensures t.id in SucceededIds(plan) {
      var i :| 0 <= i < |plan| && plan[i] == t;
    }
    forall i | 0 <= i < |plan| && plan[i].status.Succeeded? ensures plan[i].id in ids {
      assert plan[i] in plan;
    }
  }

  lemma RoundKeepsWarnings(e: Engine, control: Control, s: State)
    ensures s.warnings <= PlayRound(e, control, s).state.warnings
  {
  }

  /** The retry policy grants another attempt after the call, the attempts of the run being `totalAttempts` by then. */
  predicate GrantsRetry(b: Budget, call: Call, totalAttempts: nat) {
    var finished := call.task.(status := TaskStatusOf(call.result.status));
    finished.status.Failed? && ShouldRetry(finished, call.result, b, totalAttempts)
  }

  /**
   * Call `l` of a trace that began with `calls` calls and `attempts` attempts is of task `id` and
   * grants it a retry.
   */
  ghost predicate GrantedAt(b: Budget, id: TaskId, calls: nat, attempts: nat, trace: seq<Call>, l: nat) {
    calls <= l < |trace| && trace[l].task.id == id && GrantsRetry(b, trace[l], attempts + (l - calls) + 1)
  }

  /** Every logged retry is one that the policy granted after a call of the task. */
  ghost predicate RetriesBacked(b: Budget, plan: seq<Task>, calls: nat, attempts: nat, trace: seq<Call>,
                                steps: seq<Step>) {
    forall k {:trigger steps[k]} :: 0 <= k < |steps| && steps[k].retry ==>
      steps[k].at < |plan| && exists l: nat :: GrantedAt(b, plan[steps[k].at].id, calls, attempts, trace, l)
  }

  /** The trace grows with the attempt counter. */
  lemma RoundCounts(e: Engine, control: Control, s: State)
    ensures var t := PlayRound(e, control, s).state;
            s.trace <= t.trace && |t.trace| - |s.trace| == t.totalAttempts - s.totalAttempts
  {
  }

  lemma RoundBacksRetries(e: Engine, s: State, round: Round, steps: seq<Step>, plan: seq<Task>, calls: nat,
                          attempts: nat)
    requires RetriesGranted(e, Propagate(s), round, steps)
    requires |plan| == |s.tasks| && forall i :: 0 <= i < |plan| ==> plan[i].id == s.tasks[i].id
    requires calls <= |s.trace| && s.totalAttempts == attempts + (|s.trace| - calls)
    ensures RetriesBacked(e.budget, plan, calls, attempts, round.state.trace, steps)
  {
    forall k | 0 <= k < |steps| && steps[k].retry
      ensures steps[k].at < |plan|
              && exists l: nat :: GrantedAt(e.budget, plan[steps[k].at].id, calls, attempts, round.state.trace, l)
    {
      assert GrantedAt(e.budget, plan[steps[k].at].id, calls, attempts, round.state.trace, |s.trace|);
    }
  }

  lemma BackedTogether(b: Budget, plan: seq<Task>, calls: nat, attempts: nat, trace: seq<Call>, more: seq<Call>,
                       steps: seq<Step>, rest: seq<Step>)
    requires RetriesBacked(b, plan, calls, attempts, trace, steps) && trace <= more
    requires RetriesBacked(b, plan, calls, attempts, more, rest)
    ensures RetriesBacked(b, plan, calls, attempts, more, steps + rest)
  {
    forall k | 0 <= k < |steps + rest| && (steps + rest)[k].retry
      ensures (steps + rest)[k].at < |plan|
      ensures exists l: nat :: GrantedAt(b, plan[(steps + rest)[k].at].id, calls, attempts, more, l)
    {
      if k < |steps| {
        var l: nat :| GrantedAt(b, plan[steps[k].at].id, calls, attempts, trace, l);
        assert GrantedAt(b, plan[steps[k].at].id, calls, attempts, more, l);
      } else {
        assert rest[k - |steps|].retry;
      }
    }
  }

  lemma SameIdsAfterReplay(plan: seq<Task>, steps: seq<Step>, ts: seq<Task>)
    requires Replay(plan, steps) == Some(ts)
    ensures |ts| == |plan| && forall i :: 0 <= i < |plan| ==> plan[i].id == ts[i].id
  {
    ReplayKeepsLength(plan, steps);
    forall i | 0 <= i < |plan| ensures plan[i].id == ts[i].id {
      ReplayCountsStarts(plan, steps, i);
    }
  }

  /** The log from the start of a run to the state `s`, every retry in it granted by the policy. */
  ghost predicate LoggedFrom(b: Budget, start: State, s: State, steps: seq<Step>) {
    && Replay(start.tasks, steps) == Some(s.tasks)
    && start.trace <= s.trace && s.totalAttempts == start.totalAttempts + (|s.trace| - |start.trace|)
    && RetriesBacked(b, start.tasks, |start.trace|, start.totalAttempts, s.trace, steps)
  }

  lemma RoundContinuesLog(e: Engine, control: Control, start: State, s: State, steps: seq<Step>, more: seq<Step>)
    requires LoggedFrom(e.budget, start, s, steps)
    requires Replay(s.tasks, more) == Some(PlayRound(e, control, s).state.tasks)
    requires RetriesGranted(e, Propagate(s), PlayRound(e, control, s), more)
    ensures LoggedFrom(e.budget, start, PlayRound(e, control, s).state, steps + more)
  {
    var round := PlayRound(e, control, s);
    LogContinues(start.tasks, steps, s.tasks, more, round.state.tasks);
    SameIdsAfterReplay(start.tasks, steps, s.tasks);
    RoundCounts(e, control, s);
    hide PlayRound, Replay;
    RoundBacksRetries(e, s, round, more, start.tasks, |start.trace|, start.totalAttempts);
    BackedTogether(e.budget, start.tasks, |start.trace|, start.totalAttempts, s.trace, round.state.trace, steps, more);
  }

  /** Round `rounds + 1`: its log continues `steps0`, and what remains of the run is the same. */
  method PlayNextRound(e: Engine, poll: nat -> Control, s: State, rounds: nat, maxRounds: nat,
                       ghost start: State, ghost steps0: seq<Step>)
    returns (s': State, halt: Option<Halt>, ghost steps: seq<Step>)
    requires ValidPlan(s.tasks) && LoggedFrom(e.budget, start, s, steps0) && rounds < maxRounds
    ensures Run(e, poll, s, rounds, maxRounds) ==
              if halt.Some? then Outcome(s', halt.value) else Run(e, poll, s', rounds + 1, maxRounds)
    ensures ValidPlan(s'.tasks) && s.warnings <= s'.warnings
    ensures LoggedFrom(e.budget, start, s', steps)
  {
    hide ValidPlan, PlayRound, LoggedFrom, RetriesGranted;
    var round;
    ghost var more: seq<Step>;
    round, more := ExecuteRound(e, poll(rounds + 1), s);
    s', halt := round.state, if round.Stop? then Some(round.halt) else None;
    RoundContinuesLog(e, poll(rounds + 1), start, s, steps0, more);
    steps := steps0 + more;
    RoundKeepsWarnings(e, poll(rounds + 1), s);
  }

  /** The loop: rounds until one stops, or until the no-progress guard ends it. */
  method PlayRounds(e: Engine, poll: nat -> Control, start: State, maxRounds: nat)
    returns (s: State, last: Halt, ghost steps: seq<Step>)
    requires ValidPlan(start.tasks)
    ensures Outcome(s, last) == Run(e, poll, start, 0, maxRounds)
    ensures ValidPlan(s.tasks) && start.warnings <= s.warnings
    ensures LoggedFrom(e.budget, start, s, steps)
  {
    s, steps := start, [];
    assert LoggedFrom(e.budget, start, s, steps);
    hide PlayRound, ValidPlan, Replay, RetriesBacked;
    var rounds := 0;
    var halt: Option<Halt> := None;
    ghost var whole := Run(e, poll, start, 0, maxRounds);
    while rounds < maxRounds && halt.None?
      invariant rounds <= maxRounds
      invariant ValidPlan(s.tasks) && start.warnings <= s.warnings
      invariant whole == if halt.Some? then Outcome(s, halt.value) else Run(e, poll, s, rounds, maxRounds)
      invariant LoggedFrom(e.budget, start, s, steps)
      decreases maxRounds - rounds, halt.None?
    {
      s, halt, steps := PlayNextRound(e, poll, s, rounds, maxRounds, start, steps);
      rounds := rounds + 1;
    }
    if halt.None? {
      s := s.(warnings := s.warnings + [NoProgressGuard]);
      halt := Some(NoProgress);
    }
    last := halt.value;
  }

  /**
   * Executes a plan. `poll(0)` is the control seen on entry and `poll(r)` the one seen at the head
   * of round `r`; `trace` holds the calls made before, in earlier segments of a resumed run. `steps`
   * logs every lifecycle step from the plan to the reported tasks.
   */
  method ExecutePrepared(
      e: Engine, planCompany: int, plan: seq<Task>, poll: nat -> Control,
      initialTotalAttempts: nat, initialExternalCalls: nat,
      initialResults: seq<TaskResult>, initialWarnings: seq<Warning>, trace: seq<Call>)
    returns (r: ExecutionResult, ghost steps: seq<Step>)
    requires ValidPlan(plan)
    ensures planCompany != e.company.id ==> r == IdentityContradiction
    ensures planCompany == e.company.id && !Accepts(e.budget, plan) ==> r.PlanRefused?
    ensures planCompany == e.company.id && Accepts(e.budget, plan) && !poll(0).Go? ==>
              r == CancelledBeforeStart(SkipUnsettled(plan), |plan|) && Replay(plan, steps) == Some(r.tasks)
    ensures planCompany == e.company.id && Accepts(e.budget, plan) && poll(0).Go? ==>
              var o := RunPlan(e, poll, StartState(plan, initialTotalAttempts, initialExternalCalls,
                                                   initialResults, initialWarnings, trace));
              r.Ran? && Reports(r.report, o) && r.halt == o.halt && r.trace == o.state.trace
              && Replay(plan, steps) == Some(r.report.tasks)
              && RetriesBacked(e.budget, plan, |trace|, initialTotalAttempts, r.trace, steps)
  {
    steps := [];
    if planCompany != e.company.id {
      return IdentityContradiction, [];
    }
    hide ValidPlan, Run, Accepts;
    var valid := ValidateTasks(e.budget, plan);
    if valid.Err? {
      return PlanRefused(valid.error), [];
    }
    if !poll(0).Go? {
      var skipped;
      skipped, steps := SkipRemaining(plan);
      return CancelledBeforeStart(skipped, |skipped|), steps;
    }
    var succeeded := SucceededAtStart(plan);
    var s := State(plan, initialTotalAttempts, initialExternalCalls, initialResults, initialWarnings, succeeded, trace);
    var last, halt;
    last, halt, steps := PlayRounds(e, poll, s, MaxRounds(e.budget, |plan|));
    var report := ToResult(last, halt, initialWarnings);
    return Ran(report, halt, last.trace), steps;
  }
}
