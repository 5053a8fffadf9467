/**
 * The rounds of a plan execution as a function of the state, the executor and the polled control
 * (src/financial_intelligence/application/execute_research_plan.py, execute_prepared).
 */
module PlanExecution {
  import opened ResearchTasks
  import opened Scheduling
  import opened ExecutionBudgets
  import opened TaskResults

  /** What the loop sees when it polls the execution control. */
  datatype Control = Go | Pause | Cancel

  datatype Warning =
    | PartialResult(id: TaskId) | DuplicatePrevented(id: TaskId) | StartRefusal(error: TaskError) | NoProgressGuard

  /** One executor invocation: the running task it was given and the result after the identity check. */
  datatype Call = Call(task: Task, result: TaskResult)

  /**
   * The orchestration state together with the loop's own variables. `succeeded` is the set of
   * identities that must not run again; `trace` records every executor call, over all resumed
   * segments.
   */
  datatype State = State(
    tasks: seq<Task>,
    totalAttempts: nat,
    externalCalls: nat,
    results: seq<TaskResult>,
    warnings: seq<Warning>,
    succeeded: set<TaskId>,
    trace: seq<Call>)

  datatype Halt =
    | Cancelled | Paused | AttemptsExhausted | CallsExhausted | Finished
    | CallsWouldExceed | StartRefused | AttemptsWouldExceed | NoProgress

  datatype Round = Next(state: State) | Stop(state: State, halt: Halt)

  /**
   * The fixed surroundings of a run. The executor is arbitrary: its answer may depend on the
   * number of calls made before and on the running task it is given.
   */
  datatype Engine = Engine(budget: Budget, company: Company, execute: (nat, Task) -> TaskResult)

  // ----- One round -----

  function Skip(t: Task): Task {
    if t.Unsettled() then t.(status := Skipped) else t
  }

  /** A hard cancel skips whatever has not started. */
  function SkipUnsettled(ts: seq<Task>): (r: seq<Task>)
    ensures |r| == |ts|
  {
    seq(|ts|, i requires 0 <= i < |ts| => Skip(ts[i]))
  }

  function GiveUpPending(t: Task): Task {
    if t.status.Pending? then GivenUp(t) else t
  }

  /** The natural end: propagate once more and give up what is still PENDING. */
  ghost function Finalized(ts: seq<Task>): (r: seq<Task>)
    ensures |r| == |ts|
  {
    seq(|ts|, i requires 0 <= i < |ts| => GiveUpPending(Propagated(ts)[i]))
  }

  /** A task whose attempts are used up is ended without a call. */
  function EndWithoutCall(t: Task): Task {
    if t.attemptCount < t.maxAttempts then t.(status := Failed, attemptCount := t.attemptCount + 1)
    else t.(status := Skipped)
  }

  function Started(t: Task): Task {
    t.(status := Running, attemptCount := t.attemptCount + 1)
  }

  /** The task after a call: settled by the result, or READY again when a retry is authorised. */
  function AfterCall(budget: Budget, running: Task, result: TaskResult, totalAttempts: nat): Task {
    var finished := running.(status := TaskStatusOf(result.status));
    if finished.status.Failed? && ShouldRetry(finished, result, budget, totalAttempts)
    then finished.(status := Ready)
    else finished
  }

  function CallResult(e: Engine, calls: nat, running: Task): TaskResult {
    EnforceIdentity(e.execute(calls, running), e.company, running)
  }

  function Called(e: Engine, s: State, i: nat): State
    requires i < |s.tasks|
  {
    var running := Started(s.tasks[i]);
    var result := CallResult(e, |s.trace|, running);
    var after := AfterCall(e.budget, running, result, s.totalAttempts + 1);
    s.(tasks := s.tasks[i := after],
       totalAttempts := s.totalAttempts + 1,
       externalCalls := s.externalCalls + 1,
       results := s.results + [result],
       warnings := s.warnings + (if result.status.Partial? then [PartialResult(running.id)] else []),
       succeeded := if after.status.Succeeded? then s.succeeded + {running.id} else s.succeeded,
       trace := s.trace + [Call(running, result)])
  }

  /** The call of task `i` fails and the retry policy lets it run again. */
  predicate RetryGranted(e: Engine, s: State, i: nat)
    requires i < |s.tasks|
  {
    var running := Started(s.tasks[i]);
    var result := CallResult(e, |s.trace|, running);
    var finished := running.(status := TaskStatusOf(result.status));
    finished.status.Failed? && ShouldRetry(finished, result, e.budget, s.totalAttempts + 1)
  }

  /** The round once task `i` has been selected. */
  function Attempt(e: Engine, s: State, i: nat): Round
    requires i < |s.tasks|
  {
    var t := s.tasks[i];
    if t.id in s.succeeded then
      Next(s.(tasks := s.tasks[i := Skip(t)], warnings := s.warnings + [DuplicatePrevented(t.id)]))
    else if s.externalCalls + 1 > e.budget.maxExternalCalls then
      Stop(s, CallsWouldExceed)
    else if t.attemptCount >= e.budget.maxAttemptsPerTask then
      Next(s.(tasks := s.tasks[i := EndWithoutCall(t)], results := s.results + [Violation(t.id)]))
    else if t.attemptCount + 1 > t.maxAttempts then
      Stop(s.(warnings := s.warnings + [StartRefusal(AttemptsExceeded)]), StartRefused)
    else if s.totalAttempts + 1 > e.budget.maxTotalAttempts then
      Stop(s.(tasks := s.tasks[i := Started(t).(status := Failed)], results := s.results + [Violation(t.id)]),
           AttemptsWouldExceed)
    else
      Next(Called(e, s, i))
  }

  /** The round once failures have been propagated. */
  ghost function Scheduled(e: Engine, s: State): Round {
    var i := NextIndex(s.tasks);
    if 0 <= i < |s.tasks| then Attempt(e, s, i)
    else Stop(s.(tasks := Finalized(s.tasks)), Finished)
  }

  ghost function Propagate(s: State): State {
    s.(tasks := Propagated(s.tasks))
  }

  ghost function PlayRound(e: Engine, control: Control, s: State): Round {
    match control
    case Cancel => Stop(s.(tasks := SkipUnsettled(s.tasks)), Cancelled)
    case Pause => Stop(s, Paused)
    case Go =>
      if s.totalAttempts >= e.budget.maxTotalAttempts then Stop(s, AttemptsExhausted)
      else if s.externalCalls >= e.budget.maxExternalCalls then Stop(s, CallsExhausted)
      else Scheduled(e, Propagate(s))
  }

  // ----- A whole run -----

  datatype Outcome = Outcome(state: State, halt: Halt)

  /** Plays rounds `round + 1`, `round + 2`, ... until one stops or `maxRounds` have been played. */
  ghost function Run(e: Engine, poll: nat -> Control, s: State, round: nat, maxRounds: nat): Outcome
    decreases maxRounds - round
  {
    if round >= maxRounds then
      Outcome(s.(warnings := s.warnings + [NoProgressGuard]), NoProgress)
    else
      match PlayRound(e, poll(round + 1), s)
      case Stop(last, halt) => Outcome(last, halt)
      case Next(s') => Run(e, poll, s', round + 1, maxRounds)
  }

  /** A run is its next round, and the run from there. */
  lemma OneRound(e: Engine, poll: nat -> Control, s: State, round: nat, maxRounds: nat)
    requires round < maxRounds
    ensures Run(e, poll, s, round, maxRounds) ==
              match PlayRound(e, poll(round + 1), s)
              case Stop(last, halt) => Outcome(last, halt)
              case Next(s') => Run(e, poll, s', round + 1, maxRounds)
  {
  }

  function MaxRounds(b: Budget, tasks: nat): nat {
    tasks * b.maxAttemptsPerTask + tasks + 2
  }

  /** The state a run starts from, fresh or seeded from a checkpoint. */
  ghost function StartState(plan: seq<Task>, totalAttempts: nat, externalCalls: nat, results: seq<TaskResult>,
                            warnings: seq<Warning>, trace: seq<Call>): State
  {
    State(plan, totalAttempts, externalCalls, results, warnings, SucceededIds(plan), trace)
  }

  ghost function RunPlan(e: Engine, poll: nat -> Control, s: State): Outcome {
    Run(e, poll, s, 0, MaxRounds(e.budget, |s.tasks|))
  }
}
