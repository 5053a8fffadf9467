/** Research tasks and their lifecycle (src/financial_intelligence/domain/orchestration/tasks.py). */
module ResearchTasks {
  import opened Outcomes

  /** A task identity is a UUID. The order of the canonical texts is the numeric order. */
  type TaskId = int

  datatype TaskStatus = Pending | Ready | Running | Succeeded | Failed | Skipped | Blocked

  datatype Task = Task(
    id: TaskId,
    dependencies: seq<TaskId>,
    status: TaskStatus,
    priority: int,
    required: bool,
    attemptCount: int,
    maxAttempts: int)
  {
    /** The part of a task that no transition changes and that fixes its place in a plan. */
    function Shape(): Task {
      this.(status := Pending, attemptCount := 0)
    }

    predicate Unsettled() {
      status.Pending? || status.Ready?
    }

    predicate Failing() {
      status.Failed? || status.Blocked? || status.Skipped?
    }
  }

  datatype TaskError = InvalidTransition | RetryNotAuthorized | AttemptsExceeded

  /** What the task constructor accepts. */
  predicate Constructible(t: Task) {
    && 1 <= t.priority <= 1000
    && 1 <= t.maxAttempts <= 10
    && 0 <= t.attemptCount <= t.maxAttempts
    && t.id !in t.dependencies
  }

  function AllowedTransitions(s: TaskStatus): set<TaskStatus> {
    match s
    case Pending => {Ready, Blocked, Skipped}
    case Ready => {Running, Blocked, Skipped, Pending}
    case Running => {Succeeded, Failed, Blocked, Skipped}
    case Succeeded => {}
    case Failed => {Ready}
    case Skipped => {}
    case Blocked => {Ready, Skipped}
  }

  /** The transition table read by the status that is entered. */
  lemma EnteredFrom(from: TaskStatus, to: TaskStatus)
    ensures to in AllowedTransitions(from) <==>
              match to
              case Pending => from == Ready
              case Ready => from == Pending || from == Failed || from == Blocked
              case Running => from == Ready
              case Succeeded => from == Running
              case Failed => from == Running
              case Skipped => from == Pending || from == Ready || from == Running || from == Blocked
              case Blocked => from == Pending || from == Ready || from == Running
  {
  }

  /** A validated lifecycle step; entering RUNNING counts one attempt. */
  function WithStatus(t: Task, status: TaskStatus, authorizedRetry: bool := false): (r: Result<Task, TaskError>)
    ensures r.Ok? <==>
      && status in AllowedTransitions(t.status)
      && (t.status.Failed? && status.Ready? ==> authorizedRetry)
      && (status.Running? ==> t.attemptCount < t.maxAttempts)
    ensures r.Ok? ==>
      && r.value.status == status
      && r.value.attemptCount == t.attemptCount + (if status.Running? then 1 else 0)
      && r.value.Shape() == t.Shape()
      && (Constructible(t) ==> Constructible(r.value))
  {
    if status !in AllowedTransitions(t.status) then Err(InvalidTransition)
    else if t.status.Failed? && status.Ready? && !authorizedRetry then Err(RetryNotAuthorized)
    else if status.Running? && t.attemptCount + 1 > t.maxAttempts then Err(AttemptsExceeded)
    else Ok(t.(status := status, attemptCount := if status.Running? then t.attemptCount + 1 else t.attemptCount))
  }
}
