/**
 * The research workflow record and its lifecycle
 * (src/financial_intelligence/domain/workflow/status.py, model.py, approval.py, checkpoint.py).
 */
module Workflows {
  import opened Outcomes
  import ResearchTasks
  import Resume

  datatype WorkflowStatus =
    | Created | Ready | Running | Paused | AwaitingApproval
    | Completed | Partial | Failed | Cancelled

  datatype ApprovalStatus = NotRequired | Pending | Approved | Rejected

  /** Times, counts, messages and the company query are left out of the record. */
  datatype Workflow = Workflow(
    id: int,
    runId: int,
    requestId: int,
    companyId: int,
    planId: int,
    plan: seq<ResearchTasks.Task>,
    status: WorkflowStatus,
    approval: ApprovalStatus,
    approvalRequired: bool,
    version: nat,
    checkpoint: Option<Resume.Checkpoint>)

  datatype WorkflowError = InvalidTransition | CheckpointVersion | AlreadyDecided | TerminalWorkflow

  function Allowed(s: WorkflowStatus): set<WorkflowStatus> {
    match s
    case Created => {Ready, AwaitingApproval, Cancelled}
    case Ready => {Running, AwaitingApproval, Cancelled}
    case Running => {Paused, AwaitingApproval, Completed, Partial, Failed, Cancelled}
    case Paused => {Ready, Running, Cancelled}
    case AwaitingApproval => {Ready, Cancelled, Failed}
    case Completed => {}
    case Partial => {}
    case Failed => {}
    case Cancelled => {}
  }

  predicate Terminal(s: WorkflowStatus) {
    s in {Completed, Partial, Failed, Cancelled}
  }

  function WithStatus(w: Workflow, status: WorkflowStatus): Result<Workflow, WorkflowError> {
    if status in Allowed(w.status) then Ok(w.(status := status)) else Err(InvalidTransition)
  }

  /** A checkpoint must be the next version; it replaces the plan of the record. */
  function WithCheckpoint(w: Workflow, c: Resume.Checkpoint, version: nat): Result<Workflow, WorkflowError> {
    if version != w.version + 1 then Err(CheckpointVersion)
    else Ok(w.(plan := c.tasks, checkpoint := Some(c), version := version))
  }

  function WithApproval(w: Workflow, decision: ApprovalStatus, next: WorkflowStatus): Result<Workflow, WorkflowError> {
    if w.approval != Pending then Err(AlreadyDecided)
    else if Terminal(w.status) then Err(TerminalWorkflow)
    else
      match WithStatus(w, next)
      case Ok(updated) => Ok(updated.(approval := decision))
      case Err(e) => Err(e)
  }

  /** The record a new workflow starts with, once its status has left CREATED. */
  function NewWorkflow(id: int, runId: int, requestId: int, companyId: int, planId: int,
                       plan: seq<ResearchTasks.Task>, required: bool): Workflow
  {
    var approval := if required then Pending else NotRequired;
    var created := Workflow(id, runId, requestId, companyId, planId, plan, Created, approval, required, 0, None);
    WithStatus(created, if required then AwaitingApproval else Ready).value
  }

  /** How status and approval go together in every record that is ever stored. */
  predicate Legal(w: Workflow) {
    if !w.approvalRequired then
      w.approval == NotRequired && w.status != AwaitingApproval && w.status != Created
    else
      match w.status
      case Created => false
      case AwaitingApproval => w.approval == Pending
      case Ready => w.approval == Approved
      case Running => w.approval == Approved
      case Paused => w.approval == Approved
      case Completed => w.approval == Approved
      case Partial => w.approval == Approved
      case Failed => w.approval == Approved || w.approval == Rejected
      case Cancelled => w.approval == Pending || w.approval == Approved
  }

  /** The transitions seen from where they lead: the statuses that each status is entered from. */
  lemma EnteredFrom(from: WorkflowStatus, to: WorkflowStatus)
    ensures to in Allowed(from) <==>
              match to
              case Created => false
              case Ready => from == Created || from == Paused || from == AwaitingApproval
              case Running => from == Ready || from == Paused
              case Paused => from == Running
              case AwaitingApproval => from == Created || from == Ready || from == Running
              case Completed => from == Running
              case Partial => from == Running
              case Failed => from == Running || from == AwaitingApproval
              case Cancelled => from == Created || from == Ready || from == Running || from == Paused
                                || from == AwaitingApproval
  {
  }

  lemma TerminalHasNoExit(s: WorkflowStatus)
    ensures Terminal(s) <==> Allowed(s) == {}
  {
    if !Terminal(s) {
      assert Cancelled in Allowed(s);
    }
  }
}
