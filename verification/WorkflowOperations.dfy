/**
 * The operations on a workflow. Each reads a record, decides what to commit, and commits it
 * (src/financial_intelligence/application/manage_research_workflow.py).
 */
module WorkflowOperations {
  import opened Outcomes
  import opened Workflows
  import opened WorkflowStore
  import opened Resume
  import ExecutionLoop
  import ResearchTasks

  datatype OperationStatus = OperationOk | NotFound | Conflict | ApprovalRequired | OperationRejected | OperationFailed

  /** What an operation makes of the record it has read. */
  datatype Decision = Refuse(status: OperationStatus) | Settled(status: OperationStatus) | Commit(record: Workflow)

  /** The first half of `execute`: the record goes to RUNNING. */
  function DecideExecute(w: Workflow): Decision {
    if Terminal(w.status) then Refuse(Conflict)
    else if w.approval == Pending then Refuse(ApprovalRequired)
    else if w.approval == Rejected then Refuse(OperationRejected)
    else if w.status !in {Ready, Paused, Running} then Refuse(Conflict)
    else
      match WithStatus(w, Running)
      case Ok(running) => Commit(running)
      case Err(_) => Refuse(Conflict)
  }

  /** A manual pause saves the stored plan and the counters of the last checkpoint, not the progress in flight. */
  function ManualCheckpoint(w: Workflow): Checkpoint {
    match w.checkpoint
    case None => Checkpoint(w.plan, 0, 0, [], [])
    case Some(c) => Checkpoint(w.plan, c.totalAttempts, c.externalCalls, c.results, c.warnings)
  }

  function DecidePause(w: Workflow): Decision {
    if w.status == Paused then Settled(OperationOk)
    else if w.status != Running then Refuse(Conflict)
    else Commit(WithStatus(WithCheckpoint(w, ManualCheckpoint(w), w.version + 1).value, Paused).value)
  }

  /** The first half of `resume`; an `execute` follows. */
  function DecideResume(w: Workflow): Decision {
    if w.status != Paused then Refuse(Conflict)
    else if w.approval == Pending then Refuse(ApprovalRequired)
    else Commit(WithStatus(w, Ready).value)
  }

  function DecideCancel(w: Workflow): Decision {
    if Terminal(w.status) then Refuse(Conflict)
    else
      match WithStatus(w, Cancelled)
      case Ok(cancelled) => Commit(cancelled)
      case Err(_) => Refuse(Conflict)
  }

  function DecideApprove(w: Workflow, approve: bool): Decision {
    if w.status != AwaitingApproval then Refuse(Conflict)
    else
      match if approve then WithApproval(w, Approved, Ready) else WithApproval(w, Rejected, Failed)
      case Ok(updated) => Commit(updated)
      case Err(_) => Refuse(OperationFailed)
  }

  /** The status an execution ends with; a pause request outweighs the result. */
  function FinalStatus(result: ExecutionLoop.ExecutionResult, pauseRequested: bool): WorkflowStatus {
    if pauseRequested then Paused
    else
      match result
      case IdentityContradiction => Failed
      case PlanRefused(_) => Failed
      case CancelledBeforeStart(_, _) => Cancelled
      case Ran(report, _, _) =>
        match report.status
        case RunCancelled => Cancelled
        case RunCompleted => Completed
        case RunPartial => Partial
        case RunFailed => Failed
        case RunBlocked => Failed
        case RunBudgetExceeded => Failed
  }

  /** The checkpoint an execution leaves; without a report the counters are gone. */
  function FinalCheckpoint(running: Workflow, result: ExecutionLoop.ExecutionResult): Checkpoint {
    match result
    case IdentityContradiction => Checkpoint(running.plan, 0, 0, [], [])
    case PlanRefused(_) => Checkpoint(running.plan, 0, 0, [], [])
    case CancelledBeforeStart(tasks, _) => EntryCheckpointOf(tasks)
    case Ran(report, _, _) => CheckpointOf(report)
  }

  function EntryCheckpointOf(tasks: seq<ResearchTasks.Task>): Checkpoint {
    Checkpoint(tasks, 0, 0, [], [])
  }

  /** The record the second half of `execute` commits. */
  function FinishedRecord(running: Workflow, result: ExecutionLoop.ExecutionResult, pauseRequested: bool): Workflow
    requires running.status == Running
  {
    var updated := WithCheckpoint(running, FinalCheckpoint(running, result), running.version + 1).value;
    WithStatus(updated, FinalStatus(result, pauseRequested)).value
  }

  function MismatchRecord(running: Workflow): Workflow
    requires running.status == Running
  {
    WithStatus(running, Failed).value
  }

  // ----- Legality of everything that is committed -----

  lemma DecisionsAreLegal(w: Workflow, approve: bool)
    requires Legal(w)
    ensures DecideExecute(w).Commit? ==> Legal(DecideExecute(w).record) && DecideExecute(w).record.status == Running
    ensures DecidePause(w).Commit? ==> Legal(DecidePause(w).record)
    ensures DecideResume(w).Commit? ==> Legal(DecideResume(w).record)
    ensures DecideCancel(w).Commit? ==> Legal(DecideCancel(w).record)
    ensures DecideApprove(w, approve).Commit? ==> Legal(DecideApprove(w, approve).record)
  {
  }

  /** What the decisions come to on legal records: approval is settled wherever an operation applies. */
  lemma DecisionsByStatus(w: Workflow)
    requires Legal(w)
    ensures DecideExecute(w) == if w.status in {Ready, Paused} then Commit(w.(status := Running))
                                else Refuse(if w.status == AwaitingApproval then ApprovalRequired else Conflict)
    ensures DecideResume(w) == if w.status == Paused then Commit(w.(status := Ready)) else Refuse(Conflict)
    ensures DecideCancel(w) == if Terminal(w.status) then Refuse(Conflict) else Commit(w.(status := Cancelled))
    ensures DecideApprove(w, true) ==
              if w.status == AwaitingApproval then Commit(w.(status := Ready, approval := Approved))
              else Refuse(Conflict)
    ensures DecideApprove(w, false) ==
              if w.status == AwaitingApproval then Commit(w.(status := Failed, approval := Rejected))
              else Refuse(Conflict)
  {
  }

  lemma FinishedRecordIsLegal(running: Workflow, result: ExecutionLoop.ExecutionResult, pauseRequested: bool)
    requires Legal(running) && running.status == Running
    ensures Legal(FinishedRecord(running, result, pauseRequested))
    ensures Legal(MismatchRecord(running))
  {
  }

  // ----- The operations as methods on the store -----

  function StoredCheckpointOf(record: Workflow): StoredCheckpoint
    requires record.checkpoint.Some?
  {
    StoredCheckpoint(record.runId, record.planId, record.companyId, record.version, record.checkpoint.value)
  }

  /** The checkpoint of a committed record is saved, or refused without effect when the store holds a later one. */
  ghost predicate SavesOrRaises(workflows: map<int, Workflow>, before: map<int, StoredCheckpoint>, record: Workflow,
                                after: map<int, StoredCheckpoint>, raised: bool)
  {
    && record.checkpoint.Some?
    && (raised <==> !CheckpointFits(workflows, before, record.id, StoredCheckpointOf(record)))
    && after == if raised then before else before[record.id := StoredCheckpointOf(record)]
  }

  class WorkflowManager {
    const store: InMemoryWorkflowStore

    constructor (store: InMemoryWorkflowStore)
      ensures this.store == store
    {
      this.store := store;
    }

    /** Commits a record, or reports a conflict; any other store error surfaces as `raised`. */
    method CommitOrConflict(record: Workflow) returns (conflict: bool, raised: bool)
      modifies store`workflows
      ensures conflict <==> SaveVerdict(old(store.workflows), record) == Err(TransitionRejected)
      ensures raised <==> SaveVerdict(old(store.workflows), record) == Err(StoreConflict)
      ensures store.workflows ==
                if conflict || raised then old(store.workflows) else old(store.workflows)[record.id := record]
    {
      var r := store.SaveWorkflow(record);
      return r == Err(TransitionRejected), r == Err(StoreConflict);
    }

    /**
     * Run without interference: a RUNNING workflow is committed as PAUSED at the next version, and then
     * its checkpoint is saved unless the store already holds a later one; otherwise nothing changes.
     */
    method PauseWorkflow(id: int) returns (status: OperationStatus, raised: bool)
      requires forall x :: x in store.workflows ==> store.workflows[x].id == x && Legal(store.workflows[x])
      modifies store
      ensures id !in old(store.workflows) ==> status == NotFound && store.workflows == old(store.workflows)
      ensures id in old(store.workflows) ==>
                var w := old(store.workflows)[id];
                if w.status != Running
                then status == (if w.status == Paused then OperationOk else Conflict)
                  && store.workflows == old(store.workflows)
                else
                  var record := w.(status := Paused, version := w.version + 1, checkpoint := Some(ManualCheckpoint(w)));
                  && status == OperationOk && store.workflows == old(store.workflows)[id := record]
                  && SavesOrRaises(store.workflows, old(store.checkpoints), record, store.checkpoints, raised)
      ensures store.workflows == old(store.workflows) ==> store.checkpoints == old(store.checkpoints) && !raised
    {
      raised := false;
      var found := store.GetWorkflow(id);
      if found.None? {
        return NotFound, false;
      }
      var w := found.value;
      if w.status == Paused {
        return OperationOk, false;
      }
      if w.status != Running {
        return Conflict, false;
      }
      var checkpoint := ManualCheckpoint(w);
      var paused := WithStatus(WithCheckpoint(w, checkpoint, w.version + 1).value, Paused).value;
      var conflict, failed := CommitOrConflict(paused);
      if conflict {
        return Conflict, false;
      }
      var stored := StoredCheckpoint(w.runId, w.planId, w.companyId, w.version + 1, checkpoint);
      var saved := store.SaveCheckpoint(id, stored);
      return OperationOk, saved.Err?;
    }

    /**
     * The first half of an execution, run without interference: it starts exactly on a READY or PAUSED
     * workflow, which then needs no further approval.
     */
    method BeginExecution(id: int) returns (status: OperationStatus, running: Option<Workflow>)
      requires forall x :: x in store.workflows ==> store.workflows[x].id == x && Legal(store.workflows[x])
      modifies store`workflows
      ensures id !in old(store.workflows) ==>
              status == NotFound && running == None && store.workflows == old(store.workflows)
      ensures id in old(store.workflows) ==>
                var w := old(store.workflows)[id];
                if w.status in {Ready, Paused}
                then status == OperationOk && running == Some(w.(status := Running))
                     && store.workflows == old(store.workflows)[id := w.(status := Running)]
                else running == None && store.workflows == old(store.workflows)
                     && status == if w.status == AwaitingApproval then ApprovalRequired else Conflict
    {
      var found := store.GetWorkflow(id);
      if found.None? {
        return NotFound, None;
      }
      var w := found.value;
      if Terminal(w.status) {
        return Conflict, None;
      }
      if w.approval == Pending {
        return ApprovalRequired, None;
      }
      if w.approval == Rejected {
        return OperationRejected, None;
      }
      if w.status !in {Ready, Paused, Running} {
        return Conflict, None;
      }
      var started := WithStatus(w, Running);
      if started.Err? {
        return Conflict, None;
      }
      var conflict, raised := CommitOrConflict(started.value);
      if conflict {
        return Conflict, None;
      }
      return OperationOk, Some(started.value);
    }

    /**
     * A resume, run without interference, up to the start of its execution: a PAUSED workflow goes back
     * to READY and on to RUNNING with its plan and checkpoint unchanged; any other is left alone.
     */
    method ResumeWorkflow(id: int) returns (status: OperationStatus, running: Option<Workflow>)
      requires forall x :: x in store.workflows ==> store.workflows[x].id == x && Legal(store.workflows[x])
      modifies store`workflows
      ensures id !in old(store.workflows) ==>
              status == NotFound && running == None && store.workflows == old(store.workflows)
      ensures id in old(store.workflows) ==>
                var w := old(store.workflows)[id];
                if w.status != Paused
                then status == Conflict && running == None && store.workflows == old(store.workflows)
                else status == OperationOk && running == Some(w.(status := Running))
                     && store.workflows == old(store.workflows)[id := w.(status := Running)]
    {
      var found := store.GetWorkflow(id);
      if found.None? {
        return NotFound, None;
      }
      var w := found.value;
      if w.status != Paused {
        return Conflict, None;
      }
      if w.approval == Pending {
        return ApprovalRequired, None;
      }
      var conflict, raised := CommitOrConflict(WithStatus(w, Ready).value);
      if conflict {
        return Conflict, None;
      }
      status, running := BeginExecution(id);
    }

    /** Run without interference a cancel ends every workflow that has not ended, and no other. */
    method CancelWorkflow(id: int) returns (status: OperationStatus)
      requires forall x :: x in store.workflows ==> store.workflows[x].id == x && Legal(store.workflows[x])
      modifies store`workflows
      ensures id !in old(store.workflows) ==> status == NotFound && store.workflows == old(store.workflows)
      ensures id in old(store.workflows) ==>
                if Terminal(old(store.workflows)[id].status)
                then status == Conflict && store.workflows == old(store.workflows)
                else status == OperationOk
                     && store.workflows == old(store.workflows)[id := old(store.workflows)[id].(status := Cancelled)]
    {
      var found := store.GetWorkflow(id);
      if found.None? {
        return NotFound;
      }
      var w := found.value;
      if Terminal(w.status) {
        return Conflict;
      }
      var cancelled := WithStatus(w, Cancelled);
      if cancelled.Err? {
        return Conflict;
      }
      var conflict, raised := CommitOrConflict(cancelled.value);
      return if conflict then Conflict else OperationOk;
    }

    /** Run without interference a decision is taken exactly on a workflow that awaits approval. */
    method ApproveWorkflow(id: int, approve: bool) returns (status: OperationStatus)
      requires forall x :: x in store.workflows ==> store.workflows[x].id == x && Legal(store.workflows[x])
      modifies store`workflows
      ensures id !in old(store.workflows) ==> status == NotFound && store.workflows == old(store.workflows)
      ensures id in old(store.workflows) ==>
                var w := old(store.workflows)[id];
                if w.status != AwaitingApproval
                then status == Conflict && store.workflows == old(store.workflows)
                else if approve
                then status == OperationOk
                     && store.workflows == old(store.workflows)[id := w.(status := Ready, approval := Approved)]
                else status == OperationRejected
                     && store.workflows == old(store.workflows)[id := w.(status := Failed, approval := Rejected)]
    {
      var found := store.GetWorkflow(id);
      if found.None? {
        return NotFound;
      }
      var w := found.value;
      if w.status != AwaitingApproval {
        return Conflict;
      }
      var updated := if approve then WithApproval(w, Approved, Ready) else WithApproval(w, Rejected, Failed);
      var conflict, raised := CommitOrConflict(updated.value);
      if conflict {
        return Conflict;
      }
      return if approve then OperationOk else OperationRejected;
    }

    /**
     * The second half of an execution: the status is committed first, the checkpoint only if that
     * succeeds, and last the record again when the notification of its end has left a warning. That
     * last save is never refused.
     */
    method FinishExecution(running: Workflow, result: ExecutionLoop.ExecutionResult, pauseRequested: bool, warned: bool)
      returns (conflict: bool, raised: bool)
      requires running.status == Running
      modifies store
      ensures var record := FinishedRecord(running, result, pauseRequested);
              && (conflict <==> SaveVerdict(old(store.workflows), record) == Err(TransitionRejected))
              && (SaveVerdict(old(store.workflows), record).Ok? ==>
                    && store.workflows == old(store.workflows)[record.id := record]
                    && SavesOrRaises(store.workflows, old(store.checkpoints), record, store.checkpoints, raised))
              && (SaveVerdict(old(store.workflows), record).Err? ==>
                    && store.workflows == old(store.workflows) && store.checkpoints == old(store.checkpoints)
                    && conflict != raised)
    {
      var checkpoint := FinalCheckpoint(running, result);
      var updated := WithCheckpoint(running, checkpoint, running.version + 1).value;
      var record := WithStatus(updated, FinalStatus(result, pauseRequested)).value;
      conflict, raised := CommitOrConflict(record);
      if conflict || raised {
        return;
      }
      var saved := store.SaveCheckpoint(record.id, StoredCheckpointOf(record));
      if saved.Err? {
        return false, true;
      }
      if !pauseRequested && warned {
        var again := store.SaveWorkflow(record);
        raised := again.Err?;
      }
    }
  }
}
