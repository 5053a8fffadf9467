/**
 * Workflow safety over all interleavings. Operations run concurrently: between the read of a record
 * and the commit of what was made of it, other operations may read and commit
 * (src/financial_intelligence/application/manage_research_workflow.py against
 * src/financial_intelligence/infrastructure/workflow/in_memory_store.py).
 */
module WorkflowInterleavings {
  import opened Outcomes
  import opened Workflows
  import opened WorkflowStore
  import opened WorkflowOperations
  import opened ExecutionBudgets
  import opened Resume
  import opened StaticOrder
  import opened BudgetSlack
  import opened WorkflowResume
  import ExecutionLoop
  import PlanExecution
  import ResearchTasks

  datatype Operation = Execute | Pause | Resume | Cancel | Approve | Reject

  /** A step of an operation that is still to come. */
  datatype Pending =
    | Committing(operation: Operation, record: Workflow)
    | Executing(running: Workflow)
    | CommittingResult(record: Workflow, notify: bool)
    | SavingCheckpoint(record: Workflow, notify: bool)
    | SavingNotice(record: Workflow)

  /** The store, with the versions of the saved checkpoints, and the operations in flight. */
  datatype System = System(workflows: map<int, Workflow>, checkpoints: map<int, nat>, pending: seq<Pending>)

  const EMPTY := System(map[], map[], [])

  datatype Event =
    | Create(id: int, runId: int, requestId: int, companyId: int, planId: int, plan: seq<ResearchTasks.Task>,
             required: bool)
    | Read(operation: Operation, id: int)
    | Advance(k: nat)
    | Complete(k: nat, result: ExecutionLoop.ExecutionResult, pauseRequested: bool)
    | Mismatch(k: nat)

  function Decide(operation: Operation, w: Workflow): Decision {
    match operation
    case Execute => DecideExecute(w)
    case Pause => DecidePause(w)
    case Resume => DecideResume(w)
    case Cancel => DecideCancel(w)
    case Approve => DecideApprove(w, true)
    case Reject => DecideApprove(w, false)
  }

  function Without(pending: seq<Pending>, k: nat): seq<Pending>
    requires k < |pending|
  {
    pending[..k] + pending[k + 1..]
  }

  /** What follows a commit that the store has accepted. */
  function AfterCommit(p: Pending): Option<Pending>
    requires p.Committing? || p.CommittingResult? || p.SavingNotice?
  {
    match p
    case Committing(Execute, record) => Some(Executing(record))
    case Committing(Pause, record) => Some(SavingCheckpoint(record, false))
    case Committing(_, _) => None
    case CommittingResult(record, notify) => Some(SavingCheckpoint(record, notify))
    case SavingNotice(_) => None
  }

  function Replaced(pending: seq<Pending>, k: nat, next: Option<Pending>): seq<Pending>
    requires k < |pending|
  {
    match next
    case None => Without(pending, k)
    case Some(p) => pending[k := p]
  }

  /** The next store access of operation `k`. A refused access ends the operation. */
  function Advanced(s: System, k: nat): System
    requires k < |s.pending|
  {
    var p := s.pending[k];
    match p
    case Executing(_) => s
    case SavingCheckpoint(record, notify) =>
      if record.id in s.checkpoints && record.version <= s.checkpoints[record.id]
      then s.(pending := Without(s.pending, k))
      else s.(checkpoints := s.checkpoints[record.id := record.version],
              pending := Replaced(s.pending, k, if notify then Some(SavingNotice(record)) else None))
    case _ =>
      if SaveVerdict(s.workflows, p.record).Ok?
      then s.(workflows := s.workflows[p.record.id := p.record], pending := Replaced(s.pending, k, AfterCommit(p)))
      else s.(pending := Without(s.pending, k))
  }

  predicate IsExecuting(s: System, k: nat) {
    k < |s.pending| && s.pending[k].Executing? && s.pending[k].running.status == Running
  }

  /** One step of the system; an event that does not apply changes nothing. */
  ghost function Step(s: System, event: Event): System {
    match event
    case Create(id, runId, requestId, companyId, planId, plan, required) =>
      if id in s.workflows then s
      else s.(workflows := s.workflows[id := NewWorkflow(id, runId, requestId, companyId, planId, plan, required)])
    case Read(operation, id) =>
      if id in s.workflows && Decide(operation, s.workflows[id]).Commit?
      then s.(pending := s.pending + [Committing(operation, Decide(operation, s.workflows[id]).record)])
      else s
    case Advance(k) =>
      if k < |s.pending| then Advanced(s, k) else s
    case Complete(k, result, pauseRequested) =>
      if IsExecuting(s, k)
      then s.(pending := s.pending[k := CommittingResult(FinishedRecord(s.pending[k].running, result, pauseRequested),
                                                         !pauseRequested)])
      else s
    case Mismatch(k) =>
      if IsExecuting(s, k)
      then s.(pending := s.pending[k := Committing(Cancel, MismatchRecord(s.pending[k].running))])
      else s
  }

  ghost function Play(s: System, events: seq<Event>): System {
    if events == [] then s else Step(Play(s, events[..|events| - 1]), events[|events| - 1])
  }

  // ----- Safety of every record -----

  predicate LegalPending(p: Pending) {
    if p.Executing? then Legal(p.running) && p.running.status == Running
    else Legal(p.record) && (p.Committing? && p.operation == Execute ==> p.record.status == Running)
  }

  ghost predicate Safe(s: System) {
    && (forall id :: id in s.workflows ==> Legal(s.workflows[id]) && s.workflows[id].id == id)
    && (forall k {:trigger LegalPending(s.pending[k])} :: 0 <= k < |s.pending| ==> LegalPending(s.pending[k]))
    && (forall id :: id in s.checkpoints ==> id in s.workflows && s.checkpoints[id] <= s.workflows[id].version)
    && (forall k {:trigger CheckpointCovered(s, s.pending[k])} :: 0 <= k < |s.pending| ==>
        CheckpointCovered(s, s.pending[k]))
  }

  /** A checkpoint is only saved after the record of its version has been committed. */
  predicate CheckpointCovered(s: System, p: Pending) {
    p.SavingCheckpoint? ==> p.record.id in s.workflows && p.record.version <= s.workflows[p.record.id].version
  }

  /** One commit: the status moves along the lifecycle table or stays, and the version does not fall. */
  ghost predicate Moves(before: map<int, Workflow>, after: map<int, Workflow>) {
    forall id :: id in before ==>
      && id in after
      && (after[id].status == before[id].status || after[id].status in Allowed(before[id].status))
      && before[id].version <= after[id].version
  }

  lemma ReplacedPending(pending: seq<Pending>, k: nat, next: Option<Pending>, j: nat)
    requires k < |pending| && j < |Replaced(pending, k, next)|
    ensures Replaced(pending, k, next)[j] in pending || next == Some(Replaced(pending, k, next)[j])
  {
    if next.None? {
      assert Replaced(pending, k, next)[j] == if j < k then pending[j] else pending[j + 1];
    }
  }

  lemma CommitMoves(workflows: map<int, Workflow>, record: Workflow)
    requires SaveVerdict(workflows, record).Ok?
    ensures Moves(workflows, workflows[record.id := record])
  {
  }

  lemma StepMoves(s: System, event: Event)
    ensures Moves(s.workflows, Step(s, event).workflows)
  {
    if event.Advance? && event.k < |s.pending| {
      var p := s.pending[event.k];
      if !p.Executing? && !p.SavingCheckpoint? && SaveVerdict(s.workflows, p.record).Ok? {
        CommitMoves(s.workflows, p.record);
      }
    }
  }

  lemma CoverageSurvives(s: System, t: System, p: Pending)
    requires CheckpointCovered(s, p) && Moves(s.workflows, t.workflows)
    ensures CheckpointCovered(t, p)
  {
  }

  lemma AdvanceKeepsSafe(s: System, k: nat)
    requires Safe(s) && k < |s.pending|
    ensures Safe(Advanced(s, k))
  {
    var t := Advanced(s, k);
    var p := s.pending[k];
    assert LegalPending(p) && CheckpointCovered(s, p);
    StepMoves(s, Advance(k));
    forall j | 0 <= j < |t.pending| ensures LegalPending(t.pending[j]) && CheckpointCovered(t, t.pending[j]) {
      PendingAfterAdvance(s, k, j);
      var q := t.pending[j];
      if q in s.pending {
        var m :| 0 <= m < |s.pending| && s.pending[m] == q;
        assert LegalPending(s.pending[m]) && CheckpointCovered(s, s.pending[m]);
        CoverageSurvives(s, t, q);
      }
    }
  }

  /** What is pending after an advance was pending before, or follows from the step just taken. */
  lemma PendingAfterAdvance(s: System, k: nat, j: nat)
    requires k < |s.pending| && j < |Advanced(s, k).pending|
    ensures var p, q := s.pending[k], Advanced(s, k).pending[j];
            || q in s.pending
            || (p.SavingCheckpoint? && q == SavingNotice(p.record))
            || ((p.Committing? || p.CommittingResult? || p.SavingNotice?) && AfterCommit(p) == Some(q)
                && Advanced(s, k).workflows == s.workflows[p.record.id := p.record])
  {
    var p := s.pending[k];
    if p.Executing? {
    } else if p.SavingCheckpoint? {
      if p.record.id in s.checkpoints && p.record.version <= s.checkpoints[p.record.id] {
        ReplacedPending(s.pending, k, None, j);
      } else {
        ReplacedPending(s.pending, k, if p.notify then Some(SavingNotice(p.record)) else None, j);
      }
    } else if SaveVerdict(s.workflows, p.record).Ok? {
      ReplacedPending(s.pending, k, AfterCommit(p), j);
    } else {
      ReplacedPending(s.pending, k, None, j);
    }
  }

  lemma CreateKeepsSafe(s: System, w: Workflow)
    requires Safe(s) && w.id !in s.workflows && Legal(w)
    ensures Safe(s.(workflows := s.workflows[w.id := w]))
  {
    forall k | 0 <= k < |s.pending| ensures CheckpointCovered(s.(workflows := s.workflows[w.id := w]), s.pending[k]) {
      assert CheckpointCovered(s, s.pending[k]);
    }
  }

  lemma AddedKeepsSafe(s: System, p: Pending)
    requires Safe(s) && LegalPending(p) && !p.SavingCheckpoint?
    ensures Safe(s.(pending := s.pending + [p]))
  {
    var t := s.(pending := s.pending + [p]);
    forall k | 0 <= k < |t.pending| ensures LegalPending(t.pending[k]) && CheckpointCovered(t, t.pending[k]) {
      if k < |s.pending| {
        assert LegalPending(s.pending[k]) && CheckpointCovered(s, s.pending[k]);
      }
    }
  }

  lemma InPlaceKeepsSafe(s: System, k: nat, p: Pending)
    requires Safe(s) && k < |s.pending| && LegalPending(p) && !p.SavingCheckpoint?
    ensures Safe(s.(pending := s.pending[k := p]))
  {
    var t := s.(pending := s.pending[k := p]);
    forall j | 0 <= j < |t.pending| ensures LegalPending(t.pending[j]) && CheckpointCovered(t, t.pending[j]) {
      assert LegalPending(s.pending[j]) && CheckpointCovered(s, s.pending[j]);
    }
  }

  lemma StepKeepsSafe(s: System, event: Event)
    requires Safe(s)
    ensures Safe(Step(s, event))
  {
    match event
    case Create(id, runId, requestId, companyId, planId, plan, required) =>
      if id !in s.workflows {
        CreateKeepsSafe(s, NewWorkflow(id, runId, requestId, companyId, planId, plan, required));
      }
    case Read(operation, id) =>
      if id in s.workflows && Decide(operation, s.workflows[id]).Commit? {
        DecisionsAreLegal(s.workflows[id], operation.Approve?);
        AddedKeepsSafe(s, Committing(operation, Decide(operation, s.workflows[id]).record));
      }
    case Advance(k) =>
      if k < |s.pending| { AdvanceKeepsSafe(s, k); }
    case Complete(k, result, pauseRequested) =>
      if IsExecuting(s, k) {
        assert LegalPending(s.pending[k]);
        FinishedRecordIsLegal(s.pending[k].running, result, pauseRequested);
        InPlaceKeepsSafe(s, k,
            CommittingResult(FinishedRecord(s.pending[k].running, result, pauseRequested), !pauseRequested));
      }
    case Mismatch(k) =>
      if IsExecuting(s, k) {
        assert LegalPending(s.pending[k]);
        FinishedRecordIsLegal(s.pending[k].running, ExecutionLoop.IdentityContradiction, false);
        InPlaceKeepsSafe(s, k, Committing(Cancel, MismatchRecord(s.pending[k].running)));
      }
  }

  lemma {:induction false} PlayKeepsSafe(s: System, events: seq<Event>)
    requires Safe(s)
    ensures Safe(Play(s, events))
  {
    if events != [] {
      PlayKeepsSafe(s, events[..|events| - 1]);
      StepKeepsSafe(Play(s, events[..|events| - 1]), events[|events| - 1]);
    }
  }

  /**
   * Approval safety over every interleaving: a stored workflow that awaits approval is undecided,
   * and one that needs approval is READY, RUNNING, PAUSED, COMPLETED or PARTIAL only with an
   * APPROVED decision.
   */
  lemma ApprovalSafety(events: seq<Event>, id: int)
    requires id in Play(EMPTY, events).workflows
    ensures var w := Play(EMPTY, events).workflows[id];
            && (w.status == AwaitingApproval ==> w.approval == Pending)
            && (w.approvalRequired && w.status in {Ready, Running, Paused, Completed, Partial} ==>
                w.approval == Approved)
            && (!w.approvalRequired ==> w.approval == NotRequired && w.status != AwaitingApproval)
  {
    PlayKeepsSafe(EMPTY, events);
  }

  /** No operation that is executing needs an approval it does not have. */
  lemma OnlyApprovedExecutions(events: seq<Event>, k: nat)
    requires k < |Play(EMPTY, events).pending| && Play(EMPTY, events).pending[k].Executing?
    ensures var w := Play(EMPTY, events).pending[k].running;
            w.status == Running && (w.approvalRequired ==> w.approval == Approved)
  {
    PlayKeepsSafe(EMPTY, events);
    assert LegalPending(Play(EMPTY, events).pending[k]);
  }

  // ----- Ends are final, versions only grow -----

  lemma {:induction false} TerminalStatusesAbsorb(s: System, events: seq<Event>, id: int)
    requires id in s.workflows
    ensures id in Play(s, events).workflows
    ensures Terminal(s.workflows[id].status) ==> Play(s, events).workflows[id].status == s.workflows[id].status
    ensures s.workflows[id].version <= Play(s, events).workflows[id].version
  {
    if events != [] {
      TerminalStatusesAbsorb(s, events[..|events| - 1], id);
      var m := Play(s, events[..|events| - 1]);
      StepMoves(m, events[|events| - 1]);
      TerminalHasNoExit(m.workflows[id].status);
    }
  }

  /** A saved checkpoint never has a larger version than the stored workflow, over every interleaving. */
  lemma CheckpointsBehindRecords(events: seq<Event>, id: int)
    requires id in Play(EMPTY, events).checkpoints
    ensures var s := Play(EMPTY, events);
            id in s.workflows && s.checkpoints[id] <= s.workflows[id].version
  {
    PlayKeepsSafe(EMPTY, events);
  }

  // ----- Stale executions -----

  /**
   * Exactly when the result of an execution is committed: the store must still hold RUNNING, or a
   * status from which the result's status is allowed, or already the same status; and no more than
   * one checkpoint may have been added since the execution began.
   */
  lemma ResultCommitsIff(current: Workflow, running: Workflow, result: ExecutionLoop.ExecutionResult,
                         pauseRequested: bool)
    requires Legal(current) && running.status == Running && SameIdentity(current, running)
    ensures var record := FinishedRecord(running, result, pauseRequested);
            Admission(current, record).Ok? <==>
              && current.version <= running.version + 1
              && match record.status
                 case Paused => current.status in {Running, Paused}
                 case Completed => current.status in {Running, Completed}
                 case Partial => current.status in {Running, Partial}
                 case Failed => current.status in {Running, AwaitingApproval, Failed}
                 case _ => !(current.status in {Completed, Partial, Failed})
  {
  }

  /** After a cancel the result of an execution is discarded, unless it is itself a cancellation. */
  lemma CancelDiscardsResults(current: Workflow, running: Workflow, result: ExecutionLoop.ExecutionResult,
                              pauseRequested: bool)
    requires Legal(current) && running.status == Running && current.status == Cancelled
    ensures var record := FinishedRecord(running, result, pauseRequested);
            record.status != Cancelled ==> Admission(current, record).Err?
  {
  }

  lemma PlayOneMore(s: System, events: seq<Event>, event: Event)
    ensures Play(s, events + [event]) == Step(Play(s, events), event)
  {
    assert (events + [event])[..|events + [event]| - 1] == events;
  }

  lemma {:induction false} PlayInTwoParts(s: System, a: seq<Event>, b: seq<Event>)
    ensures Play(s, a + b) == Play(Play(s, a), b)
  {
    if b == [] {
      assert a + b == a;
    } else {
      assert (a + b)[..|a + b| - 1] == a + b[..|b| - 1];
      PlayInTwoParts(s, a, b[..|b| - 1]);
    }
  }

  lemma PlayTwo(s: System, a: Event, b: Event)
    ensures Play(s, [a, b]) == Step(Step(s, a), b)
  {
    assert [a, b][..1] == [a] && [a][..0] == [];
    assert Play(s, [a]) == Step(s, a);
  }

  /** A fresh workflow with an execution in flight. */
  function FirstExecution(plan: seq<ResearchTasks.Task>): seq<Event> {
    [Create(1, 1, 1, 1, 1, plan, false)] + [Read(Execute, 1), Advance(0)]
  }

  /** A manual pause, with its checkpoint, and a resume, while that execution goes on. */
  function PauseAndResume(): seq<Event> {
    [Read(Pause, 1), Advance(1)] + ([Advance(1), Read(Resume, 1)] + [Advance(1), Read(Execute, 1)])
  }

  function StaleHistory(plan: seq<ResearchTasks.Task>, result: ExecutionLoop.ExecutionResult): seq<Event> {
    FirstExecution(plan) + (PauseAndResume() + [Advance(1), Complete(0, result, false)])
  }

  function Fresh(plan: seq<ResearchTasks.Task>): Workflow {
    NewWorkflow(1, 1, 1, 1, 1, plan, false)
  }

  lemma FirstExecutionState(plan: seq<ResearchTasks.Task>)
    ensures Play(EMPTY, FirstExecution(plan)) == System(map[1 := Running0(plan)], map[], [Executing(Running0(plan))])
  {
    var w := Running0(plan);
    PlayInTwoParts(EMPTY, [Create(1, 1, 1, 1, 1, plan, false)], [Read(Execute, 1), Advance(0)]);
    PlayOneMore(EMPTY, [], Create(1, 1, 1, 1, 1, plan, false));
    assert [] + [Create(1, 1, 1, 1, 1, plan, false)] == [Create(1, 1, 1, 1, 1, plan, false)];
    var s := Play(EMPTY, [Create(1, 1, 1, 1, 1, plan, false)]);
    assert s == System(map[1 := Fresh(plan)], map[], []);
    PlayTwo(s, Read(Execute, 1), Advance(0));
    var t := Step(s, Read(Execute, 1));
    assert t.pending == [Committing(Execute, w)];
    assert Admission(Fresh(plan), w).Ok?;
    assert Step(t, Advance(0)).workflows == map[1 := w];
  }

  function Running0(plan: seq<ResearchTasks.Task>): Workflow {
    Fresh(plan).(status := Running)
  }

  /** The record after the manual pause, as its execution goes on; the pause and the resume only change its status. */
  function Running1(plan: seq<ResearchTasks.Task>): Workflow {
    WithCheckpoint(Running0(plan), ManualCheckpoint(Running0(plan)), 1).value
  }

  lemma PauseSteps(plan: seq<ResearchTasks.Task>)
    ensures Play(System(map[1 := Running0(plan)], map[], [Executing(Running0(plan))]), [Read(Pause, 1), Advance(1)]) ==
              System(map[1 := Running1(plan).(status := Paused)], map[],
                     [Executing(Running0(plan)), SavingCheckpoint(Running1(plan).(status := Paused), false)])
  {
    var s := System(map[1 := Running0(plan)], map[], [Executing(Running0(plan))]);
    var paused := Running1(plan).(status := Paused);
    PlayTwo(s, Read(Pause, 1), Advance(1));
    var t := Step(s, Read(Pause, 1));
    assert t.pending == [Executing(Running0(plan)), Committing(Pause, paused)];
    assert Admission(Running0(plan), paused).Ok?;
    assert Step(t, Advance(1)).workflows == map[1 := paused];
  }

  lemma CheckpointSteps(plan: seq<ResearchTasks.Task>)
    ensures Play(System(map[1 := Running1(plan).(status := Paused)], map[],
                        [Executing(Running0(plan)), SavingCheckpoint(Running1(plan).(status := Paused), false)]),
                 [Advance(1), Read(Resume, 1)]) ==
              System(map[1 := Running1(plan).(status := Paused)], map[1 := 1],
                     [Executing(Running0(plan)), Committing(Resume, Running1(plan).(status := Ready))])
  {
    var paused := Running1(plan).(status := Paused);
    var s := System(map[1 := paused], map[], [Executing(Running0(plan)), SavingCheckpoint(paused, false)]);
    PlayTwo(s, Advance(1), Read(Resume, 1));
    var t := Step(s, Advance(1));
    assert t.pending == [Executing(Running0(plan))];
    assert t == System(map[1 := paused], map[1 := 1], [Executing(Running0(plan))]);
    assert Decide(Resume, paused) == Commit(Running1(plan).(status := Ready));
    assert Step(t, Read(Resume, 1)).pending
           == [Executing(Running0(plan)), Committing(Resume, Running1(plan).(status := Ready))];
  }

  lemma ResumeSteps(plan: seq<ResearchTasks.Task>)
    ensures Play(System(map[1 := Running1(plan).(status := Paused)], map[1 := 1],
                        [Executing(Running0(plan)), Committing(Resume, Running1(plan).(status := Ready))]),
                 [Advance(1), Read(Execute, 1)]) ==
              System(map[1 := Running1(plan).(status := Ready)], map[1 := 1],
                     [Executing(Running0(plan)), Committing(Execute, Running1(plan))])
  {
    var paused, ready := Running1(plan).(status := Paused), Running1(plan).(status := Ready);
    var s := System(map[1 := paused], map[1 := 1], [Executing(Running0(plan)), Committing(Resume, ready)]);
    PlayTwo(s, Advance(1), Read(Execute, 1));
    var t := Step(s, Advance(1));
    assert Admission(paused, ready).Ok?;
    assert t.pending == [Executing(Running0(plan))] && t.workflows == map[1 := ready];
    assert Decide(Execute, ready) == Commit(Running1(plan));
    assert Step(t, Read(Execute, 1)).pending == [Executing(Running0(plan)), Committing(Execute, Running1(plan))];
  }

  lemma FinishSteps(plan: seq<ResearchTasks.Task>, result: ExecutionLoop.ExecutionResult)
    ensures Play(System(map[1 := Running1(plan).(status := Ready)], map[1 := 1],
                        [Executing(Running0(plan)), Committing(Execute, Running1(plan))]),
                 [Advance(1), Complete(0, result, false)]) ==
              System(map[1 := Running1(plan)], map[1 := 1],
                     [CommittingResult(FinishedRecord(Running0(plan), result, false), true), Executing(Running1(plan))])
  {
    var ready := Running1(plan).(status := Ready);
    var s := System(map[1 := ready], map[1 := 1], [Executing(Running0(plan)), Committing(Execute, Running1(plan))]);
    PlayTwo(s, Advance(1), Complete(0, result, false));
    var t := Step(s, Advance(1));
    assert Admission(ready, Running1(plan)).Ok?;
    assert t.pending == [Executing(Running0(plan)), Executing(Running1(plan))]
           && t.workflows == map[1 := Running1(plan)];
  }

  /**
   * After a manual pause and a resume a workflow is RUNNING again at version 1, and the first
   * execution, begun at version 0, commits its record over it, whatever its result, while the second
   * execution is in flight.
   */
  lemma StaleHistoryCommits(plan: seq<ResearchTasks.Task>, result: ExecutionLoop.ExecutionResult)
    ensures var s := Play(EMPTY, StaleHistory(plan, result));
            var record := FinishedRecord(Running0(plan), result, false);
            && s.workflows == map[1 := Running1(plan)]
            && Running1(plan).status == Running && Running1(plan).version == 1 && Running0(plan).version == 0
            && s.pending == [CommittingResult(record, true), Executing(Running1(plan))]
            && Step(s, Advance(0)).workflows == map[1 := record]
  {
    FirstExecutionState(plan);
    PauseSteps(plan);
    CheckpointSteps(plan);
    ResumeSteps(plan);
    FinishSteps(plan, result);
    var last := [Advance(1), Complete(0, result, false)];
    var resume, restart := [Advance(1), Read(Resume, 1)], [Advance(1), Read(Execute, 1)];
    PlayInTwoParts(EMPTY, FirstExecution(plan), PauseAndResume() + last);
    var s := Play(EMPTY, FirstExecution(plan));
    PlayInTwoParts(s, PauseAndResume(), last);
    PlayInTwoParts(s, [Read(Pause, 1), Advance(1)], resume + restart);
    PlayInTwoParts(Play(s, [Read(Pause, 1), Advance(1)]), resume, restart);
    StaleCommit(plan, result);
  }

  lemma StaleCommit(plan: seq<ResearchTasks.Task>, result: ExecutionLoop.ExecutionResult)
    ensures var record := FinishedRecord(Running0(plan), result, false);
            && Admission(Running1(plan), record).Ok?
            && Step(System(map[1 := Running1(plan)], map[1 := 1],
                           [CommittingResult(record, true), Executing(Running1(plan))]),
                    Advance(0)).workflows == map[1 := record]
  {
    var record := FinishedRecord(Running0(plan), result, false);
    assert Admission(Running1(plan), record).Ok?;
    assert map[1 := Running1(plan)][1 := record] == map[1 := record];
  }

  /** The result of executing the one-task plan to its end. */
  ghost function StaleResult(): ExecutionLoop.ExecutionResult {
    RanAs(PlanExecution.RunPlan(RoomyEngine(), Uninterrupted(), Seed(Running0([LONE_TASK]), [])))
  }

  /**
   * A stale result can be committed: an acceptable plan of one task is executed, paused by hand,
   * resumed and executed again, and the COMPLETED result of the first execution is committed while
   * the second is in flight.
   */
  lemma StaleExecutionCommits()
    ensures var plan, result := [LONE_TASK], StaleResult();
            var s := Play(EMPTY, StaleHistory(plan, result));
            var record := FinishedRecord(Running0(plan), result, false);
            && FreshPlan(plan) && Accepts(RoomyEngine().budget, plan) && ConstructibleBudget(RoomyEngine().budget)
            && s.workflows == map[1 := Running1(plan)] && Running1(plan).status == Running
               && Running1(plan).version == 1
            && s.pending == [CommittingResult(record, true), Executing(Running1(plan))]
            && record.status == Completed
            && Step(s, Advance(0)).workflows == map[1 := record]
  {
    LoneRunCompletes();
    assert FinalStatus(StaleResult(), false) == Completed;
    assert Running1([LONE_TASK]).status == Running && Running1([LONE_TASK]).version == 1;
    assert FinishedRecord(Running0([LONE_TASK]), StaleResult(), false).status == Completed;
    hide FreshPlan, Accepts, ConstructibleBudget, StaleResult, Play, StaleHistory, FinishedRecord, Running1, Step;
    StaleHistoryCommits([LONE_TASK], StaleResult());
  }

  // ----- Two executions at once -----

  /**
   * Exactly when an execution decided on the record `w` starts: the store must still hold READY,
   * PAUSED or already RUNNING, and no checkpoint may have been added since. RUNNING over RUNNING is
   * the start of a second execution.
   */
  lemma ExecutionStartsIff(current: Workflow, w: Workflow)
    requires Legal(current) && SameIdentity(current, w) && DecideExecute(w).Commit?
    ensures Admission(current, DecideExecute(w).record).Ok? <==>
              current.status in {Ready, Paused, Running} && current.version <= w.version
  {
  }

  /** Two executions that both read READY before either commits. */
  function TwoStarts(plan: seq<ResearchTasks.Task>): seq<Event> {
    [Create(1, 1, 1, 1, 1, plan, false)] + ([Read(Execute, 1), Read(Execute, 1)] + [Advance(0), Advance(1)])
  }

  /** Both start: the second commits RUNNING over RUNNING. */
  lemma TwoExecutionsInFlight(plan: seq<ResearchTasks.Task>)
    ensures Play(EMPTY, TwoStarts(plan)).pending == [Executing(Running0(plan)), Executing(Running0(plan))]
  {
    var created := [Create(1, 1, 1, 1, 1, plan, false)];
    var w, ready := Running0(plan), Fresh(plan);
    PlayInTwoParts(EMPTY, created, [Read(Execute, 1), Read(Execute, 1)] + [Advance(0), Advance(1)]);
    assert created[..0] == [];
    var s := Play(EMPTY, created);
    assert s == System(map[1 := ready], map[], []);
    PlayInTwoParts(s, [Read(Execute, 1), Read(Execute, 1)], [Advance(0), Advance(1)]);
    PlayTwo(s, Read(Execute, 1), Read(Execute, 1));
    var t := Step(Step(s, Read(Execute, 1)), Read(Execute, 1));
    assert t.pending == [Committing(Execute, w), Committing(Execute, w)];
    PlayTwo(t, Advance(0), Advance(1));
    assert Admission(ready, w).Ok?;
    assert Step(t, Advance(0)).workflows == map[1 := w];
  }
}
