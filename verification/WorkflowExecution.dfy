/**
 * The whole of `execute`: a stored workflow is started, its plan is run, and what the run came to is
 * stored (src/financial_intelligence/application/manage_research_workflow.py, execute and
 * _apply_execution_result, run one after the other).
 */
module WorkflowExecution {
  import opened Outcomes
  import RT = ResearchTasks
  import opened TopologicalOrder
  import opened Scheduling
  import opened ExecutionBudgets
  import PE = PlanExecution
  import opened ExecutionLoop
  import opened RunSafety
  import opened RunProgress
  import opened RunReport
  import opened Resume
  import opened Workflows
  import opened WorkflowStore
  import opened WorkflowOperations
  import opened WorkflowResume

  // ----- What a run came to -----

  /** The run ended by itself: nothing was left to start, or a task had no attempt left. */
  ghost predicate EndedByItself(o: PE.Outcome) {
    o.halt.Finished? || o.halt.StartRefused?
  }

  ghost predicate CutShort(o: PE.Outcome) {
    o.halt.Cancelled? || o.halt.Paused?
  }

  /** Some required task ended with the given status. */
  ghost predicate SomeRequired(ts: seq<RT.Task>, status: RT.TaskStatus) {
    exists i :: 0 <= i < |ts| && ts[i].required && ts[i].status == status
  }

  /** There is a required task, all of them succeeded, no other task failed, and no result is partial. */
  ghost predicate FullSuccess(o: PE.Outcome) {
    var ts, rs := o.state.tasks, o.state.results;
    && (exists i :: 0 <= i < |ts| && ts[i].required)
    && (forall i :: 0 <= i < |ts| && ts[i].required ==> ts[i].status == RT.Succeeded)
    && (forall i :: 0 <= i < |ts| && !ts[i].required ==> ts[i].status != RT.Failed)
    && (forall k :: 0 <= k < |rs| ==> !rs[k].status.Partial?)
  }

  /** No required task succeeded, and one failed or is blocked. */
  ghost predicate FullFailure(o: PE.Outcome) {
    && (SomeRequired(o.state.tasks, RT.Failed) || SomeRequired(o.state.tasks, RT.Blocked))
    && !SomeRequired(o.state.tasks, RT.Succeeded)
  }

  /**
   * The status an execution stores. With a pause request it is PAUSED. Without one it is COMPLETED,
   * CANCELLED, FAILED or PARTIAL, each in exactly the cases written here.
   */
  ghost predicate StoredStatusIs(status: WorkflowStatus, e: PE.Engine, planCompany: int, poll: nat -> PE.Control,
                                 s: PE.State, pauseRequested: bool)
  {
    var admitted := planCompany == e.company.id && Accepts(e.budget, s.tasks);
    var entered := admitted && poll(0).Go?;
    var o := PE.RunPlan(e, poll, s);
    if pauseRequested then status == Paused
    else
      && (status == Completed <==> entered && EndedByItself(o) && FullSuccess(o))
      && (status == Cancelled <==> admitted && (!poll(0).Go? || CutShort(o)))
      && (status == Failed <==>
            || !admitted
            || (entered && (o.halt.AttemptsExhausted? || o.halt.CallsExhausted?))
            || (entered && EndedByItself(o) && FullFailure(o)))
      && (status == Partial <==> entered && EndedByItself(o) && !FullSuccess(o) && !FullFailure(o))
  }

  /**
   * The progress an execution stores: of a run, its tasks, counters, results and distinct warnings; of
   * one cancelled on entry the skipped plan, and of a refused one the plan as it was, both without counters.
   */
  ghost predicate StoredProgressIs(record: Workflow, e: PE.Engine, planCompany: int, poll: nat -> PE.Control,
                                   s: PE.State)
  {
    && record.checkpoint.Some?
    && var c := record.checkpoint.value;
    && record.plan == c.tasks
    && if planCompany != e.company.id || !Accepts(e.budget, s.tasks) then c == Checkpoint(s.tasks, 0, 0, [], [])
       else if !poll(0).Go? then c == Checkpoint(PE.SkipUnsettled(s.tasks), 0, 0, [], [])
       else
         var end := PE.RunPlan(e, poll, s).state;
         c == Checkpoint(end.tasks, end.totalAttempts, end.externalCalls, end.results, Deduplicated(end.warnings))
  }

  lemma ReportedStatusIs(e: PE.Engine, poll: nat -> PE.Control, s: PE.State)
    requires Good(e.budget, s)
    ensures var o := PE.RunPlan(e, poll, s);
            var status := ReportOf(o).status;
            && (status.RunCompleted? <==> EndedByItself(o) && FullSuccess(o))
            && (status.RunCancelled? <==> CutShort(o))
            && (status.RunBudgetExceeded? <==> o.halt.AttemptsExhausted? || o.halt.CallsExhausted?)
            && (status.RunFailed? || status.RunBlocked? <==> EndedByItself(o) && FullFailure(o))
            && (status.RunPartial? <==> EndedByItself(o) && !FullSuccess(o) && !FullFailure(o))
            && (EndedByItself(o) || CutShort(o) || o.halt.AttemptsExhausted? || o.halt.CallsExhausted?)
  {
    var o := PE.RunPlan(e, poll, s);
    var r := ReportOf(o);
    ReportedStatusIff(e, poll, s, r);
    NoProgressGuardUnreachable(e, poll, s);
    if EndedByItself(o) {
      EndedStatusIff(e, poll, s, r);
    }
    hide PE.RunPlan, Classify, Good;
  }

  /** The status of the record an execution stores, over the outcome of the run behind its report. */
  lemma StoredStatusIff(e: PE.Engine, planCompany: int, poll: nat -> PE.Control, running: Workflow, trace: seq<PE.Call>,
                        result: ExecutionResult, pauseRequested: bool)
    requires running.status == Running && ValidPlan(running.plan)
    requires forall i :: 0 <= i < |running.plan| ==> RT.Constructible(running.plan[i])
    requires ExecutesTo(e, planCompany, poll, running, trace, result)
    ensures StoredStatusIs(FinishedRecord(running, result, pauseRequested).status, e, planCompany, poll,
                           Seed(running, trace), pauseRequested)
    ensures StoredProgressIs(FinishedRecord(running, result, pauseRequested), e, planCompany, poll,
                             Seed(running, trace))
  {
    var s := Seed(running, trace);
    assert s.tasks == running.plan;
    if result.Ran? {
      StartIsGood(e.budget, s.tasks, s.totalAttempts, s.externalCalls, s.results, s.warnings, trace);
      hide Good, PE.RunPlan, Accepts, ValidPlan;
      ReportedStatusIs(e, poll, s);
      hide EndedByItself, CutShort, FullSuccess, FullFailure;
    }
  }

  // ----- The operation -----

  /** A stored record that an execution can be asked for. */
  ghost predicate Fit(w: Workflow) {
    && Legal(w) && ValidPlan(w.plan)
    && forall i :: 0 <= i < |w.plan| ==> RT.Constructible(w.plan[i])
  }

  /** The record differs from `w` at most in plan, status, checkpoint and version. */
  ghost predicate SameApart(w: Workflow, record: Workflow) {
    record.(plan := w.plan, status := w.status, checkpoint := w.checkpoint, version := w.version) == w
  }

  /** The plan is run from the stored checkpoint. */
  method RunStored(e: PE.Engine, planCompany: int, poll: nat -> PE.Control, w: Workflow, trace: seq<PE.Call>)
    returns (result: ExecutionResult)
    requires ValidPlan(w.plan)
    ensures ExecutesTo(e, planCompany, poll, w, trace, result)
  {
    var c := if w.checkpoint.Some? then w.checkpoint.value else Checkpoint(w.plan, 0, 0, [], []);
    ghost var steps;
    result, steps := ExecutePrepared(e, planCompany, w.plan, poll, c.totalAttempts, c.externalCalls, c.results,
                                     c.warnings, trace);
    hide PE.RunPlan, ValidPlan, Accepts, RetriesBacked;
    assert Seed(w, trace) == PE.StartState(w.plan, c.totalAttempts, c.externalCalls, c.results, c.warnings, trace);
  }

  /** The store that holds the running record admits the finished one, and the mismatch. */
  lemma FinishIsAdmitted(workflows: map<int, Workflow>, running: Workflow, result: ExecutionResult,
                         pauseRequested: bool)
    requires running.status == Running && running.id in workflows && workflows[running.id] == running
    ensures var record := FinishedRecord(running, result, pauseRequested);
            && SaveVerdict(workflows, record).Ok? && record.id == running.id
            && SameApart(running, record) && record.version == running.version + 1
            && record.status == FinalStatus(result, pauseRequested)
    ensures SaveVerdict(workflows, MismatchRecord(running)).Ok?
  {
  }

  /** Runs the plan of a started workflow and stores what it came to. */
  method RunAndStore(manager: WorkflowManager, running: Workflow, e: PE.Engine, planCompany: int,
                     poll: nat -> PE.Control, trace: seq<PE.Call>, pauseRequested: bool, warned: bool)
    returns (status: OperationStatus, raised: bool, ghost record: Workflow)
    requires running.id in manager.store.workflows && manager.store.workflows[running.id] == running
    requires running.status == Running && Fit(running)
    modifies manager.store
    ensures manager.store.workflows == old(manager.store.workflows)[running.id := record]
    ensures SameApart(running, record) && record.version == running.version + 1
    ensures StoredStatusIs(record.status, e, planCompany, poll, Seed(running, trace), pauseRequested)
    ensures StoredProgressIs(record, e, planCompany, poll, Seed(running, trace))
    ensures status == (if record.status == Failed then OperationFailed else OperationOk)
  {
    var result := RunStored(e, planCompany, poll, running, trace);
    record := FinishedRecord(running, result, pauseRequested);
    StoredStatusIff(e, planCompany, poll, running, trace, result, pauseRequested);
    FinishIsAdmitted(manager.store.workflows, running, result, pauseRequested);
    hide StoredStatusIs, StoredProgressIs, FinishedRecord, ExecutesTo, FinalStatus, Fit, SameApart, Seed, SaveVerdict,
      SavesOrRaises;
    var conflict;
    conflict, raised := manager.FinishExecution(running, result, pauseRequested, warned);
    status := if conflict then Conflict
              else if FinalStatus(result, pauseRequested) == Failed then OperationFailed else OperationOk;
  }

  /**
   * Executes a stored workflow, run without interference. `companyFound` is the company the stored query
   * resolves to. Only READY and PAUSED workflows start. Another company than the stored one ends the
   * workflow as FAILED; otherwise the plan is run from the stored checkpoint, and the record in the store
   * then has the status that the run came to.
   */
  method Execute(manager: WorkflowManager, id: int, companyFound: Option<int>, e: PE.Engine, planCompany: int,
                 poll: nat -> PE.Control, trace: seq<PE.Call>, pauseRequested: bool, warned: bool)
    returns (status: OperationStatus, raised: bool)
    requires forall x :: x in manager.store.workflows ==>
               manager.store.workflows[x].id == x && Fit(manager.store.workflows[x])
    modifies manager.store
    ensures id in old(manager.store.workflows) <==> status != NotFound
    ensures status == NotFound ==> manager.store.workflows == old(manager.store.workflows)
    ensures id in old(manager.store.workflows) ==>
              var w := old(manager.store.workflows)[id];
              if w.status !in {Ready, Paused}
              then status == (if w.status == AwaitingApproval then ApprovalRequired else Conflict)
                && manager.store.workflows == old(manager.store.workflows)
              else if companyFound != Some(w.companyId)
              then status == OperationFailed
                && manager.store.workflows == old(manager.store.workflows)[id := w.(status := Failed)]
              else
                && id in manager.store.workflows
                && var record := manager.store.workflows[id];
                && manager.store.workflows == old(manager.store.workflows)[id := record]
                && SameApart(w, record) && record.version == w.version + 1
                && StoredStatusIs(record.status, e, planCompany, poll, Seed(w, trace), pauseRequested)
                && StoredProgressIs(record, e, planCompany, poll, Seed(w, trace))
                && status == (if record.status == Failed then OperationFailed else OperationOk)
  {
    hide StoredStatusIs, StoredProgressIs, FinishedRecord, ValidPlan, RT.Constructible;
    raised := false;
    var begun, running := manager.BeginExecution(id);
    if running.None? {
      return begun, false;
    }
    var w := running.value;
    var conflict;
    if companyFound != Some(w.companyId) {
      conflict, raised := manager.CommitOrConflict(MismatchRecord(w));
      return if conflict then Conflict else OperationFailed, raised;
    }
    ghost var record;
    status, raised, record := RunAndStore(manager, w, e, planCompany, poll, trace, pauseRequested, warned);
  }

  // ----- Pausing and resuming -----

  /** Every record is stored under its identity, and is legal. */
  ghost predicate AllLegal(workflows: map<int, Workflow>) {
    forall x :: x in workflows ==> workflows[x].id == x && Legal(workflows[x])
  }

  /** The store holds the running record, and no checkpoint ahead of it. */
  ghost predicate Holds(workflows: map<int, Workflow>, checkpoints: map<int, StoredCheckpoint>, running: Workflow) {
    && AllLegal(workflows)
    && running.id in workflows && workflows[running.id] == running && running.status == Running
    && (running.id in checkpoints ==> checkpoints[running.id].version <= running.version)
  }

  /** What the next segment of a started workflow starts from is good and will be accepted. */
  ghost predicate ReadyToRun(e: PE.Engine, running: Workflow, trace: seq<PE.Call>) {
    Good(e.budget, Seed(running, trace)) && Accepts(e.budget, running.plan)
  }

  /** Storing the finished record keeps the store legal, and leaves room for its checkpoint. */
  lemma FinishHolds(workflows: map<int, Workflow>, checkpoints: map<int, StoredCheckpoint>, running: Workflow,
                    record: Workflow)
    requires Holds(workflows, checkpoints, running)
    requires Legal(record) && record.id == running.id && record.version == running.version + 1
    ensures running.status == Running && Legal(running) && AllLegal(workflows[record.id := record])
    ensures record.id in checkpoints ==> checkpoints[record.id].version < record.version
  {
  }

  lemma CheckpointIsSaved(workflows: map<int, Workflow>, before: map<int, StoredCheckpoint>, record: Workflow,
                          after: map<int, StoredCheckpoint>, raised: bool)
    requires SavesOrRaises(workflows, before, record, after, raised)
    requires record.id in workflows && workflows[record.id] == record
    requires record.id in before ==> before[record.id].version < record.version
    ensures record.id in after && after[record.id].version == record.version && !raised
  {
  }

  /** Runs one segment and stores what it came to. */
  method RunSegment(manager: WorkflowManager, running: Workflow, e: PE.Engine, poll: nat -> PE.Control, late: bool,
                    trace: seq<PE.Call>)
    returns (paused: bool, calls: seq<PE.Call>, ghost o: PE.Outcome)
    requires Holds(manager.store.workflows, manager.store.checkpoints, running) && ReadyToRun(e, running, trace)
    requires poll(0).Go?
    modifies manager.store
    ensures running.status == Running && Legal(running)
    ensures o == PE.RunPlan(e, poll, Seed(running, trace)) && calls == o.state.trace
    ensures paused <==> o.halt.Paused? || late
    ensures var record := FinishedRecord(running, RanAs(o), paused);
            && manager.store.workflows == old(manager.store.workflows)[running.id := record]
            && record.id == running.id && AllLegal(manager.store.workflows)
            && record.id in manager.store.checkpoints
            && manager.store.checkpoints[record.id].version == record.version
  {
    assert ValidPlan(running.plan);
    var result := RunStored(e, e.company.id, poll, running, trace);
    o := PE.RunPlan(e, poll, Seed(running, trace));
    assert result == RanAs(o);
    paused, calls := late || result.halt.Paused?, result.trace;
    FinishIsAdmitted(manager.store.workflows, running, result, paused);
    FinishedRecordIsLegal(running, result, paused);
    FinishHolds(manager.store.workflows, manager.store.checkpoints, running, FinishedRecord(running, result, paused));
    hide *;
    var conflict, raised := manager.FinishExecution(running, result, paused, false);
    CheckpointIsSaved(manager.store.workflows, old(manager.store.checkpoints), FinishedRecord(running, result, paused),
                      manager.store.checkpoints, raised);
  }

  /** What a paused segment leaves is what the next one starts from. */
  lemma PausedThenResumed(e: PE.Engine, poll: nat -> PE.Control, running: Workflow, trace: seq<PE.Call>, o: PE.Outcome)
    requires running.status == Running && Legal(running) && ReadyToRun(e, running, trace)
    requires o == PE.RunPlan(e, poll, Seed(running, trace))
    ensures var ready := running.(status := Ready);
            var paused := FinishedRecord(running, RanAs(o), true);
            && WorkflowResume.Executable(ready) && Seed(ready, trace) == Seed(running, trace)
            && paused.status == Paused && Legal(paused) && paused.id == running.id
               && paused.version == running.version + 1
            && ReadyToRun(e, paused.(status := Running), o.state.trace)
            && paused.(status := Ready) == ResumedRecord(ready, o)
  {
    var ready, s := running.(status := Ready), Seed(running, trace);
    hide PE.RunPlan, Good, Accepts, Advances;
    assert s.tasks == running.plan;
    RunPlanAdvances(e, poll, s);
    RunKeepsAcceptance(e, poll, s);
    SeededIsAlike(e.budget, o);
    ResumedRecordIs(ready, o);
    FinishedRecordIsLegal(running, RanAs(o), true);
    hide Seed, RanAs, ReadyToRun;
  }

  /** The record of an execution in segments is that of its first segment, or of the rest once resumed. */
  lemma FirstSegment(e: PE.Engine, ready: Workflow, trace: seq<PE.Call>, cuts: seq<Interruption>)
    requires WorkflowResume.Executable(ready)
    ensures cuts == [] ==>
              ExecuteWorkflow(e, ready, trace, cuts)
              == FinishedRecord(ready.(status := Running), RanAs(PE.RunPlan(e, Uninterrupted(), Seed(ready, trace))),
                                false)
    ensures cuts != [] ==>
              var o := PE.RunPlan(e, PausedAfter(cuts[0].rounds), Seed(ready, trace));
              var next := ResumedRecord(ready, o);
              && WorkflowResume.Executable(next)
              && ExecuteWorkflow(e, ready, trace, cuts)
                 == if o.halt.Paused? || cuts[0].late then ExecuteWorkflow(e, next, o.state.trace, cuts[1..])
                    else FinishedRecord(ready.(status := Running), RanAs(o), false)
  {
    if cuts != [] {
      ResumedRecordIs(ready, PE.RunPlan(e, PausedAfter(cuts[0].rounds), Seed(ready, trace)));
    }
  }

  /** Takes a paused workflow back to RUNNING. */
  method ResumePaused(manager: WorkflowManager, paused: Workflow) returns (running: Workflow)
    requires AllLegal(manager.store.workflows)
    requires paused.id in manager.store.workflows && manager.store.workflows[paused.id] == paused
    requires paused.status == Paused
    requires paused.id in manager.store.checkpoints && manager.store.checkpoints[paused.id].version == paused.version
    modifies manager.store
    ensures running == paused.(status := Running)
    ensures manager.store.workflows == old(manager.store.workflows)[paused.id := running]
    ensures Holds(manager.store.workflows, manager.store.checkpoints, running)
  {
    var status, resumed := manager.ResumeWorkflow(paused.id);
    return resumed.value;
  }

  /** The control of the first segment. */
  function FirstControl(cuts: seq<Interruption>): nat -> PE.Control {
    if cuts == [] then Uninterrupted() else PausedAfter(cuts[0].rounds)
  }

  /** `record` is what the first segment stores: the end of the whole execution, or what the rest resumes from. */
  ghost predicate FirstOf(e: PE.Engine, ready: Workflow, trace: seq<PE.Call>, cuts: seq<Interruption>, record: Workflow,
                          paused: bool, calls: seq<PE.Call>)
  {
    && WorkflowResume.Executable(ready)
    && (!paused ==> ExecuteWorkflow(e, ready, trace, cuts) == record)
    && (paused ==>
          && cuts != [] && record.status == Paused
          && ReadyToRun(e, record.(status := Running), calls)
          && WorkflowResume.Executable(record.(status := Ready))
          && ExecuteWorkflow(e, ready, trace, cuts) == ExecuteWorkflow(e, record.(status := Ready), calls, cuts[1..]))
  }

  lemma SegmentDecides(e: PE.Engine, running: Workflow, trace: seq<PE.Call>, cuts: seq<Interruption>, o: PE.Outcome,
                       paused: bool)
    requires running.status == Running && Legal(running) && ReadyToRun(e, running, trace)
    requires o == PE.RunPlan(e, FirstControl(cuts), Seed(running, trace))
    requires paused <==> o.halt.Paused? || (cuts != [] && cuts[0].late)
    ensures FirstOf(e, running.(status := Ready), trace, cuts, FinishedRecord(running, RanAs(o), paused), paused,
                    o.state.trace)
  {
    var ready := running.(status := Ready);
    PausedThenResumed(e, FirstControl(cuts), running, trace, o);
    assert cuts == [] ==> !o.halt.Paused? by {
      UninterruptedIsNotPaused(e, Seed(running, trace), 0, PE.MaxRounds(e.budget, |Seed(running, trace).tasks|));
    }
    assert ready.(status := Running) == running;
    FirstSegment(e, ready, trace, cuts);
    hide ExecuteWorkflow, FinishedRecord, ReadyToRun, Legal, RanAs, ResumedRecord, Seed, WorkflowResume.Executable,
      PE.RunPlan;
  }

  method RunFirstSegment(manager: WorkflowManager, running: Workflow, e: PE.Engine, cuts: seq<Interruption>,
                         trace: seq<PE.Call>)
    returns (paused: bool, calls: seq<PE.Call>, ghost record: Workflow)
    requires Holds(manager.store.workflows, manager.store.checkpoints, running) && ReadyToRun(e, running, trace)
    modifies manager.store
    ensures FirstOf(e, running.(status := Ready), trace, cuts, record, paused, calls)
    ensures manager.store.workflows == old(manager.store.workflows)[running.id := record]
    ensures record.id == running.id && AllLegal(manager.store.workflows)
    ensures record.id in manager.store.checkpoints && manager.store.checkpoints[record.id].version == record.version
  {
    assert FirstControl(cuts)(0).Go?;
    hide *;
    ghost var o;
    paused, calls, o := RunSegment(manager, running, e, FirstControl(cuts), cuts != [] && cuts[0].late, trace);
    record := FinishedRecord(running, RanAs(o), paused);
    SegmentDecides(e, running, trace, cuts, o, paused);
  }

  lemma FirstOfMeans(e: PE.Engine, ready: Workflow, trace: seq<PE.Call>, cuts: seq<Interruption>, record: Workflow,
                     paused: bool, calls: seq<PE.Call>)
    requires FirstOf(e, ready, trace, cuts, record, paused, calls)
    ensures WorkflowResume.Executable(ready)
    ensures !paused ==> ExecuteWorkflow(e, ready, trace, cuts) == record
    ensures paused ==> cuts != [] && record.status == Paused && ReadyToRun(e, record.(status := Running), calls)
    ensures paused ==>
              && WorkflowResume.Executable(record.(status := Ready))
              && ExecuteWorkflow(e, ready, trace, cuts)
                 == ExecuteWorkflow(e, record.(status := Ready), calls, cuts[1..])
  {
  }

  /** Runs a started workflow segment by segment, pausing and resuming as `cuts` says. */
  method RunSegments(manager: WorkflowManager, running: Workflow, e: PE.Engine, cuts: seq<Interruption>,
                     trace: seq<PE.Call>)
    returns (ghost record: Workflow)
    requires Holds(manager.store.workflows, manager.store.checkpoints, running) && ReadyToRun(e, running, trace)
    modifies manager.store
    ensures manager.store.workflows == old(manager.store.workflows)[running.id := record]
    ensures WorkflowResume.Executable(running.(status := Ready))
    ensures record == ExecuteWorkflow(e, running.(status := Ready), trace, cuts)
    decreases |cuts|
  {
    hide *;
    ghost var before := manager.store.workflows;
    var paused, calls;
    paused, calls, record := RunFirstSegment(manager, running, e, cuts, trace);
    FirstOfMeans(e, running.(status := Ready), trace, cuts, record, paused, calls);
    if paused {
      var stored := manager.store.GetWorkflow(running.id);
      var resumed := ResumePaused(manager, stored.value);
      assert resumed.id == running.id && resumed.(status := Ready) == record.(status := Ready);
      assert manager.store.workflows == before[running.id := resumed];
      record := RunSegments(manager, resumed, e, cuts[1..], calls);
      assert manager.store.workflows == before[running.id := record];
    }
  }

  /** Segments end in the record that a single execution stores, up to its version. */
  lemma SegmentsStoreTheSame(e: PE.Engine, w: Workflow, trace: seq<PE.Call>, cuts: seq<Interruption>)
    requires Fit(w) && w.status == Ready && NoneRunning(w.plan) && Accepts(e.budget, w.plan)
    ensures WorkflowResume.Executable(w) && ReadyToRun(e, w, trace)
    ensures var record := ExecuteWorkflow(e, w, trace, cuts);
            && SameApart(w, record)
            && StoredStatusIs(record.status, e, e.company.id, Uninterrupted(), Seed(w, trace), false)
            && StoredProgressIs(record, e, e.company.id, Uninterrupted(), Seed(w, trace))
  {
    var s := Seed(w, trace);
    assert s.tasks == w.plan;
    StartIsGood(e.budget, s.tasks, s.totalAttempts, s.externalCalls, s.results, s.warnings, trace);
    var running := w.(status := Running);
    var whole := RanAs(PE.RunPlan(e, Uninterrupted(), s));
    assert Seed(running, trace) == s && Uninterrupted()(0) == PE.Go;
    StoredStatusIff(e, e.company.id, Uninterrupted(), running, trace, whole, false);
    assert ExecuteWorkflow(e, w, trace, []) == FinishedRecord(running, whole, false);
    FinishIsAdmitted(map[w.id := running], running, whole, false);
    hide Good, PE.RunPlan, StoredStatusIs, RanAs, FinishedRecord, Seed, Accepts, NoneRunning;
    PausedWorkflowEndsTheSame(e, w, trace, cuts);
  }

  /**
   * Executes a READY workflow, pausing it as `cuts` says and resuming it each time, run without
   * interference. The record in the store ends with the status and the progress of one execution that
   * is never paused.
   */
  method ExecuteWithPauses(manager: WorkflowManager, id: int, e: PE.Engine, cuts: seq<Interruption>,
                           trace: seq<PE.Call>)
    requires AllLegal(manager.store.workflows) && id in manager.store.workflows
    requires var w := manager.store.workflows[id];
             && Fit(w) && w.status == Ready && NoneRunning(w.plan) && Accepts(e.budget, w.plan)
             && (id in manager.store.checkpoints ==> manager.store.checkpoints[id].version <= w.version)
    modifies manager.store
    ensures id in manager.store.workflows
    ensures var w, record := old(manager.store.workflows)[id], manager.store.workflows[id];
            && manager.store.workflows == old(manager.store.workflows)[id := record]
            && SameApart(w, record)
            && StoredStatusIs(record.status, e, e.company.id, Uninterrupted(), Seed(w, trace), false)
            && StoredProgressIs(record, e, e.company.id, Uninterrupted(), Seed(w, trace))
  {
    ghost var w := manager.store.workflows[id];
    SegmentsStoreTheSame(e, w, trace, cuts);
    StartedHolds(manager.store.workflows, manager.store.checkpoints, w);
    StartedIsReady(e, w, trace);
    hide *;
    var status, running := manager.BeginExecution(id);
    assert running.value == w.(status := Running) && running.value.(status := Ready) == w;
    ghost var record := RunSegments(manager, running.value, e, cuts, trace);
  }

  lemma StartedHolds(workflows: map<int, Workflow>, checkpoints: map<int, StoredCheckpoint>, w: Workflow)
    requires AllLegal(workflows) && w.id in workflows && workflows[w.id] == w && w.status == Ready
    requires w.id in checkpoints ==> checkpoints[w.id].version <= w.version
    ensures Holds(workflows[w.id := w.(status := Running)], checkpoints, w.(status := Running))
    ensures forall x :: x in workflows ==> workflows[x].id == x && Legal(workflows[x])
  {
  }

  lemma StartedIsReady(e: PE.Engine, w: Workflow, trace: seq<PE.Call>)
    requires ReadyToRun(e, w, trace)
    ensures ReadyToRun(e, w.(status := Running), trace)
  {
  }
}
