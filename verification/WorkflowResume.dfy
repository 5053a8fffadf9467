/**
 * Pausing and resuming a stored workflow ends in the same record as executing it once
 * (src/financial_intelligence/application/manage_research_workflow.py, execute, resume and
 * _apply_execution_result, run one after the other).
 */
module WorkflowResume {
  import opened Outcomes
  import RT = ResearchTasks
  import opened TopologicalOrder
  import opened Scheduling
  import opened ExecutionBudgets
  import PE = PlanExecution
  import opened ExecutionLoop
  import opened RunSafety
  import opened Resume
  import opened IdleRuns
  import opened BudgetSlack
  import opened Workflows
  import opened WorkflowOperations

  /** What an execution of the stored record starts from. */
  ghost function Seed(w: Workflow, trace: seq<PE.Call>): PE.State {
    match w.checkpoint
    case None => PE.StartState(w.plan, 0, 0, [], [], trace)
    case Some(c) => PE.StartState(w.plan, c.totalAttempts, c.externalCalls, c.results, c.warnings, trace)
  }

  ghost function RanAs(o: PE.Outcome): ExecutionResult {
    Ran(ReportOf(o), o.halt, o.state.trace)
  }

  ghost predicate Executable(w: Workflow) {
    Legal(w) && w.status == Ready
  }

  /** The record of an execution that was paused, once it has been resumed. */
  ghost function ResumedRecord(w: Workflow, o: PE.Outcome): Workflow
    requires Executable(w)
  {
    var paused := FinishedRecord(w.(status := Running), RanAs(o), true);
    DecideResume(paused).record
  }

  lemma ResumedRecordIs(w: Workflow, o: PE.Outcome)
    requires Executable(w)
    ensures ResumedRecord(w, o) == w.(plan := o.state.tasks, checkpoint := Some(Saved(o)), version := w.version + 1)
    ensures Executable(ResumedRecord(w, o))
    ensures Seed(ResumedRecord(w, o), o.state.trace) == Seeded(Saved(o), o.state.trace)
  {
  }

  /** Executes a stored workflow, pausing and resuming it as `cuts` says, and returns the final record. */
  ghost function ExecuteWorkflow(e: PE.Engine, w: Workflow, trace: seq<PE.Call>, cuts: seq<Interruption>): Workflow
    requires Executable(w)
    decreases |cuts|
  {
    if cuts == [] then
      FinishedRecord(w.(status := Running), RanAs(PE.RunPlan(e, Uninterrupted(), Seed(w, trace))), false)
    else
      var o := PE.RunPlan(e, PausedAfter(cuts[0].rounds), Seed(w, trace));
      if o.halt.Paused? || cuts[0].late then
        ResumedRecordIs(w, o);
        ExecuteWorkflow(e, ResumedRecord(w, o), o.state.trace, cuts[1..])
      else
        FinishedRecord(w.(status := Running), RanAs(o), false)
  }

  /** The final record up to its version. */
  ghost function Conclusion(w: Workflow, o: PE.Outcome): Workflow {
    w.(plan := o.state.tasks, status := FinalStatus(RanAs(o), false), checkpoint := Some(Saved(o)), version := 0)
  }

  /** The final record of an execution is its conclusion, up to the version. */
  lemma FinalRecordConcludes(w: Workflow, o: PE.Outcome)
    requires Executable(w)
    ensures FinishedRecord(w.(status := Running), RanAs(o), false).(version := 0) == Conclusion(w, o)
  {
  }

  lemma ResumedConcludesAlike(w: Workflow, o: PE.Outcome, p: PE.Outcome)
    requires Executable(w)
    ensures Conclusion(ResumedRecord(w, o), p) == Conclusion(w, p)
  {
    ResumedRecordIs(w, o);
  }

  lemma {:induction false} WorkflowFollowsSegments(e: PE.Engine, w: Workflow, trace: seq<PE.Call>,
                                                   cuts: seq<Interruption>)
    requires Executable(w)
    ensures ExecuteWorkflow(e, w, trace, cuts).(version := 0) == Conclusion(w, RunInSegments(e, Seed(w, trace), cuts))
    decreases |cuts|
  {
    hide Conclusion, FinishedRecord, RanAs, ResumedRecord, Executable, PE.RunPlan, Seed;
    if cuts == [] {
      FinalRecordConcludes(w, PE.RunPlan(e, Uninterrupted(), Seed(w, trace)));
    } else {
      var o := PE.RunPlan(e, PausedAfter(cuts[0].rounds), Seed(w, trace));
      if o.halt.Paused? || cuts[0].late {
        ResumedRecordIs(w, o);
        WorkflowFollowsSegments(e, ResumedRecord(w, o), o.state.trace, cuts[1..]);
        ResumedConcludesAlike(w, o, RunInSegments(e, Seeded(Saved(o), o.state.trace), cuts[1..]));
      } else {
        FinalRecordConcludes(w, o);
      }
    }
  }

  /**
   * A workflow that is paused and resumed any number of times ends with the same status, plan,
   * checkpoint data and approval as one that is executed once; only the checkpoint version differs.
   */
  lemma PausedWorkflowEndsTheSame(e: PE.Engine, w: Workflow, trace: seq<PE.Call>, cuts: seq<Interruption>)
    requires Executable(w) && Good(e.budget, Seed(w, trace)) && NoneRunning(w.plan)
    ensures ExecuteWorkflow(e, w, trace, cuts).(version := 0) == ExecuteWorkflow(e, w, trace, []).(version := 0)
  {
    WorkflowFollowsSegments(e, w, trace, cuts);
    WorkflowFollowsSegments(e, w, trace, []);
    PauseResumeIsTransparent(e, Seed(w, trace), cuts);
    var o, p := RunInSegments(e, Seed(w, trace), cuts), PE.RunPlan(e, Uninterrupted(), Seed(w, trace));
    assert ReportOf(o) == ReportOf(p);
  }

  // ----- Pauses by hand -----

  /** What the execution of the stored record returns: a refusal, a cancellation on entry, or a run. */
  ghost predicate ExecutesTo(e: PE.Engine, planCompany: int, poll: nat -> PE.Control, w: Workflow, trace: seq<PE.Call>,
                             r: ExecutionResult)
  {
    if planCompany != e.company.id then r == IdentityContradiction
    else if !Accepts(e.budget, w.plan) then r.PlanRefused?
    else if !poll(0).Go? then r == CancelledBeforeStart(PE.SkipUnsettled(w.plan), |w.plan|)
    else r == RanAs(PE.RunPlan(e, poll, Seed(w, trace)))
  }

  /** The execution leaves the checkpoint that a manual pause would save. */
  ghost predicate ChangesNothing(e: PE.Engine, planCompany: int, poll: nat -> PE.Control, s: PE.State) {
    if planCompany != e.company.id || !Accepts(e.budget, s.tasks) then NothingSeeded(s)
    else if !poll(0).Go? then AllSettled(s.tasks) && NothingSeeded(s)
    else Deduplicated(s.warnings) == s.warnings && NothingToDo(e, poll(1), s)
  }

  /**
   * A manual pause saves what the execution in flight started from. That is what the execution itself
   * will save exactly when it changes nothing: it is refused or cancelled on entry, and there was no
   * progress that this loses; or its run starts with no warning repeated, and the first round stops
   * before any call, settled task or new warning.
   */
  lemma ManualPauseKeepsProgressIff(e: PE.Engine, planCompany: int, poll: nat -> PE.Control, running: Workflow,
                                    trace: seq<PE.Call>, result: ExecutionResult)
    requires running.status == Running && ValidPlan(running.plan) && NoneRunning(running.plan)
    requires forall i :: 0 <= i < |running.plan| ==> RT.Constructible(running.plan[i])
    requires ExecutesTo(e, planCompany, poll, running, trace, result)
    ensures DecidePause(running).Commit?
    ensures DecidePause(running).record.checkpoint == Some(FinalCheckpoint(running, result)) <==>
              ChangesNothing(e, planCompany, poll, Seed(running, trace))
  {
    var s := Seed(running, trace);
    assert ManualCheckpoint(running) == Untouched(s) && s.tasks == running.plan;
    SkippingChangesNothingIff(running.plan);
    if result.Ran? {
      StartIsGood(e.budget, s.tasks, s.totalAttempts, s.externalCalls, s.results, s.warnings, trace);
      hide Good, PE.RunPlan, NothingToDo, NoneRunning, Accepts, ValidPlan;
      RunChangesNothingIff(e, poll, s);
    }
  }

  /** A stored workflow whose one task is about to be executed for the first time. */
  function LoneWorkflow(): Workflow {
    NewWorkflow(1, 1, 1, 1, 1, [LONE_TASK], false).(status := Running)
  }

  /** A run whose one call succeeded, and the manual pause that drops the call: the task will be called again. */
  lemma ManualPauseLosesACall()
    ensures var o := PE.RunPlan(RoomyEngine(), Uninterrupted(), Seed(LoneWorkflow(), []));
            && AllRequiredSucceeded(o.state.tasks) && |o.state.trace| == 1
            && DecidePause(LoneWorkflow()).Commit?
            && DecidePause(LoneWorkflow()).record.checkpoint == Some(Checkpoint([LONE_TASK], 0, 0, [], []))
            && Saved(o) == Checkpoint([LONE_TASK_DONE], 1, 1, [LONE_RESULT], [])
  {
    LoneRunCompletes();
    LoneTaskDone();
    hide PE.RunPlan;
    assert Deduplicated([]) == [];
  }

  // ----- A pause that is already set on entry -----

  /** The record of an execution whose control was already set to pause when it began, once it has been resumed. */
  ghost function ResumedAfterEntryPause(w: Workflow): Workflow
    requires Executable(w)
  {
    DecideResume(EntryPaused(w)).record
  }

  ghost function EntryPaused(w: Workflow): Workflow
    requires Executable(w)
  {
    FinishedRecord(w.(status := Running), CancelledBeforeStart(PE.SkipUnsettled(w.plan), |w.plan|), true)
  }

  /**
   * A pause set on entry commits a checkpoint that keeps work and seeded progress exactly when there was
   * none of either, and the resumed workflow never calls the executor again.
   */
  lemma EntryPauseKeepsWorkIff(e: PE.Engine, poll: nat -> PE.Control, w: Workflow, trace: seq<PE.Call>)
    requires Executable(w) && Good(e.budget, Seed(w, trace)) && NoneRunning(w.plan)
    ensures EntryPaused(w).checkpoint == Some(Untouched(Seed(w, trace)))
            <==> AllSettled(w.plan) && NothingSeeded(Seed(w, trace))
    ensures Executable(ResumedAfterEntryPause(w))
    ensures var s := Seed(ResumedAfterEntryPause(w), trace);
            NewCalls(s, PE.RunPlan(e, poll, s)) == []
  {
    SkippingChangesNothingIff(w.plan);
    SkippedIsGood(e.budget, Seed(w, trace));
    var s := Seed(ResumedAfterEntryPause(w), trace);
    assert s.tasks == PE.SkipUnsettled(w.plan);
    SettledMakesNoCall(e, poll, s);
  }
}
