# Bounded research orchestration: a verified model

The repository plans and runs financial research under bounds. This project models, in Dafny, the
parts whose correctness is not visible in any single function, and proves what they promise.

* **Task graphs and plans** — Kahn validation, the greedy order on `(priority, task id)`, and plan
  construction as validate plus re-sort (`TaskGraph`, `TopologicalOrder`, `ResearchPlans`).
* **Scheduling** — the ready-task selector and the failure-propagation fixpoint (`Scheduling`), and the
  budget's ancestor search (`ExecutionBudgets`).
* **The execution loop** — `PlanExecution` gives one round and a whole run as functions of the state,
  of an arbitrary executor and of an arbitrarily polled control; `ExecutionLoop` is the loop in the
  source's own imperative form, proved equal to it; it logs every lifecycle step it takes, and
  `TaskSteps` says what such a log means. `RunSafety`, `RunProgress`, `StaticOrder`, `BudgetSlack` and
  `IdleRuns` prove what all runs have in common; `RunRecord`, `UncalledTasks` and `RunReport` say what a
  run leaves in its results, its tasks and its report; `Completion` and `Overtaking` say exactly which
  runs finish, and which follow the plan order, for every executor. `ExecutionControls` is the token that
  is polled.
* **Checkpoint and resume** — `Resume` cuts a run by any number of pauses; `WorkflowResume` does the
  same with the stored workflow record.
* **The workflow lifecycle** — the record, its store and its operations (`Workflows`, `WorkflowStore`,
  `WorkflowOperations`), a whole execution of a stored workflow (`WorkflowExecution`), and every
  interleaving of the store accesses (`WorkflowInterleavings`, `WorkflowExclusion`).
* **Smaller cores** — `NewsConflicts`, `FactConflicts`, `RequestBodyLimit`, `PackageCache` and
  `EvidenceScore`.

`Outcomes`, `Sorting` and `Grouping` hold the shared vocabulary. `dafny verify dfyconfig.toml` checks everything.

## Reading the model

The executor is an arbitrary function of the number of calls made so far and of the running task it is
given, so nothing is assumed about it; an executor that depends only on task and attempt is the special
case that ignores the first argument. The control is an arbitrary function of the round, polled on
entry (round 0) and at the head of every round. `Good(budget, state)` is the invariant of a state that
a run over an accepted plan starts from (`StartIsGood`) and keeps.

Where the code differs from its comments, or from what one would expect, the model follows the code:

* A task that lists one dependency twice is refused as a "cycle": its in-degree counts the repetition,
  but it is decremented once. `ValidateTaskGraph` states the exact condition.
* The `depth` that the budget bounds is one more than the number of distinct ancestors, not the length
  of the longest chain. Acceptance bounds every chain (`AcceptedChainsAreShort`), but a graph with short
  chains can be refused (`ShortChainsCanBeRefused`).
* Both caps are looked at before the question whether anything is left to run, so a run whose last call
  uses up a cap is over budget even if every task succeeded (`AllSucceededYetOverBudget`). Whatever
  the executor answers, a run finishes by itself exactly when both caps leave a unit more than can
  still be used and no task can come up whose attempts are used up although the budget would allow more
  (`FinishesForEveryExecutorIff`); for a fresh plan that compares the caps with the sum of
  the maximum attempts (`FreshSlackIff`).
* The dynamic choice follows the plan order unless a task can overtake an earlier one, which takes a task
  that has succeeded behind an unsettled one (`UrgentPlanLeavesOrder`). No run of a fresh plan, in however
  many segments, gets there (`NothingAheadIsInStep`, `SegmentsFollowPlanOrder`);
  `PlanOrderForEveryExecutorIff` is the exact condition.
* A pause that is already set on entry skips the unfinished tasks and drops the seeded counters,
  results and warnings, so the resumed workflow calls nothing (`EntryPauseKeepsWorkIff`). The resume theorem is about pauses first seen at the
  head of a round, and about pauses set so late that the run ends first.
* A manual `pause` checkpoints the stored plan, not the progress in flight (`ManualPauseLosesACall`);
  `ManualPauseKeepsProgressIff` says exactly when nothing is lost.
* The comments in `manage_research_workflow.py` say that a stale execution can never commit. After a
  manual pause and a resume it can: `StaleExecutionCommits` gives the history, `ResultCommitsIff` the
  exact condition, and `CancelDiscardsResults` the case in which the comment holds. Two executions of
  one workflow can also start side by side (`TwoExecutionsInFlight`). `AtMostOneIffNoOverlap` is the
  exact condition over all histories; without manual pauses it comes down to the stored status at the
  commit of a start (`AtMostOneInFlightIff`).
* A balance sheet can meet a second fact of a concept, because its facts are moved to one period
  (`BalanceCanDuplicate`); `BalanceDuplicatesIff` says exactly when. Income and cash-flow statements
  cannot.
* More supporting evidence can lower a claim's confidence (`SupportCanLowerConfidence`);
  `SupportLowersConfidenceIff` says exactly when, and `RecentSupportNeverHurts` names a kind that cannot.
* A fiscal year of 0 shares the cache key of the latest package (`SharedKeys`), so it can be answered with
  that package although the provider has none for it (`YearZeroGetsLatest`). Without that query the cache
  refines every source (`CacheRefinesSource`); `CacheRefinesSourceIff` is the exact condition.

## Model

| member | source | states |
|---|---|---|
| TaskGraph.ValidateTaskGraph | src/financial_intelligence/domain/orchestration/graph.py:17-56 | Kahn validation is exact: it accepts if and only if ids are unique, dependencies exist, no task repeats a dependency and a rank function exists; "cycle" is reported exactly when only the last two can be at fault |
| TaskGraph.CountRemovable | src/financial_intelligence/domain/orchestration/graph.py:43-56 | the removal loop empties the graph exactly when no dependency is repeated and a rank function exists |
| TopologicalOrder.TopologicalOrder | src/financial_intelligence/domain/orchestration/graph.py:59-85 | returns the same tasks so that, whenever all dependencies of a later task come before an earlier place, the task there has a smaller priority, or the same priority and a smaller id; refuses exactly the invalid graphs |
| TopologicalOrder.CanonicalOrderUnique | src/financial_intelligence/domain/orchestration/graph.py:59-85 | two greedy orders of one graph agree position by position, whatever the statuses |
| TopologicalOrder.CanonicalOrderIgnoresInputOrder | src/financial_intelligence/domain/orchestration/graph.py:59-85 | every arrangement of the same tasks is sorted to the same sequence |
| ResearchTasks.WithStatus | src/financial_intelligence/domain/orchestration/tasks.py:120-156 | a step succeeds exactly when it is in the transition table, a retry out of FAILED is authorised, and a start has an attempt left; it counts one attempt if it starts the task and changes nothing else but the status |
| ResearchTasks.EnteredFrom | src/financial_intelligence/domain/orchestration/tasks.py:34-46 | the transition table read from its targets: for each status, exactly the statuses it can be entered from |
| TaskSteps.StepFollowsTable | src/financial_intelligence/domain/orchestration/tasks.py:34-46 | in a replayed log every step is in the transition table, taken from the status its task then has, and FAILED becomes READY only as an authorised retry |
| TaskSteps.ReplayCountsStarts | src/financial_intelligence/domain/orchestration/tasks.py:120-156 | over a log a task's attempt count grows by exactly its entries into RUNNING, and nothing that decides its place in a plan changes |
| ResearchPlans.MakePlan | src/financial_intelligence/domain/orchestration/plan.py:70-83 | a plan is built exactly from a non-empty valid graph and holds the same tasks, ordered by priority and then id wherever the dependencies leave a choice |
| ResearchPlans.ResortKeepsPlanOrder | src/financial_intelligence/domain/orchestration/plan.py:88-96 | replacing the tasks of a plan by updated copies in any arrangement gives them back in the old order, so task order never changes across the loop's re-sorts |
| Scheduling.ReadyTasks | src/financial_intelligence/domain/orchestration/graph.py:88-104 | the ready tasks are exactly the runnable ones, each once, by ascending priority and then ascending id |
| Scheduling.RunnableIff | src/financial_intelligence/domain/orchestration/graph.py:88-104 | a task can run exactly when it is PENDING or READY and every dependency names a task that is SUCCEEDED |
| Scheduling.SelectNextReadyTask | src/financial_intelligence/domain/orchestration/graph.py:164-168 | selects the ready task whose priority is smaller than that of every other, or equal with a smaller id, and none exactly when none is ready |
| Scheduling.ApplyFailurePropagation | src/financial_intelligence/domain/orchestration/graph.py:124-161 | the repeated passes end; a task changes if and only if a chain of unsettled tasks leads from it to a failed, blocked or skipped one, and then becomes BLOCKED if required and SKIPPED if not; the result is sorted, and every change is a logged step of the table |
| Scheduling.PropagationIsLeastClosure | src/financial_intelligence/domain/orchestration/graph.py:124-161 | the result leaves no unsettled task behind a failed, blocked or skipped one, and anything that achieves this by giving up unsettled tasks gives up at least as many |
| Scheduling.PropagationIsIdempotent | src/financial_intelligence/domain/orchestration/graph.py:124-161 | propagating twice is propagating once |
| Scheduling.PropagationIgnoresOrder | src/financial_intelligence/domain/orchestration/graph.py:124-161 | every arrangement of the tasks gives the same result |
| Scheduling.NoDeadlock | src/financial_intelligence/domain/orchestration/graph.py:88-168 | in a plan with nothing running, after propagation no task can run if and only if no task is PENDING or READY |
| Scheduling.FirstUnsettledIsRunnable | src/financial_intelligence/domain/orchestration/graph.py:88-104 | the first unsettled task of a plan can run unless a failure dooms it |
| ExecutionBudgets.SearchAncestors | src/financial_intelligence/domain/orchestration/budget.py:61-73 | the worklist search ends on every graph, cyclic or not, and visits exactly the ancestors |
| ExecutionBudgets.DepthCountsUpstream | src/financial_intelligence/domain/orchestration/budget.py:61-73 | in a plan the depth charged to a task is one more than the number of tasks that a dependency chain leads to from it |
| ExecutionBudgets.ValidateTasks | src/financial_intelligence/domain/orchestration/budget.py:44-82 | accepts exactly the task sets within the bounds on size, attempts per task, depth, total attempts and external calls, and names the first bound broken; within a task the attempts bound is tested before the depth |
| ExecutionBudgets.AcceptedChainsAreShort | src/financial_intelligence/domain/orchestration/budget.py:61-76 | in an accepted valid graph every dependency chain has at most `max_plan_depth` tasks |
| ExecutionBudgets.ShortChainsCanBeRefused | src/financial_intelligence/domain/orchestration/budget.py:61-76 | the converse fails: three tasks in two levels are refused at depth 2 and accepted at depth 3 |
| TaskResults.EnforceIdentity | src/financial_intelligence/application/execute_research_plan.py:427-463 | a result passes unchanged exactly when none of its evidence is about a foreign company, security or listing; otherwise it becomes a failure that is not retryable |
| TaskResults.DedupeEvidence | src/financial_intelligence/domain/orchestration/evidence.py:27-38 | the loop returns the sorted evidence without repeated keys |
| TaskResults.DedupedEvidenceIsExact | src/financial_intelligence/domain/orchestration/evidence.py:27-38 | the result has the keys of the input, each once, in ascending order, and only references of the input |
| TaskResults.EarliestReferenceIsKept | src/financial_intelligence/domain/orchestration/evidence.py:27-38 | of several references with one key exactly the one given first is kept, as the stable sort promises |
| TaskResults.AscendingKeysUnique | src/financial_intelligence/domain/orchestration/evidence.py:27-38 | the sequence of keys is determined by the set of keys alone |
| ExecutionLoop.ReplaceTask | src/financial_intelligence/application/execute_research_plan.py:465-469 | replacing one task and re-sorting changes one position of the plan and nothing else |
| ExecutionLoop.FinalizeNoReady | src/financial_intelligence/application/execute_research_plan.py:547-573 | the natural end propagates once more and gives up what is left PENDING, through legal steps only |
| ExecutionLoop.SkipRemaining | src/financial_intelligence/application/execute_research_plan.py:471-502 | a hard cancel makes every PENDING or READY task SKIPPED and leaves the others as they are, through legal steps only |
| ExecutionLoop.AttemptTask | src/financial_intelligence/application/execute_research_plan.py:287-405 | the body of a round after selection, with all its refusals, is the round function, whose call CallSettles describes; its logged steps lead from the tasks before to the tasks after, and a retry is logged only where the policy grants it |
| ExecutionLoop.ExecuteRound | src/financial_intelligence/application/execute_research_plan.py:244-405 | one round of the loop is the round function and leaves a valid plan; its logged steps lead from the tasks before to the tasks after, and a retry is logged only where the policy grants it |
| ExecutionLoop.ToResult | src/financial_intelligence/application/execute_research_plan.py:575-688 | the report carries the final tasks, counters and results, and their evidence and warnings without repetition; EndedStatusIff, ReportedStatusIff, ReportedCountsAreExact and ReportedEvidenceIsComplete say what its status, counts and evidence mean |
| ExecutionLoop.DeduplicatedKeepsFirsts | src/financial_intelligence/application/execute_research_plan.py:595 | of the warnings exactly the first occurrences are kept, in their order |
| ExecutionLoop.ExecutePrepared | src/financial_intelligence/application/execute_research_plan.py:145-425 | the whole method: refusals in order, the entry poll, and a loop that refines the run function, of which RunRecordsItsCalls says what it records; it logs the steps from the plan it was given to the plan it reports, and every logged retry is one the policy granted after a call of that task |
| RunSafety.StartIsGood | src/financial_intelligence/application/execute_research_plan.py:196-239 | every accepted plan with constructible tasks, fresh or resumed, starts in a good state |
| RunSafety.DependencySafety | src/financial_intelligence/application/execute_research_plan.py:282-404 | at every executor call all dependencies have succeeded before it; a succeeded task is never called again; the duplicate-execution branch is dead |
| RunSafety.SettledTasksAreFinal | src/financial_intelligence/application/execute_research_plan.py:282-404 | a task that is not PENDING or READY at the start of a run is never touched, so SUCCEEDED is never left |
| RunSafety.AttemptConservation | src/financial_intelligence/application/execute_research_plan.py:257-381 | calls, growth of both counters and growth of the summed attempts are one number; no task passes its maximum, no cap is passed, and both would-exceed branches are dead |
| RunSafety.RoundFollowsTable | src/financial_intelligence/domain/orchestration/tasks.py:34-46 | every log that leads from the tasks before a round to those after it, as the loop's own does, takes only steps of the table, FAILED to READY only as an authorised retry, and starts a task exactly as often as the round calls it |
| RunSafety.RunFollowsTable | src/financial_intelligence/domain/orchestration/tasks.py:34-46 | the same over a whole run: every logged step is in the table, and every task enters RUNNING exactly once per executor call |
| RunProgress.RoundReducesWork | src/financial_intelligence/application/execute_research_plan.py:244-405 | each round that does not end the loop strictly reduces the sum of remaining attempts plus one over unsettled tasks |
| RunProgress.NoProgressGuardUnreachable | src/financial_intelligence/application/execute_research_plan.py:240-416 | for every accepted plan, executor and control the loop ends by itself before `max_rounds` |
| RunProgress.LeftoverBranchIsDead | src/financial_intelligence/application/execute_research_plan.py:556-566 | at a natural end no task is left PENDING, so giving up changes nothing |
| RunProgress.NaturalFinishSettlesEverything | src/financial_intelligence/application/execute_research_plan.py:547-590 | a natural finish leaves every task settled and succeeded + failed + blocked + skipped is the number of tasks |
| RunRecord.CallSettles | src/financial_intelligence/application/execute_research_plan.py:365-405 | what one call does: its task is SUCCEEDED after SUCCESS or PARTIAL, BLOCKED after BLOCKED, READY again exactly after a retryable FAILED answer without a permanent code while all three attempt bounds leave room, and FAILED otherwise; the answer is appended to the results |
| RunRecord.RunRecordsItsCalls | src/financial_intelligence/application/execute_research_plan.py:372-405 | over every run: the results are the seeded ones followed, call by call, by the executor's answer as it came when all its references belong to the company, and otherwise by an identity failure without evidence, with budget violations in between; the last answer decides each called task; a task is called again only after an answer that may be repeated; the warnings are those of PARTIAL answers and of a refused start |
| RunRecord.SegmentsRecordTheirCalls | src/financial_intelligence/application/execute_research_plan.py:225-405 | the same over any number of resumed segments |
| RunRecord.DependentsNeedSuccess | src/financial_intelligence/application/execute_research_plan.py:276-405 | a task is called only after every dependency had succeeded before the run or a call of it answered SUCCESS or PARTIAL; an UNAVAILABLE answer never lets a dependent proceed |
| RunRecord.ReportedEvidenceIsComplete | src/financial_intelligence/application/execute_research_plan.py:575-600 | the keys of the reported evidence are exactly those of the evidence in the results, each once, and every reference is one of theirs |
| RunRecord.OnlyOwnEvidenceIsAdded | src/financial_intelligence/application/execute_research_plan.py:427-463 | neither a result that a run adds nor a reported reference that the seeded results did not bring names another company, or a security or listing that is not the company's |
| UncalledTasks.UncalledTasksEnd | src/financial_intelligence/application/execute_research_plan.py:287-330 | how a task ends that a run never calls: a finished run makes it BLOCKED if required and SKIPPED if not exactly behind a failed, blocked or skipped dependency, and otherwise SKIPPED with its attempts used up; a cancelled run leaves nothing PENDING or READY; any other run leaves it as it was or in these ways |
| UncalledTasks.ViolationsAreAccountedFor | src/financial_intelligence/application/execute_research_plan.py:308-330 | unless cancelled a run adds one result for every call and one budget violation, under its identity, for every task skipped with its attempts used up, and no other |
| StaticOrder.FirstUnsettledIsNext | src/financial_intelligence/domain/orchestration/graph.py:88-168 | the dynamic selection is the first unsettled task in plan order, unless a failure dooms it or a later task can overtake it |
| StaticOrder.CallsFollowPlanOrder | src/financial_intelligence/application/execute_research_plan.py:276-405 | for every run, fresh or resumed, that starts with no task able to overtake an earlier one, under every control and executor: with adjacent repetitions merged the calls are the plan restricted to the called tasks, in plan order, so retries are immediate |
| StaticOrder.FinishedRunCalledTheUnlocked | src/financial_intelligence/application/execute_research_plan.py:276-405 | on a natural finish of such a run the merged calls are exactly the plan filtered to the unsettled tasks that had an attempt left and whose dependencies all succeeded |
| StaticOrder.NothingAheadIsInStep | src/financial_intelligence/domain/orchestration/graph.py:59-104 | no task can overtake another in a plan where nothing has succeeded behind the first unsettled task, so in particular in a fresh one |
| StaticOrder.RunStaysInStep | src/financial_intelligence/application/execute_research_plan.py:240-425 | a run that starts so ends so, however it ends, so the segment that resumes it starts so too |
| Overtaking.PlanOrderForEveryExecutorIff | src/financial_intelligence/application/execute_research_plan.py:276-405 | with caps and attempts to spare the calls follow the plan order for every executor if and only if no task can overtake an earlier one once failures are propagated |
| Overtaking.UrgentPlanLeavesOrder | src/financial_intelligence/application/execute_research_plan.py:276-405 | an accepted plan with a succeeded task behind an unsettled one, and a run of it that calls the third task before the first |
| RunReport.ReportedStatusIff | src/financial_intelligence/application/execute_research_plan.py:597-650 | across all ways a run, fresh or resumed, can end: reported CANCELLED, BUDGET_EXCEEDED and COMPLETED each hold exactly under the stated condition on the run |
| RunReport.EndedStatusIff | src/financial_intelligence/application/execute_research_plan.py:597-650 | for every run that ends by itself or at a refused start, read off the final tasks: FAILED exactly when a required task failed and none succeeded, BLOCKED exactly when one is blocked and none failed or succeeded, COMPLETED and PARTIAL likewise |
| RunReport.CapThatEnded | src/financial_intelligence/application/execute_research_plan.py:257-275 | a run over budget ended for its attempts exactly when they are used up, and for its calls when attempts are left; a run that ends by itself has both to spare |
| RunReport.ReportedCountsAreExact | src/financial_intelligence/application/execute_research_plan.py:575-596 | each reported count is the number of positions whose task, or result, has that status |
| RunReport.RequiredTasksAreAccountedFor | src/financial_intelligence/application/execute_research_plan.py:605-650 | after a natural finish, unless a required task was skipped or out of attempts before the run, every required task succeeded, failed or is blocked, and FAILED or BLOCKED is reported exactly when none succeeded |
| BudgetSlack.CapsEndRunIff | src/financial_intelligence/application/execute_research_plan.py:257-285 | the run under given caps against the run with caps to spare: a cap ends the first exactly when the second reaches it, and otherwise the two runs are the same |
| Completion.FinishesForEveryExecutorIff | src/financial_intelligence/application/execute_research_plan.py:257-285 | read off the state before the run, for every good state: it finishes by itself for every executor if and only if no task can come up without an attempt left that the budget would allow, and both caps exceed what was used plus the attempts left to the tasks that can still succeed; without the slack one executor uses up a cap |
| Completion.FreshSlackIff | src/financial_intelligence/application/execute_research_plan.py:257-285 | for a fresh accepted plan that condition is exactly that the sum of the tasks' maximum attempts is below both caps |
| BudgetSlack.AllSucceededYetOverBudget | src/financial_intelligence/application/execute_research_plan.py:257-275 | a concrete run whose only task succeeded is reported over budget |
| BudgetSlack.LoneRunCompletes | src/financial_intelligence/application/execute_research_plan.py:257-285 | the same plan completes in one call when each cap leaves a unit to spare |
| ExecutionControls.ExecutionControl.RequestCancel | src/financial_intelligence/domain/orchestration/execution_control.py:36-43 | a reason of 1 to 256 characters is accepted and makes the loop see a cancel; any other is refused and changes nothing |
| ExecutionControls.ExecutionControl.RequestPause | src/financial_intelligence/domain/orchestration/execution_control.py:45-54 | a reason of 1 to 256 characters is accepted and makes the loop see a pause, also after a cancel; any other is refused and changes nothing |
| Resume.PauseResumeIsTransparent | src/financial_intelligence/application/execute_research_plan.py:225-255 | any number of pauses, each resumed from its checkpoint, ends with the calls, tasks, counters, results and deduplicated warnings of the uninterrupted run |
| Resume.SameReport | src/financial_intelligence/application/execute_research_plan.py:575-688 | the reports of the cut run and the uninterrupted run are equal field by field |
| Resume.SegmentsConserveAttempts | src/financial_intelligence/application/execute_research_plan.py:257-381 | over any number of resumed segments calls, growth of both counters and growth of the summed attempt counts are one number, and no cap is passed |
| Resume.SegmentsFollowPlanOrder | src/financial_intelligence/application/execute_research_plan.py:225-405 | a run in which no task can overtake calls in plan order over any number of resumed segments, with immediate retries even across the cuts |
| Resume.ResumedRunIsInStep | src/financial_intelligence/application/execute_research_plan.py:225-405 | the run resumed from the checkpoint of such a run is again one |
| Resume.StoppedRunIsStable | src/financial_intelligence/application/manage_research_workflow.py:375-400 | running on from a run that has already ended ends it again in the same way, so a late pause loses nothing |
| Resume.ProgressKeepsAcceptance | src/financial_intelligence/domain/orchestration/budget.py:44-82 | progress does not affect acceptance, so a resumed plan is never refused by the budget |
| Resume.RunKeepsAcceptance | src/financial_intelligence/domain/orchestration/budget.py:44-82 | after any run the plan is still valid and accepted |
| IdleRuns.RunChangesNothingIff | src/financial_intelligence/application/execute_research_plan.py:240-425 | a run leaves everything a checkpoint holds as it was exactly when no warning was repeated at the start and the first poll and state already stop it: paused, over a cap, nothing unsettled, or a refused start met again |
| Workflows.TerminalHasNoExit | src/financial_intelligence/domain/workflow/status.py:26-70 | the terminal statuses are exactly those without an outgoing transition |
| Workflows.EnteredFrom | src/financial_intelligence/domain/workflow/status.py:26-58 | the transition table read from its targets: for each status, exactly the statuses it can be entered from |
| WorkflowStore.InMemoryWorkflowStore.SaveWorkflow | src/financial_intelligence/infrastructure/workflow/in_memory_store.py:31-62 | saves exactly when no record is held, or the one held has the same run, request, company and plan, a status that allows the new one, and no larger version; a refused save changes nothing |
| WorkflowStore.InMemoryWorkflowStore.SaveCheckpoint | src/financial_intelligence/infrastructure/workflow/in_memory_store.py:93-114 | stores exactly the checkpoints of the same run, plan and company with a larger version than the one held |
| WorkflowOperations.WorkflowManager.BeginExecution | src/financial_intelligence/application/manage_research_workflow.py:105-163 | without interference an execution starts exactly on an approved READY or PAUSED workflow, and otherwise changes nothing |
| WorkflowOperations.WorkflowManager.PauseWorkflow | src/financial_intelligence/application/manage_research_workflow.py:211-250 | without interference only a RUNNING workflow is paused; its record is committed before its checkpoint is saved |
| WorkflowOperations.WorkflowManager.ResumeWorkflow | src/financial_intelligence/application/manage_research_workflow.py:252-279 | without interference exactly a PAUSED workflow goes back to READY and on to RUNNING, with its plan and checkpoint; on legal records the approval check never fires |
| WorkflowOperations.WorkflowManager.CancelWorkflow | src/financial_intelligence/application/manage_research_workflow.py:281-322 | without interference every workflow that has not ended is cancelled, and no other |
| WorkflowOperations.WorkflowManager.ApproveWorkflow | src/financial_intelligence/application/manage_research_workflow.py:324-363 | without interference a decision is taken exactly on a workflow that awaits approval, and never fails there |
| WorkflowOperations.WorkflowManager.FinishExecution | src/financial_intelligence/application/manage_research_workflow.py:365-463 | the result is committed under the store's verdict, the checkpoint is saved only after it, the save that adds a notification warning is never refused, and a refused result leaves both maps alone; StoredStatusIff says what status it commits |
| WorkflowExecution.StoredStatusIff | src/financial_intelligence/application/manage_research_workflow.py:365-433 | over the outcome behind every result: PAUSED with a pause request; without one COMPLETED, CANCELLED, FAILED or PARTIAL each exactly under its condition on the final tasks, the results and how the run ended; and the checkpoint is the one that outcome left |
| WorkflowExecution.Execute | src/financial_intelligence/application/manage_research_workflow.py:105-209 | the whole of `execute` without interference: only READY and PAUSED workflows start, another company ends the workflow as FAILED, and otherwise the record in the store has the status and the progress that running its plan came to |
| WorkflowExecution.ExecuteWithPauses | src/financial_intelligence/application/manage_research_workflow.py:105-279 | executing a stored workflow with any number of pauses, each resumed through the store, by the operations themselves and without interference: the record then stored has the status and the progress of one uninterrupted execution |
| WorkflowOperations.DecisionsByStatus | src/financial_intelligence/application/manage_research_workflow.py:105-363 | on legal records the status alone decides what execute, resume, cancel and approve commit: the approval and transition checks behind it never fire |
| WorkflowOperations.DecisionsAreLegal | src/financial_intelligence/application/manage_research_workflow.py:105-363 | every record an operation wants to commit keeps status and approval consistent, and an execution runs only from RUNNING |
| WorkflowInterleavings.ApprovalSafety | src/financial_intelligence/application/manage_research_workflow.py:105-363 | over every interleaving AWAITING_APPROVAL means undecided, and a workflow that needs approval is READY, RUNNING, PAUSED, COMPLETED or PARTIAL only when APPROVED |
| WorkflowInterleavings.OnlyApprovedExecutions | src/financial_intelligence/application/manage_research_workflow.py:126-163 | over every interleaving nothing executes without the approval it needs |
| WorkflowInterleavings.TerminalStatusesAbsorb | src/financial_intelligence/domain/workflow/status.py:26-70 | over every interleaving a terminal status is never left and the checkpoint version of a record never falls |
| WorkflowInterleavings.CheckpointsBehindRecords | src/financial_intelligence/application/manage_research_workflow.py:444-452 | a saved checkpoint is never ahead of the stored record |
| WorkflowInterleavings.ResultCommitsIff | src/financial_intelligence/application/manage_research_workflow.py:444-451 | exactly when the result of an execution is committed over the record now in the store |
| WorkflowInterleavings.CancelDiscardsResults | src/financial_intelligence/application/manage_research_workflow.py:444-451 | after a cancel every result but a cancellation is refused |
| WorkflowInterleavings.StaleExecutionCommits | src/financial_intelligence/application/manage_research_workflow.py:444-451 | a concrete history, over an acceptable plan and the report of a run of it, in which a stale execution commits COMPLETED while a newer execution is in flight |
| WorkflowInterleavings.ExecutionStartsIff | src/financial_intelligence/application/manage_research_workflow.py:154-163 | exactly when the RUNNING record of a starting execution is committed over the record now in the store, RUNNING over RUNNING included |
| WorkflowInterleavings.TwoExecutionsInFlight | src/financial_intelligence/application/manage_research_workflow.py:154-163 | a history for every plan in which two executions read READY and both start |
| WorkflowExclusion.AtMostOneIffNoOverlap | src/financial_intelligence/application/manage_research_workflow.py:105-250 | over every history: at most one execution of a workflow is ever in flight if and only if no start is committed while one is |
| WorkflowExclusion.RunningIsInFlight | src/financial_intelligence/application/manage_research_workflow.py:154-209 | over every history a workflow stored as RUNNING has an execution in flight, or its pending identity mismatch |
| WorkflowExclusion.AtMostOneInFlightIff | src/financial_intelligence/application/manage_research_workflow.py:105-250 | over every history in which a workflow is not paused by hand: at most one of its executions is ever in flight if and only if none of its starts is committed over RUNNING |
| WorkflowResume.PausedWorkflowEndsTheSame | src/financial_intelligence/application/manage_research_workflow.py:191-209 | a stored workflow that is paused and resumed any number of times ends in the record of one that is executed once, up to the checkpoint version |
| WorkflowResume.ManualPauseKeepsProgressIff | src/financial_intelligence/application/manage_research_workflow.py:574-597 | for every engine, control and plan the checkpoint of a manual pause is the one the execution in flight will commit exactly when that execution changes nothing: a condition on its start, its entry poll and its first poll |
| WorkflowResume.ManualPauseLosesACall | src/financial_intelligence/application/manage_research_workflow.py:574-597 | a concrete run whose one call succeeded, and the manual checkpoint without that call |
| WorkflowResume.EntryPauseKeepsWorkIff | src/financial_intelligence/application/execute_research_plan.py:504-545 | the checkpoint committed after a pause set on entry keeps work and seeded progress exactly when there was none of either, and the resumed workflow never calls the executor again |
| Grouping.BucketByKey | src/financial_intelligence/domain/financial/conflicts.py:202-204 | the bucketing loop that facts, events and days share: every key seen has exactly its elements in order, and keys come by first appearance |
| Grouping.FirstSeenIsFirst | src/financial_intelligence/domain/financial/conflicts.py:202-204 | each key is listed where its first element stands, after exactly the keys that appear before |
| NewsConflicts.ResolveExactDedupeGroup | src/financial_intelligence/domain/news/conflicts.py:96-146 | a group agrees, is superseded by its agreeing best tier, or stays unresolved, decided by its events alone; the errors exactly as in the source |
| NewsConflicts.DetectSoftDateConflicts | src/financial_intelligence/domain/news/conflicts.py:149-173 | one record for each company, type and title whose dates differ, in order of first appearance, with all its events, and no other record |
| NewsConflicts.OrderEvents | src/financial_intelligence/domain/news/conflicts.py:212-223 | orders by later date, title and id; the result is a permutation of the input |
| NewsConflicts.ProcessEvents | src/financial_intelligence/domain/news/conflicts.py:176-209 | the records are those of the shared keys and then those of the date disagreements, each once and in order of first appearance; the survivors are a sorted permutation of what the groups contribute, and with distinct ids those the set of events determines |
| NewsConflicts.KeptIff | src/financial_intelligence/domain/news/conflicts.py:83-146 | an event is kept exactly when its reports of the best authority differ materially, or no other report of the same company, type, date and title has a lower tier, an earlier retrieval within the tier, or then a smaller id |
| NewsConflicts.OutputIsOrdered | src/financial_intelligence/domain/news/conflicts.py:212-223 | the output comes by later date, then by title, then by id |
| NewsConflicts.DateConflictIff | src/financial_intelligence/domain/news/conflicts.py:149-173 | two survivors are candidates of one date conflict exactly when company, type and title agree and a survivor with the same has another date |
| NewsConflicts.ProcessIsConfluent | src/financial_intelligence/domain/news/conflicts.py:176-223 | with distinct ids every permutation of the input gives the same survivor sequence |
| NewsConflicts.ProcessIsIdempotent | src/financial_intelligence/domain/news/conflicts.py:176-223 | processing the survivors again returns them unchanged |
| NewsConflicts.DroppedEventsAreRecorded | src/financial_intelligence/domain/news/conflicts.py:176-209 | every dropped event is a candidate of a recorded conflict whose selected survivor has its company, type, date and title and is preferred, by tier, retrieval and id, to every other such event |
| FactConflicts.ResolveFactConflict | src/financial_intelligence/domain/financial/conflicts.py:106-190 | without one unit, currency and period a group is unresolved; with one it is so exactly when two facts that none outranks differ in value; a resolved group selects its earliest fact of the best tier, which carries the value of all facts of that tier; the errors exactly as in the source |
| FactConflicts.DetectFactConflicts | src/financial_intelligence/domain/financial/conflicts.py:193-216 | one survivor for each resolved key in order of first appearance, none for an unresolved one, and one record holding the whole group for each key with several facts; HighestAuthoritySurvives says which keys resolve |
| FactConflicts.HighestAuthoritySurvives | src/financial_intelligence/domain/financial/conflicts.py:106-216 | a fact of a company, concept and period label survives exactly when there is one, all of them share unit, currency and period, and those of the best tier carry one value; the survivor has that tier and that value |
| FactConflicts.NoLastWriteWins | src/financial_intelligence/domain/financial/conflicts.py:106-216 | permuting the facts changes neither a group's rule, nor which keys survive, nor a survivor's value, unit, currency, period or tier |
| FactConflicts.OneSurvivorPerKey | src/financial_intelligence/domain/financial/conflicts.py:193-216 | a key has at most one survivor and none when it is unresolved |
| FactConflicts.IndexFacts | src/financial_intelligence/domain/financial/statements.py:66-88 | indexes exactly the lists of fitting facts with distinct concepts, and maps every concept to its fact; otherwise the error is that of the first fact at fault |
| FactConflicts.StatementFactsAre | src/financial_intelligence/application/filing_pipeline.py:138-146 | an income or cash-flow statement takes exactly the survivors of its concepts in its period |
| FactConflicts.BalanceFactsAre | src/financial_intelligence/application/filing_pipeline.py:148-175 | a balance sheet takes exactly the survivors of its concepts that end on its day, moved to its period |
| FactConflicts.StatementsNeverDuplicate | src/financial_intelligence/application/filing_pipeline.py:138-146 | indexing an income or cash-flow statement built from the survivors never meets a second fact of a concept |
| FactConflicts.BalanceDuplicatesIff | src/financial_intelligence/application/filing_pipeline.py:148-175 | the balance sheet built from one company's facts meets a second fact of a concept exactly when facts of one balance concept that end on its day and whose keys resolve carry different period labels |
| FactConflicts.BalanceCanDuplicate | src/financial_intelligence/application/filing_pipeline.py:148-175 | concrete facts for a year and its last quarter that both survive and collide on the balance sheet |
| RequestBodyLimit.LengthTestIsArithmetic | src/financial_intelligence/api/middleware.py:128-134 | stripping zeros and comparing by length, then as text, refuses a digit string (section 8.6 of RFC 9110) exactly when its decimal value exceeds the limit |
| RequestBodyLimit.Collect | src/financial_intelligence/api/middleware.py:136-161 | admits a body exactly as received, up to the first disconnect or the first chunk without more to follow, within both caps; a refusal names the message that first broke a cap |
| RequestBodyLimit.EndingAndBreakingExclude | src/financial_intelligence/api/middleware.py:139-161 | a body that ends within the caps breaks none before, so exactly one verdict applies |
| RequestBodyLimit.Replay.Receive | src/financial_intelligence/api/middleware.py:163-166 | a receive serves the next message of the replay specification and consumes it |
| RequestBodyLimit.ReplayIsFaithful | src/financial_intelligence/api/middleware.py:163-168 | an admitted body is replayed message for message and then followed by disconnects only |
| RequestBodyLimit.ServedInTwoBatches | src/financial_intelligence/api/middleware.py:163-168 | serving in two batches serves what one batch of the same size does |
| PackageCache.CachingAdapter.Lookup | src/financial_intelligence/infrastructure/financial/cache.py:49-54 | a hit is exactly an entry of the company and year that expires after the clock reading, with LIVE relabelled CACHED_LIVE |
| PackageCache.CachingAdapter.Commit | src/financial_intelligence/infrastructure/financial/cache.py:56-66 | an entry stored in the meantime wins and stays; otherwise the fetched package is stored until the time to live has passed, or the key removed, and no other key changes |
| PackageCache.CachingAdapter.GetPackage | src/financial_intelligence/infrastructure/financial/cache.py:41-66 | the two phases together when no other thread interferes |
| PackageCache.AnswersAreGenuine | src/financial_intelligence/infrastructure/financial/cache.py:41-72 | under every interleaving an answer was returned by the inner source for its key, up to the cached label, and a hit was stored less than the time to live before |
| PackageCache.CommitSparesFreshEntries | src/financial_intelligence/infrastructure/industry/cache.py:41-67 | no commit replaces or removes an unexpired entry, or an entry of another key |
| PackageCache.SharedKeys | src/financial_intelligence/infrastructure/financial/cache.py:41-48 | two queries share a key exactly when they differ at most by fiscal year 0 against none |
| PackageCache.CacheRefinesSource | src/financial_intelligence/infrastructure/financial/cache.py:41-72 | as long as nobody asks for the fiscal year 0, every answer of every interleaving is the answer of the pure inner source, up to the cached label, whatever that source |
| PackageCache.CacheRefinesSourceIff | src/financial_intelligence/infrastructure/financial/cache.py:41-72 | for any set of queries in use every history refines a pure source if and only if what it gives one query serves, once labelled, every query with the same key |
| PackageCache.YearZeroGetsLatest | src/financial_intelligence/infrastructure/financial/cache.py:41-54 | a provider that has no package for the fiscal year 0, and a history that answers it with the latest one |
| EvidenceScore.Classify | src/financial_intelligence/domain/verification/evidence.py:269-296 | every reference is listed once, in order, under its own standing |
| EvidenceScore.SetAsideLater | src/financial_intelligence/domain/verification/engine.py:83-99 | exactly the references retrieved after the clock reading become neutral; neutral ones keep their input order |
| EvidenceScore.ComputeConfidence | src/financial_intelligence/domain/verification/engine.py:168-270 | score and factors are those of the set of supporting references, the total and whether anything contradicts |
| EvidenceScore.DetermineStatus | src/financial_intelligence/domain/verification/engine.py:272-305 | the status is that of the set of supporting references, whether anything contradicts, and the confidence |
| EvidenceScore.Verify | src/financial_intelligence/domain/verification/engine.py:67-127 | the verdict is a function of the set of references, with the status of StatusIff, the factors of FactorsIff and the confidence of ConfidenceIs |
| EvidenceScore.StatusIff | src/financial_intelligence/domain/verification/engine.py:272-305 | each of the six statuses exactly when supporting, contradicting and fresh references exist or not and the confidence reaches a threshold, the references told apart by retrieval, topic, outcome and age |
| EvidenceScore.FactorsIff | src/financial_intelligence/domain/verification/engine.py:168-264 | each of the seven factors exactly under its condition on the supporting references, 0.7 for the tier weight and the age limit in days included |
| EvidenceScore.ConfidenceIs | src/financial_intelligence/domain/verification/engine.py:168-270 | the confidence of a supported claim: greatest tier weight, 0.3 of the recent share, 0.3 or once contradicted 0.1 of the supporting share, and 0.1, 0.1, 0.05 and 0.05 for the factors earned, held between 0 and 1 |
| EvidenceScore.NoSupportNoConfidence | src/financial_intelligence/domain/verification/engine.py:168-178 | without a supporting reference confidence is 0 and no factor is named |
| EvidenceScore.VerdictIgnoresOrder | src/financial_intelligence/domain/verification/engine.py:81-105 | two verdicts on permutations of the same references are equal in score, factors and status |
| EvidenceScore.ConfidenceNeverRises | src/financial_intelligence/domain/verification/engine.py:168-270 | adding neutral, contradicting or later references never raises the confidence |
| EvidenceScore.RawScoreFalls | src/financial_intelligence/domain/verification/engine.py:204-215 | before clamping the score of a supported claim strictly falls with every such reference |
| EvidenceScore.VerifiedIff | src/financial_intelligence/domain/verification/engine.py:272-305 | VERIFIED exactly with a fresh supporting reference, no contradicting one retrieved by now, and the confidence at the threshold |
| EvidenceScore.SupportCanLowerConfidence | src/financial_intelligence/domain/verification/engine.py:189-264 | confidence is not monotone in support: a concrete reference that a numeric claim accepts as supporting turns VERIFIED into PARTIALLY_VERIFIED |
| EvidenceScore.SupportChangesRawScore | src/financial_intelligence/domain/verification/engine.py:189-264 | before clamping one more supporting reference changes the score by exactly the changes in weight, recency, share and bonuses |
| EvidenceScore.SupportLowersConfidenceIff | src/financial_intelligence/domain/verification/engine.py:168-270 | one more supporting reference lowers the confidence exactly when the claim was supported, that change is negative, and the score ends below the clamp |
| EvidenceScore.RecentSupportNeverHurts | src/financial_intelligence/domain/verification/engine.py:168-270 | recent support that keeps completeness and matching units never lowers the confidence |

## Left out

- Executor exceptions, and everything outside the loop that can raise: the executor always answers.
- The control is one reading per poll; the source reads `is_cancelled` and `is_pause` separately.
- Messages, descriptions, timestamps and time zones. A warning is modelled by its kind and its task, not by its text.
- Negative attempt counters, which the source refuses when it is called; the model's counters are natural numbers.
- Identifiers are integers; the order of canonical UUID texts is taken as their numeric order.
- The orchestration and plan statuses of the run; only the reason a run ended, its tasks and the reported status are kept.
- TaskResults: the evidence dedupe key is one integer in the order of the source's key tuple.
- ExecutionControls.ExecutionControl.RequestCancel: takes the reason with its whitespace already collapsed.
- Research memory and notification writes, and the warnings they add to the workflow record; a manual checkpoint takes its warnings from the last checkpoint.
- Workflow counts, messages, objective and company query in the record; listing and paging of the store.
- Overtaking.PlanOrderForEveryExecutorIff: is about states in which every unsettled task that no failure dooms has an attempt left; CallsFollowPlanOrder covers the others in one direction.
- WorkflowInterleavings.StaleExecutionCommits: shows one history; ResultCommitsIff gives the general condition.
- NewsConflicts.ProcessEvents: with repeated event ids which of several equally ranked events is selected is not fixed.
- The methods on the manager are stated without interference, over stores whose records are legal; interference is the subject of WorkflowInterleavings.
- NewsConflicts: case folding and the material fingerprint are values of the event.
- FactConflicts: the fields that only identify a fact's source are one value; building a balance fact again keeps them.
- Header parsing, the host check and the rejection responses around the Content-Length test.
- RequestBodyLimit.Collect: takes the messages the server delivers as a sequence; waiting for more is a verdict of its own.
- PackageCache: locks are atomic steps, clock readings are arbitrary integers, and exceptions of the inner source end a thread.
- EvidenceScore: keyword overlap, polarity and value matching are given per reference (Attainable ties a numeric match to its context); decimals are real numbers, without the 28-digit context.
- EvidenceScore.Verify: contradiction records, critic requests and the rationale are not built.
- Plan creation, company resolution, routes, adapters, settings, watchlists, synthesis and reports.
