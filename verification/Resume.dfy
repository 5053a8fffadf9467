/**
 * Pause and resume: a checkpoint taken at the head of a round carries everything a run needs
 * (src/financial_intelligence/domain/workflow/checkpoint.py and
 * src/financial_intelligence/application/manage_research_workflow.py).
 */
module Resume {
  import opened ResearchTasks
  import opened TopologicalOrder
  import opened Scheduling
  import opened ExecutionBudgets
  import opened TaskResults
  import opened PlanExecution
  import opened ExecutionLoop
  import opened RunSafety
  import opened RunProgress
  import opened StaticOrder

  /** What survives a pause. */
  datatype Checkpoint = Checkpoint(
    tasks: seq<Task>,
    totalAttempts: nat,
    externalCalls: nat,
    results: seq<TaskResult>,
    warnings: seq<Warning>)

  function CheckpointOf(r: Report): Checkpoint {
    Checkpoint(r.tasks, r.totalAttempts, r.externalCalls, r.results, r.warnings)
  }

  /** The checkpoint of a run, read off its outcome. */
  function Saved(o: Outcome): Checkpoint {
    Checkpoint(o.state.tasks, o.state.totalAttempts, o.state.externalCalls, o.state.results,
               Deduplicated(o.state.warnings))
  }

  /** The state a resumed run starts from; `trace` is the record of the earlier calls. */
  ghost function Seeded(c: Checkpoint, trace: seq<Call>): State {
    StartState(c.tasks, c.totalAttempts, c.externalCalls, c.results, c.warnings, trace)
  }

  // ----- States that differ only in repeated warnings -----

  ghost predicate Alike(s: State, t: State) {
    && s.(warnings := []) == t.(warnings := [])
    && Deduplicated(s.warnings) == Deduplicated(t.warnings)
  }

  ghost predicate AlikeOutcomes(o: Outcome, p: Outcome) {
    o.halt == p.halt && Alike(o.state, p.state)
  }

  /** Appending the same warnings to both, and changing the rest of both in the same way, keeps states alike. */
  lemma AlikeWithWarnings(s: State, t: State, more: seq<Warning>, s': State, t': State)
    requires Alike(s, t) && s'.(warnings := []) == t'.(warnings := [])
    requires s'.warnings == s.warnings + more && t'.warnings == t.warnings + more
    ensures Alike(s', t')
  {
    DeduplicatedAppend(s.warnings, t.warnings, more);
  }

  lemma AlikeAfterCall(e: Engine, s: State, t: State, i: nat)
    requires Alike(s, t) && i < |s.tasks|
    ensures Alike(Called(e, s, i), Called(e, t, i))
  {
    assert s.tasks == t.tasks && s.trace == t.trace;
    var result := CallResult(e, |s.trace|, Started(s.tasks[i]));
    var more := if result.status.Partial? then [PartialResult(s.tasks[i].id)] else [];
    AlikeWithWarnings(s, t, more, Called(e, s, i), Called(e, t, i));
  }

  lemma AlikeAfterAttempt(e: Engine, s: State, t: State, i: nat)
    requires Alike(s, t) && i < |s.tasks|
    ensures var a, b := Attempt(e, s, i), Attempt(e, t, i);
            && (a.Next? <==> b.Next?)
            && (a.Stop? ==> a.halt == b.halt)
            && Alike(a.state, b.state)
  {
    var task, a, b := s.tasks[i], Attempt(e, s, i), Attempt(e, t, i);
    assert s.tasks == t.tasks && s.succeeded == t.succeeded;
    if a == Next(Called(e, s, i)) && b == Next(Called(e, t, i)) {
      AlikeAfterCall(e, s, t, i);
    } else if task.id in s.succeeded {
      AlikeWithWarnings(s, t, [DuplicatePrevented(task.id)], a.state, b.state);
    } else if a.Stop? && a.halt.StartRefused? {
      AlikeWithWarnings(s, t, [StartRefusal(AttemptsExceeded)], a.state, b.state);
    } else {
      assert s.warnings + [] == s.warnings && t.warnings + [] == t.warnings;
      AlikeWithWarnings(s, t, [], a.state, b.state);
    }
  }

  lemma AlikeAfterRound(e: Engine, control: Control, s: State, t: State)
    requires Alike(s, t)
    ensures var a, b := PlayRound(e, control, s), PlayRound(e, control, t);
            && (a.Next? <==> b.Next?)
            && (a.Stop? ==> a.halt == b.halt)
            && Alike(a.state, b.state)
  {
    assert s.tasks == t.tasks;
    var p, q := Propagate(s), Propagate(t);
    assert Alike(p, q);
    var i := NextIndex(p.tasks);
    if 0 <= i < |p.tasks| {
      AlikeAfterAttempt(e, p, q, i);
    }
  }

  lemma {:induction false} AlikeRuns(e: Engine, poll: nat -> Control, s: State, t: State, round: nat, maxRounds: nat)
    requires Alike(s, t)
    ensures AlikeOutcomes(Run(e, poll, s, round, maxRounds), Run(e, poll, t, round, maxRounds))
    decreases maxRounds - round
  {
    if round >= maxRounds {
      DeduplicatedAppend(s.warnings, t.warnings, [NoProgressGuard]);
    } else {
      AlikeAfterRound(e, poll(round + 1), s, t);
      var a, b := PlayRound(e, poll(round + 1), s), PlayRound(e, poll(round + 1), t);
      if a.Next? {
        AlikeRuns(e, poll, a.state, b.state, round + 1, maxRounds);
      }
    }
  }

  // ----- Cutting a run -----

  /** The control of a run that nobody interrupts. */
  function Uninterrupted(): nat -> Control {
    r => Go
  }

  /** A pause first seen at the head of round `k + 1`. */
  function PausedAfter(k: nat): nat -> Control {
    r => if r <= k then Go else Pause
  }

  /** Where the round counter starts is immaterial to an uninterrupted run with rounds to spare. */
  lemma {:induction false} RoundCounterIsImmaterial(e: Engine, s: State, r: nat, m: nat, q: nat, n: nat)
    requires Good(e.budget, s) && r + Work(s.tasks) < m && q + Work(s.tasks) < n
    ensures Run(e, Uninterrupted(), s, r, m) == Run(e, Uninterrupted(), s, q, n)
    decreases Work(s.tasks) + 1
  {
    WorkBound(e.budget, s.tasks);
    var played := PlayRound(e, Go, s);
    if played.Next? {
      RoundReducesWork(e, Go, s);
      var calls := RoundAdvances(e, Go, s);
      WorkBound(e.budget, played.state.tasks);
      RoundCounterIsImmaterial(e, played.state, r + 1, m, q + 1, n);
    }
  }

  lemma OnlyControlPauses(e: Engine, s: State)
    ensures PlayRound(e, Go, s).Stop? ==> !PlayRound(e, Go, s).halt.Paused?
  {
  }

  lemma {:induction false} UninterruptedIsNotPaused(e: Engine, s: State, round: nat, maxRounds: nat)
    ensures !Run(e, Uninterrupted(), s, round, maxRounds).halt.Paused?
    decreases maxRounds - round
  {
    if round < maxRounds {
      OneRound(e, Uninterrupted(), s, round, maxRounds);
      OnlyControlPauses(e, s);
      assert Uninterrupted()(round + 1) == Go;
      if PlayRound(e, Go, s).Next? {
        UninterruptedIsNotPaused(e, PlayRound(e, Go, s).state, round + 1, maxRounds);
      }
    }
  }

  lemma WorkAfterRound(e: Engine, s: State)
    requires Good(e.budget, s) && PlayRound(e, Go, s).Next?
    ensures Good(e.budget, PlayRound(e, Go, s).state)
    ensures Work(PlayRound(e, Go, s).state.tasks) + 1 <= Work(s.tasks)
  {
    RoundReducesWork(e, Go, s);
    var calls := RoundAdvances(e, Go, s);
  }

  /** Up to the pause the two runs are the same; from there the uninterrupted one goes on from the paused state. */
  lemma {:induction false} PauseSplitsRun(e: Engine, k: nat, s: State, round: nat, maxRounds: nat)
    requires Good(e.budget, s) && round <= k && round + Work(s.tasks) < maxRounds
    ensures var o := Run(e, PausedAfter(k), s, round, maxRounds);
            var whole := Run(e, Uninterrupted(), s, round, maxRounds);
            && (!o.halt.Paused? ==> o == whole)
            && (o.halt.Paused? ==>
                  && Good(e.budget, o.state)
                  && k + Work(o.state.tasks) < maxRounds
                  && whole == Run(e, Uninterrupted(), o.state, k, maxRounds))
    decreases maxRounds - round
  {
    WorkBound(e.budget, s.tasks);
    OneRound(e, PausedAfter(k), s, round, maxRounds);
    if round < k {
      OneRound(e, Uninterrupted(), s, round, maxRounds);
      assert PausedAfter(k)(round + 1) == Go == Uninterrupted()(round + 1);
      if PlayRound(e, Go, s).Next? {
        WorkAfterRound(e, s);
        PauseSplitsRun(e, k, PlayRound(e, Go, s).state, round + 1, maxRounds);
      } else {
        OnlyControlPauses(e, s);
      }
    }
  }

  /**
   * A pause request: seen at the head of the round after `rounds` rounds, or, when the run ends
   * before that, possibly set late enough that the run's result is still recorded as a pause.
   */
  datatype Interruption = Interruption(rounds: nat, late: bool)

  /** A run cut by pauses, each resumed from its checkpoint. */
  ghost function RunInSegments(e: Engine, s: State, cuts: seq<Interruption>): Outcome
    decreases |cuts|
  {
    if cuts == [] then RunPlan(e, Uninterrupted(), s)
    else
      var o := RunPlan(e, PausedAfter(cuts[0].rounds), s);
      if o.halt.Paused? || cuts[0].late then RunInSegments(e, Seeded(Saved(o), o.state.trace), cuts[1..]) else o
  }

  lemma SeededIsAlike(b: Budget, o: Outcome)
    requires Good(b, o.state)
    ensures Alike(Seeded(Saved(o), o.state.trace), o.state)
    ensures Good(b, Seeded(Saved(o), o.state.trace))
  {
    DeduplicatedTwice(o.state.warnings);
  }

  lemma AlikeCompose(o: Outcome, p: Outcome, q: Outcome)
    requires AlikeOutcomes(o, p) && AlikeOutcomes(p, q)
    ensures AlikeOutcomes(o, q)
  {
  }

  /** Playing the last round of a run again from where it stopped changes nothing but repeated warnings. */
  lemma LastRoundAgain(e: Engine, m: State)
    requires Good(e.budget, m) && NoneRunning(m.tasks) && PlayRound(e, Go, m).Stop?
    ensures var last := PlayRound(e, Go, m);
            var again := PlayRound(e, Go, last.state);
            again.Stop? && again.halt == last.halt && Alike(again.state, last.state)
  {
    var last := PlayRound(e, Go, m);
    var p := Propagate(m);
    PropagationIsIdempotent(m.tasks);
    if last.halt.Finished? {
      RoundFinish(e, Go, m);
      assert Propagate(p) == p;
    } else if last.halt.StartRefused? {
      assert last.state.tasks == p.tasks;
      KnownWarningsAddNothing(last.state.warnings, [StartRefusal(AttemptsExceeded)]);
    }
  }

  lemma StoppedAgain(e: Engine, m: State, maxRounds: nat)
    requires Good(e.budget, m) && NoneRunning(m.tasks) && PlayRound(e, Go, m).Stop? && maxRounds > 0
    ensures var last := PlayRound(e, Go, m);
            AlikeOutcomes(Run(e, Uninterrupted(), last.state, 0, maxRounds), Outcome(last.state, last.halt))
  {
    LastRoundAgain(e, m);
    OneRound(e, Uninterrupted(), PlayRound(e, Go, m).state, 0, maxRounds);
  }

  lemma {:induction false} StoppedRunIsStable(e: Engine, s: State, round: nat, maxRounds: nat)
    requires Good(e.budget, s) && NoneRunning(s.tasks) && round + Work(s.tasks) < maxRounds
    ensures var o := Run(e, Uninterrupted(), s, round, maxRounds);
            AlikeOutcomes(Run(e, Uninterrupted(), o.state, 0, maxRounds), o)
    decreases maxRounds - round
  {
    WorkBound(e.budget, s.tasks);
    OneRound(e, Uninterrupted(), s, round, maxRounds);
    var played := PlayRound(e, Go, s);
    if played.Next? {
      WorkAfterRound(e, s);
      RoundKeepsNoneRunning(e, Go, s);
      StoppedRunIsStable(e, played.state, round + 1, maxRounds);
    } else {
      StoppedAgain(e, s, maxRounds);
    }
  }

  /**
   * Pause and resume are transparent: cutting a run by any number of pauses and resuming each time
   * from the checkpoint ends the same way, with the same calls, tasks, attempt counters, results
   * and deduplicated warnings as the run that is never interrupted. The executor is arbitrary, as
   * long as it answers the n-th call of the whole history in the same way.
   */
  lemma {:induction false} PauseResumeIsTransparent(e: Engine, s: State, cuts: seq<Interruption>)
    requires Good(e.budget, s) && NoneRunning(s.tasks)
    ensures AlikeOutcomes(RunInSegments(e, s, cuts), RunPlan(e, Uninterrupted(), s))
    decreases |cuts|
  {
    if cuts != [] {
      var k, max := cuts[0].rounds, MaxRounds(e.budget, |s.tasks|);
      var o := RunPlan(e, PausedAfter(k), s);
      WorkBound(e.budget, s.tasks);
      PauseSplitsRun(e, k, s, 0, max);
      if o.halt.Paused? || cuts[0].late {
        var resumed := Seeded(Saved(o), o.state.trace);
        RunPlanAdvances(e, PausedAfter(k), s);
        SeededIsAlike(e.budget, o);
        RunKeepsNoneRunning(e, PausedAfter(k), s, 0, max);
        PauseResumeIsTransparent(e, resumed, cuts[1..]);
        assert |o.state.tasks| == |s.tasks|;
        AlikeRuns(e, Uninterrupted(), resumed, o.state, 0, max);
        AlikeCompose(RunInSegments(e, s, cuts), RunPlan(e, Uninterrupted(), resumed),
                     RunPlan(e, Uninterrupted(), o.state));
        RestOfRun(e, s, o, k);
        AlikeCompose(RunInSegments(e, s, cuts), RunPlan(e, Uninterrupted(), o.state), RunPlan(e, Uninterrupted(), s));
      }
    }
  }

  /** Going on from where a segment stopped completes the uninterrupted run. */
  lemma RestOfRun(e: Engine, s: State, o: Outcome, k: nat)
    requires Good(e.budget, s) && NoneRunning(s.tasks) && o == RunPlan(e, PausedAfter(k), s)
    requires Good(e.budget, o.state) && |o.state.tasks| == |s.tasks|
    ensures AlikeOutcomes(RunPlan(e, Uninterrupted(), o.state), RunPlan(e, Uninterrupted(), s))
  {
    var max := MaxRounds(e.budget, |s.tasks|);
    WorkBound(e.budget, s.tasks);
    WorkBound(e.budget, o.state.tasks);
    PauseSplitsRun(e, k, s, 0, max);
    if o.halt.Paused? {
      RoundCounterIsImmaterial(e, o.state, k, max, 0, max);
    } else {
      StoppedRunIsStable(e, s, 0, max);
    }
  }

  /** The reports of the cut run and of the uninterrupted run are equal field by field. */
  lemma SameReport(e: Engine, s: State, cuts: seq<Interruption>, cut: Report, whole: Report)
    requires Good(e.budget, s) && NoneRunning(s.tasks)
    requires Reports(cut, RunInSegments(e, s, cuts)) && Reports(whole, RunPlan(e, Uninterrupted(), s))
    ensures cut == whole
    ensures RunInSegments(e, s, cuts).state.trace == RunPlan(e, Uninterrupted(), s).state.trace
  {
    PauseResumeIsTransparent(e, s, cuts);
  }

  /**
   * Attempt conservation across resumed segments: calls, growth of both counters and growth of the
   * summed attempt counts are one number, and no cap is passed.
   */
  lemma SegmentsConserveAttempts(e: Engine, s: State, cuts: seq<Interruption>)
    requires Good(e.budget, s) && NoneRunning(s.tasks)
    ensures var o := RunInSegments(e, s, cuts);
            var calls := NewCalls(s, o);
            && o.state.trace == s.trace + calls
            && o.state.totalAttempts - s.totalAttempts == |calls|
            && o.state.externalCalls - s.externalCalls == |calls|
            && SumAttempts(o.state.tasks) - SumAttempts(s.tasks) == |calls|
            && (WithinCaps(e.budget, s) ==> WithinCaps(e.budget, o.state))
  {
    PauseResumeIsTransparent(e, s, cuts);
    AttemptConservation(e, Uninterrupted(), s);
  }

  /**
   * A run in step, cut into any number of segments, calls its tasks in plan order, with immediate
   * retries even across the cuts.
   */
  lemma SegmentsFollowPlanOrder(e: Engine, s: State, cuts: seq<Interruption>)
    requires InStep(e.budget, s)
    ensures var calls := NewCalls(s, RunInSegments(e, s, cuts));
            Collapse(TraceIds(calls)) == CalledIds(s.tasks, calls)
  {
    PauseResumeIsTransparent(e, s, cuts);
    CallsFollowPlanOrder(e, Uninterrupted(), s);
  }

  /** However a run in step ends, the run that is resumed from its checkpoint starts in step. */
  lemma ResumedRunIsInStep(e: Engine, poll: nat -> Control, s: State)
    requires InStep(e.budget, s)
    ensures var o := RunPlan(e, poll, s);
            InStep(e.budget, Seeded(Saved(o), o.state.trace))
  {
    RunStaysInStep(e, poll, s);
    SeededIsAlike(e.budget, RunPlan(e, poll, s));
  }

  // ----- A resumed plan is accepted again -----

  lemma {:induction false} SameShapesSameDependencies(a: seq<Task>, b: seq<Task>, id: TaskId)
    requires SameShapes(a, b)
    ensures DependenciesOf(a, id) == DependenciesOf(b, id)
  {
    if a != [] {
      ShapeDecidesChoice(a[|a| - 1], b[|b| - 1], {});
      SameShapesSameDependencies(a[..|a| - 1], b[..|b| - 1], id);
    }
  }

  lemma {:induction false} SameShapesSameSum(a: seq<Task>, b: seq<Task>)
    requires SameShapes(a, b)
    ensures SumMaxAttempts(a) == SumMaxAttempts(b) && Mentioned(a) == Mentioned(b)
  {
    if a != [] {
      SameMaxAttempts(a[|a| - 1], b[|b| - 1]);
      ShapeDecidesChoice(a[|a| - 1], b[|b| - 1], {});
      SameShapesSameSum(a[..|a| - 1], b[..|b| - 1]);
    }
  }

  lemma SameWalks(a: seq<Task>, b: seq<Task>, start: seq<TaskId>, path: seq<TaskId>)
    requires SameShapes(a, b) && Walk(a, start, path)
    ensures Walk(b, start, path)
  {
    forall k | 0 <= k < |path| - 1 ensures path[k + 1] in DependenciesOf(b, path[k]) {
      SameShapesSameDependencies(a, b, path[k]);
    }
  }

  lemma SameAncestors(a: seq<Task>, b: seq<Task>, start: seq<TaskId>)
    requires SameShapes(a, b)
    ensures Ancestors(a, start) == Ancestors(b, start)
  {
    SameShapesSameSum(a, b);
    assert SameShapes(b, a);
    forall x | Reaches(a, start, x) ensures Reaches(b, start, x) {
      var path :| Walk(a, start, path) && path[|path| - 1] == x;
      SameWalks(a, b, start, path);
    }
    forall x | Reaches(b, start, x) ensures Reaches(a, start, x) {
      var path :| Walk(b, start, path) && path[|path| - 1] == x;
      SameWalks(b, a, start, path);
    }
  }

  /** Progress does not affect acceptance, so a resumed run is never refused by the budget. */
  lemma ProgressKeepsAcceptance(b: Budget, before: seq<Task>, after: seq<Task>)
    requires SameShapes(before, after) && Accepts(b, before)
    ensures Accepts(b, after)
  {
    SameShapesSameSum(before, after);
    forall i | 0 <= i < |after| ensures TaskWithin(b, after, after[i]) {
      assert TaskWithin(b, before, before[i]);
      SameMaxAttempts(before[i], after[i]);
      ShapeDecidesChoice(before[i], after[i], {});
      SameAncestors(before, after, before[i].dependencies);
    }
  }

  lemma RunKeepsAcceptance(e: Engine, poll: nat -> Control, s: State)
    requires Good(e.budget, s) && Accepts(e.budget, s.tasks)
    ensures Accepts(e.budget, RunPlan(e, poll, s).state.tasks)
    ensures ValidPlan(RunPlan(e, poll, s).state.tasks)
  {
    RunPlanAdvances(e, poll, s);
    var o := RunPlan(e, poll, s);
    forall i | 0 <= i < |s.tasks| ensures s.tasks[i].Shape() == o.state.tasks[i].Shape() {
      assert TaskAdvances(s.tasks[i], o.state.tasks[i], NewCalls(s, o));
    }
    ProgressKeepsAcceptance(e.budget, s.tasks, o.state.tasks);
  }
}
