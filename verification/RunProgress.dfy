/** Every run ends by itself before the no-progress guard, and a natural finish settles every task. */
module RunProgress {
  import opened ResearchTasks
  import opened TopologicalOrder
  import opened ResearchPlans
  import opened Scheduling
  import opened ExecutionBudgets
  import opened PlanExecution
  import opened ExecutionLoop
  import opened RunSafety

  // ----- The work left -----

  /** What an unsettled task can still take: its remaining attempts and its settling. */
  function TaskWork(t: Task): int {
    if t.Unsettled() then t.maxAttempts - t.attemptCount + 1 else 0
  }

  function Work(ts: seq<Task>): int {
    if ts == [] then 0 else Work(ts[..|ts| - 1]) + TaskWork(ts[|ts| - 1])
  }

  lemma {:induction false} WorkOfUpdate(ts: seq<Task>, i: nat, t: Task)
    requires i < |ts|
    ensures Work(ts[i := t]) == Work(ts) - TaskWork(ts[i]) + TaskWork(t)
  {
    var shorter := ts[..|ts| - 1];
    if i < |ts| - 1 {
      assert ts[i := t][..|ts| - 1] == shorter[i := t];
      WorkOfUpdate(shorter, i, t);
    } else {
      assert ts[i := t][..|ts| - 1] == shorter;
    }
  }

  lemma {:induction false} WorkMonotone(a: seq<Task>, b: seq<Task>)
    requires |a| == |b| && forall i :: 0 <= i < |a| ==> TaskWork(a[i]) <= TaskWork(b[i])
    ensures Work(a) <= Work(b)
  {
    if a != [] {
      WorkMonotone(a[..|a| - 1], b[..|b| - 1]);
    }
  }

  lemma {:induction false} WorkBound(b: Budget, ts: seq<Task>)
    requires AllFit(b, ts)
    ensures 0 <= Work(ts) <= |ts| * b.maxAttemptsPerTask + |ts|
  {
    if ts != [] {
      var shorter, last := ts[..|ts| - 1], ts[|ts| - 1];
      forall i | 0 <= i < |shorter| ensures Fits(b, shorter[i]) {
        assert Fits(b, ts[i]);
      }
      WorkBound(b, shorter);
      assert Fits(b, last);
      assert |ts| * b.maxAttemptsPerTask == |shorter| * b.maxAttemptsPerTask + b.maxAttemptsPerTask;
    }
  }

  lemma PropagationAddsNoWork(b: Budget, ts: seq<Task>)
    requires AllFit(b, ts)
    ensures Work(Propagated(ts)) <= Work(ts)
  {
    forall i | 0 <= i < |ts| ensures TaskWork(Propagated(ts)[i]) <= TaskWork(ts[i]) {
      assert Fits(b, ts[i]);
    }
    WorkMonotone(Propagated(ts), ts);
  }

  lemma AttemptReducesWork(e: Engine, s: State, i: nat)
    requires Good(e.budget, s) && IsNext(s.tasks, i)
    ensures Attempt(e, s, i).Next? ==> Work(Attempt(e, s, i).state.tasks) < Work(s.tasks)
  {
    var t := s.tasks[i];
    assert Runnable(s.tasks, t) && Fits(e.budget, t);
    var round := Attempt(e, s, i);
    if round.Next? {
      WorkOfUpdate(s.tasks, i, round.state.tasks[i]);
    }
  }

  /** Every round that does not stop leaves strictly less work. */
  lemma RoundReducesWork(e: Engine, control: Control, s: State)
    requires Good(e.budget, s)
    ensures PlayRound(e, control, s).Next? ==> Work(PlayRound(e, control, s).state.tasks) < Work(s.tasks)
  {
    if PlayRound(e, control, s).Next? {
      var p := Propagate(s);
      PropagationAddsNoWork(e.budget, s.tasks);
      PropagationIsQuiet(s.tasks);
      QuietRound(e.budget, s, p);
      var i := NextIndex(p.tasks);
      assert IsNext(p.tasks, i);
      AttemptReducesWork(e, p, i);
    }
  }

  lemma {:induction false} GuardNotReached(e: Engine, poll: nat -> Control, s: State, round: nat, maxRounds: nat)
    requires Good(e.budget, s) && round + Work(s.tasks) < maxRounds
    ensures !Run(e, poll, s, round, maxRounds).halt.NoProgress?
    decreases maxRounds - round
  {
    WorkBound(e.budget, s.tasks);
    var played := PlayRound(e, poll(round + 1), s);
    if played.Next? {
      RoundReducesWork(e, poll(round + 1), s);
      var calls := RoundAdvances(e, poll(round + 1), s);
      GuardNotReached(e, poll, played.state, round + 1, maxRounds);
    }
  }

  /**
   * The no-progress guard is unreachable: whatever the executor answers and whatever the control
   * does, a run over an accepted plan stops on one of its own conditions.
   */
  lemma NoProgressGuardUnreachable(e: Engine, poll: nat -> Control, s: State)
    requires Good(e.budget, s)
    ensures !RunPlan(e, poll, s).halt.NoProgress?
  {
    WorkBound(e.budget, s.tasks);
    GuardNotReached(e, poll, s, 0, MaxRounds(e.budget, |s.tasks|));
  }

  // ----- Natural finishes -----

  lemma RoundKeepsNoneRunning(e: Engine, control: Control, s: State)
    requires NoneRunning(s.tasks)
    ensures NoneRunning(PlayRound(e, control, s).state.tasks)
  {
    var p := Propagate(s);
    assert NoneRunning(p.tasks);
    if control.Go? {
      var i := NextIndex(p.tasks);
      if 0 <= i < |p.tasks| { assert IsNext(p.tasks, i); }
    }
  }

  lemma {:induction false} RunKeepsNoneRunning(e: Engine, poll: nat -> Control, s: State, round: nat, maxRounds: nat)
    requires NoneRunning(s.tasks)
    ensures NoneRunning(Run(e, poll, s, round, maxRounds).state.tasks)
    decreases maxRounds - round
  {
    if round < maxRounds {
      RoundKeepsNoneRunning(e, poll(round + 1), s);
      var played := PlayRound(e, poll(round + 1), s);
      if played.Next? {
        RunKeepsNoneRunning(e, poll, played.state, round + 1, maxRounds);
      }
    }
  }

  /** When nothing is running, the branch that gives up leftover PENDING tasks finds none. */
  lemma LeftoverBranchIsDead(ts: seq<Task>)
    requires ValidPlan(ts) && NoneRunning(ts) && NoneRunnable(Propagated(ts))
    ensures Finalized(Propagated(ts)) == Propagated(ts)
    ensures AllSettled(Propagated(ts))
  {
    NoDeadlock(ts);
    PropagationIsIdempotent(ts);
    forall i | 0 <= i < |ts| ensures Finalized(Propagated(ts))[i] == Propagated(ts)[i] {}
  }

  lemma RoundFinish(e: Engine, control: Control, s: State)
    requires Good(e.budget, s) && NoneRunning(s.tasks)
    requires PlayRound(e, control, s).Stop? && PlayRound(e, control, s).halt.Finished?
    ensures PlayRound(e, control, s).state == Propagate(s) && AllSettled(Propagate(s).tasks)
  {
    var p := Propagate(s);
    forall i | 0 <= i < |p.tasks| ensures !Runnable(p.tasks, p.tasks[i]) {
      if Runnable(p.tasks, p.tasks[i]) {
        var n := LeastRunnable(p.tasks, i);
        PropagatedShapes(s.tasks);
        SameShapesSamePlan(s.tasks, p.tasks);
        NextIsUnique(p.tasks, n);
      }
    }
    LeftoverBranchIsDead(s.tasks);
  }

  /** A least runnable task exists as soon as any task is runnable. */
  lemma {:induction false} LeastRunnable(ts: seq<Task>, i: nat) returns (least: nat)
    requires i < |ts| && Runnable(ts, ts[i])
    ensures IsNext(ts, least)
  {
    least := i;
    var k := 0;
    while k < |ts|
      invariant k <= |ts| && least < |ts| && Runnable(ts, ts[least])
      invariant forall j {:trigger Runnable(ts, ts[j])} :: 0 <= j < k && Runnable(ts, ts[j]) ==>
                KeyOrder(ts[least], ts[j])
    {
      if Runnable(ts, ts[k]) && !KeyOrder(ts[least], ts[k]) {
        least := k;
      }
      k := k + 1;
    }
  }

  lemma {:induction false} FinishedRunIsSettled(e: Engine, poll: nat -> Control, s: State, round: nat, maxRounds: nat)
    requires Good(e.budget, s) && NoneRunning(s.tasks)
    ensures var o := Run(e, poll, s, round, maxRounds);
            o.halt.Finished? ==> AllSettled(o.state.tasks)
    decreases maxRounds - round
  {
    if round < maxRounds {
      var control := poll(round + 1);
      var played := PlayRound(e, control, s);
      if played.Next? {
        RoundKeepsNoneRunning(e, control, s);
        var calls := RoundAdvances(e, control, s);
        FinishedRunIsSettled(e, poll, played.state, round + 1, maxRounds);
      } else if played.halt.Finished? {
        RoundFinish(e, control, s);
      }
    }
  }

  lemma {:induction false} StatusCountsAddUp(ts: seq<Task>)
    requires AllSettled(ts) && NoneRunning(ts)
    ensures CountStatus(ts, Succeeded) + CountStatus(ts, Failed) + CountStatus(ts, Blocked) + CountStatus(ts, Skipped)
            == |ts|
  {
    if ts != [] {
      StatusCountsAddUp(ts[..|ts| - 1]);
      var last := ts[|ts| - 1];
      assert last == ts[..|ts|][|ts| - 1] && !last.Unsettled();
    }
  }

  /**
   * A run that finishes naturally leaves every task succeeded, failed, blocked or skipped, and the
   * four reported counts add up to the number of tasks.
   */
  lemma NaturalFinishSettlesEverything(e: Engine, poll: nat -> Control, s: State, r: Report)
    requires Good(e.budget, s) && NoneRunning(s.tasks)
    requires RunPlan(e, poll, s).halt.Finished? && Reports(r, RunPlan(e, poll, s))
    ensures AllSettled(r.tasks) && NoneRunning(r.tasks)
    ensures r.completed + r.failed + r.blocked + r.skipped == |r.tasks| == |s.tasks|
  {
    var max := MaxRounds(e.budget, |s.tasks|);
    FinishedRunIsSettled(e, poll, s, 0, max);
    RunKeepsNoneRunning(e, poll, s, 0, max);
    RunPlanAdvances(e, poll, s);
    StatusCountsAddUp(r.tasks);
  }
}
