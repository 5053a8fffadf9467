/**
 * When a run is certain to finish by itself, whatever the executor answers
 * (src/financial_intelligence/application/execute_research_plan.py, execute_prepared).
 */
module Completion {
  import opened Outcomes
  import opened ResearchTasks
  import opened TaskGraph
  import opened TopologicalOrder
  import opened Scheduling
  import opened ExecutionBudgets
  import opened TaskResults
  import opened PlanExecution
  import opened RunSafety
  import opened RunProgress
  import opened StaticOrder
  import opened Resume
  import opened BudgetSlack

  // ----- Tasks that can still succeed -----

  /** Succeeded, or with an attempt left and waiting only for tasks in `hope`. */
  ghost predicate MaySucceed(t: Task, hope: set<TaskId>) {
    t.status.Succeeded? || (CanBegin(t) && DependsWithin(t, hope))
  }

  /** The tasks that have succeeded or can: found along the plan, whose dependencies come first. */
  ghost function Hopeful(ts: seq<Task>): set<TaskId> {
    if ts == [] then {}
    else
      var before, last := Hopeful(ts[..|ts| - 1]), ts[|ts| - 1];
      before + (if MaySucceed(last, before) then {last.id} else {})
  }

  ghost predicate DependsOnEarlier(ts: seq<Task>) {
    forall k {:trigger DependsWithin(ts[k], Ids(ts[..k]))} :: 0 <= k < |ts| ==> DependsWithin(ts[k], Ids(ts[..k]))
  }

  lemma PlanDependsOnEarlier(ts: seq<Task>)
    requires ValidPlan(ts)
    ensures DependsOnEarlier(ts)
  {
    forall k | 0 <= k < |ts| ensures DependsWithin(ts[k], Ids(ts[..k])) {
      assert GreedyChoice(ts, Ids(ts[..k]), ts[k]);
    }
  }

  lemma EarlierInPrefix(ts: seq<Task>, n: nat)
    requires UniqueIds(ts) && DependsOnEarlier(ts) && n <= |ts|
    ensures UniqueIds(ts[..n]) && DependsOnEarlier(ts[..n])
  {
    forall k | 0 <= k < n ensures DependsWithin(ts[..n][k], Ids(ts[..n][..k])) {
      assert ts[..n][..k] == ts[..k];
      assert DependsWithin(ts[k], Ids(ts[..k]));
    }
  }

  lemma {:induction false} HopefulAreIds(ts: seq<Task>)
    ensures Hopeful(ts) <= Ids(ts)
  {
    if ts != [] {
      var shorter := ts[..|ts| - 1];
      HopefulAreIds(shorter);
      forall x | x in Ids(shorter) ensures x in Ids(ts) {
        var i := IndexOf(shorter, x);
        assert ts[i].id == x;
      }
      assert ts[|ts| - 1].id in Ids(ts);
    }
  }

  /** A task is hopeful exactly when it may succeed once the hopeful tasks have. */
  lemma {:induction false} HopefulIff(ts: seq<Task>, k: nat)
    requires UniqueIds(ts) && DependsOnEarlier(ts) && k < |ts|
    ensures ts[k].id in Hopeful(ts) <==> MaySucceed(ts[k], Hopeful(ts))
  {
    var n := |ts| - 1;
    var shorter, last := ts[..n], ts[n];
    EarlierInPrefix(ts, n);
    HopefulAreIds(shorter);
    OutsidePrefix(ts, n, n);
    assert DependsWithin(ts[k], Ids(ts[..k]));
    forall d | d in ts[k].dependencies ensures d in Hopeful(ts) <==> d in Hopeful(shorter) {
      PrefixIds(ts, k, n, d);
    }
    if k < n {
      HopefulIff(shorter, k);
      assert ts[k].id != last.id;
    }
  }

  lemma PrefixIds(ts: seq<Task>, k: nat, n: nat, d: TaskId)
    requires k <= n <= |ts| && d in Ids(ts[..k])
    ensures d in Ids(ts[..n])
  {
    var i := IndexOf(ts[..k], d);
    assert ts[..n][i] == ts[..k][i];
  }

  lemma SucceededAreHopeful(ts: seq<Task>)
    requires UniqueIds(ts) && DependsOnEarlier(ts)
    ensures SucceededIds(ts) <= Hopeful(ts)
  {
    forall d | d in SucceededIds(ts) ensures d in Hopeful(ts) {
      var k :| 0 <= k < |ts| && ts[k].status.Succeeded? && ts[k].id == d;
      HopefulIff(ts, k);
    }
  }

  /** Wherever `x` may succeed `y` may too, given more hope. */
  ghost predicate NoMoreThan(x: Task, y: Task) {
    && x.id == y.id && x.dependencies == y.dependencies
    && (x.status.Succeeded? ==> y.status.Succeeded?)
    && (CanBegin(x) ==> CanBegin(y) || y.status.Succeeded?)
  }

  /** Task by task `a` hopes for no more than `b`, apart from tasks that cannot in `a` or can anyway in `b`. */
  lemma {:induction false} HopeIsMonotone(a: seq<Task>, b: seq<Task>)
    requires |a| == |b|
    requires forall k {:trigger NoMoreThan(a[k], b[k])} :: 0 <= k < |a| ==>
               a[k].id == b[k].id
               && (NoMoreThan(a[k], b[k]) || !MaySucceed(a[k], Hopeful(a[..k])) || MaySucceed(b[k], Hopeful(b[..k])))
    ensures Hopeful(a) <= Hopeful(b)
  {
    if a != [] {
      var n := |a| - 1;
      forall k | 0 <= k < n
        ensures a[..n][k].id == b[..n][k].id
        ensures NoMoreThan(a[..n][k], b[..n][k]) || !MaySucceed(a[..n][k], Hopeful(a[..n][..k]))
                || MaySucceed(b[..n][k], Hopeful(b[..n][..k]))
      {
        assert a[..n][..k] == a[..k] && b[..n][..k] == b[..k];
        assert NoMoreThan(a[k], b[k]) || !MaySucceed(a[k], Hopeful(a[..k])) || MaySucceed(b[k], Hopeful(b[..k]));
      }
      HopeIsMonotone(a[..n], b[..n]);
      assert NoMoreThan(a[n], b[n]) || !MaySucceed(a[n], Hopeful(a[..n])) || MaySucceed(b[n], Hopeful(b[..n]));
    }
  }

  /** What may succeed within the hope of its prefix may succeed within all hope. */
  lemma {:induction false} PrefixHope(ts: seq<Task>, n: nat)
    requires n <= |ts|
    ensures Hopeful(ts[..n]) <= Hopeful(ts)
  {
    if n < |ts| {
      PrefixHope(ts[..|ts| - 1], n);
      assert ts[..|ts| - 1][..n] == ts[..n];
    } else {
      assert ts[..n] == ts;
    }
  }

  lemma HopelessInPrefix(ts: seq<Task>, k: nat)
    requires UniqueIds(ts) && DependsOnEarlier(ts) && k < |ts| && ts[k].id !in Hopeful(ts)
    ensures !MaySucceed(ts[k], Hopeful(ts[..k]))
  {
    PrefixHope(ts, k);
    HopefulIff(ts, k);
  }

  lemma {:induction false} ChainIsHopeless(ts: seq<Task>, chain: seq<Task>)
    requires UniqueIds(ts) && DependsOnEarlier(ts) && FailureChain(ts, chain)
    ensures chain[0].id !in Hopeful(ts) && !DependsWithin(chain[0], Hopeful(ts))
    decreases |chain|
  {
    var i :| 0 <= i < |ts| && ts[i] == chain[0];
    var j :| 0 <= j < |ts| && ts[j] == chain[1];
    HopefulIff(ts, i);
    HopefulIff(ts, j);
    if |chain| > 2 {
      var rest := chain[1..];
      assert forall k :: 0 <= k < |rest| ==> rest[k] == chain[k + 1];
      ChainIsHopeless(ts, rest);
    }
  }

  /** What a failure dooms is hopeless, and waits for something hopeless. */
  lemma DoomedIsHopeless(ts: seq<Task>, t: Task)
    requires UniqueIds(ts) && DependsOnEarlier(ts) && Doomed(ts, t)
    ensures t.id !in Hopeful(ts) && !DependsWithin(t, Hopeful(ts))
  {
    var chain :| FailureChain(ts, chain) && chain[0] == t;
    ChainIsHopeless(ts, chain);
  }

  lemma PropagationKeepsHope(ts: seq<Task>)
    requires UniqueIds(ts) && DependsOnEarlier(ts)
    ensures Hopeful(Propagated(ts)) == Hopeful(ts)
  {
    var after := Propagated(ts);
    forall k | 0 <= k < |ts|
      ensures NoMoreThan(after[k], ts[k])
      ensures NoMoreThan(ts[k], after[k]) || !MaySucceed(ts[k], Hopeful(ts[..k]))
    {
      if Doomed(ts, ts[k]) {
        DoomedIsUnsettled(ts, ts[k]);
        DoomedIsHopeless(ts, ts[k]);
        HopelessInPrefix(ts, k);
      }
    }
    HopeIsMonotone(ts, after);
    HopeIsMonotone(after, ts);
  }

  // ----- The attempts that can still be taken -----

  function PotentialOf(t: Task, hope: set<TaskId>): int {
    if t.Unsettled() && t.id in hope then t.maxAttempts - t.attemptCount else 0
  }

  function PotentialIn(ts: seq<Task>, hope: set<TaskId>): int {
    if ts == [] then 0 else PotentialIn(ts[..|ts| - 1], hope) + PotentialOf(ts[|ts| - 1], hope)
  }

  /** The attempts that the tasks which can still succeed have left. */
  ghost function Potential(ts: seq<Task>): int {
    PotentialIn(ts, Hopeful(ts))
  }

  /** Both caps leave one unit more than what has been used and can still be used. */
  ghost predicate HasSlack(b: Budget, s: State) {
    && s.totalAttempts + Potential(s.tasks) < b.maxTotalAttempts
    && s.externalCalls + Potential(s.tasks) < b.maxExternalCalls
  }

  /** The task can come up for execution, but has no attempt left, while the budget would allow one. */
  ghost predicate Refusable(b: Budget, hope: set<TaskId>, t: Task) {
    t.Unsettled() && DependsWithin(t, hope) && t.maxAttempts <= t.attemptCount < b.maxAttemptsPerTask
  }

  ghost predicate NothingRefusable(b: Budget, ts: seq<Task>) {
    forall k {:trigger Refusable(b, Hopeful(ts), ts[k])} :: 0 <= k < |ts| ==> !Refusable(b, Hopeful(ts), ts[k])
  }

  lemma {:induction false} PotentialOfUpdate(ts: seq<Task>, hope: set<TaskId>, i: nat, t: Task)
    requires i < |ts|
    ensures PotentialIn(ts[i := t], hope) == PotentialIn(ts, hope) - PotentialOf(ts[i], hope) + PotentialOf(t, hope)
  {
    var shorter := ts[..|ts| - 1];
    if i < |ts| - 1 {
      assert ts[i := t][..|ts| - 1] == shorter[i := t];
      PotentialOfUpdate(shorter, hope, i, t);
    } else {
      assert ts[i := t][..|ts| - 1] == shorter;
    }
  }

  lemma {:induction false} PotentialIsMonotone(a: seq<Task>, c: set<TaskId>, b: seq<Task>, d: set<TaskId>)
    requires |a| == |b| && forall i :: 0 <= i < |a| ==> PotentialOf(a[i], c) <= PotentialOf(b[i], d)
    ensures PotentialIn(a, c) <= PotentialIn(b, d)
  {
    if a != [] {
      PotentialIsMonotone(a[..|a| - 1], c, b[..|b| - 1], d);
    }
  }

  lemma {:induction false} PotentialIsNatural(b: Budget, ts: seq<Task>, hope: set<TaskId>)
    requires AllFit(b, ts)
    ensures PotentialIn(ts, hope) >= 0
    ensures AllSettled(ts) ==> PotentialIn(ts, hope) == 0
  {
    if ts != [] {
      var shorter, last := ts[..|ts| - 1], ts[|ts| - 1];
      forall i | 0 <= i < |shorter| ensures Fits(b, shorter[i]) {
        assert Fits(b, ts[i]);
      }
      assert Fits(b, last);
      PotentialIsNatural(b, shorter, hope);
    }
  }

  /** Propagating failures changes nothing of what can still happen. */
  lemma PropagationKeepsPotential(b: Budget, s: State)
    requires Good(b, s)
    ensures Good(b, Propagate(s)) && Hopeful(Propagate(s).tasks) == Hopeful(s.tasks)
    ensures Potential(Propagate(s).tasks) == Potential(s.tasks) >= 0
    ensures NothingRefusable(b, Propagate(s).tasks) <==> NothingRefusable(b, s.tasks)
  {
    var ts, after, hope := s.tasks, Propagated(s.tasks), Hopeful(s.tasks);
    PropagationIsQuiet(ts);
    QuietRound(b, s, Propagate(s));
    PlanDependsOnEarlier(ts);
    PropagationKeepsHope(ts);
    PotentialIsNatural(b, ts, hope);
    forall k | 0 <= k < |ts|
      ensures PotentialOf(ts[k], hope) == PotentialOf(after[k], hope)
      ensures Refusable(b, hope, ts[k]) <==> Refusable(b, hope, after[k])
    {
      if Doomed(ts, ts[k]) {
        DoomedIsUnsettled(ts, ts[k]);
        DoomedIsHopeless(ts, ts[k]);
      }
    }
    PotentialIsMonotone(ts, hope, after, hope);
    PotentialIsMonotone(after, hope, ts, hope);
  }

  // ----- What one round uses up -----

  lemma {:induction false} HopefulInPrefix(ts: seq<Task>, k: nat)
    requires UniqueIds(ts) && k < |ts| && ts[k].id in Hopeful(ts)
    ensures MaySucceed(ts[k], Hopeful(ts[..k]))
  {
    var n := |ts| - 1;
    if k < n {
      HopefulInPrefix(ts[..n], k);
      assert ts[..n][..k] == ts[..k];
    } else {
      HopefulAreIds(ts[..n]);
      OutsidePrefix(ts, n, n);
    }
  }

  /** Changing a hopeful task brings no more hope, and takes none if it has succeeded or can begin again. */
  lemma HopeAfterCall(ts: seq<Task>, i: nat, t: Task)
    requires UniqueIds(ts) && i < |ts| && ts[i].id in Hopeful(ts) && ts[i].Unsettled() && t.Shape() == ts[i].Shape()
    ensures Hopeful(ts[i := t]) <= Hopeful(ts)
    ensures t.status.Succeeded? || CanBegin(t) ==> Hopeful(ts[i := t]) == Hopeful(ts)
  {
    var us := ts[i := t];
    ShapeDecidesChoice(ts[i], t, {});
    HopefulInPrefix(ts, i);
    assert us[..i] == ts[..i];
    HopeIsMonotone(us, ts);
    if t.status.Succeeded? || CanBegin(t) {
      HopeIsMonotone(ts, us);
    }
  }

  /** Ending a hopeless task takes no hope. */
  lemma HopeAfterEnd(ts: seq<Task>, i: nat, t: Task)
    requires UniqueIds(ts) && DependsOnEarlier(ts) && i < |ts| && ts[i].id !in Hopeful(ts) && t.Shape() == ts[i].Shape()
    requires !t.status.Succeeded? && !CanBegin(t)
    ensures Hopeful(ts[i := t]) == Hopeful(ts)
  {
    var us := ts[i := t];
    ShapeDecidesChoice(ts[i], t, {});
    HopelessInPrefix(ts, i);
    HopeIsMonotone(us, ts);
    HopeIsMonotone(ts, us);
  }

  lemma NextIsHopeful(b: Budget, s: State, i: nat)
    requires Good(b, s) && IsNext(s.tasks, i)
    ensures s.tasks[i].Unsettled() && DependsWithin(s.tasks[i], Hopeful(s.tasks))
    ensures CanBegin(s.tasks[i]) <==> s.tasks[i].id in Hopeful(s.tasks)
  {
    PlanDependsOnEarlier(s.tasks);
    SucceededAreHopeful(s.tasks);
    HopefulIff(s.tasks, i);
    assert Runnable(s.tasks, s.tasks[i]);
  }

  lemma LessHopeLessPotential(b: Budget, ts: seq<Task>, less: set<TaskId>, hope: set<TaskId>)
    requires AllFit(b, ts) && less <= hope
    ensures PotentialIn(ts, less) <= PotentialIn(ts, hope)
  {
    forall k | 0 <= k < |ts| ensures PotentialOf(ts[k], less) <= PotentialOf(ts[k], hope) {
      assert Fits(b, ts[k]);
    }
    PotentialIsMonotone(ts, less, ts, hope);
  }

  lemma CalledTask(e: Engine, s: State, i: nat)
    requires Good(e.budget, s) && IsNext(s.tasks, i) && CanBegin(s.tasks[i])
    ensures Good(e.budget, Called(e, s, i))
    ensures var t := Called(e, s, i).tasks[i];
            && Called(e, s, i).tasks == s.tasks[i := t] && t.Shape() == s.tasks[i].Shape()
            && t.attemptCount == s.tasks[i].attemptCount + 1 && (t.Unsettled() ==> CanBegin(t))
  {
    CallAdvances(e, s, i);
  }

  /** A call uses one attempt, and brings neither hope nor a refusal. */
  lemma CallUsesOne(e: Engine, s: State, i: nat)
    requires Good(e.budget, s) && IsNext(s.tasks, i) && CanBegin(s.tasks[i])
    ensures var us, hope := Called(e, s, i).tasks, Hopeful(s.tasks);
            && Good(e.budget, Called(e, s, i))
            && Potential(us) <= Potential(s.tasks) - 1
            && (us[i].status.Succeeded? || CanBegin(us[i]) ==>
                  Hopeful(us) == hope
                  && Potential(us) == Potential(s.tasks) - PotentialOf(s.tasks[i], hope) + PotentialOf(us[i], hope))
            && (NothingRefusable(e.budget, s.tasks) ==> NothingRefusable(e.budget, us))
  {
    var ts, us, hope := s.tasks, Called(e, s, i).tasks, Hopeful(s.tasks);
    CalledTask(e, s, i);
    NextIsHopeful(e.budget, s, i);
    SameMaxAttempts(ts[i], us[i]);
    HopeAfterCall(ts, i, us[i]);
    PotentialOfUpdate(ts, hope, i, us[i]);
    LessHopeLessPotential(e.budget, us, Hopeful(us), hope);
    if NothingRefusable(e.budget, ts) {
      forall k | 0 <= k < |us| ensures !Refusable(e.budget, Hopeful(us), us[k]) {
        assert !Refusable(e.budget, hope, ts[k]);
      }
    }
  }

  /** Ending a task without a call uses nothing. */
  lemma EndUsesNothing(e: Engine, s: State, i: nat)
    requires Good(e.budget, s) && IsNext(s.tasks, i) && s.tasks[i].attemptCount >= e.budget.maxAttemptsPerTask
    ensures var us := s.tasks[i := EndWithoutCall(s.tasks[i])];
            && Hopeful(us) == Hopeful(s.tasks) && Potential(us) == Potential(s.tasks)
            && (NothingRefusable(e.budget, s.tasks) ==> NothingRefusable(e.budget, us))
  {
    var ts, t, hope := s.tasks, EndWithoutCall(s.tasks[i]), Hopeful(s.tasks);
    assert Fits(e.budget, ts[i]);
    NextIsHopeful(e.budget, s, i);
    PlanDependsOnEarlier(ts);
    HopeAfterEnd(ts, i, t);
    PotentialOfUpdate(ts, hope, i, t);
    var us := ts[i := t];
    if NothingRefusable(e.budget, ts) {
      forall k | 0 <= k < |us| ensures !Refusable(e.budget, Hopeful(us), us[k]) {
        assert !Refusable(e.budget, hope, ts[k]);
      }
    }
  }

  /** What an uninterrupted round with units of both caps left does: finish, refuse a start, end a task, or call. */
  ghost predicate Plays(e: Engine, s: State, i: int, round: Round) {
    var p := Propagate(s);
    if i == -1 then round.Stop? && round.halt.Finished?
    else
      && IsNext(p.tasks, i)
      && if p.tasks[i].attemptCount >= e.budget.maxAttemptsPerTask
         then round == Next(p.(tasks := p.tasks[i := EndWithoutCall(p.tasks[i])],
                               results := p.results + [Violation(p.tasks[i].id)]))
         else if CanBegin(p.tasks[i]) then round == Next(Called(e, p, i))
         else round.Stop? && round.halt.StartRefused?
  }

  lemma RoundPlays(e: Engine, s: State) returns (i: int)
    requires Good(e.budget, s) && Slack(e.budget, s)
    ensures Plays(e, s, i, PlayRound(e, Go, s))
  {
    var p := Propagate(s);
    PropagationKeepsPotential(e.budget, s);
    i := NextIndex(p.tasks);
    if i != -1 {
      assert IsNext(p.tasks, i);
      SelectedIsOrderly(p, i);
      assert Fits(e.budget, p.tasks[i]);
    }
  }

  // ----- With slack every run finishes -----

  lemma SlackAfterRound(e: Engine, s: State)
    requires Good(e.budget, s) && NothingRefusable(e.budget, s.tasks) && HasSlack(e.budget, s)
    ensures var round := PlayRound(e, Go, s);
            if round.Stop? then round.halt.Finished?
            else NothingRefusable(e.budget, round.state.tasks) && HasSlack(e.budget, round.state)
  {
    PropagationKeepsPotential(e.budget, s);
    var p := Propagate(s);
    var i := RoundPlays(e, s);
    if i != -1 {
      NextIsHopeful(e.budget, p, i);
      assert !Refusable(e.budget, Hopeful(p.tasks), p.tasks[i]);
      if p.tasks[i].attemptCount >= e.budget.maxAttemptsPerTask {
        EndUsesNothing(e, p, i);
      } else {
        CallUsesOne(e, p, i);
      }
    }
  }

  lemma {:induction false} SlackRunFinishes(e: Engine, s: State, round: nat, maxRounds: nat)
    requires Good(e.budget, s) && NothingRefusable(e.budget, s.tasks) && HasSlack(e.budget, s)
    requires round + Work(s.tasks) < maxRounds
    ensures Run(e, Uninterrupted(), s, round, maxRounds).halt.Finished?
    decreases maxRounds - round
  {
    WorkBound(e.budget, s.tasks);
    OneRound(e, Uninterrupted(), s, round, maxRounds);
    SlackAfterRound(e, s);
    if PlayRound(e, Go, s).Next? {
      WorkAfterRound(e, s);
      SlackRunFinishes(e, PlayRound(e, Go, s).state, round + 1, maxRounds);
    }
  }

  /**
   * With slack, and nothing that can be refused, an uninterrupted run finishes by itself, whatever the
   * executor answers.
   */
  lemma SlackFinishes(e: Engine, s: State)
    requires Good(e.budget, s) && NothingRefusable(e.budget, s.tasks) && HasSlack(e.budget, s)
    ensures RunPlan(e, Uninterrupted(), s).halt.Finished?
  {
    WorkBound(e.budget, s.tasks);
    SlackRunFinishes(e, s, 0, MaxRounds(e.budget, |s.tasks|));
  }

  // ----- Without slack an executor can use up a cap -----

  /** Fails retryably until the last attempt of a task, and succeeds then. */
  function Stubborn(): (nat, Task) -> TaskResult {
    (calls, t: Task) =>
      if t.attemptCount < t.maxAttempts then TaskResult(t.id, ResultFailed, [], true, None)
      else TaskResult(t.id, Success, [], false, None)
  }

  /** A call of the stubborn executor uses one attempt, and fails for good only when the attempts cap is reached. */
  lemma StubbornCall(e: Engine, s: State, i: nat)
    requires Good(e.budget, s) && IsNext(s.tasks, i) && CanBegin(s.tasks[i]) && e.execute == Stubborn()
    ensures var t, hope := Called(e, s, i).tasks[i], Hopeful(s.tasks);
            || s.totalAttempts + 1 >= e.budget.maxTotalAttempts
            || ((t.status.Succeeded? || CanBegin(t)) && PotentialOf(t, hope) == PotentialOf(s.tasks[i], hope) - 1)
  {
    CalledTask(e, s, i);
    NextIsHopeful(e.budget, s, i);
    SameMaxAttempts(s.tasks[i], Called(e, s, i).tasks[i]);
    assert Fits(e.budget, s.tasks[i]);
  }

  lemma StubbornRound(e: Engine, s: State)
    requires Good(e.budget, s) && NoneRunning(s.tasks) && NothingRefusable(e.budget, s.tasks) && !HasSlack(e.budget, s)
    requires e.execute == Stubborn() && Slack(e.budget, s)
    ensures var round := PlayRound(e, Go, s);
            round.Next? && NothingRefusable(e.budget, round.state.tasks) && !HasSlack(e.budget, round.state)
  {
    PropagationKeepsPotential(e.budget, s);
    var p := Propagate(s);
    var i := RoundPlays(e, s);
    if i == -1 {
      RoundFinish(e, Go, s);
      PotentialIsNatural(e.budget, p.tasks, Hopeful(p.tasks));
    } else {
      NextIsHopeful(e.budget, p, i);
      assert !Refusable(e.budget, Hopeful(p.tasks), p.tasks[i]);
      if p.tasks[i].attemptCount >= e.budget.maxAttemptsPerTask {
        EndUsesNothing(e, p, i);
      } else {
        CallUsesOne(e, p, i);
        StubbornCall(e, p, i);
        PotentialIsNatural(e.budget, Called(e, p, i).tasks, Hopeful(Called(e, p, i).tasks));
      }
    }
  }

  lemma {:induction false} StubbornRunExhausts(e: Engine, s: State, round: nat, maxRounds: nat)
    requires Good(e.budget, s) && NoneRunning(s.tasks) && NothingRefusable(e.budget, s.tasks) && !HasSlack(e.budget, s)
    requires e.execute == Stubborn() && round + Work(s.tasks) < maxRounds
    ensures Exhausted(Run(e, Uninterrupted(), s, round, maxRounds).halt)
    decreases maxRounds - round
  {
    WorkBound(e.budget, s.tasks);
    OneRound(e, Uninterrupted(), s, round, maxRounds);
    if Slack(e.budget, s) {
      StubbornRound(e, s);
      WorkAfterRound(e, s);
      RoundKeepsNoneRunning(e, Go, s);
      StubbornRunExhausts(e, PlayRound(e, Go, s).state, round + 1, maxRounds);
    }
  }

  // ----- A task without an attempt left keeps a run from finishing -----

  function Willing(): (nat, Task) -> TaskResult {
    (calls, t: Task) => TaskResult(t.id, Success, [], false, None)
  }

  /** When every call succeeds, a refusable task stays refusable until its start is refused. */
  lemma RefusableRound(e: Engine, s: State, k: nat)
    requires Good(e.budget, s) && NoneRunning(s.tasks) && k < |s.tasks|
    requires e.execute == Willing() && Refusable(e.budget, Hopeful(s.tasks), s.tasks[k])
    ensures var round := PlayRound(e, Go, s);
            if round.Stop? then !round.halt.Finished?
            else k < |round.state.tasks| && Refusable(e.budget, Hopeful(round.state.tasks), round.state.tasks[k])
  {
    if Slack(e.budget, s) {
      PropagationKeepsPotential(e.budget, s);
      var p := Propagate(s);
      var i := RoundPlays(e, s);
      RefusableIsNotDoomed(e.budget, s, k);
      if i == -1 {
        RoundFinish(e, Go, s);
      } else {
        NextIsHopeful(e.budget, p, i);
        if p.tasks[i].attemptCount >= e.budget.maxAttemptsPerTask {
          EndUsesNothing(e, p, i);
        } else if CanBegin(p.tasks[i]) {
          CallUsesOne(e, p, i);
          WillingSucceeds(e, p, i);
        }
      }
    }
  }

  lemma WillingSucceeds(e: Engine, s: State, i: nat)
    requires i < |s.tasks| && e.execute == Willing()
    ensures Called(e, s, i).tasks[i].status.Succeeded?
  {
  }

  lemma RefusableIsNotDoomed(b: Budget, s: State, k: nat)
    requires Good(b, s) && k < |s.tasks| && Refusable(b, Hopeful(s.tasks), s.tasks[k])
    ensures Propagated(s.tasks)[k] == s.tasks[k]
  {
    PlanDependsOnEarlier(s.tasks);
    if Doomed(s.tasks, s.tasks[k]) {
      DoomedIsHopeless(s.tasks, s.tasks[k]);
    }
  }

  lemma {:induction false} RefusableRunDoesNotFinish(e: Engine, s: State, k: nat, round: nat, maxRounds: nat)
    requires Good(e.budget, s) && NoneRunning(s.tasks) && k < |s.tasks|
    requires e.execute == Willing() && Refusable(e.budget, Hopeful(s.tasks), s.tasks[k])
    ensures !Run(e, Uninterrupted(), s, round, maxRounds).halt.Finished?
    decreases maxRounds - round
  {
    if round < maxRounds {
      OneRound(e, Uninterrupted(), s, round, maxRounds);
      RefusableRound(e, s, k);
      if PlayRound(e, Go, s).Next? {
        WorkAfterRound(e, s);
        RoundKeepsNoneRunning(e, Go, s);
        RefusableRunDoesNotFinish(e, PlayRound(e, Go, s).state, k, round + 1, maxRounds);
      }
    }
  }

  // ----- The exact condition -----

  /**
   * An uninterrupted run finishes by itself for every executor if and only if no task can come up
   * without an attempt left that the budget would allow, and both caps exceed what has been used
   * together with the attempts left to the tasks that can still succeed. Without the slack the stubborn
   * executor uses up a cap; with a refusable task the willing one does not finish.
   */
  lemma FinishesForEveryExecutorIff(b: Budget, company: Company, s: State)
    requires Good(b, s) && NoneRunning(s.tasks)
    ensures NothingRefusable(b, s.tasks) && HasSlack(b, s) <==>
              forall execute: (nat, Task) -> TaskResult ::
                RunPlan(Engine(b, company, execute), Uninterrupted(), s).halt.Finished?
    ensures NothingRefusable(b, s.tasks) && !HasSlack(b, s) ==>
              Exhausted(RunPlan(Engine(b, company, Stubborn()), Uninterrupted(), s).halt)
  {
    var max := MaxRounds(b, |s.tasks|);
    WorkBound(b, s.tasks);
    if !NothingRefusable(b, s.tasks) {
      var k :| 0 <= k < |s.tasks| && Refusable(b, Hopeful(s.tasks), s.tasks[k]);
      RefusableRunDoesNotFinish(Engine(b, company, Willing()), s, k, 0, max);
      assert !RunPlan(Engine(b, company, Willing()), Uninterrupted(), s).halt.Finished?;
    } else if HasSlack(b, s) {
      forall execute: (nat, Task) -> TaskResult
        ensures RunPlan(Engine(b, company, execute), Uninterrupted(), s).halt.Finished?
      {
        SlackFinishes(Engine(b, company, execute), s);
      }
    } else {
      StubbornRunExhausts(Engine(b, company, Stubborn()), s, 0, max);
      assert !RunPlan(Engine(b, company, Stubborn()), Uninterrupted(), s).halt.Finished?;
    }
  }

  // ----- Fresh plans -----

  lemma {:induction false} AllHopeful(ts: seq<Task>)
    requires UniqueIds(ts) && DependsOnEarlier(ts)
    requires forall k :: 0 <= k < |ts| ==> CanBegin(ts[k])
    ensures Hopeful(ts) == Ids(ts)
  {
    HopefulAreIds(ts);
    if ts != [] {
      var n := |ts| - 1;
      EarlierInPrefix(ts, n);
      AllHopeful(ts[..n]);
      assert DependsWithin(ts[n], Ids(ts[..n]));
      forall x | x in Ids(ts) ensures x in Hopeful(ts) {
        var i := IndexOf(ts, x);
        assert i < n ==> ts[..n][i].id == x;
      }
    }
  }

  lemma {:induction false} FreshPotential(ts: seq<Task>, hope: set<TaskId>)
    requires forall i :: 0 <= i < |ts| ==> ts[i].status.Pending? && ts[i].attemptCount == 0 && ts[i].id in hope
    ensures PotentialIn(ts, hope) == SumMaxAttempts(ts)
  {
    if ts != [] {
      FreshPotential(ts[..|ts| - 1], hope);
    }
  }

  /** For a fresh plan the slack is a comparison of the caps with the sum of the tasks' maximum attempts. */
  lemma FreshSlackIff(b: Budget, plan: seq<Task>)
    requires FreshPlan(plan) && Accepts(b, plan)
    ensures var s := StartState(plan, 0, 0, [], [], []);
            && Good(b, s) && NoneRunning(s.tasks) && NothingRefusable(b, s.tasks)
            && (HasSlack(b, s)
                <==> SumMaxAttempts(plan) < b.maxTotalAttempts && SumMaxAttempts(plan) < b.maxExternalCalls)
  {
    StartIsGood(b, plan, 0, 0, [], [], []);
    PlanDependsOnEarlier(plan);
    AllHopeful(plan);
    FreshPotential(plan, Ids(plan));
  }
}
