/**
 * Dynamic scheduling refines the static order: a run that starts with no task able to overtake an
 * earlier one calls its tasks in plan order, repeating a task only immediately, and a natural finish has
 * called exactly the unsettled tasks that had an attempt left and whose dependencies all succeeded.
 */
module StaticOrder {
  import opened ResearchTasks
  import opened TaskGraph
  import opened TopologicalOrder
  import opened Scheduling
  import opened ExecutionBudgets
  import opened TaskResults
  import opened PlanExecution
  import opened RunSafety
  import opened RunProgress

  // ----- Traces and plan order -----

  ghost function TraceIds(calls: seq<Call>): seq<TaskId> {
    if calls == [] then [] else TraceIds(calls[..|calls| - 1]) + [calls[|calls| - 1].task.id]
  }

  /** Merges adjacent repetitions. */
  ghost function Collapse(ids: seq<TaskId>): seq<TaskId> {
    if ids == [] then []
    else
      var before, last := Collapse(ids[..|ids| - 1]), ids[|ids| - 1];
      if before != [] && before[|before| - 1] == last then before else before + [last]
  }

  /** The identities of the tasks that have been called, in plan order. */
  ghost function CalledIds(ts: seq<Task>, calls: seq<Call>): seq<TaskId> {
    if ts == [] then []
    else
      var last := ts[|ts| - 1];
      CalledIds(ts[..|ts| - 1], calls) + (if CallsTo(last.id, calls) > 0 then [last.id] else [])
  }

  predicate CanBegin(t: Task) {
    t.Unsettled() && t.attemptCount < t.maxAttempts
  }

  /**
   * Of the first `n` tasks of the plan, the unsettled ones with an attempt left whose dependencies
   * have succeeded in `ts`.
   */
  ghost function UnlockedIds(plan: seq<Task>, ts: seq<Task>, n: nat): seq<TaskId>
    requires n <= |plan| == |ts|
  {
    if n == 0 then []
    else
      UnlockedIds(plan, ts, n - 1) +
      (if CanBegin(plan[n - 1]) && DependsWithin(ts[n - 1], SucceededIds(ts)) then [plan[n - 1].id] else [])
  }

  /**
   * Task `j` can run before the earlier task `f`: it comes first in key order, and waits only for tasks
   * that have succeeded or come before `f`.
   */
  ghost predicate Overtakes(ts: seq<Task>, f: int, j: int) {
    && 0 <= f < j < |ts| && ts[f].Unsettled() && ts[j].Unsettled()
    && !KeyOrder(ts[f], ts[j])
    && DependsWithin(ts[j], SucceededIds(ts) + Ids(ts[..f]))
  }

  ghost predicate NoOvertaking(ts: seq<Task>) {
    forall f, j {:trigger Overtakes(ts, f, j)} :: !Overtakes(ts, f, j)
  }

  ghost predicate Uncalled(t: Task, calls: seq<Call>) {
    CallsTo(t.id, calls) == 0
  }

  /** Behind the first unsettled task nothing has been called. */
  ghost predicate Frontier(ts: seq<Task>, calls: seq<Call>) {
    forall i, j {:trigger ts[i].Unsettled(), Uncalled(ts[j], calls)} ::
      0 <= i < j < |ts| && ts[i].Unsettled() ==> Uncalled(ts[j], calls)
  }

  /** The invariant of a run that has made `calls`. */
  ghost predicate InOrder(b: Budget, s: State, calls: seq<Call>) {
    && Good(b, s)
    && NoneRunning(s.tasks)
    && Frontier(s.tasks, calls) && NoOvertaking(Propagated(s.tasks))
    && Collapse(TraceIds(calls)) == CalledIds(s.tasks, calls)
  }

  ghost predicate AllPending(plan: seq<Task>) {
    forall i :: 0 <= i < |plan| ==> plan[i].status.Pending?
  }

  // ----- The next task is the first unsettled one -----

  lemma OutsidePrefix(ts: seq<Task>, f: nat, j: nat)
    requires UniqueIds(ts) && f <= j < |ts|
    ensures ts[j].id !in Ids(ts[..f])
  {
    forall k | 0 <= k < f ensures ts[..f][k].id != ts[j].id {
      assert ts[..f][k] == ts[k] && ts[k].id != ts[j].id;
    }
  }

  /** The dynamic choice is the first unsettled task of the plan, unless a failure dooms it or a task overtakes it. */
  lemma FirstUnsettledIsNext(ts: seq<Task>, f: nat)
    requires ValidPlan(ts) && NoneRunning(ts) && NoOvertaking(ts) && f < |ts| && ts[f].Unsettled()
    requires forall j :: 0 <= j < f ==> !ts[j].Unsettled()
    requires !Doomed(ts, ts[f])
    ensures IsNext(ts, f) && NextIndex(ts) == f
  {
    FirstUnsettledIsRunnable(ts, f);
    forall j | 0 <= j < |ts| && Runnable(ts, ts[j]) ensures KeyOrder(ts[f], ts[j]) {
      assert !Overtakes(ts, f, j);
    }
    NextIsUnique(ts, f);
  }

  /** Settling tasks without success lets nothing overtake. */
  lemma QuietKeepsNoOvertaking(a: seq<Task>, b: seq<Task>)
    requires QuietChanges(a, b) && NoOvertaking(a)
    ensures NoOvertaking(b)
  {
    SameSucceeded(a, b);
    forall f, j | Overtakes(b, f, j) ensures Overtakes(a, f, j) {
      assert QuietChange(a[f], b[f]) && QuietChange(a[j], b[j]);
      ShapeDecidesChoice(a[j], b[j], SucceededIds(a) + Ids(a[..f]));
      SameMaxAttempts(a[j], b[j]);
      SameMaxAttempts(a[f], b[f]);
      SamePrefixIds(a, b, f);
    }
  }

  lemma InPrefix(ts: seq<Task>, n: nat, k: nat)
    requires n <= |ts| && k < |ts|
    ensures k < n ==> ts[k].id in Ids(ts[..n])
  {
    if k < n {
      assert ts[..n][k] == ts[k];
    }
  }

  lemma SamePrefixIds(a: seq<Task>, b: seq<Task>, n: nat)
    requires QuietChanges(a, b) && n <= |a|
    ensures Ids(a[..n]) == Ids(b[..n])
  {
    forall i | 0 <= i < n ensures a[..n][i].id == b[..n][i].id {
      assert QuietChange(a[i], b[i]);
      SameMaxAttempts(a[i], b[i]);
    }
  }

  /** What can overtake after a change of the first unsettled task could overtake before it. */
  lemma OvertakesBefore(ts: seq<Task>, f: nat, t: Task, a: int, b: int)
    requires f < |ts| && ts[f].Unsettled() && t.Shape() == ts[f].Shape()
    requires forall j :: 0 <= j < f ==> !ts[j].Unsettled()
    requires Overtakes(ts[f := t], a, b)
    ensures Overtakes(ts, a, b)
  {
    var us := ts[f := t];
    SameMaxAttempts(ts[f], t);
    ShapeDecidesChoice(ts[f], t, {});
    assert us[a].Unsettled() && a >= f && us[b] == ts[b];
    assert Ids(us[..a]) == Ids(ts[..a]) by {
      assert forall i :: 0 <= i < a ==> us[..a][i].id == ts[..a][i].id;
    }
    forall d | d in ts[b].dependencies ensures d in SucceededIds(ts) + Ids(ts[..a]) {
      assert d in SucceededIds(us) + Ids(us[..a]);
      if d !in Ids(us[..a]) {
        var k :| 0 <= k < |us| && us[k].status.Succeeded? && us[k].id == d;
        InPrefix(us, a, k);
        assert k != f;
      }
    }
  }

  lemma ChangeKeepsNoOvertaking(ts: seq<Task>, f: nat, t: Task)
    requires NoOvertaking(ts) && f < |ts| && ts[f].Unsettled() && t.Shape() == ts[f].Shape()
    requires forall j :: 0 <= j < f ==> !ts[j].Unsettled()
    ensures NoOvertaking(ts[f := t])
  {
    var us := ts[f := t];
    forall a: int, b: int ensures !Overtakes(us, a, b) {
      if Overtakes(us, a, b) {
        OvertakesBefore(ts, f, t, a, b);
      }
    }
  }

  lemma {:induction false} SameCalledIds(a: seq<Task>, b: seq<Task>, calls: seq<Call>)
    requires |a| == |b| && forall i :: 0 <= i < |a| ==> a[i].id == b[i].id
    ensures CalledIds(a, calls) == CalledIds(b, calls)
  {
    if a != [] {
      SameCalledIds(a[..|a| - 1], b[..|b| - 1], calls);
    }
  }

  lemma QuietKeepsCalledIds(a: seq<Task>, b: seq<Task>, calls: seq<Call>)
    requires QuietChanges(a, b)
    ensures CalledIds(a, calls) == CalledIds(b, calls)
  {
    forall i | 0 <= i < |a| ensures a[i].id == b[i].id {
      assert QuietChange(a[i], b[i]);
      SameMaxAttempts(a[i], b[i]);
    }
    SameCalledIds(a, b, calls);
  }

  lemma QuietKeepsFrontier(a: seq<Task>, b: seq<Task>, calls: seq<Call>)
    requires QuietChanges(a, b) && Frontier(a, calls)
    ensures Frontier(b, calls)
  {
    forall i, j | 0 <= i < j < |b| && b[i].Unsettled() ensures Uncalled(b[j], calls) {
      assert QuietChange(a[i], b[i]) && QuietChange(a[j], b[j]);
      assert a[i].Unsettled() && Uncalled(a[j], calls);
      SameMaxAttempts(a[j], b[j]);
    }
  }

  lemma PropagateKeepsOrder(b: Budget, s: State, calls: seq<Call>)
    requires InOrder(b, s, calls)
    ensures InOrder(b, Propagate(s), calls) && Propagated(Propagate(s).tasks) == Propagate(s).tasks
  {
    PropagationIsIdempotent(s.tasks);
    var p := Propagate(s);
    PropagationIsQuiet(s.tasks);
    QuietRound(b, s, p);
    QuietKeepsFrontier(s.tasks, p.tasks, calls);
    QuietKeepsCalledIds(s.tasks, p.tasks, calls);
  }

  /** After propagation the selected task is the first unsettled one of the plan. */
  lemma NextAfterPropagation(b: Budget, s: State, calls: seq<Call>) returns (f: int)
    requires InOrder(b, s, calls)
    ensures f == NextIndex(Propagate(s).tasks)
    ensures f == -1 || IsNext(Propagate(s).tasks, f)
    ensures f >= 0 ==> forall j :: 0 <= j < f ==> !Propagate(s).tasks[j].Unsettled()
  {
    var ts := Propagate(s).tasks;
    PropagateKeepsOrder(b, s, calls);
    f := NextIndex(ts);
    if f != -1 {
      assert IsNext(ts, f);
      assert Runnable(ts, ts[f]);
      var first := FirstUnsettled(ts, f);
      NothingDoomedAfterwards(s.tasks, ts[first]);
      FirstUnsettledIsNext(ts, first);
    }
  }

  // ----- A call keeps the order -----

  lemma {:induction false} UncalledTail(ts: seq<Task>, calls: seq<Call>, n: nat)
    requires n <= |ts| && forall k :: n <= k < |ts| ==> CallsTo(ts[k].id, calls) == 0
    ensures CalledIds(ts, calls) == CalledIds(ts[..n], calls)
  {
    if n == |ts| {
      assert ts[..n] == ts;
    } else {
      var shorter := ts[..|ts| - 1];
      UncalledTail(shorter, calls, n);
      assert shorter[..n] == ts[..n];
    }
  }

  lemma {:induction false} CalledIdsAreIds(ts: seq<Task>, calls: seq<Call>, id: TaskId)
    requires id in CalledIds(ts, calls)
    ensures id in Ids(ts)
  {
    var shorter := ts[..|ts| - 1];
    if id in CalledIds(shorter, calls) {
      CalledIdsAreIds(shorter, calls, id);
      var k := IndexOf(shorter, id);
      assert ts[k] == shorter[k];
    } else {
      assert ts[|ts| - 1].id == id;
    }
  }

  lemma OneMoreCall(id: TaskId, calls: seq<Call>, last: Call)
    ensures CallsTo(id, calls + [last]) == CallsTo(id, calls) + (if last.task.id == id then 1 else 0)
  {
    assert (calls + [last])[..|calls|] == calls;
  }

  lemma {:induction false} OtherCallsUnchanged(ts: seq<Task>, calls: seq<Call>, last: Call)
    requires forall k :: 0 <= k < |ts| ==> ts[k].id != last.task.id
    ensures CalledIds(ts, calls + [last]) == CalledIds(ts, calls)
  {
    if ts != [] {
      OtherCallsUnchanged(ts[..|ts| - 1], calls, last);
      OneMoreCall(ts[|ts| - 1].id, calls, last);
    }
  }

  lemma CallExtendsCalled(ts: seq<Task>, f: nat, calls: seq<Call>, last: Call)
    requires UniqueIds(ts) && f < |ts| && last.task.id == ts[f].id
    requires forall k :: f < k < |ts| ==> CallsTo(ts[k].id, calls) == 0
    ensures var before := CalledIds(ts, calls);
            CalledIds(ts, calls + [last]) ==
              if before != [] && before[|before| - 1] == last.task.id then before else before + [last.task.id]
  {
    var upTo, head := ts[..f + 1], ts[..f];
    forall k | f < k < |ts| ensures CallsTo(ts[k].id, calls + [last]) == 0 {
      OneMoreCall(ts[k].id, calls, last);
      assert ts[k].id != ts[f].id;
    }
    UncalledTail(ts, calls, f + 1);
    UncalledTail(ts, calls + [last], f + 1);
    assert upTo[..f] == head;
    OtherCallsUnchanged(head, calls, last);
    OneMoreCall(ts[f].id, calls, last);
    if CallsTo(ts[f].id, calls) == 0 {
      OutsidePrefix(ts, f, f);
      forall x | x in CalledIds(head, calls) ensures x in Ids(head) {
        CalledIdsAreIds(head, calls, x);
      }
    }
  }

  lemma TraceGrows(calls: seq<Call>, last: Call)
    ensures TraceIds(calls + [last]) == TraceIds(calls) + [last.task.id]
    ensures Collapse(TraceIds(calls + [last])) ==
              var before := Collapse(TraceIds(calls));
              if before != [] && before[|before| - 1] == last.task.id then before else before + [last.task.id]
  {
    assert (calls + [last])[..|calls + [last]| - 1] == calls;
    var ids := TraceIds(calls) + [last.task.id];
    assert ids[..|ids| - 1] == TraceIds(calls);
  }

  /** Behind the first unsettled task, settling it or calling it once more leaves everything untouched. */
  lemma ChangeKeepsFrontier(ts: seq<Task>, calls: seq<Call>, f: nat, t: Task, more: seq<Call>)
    requires UniqueIds(ts) && Frontier(ts, calls) && f < |ts| && ts[f].Unsettled() && t.id == ts[f].id
    requires forall j :: 0 <= j < f ==> !ts[j].Unsettled()
    requires more == [] || (|more| == 1 && more[0].task.id == t.id)
    ensures Frontier(ts[f := t], calls + more)
    ensures forall k :: f < k < |ts| ==> CallsTo(ts[k].id, calls) == 0
  {
    var us := ts[f := t];
    assert calls + [] == calls;
    forall i, j | 0 <= i < j < |us| && us[i].Unsettled() ensures Uncalled(us[j], calls + more) {
      assert f <= i && Uncalled(ts[j], calls);
      if more != [] {
        assert more == [more[0]];
        OneMoreCall(ts[j].id, calls, more[0]);
        assert ts[j].id != ts[f].id;
      }
    }
    forall k | f < k < |ts| ensures CallsTo(ts[k].id, calls) == 0 {
      assert Uncalled(ts[k], calls);
    }
  }

  lemma ChangeLeavesInStep(ts: seq<Task>, f: nat, t: Task)
    requires NoOvertaking(ts) && f < |ts| && ts[f].Unsettled() && t.Shape() == ts[f].Shape()
    requires forall j :: 0 <= j < f ==> !ts[j].Unsettled()
    ensures NoOvertaking(Propagated(ts[f := t]))
  {
    ChangeKeepsNoOvertaking(ts, f, t);
    PropagationIsQuiet(ts[f := t]);
    QuietKeepsNoOvertaking(ts[f := t], Propagated(ts[f := t]));
  }

  lemma CallKeepsOrder(e: Engine, s: State, calls: seq<Call>, f: nat) returns (more: seq<Call>)
    requires InOrder(e.budget, s, calls) && Propagated(s.tasks) == s.tasks && IsNext(s.tasks, f)
    requires forall j :: 0 <= j < f ==> !s.tasks[j].Unsettled()
    requires s.tasks[f].attemptCount < s.tasks[f].maxAttempts
    ensures Called(e, s, f).trace == s.trace + more && |more| == 1 && more[0].task.id == s.tasks[f].id
    ensures InOrder(e.budget, Called(e, s, f), calls + more)
  {
    var s' := Called(e, s, f);
    more := [Call(Started(s.tasks[f]), CallResult(e, |s.trace|, Started(s.tasks[f])))];
    CallKeepsGood(e, s, f);
    assert Runnable(s.tasks, s.tasks[f]);
    CallKeepsTrace(s.tasks, calls, f, s'.tasks[f], more[0]);
    ChangeLeavesInStep(s.tasks, f, s'.tasks[f]);
    assert s'.tasks == s.tasks[f := s'.tasks[f]];
  }

  lemma CallKeepsGood(e: Engine, s: State, f: nat)
    requires Good(e.budget, s) && NoneRunning(s.tasks) && IsNext(s.tasks, f)
    requires s.tasks[f].attemptCount < s.tasks[f].maxAttempts
    ensures Good(e.budget, Called(e, s, f)) && NoneRunning(Called(e, s, f).tasks)
  {
    var us := Called(e, s, f).tasks;
    assert Fits(e.budget, s.tasks[f]) && Runnable(s.tasks, s.tasks[f]);
    SelectedIsOrderly(s, f);
    CallAdvances(e, s, f);
    forall k | 0 <= k < |us| ensures !us[k].status.Running? {}
  }

  lemma CallKeepsTrace(ts: seq<Task>, calls: seq<Call>, f: nat, t: Task, last: Call)
    requires UniqueIds(ts) && Frontier(ts, calls) && f < |ts| && ts[f].Unsettled()
    requires forall j :: 0 <= j < f ==> !ts[j].Unsettled()
    requires t.id == last.task.id == ts[f].id && Collapse(TraceIds(calls)) == CalledIds(ts, calls)
    ensures Frontier(ts[f := t], calls + [last])
    ensures Collapse(TraceIds(calls + [last])) == CalledIds(ts[f := t], calls + [last])
  {
    ChangeKeepsFrontier(ts, calls, f, t, [last]);
    CallExtendsCalled(ts, f, calls, last);
    TraceGrows(calls, last);
    SameCalledIds(ts, ts[f := t], calls + [last]);
  }

  lemma EndKeepsOrder(e: Engine, s: State, calls: seq<Call>, f: nat)
    requires InOrder(e.budget, s, calls) && Propagated(s.tasks) == s.tasks && IsNext(s.tasks, f)
    requires forall j :: 0 <= j < f ==> !s.tasks[j].Unsettled()
    requires s.tasks[f].attemptCount >= e.budget.maxAttemptsPerTask
    ensures InOrder(e.budget, s.(tasks := s.tasks[f := EndWithoutCall(s.tasks[f])],
                                 results := s.results + [Violation(s.tasks[f].id)]), calls)
  {
    var t := s.tasks[f];
    assert Fits(e.budget, t) && Runnable(s.tasks, t);
    var s' := s.(tasks := s.tasks[f := EndWithoutCall(t)], results := s.results + [Violation(t.id)]);
    UpdateIsQuiet(s.tasks, f, EndWithoutCall(t));
    QuietRound(e.budget, s, s');
    ChangeKeepsFrontier(s.tasks, calls, f, EndWithoutCall(t), []);
    ChangeLeavesInStep(s.tasks, f, EndWithoutCall(t));
    assert calls + [] == calls;
    QuietKeepsCalledIds(s.tasks, s'.tasks, calls);
  }

  /** What the round does with the selected task: it stops, ends the task without a call, or calls it. */
  ghost predicate RoundOn(e: Engine, s: State, f: nat, round: Round, more: seq<Call>)
    requires f < |s.tasks|
  {
    || (round.Stop? && more == [])
    || (round.Next? && more == [] && s.tasks[f].attemptCount >= e.budget.maxAttemptsPerTask
        && round.state.tasks == s.tasks[f := EndWithoutCall(s.tasks[f])])
    || (round == Next(Called(e, s, f)) && |more| == 1 && s.tasks[f].attemptCount < s.tasks[f].maxAttempts)
  }

  lemma AttemptKeepsOrder(e: Engine, s: State, calls: seq<Call>, f: nat) returns (more: seq<Call>)
    requires InOrder(e.budget, s, calls) && Propagated(s.tasks) == s.tasks && IsNext(s.tasks, f)
    requires forall j :: 0 <= j < f ==> !s.tasks[j].Unsettled()
    requires s.totalAttempts < e.budget.maxTotalAttempts && s.externalCalls < e.budget.maxExternalCalls
    ensures var round := Attempt(e, s, f);
            && round.state.trace == s.trace + more && RoundOn(e, s, f, round, more)
            && (round.Next? ==> InOrder(e.budget, round.state, calls + more))
            && (round.Stop? ==> round.state.tasks == s.tasks && round.halt.StartRefused?)
  {
    var t := s.tasks[f];
    assert Fits(e.budget, t) && Runnable(s.tasks, t);
    SelectedIsOrderly(s, f);
    more := [];
    assert calls + [] == calls && s.trace + [] == s.trace;
    if t.attemptCount >= e.budget.maxAttemptsPerTask {
      EndKeepsOrder(e, s, calls, f);
    } else if t.attemptCount + 1 <= t.maxAttempts {
      more := CallKeepsOrder(e, s, calls, f);
    }
  }

  lemma SkippedAreInStep(ts: seq<Task>)
    ensures NoOvertaking(Propagated(SkipUnsettled(ts)))
  {
    var skipped := SkipUnsettled(ts);
    PropagationIsQuiet(skipped);
    forall i | 0 <= i < |skipped| ensures !Propagated(skipped)[i].Unsettled() {
      assert QuietChange(skipped[i], Propagated(skipped)[i]);
    }
  }

  /** A round of an ordered run extends the calls in plan order. */
  lemma RoundKeepsOrder(e: Engine, control: Control, s: State, calls: seq<Call>) returns (more: seq<Call>)
    requires InOrder(e.budget, s, calls)
    ensures var round := PlayRound(e, control, s);
            && round.state.trace == s.trace + more
            && Collapse(TraceIds(calls + more)) == CalledIds(round.state.tasks, calls + more)
            && NoOvertaking(Propagated(round.state.tasks))
            && (round.Next? ==>
                  && InOrder(e.budget, round.state, calls + more)
                  && var f := NextIndex(Propagate(s).tasks);
                     IsNext(Propagate(s).tasks, f) && RoundOn(e, Propagate(s), f, round, more))
  {
    var round, p := PlayRound(e, control, s), Propagate(s);
    more := [];
    assert calls + [] == calls && s.trace + [] == s.trace;
    if control.Cancel? {
      SkippingIsQuiet(s.tasks);
      SkippedAreInStep(s.tasks);
      QuietKeepsCalledIds(s.tasks, round.state.tasks, calls);
    } else if control.Go? && s.totalAttempts < e.budget.maxTotalAttempts
      && s.externalCalls < e.budget.maxExternalCalls {
      PropagateKeepsOrder(e.budget, s, calls);
      var f := NextAfterPropagation(e.budget, s, calls);
      if f >= 0 {
        more := AttemptKeepsOrder(e, p, calls, f);
      } else {
        RoundFinish(e, control, s);
      }
    }
  }

  lemma TailsAgree<T>(head: seq<T>, a: seq<T>, b: seq<T>)
    requires head + a == head + b
    ensures a == b
  {
    assert a == (head + a)[|head|..] && b == (head + b)[|head|..];
  }

  lemma Regroup<T>(a: seq<T>, b: seq<T>, c: seq<T>)
    ensures (a + b) + c == a + (b + c)
  {
  }

  /** The outcome adds `more` to the calls of `s`, and all calls so far are in plan order. */
  ghost predicate EndsInOrder(o: Outcome, s: State, calls: seq<Call>, more: seq<Call>) {
    && o.state.trace == s.trace + more
    && Collapse(TraceIds(calls + more)) == CalledIds(o.state.tasks, calls + more)
    && NoOvertaking(Propagated(o.state.tasks))
  }

  lemma {:induction false} RunKeepsOrder(e: Engine, poll: nat -> Control, s: State, calls: seq<Call>, round: nat,
                                         maxRounds: nat)
    returns (more: seq<Call>)
    requires InOrder(e.budget, s, calls)
    ensures EndsInOrder(Run(e, poll, s, round, maxRounds), s, calls, more)
    decreases maxRounds - round
  {
    if round < maxRounds {
      var first := RoundKeepsOrder(e, poll(round + 1), s, calls);
      var played := PlayRound(e, poll(round + 1), s);
      OneRound(e, poll, s, round, maxRounds);
      if played.Next? {
        var rest := RunKeepsOrder(e, poll, played.state, calls + first, round + 1, maxRounds);
        more := first + rest;
        Regroup(calls, first, rest);
        Regroup(s.trace, first, rest);
      } else {
        more := first;
      }
    } else {
      more := [];
      assert calls + [] == calls && s.trace + [] == s.trace;
    }
  }

  lemma {:induction false} NothingCalled(ts: seq<Task>)
    ensures CalledIds(ts, []) == []
  {
    if ts != [] {
      NothingCalled(ts[..|ts| - 1]);
    }
  }

  /** A good state with nothing running, in which no task can overtake another once failures are propagated. */
  ghost predicate InStep(b: Budget, s: State) {
    Good(b, s) && NoneRunning(s.tasks) && NoOvertaking(Propagated(s.tasks))
  }

  lemma InStepIsInOrder(b: Budget, s: State)
    requires InStep(b, s)
    ensures InOrder(b, s, [])
  {
    NothingCalled(s.tasks);
  }

  /**
   * A run, fresh or resumed, that starts in step, with whatever attempt counts, counters, results,
   * warnings and earlier calls: with adjacent repetitions merged, its calls are the plan restricted to
   * the called tasks, so they follow the plan order and retries are immediate.
   */
  lemma CallsFollowPlanOrder(e: Engine, poll: nat -> Control, s: State)
    requires InStep(e.budget, s)
    ensures var calls := NewCalls(s, RunPlan(e, poll, s));
            Collapse(TraceIds(calls)) == CalledIds(s.tasks, calls)
  {
    var o := RunPlan(e, poll, s);
    InStepIsInOrder(e.budget, s);
    var more := RunKeepsOrder(e, poll, s, [], 0, MaxRounds(e.budget, |s.tasks|));
    RunPlanAdvances(e, poll, s);
    assert [] + more == more == NewCalls(s, o);
    forall i | 0 <= i < |s.tasks| ensures s.tasks[i].id == o.state.tasks[i].id {
      assert TaskAdvances(s.tasks[i], o.state.tasks[i], more);
      SameMaxAttempts(s.tasks[i], o.state.tasks[i]);
    }
    SameCalledIds(s.tasks, o.state.tasks, more);
  }

  /** A run that starts in step ends in step, however it ends, so the run that resumes it is in step too. */
  lemma RunStaysInStep(e: Engine, poll: nat -> Control, s: State)
    requires InStep(e.budget, s)
    ensures InStep(e.budget, RunPlan(e, poll, s).state)
  {
    var max := MaxRounds(e.budget, |s.tasks|);
    InStepIsInOrder(e.budget, s);
    var more := RunKeepsOrder(e, poll, s, [], 0, max);
    RunKeepsNoneRunning(e, poll, s, 0, max);
    RunPlanAdvances(e, poll, s);
  }

  // ----- Which tasks a finished run has called -----

  ghost predicate BehindFailure(ts: seq<Task>, t: Task) {
    exists j :: 0 <= j < |ts| && ts[j].Failing() && ts[j].id in t.dependencies
  }

  /**
   * Called tasks were unsettled with an attempt left and have only succeeded dependencies; tasks given
   * up without a call have a failed one, or were settled or out of attempts in the plan.
   */
  ghost predicate Explained(planned: Task, ts: seq<Task>, t: Task, calls: seq<Call>) {
    && (CallsTo(t.id, calls) > 0 ==> CanBegin(planned) && DependsWithin(t, SucceededIds(ts)))
    && (CallsTo(t.id, calls) == 0 && t.Failing() ==> BehindFailure(ts, t) || !CanBegin(planned))
    && (t.status.Succeeded? ==> CallsTo(t.id, calls) > 0 || !CanBegin(planned))
  }

  ghost predicate AllExplained(plan: seq<Task>, ts: seq<Task>, calls: seq<Call>) {
    && |plan| == |ts|
    && forall i {:trigger Explained(plan[i], ts, ts[i], calls)} :: 0 <= i < |ts| ==>
       Explained(plan[i], ts, ts[i], calls)
  }

  lemma ExplainedAfterQuiet(planned: Task, a: seq<Task>, b: seq<Task>, i: nat, calls: seq<Call>)
    requires QuietChanges(a, b) && i < |a| && Explained(planned, a, a[i], calls)
    requires b[i] == a[i] || BehindFailure(b, b[i]) || !CanBegin(planned)
    ensures Explained(planned, b, b[i], calls)
  {
    SameSucceeded(a, b);
    assert QuietChange(a[i], b[i]);
    ShapeDecidesChoice(a[i], b[i], {});
    SameMaxAttempts(a[i], b[i]);
    if b[i] == a[i] && BehindFailure(a, a[i]) {
      var j :| 0 <= j < |a| && a[j].Failing() && a[j].id in a[i].dependencies;
      assert QuietChange(a[j], b[j]);
      assert b[j] == a[j];
    }
  }

  lemma DoomedIsBehindFailure(ts: seq<Task>, t: Task)
    requires Doomed(ts, t)
    ensures BehindFailure(Propagated(ts), t)
  {
    var chain: seq<Task> :| FailureChain(ts, chain) && chain[0] == t;
    assert chain[1] in ts;
    var j :| 0 <= j < |ts| && ts[j] == chain[1];
    if |chain| > 2 {
      var rest := chain[1..];
      assert forall k :: 0 <= k < |rest| ==> rest[k] == chain[k + 1];
      assert FailureChain(ts, rest);
      assert Doomed(ts, ts[j]);
    } else {
      if Doomed(ts, ts[j]) { DoomedIsUnsettled(ts, ts[j]); }
    }
    assert Propagated(ts)[j].Failing() && Propagated(ts)[j].id == chain[1].id;
  }

  lemma PropagationKeepsExplained(plan: seq<Task>, ts: seq<Task>, calls: seq<Call>)
    requires AllExplained(plan, ts, calls)
    ensures AllExplained(plan, Propagated(ts), calls)
  {
    var after := Propagated(ts);
    PropagationIsQuiet(ts);
    forall i | 0 <= i < |ts| ensures Explained(plan[i], after, after[i], calls) {
      assert Explained(plan[i], ts, ts[i], calls);
      if Doomed(ts, ts[i]) {
        DoomedIsBehindFailure(ts, ts[i]);
        assert after[i].dependencies == ts[i].dependencies;
        assert BehindFailure(after, after[i]);
      }
      ExplainedAfterQuiet(plan[i], ts, after, i, calls);
    }
  }

  /** Ending a task whose attempts were used up in the plan, or that has been called. */
  lemma EndKeepsExplained(plan: seq<Task>, ts: seq<Task>, calls: seq<Call>, f: nat)
    requires UniqueIds(ts) && AllExplained(plan, ts, calls) && f < |ts| && ts[f].Unsettled()
    requires CallsTo(ts[f].id, calls) == 0 ==> !CanBegin(plan[f])
    requires ts[f].attemptCount >= ts[f].maxAttempts
    ensures AllExplained(plan, ts[f := EndWithoutCall(ts[f])], calls)
  {
    var us := ts[f := EndWithoutCall(ts[f])];
    UpdateIsQuiet(ts, f, EndWithoutCall(ts[f]));
    forall i | 0 <= i < |us| ensures Explained(plan[i], us, us[i], calls) {
      assert Explained(plan[i], ts, ts[i], calls);
      if i != f || !CanBegin(plan[f]) {
        ExplainedAfterQuiet(plan[i], ts, us, i, calls);
      } else {
        SameSucceeded(ts, us);
      }
    }
  }

  lemma CallKeepsExplained(plan: seq<Task>, e: Engine, s: State, calls: seq<Call>, f: nat, more: seq<Call>)
    requires Good(e.budget, s) && IsNext(s.tasks, f) && AllExplained(plan, s.tasks, calls) && CanBegin(plan[f])
    requires s.tasks[f].attemptCount < s.tasks[f].maxAttempts
    requires |more| == 1 && more[0].task.id == s.tasks[f].id
    ensures AllExplained(plan, Called(e, s, f).tasks, calls + more)
  {
    var us := Called(e, s, f).tasks;
    SelectedIsOrderly(s, f);
    assert Fits(e.budget, s.tasks[f]) && more == [more[0]];
    SucceededAfterUpdate(s.tasks, f, us[f]);
    forall i | 0 <= i < |us| ensures Explained(plan[i], us, us[i], calls + more) {
      assert Explained(plan[i], s.tasks, s.tasks[i], calls);
      OneMoreCall(us[i].id, calls, more[0]);
      if i != f {
        assert s.tasks[i].id != s.tasks[f].id;
        if BehindFailure(s.tasks, s.tasks[i]) {
          var j :| 0 <= j < |s.tasks| && s.tasks[j].Failing() && s.tasks[j].id in s.tasks[i].dependencies;
          assert us[j] == s.tasks[j];
        }
      }
    }
  }

  /** The invariant of the run so far, from the plan it started with. */
  ghost predicate OnCourse(e: Engine, start: State, s: State, calls: seq<Call>) {
    InOrder(e.budget, s, calls) && Advances(start, s, calls) && AllExplained(start.tasks, s.tasks, calls)
  }

  lemma RoundKeepsCourse(e: Engine, control: Control, start: State, s: State, calls: seq<Call>)
    returns (more: seq<Call>)
    requires OnCourse(e, start, s, calls)
    ensures var round := PlayRound(e, control, s);
            && round.state.trace == s.trace + more
            && (round.Next? ==> OnCourse(e, start, round.state, calls + more))
  {
    var round, p := PlayRound(e, control, s), Propagate(s);
    more := RoundKeepsOrder(e, control, s, calls);
    if round.Next? {
      var same := RoundAdvances(e, control, s);
      TailsAgree(s.trace, same, more);
      AdvancesCompose(start, s, round.state, calls, more);
      PropagationKeepsExplained(start.tasks, s.tasks, calls);
      var f := NextIndex(p.tasks);
      assert TaskAdvances(start.tasks[f], s.tasks[f], calls);
      SameMaxAttempts(start.tasks[f], s.tasks[f]);
      PropagateKeepsOrder(e.budget, s, calls);
      assert Fits(e.budget, p.tasks[f]) && Runnable(p.tasks, p.tasks[f]);
      assert p.tasks[f] == s.tasks[f];
      if more == [] {
        assert calls + more == calls;
        EndKeepsExplained(start.tasks, p.tasks, calls, f);
      } else {
        CalledOnce(e, p, f, more);
        CallKeepsExplained(start.tasks, e, p, calls, f, more);
      }
    }
  }

  lemma CalledOnce(e: Engine, s: State, f: nat, more: seq<Call>)
    requires f < |s.tasks| && Called(e, s, f).trace == s.trace + more
    ensures |more| == 1 && more[0].task.id == s.tasks[f].id
  {
    var call := Call(Started(s.tasks[f]), CallResult(e, |s.trace|, Started(s.tasks[f])));
    TailsAgree(s.trace, more, [call]);
  }

  lemma LastRoundIsExplained(e: Engine, control: Control, start: State, s: State, calls: seq<Call>)
    requires OnCourse(e, start, s, calls)
    requires PlayRound(e, control, s).Stop? && PlayRound(e, control, s).halt.Finished?
    ensures PlayRound(e, control, s).state.trace == s.trace
    ensures AllExplained(start.tasks, PlayRound(e, control, s).state.tasks, calls)
  {
    RoundFinish(e, control, s);
    PropagationKeepsExplained(start.tasks, s.tasks, calls);
  }

  /** The outcome adds `more` to the calls of `s`; if the run finished, all its tasks are explained. */
  ghost predicate EndsExplained(o: Outcome, start: State, s: State, calls: seq<Call>, more: seq<Call>) {
    && o.state.trace == s.trace + more
    && (o.halt.Finished? ==> AllExplained(start.tasks, o.state.tasks, calls + more))
  }

  lemma {:induction false} FinishedRunIsExplained(e: Engine, poll: nat -> Control, start: State, s: State,
                                                  calls: seq<Call>,
                                                  round: nat, maxRounds: nat) returns (more: seq<Call>)
    requires OnCourse(e, start, s, calls)
    ensures EndsExplained(Run(e, poll, s, round, maxRounds), start, s, calls, more)
    decreases maxRounds - round
  {
    more := [];
    assert calls + [] == calls && s.trace + [] == s.trace;
    if round < maxRounds {
      OneRound(e, poll, s, round, maxRounds);
      var played := PlayRound(e, poll(round + 1), s);
      if played.Next? || !played.halt.Finished? {
        more := RoundKeepsCourse(e, poll(round + 1), start, s, calls);
      } else {
        LastRoundIsExplained(e, poll(round + 1), start, s, calls);
      }
      if played.Next? {
        var rest := FinishedRunIsExplained(e, poll, start, played.state, calls + more, round + 1, maxRounds);
        Regroup(calls, more, rest);
        Regroup(s.trace, more, rest);
        more := more + rest;
      }
    }
  }

  lemma CalledIffUnlocked(plan: seq<Task>, ts: seq<Task>, calls: seq<Call>, i: nat)
    requires UniqueIds(ts) && AllExplained(plan, ts, calls) && AllSettled(ts) && NoneRunning(ts) && i < |ts|
    ensures CallsTo(ts[i].id, calls) > 0 <==> CanBegin(plan[i]) && DependsWithin(ts[i], SucceededIds(ts))
  {
    assert Explained(plan[i], ts, ts[i], calls);
    if CallsTo(ts[i].id, calls) == 0 && CanBegin(plan[i]) {
      assert !ts[i].Unsettled() && !ts[i].status.Running?;
      var j :| 0 <= j < |ts| && ts[j].Failing() && ts[j].id in ts[i].dependencies;
      var d := ts[j].id;
      forall k | 0 <= k < |ts| && ts[k].status.Succeeded? ensures ts[k].id != d {
        assert k != j;
      }
      assert d in ts[i].dependencies && d !in SucceededIds(ts);
    }
  }

  lemma {:induction false} CalledAreUnlocked(plan: seq<Task>, ts: seq<Task>, calls: seq<Call>, n: nat)
    requires n <= |plan| == |ts| && forall i :: 0 <= i < |ts| ==> plan[i].id == ts[i].id
    requires forall i :: 0 <= i < |ts| ==>
               (CallsTo(ts[i].id, calls) > 0 <==> CanBegin(plan[i]) && DependsWithin(ts[i], SucceededIds(ts)))
    ensures CalledIds(ts[..n], calls) == UnlockedIds(plan, ts, n)
  {
    if n > 0 {
      CalledAreUnlocked(plan, ts, calls, n - 1);
      assert ts[..n][..n - 1] == ts[..n - 1];
    }
  }

  /**
   * On a natural finish of such a run the merged calls are the plan itself, in its own order, without
   * the tasks that were settled or had no attempt left, or have a dependency that did not succeed.
   */
  lemma FinishedRunCalledTheUnlocked(e: Engine, poll: nat -> Control, s: State)
    requires InStep(e.budget, s)
    requires RunPlan(e, poll, s).halt.Finished?
    ensures var o := RunPlan(e, poll, s);
            |o.state.tasks| == |s.tasks|
            && Collapse(TraceIds(NewCalls(s, o))) == UnlockedIds(s.tasks, o.state.tasks, |s.tasks|)
  {
    var max, o := MaxRounds(e.budget, |s.tasks|), RunPlan(e, poll, s);
    InStepIsInOrder(e.budget, s);
    StartIsOnCourse(e, s);
    CallsFollowPlanOrder(e, poll, s);
    var calls := FinishedRunIsExplained(e, poll, s, s, [], 0, max);
    assert [] + calls == calls == NewCalls(s, o);
    FinishedRunIsSettled(e, poll, s, 0, max);
    RunKeepsNoneRunning(e, poll, s, 0, max);
    RunPlanAdvances(e, poll, s);
    var ts := o.state.tasks;
    forall i | 0 <= i < |ts|
      ensures s.tasks[i].id == ts[i].id
      ensures CallsTo(ts[i].id, calls) > 0 <==> CanBegin(s.tasks[i]) && DependsWithin(ts[i], SucceededIds(ts))
    {
      assert TaskAdvances(s.tasks[i], ts[i], calls);
      SameMaxAttempts(s.tasks[i], ts[i]);
      CalledIffUnlocked(s.tasks, ts, calls, i);
    }
    CalledAreUnlocked(s.tasks, ts, calls, |ts|);
    assert ts[..|ts|] == ts;
    SameCalledIds(s.tasks, ts, calls);
  }

  lemma StartIsOnCourse(e: Engine, s: State)
    requires InOrder(e.budget, s, [])
    ensures OnCourse(e, s, s, [])
  {
    NothingChangesQuietly(s.tasks);
    QuietRound(e.budget, s, s);
    forall i | 0 <= i < |s.tasks| ensures Explained(s.tasks[i], s.tasks, s.tasks[i], []) {}
  }

  // ----- Plans in step -----

  /** Nothing has succeeded behind the first unsettled task. */
  ghost predicate NothingAhead(ts: seq<Task>) {
    forall i, j :: 0 <= i < j < |ts| && ts[i].Unsettled() ==> !ts[j].status.Succeeded?
  }

  /** In a plan overtaking takes a task that has succeeded behind an unsettled one. */
  lemma OvertakingNeedsSuccess(ts: seq<Task>, f: nat, j: nat) returns (k: nat)
    requires ValidPlan(ts) && Overtakes(ts, f, j)
    ensures f < k < |ts| && ts[k].status.Succeeded?
  {
    assert GreedyChoice(ts, Ids(ts[..f]), ts[f]);
    OutsidePrefix(ts, f, j);
    assert !Candidate(ts[j], Ids(ts[..f]));
    var d :| d in ts[j].dependencies && d !in Ids(ts[..f]);
    assert d in SucceededIds(ts);
    k :| 0 <= k < |ts| && ts[k].status.Succeeded? && ts[k].id == d;
    InPrefix(ts, f, k);
  }

  lemma NothingAheadNoOvertaking(ts: seq<Task>)
    requires ValidPlan(ts) && NothingAhead(ts)
    ensures NoOvertaking(ts)
  {
    forall f: int, j: int ensures !Overtakes(ts, f, j) {
      if Overtakes(ts, f, j) {
        var k := OvertakingNeedsSuccess(ts, f, j);
      }
    }
  }

  lemma NothingAheadIsInStep(b: Budget, s: State)
    requires Good(b, s) && NoneRunning(s.tasks) && NothingAhead(s.tasks)
    ensures InStep(b, s)
  {
    NothingAheadNoOvertaking(s.tasks);
    PropagationIsQuiet(s.tasks);
    QuietKeepsNoOvertaking(s.tasks, Propagated(s.tasks));
  }

  /** Whatever it is seeded with, a plan of unsettled tasks starts in step. */
  lemma UnsettledIsInStep(b: Budget, s: State)
    requires Good(b, s) && forall i :: 0 <= i < |s.tasks| ==> s.tasks[i].Unsettled()
    ensures InStep(b, s)
  {
    NothingAheadIsInStep(b, s);
  }

  /** A plan none of whose tasks has been attempted. */
  ghost predicate FreshPlan(plan: seq<Task>) {
    && ValidPlan(plan) && AllPending(plan)
    && forall i :: 0 <= i < |plan| ==> Constructible(plan[i]) && plan[i].attemptCount == 0
  }
}
