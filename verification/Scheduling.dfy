/**
 * Failure propagation and the choice of the next task
 * (src/financial_intelligence/domain/orchestration/graph.py).
 */
module Scheduling {
  import opened Outcomes
  import opened ResearchTasks
  import opened TaskSteps
  import opened Sorting
  import opened TaskGraph
  import opened TopologicalOrder
  import opened ResearchPlans

  // ----- Choosing the next task -----

  ghost function SucceededIds(ts: seq<Task>): set<TaskId> {
    set i | 0 <= i < |ts| && ts[i].status.Succeeded? :: ts[i].id
  }

  ghost predicate Runnable(ts: seq<Task>, t: Task) {
    t.Unsettled() && DependsWithin(t, SucceededIds(ts))
  }

  ghost predicate NoneRunnable(ts: seq<Task>) {
    forall i {:trigger Runnable(ts, ts[i])} :: 0 <= i < |ts| ==> !Runnable(ts, ts[i])
  }

  /** Position `i` holds the least runnable task in key order. */
  ghost predicate IsNext(ts: seq<Task>, i: int) {
    && 0 <= i < |ts|
    && Runnable(ts, ts[i])
    && (forall j {:trigger Runnable(ts, ts[j])} :: 0 <= j < |ts| && Runnable(ts, ts[j]) ==> KeyOrder(ts[i], ts[j]))
  }

  /** The position of the task to run next, or -1. */
  ghost function NextIndex(ts: seq<Task>): int {
    if i :| IsNext(ts, i) then i else -1
  }

  lemma NextIsUnique(ts: seq<Task>, i: int)
    requires UniqueIds(ts) && IsNext(ts, i)
    ensures NextIndex(ts) == i
  {
    var n := NextIndex(ts);
    assert IsNext(ts, n);
    assert Runnable(ts, ts[n]) && Runnable(ts, ts[i]);
    assert ts[n].id == ts[i].id;
  }

  method IndexById(ts: seq<Task>) returns (byId: map<TaskId, Task>)
    requires UniqueIds(ts)
    ensures byId.Keys == Ids(ts)
    ensures forall i :: 0 <= i < |ts| ==> byId[ts[i].id] == ts[i]
  {
    byId := map[];
    for i := 0 to |ts|
      invariant byId.Keys == Ids(ts[..i])
      invariant forall j :: 0 <= j < i ==> ts[j].id in byId && byId[ts[j].id] == ts[j]
    {
      PrefixGrows(ts, i);
      byId := byId[ts[i].id := ts[i]];
    }
    assert ts[..|ts|] == ts;
  }

  method DependenciesSucceeded(ts: seq<Task>, byId: map<TaskId, Task>, t: Task) returns (ok: bool)
    requires UniqueIds(ts) && DependsWithin(t, Ids(ts)) && byId.Keys == Ids(ts)
    requires forall i :: 0 <= i < |ts| ==> byId[ts[i].id] == ts[i]
    ensures ok <==> DependsWithin(t, SucceededIds(ts))
  {
    for k := 0 to |t.dependencies|
      invariant forall d :: d in t.dependencies[..k] ==> d in SucceededIds(ts)
    {
      var dep := t.dependencies[k];
      assert dep in t.dependencies;
      var parent := byId[dep];
      ghost var at := IndexOf(ts, dep);
      assert parent == ts[at];
      if !parent.status.Succeeded? {
        assert dep !in SucceededIds(ts) by {
          forall i | 0 <= i < |ts| && ts[i].status.Succeeded? ensures ts[i].id != dep {}
        }
        return false;
      }
      assert dep in SucceededIds(ts);
      assert t.dependencies[..k + 1] == t.dependencies[..k] + [dep];
    }
    assert t.dependencies[..|t.dependencies|] == t.dependencies;
    return true;
  }

  /** The runnable tasks in key order. */
  method ReadyTasks(ts: seq<Task>) returns (ready: seq<Task>)
    requires UniqueIds(ts) && ClosedDependencies(ts)
    ensures Ascending(KeyOrder, ready) && NoDuplicates(ready)
    ensures forall i, j :: 0 <= i < j < |ready| ==>
              ready[i].priority < ready[j].priority
                || (ready[i].priority == ready[j].priority && ready[i].id < ready[j].id)
    ensures forall t :: t in ready <==> t in ts && Runnable(ts, t)
  {
    var byId := IndexById(ts);
    ready := [];
    for i := 0 to |ts|
      invariant forall t :: t in ready <==> t in ts[..i] && Runnable(ts, t)
      invariant NoDuplicates(ready)
    {
      assert ts[..i + 1] == ts[..i] + [ts[i]];
      forall k | 0 <= k < i ensures ts[k] != ts[i] { assert ts[k].id != ts[i].id; }
      if ts[i].Unsettled() {
        assert DependsWithin(ts[i], Ids(ts));
        var ok := DependenciesSucceeded(ts, byId, ts[i]);
        if ok {
          assert ts[i] !in ready;
          ready := ready + [ts[i]];
        }
      }
    }
    assert ts[..|ts|] == ts;
    ghost var listed := ready;
    ready := SortReady(ready);
    PermutedNoDuplicates(listed, ready);
    forall i, j | 0 <= i < j < |ready|
      ensures ready[i].priority < ready[j].priority
              || (ready[i].priority == ready[j].priority && ready[i].id < ready[j].id)
    {
      assert KeyOrder(ready[i], ready[j]);
      DistinctTasksDistinctIds(ts, ready[i], ready[j]);
    }
  }

  lemma DistinctTasksDistinctIds(ts: seq<Task>, t: Task, u: Task)
    requires UniqueIds(ts) && t in ts && u in ts && t != u
    ensures t.id != u.id
  {
    var i :| 0 <= i < |ts| && ts[i] == t;
    var j :| 0 <= j < |ts| && ts[j] == u;
  }

  /** A task is ready when it is PENDING or READY and every dependency names a task that has SUCCEEDED. */
  lemma RunnableIff(ts: seq<Task>, t: Task)
    ensures Runnable(ts, t) <==>
              && (t.status == Pending || t.status == Ready)
              && forall d :: d in t.dependencies ==>
                 exists k :: 0 <= k < |ts| && ts[k].id == d && ts[k].status == Succeeded
  {
    forall d
      ensures d in SucceededIds(ts) <==> exists k :: 0 <= k < |ts| && ts[k].id == d && ts[k].status == Succeeded {}
  }

  method SelectNextReadyTask(ts: seq<Task>) returns (r: Option<Task>)
    requires UniqueIds(ts) && ClosedDependencies(ts)
    ensures r.None? <==> NoneRunnable(ts)
    ensures r.None? <==> NextIndex(ts) == -1
    ensures r.Some? ==> IsNext(ts, NextIndex(ts)) && r.value == ts[NextIndex(ts)]
    ensures r.Some? ==> forall j {:trigger ts[j]} :: 0 <= j < |ts| && Runnable(ts, ts[j]) && ts[j] != r.value ==>
              r.value.priority < ts[j].priority || (r.value.priority == ts[j].priority && r.value.id < ts[j].id)
  {
    var ready := ReadyTasks(ts);
    if ready == [] {
      forall i | 0 <= i < |ts| ensures !Runnable(ts, ts[i]) {
        assert ts[i] in ts;
      }
      return None;
    }
    assert ready[0] in ready;
    ghost var i :| 0 <= i < |ts| && ts[i] == ready[0];
    forall j | 0 <= j < |ts| && Runnable(ts, ts[j]) ensures KeyOrder(ts[i], ts[j]) {
      assert ts[j] in ready;
    }
    assert IsNext(ts, i);
    NextIsUnique(ts, i);
    forall j | 0 <= j < |ts| && Runnable(ts, ts[j]) && ts[j] != ready[0]
      ensures ready[0].priority < ts[j].priority || (ready[0].priority == ts[j].priority && ready[0].id < ts[j].id)
    {
      assert ts[j] in ready;
      var m :| 0 <= m < |ready| && ready[m] == ts[j];
    }
    return Some(ready[0]);
  }

  // ----- Failure propagation -----

  /** A chain of dependencies through unsettled tasks that ends in a failed, blocked or skipped one. */
  ghost predicate FailureChain(ts: seq<Task>, chain: seq<Task>) {
    && |chain| >= 2
    && (forall k :: 0 <= k < |chain| ==> chain[k] in ts)
    && (forall k :: 0 <= k < |chain| - 1 ==> chain[k].Unsettled() && chain[k + 1].id in chain[k].dependencies)
    && chain[|chain| - 1].Failing()
  }

  ghost predicate Doomed(ts: seq<Task>, t: Task) {
    exists chain :: FailureChain(ts, chain) && chain[0] == t
  }

  function GivenUp(t: Task): Task {
    t.(status := if t.required then Blocked else Skipped)
  }

  /** What one exhaustive propagation makes of the tasks, position by position. */
  ghost function Propagated(ts: seq<Task>): (r: seq<Task>)
    ensures |r| == |ts|
  {
    seq(|ts|, i requires 0 <= i < |ts| => if Doomed(ts, ts[i]) then GivenUp(ts[i]) else ts[i])
  }

  lemma DoomedIsUnsettled(ts: seq<Task>, t: Task)
    requires Doomed(ts, t)
    ensures t.Unsettled() && t in ts
  {
  }

  lemma PropagatedShapes(ts: seq<Task>)
    ensures SameShapes(ts, Propagated(ts))
  {
  }

  /** A task directly behind a failed, blocked or skipped one is doomed. */
  lemma DoomedByParent(ts: seq<Task>, t: Task, parent: Task)
    requires t in ts && parent in ts && t.Unsettled() && parent.id in t.dependencies
    requires parent.Failing() || Doomed(ts, parent)
    ensures Doomed(ts, t)
  {
    if parent.Failing() {
      assert FailureChain(ts, [t, parent]);
    } else {
      var chain :| FailureChain(ts, chain) && chain[0] == parent;
      var longer := [t] + chain;
      assert forall k :: 1 <= k < |longer| ==> longer[k] == chain[k - 1];
      assert FailureChain(ts, longer);
    }
  }

  /** The loop state: every entry is as given, or was doomed and has been given up. */
  ghost predicate PartlyPropagated(ts: seq<Task>, byId: map<TaskId, Task>) {
    && byId.Keys == Ids(ts)
    && (forall i {:trigger Entry(ts, byId, i)} :: 0 <= i < |ts| ==> Entry(ts, byId, i))
  }

  ghost predicate Entry(ts: seq<Task>, byId: map<TaskId, Task>, i: nat)
    requires i < |ts| && ts[i].id in byId
  {
    || byId[ts[i].id] == ts[i]
    || (Doomed(ts, ts[i]) && byId[ts[i].id] == GivenUp(ts[i]))
  }

  /** No further step applies at this entry. */
  ghost predicate Stable(byId: map<TaskId, Task>, t: Task) {
    t.Unsettled() ==> forall d :: d in t.dependencies && d in byId ==> !byId[d].Failing()
  }

  ghost function UnsettledIds(byId: map<TaskId, Task>): set<TaskId> {
    set x | x in byId && byId[x].Unsettled()
  }

  method FailedDependency(byId: map<TaskId, Task>, t: Task) returns (found: bool, ghost which: TaskId)
    requires DependsWithin(t, byId.Keys)
    ensures found ==> which in t.dependencies && which in byId && byId[which].Failing()
    ensures !found ==> Stable(byId, t)
  {
    which := 0;
    for k := 0 to |t.dependencies|
      invariant forall d :: d in t.dependencies[..k] ==> d in byId && !byId[d].Failing()
    {
      var dep := t.dependencies[k];
      assert dep in t.dependencies;
      if byId[dep].Failing() {
        return true, dep;
      }
      assert t.dependencies[..k + 1] == t.dependencies[..k] + [dep];
    }
    assert t.dependencies[..|t.dependencies|] == t.dependencies;
    return false, which;
  }

  lemma GiveUpStep(ts: seq<Task>, byId: map<TaskId, Task>, i: nat, d: TaskId)
    requires UniqueIds(ts) && PartlyPropagated(ts, byId) && i < |ts|
    requires byId[ts[i].id].Unsettled() && d in ts[i].dependencies && d in byId && byId[d].Failing()
    ensures byId[ts[i].id] == ts[i] && Doomed(ts, ts[i])
    ensures PartlyPropagated(ts, byId[ts[i].id := GivenUp(ts[i])])
    ensures UnsettledIds(byId[ts[i].id := GivenUp(ts[i])]) == UnsettledIds(byId) - {ts[i].id}
  {
    var j := IndexOf(ts, d);
    assert Entry(ts, byId, i) && Entry(ts, byId, j);
    DoomedByParent(ts, ts[i], ts[j]);
    var byId' := byId[ts[i].id := GivenUp(ts[i])];
    forall m | 0 <= m < |ts| ensures Entry(ts, byId', m) {
      assert Entry(ts, byId, m);
      assert m != i ==> ts[m].id != ts[i].id;
    }
  }

  /** The entries of the tasks, position by position. */
  ghost function Entries(ts: seq<Task>, byId: map<TaskId, Task>): seq<Task>
    requires byId.Keys == Ids(ts)
  {
    seq(|ts|, i requires 0 <= i < |ts| => byId[ts[i].id])
  }

  /** The steps lead from the tasks to their entries, and only give tasks up. */
  ghost predicate Logged(ts: seq<Task>, byId: map<TaskId, Task>, steps: seq<Step>) {
    byId.Keys == Ids(ts) && Replay(ts, steps) == Some(Entries(ts, byId)) && OnlySettles(steps)
  }

  lemma LogOneMore(ts: seq<Task>, byId: map<TaskId, Task>, steps: seq<Step>, i: nat, t: Task)
    requires UniqueIds(ts) && Logged(ts, byId, steps) && i < |ts| && ts[i].id in byId
    requires WithStatus(byId[ts[i].id], t.status) == Ok(t) && !t.status.Running?
    ensures Logged(ts, byId[ts[i].id := t], steps + [Step(i, t.status, false)])
  {
    ReplayOneMore(ts, steps, Step(i, t.status, false));
    var entries := Entries(ts, byId)[i := t];
    forall k | 0 <= k < |ts| ensures entries[k] == Entries(ts, byId[ts[i].id := t])[k] {
      assert k != i ==> ts[k].id != ts[i].id;
    }
    assert entries == Entries(ts, byId[ts[i].id := t]);
  }

  /** One pass over the tasks; `steps` logs the changes of this and the earlier passes. */
  method PropagateOnce(ts: seq<Task>, byId0: map<TaskId, Task>, ghost steps0: seq<Step>)
    returns (byId: map<TaskId, Task>, changed: bool, ghost steps: seq<Step>)
    requires UniqueIds(ts) && ClosedDependencies(ts) && PartlyPropagated(ts, byId0) && Logged(ts, byId0, steps0)
    ensures PartlyPropagated(ts, byId) && Logged(ts, byId, steps)
    ensures changed ==> UnsettledIds(byId) < UnsettledIds(byId0)
    ensures !changed ==> byId == byId0 && forall i :: 0 <= i < |ts| ==> Stable(byId, byId[ts[i].id])
  {
    byId, changed, steps := byId0, false, steps0;
    for i := 0 to |ts|
      invariant PartlyPropagated(ts, byId) && Logged(ts, byId, steps)
      invariant !changed ==> byId == byId0
      invariant changed ==> UnsettledIds(byId) < UnsettledIds(byId0)
      invariant !changed ==> forall j :: 0 <= j < i ==> Stable(byId, byId[ts[j].id])
    {
      var task := byId[ts[i].id];
      assert Entry(ts, byId, i) && DependsWithin(ts[i], Ids(ts));
      if task.Unsettled() {
        var found, which := FailedDependency(byId, task);
        if found {
          DoomedIsSettledHere(ts, byId, i);
          GiveUpStep(ts, byId, i, which);
          assert ts[i].id in UnsettledIds(byId);
          var given := WithStatus(task, if task.required then Blocked else Skipped).value;
          LogOneMore(ts, byId, steps, i, given);
          byId := byId[ts[i].id := given];
          steps := steps + [Step(i, given.status, false)];
          changed := true;
        }
      }
    }
  }

  lemma DoomedIsSettledHere(ts: seq<Task>, byId: map<TaskId, Task>, i: nat)
    requires PartlyPropagated(ts, byId) && i < |ts| && byId[ts[i].id].Unsettled()
    ensures byId[ts[i].id] == ts[i]
  {
    assert Entry(ts, byId, i);
  }

  /** Once nothing changes, every doomed task has been given up. */
  lemma {:induction false} ChainGivenUp(ts: seq<Task>, byId: map<TaskId, Task>, chain: seq<Task>, k: nat)
    requires UniqueIds(ts) && PartlyPropagated(ts, byId) && FailureChain(ts, chain) && k < |chain|
    requires forall i :: 0 <= i < |ts| ==> Stable(byId, byId[ts[i].id])
    ensures chain[k].id in byId && byId[chain[k].id].Failing()
    decreases |chain| - k
  {
    assert chain[k] in ts;
    var i :| 0 <= i < |ts| && ts[i] == chain[k];
    assert Entry(ts, byId, i);
    if k < |chain| - 1 {
      ChainGivenUp(ts, byId, chain, k + 1);
      assert Stable(byId, byId[ts[i].id]);
    }
  }

  lemma PropagationComplete(ts: seq<Task>, byId: map<TaskId, Task>, i: nat)
    requires UniqueIds(ts) && PartlyPropagated(ts, byId) && i < |ts|
    requires forall j :: 0 <= j < |ts| ==> Stable(byId, byId[ts[j].id])
    ensures byId[ts[i].id] == Propagated(ts)[i]
  {
    assert Entry(ts, byId, i);
    if Doomed(ts, ts[i]) {
      var chain :| FailureChain(ts, chain) && chain[0] == ts[i];
      ChainGivenUp(ts, byId, chain, 0);
    }
  }

  lemma SortedIsSameTasks(a: seq<Task>, b: seq<Task>)
    requires UniqueIds(a) && multiset(a) == multiset(b)
    ensures SameTasks(b, a)
  {
    SameElements(a, b);
    assert Distinct(IdsInOrder(a)) by {
      forall i, j | 0 <= i < j < |a| ensures IdsInOrder(a)[i] != IdsInOrder(a)[j] { assert a[i].id != a[j].id; }
    }
    DistinctIdsSurvive(a, b);
    forall i, j | 0 <= i < j < |b| ensures b[i].id != b[j].id {
      assert IdsInOrder(b)[i] != IdsInOrder(b)[j];
    }
    forall i | 0 <= i < |b| ensures b[i].id in Ids(a) {
      assert b[i] in a;
      var j :| 0 <= j < |a| && a[j] == b[i];
    }
    forall i | 0 <= i < |a| ensures a[i].id in Ids(b) {
      assert a[i] in b;
      var j :| 0 <= j < |b| && b[j] == a[i];
    }
    forall i, j | 0 <= i < |b| && 0 <= j < |a| && b[i].id == a[j].id ensures b[i] == a[j] {
      assert b[i] in a;
      var m :| 0 <= m < |a| && a[m] == b[i];
    }
  }

  method ValuesInKeyOrder(ts: seq<Task>, byId: map<TaskId, Task>) returns (r: seq<Task>)
    requires UniqueIds(ts) && byId.Keys == Ids(ts)
    requires forall i :: 0 <= i < |ts| ==> byId[ts[i].id].id == ts[i].id
    ensures Ascending(KeyOrder, r)
    ensures SameTasks(r, seq(|ts|, i requires 0 <= i < |ts| => byId[ts[i].id]))
  {
    var values := seq(|ts|, i requires 0 <= i < |ts| => byId[ts[i].id]);
    KeyOrderIsTotal();
    r := SortBy(KeyOrder, values);
    SortBySorts(KeyOrder, values);
    forall i, j | 0 <= i < j < |values| ensures values[i].id != values[j].id {
      assert ts[i].id != ts[j].id;
    }
    SortedIsSameTasks(values, r);
  }

  /**
   * Gives up every task from which a failure chain starts, and nothing else; the result comes in key
   * order. `steps` logs the lifecycle steps by position in `ts`.
   */
  method ApplyFailurePropagation(ts: seq<Task>) returns (r: seq<Task>, ghost steps: seq<Step>)
    requires UniqueIds(ts) && ClosedDependencies(ts)
    ensures Ascending(KeyOrder, r)
    ensures SameTasks(r, Propagated(ts))
    ensures forall i, j :: 0 <= i < |ts| && 0 <= j < |r| && r[j].id == ts[i].id ==>
              r[j] == if exists chain :: FailureChain(ts, chain) && chain[0] == ts[i]
                      then ts[i].(status := if ts[i].required then Blocked else Skipped) else ts[i]
    ensures Replay(ts, steps) == Some(Propagated(ts)) && OnlySettles(steps)
  {
    var byId := IndexById(ts);
    var changed := true;
    steps := [];
    forall i | 0 <= i < |ts| ensures Entry(ts, byId, i) {}
    assert Entries(ts, byId) == ts;
    while changed
      invariant PartlyPropagated(ts, byId) && Logged(ts, byId, steps)
      invariant !changed ==> forall i :: 0 <= i < |ts| ==> Stable(byId, byId[ts[i].id])
      decreases UnsettledIds(byId), changed
    {
      byId, changed, steps := PropagateOnce(ts, byId, steps);
    }
    forall i | 0 <= i < |ts| ensures byId[ts[i].id] == Propagated(ts)[i] {
      PropagationComplete(ts, byId, i);
    }
    r := ValuesInKeyOrder(ts, byId);
    assert Entries(ts, byId) == Propagated(ts);
    PropagationIsExactClosure(ts, r);
  }

  /** Any arrangement of the propagated tasks changes exactly the tasks from which a failure chain starts. */
  lemma PropagationIsExactClosure(ts: seq<Task>, r: seq<Task>)
    requires UniqueIds(ts) && SameTasks(r, Propagated(ts))
    ensures forall i, j :: 0 <= i < |ts| && 0 <= j < |r| && r[j].id == ts[i].id ==>
              r[j] == if exists chain :: FailureChain(ts, chain) && chain[0] == ts[i]
                      then ts[i].(status := if ts[i].required then Blocked else Skipped) else ts[i]
  {
    var after := Propagated(ts);
    forall i, j | 0 <= i < |ts| && 0 <= j < |r| && r[j].id == ts[i].id
      ensures r[j] == if exists chain :: FailureChain(ts, chain) && chain[0] == ts[i]
                      then ts[i].(status := if ts[i].required then Blocked else Skipped) else ts[i]
    {
      assert after[i].id == ts[i].id && r[j] == after[i];
      assert Doomed(ts, ts[i]) <==> exists chain :: FailureChain(ts, chain) && chain[0] == ts[i];
    }
  }

  // ----- What propagation achieves -----

  /** Propagation settles everything it can at once: nothing is left doomed. */
  lemma NothingDoomedAfterwards(ts: seq<Task>, t: Task)
    requires UniqueIds(ts)
    ensures !Doomed(Propagated(ts), t)
  {
    var after := Propagated(ts);
    if chain :| FailureChain(after, chain) && chain[0] == t {
      var k := |chain| - 2;
      assert chain[k] in after && chain[k + 1] in after;
      var i :| 0 <= i < |ts| && after[i] == chain[k];
      var j :| 0 <= j < |ts| && after[j] == chain[k + 1];
      assert after[i] == ts[i];
      DoomedByParent(ts, ts[i], ts[j]);
    }
  }

  lemma PropagationIsIdempotent(ts: seq<Task>)
    requires UniqueIds(ts)
    ensures Propagated(Propagated(ts)) == Propagated(ts)
  {
    forall i | 0 <= i < |ts| ensures Propagated(Propagated(ts))[i] == Propagated(ts)[i] {
      NothingDoomedAfterwards(ts, Propagated(ts)[i]);
    }
  }

  lemma DoomedInAnyOrder(a: seq<Task>, b: seq<Task>, t: Task)
    requires SameTasks(a, b) && Doomed(a, t)
    ensures Doomed(b, t)
  {
    var chain :| FailureChain(a, chain) && chain[0] == t;
    forall k | 0 <= k < |chain| ensures chain[k] in b {
      assert chain[k] in a;
      var i :| 0 <= i < |a| && a[i] == chain[k];
      assert a[i].id in Ids(b);
      var j := IndexOf(b, a[i].id);
      assert b[j] == a[i];
    }
    assert FailureChain(b, chain);
  }

  /** The outcome does not depend on the order in which the tasks are visited. */
  lemma PropagationIgnoresOrder(a: seq<Task>, b: seq<Task>)
    requires SameTasks(a, b)
    ensures SameTasks(Propagated(a), Propagated(b))
  {
    SameTasksCompose(a, b, b);
    PropagatedShapes(a);
    PropagatedShapes(b);
    SameShapesSameIds(a, Propagated(a));
    SameShapesSameIds(b, Propagated(b));
    forall i, j | 0 <= i < |a| && 0 <= j < |b| && Propagated(a)[i].id == Propagated(b)[j].id
      ensures Propagated(a)[i] == Propagated(b)[j]
    {
      ShapeDecidesChoice(a[i], Propagated(a)[i], {});
      ShapeDecidesChoice(b[j], Propagated(b)[j], {});
      assert a[i] == b[j];
      if Doomed(a, a[i]) { DoomedInAnyOrder(a, b, a[i]); }
      if Doomed(b, b[j]) { DoomedInAnyOrder(b, a, b[j]); }
    }
  }

  /** `us` is `ts` with some of its unsettled tasks given up. */
  ghost predicate GivesUpSome(ts: seq<Task>, us: seq<Task>) {
    && |us| == |ts|
    && forall i {:trigger us[i]} :: 0 <= i < |ts| ==> us[i] == ts[i] || (ts[i].Unsettled() && us[i] == GivenUp(ts[i]))
  }

  /** No unsettled task depends on a failed, blocked or skipped one. */
  ghost predicate Closed(us: seq<Task>) {
    forall i, j :: 0 <= i < |us| && 0 <= j < |us| && us[i].Unsettled() && us[j].Failing() ==>
           us[j].id !in us[i].dependencies
  }

  lemma {:induction false} ChainGivenUpIn(ts: seq<Task>, us: seq<Task>, chain: seq<Task>, k: nat, i: nat)
    requires GivesUpSome(ts, us) && Closed(us) && FailureChain(ts, chain) && k < |chain|
    requires i < |ts| && ts[i] == chain[k]
    ensures us[i].Failing() && (k < |chain| - 1 ==> us[i] == GivenUp(ts[i]))
    decreases |chain| - k
  {
    if k < |chain| - 1 {
      assert chain[k + 1] in ts;
      var j :| 0 <= j < |ts| && ts[j] == chain[k + 1];
      ChainGivenUpIn(ts, us, chain, k + 1, j);
      assert us[j].id in us[i].dependencies;
    }
  }

  /**
   * Propagation is the least closure: its result leaves no unsettled task behind a failed one, and
   * whoever achieves that by giving up unsettled tasks gives up all that propagation gives up.
   */
  lemma PropagationIsLeastClosure(ts: seq<Task>, us: seq<Task>)
    requires UniqueIds(ts) && GivesUpSome(ts, us) && Closed(us)
    ensures GivesUpSome(ts, Propagated(ts)) && Closed(Propagated(ts))
    ensures forall i :: 0 <= i < |ts| && Propagated(ts)[i] != ts[i] ==> us[i] == Propagated(ts)[i]
  {
    var after := Propagated(ts);
    forall i, j | 0 <= i < |ts| && 0 <= j < |ts| && after[i].Unsettled() && after[j].Failing()
      ensures after[j].id !in after[i].dependencies
    {
      NothingDoomedAfterwards(ts, after[i]);
      if after[j].id in after[i].dependencies {
        DoomedByParent(after, after[i], after[j]);
      }
    }
    forall i | 0 <= i < |ts| && after[i] != ts[i] ensures us[i] == after[i] {
      var chain :| FailureChain(ts, chain) && chain[0] == ts[i];
      ChainGivenUpIn(ts, us, chain, 0, i);
    }
  }

  ghost predicate NoneRunning(ts: seq<Task>) {
    forall i :: 0 <= i < |ts| ==> !ts[i].status.Running?
  }

  ghost predicate AllSettled(ts: seq<Task>) {
    forall i :: 0 <= i < |ts| ==> !ts[i].Unsettled()
  }

  /** In a plan after propagation, the first unsettled task is runnable. */
  lemma FirstUnsettledIsRunnable(ts: seq<Task>, i: nat)
    requires UniqueIds(ts) && GreedyPrefix(ts, ts) && NoneRunning(ts) && i < |ts| && ts[i].Unsettled()
    requires forall j :: 0 <= j < i ==> !ts[j].Unsettled()
    requires !Doomed(ts, ts[i])
    ensures Runnable(ts, ts[i])
  {
    assert GreedyChoice(ts, Ids(ts[..i]), ts[i]);
    forall d | d in ts[i].dependencies ensures d in SucceededIds(ts) {
      var j := IndexOf(ts[..i], d);
      assert ts[j] == ts[..i][j] && ts[j] in ts && ts[i] in ts;
      if ts[j].Failing() { DoomedByParent(ts, ts[i], ts[j]); }
    }
  }

  /** No deadlock: after propagation nothing is runnable exactly when nothing is left to run. */
  lemma NoDeadlock(ts: seq<Task>)
    requires ValidPlan(ts) && NoneRunning(ts)
    ensures NoneRunnable(Propagated(ts)) <==> AllSettled(Propagated(ts))
  {
    var after := Propagated(ts);
    PropagatedShapes(ts);
    SameShapesSamePlan(ts, after);
    if !AllSettled(after) {
      var i :| 0 <= i < |after| && after[i].Unsettled();
      var first := FirstUnsettled(after, i);
      NothingDoomedAfterwards(ts, after[first]);
      FirstUnsettledIsRunnable(after, first);
    } else {
      forall i | 0 <= i < |after| ensures !Runnable(after, after[i]) {}
    }
  }

  lemma {:induction false} FirstUnsettled(ts: seq<Task>, i: nat) returns (first: nat)
    requires i < |ts| && ts[i].Unsettled()
    ensures first <= i && ts[first].Unsettled() && forall j :: 0 <= j < first ==> !ts[j].Unsettled()
  {
    first := 0;
    while !ts[first].Unsettled()
      invariant first <= i && forall j :: 0 <= j < first ==> !ts[j].Unsettled()
      decreases i - first
    {
      first := first + 1;
    }
  }
}
