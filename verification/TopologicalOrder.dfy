/**
 * The deterministic topological order of a plan
 * (src/financial_intelligence/domain/orchestration/graph.py, topological_order; plan.py, ResearchPlan).
 */
module TopologicalOrder {
  import opened Outcomes
  import opened ResearchTasks
  import opened Sorting
  import opened TaskGraph

  /** The sort key (priority, task_id). */
  predicate KeyOrder(a: Task, b: Task) {
    a.priority < b.priority || (a.priority == b.priority && a.id <= b.id)
  }

  lemma KeyOrderIsTotal()
    ensures TotalPreorder(KeyOrder)
  {
  }

  // ----- What the order is -----

  ghost predicate Candidate(t: Task, placed: set<TaskId>) {
    t.id !in placed && DependsWithin(t, placed)
  }

  /** `t` is the least of the tasks of `ts` that can follow the tasks in `placed`. */
  ghost predicate GreedyChoice(ts: seq<Task>, placed: set<TaskId>, t: Task) {
    Candidate(t, placed) && forall j :: 0 <= j < |ts| && Candidate(ts[j], placed) ==> KeyOrder(t, ts[j])
  }

  ghost predicate GreedyPrefix(ts: seq<Task>, out: seq<Task>) {
    forall i {:trigger GreedyChoice(ts, Ids(out[..i]), out[i])} ::
      0 <= i < |out| ==> GreedyChoice(ts, Ids(out[..i]), out[i])
  }

  /** The same tasks, each once, in some order. */
  ghost predicate SameTasks(a: seq<Task>, b: seq<Task>) {
    && UniqueIds(a) && UniqueIds(b)
    && Ids(a) == Ids(b)
    && (forall i, j :: 0 <= i < |a| && 0 <= j < |b| && a[i].id == b[j].id ==> a[i] == b[j])
  }

  ghost predicate CanonicalOrder(ts: seq<Task>, out: seq<Task>) {
    SameTasks(ts, out) && GreedyPrefix(ts, out)
  }

  /** A plan as its constructor leaves it: non-empty, valid, and in canonical order. */
  ghost predicate ValidPlan(ts: seq<Task>) {
    ts != [] && ValidGraph(ts) && GreedyPrefix(ts, ts)
  }

  // ----- There is only one such order -----

  /** The same identities with the same keys and dependencies; statuses and order may differ. */
  ghost predicate SameGraph(a: seq<Task>, b: seq<Task>) {
    && UniqueIds(a) && UniqueIds(b)
    && Ids(a) == Ids(b)
    && (forall i, j :: 0 <= i < |a| && 0 <= j < |b| && a[i].id == b[j].id ==> a[i].Shape() == b[j].Shape())
  }

  ghost predicate SameShapes(a: seq<Task>, b: seq<Task>) {
    |a| == |b| && forall i :: 0 <= i < |a| ==> a[i].Shape() == b[i].Shape()
  }

  lemma ShapeDecidesChoice(t: Task, u: Task, placed: set<TaskId>)
    requires t.Shape() == u.Shape()
    ensures t.id == u.id && t.dependencies == u.dependencies && t.priority == u.priority
    ensures Candidate(t, placed) <==> Candidate(u, placed)
  {
  }

  lemma SameShapesSameIds(a: seq<Task>, b: seq<Task>)
    requires SameShapes(a, b)
    ensures Ids(a) == Ids(b)
    ensures UniqueIds(a) <==> UniqueIds(b)
  {
    forall i | 0 <= i < |a| ensures a[i].id == b[i].id {
      ShapeDecidesChoice(a[i], b[i], {});
    }
  }

  ghost predicate SameShapesUpTo(a: seq<Task>, b: seq<Task>, n: nat) {
    n <= |a| && n <= |b| && forall i :: 0 <= i < n ==> a[i].Shape() == b[i].Shape()
  }

  lemma SamePrefixIds(a: seq<Task>, b: seq<Task>, n: nat)
    requires SameShapesUpTo(a, b, n)
    ensures Ids(a[..n]) == Ids(b[..n])
  {
    SameShapesSameIds(a[..n], b[..n]);
  }

  lemma InPrefix(b: seq<Task>, i: nat, j: nat)
    requires j < i <= |b|
    ensures b[j].id in Ids(b[..i])
  {
    assert b[..i][j] == b[j];
  }

  /** After a common prefix, the next shape of `a` is available to `b`, so `b` puts nothing greater there. */
  lemma NextShapeFound(a: seq<Task>, b: seq<Task>, i: nat) returns (j: nat)
    requires SameGraph(a, b) && GreedyPrefix(a, a) && GreedyPrefix(b, b)
    requires i < |a| && SameShapesUpTo(a, b, i)
    ensures i <= j < |b| && b[j].Shape() == a[i].Shape() && KeyOrder(b[i], b[j])
  {
    j := IndexOf(b, a[i].id);
    ShapeDecidesChoice(a[i], b[j], Ids(a[..i]));
    SamePrefixIds(a, b, i);
    assert GreedyChoice(a, Ids(a[..i]), a[i]);
    if j < i { InPrefix(b, i, j); }
    assert GreedyChoice(b, Ids(b[..i]), b[i]);
  }

  lemma {:induction false} CanonicalPrefixUnique(a: seq<Task>, b: seq<Task>, i: nat)
    requires SameGraph(a, b) && GreedyPrefix(a, a) && GreedyPrefix(b, b)
    requires i <= |a|
    ensures SameShapesUpTo(a, b, i)
  {
    if i > 0 {
      CanonicalPrefixUnique(a, b, i - 1);
      SameAtPosition(a, b, i - 1);
    }
  }

  lemma SameAtPosition(a: seq<Task>, b: seq<Task>, k: nat)
    requires SameGraph(a, b) && GreedyPrefix(a, a) && GreedyPrefix(b, b)
    requires k < |a| && SameShapesUpTo(a, b, k)
    ensures k < |b| && a[k].Shape() == b[k].Shape()
  {
    var j := NextShapeFound(a, b, k);
    assert SameShapesUpTo(b, a, k);
    var m := NextShapeFound(b, a, k);
    ShapeDecidesChoice(b[j], a[k], {});
    ShapeDecidesChoice(a[m], b[k], {});
    assert b[k].id == a[k].id;
  }

  /**
   * Two canonical orders of tasks with the same identities, keys and dependencies agree at every
   * position, whatever the statuses and the order of the inputs.
   */
  lemma CanonicalOrderUnique(a: seq<Task>, b: seq<Task>)
    requires SameGraph(a, b) && GreedyPrefix(a, a) && GreedyPrefix(b, b)
    ensures SameShapes(a, b)
  {
    CanonicalPrefixUnique(a, b, |a|);
    UniqueIdsCount(a);
    UniqueIdsCount(b);
  }

  lemma GreedyForAnyArrangement(ts: seq<Task>, out: seq<Task>)
    requires CanonicalOrder(ts, out)
    ensures GreedyPrefix(out, out)
  {
    forall i | 0 <= i < |out| ensures GreedyChoice(out, Ids(out[..i]), out[i]) {
      var placed := Ids(out[..i]);
      assert GreedyChoice(ts, placed, out[i]);
      forall j | 0 <= j < |out| && Candidate(out[j], placed) ensures KeyOrder(out[i], out[j]) {
        var k := IndexOf(ts, out[j].id);
        assert ts[k] == out[j];
      }
    }
  }

  lemma SameTasksCompose(a: seq<Task>, b: seq<Task>, c: seq<Task>)
    requires SameTasks(a, b) && SameTasks(b, c)
    ensures SameTasks(a, c) && SameTasks(b, a)
  {
    forall i, j | 0 <= i < |a| && 0 <= j < |c| && a[i].id == c[j].id ensures a[i] == c[j] {
      var k := IndexOf(b, a[i].id);
      assert b[k] == a[i] && b[k] == c[j];
    }
  }

  /** The canonical order depends only on the set of tasks, not on how they were listed. */
  lemma CanonicalOrderIgnoresInputOrder(ts: seq<Task>, us: seq<Task>, a: seq<Task>, b: seq<Task>)
    requires CanonicalOrder(ts, a) && CanonicalOrder(us, b) && SameTasks(ts, us)
    ensures a == b
  {
    GreedyForAnyArrangement(ts, a);
    GreedyForAnyArrangement(us, b);
    SameTasksCompose(a, ts, us) by { SameTasksCompose(ts, a, a); }
    SameTasksCompose(a, us, b);
    CanonicalOrderUnique(a, b);
    forall i | 0 <= i < |a| ensures a[i] == b[i] {
      ShapeDecidesChoice(a[i], b[i], {});
    }
  }

  // ----- The algorithm -----

  ghost function IdsInOrder(ts: seq<Task>): seq<TaskId> {
    seq(|ts|, i requires 0 <= i < |ts| => ts[i].id)
  }

  /** The tasks among the first `n` that list `d` as a dependency, in order. */
  ghost function Dependents(ts: seq<Task>, n: nat, d: TaskId): seq<Task>
    requires n <= |ts|
  {
    if n == 0 then []
    else Dependents(ts, n - 1, d) + (if d in ts[n - 1].dependencies then [ts[n - 1]] else [])
  }

  lemma {:induction false} DependentIndex(ts: seq<Task>, n: nat, d: TaskId, k: nat) returns (i: nat)
    requires n <= |ts| && k < |Dependents(ts, n, d)|
    ensures i < n && Dependents(ts, n, d)[k] == ts[i] && d in ts[i].dependencies
  {
    if k < |Dependents(ts, n - 1, d)| {
      i := DependentIndex(ts, n - 1, d, k);
    } else {
      i := n - 1;
    }
  }

  lemma {:induction false} DependentListed(ts: seq<Task>, n: nat, d: TaskId, i: nat) returns (k: nat)
    requires i < n <= |ts| && d in ts[i].dependencies
    ensures k < |Dependents(ts, n, d)| && Dependents(ts, n, d)[k] == ts[i]
  {
    if i < n - 1 {
      k := DependentListed(ts, n - 1, d, i);
    } else {
      k := |Dependents(ts, n - 1, d)|;
    }
  }

  lemma {:induction false} DependentsDistinct(ts: seq<Task>, n: nat, d: TaskId)
    requires n <= |ts| && UniqueIds(ts)
    ensures Distinct(IdsInOrder(Dependents(ts, n, d)))
  {
    if n > 0 {
      DependentsDistinct(ts, n - 1, d);
      var shorter := Dependents(ts, n - 1, d);
      forall k | 0 <= k < |shorter| ensures shorter[k].id != ts[n - 1].id {
        var i := DependentIndex(ts, n - 1, d, k);
        assert ts[i].id != ts[n - 1].id;
      }
      var ids := IdsInOrder(Dependents(ts, n, d));
      assert forall k :: 0 <= k < |shorter| ==> ids[k] == IdsInOrder(shorter)[k];
    }
  }

  method ChildrenByDependency(ts: seq<Task>) returns (children: map<TaskId, seq<Task>>)
    requires ValidGraph(ts)
    ensures children.Keys == Ids(ts)
    ensures forall d :: d in children ==> children[d] == Dependents(ts, |ts|, d)
  {
    children := NoChildren(ts);
    for i := 0 to |ts|
      invariant children.Keys == Ids(ts)
      invariant forall d :: d in children ==> children[d] == Dependents(ts, i, d)
    {
      children := AddToParents(children, ts[i]);
    }
  }

  method NoChildren(ts: seq<Task>) returns (children: map<TaskId, seq<Task>>)
    ensures children.Keys == Ids(ts)
    ensures forall d :: d in children ==> children[d] == []
  {
    children := map t | t in ts :: t.id := [];
    SetOfIds(ts);
  }

  method AddToParents(children0: map<TaskId, seq<Task>>, t: Task) returns (children: map<TaskId, seq<Task>>)
    requires Distinct(t.dependencies) && DependsWithin(t, children0.Keys)
    ensures children.Keys == children0.Keys
    ensures forall d :: d in children ==>
              children[d] == children0[d] + (if d in t.dependencies then [t] else [])
  {
    var deps := t.dependencies;
    children := children0;
    for k := 0 to |deps|
      invariant children.Keys == children0.Keys
      invariant forall d :: d in children ==> children[d] == children0[d] + (if d in deps[..k] then [t] else [])
    {
      var dep := deps[k];
      assert dep in deps && dep !in deps[..k];
      assert deps[..k + 1] == deps[..k] + [dep];
      children := children[dep := children[dep] + [t]];
    }
    assert deps[..|deps|] == deps;
  }

  method SortReady(ready: seq<Task>) returns (r: seq<Task>)
    ensures Ascending(KeyOrder, r)
    ensures multiset(r) == multiset(ready)
    ensures forall t :: t in r <==> t in ready
    ensures Distinct(IdsInOrder(ready)) ==> Distinct(IdsInOrder(r))
  {
    KeyOrderIsTotal();
    r := SortBy(KeyOrder, ready);
    SortBySorts(KeyOrder, ready);
    SameElements(r, ready);
    if Distinct(IdsInOrder(ready)) { DistinctIdsSurvive(ready, r); }
  }

  lemma DistinctIdsSurvive(a: seq<Task>, b: seq<Task>)
    requires multiset(a) == multiset(b) && Distinct(IdsInOrder(a))
    ensures Distinct(IdsInOrder(b))
  {
    SameElements(a, b);
    DistinctCount(IdsInOrder(a));
    DistinctCount(IdsInOrder(b));
    assert Elements(IdsInOrder(a)) == Elements(IdsInOrder(b)) by {
      forall x ensures x in IdsInOrder(a) <==> x in IdsInOrder(b) {
        InIdsInOrder(a, x);
        InIdsInOrder(b, x);
      }
    }
  }

  lemma InIdsInOrder(ts: seq<Task>, x: TaskId)
    ensures x in IdsInOrder(ts) <==> exists t :: t in ts && t.id == x
  {
    if x in IdsInOrder(ts) {
      var k :| 0 <= k < |ts| && IdsInOrder(ts)[k] == x;
      assert ts[k] in ts;
    }
    if t :| t in ts && t.id == x {
      var k :| 0 <= k < |ts| && ts[k] == t;
      assert IdsInOrder(ts)[k] == x;
    }
  }

  /** The tasks that do not wait for `node`. */
  ghost function Unaffected(ts: seq<Task>, node: TaskId): set<TaskId> {
    set i | 0 <= i < |ts| && node !in ts[i].dependencies :: ts[i].id
  }

  lemma RemovalStarts(ts: seq<Task>, indegree: map<TaskId, int>, queue: seq<TaskId>, done: set<TaskId>, node: TaskId)
    requires UniqueIds(ts) && KahnState(ts, indegree, [node] + queue, done)
    ensures Removing(ts, Unaffected(ts, node), indegree, queue, done, node)
  {
    NodeLeavesQueue(ts, node, indegree, queue, done);
    forall j | 0 <= j < |ts| ensures indegree[ts[j].id] == Unmet(ts[j], Unaffected(ts, node), done, node) {
      assert indegree[ts[j].id] == Indegree(ts[j], done);
      if node in ts[j].dependencies { OutsideUnaffected(ts, node, j); }
      MetOneMore(ts[j], done, node);
    }
  }

  /** `kids` lists every task that waits for `node`, once each. */
  ghost predicate KidsOf(ts: seq<Task>, node: TaskId, kids: seq<Task>) {
    && Distinct(IdsInOrder(kids))
    && (forall k :: 0 <= k < |kids| ==> kids[k] in ts && node in kids[k].dependencies)
    && (forall i :: 0 <= i < |ts| && node in ts[i].dependencies ==> ts[i] in kids)
  }

  lemma DependentsAreKids(ts: seq<Task>, node: TaskId)
    requires UniqueIds(ts)
    ensures KidsOf(ts, node, Dependents(ts, |ts|, node))
  {
    DependentsDistinct(ts, |ts|, node);
    var kids := Dependents(ts, |ts|, node);
    forall k | 0 <= k < |kids| ensures kids[k] in ts && node in kids[k].dependencies {
      var i := DependentIndex(ts, |ts|, node, k);
    }
    forall i | 0 <= i < |ts| && node in ts[i].dependencies ensures ts[i] in kids {
      var k := DependentListed(ts, |ts|, node, i);
    }
  }

  lemma KidsInAnyOrder(ts: seq<Task>, node: TaskId, kids: seq<Task>, sorted: seq<Task>)
    requires KidsOf(ts, node, kids)
    requires Distinct(IdsInOrder(sorted)) && forall t :: t in sorted <==> t in kids
    ensures KidsOf(ts, node, sorted)
  {
    forall k | 0 <= k < |sorted| ensures sorted[k] in ts && node in sorted[k].dependencies {
      assert sorted[k] in kids;
    }
  }

  ghost function KidsDone(kids: seq<Task>, k: nat): set<TaskId>
    requires k <= |kids|
  {
    Elements(IdsInOrder(kids)[..k])
  }

  lemma NextKid(ts: seq<Task>, node: TaskId, kids: seq<Task>, k: nat) returns (i: nat)
    requires UniqueIds(ts) && KidsOf(ts, node, kids) && k < |kids|
    ensures i < |ts| && ts[i] == kids[k]
    ensures kids[k].id !in Unaffected(ts, node) + KidsDone(kids, k)
    ensures KidsDone(kids, k + 1) == KidsDone(kids, k) + {kids[k].id}
  {
    assert kids[k] in ts;
    i :| 0 <= i < |ts| && ts[i] == kids[k];
    OutsideUnaffected(ts, node, i);
    var ids := IdsInOrder(kids);
    assert ids[..k + 1] == ids[..k] + [kids[k].id];
    forall m | 0 <= m < k ensures ids[m] != ids[k] {}
  }

  lemma OutsideUnaffected(ts: seq<Task>, node: TaskId, i: nat)
    requires UniqueIds(ts) && i < |ts| && node in ts[i].dependencies
    ensures ts[i].id !in Unaffected(ts, node)
  {
    forall j | 0 <= j < |ts| && node !in ts[j].dependencies ensures ts[j].id != ts[i].id {}
  }

  lemma AllKidsDone(ts: seq<Task>, node: TaskId, kids: seq<Task>)
    requires KidsOf(ts, node, kids)
    ensures Unaffected(ts, node) + KidsDone(kids, |kids|) == Ids(ts)
  {
    var ids := IdsInOrder(kids);
    assert ids[..|kids|] == ids;
    forall i | 0 <= i < |ts| && node in ts[i].dependencies ensures ts[i].id in Elements(ids) {
      var k :| 0 <= k < |kids| && kids[k] == ts[i];
      assert ids[k] == ts[i].id;
    }
    forall x | x in ids ensures x in Ids(ts) {
      var k :| 0 <= k < |kids| && ids[k] == x;
      assert kids[k] in ts;
      var i :| 0 <= i < |ts| && ts[i] == kids[k];
    }
  }

  ghost predicate ReadyList(ts: seq<Task>, ready: seq<Task>) {
    && (forall k :: 0 <= k < |ready| ==> ready[k] in ts)
    && Ascending(KeyOrder, ready)
  }

  method AppendReady(ready: seq<Task>, child: Task) returns (r: seq<Task>)
    ensures Ascending(KeyOrder, r)
    ensures forall t :: t in r <==> t in ready || t == child
    ensures Distinct(IdsInOrder(ready)) && child.id !in IdsInOrder(ready) ==> Distinct(IdsInOrder(r))
    ensures forall x :: x in IdsInOrder(r) <==> x in IdsInOrder(ready) || x == child.id
  {
    var appended := ready + [child];
    assert IdsInOrder(appended) == IdsInOrder(ready) + [child.id];
    r := SortReady(appended);
    forall x ensures x in IdsInOrder(r) <==> x in IdsInOrder(ready) || x == child.id {
      InIdsInOrder(r, x);
      InIdsInOrder(appended, x);
    }
  }

  ghost predicate Releasing(ts: seq<Task>, node: TaskId, kids: seq<Task>, k: nat, indegree: map<TaskId, int>,
                            queue: seq<TaskId>, done: set<TaskId>)
    requires k <= |kids|
  {
    Removing(ts, Unaffected(ts, node) + KidsDone(kids, k), indegree, queue, done, node)
  }

  lemma ReleaseKid(ts: seq<Task>, node: TaskId, kids: seq<Task>, k: nat, indegree: map<TaskId, int>,
                   queue: seq<TaskId>, done: set<TaskId>, queue': seq<TaskId>)
    requires UniqueIds(ts) && KidsOf(ts, node, kids) && k < |kids| && node !in done
    requires Releasing(ts, node, kids, k, indegree, queue, done)
    requires kids[k].id in indegree && kids[k].id !in queue ==> Distinct(queue')
    requires forall x :: x in queue' <==> x in queue || (x == kids[k].id && x in indegree && indegree[x] == 1)
    ensures kids[k].id in indegree
    ensures Releasing(ts, node, kids, k + 1, indegree[kids[k].id := indegree[kids[k].id] - 1], queue', done)
  {
    var updated := Unaffected(ts, node) + KidsDone(kids, k);
    var i := NextKid(ts, node, kids, k);
    assert Unaffected(ts, node) + KidsDone(kids, k + 1) == updated + {kids[k].id};
    DependentNotQueued(ts, i, updated, indegree, queue, done, node);
    RemovingDependent(ts, i, updated, indegree, queue, done, node, queue');
  }

  lemma ReleaseEnds(ts: seq<Task>, node: TaskId, kids: seq<Task>, indegree: map<TaskId, int>, queue: seq<TaskId>,
                    done: set<TaskId>)
    requires KidsOf(ts, node, kids) && Releasing(ts, node, kids, |kids|, indegree, queue, done)
    requires done + {node} <= Ids(ts)
    ensures KahnState(ts, indegree, queue, done + {node})
  {
    AllKidsDone(ts, node, kids);
    RemovalComplete(ts, indegree, queue, done, node);
  }

  lemma ReleaseStarts(ts: seq<Task>, node: TaskId, kids: seq<Task>, indegree: map<TaskId, int>, queue: seq<TaskId>,
                      done: set<TaskId>)
    requires UniqueIds(ts) && KahnState(ts, indegree, [node] + queue, done)
    ensures Releasing(ts, node, kids, 0, indegree, queue, done)
    ensures node !in done && done + {node} <= Ids(ts)
  {
    RemovalStarts(ts, indegree, queue, done, node);
    NodeLeavesQueue(ts, node, indegree, queue, done);
    assert Unaffected(ts, node) + KidsDone(kids, 0) == Unaffected(ts, node);
  }

  /** Takes `node` out of the graph: each task that waits for it loses one unmet dependency. */
  method Release(ts: seq<Task>, node: TaskId, kids: seq<Task>, indegree0: map<TaskId, int>, ready0: seq<Task>,
                 ghost done: set<TaskId>)
    returns (indegree: map<TaskId, int>, ready: seq<Task>)
    requires UniqueIds(ts) && KidsOf(ts, node, kids) && ReadyList(ts, ready0)
    requires KahnState(ts, indegree0, [node] + IdsInOrder(ready0), done)
    ensures KahnState(ts, indegree, IdsInOrder(ready), done + {node})
    ensures ReadyList(ts, ready)
  {
    indegree, ready := indegree0, ready0;
    ReleaseStarts(ts, node, kids, indegree, IdsInOrder(ready), done);
    for k := 0 to |kids|
      invariant Releasing(ts, node, kids, k, indegree, IdsInOrder(ready), done)
      invariant ReadyList(ts, ready)
    {
      indegree, ready := ReleaseOne(ts, node, kids, k, indegree, ready, done);
    }
    ReleaseEnds(ts, node, kids, indegree, IdsInOrder(ready), done);
  }

  method ReleaseOne(ts: seq<Task>, ghost node: TaskId, kids: seq<Task>, k: nat, indegree0: map<TaskId, int>,
                    ready0: seq<Task>,
                    ghost done: set<TaskId>)
    returns (indegree: map<TaskId, int>, ready: seq<Task>)
    requires UniqueIds(ts) && KidsOf(ts, node, kids) && k < |kids| && node !in done && ReadyList(ts, ready0)
    requires Releasing(ts, node, kids, k, indegree0, IdsInOrder(ready0), done)
    ensures Releasing(ts, node, kids, k + 1, indegree, IdsInOrder(ready), done)
    ensures ReadyList(ts, ready)
  {
    var child := kids[k];
    ghost var at := NextKid(ts, node, kids, k);
    assert child.id in indegree0;
    indegree := indegree0[child.id := indegree0[child.id] - 1];
    ready := ready0;
    if indegree[child.id] == 0 {
      ready := AppendReady(ready, child);
      assert child in ts;
      forall k | 0 <= k < |ready| ensures ready[k] in ts {
        assert ready[k] in ready0 || ready[k] == child;
      }
    }
    ReleaseKid(ts, node, kids, k, indegree0, IdsInOrder(ready0), done, IdsInOrder(ready));
  }

  method InitialReady(ts: seq<Task>, indegree: map<TaskId, int>) returns (ready: seq<Task>)
    requires UniqueIds(ts) && indegree.Keys == Ids(ts)
    ensures QueueState(ts, indegree, IdsInOrder(ready), {})
    ensures ReadyList(ts, ready)
  {
    ready := [];
    for i := 0 to |ts|
      invariant Distinct(IdsInOrder(ready))
      invariant forall t :: t in ready ==> t in ts
      invariant forall x :: x in IdsInOrder(ready) <==> x in Ids(ts[..i]) && x in indegree && indegree[x] == 0
    {
      PrefixGrows(ts, i);
      if indegree[ts[i].id] == 0 {
        assert IdsInOrder(ready + [ts[i]]) == IdsInOrder(ready) + [ts[i].id];
        ready := ready + [ts[i]];
      }
    }
    assert ts[..|ts|] == ts;
    ghost var listed := ready;
    ready := SortReady(ready);
    forall x ensures x in IdsInOrder(ready) <==> x in IdsInOrder(listed) {
      InIdsInOrder(ready, x);
      InIdsInOrder(listed, x);
    }
  }

  /** `ordered` is a greedy beginning of the canonical order of `ts`. */
  ghost predicate Placed(ts: seq<Task>, ordered: seq<Task>) {
    && UniqueIds(ordered)
    && (forall i, j :: 0 <= i < |ordered| && 0 <= j < |ts| && ordered[i].id == ts[j].id ==> ordered[i] == ts[j])
    && GreedyPrefix(ts, ordered)
  }

  /** The head of the ready list is the least task that can come next. */
  lemma HeadIsGreedyChoice(ts: seq<Task>, indegree: map<TaskId, int>, ready: seq<Task>, done: set<TaskId>)
    requires ValidGraph(ts) && ready != [] && ReadyList(ts, ready)
    requires KahnState(ts, indegree, IdsInOrder(ready), done)
    ensures GreedyChoice(ts, done, ready[0])
  {
    assert IdsInOrder(ready)[0] == ready[0].id;
    assert ready[0] in ts;
    var h :| 0 <= h < |ts| && ts[h] == ready[0];
    ReadyIffCandidate(ts, indegree, IdsInOrder(ready), done, h);
    forall j | 0 <= j < |ts| && Candidate(ts[j], done) ensures KeyOrder(ready[0], ts[j]) {
      ReadyIffCandidate(ts, indegree, IdsInOrder(ready), done, j);
      var k :| 0 <= k < |ready| && IdsInOrder(ready)[k] == ts[j].id;
      assert ready[k] in ts;
      var m :| 0 <= m < |ts| && ts[m] == ready[k];
      assert ts[m].id == ts[j].id;
    }
  }

  lemma ReadyIffCandidate(ts: seq<Task>, indegree: map<TaskId, int>, queue: seq<TaskId>, done: set<TaskId>, i: nat)
    requires NoRepeatedDependency(ts) && KahnState(ts, indegree, queue, done) && i < |ts|
    ensures ts[i].id in queue <==> Candidate(ts[i], done)
  {
    FullyMet(ts[i], done);
    assert Distinct(ts[i].dependencies);
    assert indegree[ts[i].id] == Indegree(ts[i], done);
    assert Queued(indegree, queue, done, ts[i].id);
  }

  lemma PlaceOneMore(ts: seq<Task>, ordered: seq<Task>, t: Task)
    requires UniqueIds(ts) && Placed(ts, ordered) && t in ts && GreedyChoice(ts, Ids(ordered), t)
    ensures Placed(ts, ordered + [t])
    ensures Ids(ordered + [t]) == Ids(ordered) + {t.id}
  {
    var out := ordered + [t];
    var h :| 0 <= h < |ts| && ts[h] == t;
    forall k | 0 <= k < |ordered| ensures ordered[k].id != t.id {
      assert ordered[k].id in Ids(ordered);
    }
    assert out[..|ordered|] == ordered;
    PrefixGrows(out, |ordered|);
    assert out[..|out|] == out;
    forall i | 0 <= i < |out| ensures GreedyChoice(ts, Ids(out[..i]), out[i]) {
      if i < |ordered| {
        assert out[..i] == ordered[..i];
        assert GreedyChoice(ts, Ids(ordered[..i]), ordered[i]);
      }
    }
  }

  /**
   * At every position stands the task of the least priority number, and among those of the least id, of
   * all later tasks that depend only on tasks before that position.
   */
  ghost predicate ByPriorityThenId(out: seq<Task>) {
    forall i, j {:trigger DependsWithin(out[j], Ids(out[..i]))} ::
      0 <= i < j < |out| && DependsWithin(out[j], Ids(out[..i])) ==>
        out[i].priority < out[j].priority || (out[i].priority == out[j].priority && out[i].id < out[j].id)
  }

  lemma GreedyIsByPriorityThenId(ts: seq<Task>, out: seq<Task>)
    requires CanonicalOrder(ts, out)
    ensures ByPriorityThenId(out)
  {
    forall i, j | 0 <= i < j < |out| && DependsWithin(out[j], Ids(out[..i]))
      ensures out[i].priority < out[j].priority || (out[i].priority == out[j].priority && out[i].id < out[j].id)
    {
      NotYetPlaced(out, i, j);
      assert GreedyChoice(ts, Ids(out[..i]), out[i]);
      assert out[j].id in Ids(out);
      var k := IndexOf(ts, out[j].id);
      assert ts[k] == out[j] && Candidate(ts[k], Ids(out[..i]));
      assert out[i].id != out[j].id;
    }
  }

  lemma NotYetPlaced(out: seq<Task>, i: nat, j: nat)
    requires UniqueIds(out) && i <= j < |out|
    ensures out[j].id !in Ids(out[..i])
  {
    forall k | 0 <= k < i ensures out[..i][k].id != out[j].id {
      assert out[..i][k] == out[k] && out[k].id != out[j].id;
    }
  }

  /** The canonical order of a valid graph; an invalid one is refused. */
  method TopologicalOrder(ts: seq<Task>) returns (r: Result<seq<Task>, GraphError>)
    ensures r.Ok? <==> ValidGraph(ts)
    ensures r.Ok? ==> CanonicalOrder(ts, r.value)
    ensures r.Ok? ==> ByPriorityThenId(r.value)
  {
    var valid := ValidateTaskGraph(ts);
    if valid.Err? {
      return Err(valid.error);
    }
    var indegree := InitialIndegree(ts);
    var children := ChildrenByDependency(ts);
    var ready := InitialReady(ts, indegree);
    var ordered: seq<Task> := [];
    InitialKahnState(ts, indegree, IdsInOrder(ready));
    assert Ids(ordered) == {};
    while ready != []
      invariant KahnState(ts, indegree, IdsInOrder(ready), Ids(ordered))
      invariant ReadyList(ts, ready)
      invariant Placed(ts, ordered)
      decreases |Ids(ts) - Ids(ordered)|
    {
      var node := ready[0];
      ghost var done := Ids(ordered);
      HeadIsGreedyChoice(ts, indegree, ready, done);
      PlaceOneMore(ts, ordered, node);
      ordered := ordered + [node];
      DependentsAreKids(ts, node.id);
      HeadInGraph(ts, ready, done);
      indegree, ready := ReleaseSorted(ts, node.id, children[node.id], indegree, ready, done);
    }
    assert IdsInOrder([]) == [];
    EverythingRemovable(ts, indegree, Ids(ordered));
    assert CanonicalOrder(ts, ordered);
    GreedyIsByPriorityThenId(ts, ordered);
    return Ok(ordered);
  }

  lemma HeadInGraph(ts: seq<Task>, ready: seq<Task>, done: set<TaskId>)
    requires ready != [] && ReadyList(ts, ready) && ready[0].id !in done
    ensures ready[0].id in Ids(ts)
    ensures |Ids(ts) - (done + {ready[0].id})| < |Ids(ts) - done|
  {
    assert ready[0] in ts;
    var h :| 0 <= h < |ts| && ts[h] == ready[0];
    assert ts[h].id in Ids(ts);
    assert Ids(ts) - done == (Ids(ts) - (done + {ready[0].id})) + {ready[0].id};
  }

  method ReleaseSorted(ts: seq<Task>, node: TaskId, children: seq<Task>, indegree0: map<TaskId, int>, ready0: seq<Task>,
                       ghost done: set<TaskId>)
    returns (indegree: map<TaskId, int>, ready: seq<Task>)
    requires UniqueIds(ts) && KidsOf(ts, node, children)
    requires ready0 != [] && ready0[0].id == node && ReadyList(ts, ready0)
    requires KahnState(ts, indegree0, IdsInOrder(ready0), done)
    ensures KahnState(ts, indegree, IdsInOrder(ready), done + {node})
    ensures ReadyList(ts, ready)
  {
    assert IdsInOrder(ready0) == [node] + IdsInOrder(ready0[1..]);
    var kids := SortReady(children);
    KidsInAnyOrder(ts, node, children, kids);
    indegree, ready := Release(ts, node, kids, indegree0, ready0[1..], done);
  }
}
