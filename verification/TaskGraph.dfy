/**
 * Validation of a task graph by Kahn's algorithm
 * (src/financial_intelligence/domain/orchestration/graph.py, validate_task_graph).
 */
module TaskGraph {
  import opened Outcomes
  import opened ResearchTasks
  import opened Sorting

  datatype GraphError = DuplicateId | MissingDependency | SelfDependency | Cycle

  // ----- What a valid graph is -----

  ghost function Ids(ts: seq<Task>): set<TaskId> {
    set i | 0 <= i < |ts| :: ts[i].id
  }

  lemma SetOfIds(ts: seq<Task>)
    ensures (set t | t in ts :: t.id) == Ids(ts)
  {
    forall t | t in ts ensures t.id in Ids(ts) {
      var i :| 0 <= i < |ts| && ts[i] == t;
    }
    forall i | 0 <= i < |ts| ensures ts[i].id in (set t | t in ts :: t.id) {
      assert ts[i] in ts;
    }
  }

  ghost predicate UniqueIds(ts: seq<Task>) {
    forall i, j {:trigger ts[i].id, ts[j].id} :: 0 <= i < j < |ts| ==> ts[i].id != ts[j].id
  }

  ghost predicate DependsWithin(t: Task, ids: set<TaskId>) {
    forall d :: d in t.dependencies ==> d in ids
  }

  ghost predicate ClosedDependencies(ts: seq<Task>) {
    forall i {:trigger DependsWithin(ts[i], Ids(ts))} :: 0 <= i < |ts| ==> DependsWithin(ts[i], Ids(ts))
  }

  ghost predicate NoSelfDependency(ts: seq<Task>) {
    forall i :: 0 <= i < |ts| ==> ts[i].id !in ts[i].dependencies
  }

  ghost predicate Distinct(s: seq<TaskId>) {
    forall i, j :: 0 <= i < j < |s| ==> s[i] != s[j]
  }

  ghost predicate NoRepeatedDependency(ts: seq<Task>) {
    forall i {:trigger Distinct(ts[i].dependencies)} :: 0 <= i < |ts| ==> Distinct(ts[i].dependencies)
  }

  ghost predicate RanksAbove(t: Task, rank: map<TaskId, nat>) {
    forall d :: d in t.dependencies ==> t.id in rank && d in rank && rank[d] < rank[t.id]
  }

  ghost predicate Ranked(ts: seq<Task>, rank: map<TaskId, nat>) {
    forall i {:trigger RanksAbove(ts[i], rank)} :: 0 <= i < |ts| ==> RanksAbove(ts[i], rank)
  }

  ghost predicate Acyclic(ts: seq<Task>) {
    exists rank :: Ranked(ts, rank)
  }

  ghost predicate ValidGraph(ts: seq<Task>) {
    && UniqueIds(ts)
    && ClosedDependencies(ts)
    && NoRepeatedDependency(ts)
    && Acyclic(ts)
  }

  // ----- Counting unmet dependencies -----

  ghost function Elements(s: seq<TaskId>): set<TaskId> {
    set x | x in s
  }

  lemma {:induction false} DistinctCount(s: seq<TaskId>)
    ensures |Elements(s)| <= |s|
    ensures |Elements(s)| == |s| <==> Distinct(s)
  {
    if s == [] {
      assert Elements(s) == {};
    } else {
      var p, x := s[..|s| - 1], s[|s| - 1];
      DistinctCount(p);
      assert s == p + [x];
      if x in p {
        assert Elements(s) == Elements(p);
        var i :| 0 <= i < |p| && p[i] == x;
        assert s[i] == s[|s| - 1];
      } else {
        assert Elements(s) == Elements(p) + {x};
        assert Distinct(s) <==> Distinct(p) by {
          if Distinct(s) {
            forall i, j | 0 <= i < j < |p| ensures p[i] != p[j] { assert s[i] != s[j]; }
          }
        }
      }
    }
  }

  ghost function MetCount(t: Task, met: set<TaskId>): nat {
    |Elements(t.dependencies) * met|
  }

  /** Every listed dependency is met once, exactly when none repeats and all are met. */
  lemma FullyMet(t: Task, met: set<TaskId>)
    ensures MetCount(t, met) <= |t.dependencies|
    ensures MetCount(t, met) == |t.dependencies| <==>
            Distinct(t.dependencies) && DependsWithin(t, met)
  {
    var deps := Elements(t.dependencies);
    DistinctCount(t.dependencies);
    SubsetSize(deps * met, deps);
    if DependsWithin(t, met) {
      forall d | d in t.dependencies ensures d in met {}
      assert deps <= met;
      assert deps * met == deps;
    } else {
      var d :| d in t.dependencies && d !in met;
      assert d in deps && d !in deps * met;
    }
  }

  lemma {:induction false} SubsetSize(a: set<TaskId>, b: set<TaskId>)
    requires a <= b
    ensures |a| <= |b|
    ensures |a| == |b| ==> a == b
  {
    assert b == a + (b - a);
    assert |b| == |a| + |b - a|;
  }

  lemma MetOneMore(t: Task, met: set<TaskId>, node: TaskId)
    requires node !in met
    ensures MetCount(t, met + {node}) == MetCount(t, met) + (if node in t.dependencies then 1 else 0)
  {
    var deps := Elements(t.dependencies);
    if node in t.dependencies {
      assert deps * (met + {node}) == deps * met + {node};
    } else {
      assert deps * (met + {node}) == deps * met;
    }
  }

  ghost function Indegree(t: Task, met: set<TaskId>): int {
    |t.dependencies| - MetCount(t, met)
  }

  lemma UniqueIdsCount(ts: seq<Task>)
    requires UniqueIds(ts)
    ensures |Ids(ts)| == |ts|
  {
    var ids := seq(|ts|, i requires 0 <= i < |ts| => ts[i].id);
    DistinctCount(ids);
    assert Elements(ids) == Ids(ts) by {
      forall x | x in Ids(ts) ensures x in Elements(ids) {
        assert ids[IndexOf(ts, x)] == x;
      }
    }
  }

  /** In a ranked graph some task outside `met` has all its dependencies met. */
  lemma {:induction false} LowestUnmet(ts: seq<Task>, rank: map<TaskId, nat>, met: set<TaskId>, i: nat)
    returns (low: nat)
    requires ClosedDependencies(ts) && Ranked(ts, rank)
    requires i < |ts| && ts[i].id !in met
    ensures low < |ts| && ts[low].id !in met && DependsWithin(ts[low], met)
    decreases if ts[i].id in rank then rank[ts[i].id] else 0
  {
    if d :| d in ts[i].dependencies && d !in met {
      assert DependsWithin(ts[i], Ids(ts)) && RanksAbove(ts[i], rank);
      low := LowestUnmet(ts, rank, met, IndexOf(ts, d));
    } else {
      low := i;
    }
  }

  ghost function IndexOf(ts: seq<Task>, id: TaskId): (i: nat)
    requires id in Ids(ts)
    ensures i < |ts| && ts[i].id == id
  {
    var i :| 0 <= i < |ts| && ts[i].id == id;
    i
  }

  // ----- The validator -----

  predicate IdOrder(a: TaskId, b: TaskId) {
    a <= b
  }

  /** The loop state of Kahn's algorithm once the nodes in `done` have been removed. */
  ghost predicate KahnState(ts: seq<Task>, indegree: map<TaskId, int>, queue: seq<TaskId>, done: set<TaskId>) {
    && indegree.Keys == Ids(ts)
    && done <= Ids(ts)
    && (forall i {:trigger Indegree(ts[i], done)} :: 0 <= i < |ts| ==> indegree[ts[i].id] == Indegree(ts[i], done))
    && QueueState(ts, indegree, queue, done)
  }

  ghost predicate QueueState(ts: seq<Task>, indegree: map<TaskId, int>, queue: seq<TaskId>, done: set<TaskId>)
    requires indegree.Keys == Ids(ts)
  {
    && Distinct(queue)
    && (forall x :: x in queue ==> x in Ids(ts) && x !in done)
    && (forall x {:trigger Queued(indegree, queue, done, x)} :: x in Ids(ts) ==> Queued(indegree, queue, done, x))
  }

  /** A node is waiting to be removed, or has been, exactly when it has no unmet dependency. */
  ghost predicate Queued(indegree: map<TaskId, int>, queue: seq<TaskId>, done: set<TaskId>, x: TaskId)
    requires x in indegree
  {
    x in queue || x in done <==> indegree[x] == 0
  }

  method InitialIndegree(ts: seq<Task>) returns (indegree: map<TaskId, int>)
    requires UniqueIds(ts)
    ensures indegree.Keys == Ids(ts)
    ensures forall j :: 0 <= j < |ts| ==> indegree[ts[j].id] == |ts[j].dependencies|
  {
    indegree := ZeroIndegree(ts);
    for i := 0 to |ts|
      invariant indegree.Keys == Ids(ts)
      invariant forall j :: 0 <= j < |ts| ==> indegree[ts[j].id] == if j < i then |ts[j].dependencies| else 0
    {
      indegree := CountDependencies(indegree, ts[i]);
    }
  }

  method ZeroIndegree(ts: seq<Task>) returns (indegree: map<TaskId, int>)
    ensures indegree.Keys == Ids(ts)
    ensures forall x :: x in indegree ==> indegree[x] == 0
  {
    indegree := map t | t in ts :: t.id := 0;
    SetOfIds(ts);
  }

  method CountDependencies(indegree0: map<TaskId, int>, t: Task) returns (indegree: map<TaskId, int>)
    requires t.id in indegree0
    ensures indegree == indegree0[t.id := indegree0[t.id] + |t.dependencies|]
  {
    indegree := indegree0;
    for k := 0 to |t.dependencies|
      invariant indegree == indegree0[t.id := indegree0[t.id] + k]
    {
      indegree := indegree[t.id := indegree[t.id] + 1];
    }
  }

  method InitialQueue(ts: seq<Task>, indegree: map<TaskId, int>) returns (queue: seq<TaskId>)
    requires UniqueIds(ts) && indegree.Keys == Ids(ts)
    ensures QueueState(ts, indegree, queue, {})
  {
    queue := [];
    for i := 0 to |ts|
      invariant Distinct(queue)
      invariant forall x :: x in queue ==> x in Ids(ts[..i])
      invariant forall j :: 0 <= j < i ==> (ts[j].id in queue <==> indegree[ts[j].id] == 0)
    {
      assert ts[..i + 1] == ts[..i] + [ts[i]];
      assert ts[i].id !in Ids(ts[..i]);
      if indegree[ts[i].id] == 0 {
        queue := queue + [ts[i].id];
      }
    }
    assert ts[..|ts|] == ts;
    queue := SortIds(queue);
  }

  method SortIds(queue: seq<TaskId>) returns (r: seq<TaskId>)
    ensures Distinct(queue) ==> Distinct(r)
    ensures forall x :: x in r <==> x in queue
    ensures Ascending(IdOrder, r)
  {
    r := SortBy(IdOrder, queue);
    SortBySorts(IdOrder, queue);
    SameElements(r, queue);
    if Distinct(queue) { PermutedDistinct(queue, r); }
  }

  method AppendSorted(queue: seq<TaskId>, child: TaskId) returns (r: seq<TaskId>)
    requires Distinct(queue)
    ensures child !in queue ==> Distinct(r)
    ensures forall x :: x in r <==> x in queue || x == child
    ensures Ascending(IdOrder, r)
  {
    r := SortIds(queue + [child]);
  }

  lemma PermutedDistinct(a: seq<TaskId>, b: seq<TaskId>)
    requires multiset(a) == multiset(b) && Distinct(a)
    ensures Distinct(b)
  {
    SameElements(a, b);
    DistinctCount(a);
    DistinctCount(b);
    assert Elements(a) == Elements(b);
  }

  ghost function Unmet(t: Task, updated: set<TaskId>, done: set<TaskId>, node: TaskId): int {
    Indegree(t, if t.id in updated then done + {node} else done)
  }

  /** The state while a removal runs: the tasks named in `updated` have already lost `node`. */
  ghost predicate Removing(ts: seq<Task>, updated: set<TaskId>, indegree: map<TaskId, int>, queue: seq<TaskId>,
                           done: set<TaskId>, node: TaskId)
  {
    && indegree.Keys == Ids(ts)
    && (forall j {:trigger Unmet(ts[j], updated, done, node)} ::
          0 <= j < |ts| ==> indegree[ts[j].id] == Unmet(ts[j], updated, done, node))
    && QueueState(ts, indegree, queue, done + {node})
  }

  lemma RemovingUnrelated(ts: seq<Task>, i: nat, updated: set<TaskId>, indegree: map<TaskId, int>, queue: seq<TaskId>,
                          done: set<TaskId>, node: TaskId)
    requires UniqueIds(ts) && i < |ts| && node !in done && node !in ts[i].dependencies
    requires Removing(ts, updated, indegree, queue, done, node)
    ensures Removing(ts, updated + {ts[i].id}, indegree, queue, done, node)
  {
    MetOneMore(ts[i], done, node);
    forall j | 0 <= j < |ts| ensures indegree[ts[j].id] == Unmet(ts[j], updated + {ts[i].id}, done, node) {
      assert indegree[ts[j].id] == Unmet(ts[j], updated, done, node);
      assert j != i ==> ts[j].id != ts[i].id;
    }
  }

  /** A task that still waits for `node` is neither queued nor removed. */
  lemma DependentNotQueued(ts: seq<Task>, i: nat, updated: set<TaskId>, indegree: map<TaskId, int>, queue: seq<TaskId>,
                           done: set<TaskId>, node: TaskId)
    requires i < |ts| && ts[i].id !in updated && node !in done && node in ts[i].dependencies
    requires Removing(ts, updated, indegree, queue, done, node)
    ensures ts[i].id in indegree && indegree[ts[i].id] == Indegree(ts[i], done) != 0
    ensures ts[i].id !in queue && ts[i].id !in done + {node}
  {
    FullyMet(ts[i], done);
    assert indegree[ts[i].id] == Unmet(ts[i], updated, done, node);
    assert Queued(indegree, queue, done + {node}, ts[i].id);
  }

  lemma RemovingDependent(ts: seq<Task>, i: nat, updated: set<TaskId>, indegree: map<TaskId, int>, queue: seq<TaskId>,
                          done: set<TaskId>, node: TaskId, queue': seq<TaskId>)
    requires UniqueIds(ts) && i < |ts| && ts[i].id !in updated && node !in done && node in ts[i].dependencies
    requires Removing(ts, updated, indegree, queue, done, node)
    requires Distinct(queue')
    requires forall x :: x in queue' <==> x in queue || (x == ts[i].id && indegree[x] == 1)
    ensures Removing(ts, updated + {ts[i].id}, indegree[ts[i].id := indegree[ts[i].id] - 1], queue', done, node)
  {
    MetOneMore(ts[i], done, node);
    DependentNotQueued(ts, i, updated, indegree, queue, done, node);
    var child := ts[i].id;
    var indegree' := indegree[child := indegree[child] - 1];
    forall j | 0 <= j < |ts| ensures indegree'[ts[j].id] == Unmet(ts[j], updated + {child}, done, node) {
      assert indegree[ts[j].id] == Unmet(ts[j], updated, done, node);
      assert j != i ==> ts[j].id != child;
    }
    forall x | x in Ids(ts) ensures Queued(indegree', queue', done + {node}, x) {
      assert Queued(indegree, queue, done + {node}, x);
    }
  }

  lemma RemovalComplete(ts: seq<Task>, indegree: map<TaskId, int>, queue: seq<TaskId>, done: set<TaskId>, node: TaskId)
    requires Removing(ts, Ids(ts), indegree, queue, done, node) && done + {node} <= Ids(ts)
    ensures KahnState(ts, indegree, queue, done + {node})
  {
    forall i | 0 <= i < |ts| ensures indegree[ts[i].id] == Indegree(ts[i], done + {node}) {
      assert indegree[ts[i].id] == Unmet(ts[i], Ids(ts), done, node);
    }
  }

  lemma RemovalBegins(ts: seq<Task>, indegree: map<TaskId, int>, queue: seq<TaskId>, done: set<TaskId>, node: TaskId)
    requires KahnState(ts, indegree, [node] + queue, done)
    ensures Removing(ts, {}, indegree, queue, done, node)
    ensures node !in done && node in Ids(ts)
  {
    NodeLeavesQueue(ts, node, indegree, queue, done);
    forall j | 0 <= j < |ts| ensures indegree[ts[j].id] == Unmet(ts[j], {}, done, node) {
      assert indegree[ts[j].id] == Indegree(ts[j], done);
    }
  }

  /** One removal: every task that depends on `node` loses one unmet dependency. */
  method Remove(ts: seq<Task>, node: TaskId, indegree0: map<TaskId, int>, queue0: seq<TaskId>, ghost done: set<TaskId>)
    returns (indegree: map<TaskId, int>, queue: seq<TaskId>)
    requires UniqueIds(ts) && KahnState(ts, indegree0, [node] + queue0, done)
    ensures KahnState(ts, indegree, queue, done + {node})
  {
    indegree, queue := indegree0, queue0;
    RemovalBegins(ts, indegree, queue, done, node);
    assert Ids(ts[..0]) == {};
    for i := 0 to |ts|
      invariant Removing(ts, Ids(ts[..i]), indegree, queue, done, node)
    {
      PrefixGrows(ts, i);
      indegree, queue := RemoveFrom(ts, i, node, indegree, queue, Ids(ts[..i]), done);
    }
    assert ts[..|ts|] == ts;
    RemovalComplete(ts, indegree, queue, done, node);
  }

  method RemoveFrom(ts: seq<Task>, i: nat, node: TaskId, indegree0: map<TaskId, int>, queue0: seq<TaskId>,
                    ghost updated: set<TaskId>, ghost done: set<TaskId>)
    returns (indegree: map<TaskId, int>, queue: seq<TaskId>)
    requires UniqueIds(ts) && i < |ts| && ts[i].id !in updated && node !in done
    requires Removing(ts, updated, indegree0, queue0, done, node)
    ensures Removing(ts, updated + {ts[i].id}, indegree, queue, done, node)
  {
    indegree, queue := indegree0, queue0;
    if node in ts[i].dependencies {
      var child := ts[i].id;
      DependentNotQueued(ts, i, updated, indegree, queue, done, node);
      indegree := indegree[child := indegree[child] - 1];
      if indegree[child] == 0 {
        queue := AppendSorted(queue, child);
      }
      RemovingDependent(ts, i, updated, indegree0, queue0, done, node, queue);
    } else {
      RemovingUnrelated(ts, i, updated, indegree, queue, done, node);
    }
  }

  lemma PrefixGrows(ts: seq<Task>, i: nat)
    requires UniqueIds(ts) && i < |ts|
    ensures Ids(ts[..i + 1]) == Ids(ts[..i]) + {ts[i].id}
    ensures ts[i].id !in Ids(ts[..i])
  {
    assert ts[..i + 1] == ts[..i] + [ts[i]];
    forall x | x in Ids(ts[..i + 1]) ensures x in Ids(ts[..i]) + {ts[i].id} {
      var k := IndexOf(ts[..i + 1], x);
      if k < i { assert ts[..i][k].id == x; }
    }
    forall x | x in Ids(ts[..i]) ensures x in Ids(ts[..i + 1]) {
      var k := IndexOf(ts[..i], x);
      assert ts[..i + 1][k].id == x;
    }
    assert ts[..i + 1][i].id == ts[i].id;
  }

  lemma NodeLeavesQueue(ts: seq<Task>, node: TaskId, indegree: map<TaskId, int>, rest: seq<TaskId>, done: set<TaskId>)
    requires indegree.Keys == Ids(ts) && QueueState(ts, indegree, [node] + rest, done)
    ensures node !in done && node in Ids(ts)
    ensures QueueState(ts, indegree, rest, done + {node})
  {
    var queue := [node] + rest;
    assert queue[0] == node;
    forall i | 0 <= i < |rest| ensures rest[i] != node && rest[i] in queue {
      assert queue[i + 1] == rest[i];
    }
    forall i, j | 0 <= i < j < |rest| ensures rest[i] != rest[j] {
      assert queue[i + 1] != queue[j + 1];
    }
    forall x | x in Ids(ts) ensures Queued(indegree, rest, done + {node}, x) {
      assert Queued(indegree, queue, done, x);
      assert x in queue <==> x == node || x in rest;
    }
  }

  /** The removed nodes carry a rank below `visited` that grows along every dependency. */
  ghost predicate Removed(ts: seq<Task>, done: set<TaskId>, rank: map<TaskId, nat>, visited: nat) {
    && rank.Keys == done
    && (forall x :: x in done ==> rank[x] < visited)
    && (forall i :: 0 <= i < |ts| && ts[i].id in done ==> Distinct(ts[i].dependencies))
    && (forall i :: 0 <= i < |ts| && ts[i].id in done ==> RanksAbove(ts[i], rank))
  }

  lemma RemoveOneMore(ts: seq<Task>, done: set<TaskId>, rank: map<TaskId, nat>, visited: nat, node: nat)
    requires UniqueIds(ts) && Removed(ts, done, rank, visited)
    requires node < |ts| && ts[node].id !in done && Indegree(ts[node], done) == 0
    ensures Removed(ts, done + {ts[node].id}, rank[ts[node].id := visited], visited + 1)
  {
    FullyMet(ts[node], done);
    var done', rank' := done + {ts[node].id}, rank[ts[node].id := visited];
    forall i | 0 <= i < |ts| && ts[i].id in done' ensures RanksAbove(ts[i], rank') {
      if i != node {
        assert RanksAbove(ts[i], rank);
      }
    }
  }

  lemma HeadIsRemovable(ts: seq<Task>, indegree: map<TaskId, int>, queue: seq<TaskId>, done: set<TaskId>,
                        rank: map<TaskId, nat>, visited: nat)
    requires UniqueIds(ts) && queue != [] && KahnState(ts, indegree, queue, done)
    requires Removed(ts, done, rank, visited) && |done| == visited
    ensures visited < |ts|
    ensures |done + {queue[0]}| == visited + 1
    ensures Removed(ts, done + {queue[0]}, rank[queue[0] := visited], visited + 1)
    ensures KahnState(ts, indegree, [queue[0]] + queue[1..], done)
  {
    var node := queue[0];
    assert queue == [node] + queue[1..];
    NodeLeavesQueue(ts, node, indegree, queue[1..], done);
    assert Queued(indegree, queue, done, node);
    assert indegree[node] == Indegree(ts[IndexOf(ts, node)], done);
    RemoveOneMore(ts, done, rank, visited, IndexOf(ts, node));
    UniqueIdsCount(ts);
    SubsetSize(done + {node}, Ids(ts));
  }

  /** Removes nodes of indegree zero until none is left, and counts them. */
  method CountRemovable(ts: seq<Task>) returns (visited: nat)
    requires UniqueIds(ts) && ClosedDependencies(ts)
    ensures visited == |ts| <==> NoRepeatedDependency(ts) && Acyclic(ts)
  {
    var indegree := InitialIndegree(ts);
    var queue := InitialQueue(ts, indegree);
    visited := 0;
    ghost var done: set<TaskId>, rank: map<TaskId, nat> := {}, map[];
    InitialKahnState(ts, indegree, queue);
    while queue != []
      invariant KahnState(ts, indegree, queue, done)
      invariant Removed(ts, done, rank, visited)
      invariant |done| == visited
      decreases |ts| - visited
    {
      var node := queue[0];
      HeadIsRemovable(ts, indegree, queue, done, rank, visited);
      indegree, queue := Remove(ts, node, indegree, queue[1..], done);
      rank, done := rank[node := visited], done + {node};
      visited := visited + 1;
    }
    RemovableVerdict(ts, indegree, done, rank, visited);
  }

  lemma InitialKahnState(ts: seq<Task>, indegree: map<TaskId, int>, queue: seq<TaskId>)
    requires indegree.Keys == Ids(ts) && QueueState(ts, indegree, queue, {})
    requires forall j :: 0 <= j < |ts| ==> indegree[ts[j].id] == |ts[j].dependencies|
    ensures KahnState(ts, indegree, queue, {})
    ensures Removed(ts, {}, map[], 0)
  {
    NothingMet(ts);
  }

  lemma NothingMet(ts: seq<Task>)
    ensures forall i :: 0 <= i < |ts| ==> Indegree(ts[i], {}) == |ts[i].dependencies|
  {
    forall i | 0 <= i < |ts| ensures Indegree(ts[i], {}) == |ts[i].dependencies| {
      assert Elements(ts[i].dependencies) * {} == {};
    }
  }

  lemma RemovableVerdict(ts: seq<Task>, indegree: map<TaskId, int>, done: set<TaskId>, rank: map<TaskId, nat>,
                         visited: nat)
    requires UniqueIds(ts) && ClosedDependencies(ts) && KahnState(ts, indegree, [], done)
    requires Removed(ts, done, rank, visited)
    ensures |done| == |ts| <==> NoRepeatedDependency(ts) && Acyclic(ts)
  {
    UniqueIdsCount(ts);
    SubsetSize(done, Ids(ts));
    if done == Ids(ts) {
      assert Ranked(ts, rank);
    } else if NoRepeatedDependency(ts) && Acyclic(ts) {
      EverythingRemovable(ts, indegree, done);
    }
  }

  /** In a valid graph the algorithm only stops once every task has been removed. */
  lemma EverythingRemovable(ts: seq<Task>, indegree: map<TaskId, int>, done: set<TaskId>)
    requires ValidGraph(ts) && KahnState(ts, indegree, [], done)
    ensures done == Ids(ts)
  {
    if missing :| missing in Ids(ts) && missing !in done {
      var order :| Ranked(ts, order);
      var low := LowestUnmet(ts, order, done, IndexOf(ts, missing));
      assert Distinct(ts[low].dependencies);
      StuckHasUnmet(ts, indegree, done, low);
    }
  }

  lemma StuckHasUnmet(ts: seq<Task>, indegree: map<TaskId, int>, done: set<TaskId>, i: nat)
    requires KahnState(ts, indegree, [], done)
    requires i < |ts| && Distinct(ts[i].dependencies) && DependsWithin(ts[i], done)
    ensures ts[i].id in done
  {
    FullyMet(ts[i], done);
    assert indegree[ts[i].id] == Indegree(ts[i], done);
    assert Queued(indegree, [], done, ts[i].id);
  }

  /** Which check fails first in the scan of dependencies, if any does. */
  method CheckDependencies(ts: seq<Task>) returns (r: Result<(), GraphError>)
    ensures r.Ok? <==> ClosedDependencies(ts) && NoSelfDependency(ts)
    ensures r.Err? ==> r.error == MissingDependency || r.error == SelfDependency
    ensures r == Err(MissingDependency) ==> !ClosedDependencies(ts)
    ensures r == Err(SelfDependency) ==> !NoSelfDependency(ts)
  {
    var byId := set t | t in ts :: t.id;
    assert byId == Ids(ts) by { SetOfIds(ts); }
    for i := 0 to |ts|
      invariant forall j :: 0 <= j < i ==> DependsWithin(ts[j], byId)
      invariant forall j :: 0 <= j < i ==> ts[j].id !in ts[j].dependencies
    {
      var deps := ts[i].dependencies;
      for k := 0 to |deps|
        invariant forall m :: 0 <= m < k ==> deps[m] in byId && deps[m] != ts[i].id
      {
        var dep := deps[k];
        assert dep in ts[i].dependencies;
        if dep !in byId {
          assert !DependsWithin(ts[i], Ids(ts));
          return Err(MissingDependency);
        }
        if dep == ts[i].id {
          return Err(SelfDependency);
        }
      }
    }
    return Ok(());
  }

  method CheckIds(ts: seq<Task>) returns (unique: bool)
    ensures unique <==> UniqueIds(ts)
  {
    var byId: set<TaskId> := {};
    for i := 0 to |ts|
      invariant byId == Ids(ts[..i])
      invariant UniqueIds(ts[..i])
    {
      if ts[i].id in byId {
        assert exists j :: 0 <= j < i && ts[..i][j].id == ts[i].id;
        return false;
      }
      assert ts[..i + 1] == ts[..i] + [ts[i]];
      byId := byId + {ts[i].id};
    }
    assert ts[..|ts|] == ts;
    return true;
  }

  lemma AcyclicHasNoSelf(ts: seq<Task>)
    requires Acyclic(ts)
    ensures NoSelfDependency(ts)
  {
    var rank :| Ranked(ts, rank);
    forall i | 0 <= i < |ts| ensures ts[i].id !in ts[i].dependencies {
      assert RanksAbove(ts[i], rank);
    }
  }

  /** Accepts exactly the valid graphs, and reports the first of the checks that fails. */
  method ValidateTaskGraph(ts: seq<Task>) returns (r: Result<(), GraphError>)
    ensures r.Ok? <==> ValidGraph(ts)
    ensures r == Err(DuplicateId) <==> !UniqueIds(ts)
    ensures r == Err(MissingDependency) ==> !ClosedDependencies(ts)
    ensures r == Err(SelfDependency) ==> !NoSelfDependency(ts)
    ensures r == Err(Cycle) <==>
            && UniqueIds(ts) && ClosedDependencies(ts) && NoSelfDependency(ts)
            && !(NoRepeatedDependency(ts) && Acyclic(ts))
  {
    var unique := CheckIds(ts);
    if !unique {
      return Err(DuplicateId);
    }
    r := CheckDependencies(ts);
    if Acyclic(ts) { AcyclicHasNoSelf(ts); }
    if r.Err? {
      return;
    }
    var visited := CountRemovable(ts);
    if visited != |ts| {
      return Err(Cycle);
    }
  }
}
