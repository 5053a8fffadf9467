/**
 * Plans: every construction validates the task graph and re-sorts the tasks
 * (src/financial_intelligence/domain/orchestration/plan.py).
 */
module ResearchPlans {
  import opened Outcomes
  import opened ResearchTasks
  import opened TaskGraph
  import opened TopologicalOrder

  datatype PlanError = NoTasks | InvalidGraph(error: GraphError)

  /** Validates, then validates and sorts again, as the plan constructor does. */
  method MakePlan(ts: seq<Task>) returns (r: Result<seq<Task>, PlanError>)
    ensures r.Ok? <==> ts != [] && ValidGraph(ts)
    ensures r.Ok? ==> SameTasks(ts, r.value) && ValidPlan(r.value) && ByPriorityThenId(r.value)
  {
    if ts == [] {
      return Err(NoTasks);
    }
    var valid := ValidateTaskGraph(ts);
    if valid.Err? {
      return Err(InvalidGraph(valid.error));
    }
    var ordered := TopologicalOrder.TopologicalOrder(ts);
    CanonicalIsPlan(ts, ordered.value);
    return Ok(ordered.value);
  }

  lemma CanonicalIsPlan(ts: seq<Task>, out: seq<Task>)
    requires ts != [] && ValidGraph(ts) && CanonicalOrder(ts, out)
    ensures ValidPlan(out)
  {
    GreedyForAnyArrangement(ts, out);
    assert ts[0].id in Ids(out);
    var rank :| Ranked(ts, rank);
    forall i | 0 <= i < |out|
      ensures DependsWithin(out[i], Ids(out)) && Distinct(out[i].dependencies) && RanksAbove(out[i], rank)
    {
      assert out[i].id in Ids(out);
      var k := IndexOf(ts, out[i].id);
      assert ts[k] == out[i];
      assert DependsWithin(ts[k], Ids(ts)) && Distinct(ts[k].dependencies) && RanksAbove(ts[k], rank);
    }
    assert Ranked(out, rank);
  }

  lemma SameShapesSameChoice(a: seq<Task>, b: seq<Task>, i: nat)
    requires SameShapes(a, b) && i < |a| && GreedyChoice(a, Ids(a[..i]), a[i])
    ensures GreedyChoice(b, Ids(b[..i]), b[i])
  {
    SamePrefixIds(a, b, i);
    var placed := Ids(a[..i]);
    ShapeDecidesChoice(a[i], b[i], placed);
    forall j | 0 <= j < |b| && Candidate(b[j], placed) ensures KeyOrder(b[i], b[j]) {
      ShapeDecidesChoice(a[j], b[j], placed);
    }
  }

  lemma SameShapesSameGraph(a: seq<Task>, b: seq<Task>)
    requires SameShapes(a, b) && ValidGraph(a)
    ensures ValidGraph(b)
  {
    SameShapesSameIds(a, b);
    var rank :| Ranked(a, rank);
    forall i | 0 <= i < |b|
      ensures DependsWithin(b[i], Ids(b)) && Distinct(b[i].dependencies) && RanksAbove(b[i], rank)
    {
      ShapeDecidesChoice(a[i], b[i], {});
      assert DependsWithin(a[i], Ids(a)) && Distinct(a[i].dependencies) && RanksAbove(a[i], rank);
    }
    assert Ranked(b, rank);
  }

  /** Changing statuses and attempt counters in place leaves a plan a plan, in the same order. */
  lemma SameShapesSamePlan(a: seq<Task>, b: seq<Task>)
    requires SameShapes(a, b) && ValidPlan(a)
    ensures ValidPlan(b)
  {
    SameShapesSameGraph(a, b);
    forall i | 0 <= i < |b| ensures GreedyChoice(b, Ids(b[..i]), b[i]) {
      assert GreedyChoice(a, Ids(a[..i]), a[i]);
      SameShapesSameChoice(a, b, i);
    }
  }

  /**
   * Replacing the tasks of a plan by any rearrangement of updated copies gives the updated
   * copies back in the old order.
   */
  lemma ResortKeepsPlanOrder(plan: seq<Task>, updated: seq<Task>, given: seq<Task>, sorted: seq<Task>)
    requires ValidPlan(plan) && SameShapes(plan, updated) && SameTasks(given, updated)
    requires SameTasks(given, sorted) && ValidPlan(sorted)
    ensures sorted == updated
  {
    SameShapesSamePlan(plan, updated);
    SameTasksCompose(given, sorted, sorted);
    SameTasksCompose(sorted, given, updated);
    CanonicalOrderIgnoresInputOrder(sorted, updated, sorted, updated);
  }
}
