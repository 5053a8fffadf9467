/**
 * Logs of lifecycle steps: each step is one validated status change of one task
 * (src/financial_intelligence/domain/orchestration/tasks.py, with_status).
 */
module TaskSteps {
  import opened Outcomes
  import opened ResearchTasks

  /** The task at position `at` takes a step to `to`; `retry` says that a retry is authorised. */
  datatype Step = Step(at: nat, to: TaskStatus, retry: bool)

  ghost function Take(ts: seq<Task>, step: Step): Option<seq<Task>> {
    if step.at < |ts| then
      match WithStatus(ts[step.at], step.to, step.retry)
      case Ok(t) => Some(ts[step.at := t])
      case Err(_) => None
    else None
  }

  /** The tasks after the steps, or nothing when one of them is refused. */
  ghost function Replay(ts: seq<Task>, steps: seq<Step>): Option<seq<Task>> {
    if steps == [] then Some(ts)
    else
      match Replay(ts, steps[..|steps| - 1])
      case Some(us) => Take(us, steps[|steps| - 1])
      case None => None
  }

  /** How often the steps start a task, or the task at position `i`. */
  ghost function Starts(steps: seq<Step>): nat {
    if steps == [] then 0
    else Starts(steps[..|steps| - 1]) + (if steps[|steps| - 1].to.Running? then 1 else 0)
  }

  ghost function StartsOf(steps: seq<Step>, i: nat): nat {
    if steps == [] then 0
    else StartsOf(steps[..|steps| - 1], i)
         + (if steps[|steps| - 1].to.Running? && steps[|steps| - 1].at == i then 1 else 0)
  }

  /** Nothing is started and nothing retried. */
  ghost predicate OnlySettles(steps: seq<Step>) {
    forall k :: 0 <= k < |steps| ==> !steps[k].to.Running? && !steps[k].retry
  }

  lemma ReplayOneMore(ts: seq<Task>, steps: seq<Step>, step: Step)
    requires Replay(ts, steps).Some?
    ensures Replay(ts, steps + [step]) == Take(Replay(ts, steps).value, step)
  {
    assert (steps + [step])[..|steps|] == steps;
  }

  lemma {:induction false} ReplayAppend(ts: seq<Task>, a: seq<Step>, b: seq<Step>)
    requires Replay(ts, a).Some?
    ensures Replay(ts, a + b) == Replay(Replay(ts, a).value, b)
  {
    if b == [] {
      assert a + b == a;
    } else {
      var shorter := b[..|b| - 1];
      assert (a + b)[..|a + b| - 1] == a + shorter;
      ReplayAppend(ts, a, shorter);
    }
  }

  lemma {:induction false} ReplayKeepsLength(ts: seq<Task>, steps: seq<Step>)
    requires Replay(ts, steps).Some?
    ensures |Replay(ts, steps).value| == |ts|
  {
    if steps != [] {
      ReplayKeepsLength(ts, steps[..|steps| - 1]);
    }
  }

  lemma {:induction false} PrefixReplays(ts: seq<Task>, steps: seq<Step>, k: nat)
    requires Replay(ts, steps).Some? && k <= |steps|
    ensures Replay(ts, steps[..k]).Some?
  {
    if k < |steps| {
      PrefixReplays(ts, steps[..|steps| - 1], k);
      assert steps[..|steps| - 1][..k] == steps[..k];
    } else {
      assert steps[..k] == steps;
    }
  }

  /** The status the task of step `k` has when that step is taken. */
  ghost function StatusBefore(ts: seq<Task>, steps: seq<Step>, k: nat): TaskStatus
    requires k < |steps| && Replay(ts, steps[..k]).Some? && steps[k].at < |Replay(ts, steps[..k]).value|
  {
    Replay(ts, steps[..k]).value[steps[k].at].status
  }

  /** Every replayed step is in the transition table, and FAILED to READY only as an authorised retry. */
  lemma StepFollowsTable(ts: seq<Task>, steps: seq<Step>, k: nat)
    requires Replay(ts, steps).Some? && k < |steps|
    ensures Replay(ts, steps[..k]).Some? && steps[k].at < |Replay(ts, steps[..k]).value|
    ensures steps[k].to in AllowedTransitions(StatusBefore(ts, steps, k))
    ensures StatusBefore(ts, steps, k).Failed? && steps[k].to.Ready? ==> steps[k].retry
  {
    PrefixReplays(ts, steps, k + 1);
    PrefixReplays(ts, steps, k);
    assert steps[..k + 1] == steps[..k] + [steps[k]];
    ReplayOneMore(ts, steps[..k], steps[k]);
  }

  /** A task's attempt count grows by one for every time the steps start it; nothing else but its status changes. */
  lemma {:induction false} ReplayCountsStarts(ts: seq<Task>, steps: seq<Step>, i: nat)
    requires Replay(ts, steps).Some? && i < |ts|
    ensures |Replay(ts, steps).value| == |ts|
    ensures Replay(ts, steps).value[i].attemptCount == ts[i].attemptCount + StartsOf(steps, i)
    ensures Replay(ts, steps).value[i].Shape() == ts[i].Shape()
  {
    ReplayKeepsLength(ts, steps);
    if steps != [] {
      var shorter := steps[..|steps| - 1];
      ReplayKeepsLength(ts, shorter);
      ReplayCountsStarts(ts, shorter, i);
    }
  }
}
