/**
 * When a workflow has at most one execution in flight
 * (src/financial_intelligence/application/manage_research_workflow.py, execute and pause).
 */
module WorkflowExclusion {
  import opened Outcomes
  import opened Workflows
  import opened WorkflowStore
  import opened WorkflowOperations
  import opened WorkflowInterleavings
  import ExecutionLoop

  function IdOf(p: Pending): int {
    if p.Executing? then p.running.id else p.record.id
  }

  /** The commit with which an execution ends that found another company under its workflow. */
  predicate EndsInMismatch(p: Pending) {
    p.Committing? && p.operation.Cancel? && p.record.status == Failed
  }

  /** An execution of workflow `id` that has started and whose end is not committed. */
  predicate InFlight(p: Pending, id: int) {
    IdOf(p) == id && (p.Executing? || p.CommittingResult? || EndsInMismatch(p))
  }

  ghost predicate AtMostOne(s: System, id: int) {
    forall i, j :: 0 <= i < j < |s.pending| && InFlight(s.pending[i], id) ==> !InFlight(s.pending[j], id)
  }

  ghost predicate NoneInFlight(s: System, id: int) {
    forall i :: 0 <= i < |s.pending| ==> !InFlight(s.pending[i], id)
  }

  /** The event commits RUNNING for `id`: an execution starts. */
  predicate Starts(s: System, event: Event, id: int) {
    && event.Advance? && event.k < |s.pending|
    && s.pending[event.k].Committing? && s.pending[event.k].operation.Execute?
    && s.pending[event.k].record.id == id && SaveVerdict(s.workflows, s.pending[event.k].record).Ok?
  }

  // ----- What stays in place when one operation moves on -----

  /** Where the operation at position `j` stood before operation `k` was replaced. */
  function Before(k: nat, next: Option<Pending>, j: nat): nat {
    if next.None? && j >= k then j + 1 else j
  }

  lemma ReplacedStays(pending: seq<Pending>, k: nat, next: Option<Pending>, j: nat)
    requires k < |pending| && j < |Replaced(pending, k, next)|
    ensures Before(k, next, j) < |pending|
    ensures Before(k, next, j) == k ==> next == Some(Replaced(pending, k, next)[j])
    ensures Before(k, next, j) != k ==> Replaced(pending, k, next)[j] == pending[Before(k, next, j)]
  {
  }

  lemma OthersRemain(pending: seq<Pending>, k: nat, next: Option<Pending>, b: nat) returns (j: nat)
    requires k < |pending| && b < |pending| && b != k
    ensures j < |Replaced(pending, k, next)| && Replaced(pending, k, next)[j] == pending[b]
  {
    j := if next.None? && b > k then b - 1 else b;
  }

  /** What an advancing operation is replaced by. */
  function NextOf(s: System, k: nat): Option<Pending>
    requires k < |s.pending|
  {
    var p := s.pending[k];
    match p
    case Executing(_) => Some(p)
    case SavingCheckpoint(record, notify) =>
      if (record.id in s.checkpoints && record.version <= s.checkpoints[record.id]) || !notify then None
      else Some(SavingNotice(record))
    case _ => if SaveVerdict(s.workflows, p.record).Ok? then AfterCommit(p) else None
  }

  /** The step commits the record of operation `k`. */
  predicate Commits(s: System, k: nat)
    requires k < |s.pending|
  {
    var p := s.pending[k];
    !p.Executing? && !p.SavingCheckpoint? && SaveVerdict(s.workflows, p.record).Ok?
  }

  lemma AdvancedTo(s: System, k: nat)
    requires k < |s.pending|
    ensures Advanced(s, k).pending == Replaced(s.pending, k, NextOf(s, k))
    ensures Advanced(s, k).workflows ==
              if Commits(s, k) then s.workflows[s.pending[k].record.id := s.pending[k].record] else s.workflows
  {
  }

  // ----- Starts are the only source of executions -----

  /** Replacing an operation by one that is in flight only where the old one was keeps at most one in flight. */
  lemma ReplacedKeepsAtMostOne(s: System, k: nat, next: Option<Pending>, t: System, id: int)
    requires AtMostOne(s, id) && k < |s.pending| && t.pending == Replaced(s.pending, k, next)
    requires next.Some? && InFlight(next.value, id) ==> InFlight(s.pending[k], id) || NoneInFlight(s, id)
    ensures AtMostOne(t, id)
  {
    forall i, j | 0 <= i < j < |t.pending| && InFlight(t.pending[i], id) ensures !InFlight(t.pending[j], id) {
      ReplacedStays(s.pending, k, next, i);
      ReplacedStays(s.pending, k, next, j);
      assert Before(k, next, i) < Before(k, next, j);
    }
  }

  lemma StepKeepsAtMostOne(s: System, event: Event, id: int)
    requires AtMostOne(s, id) && (Starts(s, event, id) ==> NoneInFlight(s, id))
    ensures AtMostOne(Step(s, event), id)
  {
    if event.Advance? && event.k < |s.pending| {
      AdvancedTo(s, event.k);
      ReplacedKeepsAtMostOne(s, event.k, NextOf(s, event.k), Step(s, event), id);
    } else if (event.Complete? || event.Mismatch?) && IsExecuting(s, event.k) {
      ReplacedKeepsAtMostOne(s, event.k, Some(Step(s, event).pending[event.k]), Step(s, event), id);
    }
  }

  lemma OverlappingStart(s: System, event: Event, id: int)
    requires Starts(s, event, id) && !NoneInFlight(s, id)
    ensures !AtMostOne(Step(s, event), id)
  {
    var t, k := Step(s, event), event.k;
    var i :| 0 <= i < |s.pending| && InFlight(s.pending[i], id);
    assert i != k && t.pending[i] == s.pending[i] && t.pending[k] == Executing(s.pending[k].record);
    assert InFlight(t.pending[i], id) && InFlight(t.pending[k], id);
  }

  lemma PlayUpTo(events: seq<Event>, n: nat)
    requires n < |events|
    ensures Play(EMPTY, events[..n + 1]) == Step(Play(EMPTY, events[..n]), events[n])
  {
    assert events[..n + 1][..n] == events[..n];
  }

  /** After every step of the history at most one execution of `id` is in flight. */
  ghost predicate AlwaysAtMostOne(events: seq<Event>, id: int) {
    forall n {:trigger events[..n]} :: 0 <= n <= |events| ==> AtMostOne(Play(EMPTY, events[..n]), id)
  }

  /** No execution of `id` starts while another is in flight. */
  ghost predicate NoOverlap(events: seq<Event>, id: int) {
    forall n {:trigger events[n]} :: 0 <= n < |events| && Starts(Play(EMPTY, events[..n]), events[n], id) ==>
      NoneInFlight(Play(EMPTY, events[..n]), id)
  }

  lemma {:induction false} NoOverlapKeepsAtMostOne(events: seq<Event>, n: nat, id: int)
    requires NoOverlap(events, id) && n <= |events|
    ensures AtMostOne(Play(EMPTY, events[..n]), id)
  {
    if n > 0 {
      NoOverlapKeepsAtMostOne(events, n - 1, id);
      PlayUpTo(events, n - 1);
      assert Starts(Play(EMPTY, events[..n - 1]), events[n - 1], id) ==> NoneInFlight(Play(EMPTY, events[..n - 1]), id);
      hide *;
      StepKeepsAtMostOne(Play(EMPTY, events[..n - 1]), events[n - 1], id);
    }
  }

  /** Over every history: at most one execution of a workflow is ever in flight exactly when no start overlaps one. */
  lemma AtMostOneIffNoOverlap(events: seq<Event>, id: int)
    ensures AlwaysAtMostOne(events, id) <==> NoOverlap(events, id)
  {
    if NoOverlap(events, id) {
      forall n | 0 <= n <= |events| ensures AtMostOne(Play(EMPTY, events[..n]), id) {
        NoOverlapKeepsAtMostOne(events, n, id);
      }
    } else {
      var n :| 0 <= n < |events| && Starts(Play(EMPTY, events[..n]), events[n], id)
        && !NoneInFlight(Play(EMPTY, events[..n]), id);
      OverlappingStart(Play(EMPTY, events[..n]), events[n], id);
      PlayUpTo(events, n);
      assert !AtMostOne(Play(EMPTY, events[..n + 1]), id);
    }
  }

  // ----- What the store tells about the executions in flight -----

  /** The statuses an operation in flight may still commit. */
  predicate Tame(p: Pending) {
    match p
    case Committing(operation, w) =>
      (match operation
       case Execute => w.status == Running
       case Pause => w.status == Paused
       case Cancel => Terminal(w.status)
       case _ => w.status == Ready || Terminal(w.status))
    case Executing(w) => w.status == Running
    case CommittingResult(w, notify) => w.status in Allowed(Running) && w.status != AwaitingApproval
      && (notify ==> Terminal(w.status))
    case SavingCheckpoint(w, notify) => notify ==> Terminal(w.status)
    case SavingNotice(w) => Terminal(w.status)
  }

  function RecordOf(p: Pending): Workflow {
    if p.Executing? then p.running else p.record
  }

  /** The operation is about a stored workflow and has not changed what identifies it. */
  predicate Known(workflows: map<int, Workflow>, p: Pending) {
    IdOf(p) in workflows && SameIdentity(workflows[IdOf(p)], RecordOf(p))
  }

  ghost predicate Orderly(s: System) {
    && (forall id :: id in s.workflows ==> s.workflows[id].id == id)
    && (forall k {:trigger Tame(s.pending[k])} :: 0 <= k < |s.pending| ==> Tame(s.pending[k]))
    && (forall k {:trigger Known(s.workflows, s.pending[k])} :: 0 <= k < |s.pending| ==>
        Known(s.workflows, s.pending[k]))
  }

  lemma KnownAfterCommit(workflows: map<int, Workflow>, record: Workflow, p: Pending)
    requires Known(workflows, p) && record.id in workflows && SameIdentity(workflows[record.id], record)
    ensures Known(workflows[record.id := record], p)
  {
  }

  lemma NextIsOrderly(s: System, k: nat)
    requires Orderly(s) && k < |s.pending| && NextOf(s, k).Some?
    ensures Tame(NextOf(s, k).value) && IdOf(NextOf(s, k).value) == IdOf(s.pending[k])
    ensures RecordOf(NextOf(s, k).value) == RecordOf(s.pending[k])
  {
    assert Tame(s.pending[k]);
  }

  lemma AdvanceKeepsOrderly(s: System, k: nat)
    requires Orderly(s) && k < |s.pending|
    ensures Orderly(Advanced(s, k))
  {
    var p, t, next := s.pending[k], Advanced(s, k), NextOf(s, k);
    AdvancedTo(s, k);
    assert Tame(p) && Known(s.workflows, p);
    forall j | 0 <= j < |t.pending| ensures Tame(t.pending[j]) && Known(t.workflows, t.pending[j]) {
      ReplacedStays(s.pending, k, next, j);
      var b := Before(k, next, j);
      assert Tame(s.pending[b]) && Known(s.workflows, s.pending[b]);
      if b == k {
        NextIsOrderly(s, k);
      }
      if Commits(s, k) {
        KnownAfterCommit(s.workflows, p.record, if b == k then p else s.pending[b]);
      }
    }
  }

  lemma InPlaceKeepsOrderly(s: System, k: nat, p: Pending)
    requires Orderly(s) && k < |s.pending| && Tame(p) && Known(s.workflows, p)
    ensures Orderly(s.(pending := s.pending[k := p]))
  {
    var t := s.(pending := s.pending[k := p]);
    forall j | 0 <= j < |t.pending| ensures Tame(t.pending[j]) && Known(t.workflows, t.pending[j]) {
      assert Tame(s.pending[j]) && Known(s.workflows, s.pending[j]);
    }
  }

  lemma AddedKeepsOrderly(s: System, p: Pending)
    requires Orderly(s) && Tame(p) && Known(s.workflows, p)
    ensures Orderly(s.(pending := s.pending + [p]))
  {
    var t := s.(pending := s.pending + [p]);
    forall j | 0 <= j < |t.pending| ensures Tame(t.pending[j]) && Known(t.workflows, t.pending[j]) {
      if j < |s.pending| {
        assert Tame(s.pending[j]) && Known(s.workflows, s.pending[j]);
      }
    }
  }

  lemma CreatedKeepsOrderly(s: System, w: Workflow)
    requires Orderly(s) && w.id !in s.workflows
    ensures Orderly(s.(workflows := s.workflows[w.id := w]))
  {
    var t := s.(workflows := s.workflows[w.id := w]);
    forall j | 0 <= j < |t.pending| ensures Tame(t.pending[j]) && Known(t.workflows, t.pending[j]) {
      assert Tame(s.pending[j]) && Known(s.workflows, s.pending[j]);
    }
  }

  lemma DecidedIsTame(operation: Operation, w: Workflow)
    requires Decide(operation, w).Commit?
    ensures Tame(Committing(operation, Decide(operation, w).record))
    ensures Decide(operation, w).record.id == w.id && SameIdentity(w, Decide(operation, w).record)
  {
  }

  lemma ResultIsTame(running: Workflow, result: ExecutionLoop.ExecutionResult, pauseRequested: bool)
    requires running.status == Running
    ensures var record := FinishedRecord(running, result, pauseRequested);
            && Tame(CommittingResult(record, !pauseRequested)) && record.id == running.id
               && SameIdentity(running, record)
            && record.version == running.version + 1
  {
  }

  lemma StepKeepsOrderly(s: System, event: Event)
    requires Orderly(s)
    ensures Orderly(Step(s, event))
  {
    match event
    case Create(id, runId, requestId, companyId, planId, plan, required) =>
      if id !in s.workflows {
        CreatedKeepsOrderly(s, NewWorkflow(id, runId, requestId, companyId, planId, plan, required));
      }
    case Read(operation, id) =>
      if id in s.workflows && Decide(operation, s.workflows[id]).Commit? {
        DecidedIsTame(operation, s.workflows[id]);
        AddedKeepsOrderly(s, Committing(operation, Decide(operation, s.workflows[id]).record));
      }
    case Advance(k) =>
      if k < |s.pending| { AdvanceKeepsOrderly(s, k); }
    case Complete(k, result, pauseRequested) =>
      if IsExecuting(s, k) {
        assert Known(s.workflows, s.pending[k]);
        ResultIsTame(s.pending[k].running, result, pauseRequested);
        InPlaceKeepsOrderly(s, k,
            CommittingResult(FinishedRecord(s.pending[k].running, result, pauseRequested), !pauseRequested));
      }
    case Mismatch(k) =>
      if IsExecuting(s, k) {
        assert Known(s.workflows, s.pending[k]);
        InPlaceKeepsOrderly(s, k, Committing(Cancel, MismatchRecord(s.pending[k].running)));
      }
  }

  // ----- A RUNNING record has an execution in flight -----

  /** An execution in flight that began at the version at which the store holds RUNNING. */
  predicate Owns(p: Pending, w: Workflow) {
    InFlight(p, w.id) && RecordOf(p).version == if p.CommittingResult? then w.version + 1 else w.version
  }

  ghost predicate Owned(s: System, id: int) {
    id in s.workflows && s.workflows[id].status == Running ==>
      exists k :: 0 <= k < |s.pending| && Owns(s.pending[k], s.workflows[id])
  }

  /** The execution that owns a RUNNING record is never refused its end. */
  lemma OwnerIsAdmitted(workflows: map<int, Workflow>, p: Pending)
    requires Tame(p) && Known(workflows, p) && !p.Executing?
    requires workflows[IdOf(p)].status == Running && Owns(p, workflows[IdOf(p)])
    ensures SaveVerdict(workflows, p.record).Ok?
  {
  }

  lemma AdvanceKeepsOwned(s: System, k: nat, id: int)
    requires Orderly(s) && Owned(s, id) && k < |s.pending|
    ensures Owned(Advanced(s, k), id)
  {
    var p, t, next := s.pending[k], Advanced(s, k), NextOf(s, k);
    AdvancedTo(s, k);
    assert Tame(p) && Known(s.workflows, p);
    if id in t.workflows && t.workflows[id].status == Running {
      if Commits(s, k) && p.record.id == id {
        assert p.Committing? && p.operation.Execute?;
        assert t.pending[k] == Executing(p.record) && Owns(t.pending[k], t.workflows[id]);
      } else {
        assert s.workflows[id] == t.workflows[id];
        var b :| 0 <= b < |s.pending| && Owns(s.pending[b], s.workflows[id]);
        if b == k {
          assert IdOf(p) == id;
          OwnerStays(s, k);
          assert Owns(t.pending[k], t.workflows[id]);
        } else {
          var j := OthersRemain(s.pending, k, next, b);
          assert Owns(t.pending[j], t.workflows[id]);
        }
      }
    }
  }

  /** An owner that advances without committing is still executing. */
  lemma OwnerStays(s: System, k: nat)
    requires Orderly(s) && k < |s.pending| && !Commits(s, k)
    requires IdOf(s.pending[k]) in s.workflows && s.workflows[IdOf(s.pending[k])].status == Running
    requires Owns(s.pending[k], s.workflows[IdOf(s.pending[k])])
    ensures Advanced(s, k) == s
  {
    assert Tame(s.pending[k]) && Known(s.workflows, s.pending[k]);
    if !s.pending[k].Executing? {
      OwnerIsAdmitted(s.workflows, s.pending[k]);
    }
  }

  lemma StepKeepsOwned(s: System, event: Event, id: int)
    requires Orderly(s) && Owned(s, id)
    ensures Owned(Step(s, event), id)
  {
    var t := Step(s, event);
    if event.Advance? {
      if event.k < |s.pending| { AdvanceKeepsOwned(s, event.k, id); }
    } else if id in s.workflows && s.workflows[id].status == Running {
      var b :| 0 <= b < |s.pending| && Owns(s.pending[b], s.workflows[id]);
      if event.Complete? && IsExecuting(s, event.k) {
        ResultIsTame(s.pending[event.k].running, event.result, event.pauseRequested);
      }
      assert Owns(t.pending[b], t.workflows[id]);
    }
  }

  lemma {:induction false} HistoryIsOrderly(events: seq<Event>, id: int)
    ensures Orderly(Play(EMPTY, events)) && Owned(Play(EMPTY, events), id)
  {
    if events != [] {
      var before := Play(EMPTY, events[..|events| - 1]);
      HistoryIsOrderly(events[..|events| - 1], id);
      StepKeepsOrderly(before, events[|events| - 1]);
      StepKeepsOwned(before, events[|events| - 1], id);
    }
  }

  /** Over every history a workflow that is stored as RUNNING has an execution in flight. */
  lemma RunningIsInFlight(events: seq<Event>, id: int)
    requires id in Play(EMPTY, events).workflows && Play(EMPTY, events).workflows[id].status == Running
    ensures !NoneInFlight(Play(EMPTY, events), id)
  {
    HistoryIsOrderly(events, id);
    var s := Play(EMPTY, events);
    var k :| 0 <= k < |s.pending| && Owns(s.pending[k], s.workflows[id]);
    assert InFlight(s.pending[k], id);
  }

  // ----- Without manual pauses the status decides -----

  /** While an execution is in flight the store holds RUNNING or an end of its workflow. */
  ghost predicate Held(s: System, id: int) {
    !NoneInFlight(s, id) ==> id in s.workflows && Holds(s.workflows[id])
  }

  predicate Holds(w: Workflow) {
    w.status == Running || Terminal(w.status)
  }

  predicate PausesByHand(p: Pending, id: int) {
    p.Committing? && p.operation.Pause? && p.record.id == id
  }

  ghost predicate Unpaused(s: System, id: int) {
    forall k {:trigger PausesByHand(s.pending[k], id)} :: 0 <= k < |s.pending| ==> !PausesByHand(s.pending[k], id)
  }

  ghost predicate Exclusive(s: System, id: int) {
    Orderly(s) && AtMostOne(s, id) && Held(s, id) && Unpaused(s, id)
  }

  /** The event starts an execution although the store holds RUNNING already. */
  predicate StartsOverRunning(s: System, event: Event, id: int) {
    Starts(s, event, id) && id in s.workflows && s.workflows[id].status == Running
  }

  lemma StartNeedsNone(s: System, event: Event, id: int)
    requires Exclusive(s, id) && Starts(s, event, id) && !StartsOverRunning(s, event, id)
    ensures NoneInFlight(s, id)
  {
    assert Tame(s.pending[event.k]) && Known(s.workflows, s.pending[event.k]);
  }

  /** An operation in flight after an advance was in flight before, or has just started. */
  lemma InFlightBefore(s: System, k: nat, id: int, j: nat) returns (b: nat)
    requires k < |s.pending| && j < |Advanced(s, k).pending| && InFlight(Advanced(s, k).pending[j], id)
    requires !Starts(s, Advance(k), id)
    ensures b < |s.pending| && InFlight(s.pending[b], id) && Advanced(s, k).pending[j] == s.pending[b]
    ensures b == k ==> s.pending[k].Executing?
  {
    AdvancedTo(s, k);
    ReplacedStays(s.pending, k, NextOf(s, k), j);
    b := Before(k, NextOf(s, k), j);
  }

  lemma AdvanceKeepsHeld(s: System, k: nat, id: int)
    requires Exclusive(s, id) && k < |s.pending|
    ensures Held(Advanced(s, k), id)
  {
    var p, t := s.pending[k], Advanced(s, k);
    AdvancedTo(s, k);
    assert Tame(p) && Known(s.workflows, p) && !PausesByHand(p, id);
    if !Starts(s, Advance(k), id) && !NoneInFlight(t, id) {
      var j :| 0 <= j < |t.pending| && InFlight(t.pending[j], id);
      var b := InFlightBefore(s, k, id, j);
      assert !NoneInFlight(s, id);
      if Commits(s, k) && p.record.id == id {
        NotBothInFlight(s, k, b, id);
      }
    }
  }

  lemma NotBothInFlight(s: System, k: nat, b: nat, id: int)
    requires AtMostOne(s, id) && k < |s.pending| && b < |s.pending| && b != k && InFlight(s.pending[b], id)
    ensures !InFlight(s.pending[k], id)
  {
  }

  lemma AdvanceKeepsUnpaused(s: System, k: nat, id: int)
    requires Unpaused(s, id) && k < |s.pending|
    ensures Unpaused(Advanced(s, k), id)
  {
    var t := Advanced(s, k);
    AdvancedTo(s, k);
    forall j | 0 <= j < |t.pending| ensures !PausesByHand(t.pending[j], id) {
      ReplacedStays(s.pending, k, NextOf(s, k), j);
      assert !PausesByHand(s.pending[Before(k, NextOf(s, k), j)], id);
    }
  }

  lemma StepKeepsHeld(s: System, event: Event, id: int)
    requires Exclusive(s, id) && !(event.Read? && event.operation.Pause? && event.id == id)
    ensures Held(Step(s, event), id) && Unpaused(Step(s, event), id)
  {
    var t := Step(s, event);
    if event.Advance? {
      if event.k < |s.pending| {
        AdvanceKeepsHeld(s, event.k, id);
        AdvanceKeepsUnpaused(s, event.k, id);
      }
    } else {
      if event.Read? && |t.pending| > |s.pending| {
        DecidedIsTame(event.operation, s.workflows[event.id]);
        ReadIsNotInFlight(event.operation, s.workflows[event.id], id);
      }
      forall j | 0 <= j < |t.pending|
        ensures !PausesByHand(t.pending[j], id)
                && (InFlight(t.pending[j], id) ==> j < |s.pending| && InFlight(s.pending[j], id))
      {
        assert j < |s.pending| ==> !PausesByHand(s.pending[j], id);
      }
    }
  }

  lemma ReadIsNotInFlight(operation: Operation, w: Workflow, id: int)
    requires Decide(operation, w).Commit?
    ensures !InFlight(Committing(operation, Decide(operation, w).record), id)
  {
  }

  lemma StepKeepsExclusive(s: System, event: Event, id: int)
    requires Exclusive(s, id) && !StartsOverRunning(s, event, id)
    requires !(event.Read? && event.operation.Pause? && event.id == id)
    ensures Exclusive(Step(s, event), id)
  {
    StepKeepsHeld(s, event, id);
    StepKeepsOrderly(s, event);
    if Starts(s, event, id) {
      StartNeedsNone(s, event, id);
    }
    StepKeepsAtMostOne(s, event, id);
  }

  /** Nobody pauses workflow `id` by hand. */
  ghost predicate NeverPausedByHand(events: seq<Event>, id: int) {
    forall n {:trigger events[n]} :: 0 <= n < |events| ==>
      !(events[n].Read? && events[n].operation.Pause? && events[n].id == id)
  }

  /** Every start of an execution of `id` is committed over a status other than RUNNING. */
  ghost predicate NeverStartsOverRunning(events: seq<Event>, id: int) {
    forall n {:trigger events[n]} :: 0 <= n < |events| ==> !StartsOverRunning(Play(EMPTY, events[..n]), events[n], id)
  }

  lemma {:induction false} GuardKeepsExclusive(events: seq<Event>, n: nat, id: int)
    requires NeverPausedByHand(events, id) && NeverStartsOverRunning(events, id) && n <= |events|
    ensures Exclusive(Play(EMPTY, events[..n]), id)
  {
    if n > 0 {
      GuardKeepsExclusive(events, n - 1, id);
      PlayUpTo(events, n - 1);
      assert !(events[n - 1].Read? && events[n - 1].operation.Pause? && events[n - 1].id == id);
      assert !StartsOverRunning(Play(EMPTY, events[..n - 1]), events[n - 1], id);
      hide *;
      StepKeepsExclusive(Play(EMPTY, events[..n - 1]), events[n - 1], id);
    }
  }

  /**
   * Without manual pauses of a workflow at most one of its executions is ever in flight if and only if
   * none of its starts is committed while the store holds RUNNING, over every interleaving: the status
   * at the commit alone decides. With manual pauses StaleExecutionCommits shows two in flight.
   */
  lemma AtMostOneInFlightIff(events: seq<Event>, id: int)
    requires NeverPausedByHand(events, id)
    ensures AlwaysAtMostOne(events, id) <==> NeverStartsOverRunning(events, id)
  {
    if NeverStartsOverRunning(events, id) {
      forall n | 0 <= n <= |events| ensures AtMostOne(Play(EMPTY, events[..n]), id) {
        GuardKeepsExclusive(events, n, id);
      }
    } else {
      var n :| 0 <= n < |events| && StartsOverRunning(Play(EMPTY, events[..n]), events[n], id);
      RunningIsInFlight(events[..n], id);
      assert !NoOverlap(events, id);
      AtMostOneIffNoOverlap(events, id);
    }
  }
}
