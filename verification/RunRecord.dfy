/**
 * What a run leaves behind: its results are the answers of its calls, call by call, and these alone
 * decide how its tasks end (src/financial_intelligence/application/execute_research_plan.py,
 * execute_prepared, _enforce_identity, _result_to_task_status; domain/orchestration/retry.py).
 */
module RunRecord {
  import opened Outcomes
  import opened ResearchTasks
  import opened TaskGraph
  import opened Scheduling
  import opened TaskResults
  import opened PlanExecution
  import opened ExecutionLoop
  import opened RunSafety
  import opened RunProgress
  import opened Resume

  // ----- The two kinds of round -----

  /** A round calls task `i` of the propagated plan, or, for -1, makes no call and no success. */
  ghost predicate RoundDoes(e: Engine, s: State, round: Round, i: int) {
    var p, s' := Propagate(s), round.state;
    if i >= 0 then
      && Good(e.budget, p) && QuietChanges(s.tasks, p.tasks)
      && IsNext(p.tasks, i) && p.tasks[i].attemptCount < p.tasks[i].maxAttempts
      && round == Next(Called(e, p, i))
    else
      && Good(e.budget, s') && QuietChanges(s.tasks, s'.tasks)
      && s'.trace == s.trace && s'.totalAttempts == s.totalAttempts
      && (s'.results == s.results || exists id :: s'.results == s.results + [Violation(id)])
      && s'.warnings == s.warnings + Refusals(round)
  }

  function Refusals(round: Round): seq<Warning> {
    if round.Stop? && round.halt.StartRefused? then [StartRefusal(AttemptsExceeded)] else []
  }

  lemma AttemptCases(e: Engine, s: State, i: nat)
    requires Good(e.budget, s) && IsNext(s.tasks, i)
    requires s.totalAttempts < e.budget.maxTotalAttempts && s.externalCalls < e.budget.maxExternalCalls
    ensures var round := Attempt(e, s, i);
            || (s.tasks[i].attemptCount < s.tasks[i].maxAttempts && round == Next(Called(e, s, i)))
            || (&& QuietChanges(s.tasks, round.state.tasks)
                && round.state.trace == s.trace && round.state.totalAttempts == s.totalAttempts
                && (round.state.results == s.results || round.state.results == s.results + [Violation(s.tasks[i].id)])
                && round.state.warnings == s.warnings + Refusals(round))
  {
    var t := s.tasks[i];
    assert Fits(e.budget, t) && Runnable(s.tasks, t);
    SelectedIsOrderly(s, i);
    NothingChangesQuietly(s.tasks);
    if t.attemptCount >= e.budget.maxAttemptsPerTask {
      UpdateIsQuiet(s.tasks, i, EndWithoutCall(t));
    }
  }

  lemma RoundCases(e: Engine, control: Control, s: State) returns (i: int)
    requires Good(e.budget, s)
    ensures RoundDoes(e, s, PlayRound(e, control, s), i)
  {
    var round, p := PlayRound(e, control, s), Propagate(s);
    var calls := RoundAdvances(e, control, s);
    i := -1;
    NothingChangesQuietly(s.tasks);
    if control.Cancel? {
      SkippingIsQuiet(s.tasks);
    } else if control.Go? && s.totalAttempts < e.budget.maxTotalAttempts
      && s.externalCalls < e.budget.maxExternalCalls {
      PropagationIsQuiet(s.tasks);
      QuietRound(e.budget, s, p);
      var n := NextIndex(p.tasks);
      if 0 <= n < |p.tasks| {
        assert IsNext(p.tasks, n);
        AttemptCases(e, p, n);
        if p.tasks[n].attemptCount < p.tasks[n].maxAttempts && round == Next(Called(e, p, n)) {
          i := n;
        } else {
          QuietChangesCompose(s.tasks, p.tasks, round.state.tasks);
        }
      } else {
        FinalizingIsQuiet(p.tasks);
        QuietChangesCompose(s.tasks, p.tasks, round.state.tasks);
      }
    }
  }

  lemma QuietChangesCompose(a: seq<Task>, b: seq<Task>, c: seq<Task>)
    requires QuietChanges(a, b) && QuietChanges(b, c)
    ensures QuietChanges(a, c)
  {
    forall i | 0 <= i < |a| ensures QuietChange(a[i], c[i]) {
      assert QuietChange(a[i], b[i]) && QuietChange(b[i], c[i]);
    }
  }

  // ----- What a call answers -----

  /** Every reference is about the company, and about a security and a listing of it where it names one. */
  ghost predicate AllOwn(refs: seq<EvidenceRef>, company: Company) {
    forall i :: 0 <= i < |refs| ==>
      && refs[i].company == company.id
      && (refs[i].security == None || refs[i].security.value in company.securities)
      && (refs[i].listing == None || refs[i].listing.value in company.listings)
  }

  /**
   * Call `l` after `before` earlier ones: the executor's answer as it came when all its evidence is the
   * company's own, and otherwise a final identity failure of the task without evidence.
   */
  ghost predicate AnswerKept(e: Engine, before: nat, calls: seq<Call>, l: nat)
    requires l < |calls|
  {
    var answer, task := e.execute(before + l, calls[l].task), calls[l].task;
    calls[l].result ==
      if AllOwn(answer.evidence, e.company) then answer
      else TaskResult(task.id, ResultFailed, [], false, Some(IdentityMismatch))
  }

  /** A failed answer that may be repeated: marked retryable, and none of the permanent errors. */
  predicate MayRepeat(r: TaskResult) {
    && r.status == ResultFailed && r.retryable
    && r.errorCode != Some(IdentityMismatch) && r.errorCode != Some(InvalidInput)
    && r.errorCode != Some(PolicyViolation) && r.errorCode != Some(BlockedDependency)
    && r.errorCode != Some(UnavailableCapability) && r.errorCode != Some(BudgetViolation)
    && r.errorCode != Some(UnknownCapability) && r.errorCode != Some(Cancellation)
  }

  /**
   * What a call makes of its task: SUCCEEDED after SUCCESS or PARTIAL, BLOCKED after BLOCKED, READY again
   * after a failure that may be repeated while all three attempt bounds allow it, and FAILED otherwise.
   */
  lemma CallSettles(e: Engine, s: State, i: nat)
    requires i < |s.tasks|
    ensures var s' := Called(e, s, i);
            var task, call := s'.tasks[i], s'.trace[|s.trace|];
            && |s'.trace| == |s.trace| + 1 && s'.results == s.results + [call.result]
            && call.task == s.tasks[i].(status := Running, attemptCount := s.tasks[i].attemptCount + 1)
            && task == call.task.(status := task.status)
            && (task.status == Succeeded <==> call.result.status == Success || call.result.status == Partial)
            && (task.status == Blocked <==> call.result.status == ResultBlocked)
            && (task.status == Ready <==>
                  && MayRepeat(call.result)
                  && call.task.attemptCount < call.task.maxAttempts
                  && call.task.attemptCount < e.budget.maxAttemptsPerTask
                  && s.totalAttempts + 1 < e.budget.maxTotalAttempts)
            && task.status in {Succeeded, Blocked, Ready, Failed}
  {
  }

  lemma CallIsKept(e: Engine, s: State, i: nat)
    requires i < |s.tasks|
    ensures var s' := Called(e, s, i);
            s'.trace == s.trace + [s'.trace[|s.trace|]] && AnswerKept(e, |s.trace|, [s'.trace[|s.trace|]], 0)
  {
    var running := Started(s.tasks[i]);
    var answer := e.execute(|s.trace|, running);
    assert AllOwn(answer.evidence, e.company) <==>
             forall k :: 0 <= k < |answer.evidence| ==> !ForeignEvidence(answer.evidence[k], e.company);
  }

  // ----- The record of a run so far -----

  predicate IsViolation(r: TaskResult) {
    r.status == ResultFailed && r.evidence == [] && !r.retryable && r.errorCode == Some(BudgetViolation)
  }

  /** The results are those of the calls, each once and in order, with budget violations in between. */
  ghost predicate Interleaves(added: seq<TaskResult>, calls: seq<Call>) {
    if added == [] then calls == []
    else
      var before, last := added[..|added| - 1], added[|added| - 1];
      || (calls != [] && last == calls[|calls| - 1].result && Interleaves(before, calls[..|calls| - 1]))
      || (IsViolation(last) && Interleaves(before, calls))
  }

  /** Call `l` is the next attempt of a task of the plan. */
  ghost predicate Numbered(plan: seq<Task>, calls: seq<Call>, l: nat)
    requires l < |calls|
  {
    var task := calls[l].task;
    exists i :: 0 <= i < |plan| && plan[i].id == task.id
      && task == plan[i].(status := Running, attemptCount := plan[i].attemptCount + CallsTo(task.id, calls[..l]) + 1)
  }

  /** The last call of a task, if there is one. */
  ghost function LastCall(id: TaskId, calls: seq<Call>): Option<Call> {
    if calls == [] then None
    else if calls[|calls| - 1].task.id == id then Some(calls[|calls| - 1])
    else LastCall(id, calls[..|calls| - 1])
  }

  /** How a task stands after its last call, or without one. */
  ghost predicate Decided(planned: Task, t: Task, calls: seq<Call>) {
    && t.Shape() == planned.Shape()
    && match LastCall(t.id, calls)
       case None => t.status == Succeeded ==> planned.status == Succeeded
       case Some(c) =>
         && (t.status == Succeeded <==> c.result.status == Success || c.result.status == Partial)
         && (c.result.status == ResultBlocked ==> t.status == Blocked)
         && (c.result.status == Unavailable ==> t.status == Failed)
         && (c.result.status == ResultFailed && !MayRepeat(c.result) ==> t.status == Failed)
         && (t.status == Pending || t.status == Ready ==> MayRepeat(c.result))
  }

  ghost predicate AllDecided(plan: seq<Task>, ts: seq<Task>, calls: seq<Call>) {
    && |plan| == |ts|
    && forall i {:trigger Decided(plan[i], ts[i], calls)} :: 0 <= i < |ts| ==> Decided(plan[i], ts[i], calls)
  }

  /** A task is called again only after failures that may be repeated. */
  ghost predicate RepeatsAllowed(calls: seq<Call>) {
    forall l, m :: 0 <= l < m < |calls| && calls[l].task.id == calls[m].task.id ==> MayRepeat(calls[l].result)
  }

  ghost predicate AllKept(e: Engine, before: nat, calls: seq<Call>) {
    forall l {:trigger AnswerKept(e, before, calls, l)} :: 0 <= l < |calls| ==> AnswerKept(e, before, calls, l)
  }

  ghost predicate AllNumbered(plan: seq<Task>, calls: seq<Call>) {
    forall l {:trigger Numbered(plan, calls, l)} :: 0 <= l < |calls| ==> Numbered(plan, calls, l)
  }

  /** Everything a run that began at `start` and made `calls` has recorded. */
  ghost predicate Record(e: Engine, start: State, s: State, calls: seq<Call>) {
    && s.trace == start.trace + calls && s.totalAttempts == start.totalAttempts + |calls|
    && start.results <= s.results && Interleaves(s.results[|start.results|..], calls)
    && AllKept(e, |start.trace|, calls) && AllNumbered(start.tasks, calls)
    && AllDecided(start.tasks, s.tasks, calls) && RepeatsAllowed(calls)
    && TasksAdvance(start.tasks, s.tasks, calls)
  }

  /**
   * The warnings are those of the start, one kind for every PARTIAL answer, and the refusal of a start
   * if that ended the run.
   */
  ghost predicate Warned(before: seq<Warning>, after: seq<Warning>, calls: seq<Call>, refused: bool) {
    forall w :: w in after <==>
      || w in before
      || (refused && w == StartRefusal(AttemptsExceeded))
      || exists l :: 0 <= l < |calls| && calls[l].result.status == Partial && w == PartialResult(calls[l].task.id)
  }

  // ----- A round extends the record -----

  lemma KeptOneMore(e: Engine, before: nat, calls: seq<Call>, c: Call)
    requires AllKept(e, before, calls) && AnswerKept(e, before + |calls|, [c], 0)
    ensures AllKept(e, before, calls + [c])
  {
    forall l | 0 <= l < |calls| + 1 ensures AnswerKept(e, before, calls + [c], l) {
      if l < |calls| {
        assert AnswerKept(e, before, calls, l);
      }
    }
  }

  lemma NumberedOneMore(plan: seq<Task>, calls: seq<Call>, c: Call, i: nat)
    requires AllNumbered(plan, calls) && i < |plan| && plan[i].id == c.task.id
    requires c.task == plan[i].(status := Running, attemptCount := plan[i].attemptCount + CallsTo(c.task.id, calls) + 1)
    ensures AllNumbered(plan, calls + [c])
  {
    var more := calls + [c];
    forall l | 0 <= l < |more| ensures Numbered(plan, more, l) {
      assert more[..l] == calls[..l];
      if l < |calls| {
        assert Numbered(plan, calls, l);
      } else {
        assert calls[..l] == calls;
      }
    }
  }

  lemma LastCallOneMore(id: TaskId, calls: seq<Call>, c: Call)
    ensures LastCall(id, calls + [c]) == if c.task.id == id then Some(c) else LastCall(id, calls)
  {
    assert (calls + [c])[..|calls|] == calls;
  }

  lemma {:induction false} CalledHasLast(calls: seq<Call>, l: nat) returns (m: nat)
    requires l < |calls|
    ensures l <= m < |calls| && calls[m].task.id == calls[l].task.id
    ensures LastCall(calls[l].task.id, calls) == Some(calls[m])
  {
    var n := |calls| - 1;
    if calls[n].task.id == calls[l].task.id {
      m := n;
    } else {
      m := CalledHasLast(calls[..n], l);
    }
  }

  lemma RepeatOneMore(planned: Task, t: Task, calls: seq<Call>, c: Call)
    requires RepeatsAllowed(calls) && Decided(planned, t, calls) && t.Unsettled() && c.task.id == t.id
    ensures RepeatsAllowed(calls + [c])
  {
    var more := calls + [c];
    forall l, m | 0 <= l < m < |more| && more[l].task.id == more[m].task.id ensures MayRepeat(more[l].result) {
      if m == |calls| {
        var n := CalledHasLast(calls, l);
        assert MayRepeat(calls[n].result);
      }
    }
  }

  lemma QuietKeepsDecided(plan: seq<Task>, a: seq<Task>, b: seq<Task>, calls: seq<Call>)
    requires AllDecided(plan, a, calls) && QuietChanges(a, b)
    ensures AllDecided(plan, b, calls)
  {
    forall i | 0 <= i < |b| ensures Decided(plan[i], b[i], calls) {
      assert Decided(plan[i], a[i], calls) && QuietChange(a[i], b[i]);
      SameMaxAttempts(a[i], b[i]);
    }
  }

  lemma CallKeepsDecided(plan: seq<Task>, e: Engine, s: State, calls: seq<Call>, i: nat)
    requires UniqueIds(s.tasks) && i < |s.tasks| && AllDecided(plan, s.tasks, calls)
    ensures var s' := Called(e, s, i);
            AllDecided(plan, s'.tasks, calls + [s'.trace[|s.trace|]])
  {
    var s' := Called(e, s, i);
    var c := s'.trace[|s.trace|];
    CallSettles(e, s, i);
    forall k | 0 <= k < |s'.tasks| ensures Decided(plan[k], s'.tasks[k], calls + [c]) {
      assert Decided(plan[k], s.tasks[k], calls);
      LastCallOneMore(s'.tasks[k].id, calls, c);
      if k != i {
        assert s.tasks[k].id != s.tasks[i].id;
      }
    }
  }

  lemma InterleavesOneMore(added: seq<TaskResult>, calls: seq<Call>, c: Call)
    requires Interleaves(added, calls)
    ensures Interleaves(added + [c.result], calls + [c])
  {
    assert (added + [c.result])[..|added|] == added && (calls + [c])[..|calls|] == calls;
  }

  lemma ViolationOneMore(added: seq<TaskResult>, calls: seq<Call>, id: TaskId)
    requires Interleaves(added, calls)
    ensures Interleaves(added + [Violation(id)], calls)
  {
    assert (added + [Violation(id)])[..|added|] == added;
  }

  /** A quiet round adds at most a budget violation. */
  lemma QuietExtends(e: Engine, start: State, s: State, s': State, calls: seq<Call>)
    requires Record(e, start, s, calls) && QuietChanges(s.tasks, s'.tasks)
    requires s'.trace == s.trace && s'.totalAttempts == s.totalAttempts
    requires s'.results == s.results || exists id :: s'.results == s.results + [Violation(id)]
    ensures Record(e, start, s', calls)
  {
    QuietKeepsDecided(start.tasks, s.tasks, s'.tasks, calls);
    QuietAdvance(start.tasks, s.tasks, s'.tasks, calls);
    var n := |start.results|;
    if s'.results != s.results {
      var id :| s'.results == s.results + [Violation(id)];
      ViolationOneMore(s.results[n..], calls, id);
      assert s'.results[n..] == s.results[n..] + [Violation(id)];
    }
  }

  lemma QuietAdvance(a: seq<Task>, b: seq<Task>, c: seq<Task>, calls: seq<Call>)
    requires TasksAdvance(a, b, calls) && QuietChanges(b, c)
    ensures TasksAdvance(a, c, calls)
  {
    forall i | 0 <= i < |a| ensures TaskAdvances(a[i], c[i], calls) {
      assert TaskAdvances(a[i], b[i], calls) && QuietChange(b[i], c[i]);
    }
  }

  lemma CallAdvance(a: seq<Task>, e: Engine, s: State, calls: seq<Call>, i: nat)
    requires UniqueIds(s.tasks) && i < |s.tasks| && s.tasks[i].Unsettled() && TasksAdvance(a, s.tasks, calls)
    ensures var s' := Called(e, s, i);
            TasksAdvance(a, s'.tasks, calls + [s'.trace[|s.trace|]])
  {
    var s' := Called(e, s, i);
    var c := s'.trace[|s.trace|];
    CallSettles(e, s, i);
    forall k | 0 <= k < |a| ensures TaskAdvances(a[k], s'.tasks[k], calls + [c]) {
      assert TaskAdvances(a[k], s.tasks[k], calls);
      SameMaxAttempts(a[k], s.tasks[k]);
      CallsToAppend(a[k].id, calls, [c]);
      assert [c][..0] == [];
      if k != i {
        assert s.tasks[k].id != s.tasks[i].id;
      }
    }
  }

  lemma CallExtends(e: Engine, start: State, s: State, calls: seq<Call>, i: nat)
    requires Record(e, start, s, calls) && UniqueIds(s.tasks) && i < |s.tasks| && s.tasks[i].Unsettled()
    ensures var s' := Called(e, s, i);
            Record(e, start, s', calls + [s'.trace[|s.trace|]])
  {
    var s', n := Called(e, s, i), |start.results|;
    var c := s'.trace[|s.trace|];
    CallSettles(e, s, i);
    CallIsKept(e, s, i);
    assert Decided(start.tasks[i], s.tasks[i], calls) && TaskAdvances(start.tasks[i], s.tasks[i], calls);
    SameMaxAttempts(start.tasks[i], s.tasks[i]);
    KeptOneMore(e, |start.trace|, calls, c);
    StartedFromPlan(start.tasks[i], s.tasks[i], calls);
    NumberedOneMore(start.tasks, calls, c, i);
    RepeatOneMore(start.tasks[i], s.tasks[i], calls, c);
    CallKeepsDecided(start.tasks, e, s, calls, i);
    CallAdvance(start.tasks, e, s, calls, i);
    InterleavesOneMore(s.results[n..], calls, c);
    assert s'.results[n..] == s.results[n..] + [c.result];
    assert s'.trace == start.trace + (calls + [c]);
  }

  lemma StartedFromPlan(planned: Task, t: Task, calls: seq<Call>)
    requires TaskAdvances(planned, t, calls)
    ensures t.(status := Running, attemptCount := t.attemptCount + 1)
            == planned.(status := Running, attemptCount := planned.attemptCount + CallsTo(planned.id, calls) + 1)
  {
    assert t == t.Shape().(status := t.status, attemptCount := t.attemptCount);
    assert planned == planned.Shape().(status := planned.status, attemptCount := planned.attemptCount);
  }

  lemma {:induction false} QuietWarns(before: seq<Warning>, a: seq<Warning>, round: Round, calls: seq<Call>)
    requires Warned(before, a, calls, false)
    ensures Warned(before, a + Refusals(round), calls, round.Stop? && round.halt.StartRefused?)
  {
  }

  lemma CallWarns(before: seq<Warning>, e: Engine, s: State, calls: seq<Call>, i: nat)
    requires i < |s.tasks| && Warned(before, s.warnings, calls, false)
    ensures var s' := Called(e, s, i);
            Warned(before, s'.warnings, calls + [s'.trace[|s.trace|]], false)
  {
    var s' := Called(e, s, i);
    var c := s'.trace[|s.trace|];
    var more := calls + [c];
    forall w
      ensures w in s'.warnings <==>
                || w in before
                || exists l ::
                     0 <= l < |more| && more[l].result.status == Partial && w == PartialResult(more[l].task.id)
    {
      assert more[|calls|] == c;
      if l :| 0 <= l < |calls| && calls[l].result.status == Partial && w == PartialResult(calls[l].task.id) {
        assert more[l] == calls[l];
      }
    }
  }

  lemma RoundExtends(e: Engine, control: Control, start: State, s: State, calls: seq<Call>) returns (all: seq<Call>)
    requires Good(e.budget, s) && Record(e, start, s, calls) && Warned(start.warnings, s.warnings, calls, false)
    ensures var round := PlayRound(e, control, s);
            && Good(e.budget, round.state) && Record(e, start, round.state, all)
            && Warned(start.warnings, round.state.warnings, all, round.Stop? && round.halt.StartRefused?)
  {
    var round := PlayRound(e, control, s);
    var same := RoundAdvances(e, control, s);
    var i := RoundCases(e, control, s);
    if i >= 0 {
      var p := Propagate(s);
      QuietExtends(e, start, s, p, calls);
      assert Runnable(p.tasks, p.tasks[i]);
      CallExtends(e, start, p, calls, i);
      CallWarns(start.warnings, e, p, calls, i);
      all := calls + [round.state.trace[|s.trace|]];
    } else {
      QuietExtends(e, start, s, round.state, calls);
      QuietWarns(start.warnings, s.warnings, round, calls);
      all := calls;
    }
  }

  lemma {:induction false} RunExtends(e: Engine, poll: nat -> Control, start: State, s: State, calls: seq<Call>,
                                      round: nat, maxRounds: nat) returns (all: seq<Call>)
    requires Good(e.budget, s) && Record(e, start, s, calls) && Warned(start.warnings, s.warnings, calls, false)
    requires round + Work(s.tasks) < maxRounds
    ensures var o := Run(e, poll, s, round, maxRounds);
            Record(e, start, o.state, all) && Warned(start.warnings, o.state.warnings, all, o.halt.StartRefused?)
    decreases maxRounds - round
  {
    WorkBound(e.budget, s.tasks);
    OneRound(e, poll, s, round, maxRounds);
    var control := poll(round + 1);
    all := RoundExtends(e, control, start, s, calls);
    if PlayRound(e, control, s).Next? {
      RoundReducesWork(e, control, s);
      all := RunExtends(e, poll, start, PlayRound(e, control, s).state, all, round + 1, maxRounds);
    }
  }

  lemma NothingRecorded(e: Engine, s: State)
    ensures Record(e, s, s, []) && Warned(s.warnings, s.warnings, [], false)
  {
    NothingChangesQuietly(s.tasks);
    assert s.results[|s.results|..] == [] && s.trace + [] == s.trace;
    forall i | 0 <= i < |s.tasks|
      ensures TaskAdvances(s.tasks[i], s.tasks[i], []) && Decided(s.tasks[i], s.tasks[i], []) {}
  }

  // ----- Whole runs -----

  /**
   * What a run records, for every executor and control: its results are the seeded ones followed, call by
   * call, by the answers as the identity check left them, with budget violations in between; the last
   * answer decides how a task stands; a task is called again only after a failure that may be repeated;
   * and the warnings are those of the PARTIAL answers and of a refused start.
   */
  lemma RunRecordsItsCalls(e: Engine, poll: nat -> Control, s: State)
    requires Good(e.budget, s)
    ensures var o := RunPlan(e, poll, s);
            && Record(e, s, o.state, NewCalls(s, o))
            && Warned(s.warnings, o.state.warnings, NewCalls(s, o), o.halt.StartRefused?)
  {
    var o := RunPlan(e, poll, s);
    WorkBound(e.budget, s.tasks);
    NothingRecorded(e, s);
    var all := RunExtends(e, poll, s, s, [], 0, MaxRounds(e.budget, |s.tasks|));
    assert NewCalls(s, o) == all;
  }

  /** The same over any number of resumed segments. */
  lemma SegmentsRecordTheirCalls(e: Engine, s: State, cuts: seq<Interruption>)
    requires Good(e.budget, s) && NoneRunning(s.tasks)
    ensures var o := RunInSegments(e, s, cuts);
            && Record(e, s, o.state, NewCalls(s, o))
            && Warned(s.warnings, o.state.warnings, NewCalls(s, o), o.halt.StartRefused?)
  {
    var o, p := RunInSegments(e, s, cuts), RunPlan(e, Uninterrupted(), s);
    PauseResumeIsTransparent(e, s, cuts);
    RunRecordsItsCalls(e, Uninterrupted(), s);
    forall w ensures w in o.state.warnings <==> w in p.state.warnings {
      DeduplicatedKeeps(o.state.warnings);
      DeduplicatedKeeps(p.state.warnings);
    }
  }

  // ----- Dependencies -----

  lemma {:induction false} SucceededByAnswer(start: set<TaskId>, calls: seq<Call>, d: TaskId)
    requires d in SucceededBy(start, calls)
    ensures || d in start
            || exists l :: 0 <= l < |calls| && calls[l].task.id == d
                           && (calls[l].result.status == Success || calls[l].result.status == Partial)
  {
    if d !in start {
      var n := |calls| - 1;
      if d in SucceededBy(start, calls[..n]) {
        SucceededByAnswer(start, calls[..n], d);
        var l :| 0 <= l < n && calls[..n][l].task.id == d
                 && (calls[..n][l].result.status == Success || calls[..n][l].result.status == Partial);
        assert calls[l] == calls[..n][l];
      } else {
        assert calls[n].task.id == d;
      }
    }
  }

  /**
   * A task proceeds only on success: at every call each dependency had succeeded before the run, or an
   * earlier call of it was answered SUCCESS or PARTIAL; no other answer lets a dependent proceed.
   */
  lemma DependentsNeedSuccess(e: Engine, poll: nat -> Control, s: State, k: nat, d: TaskId)
    requires Good(e.budget, s) && k < |NewCalls(s, RunPlan(e, poll, s))|
    requires d in NewCalls(s, RunPlan(e, poll, s))[k].task.dependencies
    ensures var calls := NewCalls(s, RunPlan(e, poll, s));
            || (exists i :: 0 <= i < |s.tasks| && s.tasks[i].id == d && s.tasks[i].status == Succeeded)
            || exists l :: 0 <= l < k && calls[l].task.id == d
                           && (calls[l].result.status == Success || calls[l].result.status == Partial)
  {
    var calls := NewCalls(s, RunPlan(e, poll, s));
    DependencySafety(e, poll, s);
    assert DependsWithin(calls[k].task, SucceededBy(s.succeeded, calls[..k]));
    SucceededByAnswer(s.succeeded, calls[..k], d);
    if d in s.succeeded {
      var i :| 0 <= i < |s.tasks| && s.tasks[i].status.Succeeded? && s.tasks[i].id == d;
    } else {
      var l :| 0 <= l < k && calls[..k][l].task.id == d
               && (calls[..k][l].result.status == Success || calls[..k][l].result.status == Partial);
      assert calls[l] == calls[..k][l];
    }
  }

  // ----- The evidence of a report -----

  lemma {:induction false} InterleavedIsOwn(e: Engine, before: nat, added: seq<TaskResult>, calls: seq<Call>, k: nat)
    requires Interleaves(added, calls) && AllKept(e, before, calls) && k < |added|
    ensures AllOwn(added[k].evidence, e.company)
  {
    var n := |added| - 1;
    if k < n {
      if calls != [] && added[n] == calls[|calls| - 1].result && Interleaves(added[..n], calls[..|calls| - 1]) {
        FewerKept(e, before, calls);
        InterleavedIsOwn(e, before, added[..n], calls[..|calls| - 1], k);
      } else {
        InterleavedIsOwn(e, before, added[..n], calls, k);
      }
    } else if !IsViolation(added[n]) {
      assert AnswerKept(e, before, calls, |calls| - 1);
    }
  }

  lemma FewerKept(e: Engine, before: nat, calls: seq<Call>)
    requires AllKept(e, before, calls) && calls != []
    ensures AllKept(e, before, calls[..|calls| - 1])
  {
    var fewer := calls[..|calls| - 1];
    forall l | 0 <= l < |fewer| ensures AnswerKept(e, before, fewer, l) {
      assert AnswerKept(e, before, calls, l);
    }
  }

  ghost predicate InResult(results: seq<TaskResult>, k: int, ref: EvidenceRef) {
    0 <= k < |results| && ref in results[k].evidence
  }

  lemma {:induction false} AllEvidenceIff(results: seq<TaskResult>, ref: EvidenceRef)
    ensures ref in AllEvidence(results) <==> exists k :: InResult(results, k, ref)
  {
    if results != [] {
      var n := |results| - 1;
      AllEvidenceIff(results[..n], ref);
      if k :| InResult(results, k, ref) {
        assert k < n ==> InResult(results[..n], k, ref);
      }
      if k :| InResult(results[..n], k, ref) {
        assert InResult(results, k, ref);
      }
      assert ref in results[n].evidence ==> InResult(results, n, ref);
    }
  }

  /**
   * The evidence of a report: every reference comes from a result, no key is repeated, and the key of
   * every reference of every result is there.
   */
  lemma ReportedEvidenceIsComplete(r: Report, o: Outcome)
    requires Reports(r, o)
    ensures forall ref :: ref in r.evidence ==> exists k :: 0 <= k < |r.results| && ref in r.results[k].evidence
    ensures forall k, ref :: InResult(r.results, k, ref) ==>
              exists i :: 0 <= i < |r.evidence| && r.evidence[i].dedupeKey == ref.dedupeKey
    ensures forall i, j :: 0 <= i < j < |r.evidence| ==> r.evidence[i].dedupeKey < r.evidence[j].dedupeKey
  {
    var all := AllEvidence(r.results);
    DedupedEvidenceIsExact(all);
    forall ref | ref in r.evidence ensures exists k :: 0 <= k < |r.results| && ref in r.results[k].evidence {
      var i :| 0 <= i < |r.evidence| && r.evidence[i] == ref;
      assert DedupedEvidence(all)[i] in all;
      AllEvidenceIff(r.results, ref);
      var k :| InResult(r.results, k, ref);
    }
    forall k, ref | InResult(r.results, k, ref)
      ensures exists i :: 0 <= i < |r.evidence| && r.evidence[i].dedupeKey == ref.dedupeKey
    {
      AllEvidenceIff(r.results, ref);
      var m :| 0 <= m < |all| && all[m] == ref;
      assert all[m].dedupeKey in Keys(all);
      var i :| 0 <= i < |r.evidence| && r.evidence[i].dedupeKey == ref.dedupeKey;
    }
  }

  lemma OneOfOwn(refs: seq<EvidenceRef>, company: Company, ref: EvidenceRef)
    requires AllOwn(refs, company) && ref in refs
    ensures ref.company == company.id
    ensures ref.security == None || ref.security.value in company.securities
    ensures ref.listing == None || ref.listing.value in company.listings
  {
    var i :| 0 <= i < |refs| && refs[i] == ref;
  }

  /**
   * No result that a run adds, and no reference of its report that the seeded results did not bring,
   * names another company, or a security or listing that is not the company's.
   */
  lemma OnlyOwnEvidenceIsAdded(e: Engine, poll: nat -> Control, s: State, r: Report)
    requires Good(e.budget, s) && Reports(r, RunPlan(e, poll, s))
    ensures |s.results| <= |r.results| && r.results[..|s.results|] == s.results
    ensures forall k, i :: |s.results| <= k < |r.results| && 0 <= i < |r.results[k].evidence| ==>
              var ref := r.results[k].evidence[i];
              && ref.company == e.company.id
              && (ref.security == None || ref.security.value in e.company.securities)
              && (ref.listing == None || ref.listing.value in e.company.listings)
    ensures forall ref :: ref in r.evidence ==>
              || (exists k :: 0 <= k < |s.results| && ref in s.results[k].evidence)
              || (&& ref.company == e.company.id
                  && (ref.security == None || ref.security.value in e.company.securities)
                  && (ref.listing == None || ref.listing.value in e.company.listings))
  {
    RunRecordsItsCalls(e, poll, s);
    var o, n := RunPlan(e, poll, s), |s.results|;
    var calls, added := NewCalls(s, o), o.state.results[n..];
    hide RunPlan, Good, AllDecided, AllNumbered, RepeatsAllowed, TasksAdvance, Warned;
    forall k | n <= k < |r.results| ensures AllOwn(r.results[k].evidence, e.company) {
      InterleavedIsOwn(e, |s.trace|, added, calls, k - n);
      assert added[k - n] == r.results[k];
    }
    ReportedEvidenceIsComplete(r, o);
    forall ref | ref in r.evidence
      ensures || (exists k :: 0 <= k < n && ref in s.results[k].evidence)
              || (&& ref.company == e.company.id
                  && (ref.security == None || ref.security.value in e.company.securities)
                  && (ref.listing == None || ref.listing.value in e.company.listings))
    {
      var k :| 0 <= k < |r.results| && ref in r.results[k].evidence;
      if k < n {
        assert s.results[k] == r.results[k];
      } else {
        OneOfOwn(r.results[k].evidence, e.company, ref);
      }
    }
  }
}
