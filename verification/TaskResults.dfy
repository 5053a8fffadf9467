/**
 * Results of capability calls, the identity check on their evidence, and the retry policy
 * (src/financial_intelligence/domain/orchestration/results.py, retry.py, evidence.py and
 * src/financial_intelligence/application/execute_research_plan.py).
 */
module TaskResults {
  import opened Outcomes
  import opened ResearchTasks
  import opened ExecutionBudgets
  import opened Sorting

  datatype ResultStatus = Success | Partial | Unavailable | ResultFailed | ResultBlocked

  datatype ErrorCode =
    | IdentityMismatch | InvalidInput | PolicyViolation | BlockedDependency
    | UnavailableCapability | BudgetViolation | UnknownCapability | Cancellation
    | OtherError(code: int)

  /** `dedupeKey` stands for the position of the deduplication key in its order. */
  datatype EvidenceRef = EvidenceRef(company: int, security: Option<int>, listing: Option<int>, dedupeKey: int)

  datatype TaskResult = TaskResult(
    taskId: TaskId,
    status: ResultStatus,
    evidence: seq<EvidenceRef>,
    retryable: bool,
    errorCode: Option<ErrorCode>)

  datatype Company = Company(id: int, securities: set<int>, listings: set<int>)

  /** A PARTIAL outcome counts as success for the task, so its dependents may proceed. */
  function TaskStatusOf(status: ResultStatus): TaskStatus {
    match status
    case Success => Succeeded
    case Partial => Succeeded
    case ResultBlocked => Blocked
    case Unavailable => Failed
    case ResultFailed => Failed
  }

  predicate ForeignEvidence(ref: EvidenceRef, company: Company) {
    || ref.company != company.id
    || (ref.security.Some? && ref.security.value !in company.securities)
    || (ref.listing.Some? && ref.listing.value !in company.listings)
  }

  /** A result whose evidence names another company, security or listing is turned into a final failure. */
  function EnforceIdentity(result: TaskResult, company: Company, running: Task): (r: TaskResult)
    ensures forall i :: 0 <= i < |r.evidence| ==> !ForeignEvidence(r.evidence[i], company)
    ensures (forall i :: 0 <= i < |result.evidence| ==> !ForeignEvidence(result.evidence[i], company)) <==> r == result
    ensures r != result ==>
            TaskStatusOf(r.status) == Failed && !r.retryable && r.evidence == [] && r.taskId == running.id
  {
    if exists i :: 0 <= i < |result.evidence| && ForeignEvidence(result.evidence[i], company)
    then TaskResult(running.id, ResultFailed, [], false, Some(IdentityMismatch))
    else result
  }

  function Violation(id: TaskId): TaskResult {
    TaskResult(id, ResultFailed, [], false, Some(BudgetViolation))
  }

  predicate NeverRetried(code: ErrorCode) {
    !code.OtherError?
  }

  /** Whether a failed attempt may be repeated; the counters already include the attempt. */
  predicate ShouldRetry(task: Task, result: TaskResult, budget: Budget, totalAttempts: nat) {
    && result.status.ResultFailed?
    && result.retryable
    && !(result.errorCode.Some? && NeverRetried(result.errorCode.value))
    && task.attemptCount < task.maxAttempts
    && task.attemptCount < budget.maxAttemptsPerTask
    && totalAttempts < budget.maxTotalAttempts
  }

  // ----- Evidence of a run -----

  predicate EvidenceOrder(a: EvidenceRef, b: EvidenceRef) {
    a.dedupeKey <= b.dedupeKey
  }

  ghost predicate StrictlyAscendingKeys(refs: seq<EvidenceRef>) {
    forall i, j :: 0 <= i < j < |refs| ==> refs[i].dedupeKey < refs[j].dedupeKey
  }

  ghost function Keys(refs: seq<EvidenceRef>): set<int> {
    set i | 0 <= i < |refs| :: refs[i].dedupeKey
  }

  /** Drops every reference whose key has occurred before. */
  function FirstOfEachKey(refs: seq<EvidenceRef>): seq<EvidenceRef> {
    if refs == [] then []
    else
      var before, last := FirstOfEachKey(refs[..|refs| - 1]), refs[|refs| - 1];
      if exists i :: 0 <= i < |before| && before[i].dedupeKey == last.dedupeKey then before else before + [last]
  }

  function DedupedEvidence(refs: seq<EvidenceRef>): seq<EvidenceRef> {
    FirstOfEachKey(SortBy(EvidenceOrder, refs))
  }

  method DedupeEvidence(refs: seq<EvidenceRef>) returns (unique: seq<EvidenceRef>)
    ensures unique == DedupedEvidence(refs)
  {
    var sorted := SortBy(EvidenceOrder, refs);
    unique := [];
    var seen: set<int> := {};
    for i := 0 to |sorted|
      invariant seen == Keys(unique)
      invariant unique == FirstOfEachKey(sorted[..i])
    {
      var ref := sorted[i];
      assert sorted[..i + 1][..i] == sorted[..i];
      if ref.dedupeKey !in seen {
        KeysGrow(unique, ref);
        seen := seen + {ref.dedupeKey};
        unique := unique + [ref];
      }
    }
    assert sorted[..|sorted|] == sorted;
  }

  lemma KeptOnesComeBefore(sorted: seq<EvidenceRef>, before: seq<EvidenceRef>)
    requires sorted != [] && Ascending(EvidenceOrder, sorted)
    requires forall k :: 0 <= k < |before| ==> before[k] in sorted[..|sorted| - 1]
    ensures forall k :: 0 <= k < |before| ==> before[k].dedupeKey <= sorted[|sorted| - 1].dedupeKey
  {
    var shorter := sorted[..|sorted| - 1];
    forall k | 0 <= k < |before| ensures before[k].dedupeKey <= sorted[|sorted| - 1].dedupeKey {
      assert before[k] in shorter;
      var m :| 0 <= m < |shorter| && shorter[m] == before[k];
      assert EvidenceOrder(sorted[m], sorted[|sorted| - 1]);
    }
  }

  lemma {:induction false} FirstOfEachKeyIsFromInput(refs: seq<EvidenceRef>, k: nat)
    requires k < |FirstOfEachKey(refs)|
    ensures FirstOfEachKey(refs)[k] in refs
  {
    var shorter := refs[..|refs| - 1];
    if k < |FirstOfEachKey(shorter)| {
      FirstOfEachKeyIsFromInput(shorter, k);
      assert FirstOfEachKey(shorter)[k] in refs;
    }
  }

  lemma {:induction false} FirstOfEachKeyKeeps(sorted: seq<EvidenceRef>)
    requires Ascending(EvidenceOrder, sorted)
    ensures StrictlyAscendingKeys(FirstOfEachKey(sorted))
    ensures Keys(FirstOfEachKey(sorted)) == Keys(sorted)
  {
    if sorted != [] {
      var shorter, last := sorted[..|sorted| - 1], sorted[|sorted| - 1];
      FirstOfEachKeyKeeps(shorter);
      var before := FirstOfEachKey(shorter);
      forall k | 0 <= k < |before| ensures before[k] in shorter {
        FirstOfEachKeyIsFromInput(shorter, k);
      }
      KeptOnesComeBefore(sorted, before);
      assert sorted == shorter + [last];
      KeepNext(shorter, before, last);
    }
  }

  lemma KeepNext(shorter: seq<EvidenceRef>, before: seq<EvidenceRef>, last: EvidenceRef)
    requires StrictlyAscendingKeys(before) && Keys(before) == Keys(shorter)
    requires forall k :: 0 <= k < |before| ==> before[k].dedupeKey <= last.dedupeKey
    ensures last.dedupeKey in Keys(before) ==> Keys(before) == Keys(shorter + [last])
    ensures last.dedupeKey !in Keys(before) ==>
              StrictlyAscendingKeys(before + [last]) && Keys(before + [last]) == Keys(shorter + [last])
  {
    KeysGrow(shorter, last);
    KeysGrow(before, last);
    forall k | 0 <= k < |before| ensures before[k].dedupeKey in Keys(before) {}
  }

  /** The evidence of a run: one reference for every key, in key order, each taken from the results. */
  lemma DedupedEvidenceIsExact(refs: seq<EvidenceRef>)
    ensures StrictlyAscendingKeys(DedupedEvidence(refs))
    ensures Keys(DedupedEvidence(refs)) == Keys(refs)
    ensures forall i :: 0 <= i < |DedupedEvidence(refs)| ==> DedupedEvidence(refs)[i] in refs
  {
    var sorted := SortBy(EvidenceOrder, refs);
    SortBySorts(EvidenceOrder, refs);
    SameElements(sorted, refs);
    FirstOfEachKeyKeeps(sorted);
    SameKeys(sorted, refs);
    forall i | 0 <= i < |DedupedEvidence(refs)| ensures DedupedEvidence(refs)[i] in refs {
      FirstOfEachKeyIsFromInput(sorted, i);
    }
  }

  lemma KeysGrow(refs: seq<EvidenceRef>, ref: EvidenceRef)
    ensures Keys(refs + [ref]) == Keys(refs) + {ref.dedupeKey}
  {
    var more := refs + [ref];
    assert more[|refs|] == ref;
    forall x | x in Keys(refs) ensures x in Keys(more) {
      var i :| 0 <= i < |refs| && refs[i].dedupeKey == x;
      assert more[i] == refs[i];
    }
  }

  /** `ref` is the first reference with its key. */
  ghost predicate FirstOfItsKey(refs: seq<EvidenceRef>, ref: EvidenceRef) {
    exists i :: 0 <= i < |refs| && refs[i] == ref && forall j :: 0 <= j < i ==> refs[j].dedupeKey != ref.dedupeKey
  }

  lemma FirstOneMore(shorter: seq<EvidenceRef>, last: EvidenceRef, ref: EvidenceRef)
    ensures FirstOfItsKey(shorter + [last], ref)
            <==> FirstOfItsKey(shorter, ref) || (ref == last && last.dedupeKey !in Keys(shorter))
  {
    var refs := shorter + [last];
    if i :| 0 <= i < |refs| && refs[i] == ref && forall j :: 0 <= j < i ==> refs[j].dedupeKey != ref.dedupeKey {
      forall j | 0 <= j < i ensures shorter[j].dedupeKey != ref.dedupeKey {
        assert refs[j] == shorter[j];
      }
    }
    if i :| 0 <= i < |shorter| && shorter[i] == ref
            && forall j :: 0 <= j < i ==> shorter[j].dedupeKey != ref.dedupeKey {
      assert refs[i] == ref;
    }
    if ref == last && last.dedupeKey !in Keys(shorter) {
      assert refs[|shorter|] == ref;
      forall j | 0 <= j < |shorter| ensures refs[j].dedupeKey != ref.dedupeKey {
        assert shorter[j].dedupeKey in Keys(shorter);
      }
    }
  }

  lemma {:induction false} FirstsAreKept(refs: seq<EvidenceRef>, ref: EvidenceRef)
    ensures ref in FirstOfEachKey(refs) <==> FirstOfItsKey(refs, ref)
    ensures Keys(FirstOfEachKey(refs)) == Keys(refs)
  {
    if refs != [] {
      var shorter, last := refs[..|refs| - 1], refs[|refs| - 1];
      FirstsAreKept(shorter, ref);
      KeysGrow(shorter, last);
      KeysGrow(FirstOfEachKey(shorter), last);
      FirstOneMore(shorter, last, ref);
      assert refs == shorter + [last];
    }
  }

  /** Of the references with one key, the earliest is kept. */
  lemma EarliestReferenceIsKept(refs: seq<EvidenceRef>, ref: EvidenceRef)
    ensures ref in DedupedEvidence(refs)
            <==> exists i :: 0 <= i < |refs| && refs[i] == ref
                             && forall j :: 0 <= j < i ==> refs[j].dedupeKey != ref.dedupeKey
  {
    var sorted := SortBy(EvidenceOrder, refs);
    FirstsAreKept(sorted, ref);
    SortKeepsTies(EvidenceOrder, refs, ref);
    FirstTied(EvidenceOrder, sorted, ref);
    FirstTied(EvidenceOrder, refs, ref);
    SameFirsts(sorted, ref);
    SameFirsts(refs, ref);
  }

  lemma SameFirsts(refs: seq<EvidenceRef>, ref: EvidenceRef)
    ensures FirstOfItsKey(refs, ref)
            <==> exists i :: 0 <= i < |refs| && refs[i] == ref
                             && forall j :: 0 <= j < i ==> !Ties(EvidenceOrder, refs[j], ref)
  {
  }

  lemma SameKeys(a: seq<EvidenceRef>, b: seq<EvidenceRef>)
    requires forall x :: x in a <==> x in b
    ensures Keys(a) == Keys(b)
  {
    forall i | 0 <= i < |a| ensures a[i].dedupeKey in Keys(b) {
      assert a[i] in b;
      var j :| 0 <= j < |b| && b[j] == a[i];
    }
    forall i | 0 <= i < |b| ensures b[i].dedupeKey in Keys(a) {
      assert b[i] in a;
      var j :| 0 <= j < |a| && a[j] == b[i];
    }
  }

  lemma DropLastKey(a: seq<EvidenceRef>)
    requires StrictlyAscendingKeys(a) && a != []
    ensures Keys(a) == Keys(a[..|a| - 1]) + {a[|a| - 1].dedupeKey}
    ensures a[|a| - 1].dedupeKey !in Keys(a[..|a| - 1])
    ensures forall x :: x in Keys(a) ==> x <= a[|a| - 1].dedupeKey
  {
    assert a == a[..|a| - 1] + [a[|a| - 1]];
    KeysGrow(a[..|a| - 1], a[|a| - 1]);
  }

  /** The keys of a run's evidence do not depend on the order or repetition of the references. */
  lemma {:induction false} AscendingKeysUnique(a: seq<EvidenceRef>, b: seq<EvidenceRef>)
    requires StrictlyAscendingKeys(a) && StrictlyAscendingKeys(b) && Keys(a) == Keys(b)
    ensures |a| == |b| && forall i :: 0 <= i < |a| ==> a[i].dedupeKey == b[i].dedupeKey
  {
    if a != [] && b != [] {
      DropLastKey(a);
      DropLastKey(b);
      var x := a[|a| - 1].dedupeKey;
      assert x == b[|b| - 1].dedupeKey;
      assert Keys(a[..|a| - 1]) == Keys(a) - {x};
      AscendingKeysUnique(a[..|a| - 1], b[..|b| - 1]);
      assert forall i :: 0 <= i < |a| - 1 ==> a[i] == a[..|a| - 1][i] && b[i] == b[..|b| - 1][i];
    } else {
      NoKeys(a);
      NoKeys(b);
    }
  }

  lemma NoKeys(refs: seq<EvidenceRef>)
    ensures refs == [] <==> Keys(refs) == {}
  {
    if refs != [] {
      assert refs[0].dedupeKey in Keys(refs);
    }
  }
}
