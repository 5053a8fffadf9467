/**
 * The confidence score and status of a claim under its evidence
 * (src/financial_intelligence/domain/verification/engine.py and evidence.py).
 *
 * Times are whole microseconds. `onTopic` and `outcome` stand for the results of the text
 * heuristics on the claim at hand; an absent or empty text is `None`.
 */
module EvidenceScore {
  import opened Outcomes
  import opened Sorting
  import opened Grouping

  datatype Tier = Authoritative | StructuredFinancial | ReputableNews | GeneralWeb

  datatype Standing = Supporting | Contradicting | Neutral

  datatype Evidence = Evidence(
    id: int,
    source: int,
    tier: Tier,
    onTopic: bool,
    outcome: Standing,
    hasValue: bool,
    unit: Option<int>,
    currency: Option<int>,
    period: Option<int>,
    asOf: Option<int>,
    retrievedAt: int)

  datatype Claim = Claim(numeric: bool, unit: Option<int>, currency: Option<int>, period: Option<int>)

  datatype Policy = Policy(maxAgeDays: nat, verifiedFrom: real, partialFrom: real, weights: map<Tier, real>)

  datatype Factor =
    | SourceAuthority | EvidenceRecency | NoContradictions | CrossSourceAgreement
    | EvidenceCompleteness | ExplicitPeriodMatch | ExplicitUnitCurrencyMatch

  datatype Status = Verified | PartiallyVerified | Contradicted | Conflicting | Unverifiable | Stale

  datatype Bundle = Bundle(refs: seq<Evidence>, supporting: seq<Evidence>, contradicting: seq<Evidence>,
                           neutral: seq<Evidence>)

  const MICROSECONDS_PER_DAY := 86_400_000_000

  /** Whole days, rounded down also for a negative span. */
  function Days(span: int): int {
    span / MICROSECONDS_PER_DAY
  }

  predicate WithinAge(policy: Policy, t: int, now: int) {
    0 <= Days(now - t) <= policy.maxAgeDays
  }

  predicate Recent(policy: Policy, r: Evidence, now: int) {
    (r.asOf.Some? && WithinAge(policy, r.asOf.value, now)) || WithinAge(policy, r.retrievedAt, now)
  }

  /** Fresh evidence is judged by its own date where it has one, and not by when it was retrieved. */
  predicate Fresh(policy: Policy, r: Evidence, now: int) {
    WithinAge(policy, if r.asOf.Some? then r.asOf.value else r.retrievedAt, now)
  }

  /** What a reference says of the claim; with a clock reading, later references say nothing. */
  function StandingOf(r: Evidence, now: Option<int>): Standing {
    if now.Some? && r.retrievedAt > now.value then Neutral
    else if r.onTopic then r.outcome
    else Neutral
  }

  function Weight(policy: Policy, t: Tier): real {
    if t in policy.weights then policy.weights[t] else 0.0
  }

  // ----- The score by sets of evidence -----

  ghost function Members(refs: seq<Evidence>): set<Evidence> {
    set r | r in refs
  }

  ghost function OfStanding(refs: set<Evidence>, now: int, st: Standing): set<Evidence> {
    set r | r in refs && StandingOf(r, Some(now)) == st
  }

  ghost predicate IsBestWeight(policy: Policy, s: set<Evidence>, w: real) {
    && (exists r :: r in s && Weight(policy, r.tier) == w)
    && (forall r :: r in s ==> Weight(policy, r.tier) <= w)
  }

  ghost function BestWeight(policy: Policy, s: set<Evidence>): (w: real)
    requires s != {}
    ensures IsBestWeight(policy, s, w)
  {
    var r :| r in s;
    var own := Weight(policy, r.tier);
    if s == {r} then own
    else
      var rest := BestWeight(policy, s - {r});
      assert forall x :: x in s ==> x == r || x in s - {r};
      if own >= rest then own else rest
  }

  ghost function RecentIn(policy: Policy, s: set<Evidence>, now: int): set<Evidence> {
    set r | r in s && Recent(policy, r, now)
  }

  ghost predicate HasTier(s: set<Evidence>, t: Tier) {
    exists r :: r in s && r.tier == t
  }

  ghost predicate CrossSource(s: set<Evidence>) {
    HasTier(s, Authoritative) && HasTier(s, StructuredFinancial)
  }

  predicate CompleteFor(claim: Claim, r: Evidence) {
    r.hasValue && (r.unit.Some? || claim.unit.Some?) && (r.currency.Some? || claim.currency.Some?)
  }

  predicate MatchesUnits(claim: Claim, r: Evidence) {
    && (claim.unit.Some? ==> r.unit == claim.unit)
    && (claim.currency.Some? ==> r.currency == claim.currency)
  }

  ghost predicate Complete(claim: Claim, s: set<Evidence>) {
    claim.numeric && forall r :: r in s ==> CompleteFor(claim, r)
  }

  ghost predicate PeriodMatched(claim: Claim, s: set<Evidence>) {
    claim.period.Some? && exists r :: r in s && r.period == claim.period
  }

  ghost predicate UnitsMatched(claim: Claim, s: set<Evidence>) {
    (claim.unit.Some? || claim.currency.Some?) && forall r :: r in s ==> MatchesUnits(claim, r)
  }

  /** What the supporting evidence earns by itself. */
  ghost function Merit(policy: Policy, claim: Claim, s: set<Evidence>, now: int): real
    requires s != {}
  {
    BestWeight(policy, s) + Recency(|RecentIn(policy, s, now)|, |s|) + Bonus(claim, s)
  }

  function Recency(recent: nat, supporting: nat): real
    requires supporting > 0
  {
    recent as real / supporting as real * 0.3
  }

  ghost function Bonus(claim: Claim, s: set<Evidence>): real {
    (if CrossSource(s) then 0.1 else 0.0)
    + (if Complete(claim, s) then 0.1 else 0.0)
    + (if PeriodMatched(claim, s) then 0.05 else 0.0)
    + (if UnitsMatched(claim, s) then 0.05 else 0.0)
  }

  /** What the share of supporting evidence adds. */
  function Consistency(supporting: nat, total: nat, contradicted: bool): real
    requires total > 0
  {
    supporting as real / total as real * (if contradicted then 0.1 else 0.3)
  }

  function Clamp(x: real): real {
    if x < 0.0 then 0.0 else if x > 1.0 then 1.0 else x
  }

  ghost function RawScore(policy: Policy, claim: Claim, s: set<Evidence>, total: nat, contradicted: bool,
                          now: int): real
    requires s != {} && total > 0
  {
    Merit(policy, claim, s, now) + Consistency(|s|, total, contradicted)
  }

  ghost function Score(policy: Policy, claim: Claim, s: set<Evidence>, total: nat, contradicted: bool, now: int): real
    requires s != {} ==> total > 0
  {
    if s == {} then 0.0 else Clamp(RawScore(policy, claim, s, total, contradicted, now))
  }

  ghost function MainFactors(policy: Policy, s: set<Evidence>, contradicted: bool, now: int): seq<Factor>
    requires s != {}
  {
    (if BestWeight(policy, s) >= 0.7 then [SourceAuthority] else [])
    + (if RecentIn(policy, s, now) != {} then [EvidenceRecency] else [])
    + (if contradicted then [] else [NoContradictions])
  }

  ghost function BonusFactors(claim: Claim, s: set<Evidence>): seq<Factor> {
    (if CrossSource(s) then [CrossSourceAgreement] else [])
    + (if Complete(claim, s) then [EvidenceCompleteness] else [])
    + (if PeriodMatched(claim, s) then [ExplicitPeriodMatch] else [])
    + (if UnitsMatched(claim, s) then [ExplicitUnitCurrencyMatch] else [])
  }

  ghost function FactorsOf(policy: Policy, claim: Claim, s: set<Evidence>, contradicted: bool, now: int): seq<Factor> {
    if s == {} then [] else MainFactors(policy, s, contradicted, now) + BonusFactors(claim, s)
  }

  ghost predicate HasFresh(policy: Policy, s: set<Evidence>, now: int) {
    exists r :: r in s && Fresh(policy, r, now)
  }

  /** The verdict on a set of evidence: confidence, factors and status. */
  ghost function StatusOf(policy: Policy, s: set<Evidence>, contradicted: bool, confidence: real, now: int): Status {
    if s == {} then (if contradicted then Contradicted else Unverifiable)
    else if contradicted then Conflicting
    else if !HasFresh(policy, s, now) then Stale
    else if confidence >= policy.verifiedFrom then Verified
    else if confidence >= policy.partialFrom then PartiallyVerified
    else Unverifiable
  }

  datatype Verdict = Verdict(confidence: real, factors: seq<Factor>, status: Status)

  ghost function Judge(policy: Policy, claim: Claim, refs: set<Evidence>, now: int): Verdict {
    var s := OfStanding(refs, now, Supporting);
    var contradicted := OfStanding(refs, now, Contradicting) != {};
    assert s != {} ==> |refs| > 0;
    var confidence := Score(policy, claim, s, |refs|, contradicted, now);
    Verdict(confidence, FactorsOf(policy, claim, s, contradicted, now),
            StatusOf(policy, s, contradicted, confidence, now))
  }

  // ----- Classification -----

  function StandingAt(now: Option<int>): Evidence -> Standing {
    r => StandingOf(r, now)
  }

  /** The references of one standing, in order. */
  function With(refs: seq<Evidence>, now: Option<int>, st: Standing): seq<Evidence> {
    Having(refs, StandingAt(now), st)
  }

  lemma WithSet(refs: seq<Evidence>, now: int, st: Standing)
    ensures Members(With(refs, Some(now), st)) == OfStanding(Members(refs), now, st)
  {
    forall r ensures r in With(refs, Some(now), st) <==> r in refs && StandingOf(r, Some(now)) == st {
      HavingMembers(refs, StandingAt(Some(now)), st, r);
    }
  }

  lemma {:induction false} CountMembers(refs: seq<Evidence>)
    requires NoDuplicates(refs)
    ensures |Members(refs)| == |refs|
  {
    if refs != [] {
      var shorter, last := refs[..|refs| - 1], refs[|refs| - 1];
      CountMembers(shorter);
      assert last !in shorter;
      assert Members(refs) == Members(shorter) + {last};
    }
  }

  ghost predicate DistinctIds(refs: seq<Evidence>) {
    forall i, j :: 0 <= i < j < |refs| ==> refs[i].id != refs[j].id
  }

  ghost predicate Classified(b: Bundle, refs: seq<Evidence>, now: Option<int>) {
    && b.refs == refs
    && b.supporting == With(refs, now, Supporting)
    && b.contradicting == With(refs, now, Contradicting)
    && b.neutral == With(refs, now, Neutral)
  }

  method Classify(refs: seq<Evidence>) returns (b: Bundle)
    ensures Classified(b, refs, None)
  {
    var supporting, contradicting, neutral := [], [], [];
    for i := 0 to |refs|
      invariant supporting == With(refs[..i], None, Supporting)
      invariant contradicting == With(refs[..i], None, Contradicting)
      invariant neutral == With(refs[..i], None, Neutral)
    {
      assert refs[..i + 1][..i] == refs[..i];
      var ref := refs[i];
      if ref.onTopic {
        match ref.outcome
        case Supporting => supporting := supporting + [ref];
        case Contradicting => contradicting := contradicting + [ref];
        case Neutral => neutral := neutral + [ref];
      } else {
        neutral := neutral + [ref];
      }
    }
    assert refs[..|refs|] == refs;
    b := Bundle(refs, supporting, contradicting, neutral);
  }

  function Without(refs: seq<Evidence>, ids: set<int>): seq<Evidence> {
    if refs == [] then []
    else Without(refs[..|refs| - 1], ids) + (if refs[|refs| - 1].id in ids then [] else [refs[|refs| - 1]])
  }

  function NeutralOrListed(refs: seq<Evidence>, ids: set<int>, neutral: seq<Evidence>): seq<Evidence> {
    if refs == [] then []
    else
      var last := refs[|refs| - 1];
      NeutralOrListed(refs[..|refs| - 1], ids, neutral) + (if last.id in ids || last in neutral then [last] else [])
  }

  ghost predicate IdsOfLater(refs: seq<Evidence>, ids: set<int>, now: int) {
    forall r :: r in refs ==> (r.id in ids <==> r.retrievedAt > now)
  }

  lemma WithoutOneMore(refs: seq<Evidence>, ref: Evidence, ids: set<int>)
    ensures Without(refs + [ref], ids) == Without(refs, ids) + (if ref.id in ids then [] else [ref])
  {
    assert (refs + [ref])[..|refs|] == refs;
  }

  lemma {:induction false} WithoutLater(refs: seq<Evidence>, ids: set<int>, now: int, st: Standing)
    requires IdsOfLater(refs, ids, now) && st != Neutral
    ensures Without(With(refs, None, st), ids) == With(refs, Some(now), st)
  {
    if refs != [] {
      var shorter, last := refs[..|refs| - 1], refs[|refs| - 1];
      assert refs == shorter + [last];
      WithoutLater(shorter, ids, now, st);
      HavingOneMore(shorter, last, StandingAt(None), st);
      HavingOneMore(shorter, last, StandingAt(Some(now)), st);
      WithoutOneMore(With(shorter, None, st), last, ids);
      assert With(shorter, None, st) + [] == With(shorter, None, st);
    }
  }

  lemma {:induction false} NeutralWithLater(refs: seq<Evidence>, all: seq<Evidence>, ids: set<int>, now: int)
    requires IdsOfLater(refs, ids, now) && forall r :: r in refs ==> r in all
    ensures NeutralOrListed(refs, ids, With(all, None, Neutral)) == With(refs, Some(now), Neutral)
  {
    if refs != [] {
      var shorter, last := refs[..|refs| - 1], refs[|refs| - 1];
      assert refs == shorter + [last];
      NeutralWithLater(shorter, all, ids, now);
      HavingMembers(all, StandingAt(None), Neutral, last);
    }
  }

  lemma {:induction false} NothingLater(refs: seq<Evidence>, now: int, st: Standing)
    requires forall r :: r in refs ==> r.retrievedAt <= now
    ensures With(refs, None, st) == With(refs, Some(now), st)
  {
    if refs != [] {
      var shorter, last := refs[..|refs| - 1], refs[|refs| - 1];
      assert refs == shorter + [last];
      NothingLater(shorter, now, st);
    }
  }

  lemma LaterIdsExact(refs: seq<Evidence>, ids: set<int>, now: int)
    requires DistinctIds(refs) && ids == set r | r in refs && r.retrievedAt > now :: r.id
    ensures IdsOfLater(refs, ids, now)
  {
    forall r | r in refs && r.id in ids ensures r.retrievedAt > now {
      var x :| x in refs && x.retrievedAt > now && x.id == r.id;
      var i :| 0 <= i < |refs| && refs[i] == x;
      var j :| 0 <= j < |refs| && refs[j] == r;
    }
  }

  /** Moves what was retrieved after `now` to the neutral references. */
  method SetAsideLater(b: Bundle, now: int) returns (r: Bundle)
    requires Classified(b, b.refs, None) && DistinctIds(b.refs)
    ensures Classified(r, b.refs, Some(now))
  {
    var later := set ref | ref in b.refs && ref.retrievedAt > now :: ref.id;
    LaterIdsExact(b.refs, later, now);
    if later != {} {
      r := Bundle(b.refs, Without(b.supporting, later), Without(b.contradicting, later),
                  NeutralOrListed(b.refs, later, b.neutral));
      WithoutLater(b.refs, later, now, Supporting);
      WithoutLater(b.refs, later, now, Contradicting);
      NeutralWithLater(b.refs, b.refs, later, now);
    } else {
      r := b;
      forall ref | ref in b.refs ensures ref.retrievedAt <= now {
        assert ref.id !in later;
      }
      NothingLater(b.refs, now, Supporting);
      NothingLater(b.refs, now, Contradicting);
      NothingLater(b.refs, now, Neutral);
    }
  }

  // ----- The score by loops -----

  method GreatestWeight(policy: Policy, refs: seq<Evidence>) returns (w: real)
    requires refs != []
    ensures refs[0] in Members(refs) && w == BestWeight(policy, Members(refs))
  {
    w := Weight(policy, refs[0].tier);
    ghost var at := 0;
    for i := 1 to |refs|
      invariant 0 <= at < i && Weight(policy, refs[at].tier) == w
      invariant forall k :: 0 <= k < i ==> Weight(policy, refs[k].tier) <= w
    {
      if Weight(policy, refs[i].tier) > w {
        w := Weight(policy, refs[i].tier);
        at := i;
      }
    }
    assert refs[at] in Members(refs);
    assert IsBestWeight(policy, Members(refs), BestWeight(policy, Members(refs)));
  }

  method CountRecent(policy: Policy, refs: seq<Evidence>, now: int) returns (n: nat)
    requires NoDuplicates(refs)
    ensures n == |RecentIn(policy, Members(refs), now)|
  {
    n := 0;
    for i := 0 to |refs|
      invariant n == |RecentIn(policy, Members(refs[..i]), now)|
    {
      var ref := refs[i];
      NewAtPosition(refs, i);
      var asOfRecent := ref.asOf.Some? && WithinAge(policy, ref.asOf.value, now);
      var retrievedRecent := WithinAge(policy, ref.retrievedAt, now);
      if asOfRecent || retrievedRecent {
        assert RecentIn(policy, Members(refs[..i + 1]), now) == RecentIn(policy, Members(refs[..i]), now) + {ref};
        n := n + 1;
      } else {
        assert RecentIn(policy, Members(refs[..i + 1]), now) == RecentIn(policy, Members(refs[..i]), now);
      }
    }
    assert refs[..|refs|] == refs;
  }

  function Sum(xs: seq<real>): real {
    if xs == [] then 0.0 else Sum(xs[..|xs| - 1]) + xs[|xs| - 1]
  }

  lemma SumOneMore(xs: seq<real>, x: real)
    ensures Sum(xs + [x]) == Sum(xs) + x
  {
    assert (xs + [x])[..|xs|] == xs;
  }

  /** Authority, recency and consistency: the components every supported claim has. */
  method MainComponents(policy: Policy, b: Bundle, now: int) returns (components: seq<real>, factors: seq<Factor>)
    requires b.supporting != [] && b.refs != [] && NoDuplicates(b.supporting)
    ensures |Members(b.supporting)| == |b.supporting| && Members(b.supporting) != {}
    ensures Sum(components) == BestWeight(policy, Members(b.supporting))
                               + Recency(|RecentIn(policy, Members(b.supporting), now)|, |b.supporting|)
                               + Consistency(|b.supporting|, |b.refs|, b.contradicting != [])
    ensures factors == MainFactors(policy, Members(b.supporting), b.contradicting != [], now)
  {
    CountMembers(b.supporting);
    assert b.supporting[0] in Members(b.supporting);
    var weight := GreatestWeight(policy, b.supporting);
    var recent := CountRecent(policy, b.supporting, now);
    var contradicted := |b.contradicting| > 0;
    components, factors := Earn(true, weight, SourceAuthority, weight >= 0.7, [], []);
    components, factors := Earn(true, Recency(recent, |b.supporting|), EvidenceRecency, recent > 0,
                                components, factors);
    components, factors := Earn(true, Consistency(|b.supporting|, |b.refs|, contradicted), NoContradictions,
                                !contradicted, components, factors);
  }

  method BonusTests(claim: Claim, supporting: seq<Evidence>)
    returns (cross: bool, complete: bool, period: bool, units: bool)
    ensures cross <==> CrossSource(Members(supporting))
    ensures complete <==> Complete(claim, Members(supporting))
    ensures period <==> PeriodMatched(claim, Members(supporting))
    ensures units <==> UnitsMatched(claim, Members(supporting))
  {
    var tier1 := set r | r in supporting && r.tier == Authoritative :: r.source;
    var tier2 := set r | r in supporting && r.tier == StructuredFinancial :: r.source;
    TierSources(supporting, Authoritative, tier1);
    TierSources(supporting, StructuredFinancial, tier2);
    SetTests(claim, supporting);
    cross := tier1 != {} && tier2 != {};
    complete := claim.numeric && forall r :: r in supporting ==> CompleteFor(claim, r);
    period := claim.period.Some? && exists r :: r in supporting && r.period == claim.period;
    units := (claim.unit.Some? || claim.currency.Some?) && forall r :: r in supporting ==> MatchesUnits(claim, r);
  }

  /** The components for agreement across sources, completeness, period and units. */
  method BonusComponents(claim: Claim, supporting: seq<Evidence>) returns (components: seq<real>, factors: seq<Factor>)
    ensures Sum(components) == Bonus(claim, Members(supporting))
    ensures factors == BonusFactors(claim, Members(supporting))
  {
    var cross, complete, period, units := BonusTests(claim, supporting);
    components, factors := Earn(cross, 0.1, CrossSourceAgreement, cross, [], []);
    components, factors := Earn(complete, 0.1, EvidenceCompleteness, complete, components, factors);
    components, factors := Earn(period, 0.05, ExplicitPeriodMatch, period, components, factors);
    components, factors := Earn(units, 0.05, ExplicitUnitCurrencyMatch, units, components, factors);
  }

  lemma {:induction false} SumOfBoth(xs: seq<real>, ys: seq<real>)
    ensures Sum(xs + ys) == Sum(xs) + Sum(ys)
  {
    if ys == [] {
      assert xs + ys == xs;
    } else {
      SumOfBoth(xs, ys[..|ys| - 1]);
      assert (xs + ys)[..|xs + ys| - 1] == xs + ys[..|ys| - 1];
    }
  }

  method ComputeConfidence(policy: Policy, claim: Claim, b: Bundle, now: int)
    returns (score: real, factors: seq<Factor>)
    requires b.supporting != [] ==> b.refs != []
    requires NoDuplicates(b.supporting)
    ensures score == Score(policy, claim, Members(b.supporting), |b.refs|, b.contradicting != [], now)
    ensures factors == FactorsOf(policy, claim, Members(b.supporting), b.contradicting != [], now)
  {
    if b.supporting == [] {
      return 0.0, [];
    }
    var main, mainFactors := MainComponents(policy, b, now);
    var bonus, bonusFactors := BonusComponents(claim, b.supporting);
    SumOfBoth(main, bonus);
    return Clamp(Sum(main + bonus)), mainFactors + bonusFactors;
  }

  /** Adds a component where it is due, and names its factor where that is due. */
  method Earn(added: bool, amount: real, factor: Factor, named: bool, components: seq<real>, factors: seq<Factor>)
    returns (c: seq<real>, f: seq<Factor>)
    ensures Sum(c) == Sum(components) + (if added then amount else 0.0)
    ensures f == factors + (if named then [factor] else [])
  {
    SumOneMore(components, amount);
    c := if added then components + [amount] else components;
    f := if named then factors + [factor] else factors;
  }

  lemma SetTests(claim: Claim, refs: seq<Evidence>)
    ensures Complete(claim, Members(refs)) <==> claim.numeric && forall r :: r in refs ==> CompleteFor(claim, r)
    ensures PeriodMatched(claim, Members(refs))
            <==> claim.period.Some? && exists r :: r in refs && r.period == claim.period
    ensures UnitsMatched(claim, Members(refs)) <==>
              (claim.unit.Some? || claim.currency.Some?) && forall r :: r in refs ==> MatchesUnits(claim, r)
  {
    assert forall r :: r in refs <==> r in Members(refs);
  }

  lemma TierSources(refs: seq<Evidence>, t: Tier, sources: set<int>)
    requires sources == set r | r in refs && r.tier == t :: r.source
    ensures sources != {} <==> HasTier(Members(refs), t)
  {
    if r :| r in refs && r.tier == t {
      assert r.source in sources;
      assert r in Members(refs);
    }
    if x :| x in sources {
      var r :| r in refs && r.tier == t && r.source == x;
      assert r in Members(refs);
    }
  }

  method DetermineStatus(policy: Policy, b: Bundle, confidence: real, now: int) returns (status: Status)
    requires b.supporting != [] || b.contradicting != [] ==> b.refs != []
    ensures status == StatusOf(policy, Members(b.supporting), b.contradicting != [], confidence, now)
  {
    if b.refs == [] {
      return Unverifiable;
    }
    var hasSupporting := |b.supporting| > 0;
    var hasContradicting := |b.contradicting| > 0;
    if hasSupporting && hasContradicting {
      assert b.supporting[0] in Members(b.supporting);
      return Conflicting;
    }
    if hasSupporting {
      assert b.supporting[0] in Members(b.supporting);
      var stale := !exists r :: r in b.supporting && Fresh(policy, r, now);
      assert stale <==> !HasFresh(policy, Members(b.supporting), now);
      if confidence >= policy.verifiedFrom {
        return if stale then Stale else Verified;
      }
      if confidence >= policy.partialFrom {
        return if stale then Stale else PartiallyVerified;
      }
      return if stale then Stale else Unverifiable;
    }
    if hasContradicting {
      return Contradicted;
    }
    return Unverifiable;
  }

  /** What `Verify` promises of its result: the judgement on the set of the references. */
  ghost predicate Verifies(policy: Policy, claim: Claim, refs: seq<Evidence>, now: int, v: Verdict) {
    v == Judge(policy, claim, Members(refs), now)
  }

  method Verify(policy: Policy, claim: Claim, refs: seq<Evidence>, now: int) returns (v: Verdict)
    requires DistinctIds(refs)
    ensures Verifies(policy, claim, refs, now, v)
  {
    forall i, j | 0 <= i < j < |refs| ensures refs[i] != refs[j] {
      assert refs[i].id != refs[j].id;
    }
    var classified := Classify(refs);
    var bundle := SetAsideLater(classified, now);
    WithSet(refs, now, Supporting);
    WithSet(refs, now, Contradicting);
    HavingDistinct(refs, StandingAt(Some(now)), Supporting);
    CountMembers(refs);
    SomeMeansSome(refs, bundle);
    var confidence, factors := ComputeConfidence(policy, claim, bundle, now);
    var status := DetermineStatus(policy, bundle, confidence, now);
    return Verdict(confidence, factors, status);
  }

  lemma SomeMeansSome(refs: seq<Evidence>, b: Bundle)
    requires exists now :: Classified(b, refs, now)
    ensures b.supporting != [] || b.contradicting != [] ==> refs != []
    ensures b.contradicting != [] <==> Members(b.contradicting) != {}
  {
    if b.contradicting != [] {
      assert b.contradicting[0] in Members(b.contradicting);
    }
  }

  // ----- The order of the references decides nothing -----

  /** Verifying any arrangement of the same references gives the same score, factors and status. */
  lemma VerdictIgnoresOrder(policy: Policy, claim: Claim, a: seq<Evidence>, b: seq<Evidence>, now: int, v: Verdict,
                            w: Verdict)
    requires multiset(a) == multiset(b)
    requires Verifies(policy, claim, a, now, v) && Verifies(policy, claim, b, now, w)
    ensures v == w
  {
    SameElements(a, b);
    assert Members(a) == Members(b);
  }

  // ----- Evidence that does not support -----

  lemma ShareFalls(k: nat, n: nat, m: nat)
    requires 0 < k && 0 < n < m
    ensures k as real / m as real < k as real / n as real
  {
    var x, y := k as real / n as real, k as real / m as real;
    assert x * n as real == k as real && y * m as real == k as real;
    assert x > 0.0;
    assert y * m as real < x * m as real;
  }

  lemma ConsistencyFalls(k: nat, n: nat, m: nat, before: bool, after: bool)
    requires 0 < k && 0 < n < m && (before ==> after)
    ensures Consistency(k, m, after) < Consistency(k, n, before)
  {
    ShareFalls(k, n, m);
  }

  /** Non-supporting references: `more` holds those of `refs` and others, none of which support. */
  ghost predicate AddsNoSupport(refs: set<Evidence>, more: set<Evidence>, now: int) {
    refs <= more && forall r :: r in more && r !in refs ==> StandingOf(r, Some(now)) != Supporting
  }

  lemma SameSupport(refs: set<Evidence>, more: set<Evidence>, now: int)
    requires AddsNoSupport(refs, more, now)
    ensures OfStanding(more, now, Supporting) == OfStanding(refs, now, Supporting)
    ensures OfStanding(refs, now, Contradicting) <= OfStanding(more, now, Contradicting)
  {
    assert forall r :: r in more && StandingOf(r, Some(now)) == Supporting ==> r in refs;
  }

  lemma ProperSubsetSmaller<T>(a: set<T>, b: set<T>)
    requires a < b
    ensures |a| < |b|
  {
    assert b == a + (b - a);
    assert b - a != {};
  }

  /** The score before clamping falls strictly with every neutral, contradicting or later reference. */
  lemma RawScoreFalls(policy: Policy, claim: Claim, refs: set<Evidence>, more: set<Evidence>, now: int)
    requires AddsNoSupport(refs, more, now) && refs != more && OfStanding(refs, now, Supporting) != {}
    ensures |refs| > 0 && OfStanding(more, now, Supporting) == OfStanding(refs, now, Supporting)
    ensures RawScore(policy, claim, OfStanding(refs, now, Supporting), |more|,
                     OfStanding(more, now, Contradicting) != {}, now)
            < RawScore(policy, claim, OfStanding(refs, now, Supporting), |refs|,
                       OfStanding(refs, now, Contradicting) != {}, now)
  {
    SameSupport(refs, more, now);
    ProperSubsetSmaller(refs, more);
    var s := OfStanding(refs, now, Supporting);
    var r :| r in s;
    assert r in refs;
    ConsistencyFalls(|s|, |refs|, |more|, OfStanding(refs, now, Contradicting) != {},
                     OfStanding(more, now, Contradicting) != {});
  }

  /** Confidence is antitone in evidence that does not support the claim. */
  lemma ConfidenceNeverRises(policy: Policy, claim: Claim, refs: set<Evidence>, more: set<Evidence>, now: int)
    requires AddsNoSupport(refs, more, now)
    ensures Judge(policy, claim, more, now).confidence <= Judge(policy, claim, refs, now).confidence
  {
    SameSupport(refs, more, now);
    if refs != more && OfStanding(refs, now, Supporting) != {} {
      RawScoreFalls(policy, claim, refs, more, now);
    }
  }

  // ----- When a claim is verified -----

  /**
   * A claim is verified exactly when some supporting reference retrieved by `now` is fresh, no
   * reference that contradicts it was retrieved by `now`, and the confidence reaches the threshold.
   */
  lemma VerifiedIff(policy: Policy, claim: Claim, refs: set<Evidence>, now: int)
    ensures Judge(policy, claim, refs, now).status == Verified <==>
              && (exists r :: r in refs && r.retrievedAt <= now && r.onTopic && r.outcome == Supporting
                              && Fresh(policy, r, now))
              && (forall r :: r in refs && r.onTopic && r.outcome == Contradicting ==> r.retrievedAt > now)
              && Judge(policy, claim, refs, now).confidence >= policy.verifiedFrom
  {
    var s, c := OfStanding(refs, now, Supporting), OfStanding(refs, now, Contradicting);
    assert HasFresh(policy, s, now) <==>
           exists r :: r in refs && r.retrievedAt <= now && r.onTopic && r.outcome == Supporting
             && Fresh(policy, r, now) by {
      if r :| r in s && Fresh(policy, r, now) {
        assert r in refs && r.retrievedAt <= now && r.onTopic && r.outcome == Supporting && Fresh(policy, r, now);
      }
      if r :| r in refs && r.retrievedAt <= now && r.onTopic && r.outcome == Supporting && Fresh(policy, r, now) {
        assert r in s;
      }
    }
    assert c == {} <==> forall r :: r in refs && r.onTopic && r.outcome == Contradicting ==> r.retrievedAt > now by {
      if r :| r in refs && r.onTopic && r.outcome == Contradicting && r.retrievedAt <= now {
        assert r in c;
      }
    }
  }

  // ----- The verdict in terms of the references -----

  /** A reference retrieved by `now`, on the topic, that speaks for the claim. */
  ghost predicate Supports(refs: set<Evidence>, r: Evidence, now: int) {
    r in refs && r.retrievedAt <= now && r.onTopic && r.outcome == Supporting
  }

  /** A reference retrieved by `now`, on the topic, that speaks against the claim. */
  ghost predicate Contradicts(refs: set<Evidence>, r: Evidence, now: int) {
    r in refs && r.retrievedAt <= now && r.onTopic && r.outcome == Contradicting
  }

  /** `t` lies in the past, less than `days` and one more day of 24 hours ago. */
  ghost predicate LessThanDaysAfter(t: int, now: int, days: nat) {
    t <= now && now - t < (days + 1) * 24 * 60 * 60 * 1_000_000
  }

  /** A supporting reference whose own date, or retrieval if it has none, is not too old. */
  ghost predicate SupportsFreshly(policy: Policy, refs: set<Evidence>, r: Evidence, now: int) {
    && Supports(refs, r, now)
    && LessThanDaysAfter(if r.asOf.Some? then r.asOf.value else r.retrievedAt, now, policy.maxAgeDays)
  }

  /** A supporting reference whose own date or whose retrieval is not too old. */
  ghost predicate SupportsRecently(policy: Policy, refs: set<Evidence>, r: Evidence, now: int) {
    && Supports(refs, r, now)
    && (|| (r.asOf.Some? && LessThanDaysAfter(r.asOf.value, now, policy.maxAgeDays))
        || LessThanDaysAfter(r.retrievedAt, now, policy.maxAgeDays))
  }

  lemma AgeInDays(policy: Policy, t: int, now: int)
    ensures WithinAge(policy, t, now) <==> LessThanDaysAfter(t, now, policy.maxAgeDays)
  {
    var span, days := now - t, policy.maxAgeDays;
    assert span == Days(span) * MICROSECONDS_PER_DAY + span % MICROSECONDS_PER_DAY;
  }

  lemma AllAgesInDays(policy: Policy, now: int)
    ensures forall t :: WithinAge(policy, t, now) <==> LessThanDaysAfter(t, now, policy.maxAgeDays)
  {
    forall t ensures WithinAge(policy, t, now) <==> LessThanDaysAfter(t, now, policy.maxAgeDays) {
      AgeInDays(policy, t, now);
    }
  }

  lemma SupportIsMembership(policy: Policy, refs: set<Evidence>, now: int)
    ensures var s := OfStanding(refs, now, Supporting);
            && (forall r :: r in s <==> Supports(refs, r, now))
            && (s != {} <==> exists r :: Supports(refs, r, now))
            && (HasFresh(policy, s, now) <==> exists r :: SupportsFreshly(policy, refs, r, now))
            && (forall r :: r in RecentIn(policy, s, now) <==> SupportsRecently(policy, refs, r, now))
    ensures OfStanding(refs, now, Contradicting) != {} <==> exists r :: Contradicts(refs, r, now)
  {
    AllAgesInDays(policy, now);
    hide WithinAge, LessThanDaysAfter;
    var s, c := OfStanding(refs, now, Supporting), OfStanding(refs, now, Contradicting);
    if r :| Supports(refs, r, now) { assert r in s; }
    if r :| Contradicts(refs, r, now) { assert r in c; }
    if c != {} {
      var r :| r in c;
      assert Contradicts(refs, r, now);
    }
    if HasFresh(policy, s, now) {
      var r :| r in s && Fresh(policy, r, now);
      assert SupportsFreshly(policy, refs, r, now);
    }
    if r :| SupportsFreshly(policy, refs, r, now) { assert r in s && Fresh(policy, r, now); }
  }

  /** Each status with its exact condition on the references and the confidence. */
  lemma StatusIff(policy: Policy, claim: Claim, refs: set<Evidence>, now: int)
    ensures var v := Judge(policy, claim, refs, now);
            var supported := exists r :: Supports(refs, r, now);
            var contradicted := exists r :: Contradicts(refs, r, now);
            var upToDate := exists r :: SupportsFreshly(policy, refs, r, now);
            && (v.status == Contradicted <==> contradicted && !supported)
            && (v.status == Conflicting <==> contradicted && supported)
            && (v.status == Stale <==> supported && !contradicted && !upToDate)
            && (v.status == Verified <==> upToDate && !contradicted && v.confidence >= policy.verifiedFrom)
            && (v.status == PartiallyVerified <==>
                  upToDate && !contradicted && policy.partialFrom <= v.confidence < policy.verifiedFrom)
            && (v.status == Unverifiable <==>
                  && !contradicted
                  && (supported ==>
                      upToDate && v.confidence < policy.verifiedFrom && v.confidence < policy.partialFrom))
  {
    SupportIsMembership(policy, refs, now);
    assert (exists r :: SupportsFreshly(policy, refs, r, now)) ==> exists r :: Supports(refs, r, now);
    hide OfStanding, HasFresh, RecentIn, Supports, SupportsFreshly, SupportsRecently, Contradicts, Score, FactorsOf;
  }

  /** `w` is the greatest weight of a tier among the supporting references, a tier without one weighing nothing. */
  ghost predicate GreatestTierWeight(policy: Policy, refs: set<Evidence>, now: int, w: real) {
    && (exists r :: Supports(refs, r, now) && w == if r.tier in policy.weights then policy.weights[r.tier] else 0.0)
    && (forall r :: Supports(refs, r, now) && r.tier in policy.weights ==> policy.weights[r.tier] <= w)
    && (forall r :: Supports(refs, r, now) && r.tier !in policy.weights ==> 0.0 <= w)
  }

  /** Each factor with its exact condition on the references. */
  lemma FactorsIff(policy: Policy, claim: Claim, refs: set<Evidence>, now: int)
    ensures var fs := Judge(policy, claim, refs, now).factors;
            var supported := exists r :: Supports(refs, r, now);
            && (SourceAuthority in fs <==>
                  exists r :: Supports(refs, r, now) && r.tier in policy.weights && policy.weights[r.tier] >= 0.7)
            && (EvidenceRecency in fs <==> exists r :: SupportsRecently(policy, refs, r, now))
            && (NoContradictions in fs <==> supported && !exists r :: Contradicts(refs, r, now))
            && (CrossSourceAgreement in fs <==>
                  && (exists r :: Supports(refs, r, now) && r.tier == Authoritative)
                  && (exists r :: Supports(refs, r, now) && r.tier == StructuredFinancial))
            && (EvidenceCompleteness in fs <==>
                  && supported && claim.numeric
                  && forall r :: Supports(refs, r, now) ==>
                       && r.hasValue && (r.unit.Some? || claim.unit.Some?)
                          && (r.currency.Some? || claim.currency.Some?))
            && (ExplicitPeriodMatch in fs <==>
                  claim.period.Some? && exists r :: Supports(refs, r, now) && r.period == claim.period)
            && (ExplicitUnitCurrencyMatch in fs <==>
                  && supported && (claim.unit.Some? || claim.currency.Some?)
                  && forall r :: Supports(refs, r, now) ==>
                       && (claim.unit.Some? ==> r.unit == claim.unit)
                       && (claim.currency.Some? ==> r.currency == claim.currency))
  {
    SupportIsMembership(policy, refs, now);
    var s, contradicted := OfStanding(refs, now, Supporting), OfStanding(refs, now, Contradicting) != {};
    assert s == {} ==> Judge(policy, claim, refs, now).factors == [];
    hide OfStanding, HasFresh, Supports, SupportsRecently, SupportsFreshly, Contradicts, Score, FactorsOf, BestWeight,
      RecentIn, StatusOf;
    if s != {} {
      FactorsOfTests(policy, claim, s, contradicted, now);
      HeavyIff(policy, s);
    }
  }

  lemma HeavyIff(policy: Policy, s: set<Evidence>)
    requires s != {}
    ensures BestWeight(policy, s) >= 0.7
            <==> exists r :: r in s && r.tier in policy.weights && policy.weights[r.tier] >= 0.7
  {
    var w := BestWeight(policy, s);
    assert IsBestWeight(policy, s, w);
    if r :| r in s && r.tier in policy.weights && policy.weights[r.tier] >= 0.7 {
      assert Weight(policy, r.tier) <= w;
    }
  }

  /** A listed factor is one that its own test lists. */
  lemma FactorsListed(a: seq<Factor>, b: seq<Factor>, c: seq<Factor>, d: seq<Factor>)
    ensures forall f :: f in a + b + c + d <==> f in a || f in b || f in c || f in d
  {
  }

  lemma MainFactorsListed(policy: Policy, s: set<Evidence>, contradicted: bool, now: int)
    requires s != {}
    ensures forall f :: f in MainFactors(policy, s, contradicted, now) <==>
              || (f == SourceAuthority && BestWeight(policy, s) >= 0.7)
              || (f == EvidenceRecency && RecentIn(policy, s, now) != {})
              || (f == NoContradictions && !contradicted)
  {
    hide RecentIn, BestWeight;
    var best := if BestWeight(policy, s) >= 0.7 then [SourceAuthority] else [];
    var recency := if RecentIn(policy, s, now) != {} then [EvidenceRecency] else [];
    var agreed := if contradicted then [] else [NoContradictions];
    assert MainFactors(policy, s, contradicted, now) == best + recency + agreed + [];
    hide *;
    FactorsListed(best, recency, agreed, []);
  }

  lemma BonusFactorsListed(claim: Claim, s: set<Evidence>)
    ensures forall f :: f in BonusFactors(claim, s) <==>
              || (f == CrossSourceAgreement && CrossSource(s))
              || (f == EvidenceCompleteness && Complete(claim, s))
              || (f == ExplicitPeriodMatch && PeriodMatched(claim, s))
              || (f == ExplicitUnitCurrencyMatch && UnitsMatched(claim, s))
  {
    hide CrossSource, Complete, PeriodMatched, UnitsMatched;
    var cross := if CrossSource(s) then [CrossSourceAgreement] else [];
    var complete := if Complete(claim, s) then [EvidenceCompleteness] else [];
    var period := if PeriodMatched(claim, s) then [ExplicitPeriodMatch] else [];
    var units := if UnitsMatched(claim, s) then [ExplicitUnitCurrencyMatch] else [];
    assert BonusFactors(claim, s) == cross + complete + period + units;
    hide *;
    FactorsListed(cross, complete, period, units);
  }

  lemma FactorTest(policy: Policy, claim: Claim, s: set<Evidence>, contradicted: bool, now: int, f: Factor)
    requires s != {}
    ensures f in FactorsOf(policy, claim, s, contradicted, now) <==>
              match f
              case SourceAuthority => BestWeight(policy, s) >= 0.7
              case EvidenceRecency => RecentIn(policy, s, now) != {}
              case NoContradictions => !contradicted
              case CrossSourceAgreement => CrossSource(s)
              case EvidenceCompleteness => Complete(claim, s)
              case ExplicitPeriodMatch => PeriodMatched(claim, s)
              case ExplicitUnitCurrencyMatch => UnitsMatched(claim, s)
  {
    var main, bonus := MainFactors(policy, s, contradicted, now), BonusFactors(claim, s);
    assert FactorsOf(policy, claim, s, contradicted, now) == main + bonus + [] + [];
    hide *;
    MainFactorsListed(policy, s, contradicted, now);
    BonusFactorsListed(claim, s);
    FactorsListed(main, bonus, [], []);
    assert f in FactorsOf(policy, claim, s, contradicted, now) <==> f in main || f in bonus;
  }

  lemma FactorsOfTests(policy: Policy, claim: Claim, s: set<Evidence>, contradicted: bool, now: int)
    requires s != {}
    ensures var fs := FactorsOf(policy, claim, s, contradicted, now);
            && (SourceAuthority in fs <==> BestWeight(policy, s) >= 0.7)
            && (EvidenceRecency in fs <==> RecentIn(policy, s, now) != {})
            && (NoContradictions in fs <==> !contradicted)
            && (CrossSourceAgreement in fs <==> CrossSource(s))
            && (EvidenceCompleteness in fs <==> Complete(claim, s))
            && (ExplicitPeriodMatch in fs <==> PeriodMatched(claim, s))
            && (ExplicitUnitCurrencyMatch in fs <==> UnitsMatched(claim, s))
  {
    hide *;
    FactorTest(policy, claim, s, contradicted, now, SourceAuthority);
    FactorTest(policy, claim, s, contradicted, now, EvidenceRecency);
    FactorTest(policy, claim, s, contradicted, now, NoContradictions);
    FactorTest(policy, claim, s, contradicted, now, CrossSourceAgreement);
    FactorTest(policy, claim, s, contradicted, now, EvidenceCompleteness);
    FactorTest(policy, claim, s, contradicted, now, ExplicitPeriodMatch);
    FactorTest(policy, claim, s, contradicted, now, ExplicitUnitCurrencyMatch);
  }

  ghost function SupportersOf(refs: set<Evidence>, now: int): set<Evidence> {
    set r | r in refs && Supports(refs, r, now)
  }

  ghost function RecentSupportersOf(policy: Policy, refs: set<Evidence>, now: int): set<Evidence> {
    set r | r in refs && SupportsRecently(policy, refs, r, now)
  }

  /** Confidence needs support. */
  lemma NoSupportNoConfidence(policy: Policy, claim: Claim, refs: set<Evidence>, now: int)
    requires !exists r :: Supports(refs, r, now)
    ensures Judge(policy, claim, refs, now).confidence == 0.0 && Judge(policy, claim, refs, now).factors == []
  {
    SupportIsMembership(policy, refs, now);
    hide OfStanding, Supports;
  }

  /**
   * The confidence of a supported claim: the greatest tier weight, 0.3 for the share of recent among the
   * supporting references, 0.3 for the share of supporting among all (0.1 once one contradicts), and the
   * bonuses of the factors earned, held between 0 and 1.
   */
  lemma ConfidenceIs(policy: Policy, claim: Claim, refs: set<Evidence>, now: int, w: real)
    requires GreatestTierWeight(policy, refs, now, w)
    ensures |SupportersOf(refs, now)| > 0 && |refs| > 0
    ensures var v := Judge(policy, claim, refs, now);
            var supporting := |SupportersOf(refs, now)| as real;
            var raw :=
              w + |RecentSupportersOf(policy, refs, now)| as real / supporting * 0.3
              + supporting / |refs| as real * (if exists r :: Contradicts(refs, r, now) then 0.1 else 0.3)
              + (if CrossSourceAgreement in v.factors then 0.1 else 0.0)
              + (if EvidenceCompleteness in v.factors then 0.1 else 0.0)
              + (if ExplicitPeriodMatch in v.factors then 0.05 else 0.0)
              + (if ExplicitUnitCurrencyMatch in v.factors then 0.05 else 0.0);
            v.confidence == if raw < 0.0 then 0.0 else if raw > 1.0 then 1.0 else raw
  {
    SupportIsMembership(policy, refs, now);
    var s, contradicted := OfStanding(refs, now, Supporting), OfStanding(refs, now, Contradicting) != {};
    assert s == SupportersOf(refs, now) && s <= refs && s != {};
    assert RecentIn(policy, s, now) == RecentSupportersOf(policy, refs, now) by {
      forall r ensures r in RecentIn(policy, s, now) <==> r in RecentSupportersOf(policy, refs, now) {}
    }
    assert BestWeight(policy, s) == w by {
      assert IsBestWeight(policy, s, BestWeight(policy, s));
      assert forall r :: r in s ==> Weight(policy, r.tier) <= w;
    }
    hide *;
    SubsetCount(s, refs);
    FactorsOfTests(policy, claim, s, contradicted, now);
    ConfidenceIsScore(policy, claim, refs, now);
    ScoreParts(policy, claim, s, |refs|, contradicted, now);
  }

  lemma ScoreParts(policy: Policy, claim: Claim, s: set<Evidence>, total: nat, contradicted: bool, now: int)
    requires s != {} && total > 0
    ensures var raw :=
              BestWeight(policy, s) + |RecentIn(policy, s, now)| as real / |s| as real * 0.3
              + |s| as real / total as real * (if contradicted then 0.1 else 0.3)
              + (if CrossSource(s) then 0.1 else 0.0)
              + (if Complete(claim, s) then 0.1 else 0.0)
              + (if PeriodMatched(claim, s) then 0.05 else 0.0)
              + (if UnitsMatched(claim, s) then 0.05 else 0.0);
            Score(policy, claim, s, total, contradicted, now)
            == if raw < 0.0 then 0.0 else if raw > 1.0 then 1.0 else raw
  {
    hide BestWeight, RecentIn, CrossSource, Complete, PeriodMatched, UnitsMatched;
  }

  // ----- More support is not always better -----

  /** The weights a policy may have. */
  ghost predicate ValidWeights(policy: Policy) {
    forall t :: t in policy.weights ==> 0.0 <= policy.weights[t] <= 1.0
  }

  /** How a fraction changes when its whole grows by one and its part by `d`. */
  function FractionChange(part: nat, whole: nat, d: nat): real
    requires whole > 0
  {
    (whole * d - part) as real / (whole * (whole + 1)) as real
  }

  lemma FractionGrows(part: nat, whole: nat, d: nat)
    requires whole > 0
    ensures (part + d) as real / (whole + 1) as real == part as real / whole as real + FractionChange(part, whole, d)
  {
    var k, x, y := whole as real, part as real / whole as real, FractionChange(part, whole, d);
    assert (whole * (whole + 1)) as real == k * (k + 1.0);
    assert (whole * d - part) as real == k * d as real - part as real;
    assert x * k == part as real;
    assert y * (k * (k + 1.0)) == k * d as real - part as real;
    SameQuotient(part as real, d as real, k, x, y);
  }

  lemma SameQuotient(p: real, d: real, k: real, x: real, y: real)
    requires k > 0.0 && x * k == p && y * (k * (k + 1.0)) == k * d - p
    ensures (p + d) / (k + 1.0) == x + y
  {
    var z := x + y;
    assert z * (k * (k + 1.0)) == (x * k) * (k + 1.0) + (k * d - p);
    assert (x * k) * (k + 1.0) == p * (k + 1.0);
    assert z * (k * (k + 1.0)) == k * (p + d);
    assert z * (k * (k + 1.0)) == k * (z * (k + 1.0));
    CancelFactor(k, z * (k + 1.0), p + d);
  }

  lemma CancelFactor(k: real, a: real, b: real)
    requires k > 0.0 && k * a == k * b
    ensures a == b
  {
    assert a == (k * a) / k;
    assert b == (k * b) / k;
  }

  /** `r` brings the second of the two kinds of source that have to agree. */
  ghost predicate CompletesCross(s: set<Evidence>, r: Evidence) {
    && !CrossSource(s)
    && ((r.tier == Authoritative && HasTier(s, StructuredFinancial))
        || (r.tier == StructuredFinancial && HasTier(s, Authoritative)))
  }

  /** What the bonuses gain or lose when `r` joins the supporting references. */
  ghost function BonusChange(claim: Claim, s: set<Evidence>, r: Evidence): real {
    (if CompletesCross(s, r) then 0.1 else 0.0)
    - (if Complete(claim, s) && !CompleteFor(claim, r) then 0.1 else 0.0)
    + (if claim.period.Some? && !PeriodMatched(claim, s) && r.period == claim.period then 0.05 else 0.0)
    - (if UnitsMatched(claim, s) && !MatchesUnits(claim, r) then 0.05 else 0.0)
  }

  /** How the score before clamping changes, in weight, recency, share and bonuses, when `r` joins. */
  ghost function SupportChange(policy: Policy, claim: Claim, s: set<Evidence>, total: nat, contradicted: bool,
                               r: Evidence, now: int): real
    requires s != {} && total > 0
  {
    var better := Weight(policy, r.tier) - BestWeight(policy, s);
    (if better > 0.0 then better else 0.0)
    + FractionChange(|RecentIn(policy, s, now)|, |s|, if Recent(policy, r, now) then 1 else 0) * 0.3
    + FractionChange(|s|, total, 1) * (if contradicted then 0.1 else 0.3)
    + BonusChange(claim, s, r)
  }

  lemma WeightWith(policy: Policy, s: set<Evidence>, r: Evidence)
    requires s != {}
    ensures var better := Weight(policy, r.tier) - BestWeight(policy, s);
            BestWeight(policy, s + {r}) == BestWeight(policy, s) + (if better > 0.0 then better else 0.0)
  {
    var more := s + {r};
    assert r in more;
    var best, bestMore := BestWeight(policy, s), BestWeight(policy, more);
    assert IsBestWeight(policy, s, best) && IsBestWeight(policy, more, bestMore);
    var x :| x in s && Weight(policy, x.tier) == best;
    assert x in more;
    var y :| y in more && Weight(policy, y.tier) == bestMore;
  }

  lemma RecentWith(policy: Policy, s: set<Evidence>, r: Evidence, now: int)
    requires r !in s
    ensures |RecentIn(policy, s + {r}, now)| == |RecentIn(policy, s, now)| + (if Recent(policy, r, now) then 1 else 0)
  {
    if Recent(policy, r, now) {
      assert RecentIn(policy, s + {r}, now) == RecentIn(policy, s, now) + {r};
    } else {
      assert RecentIn(policy, s + {r}, now) == RecentIn(policy, s, now);
    }
  }

  lemma BonusWith(claim: Claim, s: set<Evidence>, r: Evidence)
    ensures Bonus(claim, s + {r}) == Bonus(claim, s) + BonusChange(claim, s, r)
  {
    var more := s + {r};
    TierWith(s, r, Authoritative);
    TierWith(s, r, StructuredFinancial);
    assert r in more && forall x :: x in more <==> x in s || x == r;
    assert Complete(claim, more) <==> Complete(claim, s) && CompleteFor(claim, r);
    assert UnitsMatched(claim, more) <==> UnitsMatched(claim, s) && MatchesUnits(claim, r);
    PeriodWith(claim, s, r);
  }

  lemma TierWith(s: set<Evidence>, r: Evidence, t: Tier)
    ensures HasTier(s + {r}, t) <==> HasTier(s, t) || r.tier == t
  {
    if x :| x in s && x.tier == t {
      assert x in s + {r};
    }
    assert r in s + {r};
  }

  lemma PeriodWith(claim: Claim, s: set<Evidence>, r: Evidence)
    ensures PeriodMatched(claim, s + {r})
            <==> PeriodMatched(claim, s) || (claim.period.Some? && r.period == claim.period)
  {
    if x :| x in s && x.period == claim.period {
      assert x in s + {r};
    }
    assert r in s + {r};
  }

  /** Exactly how one more supporting reference changes the score before clamping. */
  lemma SupportChangesRawScore(policy: Policy, claim: Claim, s: set<Evidence>, total: nat, contradicted: bool,
                               r: Evidence, now: int)
    requires s != {} && total > 0 && r !in s
    ensures RawScore(policy, claim, s + {r}, total + 1, contradicted, now)
            == RawScore(policy, claim, s, total, contradicted, now)
              + SupportChange(policy, claim, s, total, contradicted, r, now)
  {
    hide BestWeight, Bonus, BonusChange, RecentIn, Recent;
    var d := if Recent(policy, r, now) then 1 else 0;
    var n, k := |RecentIn(policy, s, now)|, |s|;
    assert |s + {r}| == k + 1;
    WeightWith(policy, s, r);
    RecentWith(policy, s, r, now);
    BonusWith(claim, s, r);
    FractionGrows(n, k, d);
    FractionGrows(k, total, 1);
  }

  /** With the weights a policy may have, the score before clamping of a supported claim is positive. */
  lemma RawScoreIsPositive(policy: Policy, claim: Claim, s: set<Evidence>, total: nat, contradicted: bool, now: int)
    requires ValidWeights(policy) && s != {} && total > 0
    ensures RawScore(policy, claim, s, total, contradicted, now) > 0.0
  {
    assert IsBestWeight(policy, s, BestWeight(policy, s));
    assert |s| as real / total as real > 0.0;
    assert |RecentIn(policy, s, now)| as real / |s| as real >= 0.0;
  }

  lemma StandingsWith(refs: set<Evidence>, r: Evidence, now: int)
    requires r !in refs && StandingOf(r, Some(now)) == Supporting
    ensures OfStanding(refs + {r}, now, Supporting) == OfStanding(refs, now, Supporting) + {r}
    ensures OfStanding(refs + {r}, now, Contradicting) == OfStanding(refs, now, Contradicting)
    ensures |refs + {r}| == |refs| + 1
    ensures OfStanding(refs, now, Supporting) != {} ==> |refs| > 0
  {
    if x :| x in OfStanding(refs, now, Supporting) {
      assert x in refs;
    }
  }

  /**
   * The claim was supported before `r`, the changes in weight, recency, share and bonuses sum to less
   * than nothing, and the score they leave is below the clamp.
   */
  ghost predicate SupportHurts(policy: Policy, claim: Claim, refs: set<Evidence>, r: Evidence, now: int) {
    var s, contradicted := OfStanding(refs, now, Supporting), OfStanding(refs, now, Contradicting) != {};
    s != {} && |refs| > 0 && ScoreFalls(policy, claim, s, |refs|, contradicted, r, now)
  }

  ghost predicate ScoreFalls(policy: Policy, claim: Claim, s: set<Evidence>, total: nat, contradicted: bool,
                             r: Evidence, now: int)
    requires s != {} && total > 0
  {
    var change := SupportChange(policy, claim, s, total, contradicted, r, now);
    change < 0.0 && RawScore(policy, claim, s, total, contradicted, now) + change < 1.0
  }

  lemma ConfidenceIsScore(policy: Policy, claim: Claim, refs: set<Evidence>, now: int)
    ensures OfStanding(refs, now, Supporting) != {} ==> |refs| > 0
    ensures Judge(policy, claim, refs, now).confidence
            == Score(policy, claim, OfStanding(refs, now, Supporting), |refs|,
                     OfStanding(refs, now, Contradicting) != {}, now)
  {
    hide Score, FactorsOf, StatusOf;
    if x :| x in OfStanding(refs, now, Supporting) {
      assert x in refs;
    }
  }

  lemma ConfidenceWithSupport(policy: Policy, claim: Claim, refs: set<Evidence>, r: Evidence, now: int)
    requires r !in refs && StandingOf(r, Some(now)) == Supporting
    ensures r !in OfStanding(refs, now, Supporting)
    ensures Judge(policy, claim, refs + {r}, now).confidence
            == Score(policy, claim, OfStanding(refs, now, Supporting) + {r}, |refs| + 1,
                     OfStanding(refs, now, Contradicting) != {}, now)
  {
    StandingsWith(refs, r, now);
    ConfidenceIsScore(policy, claim, refs + {r}, now);
    hide Judge, Score;
  }

  lemma SupportLowersScoreIff(policy: Policy, claim: Claim, s: set<Evidence>, total: nat, contradicted: bool,
                              r: Evidence, now: int)
    requires ValidWeights(policy) && r !in s && (s != {} ==> total > 0)
    ensures Score(policy, claim, s + {r}, total + 1, contradicted, now)
            < Score(policy, claim, s, total, contradicted, now)
            <==> s != {} && ScoreFalls(policy, claim, s, total, contradicted, r, now)
  {
    hide RawScore, SupportChange;
    RawScoreIsPositive(policy, claim, s + {r}, total + 1, contradicted, now);
    if s != {} {
      SupportChangesRawScore(policy, claim, s, total, contradicted, r, now);
      RawScoreIsPositive(policy, claim, s, total, contradicted, now);
    }
  }

  /**
   * Exactly when one more supporting reference lowers the confidence: the claim was supported, the
   * net change of the unclamped score is negative, and it ends below the clamp.
   */
  lemma SupportLowersConfidenceIff(policy: Policy, claim: Claim, refs: set<Evidence>, r: Evidence, now: int)
    requires ValidWeights(policy) && r !in refs && StandingOf(r, Some(now)) == Supporting
    ensures Judge(policy, claim, refs + {r}, now).confidence < Judge(policy, claim, refs, now).confidence
            <==> SupportHurts(policy, claim, refs, r, now)
  {
    hide RawScore, SupportChange, FractionChange, BonusChange, ScoreFalls, Score, Judge;
    hide OfStanding, StandingOf, Merit, Consistency, ValidWeights;
    var s, contradicted := OfStanding(refs, now, Supporting), OfStanding(refs, now, Contradicting) != {};
    ConfidenceIsScore(policy, claim, refs, now);
    ConfidenceWithSupport(policy, claim, refs, r, now);
    SupportLowersScoreIff(policy, claim, s, |refs|, contradicted, r, now);
  }

  /**
   * Recent support that keeps completeness and matching units never lowers the confidence, whatever
   * its source.
   */
  lemma RecentSupportNeverHurts(policy: Policy, claim: Claim, refs: set<Evidence>, r: Evidence, now: int)
    requires ValidWeights(policy) && r !in refs && StandingOf(r, Some(now)) == Supporting && Recent(policy, r, now)
    requires Complete(claim, OfStanding(refs, now, Supporting)) ==> CompleteFor(claim, r)
    requires UnitsMatched(claim, OfStanding(refs, now, Supporting)) ==> MatchesUnits(claim, r)
    ensures Judge(policy, claim, refs + {r}, now).confidence >= Judge(policy, claim, refs, now).confidence
  {
    SupportLowersConfidenceIff(policy, claim, refs, r, now);
    var s, contradicted := OfStanding(refs, now, Supporting), OfStanding(refs, now, Contradicting) != {};
    if s != {} {
      RecentChangeIsGain(policy, claim, s, refs, contradicted, r, now);
    }
  }

  lemma RecentChangeIsGain(policy: Policy, claim: Claim, s: set<Evidence>, refs: set<Evidence>, contradicted: bool,
                           r: Evidence, now: int)
    requires s != {} && s <= refs && |refs| > 0 && Recent(policy, r, now)
    requires Complete(claim, s) ==> CompleteFor(claim, r)
    requires UnitsMatched(claim, s) ==> MatchesUnits(claim, r)
    ensures SupportChange(policy, claim, s, |refs|, contradicted, r, now) >= 0.0
  {
    SubsetCount(RecentIn(policy, s, now), s);
    SubsetCount(s, refs);
    assert |s| * (|s| + 1) > 0 && |refs| * (|refs| + 1) > 0;
    assert FractionChange(|RecentIn(policy, s, now)|, |s|, 1) >= 0.0;
    assert FractionChange(|s|, |refs|, 1) >= 0.0;
  }

  lemma SubsetCount<T>(a: set<T>, b: set<T>)
    requires a <= b
    ensures |a| <= |b|
  {
    if a != b {
      ProperSubsetSmaller(a, b);
    }
  }

  /** Unit, currency and period agree with what the claim expects; texts are compared by their folded form. */
  ghost predicate ContextMatches(fold: int -> int, claim: Claim, r: Evidence) {
    && (claim.unit.Some? ==> r.unit.Some? && fold(r.unit.value) == fold(claim.unit.value))
    && (claim.currency.Some? ==> r.currency.Some? && fold(r.currency.value) == fold(claim.currency.value))
    && (claim.period.Some? ==> r.period == claim.period)
  }

  /** A reference supports a numeric claim only with a value, in a matching context. */
  ghost predicate Attainable(fold: int -> int, claim: Claim, r: Evidence) {
    claim.numeric && r.onTopic && r.outcome == Supporting ==> r.hasValue && ContextMatches(fold, claim, r)
  }

  const SHIPPED_POLICY := Policy(365, 0.7, 0.4,
                                 map[Authoritative := 1.0, StructuredFinancial := 0.7, ReputableNews := 0.5,
                                     GeneralWeb := 0.2])

  const SAMPLE_CLAIM := Claim(true, None, None, None)
  const SAMPLE_TIME := 1000 * MICROSECONDS_PER_DAY
  const FRESH_SUPPORT := Evidence(1, 1, GeneralWeb, true, Supporting, true, Some(1), Some(1), None, None, SAMPLE_TIME)
  const STALE_SUPPORT := Evidence(2, 2, GeneralWeb, true, Supporting, true, None, None, None, None, 0)

  lemma SupportOfTwo()
    ensures OfStanding({FRESH_SUPPORT}, SAMPLE_TIME, Supporting) == {FRESH_SUPPORT}
    ensures OfStanding({FRESH_SUPPORT, STALE_SUPPORT}, SAMPLE_TIME, Supporting) == {FRESH_SUPPORT, STALE_SUPPORT}
    ensures OfStanding({FRESH_SUPPORT}, SAMPLE_TIME, Contradicting) == {}
    ensures OfStanding({FRESH_SUPPORT, STALE_SUPPORT}, SAMPLE_TIME, Contradicting) == {}
    ensures RecentIn(SHIPPED_POLICY, {FRESH_SUPPORT}, SAMPLE_TIME) == {FRESH_SUPPORT}
    ensures RecentIn(SHIPPED_POLICY, {FRESH_SUPPORT, STALE_SUPPORT}, SAMPLE_TIME) == {FRESH_SUPPORT}
  {
    assert Recent(SHIPPED_POLICY, FRESH_SUPPORT, SAMPLE_TIME);
    assert !Recent(SHIPPED_POLICY, STALE_SUPPORT, SAMPLE_TIME);
  }

  lemma MeritsOfTwo()
    ensures Merit(SHIPPED_POLICY, SAMPLE_CLAIM, {FRESH_SUPPORT}, SAMPLE_TIME) == 0.6
    ensures Merit(SHIPPED_POLICY, SAMPLE_CLAIM, {FRESH_SUPPORT, STALE_SUPPORT}, SAMPLE_TIME) == 0.35
  {
    SupportOfTwo();
    var one, two := {FRESH_SUPPORT}, {FRESH_SUPPORT, STALE_SUPPORT};
    assert FRESH_SUPPORT in two && STALE_SUPPORT in two && |two| == 2;
    assert BestWeight(SHIPPED_POLICY, one) == 0.2 && BestWeight(SHIPPED_POLICY, two) == 0.2;
    assert Complete(SAMPLE_CLAIM, one);
    assert !CompleteFor(SAMPLE_CLAIM, STALE_SUPPORT);
    assert !CrossSource(one) && !CrossSource(two);
  }

  /**
   * Confidence is not monotone in support: next to fresh evidence that verifies a numeric claim, one
   * more reference with the same value, old and without unit or currency, leaves it only partially
   * verified. Both references can be classified as supporting.
   */
  lemma SupportCanLowerConfidence()
    ensures ValidWeights(SHIPPED_POLICY) && StandingOf(STALE_SUPPORT, Some(SAMPLE_TIME)) == Supporting
    ensures forall fold ::
              Attainable(fold, SAMPLE_CLAIM, FRESH_SUPPORT) && Attainable(fold, SAMPLE_CLAIM, STALE_SUPPORT)
    ensures Judge(SHIPPED_POLICY, SAMPLE_CLAIM, {FRESH_SUPPORT}, SAMPLE_TIME).status == Verified
    ensures Judge(SHIPPED_POLICY, SAMPLE_CLAIM, {FRESH_SUPPORT, STALE_SUPPORT}, SAMPLE_TIME).status == PartiallyVerified
    ensures Judge(SHIPPED_POLICY, SAMPLE_CLAIM, {FRESH_SUPPORT, STALE_SUPPORT}, SAMPLE_TIME).confidence
            < Judge(SHIPPED_POLICY, SAMPLE_CLAIM, {FRESH_SUPPORT}, SAMPLE_TIME).confidence
  {
    SupportOfTwo();
    MeritsOfTwo();
    var one, two := {FRESH_SUPPORT}, {FRESH_SUPPORT, STALE_SUPPORT};
    assert |one| == 1 && |two| == 2;
    assert Consistency(1, 1, false) == 0.3 && Consistency(2, 2, false) == 0.3;
    assert Fresh(SHIPPED_POLICY, FRESH_SUPPORT, SAMPLE_TIME);
    assert FRESH_SUPPORT in one && FRESH_SUPPORT in two;
  }
}
