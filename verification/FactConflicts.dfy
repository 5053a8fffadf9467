/**
 * Conflicting financial facts and the statements built from the survivors
 * (src/financial_intelligence/domain/financial/conflicts.py, statements.py and
 * src/financial_intelligence/application/filing_pipeline.py).
 */
module FactConflicts {
  import opened Outcomes
  import opened Sorting
  import opened Grouping

  /** A reporting period: its display label, its end, and everything else that tells periods apart. */
  datatype Period = Period(displayLabel: int, periodEnd: int, detail: int)

  /** `source` stands for the source, filing, retrieval time and provider fields. */
  datatype Fact = Fact(
    company: int,
    concept: int,
    period: Period,
    value: real,
    unit: int,
    currency: Option<int>,
    tier: int,
    source: int)

  datatype ConflictKey = ConflictKey(company: int, concept: int, periodLabel: int)

  function KeyOf(f: Fact): ConflictKey {
    ConflictKey(f.company, f.concept, f.period.displayLabel)
  }

  function TierOf(f: Fact): int {
    f.tier
  }

  datatype Rule = ValuesAgree | HigherAuthorityTier | Unresolved

  datatype FactConflict = FactConflict(candidates: seq<Fact>, rule: Rule, selected: Option<Fact>)

  /** What a reader of a fact relies on, apart from where it came from. */
  function Material(f: Fact): (real, int, Option<int>, Period, int) {
    (f.value, f.unit, f.currency, f.period, f.tier)
  }

  // ----- The rule of a group, by its set of facts alone -----

  ghost predicate SameBasis(fs: set<Fact>) {
    forall x, y :: x in fs && y in fs ==> x.unit == y.unit && x.currency == y.currency && x.period == y.period
  }

  ghost predicate SameValues(fs: set<Fact>) {
    forall x, y :: x in fs && y in fs ==> x.value == y.value
  }

  ghost predicate OfBestTier(fs: set<Fact>, x: Fact) {
    x in fs && forall y :: y in fs ==> x.tier <= y.tier
  }

  ghost predicate BestTierAgrees(fs: set<Fact>) {
    forall x, y :: OfBestTier(fs, x) && OfBestTier(fs, y) ==> x.value == y.value
  }

  ghost function RuleOf(fs: set<Fact>): Rule {
    if !SameBasis(fs) then Unresolved
    else if SameValues(fs) then ValuesAgree
    else if BestTierAgrees(fs) then HigherAuthorityTier
    else Unresolved
  }

  ghost function FactsWith(fs: set<Fact>, key: ConflictKey): set<Fact> {
    set f | f in fs && KeyOf(f) == key
  }

  ghost function AsSet(fs: seq<Fact>): set<Fact> {
    set f | f in fs
  }

  // ----- Resolving one group -----

  datatype GroupError = TooFewCandidates | MixedKeys

  ghost predicate SharedKey(g: seq<Fact>) {
    forall i :: 0 <= i < |g| ==> KeyOf(g[i]) == KeyOf(g[0])
  }

  /** Position `i` holds the earliest fact of the best tier. */
  ghost predicate FirstOfBest(g: seq<Fact>, i: nat) {
    && i < |g|
    && (forall k :: 0 <= k < |g| ==> g[i].tier <= g[k].tier)
    && (forall k :: 0 <= k < i ==> g[i].tier < g[k].tier)
  }

  ghost predicate Resolves(g: seq<Fact>, c: FactConflict) {
    && c.candidates == g
    && c.rule == RuleOf(AsSet(g))
    && (c.selected.Some? <==> c.rule != Unresolved)
    && (c.selected.Some? ==> OfBestTier(AsSet(g), c.selected.value))
    && (c.selected.Some? ==> exists i: nat :: FirstOfBest(g, i) && g[i] == c.selected.value)
  }

  method CheckBasis(g: seq<Fact>) returns (same: bool)
    requires g != []
    ensures same <==> SameBasis(AsSet(g))
  {
    for i := 0 to |g|
      invariant forall k :: 0 <= k < i ==>
                  g[k].unit == g[0].unit && g[k].currency == g[0].currency && g[k].period == g[0].period
    {
      if g[i].unit != g[0].unit || g[i].currency != g[0].currency || g[i].period != g[0].period {
        assert g[i] in AsSet(g) && g[0] in AsSet(g);
        return false;
      }
    }
    forall x | x in AsSet(g) ensures x.unit == g[0].unit && x.currency == g[0].currency && x.period == g[0].period {
      var k :| 0 <= k < |g| && g[k] == x;
    }
    return true;
  }

  method CheckValues(g: seq<Fact>) returns (same: bool)
    ensures same <==> SameValues(AsSet(g))
  {
    for i := 0 to |g|
      invariant forall k :: 0 <= k < i ==> g[k].value == g[0].value
    {
      if g[i].value != g[0].value {
        assert g[i] in AsSet(g) && g[0] in AsSet(g);
        return false;
      }
    }
    forall x | x in AsSet(g) ensures x.value == g[0].value {
      var k :| 0 <= k < |g| && g[k] == x;
    }
    return true;
  }

  /** The first fact of the least tier. */
  method FirstOfBestTier(g: seq<Fact>) returns (f: Fact, ghost at: nat)
    requires g != []
    ensures FirstOfBest(g, at) && g[at] == f
    ensures OfBestTier(AsSet(g), f)
  {
    f, at := g[0], 0;
    for i := 1 to |g|
      invariant at < i && g[at] == f
      invariant forall k :: 0 <= k < i ==> f.tier <= g[k].tier
      invariant forall k :: 0 <= k < at ==> f.tier < g[k].tier
    {
      if g[i].tier < f.tier {
        f, at := g[i], i;
      }
    }
    assert g[at] in g;
    forall y | y in AsSet(g) ensures f.tier <= y.tier {
      var k :| 0 <= k < |g| && g[k] == y;
    }
  }

  lemma {:induction false} OfTierHead(g: seq<Fact>, tier: int, i: nat)
    requires i < |g| && g[i].tier == tier && forall k :: 0 <= k < i ==> g[k].tier != tier
    ensures Having(g, TierOf, tier) != [] && Having(g, TierOf, tier)[0] == g[i]
  {
    if i < |g| - 1 {
      OfTierHead(g[..|g| - 1], tier, i);
    } else if Having(g[..i], TierOf, tier) != [] {
      HavingMembers(g[..i], TierOf, tier, Having(g[..i], TierOf, tier)[0]);
      assert false;
    }
  }

  lemma WinnersAreBest(g: seq<Fact>, best: Fact)
    requires OfBestTier(AsSet(g), best)
    ensures forall x :: x in Having(g, TierOf, best.tier) <==> OfBestTier(AsSet(g), x)
    ensures SameValues(AsSet(Having(g, TierOf, best.tier))) <==> BestTierAgrees(AsSet(g))
  {
    var winners := Having(g, TierOf, best.tier);
    forall x ensures x in winners <==> OfBestTier(AsSet(g), x) {
      HavingMembers(g, TierOf, best.tier, x);
    }
    assert forall x :: x in AsSet(winners) <==> OfBestTier(AsSet(g), x);
  }

  lemma SeveralTiers(g: seq<Fact>, best: Fact, tiers: set<int>)
    requires OfBestTier(AsSet(g), best) && !SameValues(AsSet(g)) && BestTierAgrees(AsSet(g))
    requires tiers == set f | f in g :: f.tier
    ensures |tiers| > 1
  {
    var x: Fact, y: Fact :| x in AsSet(g) && y in AsSet(g) && x.value != y.value;
    var other := if x.tier != best.tier then x.tier else y.tier;
    assert other != best.tier by {
      if x.tier == best.tier { assert OfBestTier(AsSet(g), x); }
      if y.tier == best.tier { assert OfBestTier(AsSet(g), y); }
    }
    hide *;
    assert {best.tier, other} <= tiers;
    assert tiers == {best.tier, other} + (tiers - {best.tier, other});
  }

  /** No fact of the group has a higher authority: a lower tier number. */
  ghost predicate NoneOutranks(g: seq<Fact>, i: int) {
    0 <= i < |g| && forall k :: 0 <= k < |g| ==> g[i].tier <= g[k].tier
  }

  /** The facts report in one unit, currency and period. */
  ghost predicate OneBasis(g: seq<Fact>) {
    forall i, j :: 0 <= i < |g| && 0 <= j < |g| ==>
      g[i].unit == g[j].unit && g[i].currency == g[j].currency && g[i].period == g[j].period
  }

  /** Two facts that none outranks report different values. */
  ghost predicate BestDisagree(g: seq<Fact>) {
    exists i, j :: NoneOutranks(g, i) && NoneOutranks(g, j) && g[i].value != g[j].value
  }

  /**
   * What decides a group: without one basis it stays unresolved; on one basis it does so exactly when
   * facts that none outranks disagree; equal values agree; and otherwise authority decides. The selected
   * fact is one that none outranks, and carries the value of every other such fact.
   */
  ghost predicate DecidedByAuthority(g: seq<Fact>, c: FactConflict) {
    && (c.rule == Unresolved <==> !OneBasis(g) || BestDisagree(g))
    && (c.rule == ValuesAgree
        <==> OneBasis(g) && forall i, j :: 0 <= i < |g| && 0 <= j < |g| ==> g[i].value == g[j].value)
    && (c.rule != Unresolved ==>
          && c.selected.Some?
          && (exists i :: NoneOutranks(g, i) && g[i] == c.selected.value)
          && forall i :: NoneOutranks(g, i) ==> g[i].value == c.selected.value.value)
    && (c.rule == Unresolved ==> c.selected == None)
  }

  lemma BestTierIff(g: seq<Fact>, x: Fact)
    ensures OfBestTier(AsSet(g), x) <==> exists i :: NoneOutranks(g, i) && g[i] == x
  {
    if OfBestTier(AsSet(g), x) {
      var i :| 0 <= i < |g| && g[i] == x;
      forall k | 0 <= k < |g| ensures g[i].tier <= g[k].tier { assert g[k] in AsSet(g); }
      assert NoneOutranks(g, i);
    }
    if i :| NoneOutranks(g, i) && g[i] == x {
      forall y | y in AsSet(g) ensures x.tier <= y.tier {
        var k :| 0 <= k < |g| && g[k] == y;
      }
    }
  }

  lemma BasisIff(g: seq<Fact>)
    ensures SameBasis(AsSet(g)) <==> OneBasis(g)
    ensures SameValues(AsSet(g)) <==> forall i, j :: 0 <= i < |g| && 0 <= j < |g| ==> g[i].value == g[j].value
  {
    forall i | 0 <= i < |g| ensures g[i] in AsSet(g) {}
    if OneBasis(g) {
      forall x, y | x in AsSet(g) && y in AsSet(g)
        ensures x.unit == y.unit && x.currency == y.currency && x.period == y.period
      {
        var i :| 0 <= i < |g| && g[i] == x;
        var j :| 0 <= j < |g| && g[j] == y;
      }
    }
    if forall i, j :: 0 <= i < |g| && 0 <= j < |g| ==> g[i].value == g[j].value {
      forall x, y | x in AsSet(g) && y in AsSet(g) ensures x.value == y.value {
        var i :| 0 <= i < |g| && g[i] == x;
        var j :| 0 <= j < |g| && g[j] == y;
      }
    }
  }

  lemma BestDisagreeIff(g: seq<Fact>)
    ensures BestTierAgrees(AsSet(g)) <==> !BestDisagree(g)
  {
    forall x ensures OfBestTier(AsSet(g), x) <==> exists i :: NoneOutranks(g, i) && g[i] == x {
      BestTierIff(g, x);
    }
    if i, j :| NoneOutranks(g, i) && NoneOutranks(g, j) && g[i].value != g[j].value {
      assert OfBestTier(AsSet(g), g[i]) && OfBestTier(AsSet(g), g[j]);
    }
    if !BestTierAgrees(AsSet(g)) {
      var x, y :| OfBestTier(AsSet(g), x) && OfBestTier(AsSet(g), y) && x.value != y.value;
      var i :| NoneOutranks(g, i) && g[i] == x;
      var j :| NoneOutranks(g, j) && g[j] == y;
    }
  }

  /** The rule written out in the fields of the facts. */
  lemma AuthorityDecides(g: seq<Fact>, c: FactConflict)
    requires g != [] && Resolves(g, c)
    ensures DecidedByAuthority(g, c)
  {
    BasisIff(g);
    BestDisagreeIff(g);
    if c.selected.Some? {
      BestTierIff(g, c.selected.value);
      var n :| NoneOutranks(g, n) && g[n] == c.selected.value;
      forall i | NoneOutranks(g, i) ensures g[i].value == c.selected.value.value {
        assert NoneOutranks(g, i) && NoneOutranks(g, n);
      }
    }
  }

  method ResolveFactConflict(g: seq<Fact>) returns (r: Result<FactConflict, GroupError>)
    ensures r == Err(TooFewCandidates) <==> |g| < 2
    ensures r == Err(MixedKeys) <==> |g| >= 2 && !SharedKey(g)
    ensures r.Ok? <==> |g| >= 2 && SharedKey(g)
    ensures r.Ok? ==> Resolves(g, r.value)
    ensures r.Ok? ==> DecidedByAuthority(g, r.value)
  {
    if |g| < 2 {
      return Err(TooFewCandidates);
    }
    for i := 1 to |g|
      invariant forall k :: 0 <= k < i ==> KeyOf(g[k]) == KeyOf(g[0])
    {
      if KeyOf(g[i]) != KeyOf(g[0]) {
        return Err(MixedKeys);
      }
    }
    var sameBasis := CheckBasis(g);
    if !sameBasis {
      r := Ok(FactConflict(g, Unresolved, None));
      AuthorityDecides(g, r.value);
      return;
    }
    var best, at := FirstOfBestTier(g);
    var sameValues := CheckValues(g);
    if sameValues {
      r := Ok(FactConflict(g, ValuesAgree, Some(best)));
      AuthorityDecides(g, r.value);
      return;
    }
    var tiers := set f | f in g :: f.tier;
    var winners := Having(g, TierOf, best.tier);
    WinnersAreBest(g, best);
    OfTierHead(g, best.tier, at);
    var winnersAgree := CheckValues(winners);
    if winnersAgree { SeveralTiers(g, best, tiers); }
    if |tiers| > 1 && winnersAgree {
      r := Ok(FactConflict(g, HigherAuthorityTier, Some(winners[0])));
      AuthorityDecides(g, r.value);
      return;
    }
    r := Ok(FactConflict(g, Unresolved, None));
    AuthorityDecides(g, r.value);
  }

  // ----- Grouping -----

  /** The facts with the given key, in order. */
  function GroupOf(fs: seq<Fact>, key: ConflictKey): seq<Fact> {
    Having(fs, KeyOf, key)
  }

  lemma GroupSet(fs: seq<Fact>, key: ConflictKey)
    ensures AsSet(GroupOf(fs, key)) == FactsWith(AsSet(fs), key)
    ensures SharedKey(GroupOf(fs, key))
  {
    forall f ensures f in GroupOf(fs, key) <==> f in fs && KeyOf(f) == key { HavingMembers(fs, KeyOf, key, f); }
    var g := GroupOf(fs, key);
    forall i | 0 <= i < |g| ensures KeyOf(g[i]) == key { assert g[i] in g; }
  }

  // ----- Survivors -----

  /** `f` may stand for its key: the group is resolved and `f` is of its best tier. */
  ghost predicate MaySurvive(fs: set<Fact>, f: Fact) {
    var group := FactsWith(fs, KeyOf(f));
    RuleOf(group) != Unresolved && OfBestTier(group, f)
  }

  ghost function ResolvedKeys(fs: set<Fact>, keys: seq<ConflictKey>): seq<ConflictKey> {
    if keys == [] then []
    else
      var last := keys[|keys| - 1];
      ResolvedKeys(fs, keys[..|keys| - 1]) + (if RuleOf(FactsWith(fs, last)) != Unresolved then [last] else [])
  }

  ghost function KeysOf(fs: seq<Fact>): seq<ConflictKey> {
    seq(|fs|, i requires 0 <= i < |fs| => KeyOf(fs[i]))
  }

  /** One fact for each resolved key among `keys`, in their order, and nothing else. */
  ghost predicate SurvivorsAmong(fs: seq<Fact>, keys: seq<ConflictKey>, survivors: seq<Fact>) {
    && KeysOf(survivors) == ResolvedKeys(AsSet(fs), keys)
    && AllMaySurvive(AsSet(fs), survivors)
  }

  /** The survivors of all facts, in the order in which their keys first occur. */
  ghost predicate SurvivorsOf(fs: seq<Fact>, survivors: seq<Fact>) {
    SurvivorsAmong(fs, FirstSeen(fs, KeyOf), survivors)
  }

  ghost predicate HasKey(fs: seq<Fact>, key: ConflictKey) {
    exists f :: f in fs && KeyOf(f) == key
  }

  ghost predicate AllMaySurvive(all: set<Fact>, survivors: seq<Fact>) {
    forall i {:trigger survivors[i]} :: 0 <= i < |survivors| ==> MaySurvive(all, survivors[i])
  }

  lemma {:induction false} ResolvedKeysExact(fs: set<Fact>, keys: seq<ConflictKey>, key: ConflictKey)
    ensures key in ResolvedKeys(fs, keys) <==> key in keys && RuleOf(FactsWith(fs, key)) != Unresolved
  {
    if keys != [] {
      var shorter, last := keys[..|keys| - 1], keys[|keys| - 1];
      ResolvedKeysExact(fs, shorter, key);
      assert keys == shorter + [last];
    }
  }

  lemma {:induction false} ResolvedKeysDistinct(fs: set<Fact>, keys: seq<ConflictKey>)
    requires NoDuplicates(keys)
    ensures NoDuplicates(ResolvedKeys(fs, keys))
  {
    if keys != [] {
      var shorter, last := keys[..|keys| - 1], keys[|keys| - 1];
      ResolvedKeysDistinct(fs, shorter);
      ResolvedKeysExact(fs, shorter, last);
      assert last !in shorter;
    }
  }

  /** Survivors have different keys, and the keys that survive are the resolved ones. */
  lemma SurvivorsCoverKeys(fs: seq<Fact>, survivors: seq<Fact>)
    requires SurvivorsOf(fs, survivors)
    ensures forall i, j :: 0 <= i < j < |survivors| ==> KeyOf(survivors[i]) != KeyOf(survivors[j])
    ensures forall key :: HasKey(survivors, key) <==> HasKey(fs, key) && RuleOf(FactsWith(AsSet(fs), key)) != Unresolved
  {
    var keys, ks := FirstSeen(fs, KeyOf), KeysOf(survivors);
    FirstSeenKeys(fs, KeyOf);
    ResolvedKeysDistinct(AsSet(fs), keys);
    forall i, j | 0 <= i < j < |survivors| ensures KeyOf(survivors[i]) != KeyOf(survivors[j]) {
      assert ks[i] != ks[j];
    }
    forall key ensures HasKey(survivors, key) <==> HasKey(fs, key) && RuleOf(FactsWith(AsSet(fs), key)) != Unresolved {
      ResolvedKeysExact(AsSet(fs), keys, key);
      KeysOfSurvivors(survivors, key);
    }
  }

  lemma KeysOfSurvivors(survivors: seq<Fact>, key: ConflictKey)
    ensures key in KeysOf(survivors) <==> HasKey(survivors, key)
  {
    var ks := KeysOf(survivors);
    if key in ks {
      var i :| 0 <= i < |ks| && ks[i] == key;
      assert survivors[i] in survivors;
    }
    if f :| f in survivors && KeyOf(f) == key {
      var i :| 0 <= i < |survivors| && survivors[i] == f;
      assert ks[i] == key;
    }
  }

  /** One record for every shared key, with all its facts and the group's rule. */
  ghost predicate RecordsOf(fs: seq<Fact>, keys: seq<ConflictKey>, conflicts: seq<FactConflict>) {
    && |conflicts| == |keys|
    && forall i {:trigger Resolves(GroupOf(fs, keys[i]), conflicts[i])} ::
         0 <= i < |keys| ==> Resolves(GroupOf(fs, keys[i]), conflicts[i])
  }

  lemma LoneFact(fs: seq<Fact>, key: ConflictKey, f: Fact)
    requires GroupOf(fs, key) == [f]
    ensures MaySurvive(AsSet(fs), f) && KeyOf(f) == key
  {
    GroupSet(fs, key);
    assert f in [f];
    HavingMembers(fs, KeyOf, key, f);
    assert AsSet([f]) == {f};
  }

  method KeepOfGroup(fs: seq<Fact>, key: ConflictKey, g: seq<Fact>)
    returns (kept: seq<Fact>, conflict: Option<FactConflict>)
    requires g == GroupOf(fs, key) && g != []
    ensures KeysOf(kept) == if RuleOf(FactsWith(AsSet(fs), key)) != Unresolved then [key] else []
    ensures AllMaySurvive(AsSet(fs), kept)
    ensures conflict.Some? <==> |g| >= 2
    ensures conflict.Some? ==> Resolves(g, conflict.value)
  {
    GroupSet(fs, key);
    if |g| == 1 {
      LoneFact(fs, key, g[0]);
      return g, None;
    }
    var resolved := ResolveFactConflict(g);
    var c := resolved.value;
    if c.selected.Some? {
      HavingMembers(fs, KeyOf, key, c.selected.value);
      return [c.selected.value], Some(c);
    }
    return [], Some(c);
  }

  lemma KeysOfBoth(a: seq<Fact>, b: seq<Fact>)
    ensures KeysOf(a + b) == KeysOf(a) + KeysOf(b)
  {
    forall i | 0 <= i < |a + b| ensures KeysOf(a + b)[i] == (KeysOf(a) + KeysOf(b))[i] {}
  }

  lemma ResolvedOneMore(all: set<Fact>, keys: seq<ConflictKey>, key: ConflictKey)
    ensures ResolvedKeys(all, keys + [key])
            == ResolvedKeys(all, keys) + (if RuleOf(FactsWith(all, key)) != Unresolved then [key] else [])
  {
    hide RuleOf, FactsWith;
    assert (keys + [key])[..|keys|] == keys;
  }

  lemma KeysOneMore(all: set<Fact>, keys: seq<ConflictKey>, key: ConflictKey, survivors: seq<Fact>, kept: seq<Fact>)
    requires KeysOf(survivors) == ResolvedKeys(all, keys)
    requires KeysOf(kept) == if RuleOf(FactsWith(all, key)) != Unresolved then [key] else []
    ensures KeysOf(survivors + kept) == ResolvedKeys(all, keys + [key])
  {
    ResolvedOneMore(all, keys, key);
    KeysOfBoth(survivors, kept);
    hide *;
  }

  lemma MayKeepBoth(all: set<Fact>, survivors: seq<Fact>, kept: seq<Fact>)
    requires AllMaySurvive(all, survivors) && AllMaySurvive(all, kept)
    ensures AllMaySurvive(all, survivors + kept)
  {
    var both := survivors + kept;
    forall i | 0 <= i < |both| ensures MaySurvive(all, both[i]) {
      assert both[i] == if i < |survivors| then survivors[i] else kept[i - |survivors|];
    }
  }

  lemma RecordOneMore(fs: seq<Fact>, keys: seq<ConflictKey>, key: ConflictKey, conflicts: seq<FactConflict>,
                      conflict: Option<FactConflict>)
    requires RecordsOf(fs, SharedKeys(fs, KeyOf, keys), conflicts)
    requires conflict.Some? <==> |GroupOf(fs, key)| >= 2
    requires conflict.Some? ==> Resolves(GroupOf(fs, key), conflict.value)
    ensures RecordsOf(fs, SharedKeys(fs, KeyOf, keys + [key]),
                      if conflict.Some? then conflicts + [conflict.value] else conflicts)
  {
    var shared := SharedKeys(fs, KeyOf, keys);
    assert (keys + [key])[..|keys|] == keys;
    if conflict.Some? {
      var more := conflicts + [conflict.value];
      forall i | 0 <= i < |shared| + 1 ensures Resolves(GroupOf(fs, (shared + [key])[i]), more[i]) {
        if i < |shared| { assert Resolves(GroupOf(fs, shared[i]), conflicts[i]); }
      }
    }
  }

  /** Groups the facts by key and resolves every group, in the order in which the keys first occur. */
  method DetectFactConflicts(fs: seq<Fact>) returns (survivors: seq<Fact>, conflicts: seq<FactConflict>)
    ensures SurvivorsOf(fs, survivors)
    ensures RecordsOf(fs, SharedKeys(fs, KeyOf, FirstSeen(fs, KeyOf)), conflicts)
  {
    var order, buckets := BucketByKey(fs, KeyOf);
    FirstSeenKeys(fs, KeyOf);
    survivors, conflicts := [], [];
    ghost var keys: seq<ConflictKey> := [];
    for n := 0 to |order|
      invariant keys == order[..n] && SurvivorsAmong(fs, keys, survivors)
      invariant RecordsOf(fs, SharedKeys(fs, KeyOf, keys), conflicts)
    {
      assert order[n] in order;
      NewAtPosition(order, n);
      var kept, conflict := KeepOfGroup(fs, order[n], buckets[order[n]]);
      KeysOneMore(AsSet(fs), keys, order[n], survivors, kept);
      MayKeepBoth(AsSet(fs), survivors, kept);
      RecordOneMore(fs, keys, order[n], conflicts, conflict);
      keys := keys + [order[n]];
      survivors := survivors + kept;
      if conflict.Some? {
        conflicts := conflicts + [conflict.value];
      }
    }
    assert keys == order;
  }

  // ----- No last write wins -----

  /** Facts of one resolved key that may survive agree in value, unit, currency, period and tier. */
  lemma SurvivorIsDetermined(fs: set<Fact>, a: Fact, b: Fact)
    requires KeyOf(a) == KeyOf(b) && MaySurvive(fs, a) && MaySurvive(fs, b)
    ensures Material(a) == Material(b)
  {
  }

  /**
   * The order of arrival decides nothing: for two arrangements of the same facts each key has the
   * same rule, has a survivor in one result exactly when it has one in the other, and the two
   * survivors agree in value, unit, currency, period and tier.
   */
  lemma NoLastWriteWins(fs: seq<Fact>, gs: seq<Fact>, a: seq<Fact>, b: seq<Fact>, key: ConflictKey)
    requires multiset(fs) == multiset(gs) && SurvivorsOf(fs, a) && SurvivorsOf(gs, b)
    ensures RuleOf(AsSet(GroupOf(fs, key))) == RuleOf(AsSet(GroupOf(gs, key)))
    ensures HasKey(a, key) <==> HasKey(b, key)
    ensures forall x, y :: x in a && y in b && KeyOf(x) == key && KeyOf(y) == key ==> Material(x) == Material(y)
  {
    SameElements(fs, gs);
    assert AsSet(fs) == AsSet(gs) && (HasKey(fs, key) <==> HasKey(gs, key));
    GroupSet(fs, key);
    GroupSet(gs, key);
    SurvivorsCoverKeys(fs, a);
    SurvivorsCoverKeys(gs, b);
    forall x, y | x in a && y in b && KeyOf(x) == key && KeyOf(y) == key ensures Material(x) == Material(y) {
      SurvivorIsDetermined(AsSet(fs), x, y);
    }
  }

  /** A key has at most one survivor, and none when its group is unresolved. */
  lemma OneSurvivorPerKey(fs: seq<Fact>, survivors: seq<Fact>, key: ConflictKey)
    requires SurvivorsOf(fs, survivors)
    ensures forall x, y :: x in survivors && y in survivors && KeyOf(x) == key && KeyOf(y) == key ==> x == y
    ensures RuleOf(FactsWith(AsSet(fs), key)) == Unresolved ==> !HasKey(survivors, key)
  {
    SurvivorsCoverKeys(fs, survivors);
    forall x, y | x in survivors && y in survivors && KeyOf(x) == key && KeyOf(y) == key ensures x == y {
      var i :| 0 <= i < |survivors| && survivors[i] == x;
      var j :| 0 <= j < |survivors| && survivors[j] == y;
    }
  }

  /** The facts of one company and concept under one period label. */
  ghost predicate Competes(fs: seq<Fact>, i: int, company: int, concept: int, periodLabel: int) {
    0 <= i < |fs| && fs[i].company == company && fs[i].concept == concept && fs[i].period.displayLabel == periodLabel
  }

  /** Among its competitors no fact has a higher authority. */
  ghost predicate Leads(fs: seq<Fact>, i: int, company: int, concept: int, periodLabel: int) {
    && Competes(fs, i, company, concept, periodLabel)
    && forall k :: Competes(fs, k, company, concept, periodLabel) ==> fs[i].tier <= fs[k].tier
  }

  /** Two competitors report in different units, currencies or periods. */
  ghost predicate BasesDiffer(fs: seq<Fact>, company: int, concept: int, periodLabel: int) {
    exists i, j :: Competes(fs, i, company, concept, periodLabel) && Competes(fs, j, company, concept, periodLabel) &&
      (fs[i].unit != fs[j].unit || fs[i].currency != fs[j].currency || fs[i].period != fs[j].period)
  }

  /** Two competitors of the highest authority report different values. */
  ghost predicate LeadersDiffer(fs: seq<Fact>, company: int, concept: int, periodLabel: int) {
    exists i, j :: Leads(fs, i, company, concept, periodLabel) && Leads(fs, j, company, concept, periodLabel) &&
      fs[i].value != fs[j].value
  }

  /**
   * Authority decides what survives: a fact of a company, concept and period label survives exactly when
   * there is one, all share unit, currency and period, and those of the highest authority carry one value.
   * It has that authority and that value, whatever the others say and in whatever order they arrive.
   */
  lemma HighestAuthoritySurvives(fs: seq<Fact>, survivors: seq<Fact>, company: int, concept: int, periodLabel: int)
    requires SurvivorsOf(fs, survivors)
    ensures (exists i :: Competes(survivors, i, company, concept, periodLabel))
            <==> (exists i :: Competes(fs, i, company, concept, periodLabel))
                 && !BasesDiffer(fs, company, concept, periodLabel) && !LeadersDiffer(fs, company, concept, periodLabel)
    ensures forall i, k :: Competes(survivors, i, company, concept, periodLabel)
                           && Leads(fs, k, company, concept, periodLabel) ==>
              survivors[i].tier == fs[k].tier && survivors[i].value == fs[k].value
  {
    if n :| Competes(fs, n, company, concept, periodLabel) {
      var key := KeyOf(fs[n]);
      var group := FactsWith(AsSet(fs), key);
      assert fs[n] in AsSet(fs) && fs[n] in group;
      CompetitorsAreTheGroup(fs, group, company, concept, periodLabel, n);
      GroupRuleIff(fs, group, company, concept, periodLabel);
      SurvivorsCoverKeys(fs, survivors);
      assert HasKey(fs, key);
      KeyHasSurvivorIff(survivors, company, concept, periodLabel, key);
      forall i, k | Competes(survivors, i, company, concept, periodLabel) && Leads(fs, k, company, concept, periodLabel)
        ensures survivors[i].tier == fs[k].tier && survivors[i].value == fs[k].value
      {
        assert KeyOf(survivors[i]) == key && MaySurvive(AsSet(fs), survivors[i]);
        BestIsLeading(fs, group, company, concept, periodLabel, survivors[i], k);
      }
    } else {
      SurvivorsCompeted(fs, survivors, company, concept, periodLabel);
    }
  }

  lemma SurvivorsCompeted(fs: seq<Fact>, survivors: seq<Fact>, company: int, concept: int, periodLabel: int)
    requires SurvivorsOf(fs, survivors)
    ensures forall i :: Competes(survivors, i, company, concept, periodLabel) ==>
              exists k :: Competes(fs, k, company, concept, periodLabel)
  {
    forall i | Competes(survivors, i, company, concept, periodLabel)
      ensures exists k :: Competes(fs, k, company, concept, periodLabel)
    {
      assert MaySurvive(AsSet(fs), survivors[i]);
      var k :| 0 <= k < |fs| && fs[k] == survivors[i];
      assert Competes(fs, k, company, concept, periodLabel);
    }
  }

  lemma KeyHasSurvivorIff(survivors: seq<Fact>, company: int, concept: int, periodLabel: int, key: ConflictKey)
    requires forall f: Fact :: KeyOf(f) == key <==>
               f.company == company && f.concept == concept && f.period.displayLabel == periodLabel
    ensures HasKey(survivors, key) <==> exists i :: Competes(survivors, i, company, concept, periodLabel)
  {
    if x :| x in survivors && KeyOf(x) == key {
      var i :| 0 <= i < |survivors| && survivors[i] == x;
      assert Competes(survivors, i, company, concept, periodLabel);
    }
    if i :| Competes(survivors, i, company, concept, periodLabel) {
      assert survivors[i] in survivors && KeyOf(survivors[i]) == key;
    }
  }

  /** The group holds the competitors and nothing else. */
  ghost predicate HoldsCompetitors(fs: seq<Fact>, group: set<Fact>, company: int, concept: int, periodLabel: int) {
    && (forall x :: x in group ==> exists k :: Competes(fs, k, company, concept, periodLabel) && fs[k] == x)
    && forall k :: Competes(fs, k, company, concept, periodLabel) ==> fs[k] in group
  }

  lemma CompetitorsAreTheGroup(fs: seq<Fact>, group: set<Fact>, company: int, concept: int, periodLabel: int, n: int)
    requires Competes(fs, n, company, concept, periodLabel) && group == FactsWith(AsSet(fs), KeyOf(fs[n]))
    ensures HoldsCompetitors(fs, group, company, concept, periodLabel)
  {
    forall x | x in group ensures exists k :: Competes(fs, k, company, concept, periodLabel) && fs[k] == x {
      var k :| 0 <= k < |fs| && fs[k] == x;
      assert Competes(fs, k, company, concept, periodLabel);
    }
    forall k | Competes(fs, k, company, concept, periodLabel) ensures fs[k] in group {}
  }

  lemma LeadingIsBest(fs: seq<Fact>, group: set<Fact>, company: int, concept: int, periodLabel: int, k: int)
    requires HoldsCompetitors(fs, group, company, concept, periodLabel)
    requires Leads(fs, k, company, concept, periodLabel)
    ensures OfBestTier(group, fs[k])
  {
    forall y | y in group ensures fs[k].tier <= y.tier {
      var j :| Competes(fs, j, company, concept, periodLabel) && fs[j] == y;
    }
  }

  lemma GroupBasisIff(fs: seq<Fact>, group: set<Fact>, company: int, concept: int, periodLabel: int)
    requires HoldsCompetitors(fs, group, company, concept, periodLabel)
    ensures SameBasis(group) <==> !BasesDiffer(fs, company, concept, periodLabel)
  {
    if !SameBasis(group) {
      var x, y :| x in group && y in group && !(x.unit == y.unit && x.currency == y.currency && x.period == y.period);
      var i :| Competes(fs, i, company, concept, periodLabel) && fs[i] == x;
      var j :| Competes(fs, j, company, concept, periodLabel) && fs[j] == y;
    }
  }

  lemma GroupBestIff(fs: seq<Fact>, group: set<Fact>, company: int, concept: int, periodLabel: int)
    requires HoldsCompetitors(fs, group, company, concept, periodLabel)
    ensures BestTierAgrees(group) <==> !LeadersDiffer(fs, company, concept, periodLabel)
  {
    if !BestTierAgrees(group) {
      var x, y :| OfBestTier(group, x) && OfBestTier(group, y) && x.value != y.value;
      var i :| Competes(fs, i, company, concept, periodLabel) && fs[i] == x;
      var j :| Competes(fs, j, company, concept, periodLabel) && fs[j] == y;
      assert Leads(fs, i, company, concept, periodLabel) && Leads(fs, j, company, concept, periodLabel);
    }
    if i, j :| Leads(fs, i, company, concept, periodLabel) && Leads(fs, j, company, concept, periodLabel)
               && fs[i].value != fs[j].value {
      LeadingIsBest(fs, group, company, concept, periodLabel, i);
      LeadingIsBest(fs, group, company, concept, periodLabel, j);
    }
  }

  lemma GroupRuleIff(fs: seq<Fact>, group: set<Fact>, company: int, concept: int, periodLabel: int)
    requires HoldsCompetitors(fs, group, company, concept, periodLabel)
    ensures RuleOf(group) != Unresolved
            <==> !BasesDiffer(fs, company, concept, periodLabel) && !LeadersDiffer(fs, company, concept, periodLabel)
  {
    GroupBasisIff(fs, group, company, concept, periodLabel);
    GroupBestIff(fs, group, company, concept, periodLabel);
    hide HoldsCompetitors, BasesDiffer, LeadersDiffer, Leads, Competes;
  }

  lemma BestIsLeading(fs: seq<Fact>, group: set<Fact>, company: int, concept: int, periodLabel: int, x: Fact, k: int)
    requires HoldsCompetitors(fs, group, company, concept, periodLabel)
    requires RuleOf(group) != Unresolved && OfBestTier(group, x) && Leads(fs, k, company, concept, periodLabel)
    ensures x.tier == fs[k].tier && x.value == fs[k].value
  {
    LeadingIsBest(fs, group, company, concept, periodLabel, k);
  }

  // ----- Statements -----

  datatype IndexError = ConceptNotAllowed | CompanyMismatch | PeriodMismatch | DuplicateConcept

  ghost predicate DistinctConcepts(fs: seq<Fact>) {
    forall i, j :: 0 <= i < j < |fs| ==> fs[i].concept != fs[j].concept
  }

  ghost predicate FitsStatement(f: Fact, allowed: set<int>, company: int, period: Period) {
    f.concept in allowed && f.company == company && f.period == period
  }

  /** What is wrong with the fact at position `k`, the tests in the order of the source. */
  ghost function FaultAt(fs: seq<Fact>, allowed: set<int>, company: int, period: Period, k: nat): Option<IndexError>
    requires k < |fs|
  {
    if fs[k].concept !in allowed then Some(ConceptNotAllowed)
    else if fs[k].company != company then Some(CompanyMismatch)
    else if fs[k].period != period then Some(PeriodMismatch)
    else if exists j :: 0 <= j < k && fs[j].concept == fs[k].concept then Some(DuplicateConcept)
    else None
  }

  ghost predicate FirstFault(fs: seq<Fact>, allowed: set<int>, company: int, period: Period, k: nat,
                             error: IndexError) {
    && k < |fs|
    && FaultAt(fs, allowed, company, period, k) == Some(error)
    && forall j: nat :: j < k ==> FaultAt(fs, allowed, company, period, j) == None
  }

  /** The fact at position `k` has the fault named, and none that is looked for earlier. */
  ghost predicate Offends(fs: seq<Fact>, k: int, allowed: set<int>, company: int, period: Period, fault: IndexError) {
    && 0 <= k < |fs|
    && (fault == ConceptNotAllowed <==> fs[k].concept !in allowed)
    && (fault == CompanyMismatch <==> fs[k].concept in allowed && fs[k].company != company)
    && (fault == PeriodMismatch <==> fs[k].concept in allowed && fs[k].company == company && fs[k].period != period)
    && (fault == DuplicateConcept ==> exists j :: 0 <= j < k && fs[j].concept == fs[k].concept)
  }

  /** Indexes the facts of a statement by concept; refuses foreign facts and a second fact of a concept. */
  method IndexFacts(fs: seq<Fact>, allowed: set<int>, company: int, period: Period)
    returns (r: Result<map<int, Fact>, IndexError>)
    ensures r.Ok?
            <==> (forall i :: 0 <= i < |fs| ==> FitsStatement(fs[i], allowed, company, period)) && DistinctConcepts(fs)
    ensures r.Ok? <==>
              && (forall i :: 0 <= i < |fs| ==>
                    fs[i].concept in allowed && fs[i].company == company && fs[i].period == period)
              && (forall i, j :: 0 <= i < j < |fs| ==> fs[i].concept != fs[j].concept)
    ensures r.Ok? ==> forall i :: 0 <= i < |fs| ==> fs[i].concept in r.value && r.value[fs[i].concept] == fs[i]
    ensures r.Err? ==> exists k: nat :: FirstFault(fs, allowed, company, period, k, r.error)
    ensures r.Err? ==> exists k :: Offends(fs, k, allowed, company, period, r.error)
  {
    var indexed: map<int, Fact> := map[];
    for i := 0 to |fs|
      invariant forall k :: 0 <= k < i ==> FitsStatement(fs[k], allowed, company, period)
      invariant forall k :: 0 <= k < i ==> fs[k].concept in indexed && indexed[fs[k].concept] == fs[k]
      invariant forall c :: c in indexed ==> exists k :: 0 <= k < i && fs[k].concept == c
      invariant DistinctConcepts(fs[..i])
      invariant forall j: nat :: j < i ==> FaultAt(fs, allowed, company, period, j) == None
    {
      var fact := fs[i];
      assert fs[..i + 1] == fs[..i] + [fact];
      if fact.concept !in allowed {
        assert FirstFault(fs, allowed, company, period, i, ConceptNotAllowed);
        assert Offends(fs, i, allowed, company, period, ConceptNotAllowed);
        return Err(ConceptNotAllowed);
      }
      if fact.company != company {
        assert FirstFault(fs, allowed, company, period, i, CompanyMismatch);
        assert Offends(fs, i, allowed, company, period, CompanyMismatch);
        return Err(CompanyMismatch);
      }
      if fact.period != period {
        assert FirstFault(fs, allowed, company, period, i, PeriodMismatch);
        assert Offends(fs, i, allowed, company, period, PeriodMismatch);
        return Err(PeriodMismatch);
      }
      if fact.concept in indexed {
        assert FirstFault(fs, allowed, company, period, i, DuplicateConcept);
        assert Offends(fs, i, allowed, company, period, DuplicateConcept);
        return Err(DuplicateConcept);
      }
      indexed := indexed[fact.concept := fact];
    }
    assert fs[..|fs|] == fs;
    return Ok(indexed);
  }

  function InStatement(concepts: set<int>, period: Period): Fact -> bool {
    (f: Fact) => f.concept in concepts && f.period == period
  }

  /** The facts of an income or cash-flow statement: the survivors of its concepts in its period. */
  function StatementFacts(survivors: seq<Fact>, concepts: set<int>, period: Period): seq<Fact> {
    Having(survivors, InStatement(concepts, period), true)
  }

  lemma {:induction false} StatementConceptsDistinct(survivors: seq<Fact>, concepts: set<int>, period: Period,
                                                     company: int)
    requires forall i, j :: 0 <= i < j < |survivors| ==> KeyOf(survivors[i]) != KeyOf(survivors[j])
    requires forall i :: 0 <= i < |survivors| ==> survivors[i].company == company
    ensures DistinctConcepts(StatementFacts(survivors, concepts, period))
  {
    if survivors != [] {
      var shorter, last := survivors[..|survivors| - 1], survivors[|survivors| - 1];
      StatementConceptsDistinct(shorter, concepts, period, company);
      var fs := StatementFacts(shorter, concepts, period);
      forall k | 0 <= k < |fs| && last.period == period ensures fs[k].concept != last.concept {
        var i := HavingIndex(shorter, InStatement(concepts, period), true, k);
        assert KeyOf(survivors[i]) != KeyOf(survivors[|survivors| - 1]);
      }
    }
  }

  /** Indexing an income or cash-flow statement built from the survivors never meets a second fact of a concept. */
  lemma StatementsNeverDuplicate(fs: seq<Fact>, survivors: seq<Fact>, concepts: set<int>, period: Period, company: int)
    requires SurvivorsOf(fs, survivors)
    requires forall f :: f in fs ==> f.company == company
    ensures var facts := StatementFacts(survivors, concepts, period);
            DistinctConcepts(facts) && forall i :: 0 <= i < |facts| ==>
              FitsStatement(facts[i], concepts, company, period)
  {
    SurvivorsCoverKeys(fs, survivors);
    forall i | 0 <= i < |survivors| ensures survivors[i].company == company {
      assert MaySurvive(AsSet(fs), survivors[i]);
    }
    StatementConceptsDistinct(survivors, concepts, period, company);
    var facts := StatementFacts(survivors, concepts, period);
    forall k | 0 <= k < |facts| ensures FitsStatement(facts[k], concepts, company, period) {
      var i := HavingIndex(survivors, InStatement(concepts, period), true, k);
    }
  }

  /** The facts of a balance sheet: survivors of its concepts that end on its day, moved to its period. */
  function BalanceFacts(survivors: seq<Fact>, concepts: set<int>, period: Period): seq<Fact> {
    if survivors == [] then []
    else
      var last := survivors[|survivors| - 1];
      BalanceFacts(survivors[..|survivors| - 1], concepts, period) +
      (if last.concept in concepts && last.period.periodEnd == period.periodEnd then [last.(period := period)] else [])
  }

  ghost predicate OnBalance(f: Fact, concepts: set<int>, period: Period) {
    f.concept in concepts && f.period.periodEnd == period.periodEnd
  }

  lemma {:induction false} BalanceFactIndex(survivors: seq<Fact>, concepts: set<int>, period: Period, k: nat)
    returns (i: nat)
    requires k < |BalanceFacts(survivors, concepts, period)|
    ensures i < |survivors| && OnBalance(survivors[i], concepts, period)
    ensures BalanceFacts(survivors, concepts, period)[k] == survivors[i].(period := period)
  {
    var shorter := survivors[..|survivors| - 1];
    if k < |BalanceFacts(shorter, concepts, period)| {
      i := BalanceFactIndex(shorter, concepts, period, k);
    } else {
      i := |survivors| - 1;
    }
  }

  lemma {:induction false} BalanceFactListed(survivors: seq<Fact>, concepts: set<int>, period: Period, i: nat)
    returns (k: nat)
    requires i < |survivors| && OnBalance(survivors[i], concepts, period)
    ensures k < |BalanceFacts(survivors, concepts, period)|
    ensures BalanceFacts(survivors, concepts, period)[k] == survivors[i].(period := period)
  {
    var shorter := survivors[..|survivors| - 1];
    if i < |survivors| - 1 {
      k := BalanceFactListed(shorter, concepts, period, i);
    } else {
      k := |BalanceFacts(shorter, concepts, period)|;
    }
  }

  /** A balance sheet takes from the survivors the facts of its concepts that end on its day, under its own period. */
  lemma BalanceFactsAre(survivors: seq<Fact>, concepts: set<int>, period: Period, f: Fact)
    ensures f in BalanceFacts(survivors, concepts, period)
            <==> exists x :: x in survivors && x.concept in concepts && x.period.periodEnd == period.periodEnd
                             && f == x.(period := period)
  {
    var facts := BalanceFacts(survivors, concepts, period);
    if f in facts {
      var k :| 0 <= k < |facts| && facts[k] == f;
      var i := BalanceFactIndex(survivors, concepts, period, k);
      assert survivors[i] in survivors;
    }
    if x :| x in survivors && x.concept in concepts && x.period.periodEnd == period.periodEnd
            && f == x.(period := period) {
      var i :| 0 <= i < |survivors| && survivors[i] == x;
      var k := BalanceFactListed(survivors, concepts, period, i);
    }
  }

  /** An income or cash-flow statement takes from the survivors the facts of its concepts in exactly its period. */
  lemma StatementFactsAre(survivors: seq<Fact>, concepts: set<int>, period: Period, f: Fact)
    ensures f in StatementFacts(survivors, concepts, period)
            <==> f in survivors && f.concept in concepts && f.period == period
  {
    HavingMembers(survivors, InStatement(concepts, period), true, f);
  }

  /** No two survivors of one concept are on the balance sheet. */
  ghost predicate ApartOnBalance(survivors: seq<Fact>, concepts: set<int>, period: Period) {
    forall i, j ::
      0 <= i < j < |survivors| && OnBalance(survivors[i], concepts, period) && OnBalance(survivors[j], concepts, period)
      ==> survivors[i].concept != survivors[j].concept
  }

  lemma BalanceOneMore(shorter: seq<Fact>, last: Fact, concepts: set<int>, period: Period)
    requires OnBalance(last, concepts, period)
    requires DistinctConcepts(BalanceFacts(shorter, concepts, period)) <==> ApartOnBalance(shorter, concepts, period)
    ensures DistinctConcepts(BalanceFacts(shorter, concepts, period) + [last.(period := period)])
            <==> ApartOnBalance(shorter + [last], concepts, period)
  {
    var before, all := BalanceFacts(shorter, concepts, period), shorter + [last];
    var after := before + [last.(period := period)];
    assert DistinctConcepts(after) ==> DistinctConcepts(before) by {
      forall i, j | DistinctConcepts(after) && 0 <= i < j < |before| ensures before[i].concept != before[j].concept {
        assert after[i] == before[i] && after[j] == before[j];
      }
    }
    assert ApartOnBalance(all, concepts, period) ==> ApartOnBalance(shorter, concepts, period) by {
      forall i, j | ApartOnBalance(all, concepts, period) && 0 <= i < j < |shorter|
                    && OnBalance(shorter[i], concepts, period) && OnBalance(shorter[j], concepts, period)
        ensures shorter[i].concept != shorter[j].concept
      {
        assert all[i] == shorter[i] && all[j] == shorter[j];
      }
    }
    forall i | 0 <= i < |shorter| && OnBalance(shorter[i], concepts, period) && DistinctConcepts(after)
      ensures shorter[i].concept != last.concept
    {
      var k := BalanceFactListed(shorter, concepts, period, i);
      assert after[k] == before[k] && after[k].concept != after[|before|].concept;
    }
    forall k | 0 <= k < |before| && ApartOnBalance(all, concepts, period) ensures before[k].concept != last.concept {
      var i := BalanceFactIndex(shorter, concepts, period, k);
      assert all[i] == shorter[i] && all[|shorter|] == last;
    }
  }

  lemma BalanceUnmoved(shorter: seq<Fact>, last: Fact, concepts: set<int>, period: Period)
    requires !OnBalance(last, concepts, period)
    ensures ApartOnBalance(shorter + [last], concepts, period) <==> ApartOnBalance(shorter, concepts, period)
  {
    var all := shorter + [last];
    if ApartOnBalance(all, concepts, period) {
      forall i, j | 0 <= i < j < |shorter| && OnBalance(shorter[i], concepts, period)
             && OnBalance(shorter[j], concepts, period)
        ensures shorter[i].concept != shorter[j].concept
      {
        assert all[i] == shorter[i] && all[j] == shorter[j];
      }
    }
  }

  lemma {:induction false} BalanceDistinctIff(survivors: seq<Fact>, concepts: set<int>, period: Period)
    ensures DistinctConcepts(BalanceFacts(survivors, concepts, period)) <==> ApartOnBalance(survivors, concepts, period)
  {
    if survivors != [] {
      var shorter, last := survivors[..|survivors| - 1], survivors[|survivors| - 1];
      BalanceDistinctIff(shorter, concepts, period);
      assert survivors == shorter + [last];
      if OnBalance(last, concepts, period) {
        BalanceOneMore(shorter, last, concepts, period);
      } else {
        assert BalanceFacts(survivors, concepts, period) == BalanceFacts(shorter, concepts, period);
        BalanceUnmoved(shorter, last, concepts, period);
      }
    }
  }

  /** `f` is of a balance concept, ends on the sheet's day, and the facts of its key are not in unresolved conflict. */
  ghost predicate ReachesBalance(fs: set<Fact>, f: Fact, concepts: set<int>, period: Period) {
    f in fs && OnBalance(f, concepts, period) && RuleOf(FactsWith(fs, KeyOf(f))) != Unresolved
  }

  /** Facts of one balance concept under different period labels reach the sheet. */
  ghost predicate CollideOnBalance(fs: set<Fact>, concepts: set<int>, period: Period) {
    exists f, g ::
      && ReachesBalance(fs, f, concepts, period) && ReachesBalance(fs, g, concepts, period)
      && f.concept == g.concept && f.period.displayLabel != g.period.displayLabel
  }

  /** A fact that reaches the sheet is represented there by the survivor of its key. */
  lemma SurvivorOnBalance(fs: seq<Fact>, survivors: seq<Fact>, f: Fact, concepts: set<int>, period: Period)
    returns (i: nat)
    requires SurvivorsOf(fs, survivors) && ReachesBalance(AsSet(fs), f, concepts, period)
    ensures i < |survivors| && KeyOf(survivors[i]) == KeyOf(f) && OnBalance(survivors[i], concepts, period)
  {
    SurvivorsCoverKeys(fs, survivors);
    assert HasKey(fs, KeyOf(f));
    var x :| x in survivors && KeyOf(x) == KeyOf(f);
    i :| i < |survivors| && survivors[i] == x;
    assert MaySurvive(AsSet(fs), survivors[i]);
    assert x in FactsWith(AsSet(fs), KeyOf(f)) && f in FactsWith(AsSet(fs), KeyOf(f));
  }

  lemma SurvivorsCollide(fs: seq<Fact>, survivors: seq<Fact>, concepts: set<int>, period: Period, company: int,
                         i: nat, j: nat)
    requires SurvivorsOf(fs, survivors) && (forall f :: f in fs ==> f.company == company)
    requires i < j < |survivors| && survivors[i].concept == survivors[j].concept
    requires OnBalance(survivors[i], concepts, period) && OnBalance(survivors[j], concepts, period)
    ensures CollideOnBalance(AsSet(fs), concepts, period)
  {
    SurvivorsCoverKeys(fs, survivors);
    var x, y := survivors[i], survivors[j];
    assert MaySurvive(AsSet(fs), x) && MaySurvive(AsSet(fs), y);
    hide RuleOf, OnBalance, ResolvedKeys, FirstSeen;
    assert x in fs && y in fs && KeyOf(x) != KeyOf(y);
    assert ReachesBalance(AsSet(fs), x, concepts, period) && ReachesBalance(AsSet(fs), y, concepts, period);
  }

  /**
   * The balance sheet built from the survivors of one company's facts meets a second fact of a
   * concept exactly when facts of one balance concept reach it under different period labels.
   */
  lemma BalanceDuplicatesIff(fs: seq<Fact>, survivors: seq<Fact>, concepts: set<int>, period: Period, company: int)
    requires SurvivorsOf(fs, survivors)
    requires forall f :: f in fs ==> f.company == company
    ensures !DistinctConcepts(BalanceFacts(survivors, concepts, period))
            <==> CollideOnBalance(AsSet(fs), concepts, period)
  {
    BalanceDistinctIff(survivors, concepts, period);
    hide SurvivorsOf, DistinctConcepts, ReachesBalance, OnBalance;
    if i, j :| 0 <= i < j < |survivors| && OnBalance(survivors[i], concepts, period)
               && OnBalance(survivors[j], concepts, period)
               && survivors[i].concept == survivors[j].concept {
      SurvivorsCollide(fs, survivors, concepts, period, company, i, j);
    }
    if f, g :| ReachesBalance(AsSet(fs), f, concepts, period) && ReachesBalance(AsSet(fs), g, concepts, period)
               && f.concept == g.concept && f.period.displayLabel != g.period.displayLabel {
      var i := SurvivorOnBalance(fs, survivors, f, concepts, period);
      var j := SurvivorOnBalance(fs, survivors, g, concepts, period);
      assert i != j && survivors[i].concept == survivors[j].concept;
    }
  }

  lemma LoneMaySurvive(fs: set<Fact>, f: Fact)
    requires FactsWith(fs, KeyOf(f)) == {f}
    ensures RuleOf(FactsWith(fs, KeyOf(f))) == ValuesAgree && MaySurvive(fs, f)
  {
    assert f in {f};
  }

  lemma FirstSeenOfTwo(x: Fact, y: Fact)
    requires KeyOf(x) != KeyOf(y)
    ensures FirstSeen([x, y], KeyOf) == [KeyOf(x), KeyOf(y)]
  {
    assert [x, y][..1] == [x] && [x][..0] == [];
    assert FirstSeen([x], KeyOf) == [KeyOf(x)];
  }

  lemma TwoResolvedKeys(fs: set<Fact>, first: ConflictKey, second: ConflictKey)
    requires RuleOf(FactsWith(fs, first)) != Unresolved && RuleOf(FactsWith(fs, second)) != Unresolved
    ensures ResolvedKeys(fs, [first, second]) == [first, second]
  {
    hide RuleOf, FactsWith;
    assert [first, second][..1] == [first] && [first][..0] == [];
    assert ResolvedKeys(fs, [first]) == [first];
  }

  lemma LoneKeysSurvive(x: Fact, y: Fact)
    requires KeyOf(x) != KeyOf(y)
    ensures SurvivorsOf([x, y], [x, y])
  {
    var fs, all := [x, y], AsSet([x, y]);
    assert fs[0] in fs && fs[1] in fs;
    assert FactsWith(all, KeyOf(x)) == {x} && FactsWith(all, KeyOf(y)) == {y};
    LoneMaySurvive(all, x);
    LoneMaySurvive(all, y);
    FirstSeenOfTwo(x, y);
    hide AsSet, FactsWith, RuleOf, MaySurvive, FirstSeen;
    TwoResolvedKeys(all, KeyOf(x), KeyOf(y));
    hide ResolvedKeys;
    assert KeysOf(fs) == [KeyOf(x), KeyOf(y)];
  }

  const CASH := 1
  const YEAR_END := 20088
  const FISCAL_YEAR := Period(2024, YEAR_END, 1)
  const FOURTH_QUARTER := Period(20244, YEAR_END, 2)
  const CASH_OF_YEAR := Fact(1, CASH, FISCAL_YEAR, 500.0, 1, Some(1), 1, 1)
  const CASH_OF_QUARTER := Fact(1, CASH, FOURTH_QUARTER, 500.0, 1, Some(1), 1, 2)

  /**
   * Cash at the year's end, reported for the year and again for its fourth quarter: both survive and
   * both are on the sheet.
   */
  lemma BalanceCanDuplicate()
    ensures var fs, concepts := [CASH_OF_YEAR, CASH_OF_QUARTER], {CASH};
            SurvivorsOf(fs, fs) && !DistinctConcepts(BalanceFacts(fs, concepts, FISCAL_YEAR))
  {
    var fs := [CASH_OF_YEAR, CASH_OF_QUARTER];
    LoneKeysSurvive(CASH_OF_YEAR, CASH_OF_QUARTER);
    hide SurvivorsOf;
    assert OnBalance(fs[0], {CASH}, FISCAL_YEAR) && OnBalance(fs[1], {CASH}, FISCAL_YEAR);
    BalanceDistinctIff(fs, {CASH}, FISCAL_YEAR);
  }
}
