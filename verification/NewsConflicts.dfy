/**
 * Deduplication of news events with explicit conflict records
 * (src/financial_intelligence/domain/news/conflicts.py).
 */
module NewsConflicts {
  import opened Outcomes
  import opened Sorting
  import opened Grouping

  /**
   * A qualitative event. `title` stands for the position of the case-folded title in text order,
   * `fingerprint` for the material fields that decide agreement.
   */
  datatype Event = Event(
    id: int,
    company: int,
    eventType: int,
    title: int,
    date: int,
    fingerprint: int,
    tier: int,
    retrievedAt: int)

  datatype DedupeKey = DedupeKey(company: int, eventType: int, date: int, title: int)

  datatype SoftKey = SoftKey(company: int, eventType: int, title: int)

  function KeyOf(e: Event): DedupeKey {
    DedupeKey(e.company, e.eventType, e.date, e.title)
  }

  function SoftKeyOf(e: Event): SoftKey {
    SoftKey(e.company, e.eventType, e.title)
  }

  function TierOf(e: Event): int {
    e.tier
  }

  function DateOf(e: Event): int {
    e.date
  }

  datatype ConflictState = Agrees | Conflicting | Superseded | Unresolved

  datatype EventConflict = EventConflict(state: ConflictState, candidates: seq<Event>, selected: Option<Event>)

  /** Higher authority (a lower tier) first, then earlier retrieval, then identity. */
  predicate AuthorityOrder(a: Event, b: Event) {
    || a.tier < b.tier
    || (a.tier == b.tier && (a.retrievedAt < b.retrievedAt || (a.retrievedAt == b.retrievedAt && a.id <= b.id)))
  }

  /** Later date first, then title, then identity. */
  predicate OutputOrder(a: Event, b: Event) {
    || a.date > b.date
    || (a.date == b.date && TitleOrder(a, b))
  }

  predicate TitleOrder(a: Event, b: Event) {
    a.title < b.title || (a.title == b.title && a.id <= b.id)
  }

  predicate DescendingDay(a: int, b: int) {
    a >= b
  }

  lemma OrdersAreTotal()
    ensures TotalPreorder(AuthorityOrder) && TotalPreorder(OutputOrder) && TotalPreorder(TitleOrder)
    ensures TotalPreorder(DescendingDay)
  {
  }

  ghost predicate DistinctIds(es: seq<Event>) {
    forall i, j :: 0 <= i < j < |es| ==> es[i].id != es[j].id
  }

  // ----- What survives, by the set of events alone -----

  /** `x` has the best tier among the events of its key. */
  ghost predicate BestOfKey(es: set<Event>, x: Event) {
    x in es && forall y :: y in es && KeyOf(y) == KeyOf(x) ==> x.tier <= y.tier
  }

  /** All events of the best tier of the key agree materially. */
  ghost predicate BestAgree(es: set<Event>, key: DedupeKey) {
    forall x, y {:trigger BestOfKey(es, x), BestOfKey(es, y)} ::
      BestOfKey(es, x) && BestOfKey(es, y) && KeyOf(x) == key && KeyOf(y) == key ==> x.fingerprint == y.fingerprint
  }

  ghost predicate FirstOfKey(es: set<Event>, e: Event) {
    forall y :: y in es && KeyOf(y) == KeyOf(e) ==> AuthorityOrder(e, y)
  }

  /** An event survives when its key is unresolved, or when it is the key's first by authority. */
  ghost predicate Survives(es: set<Event>, e: Event) {
    e in es && (BestAgree(es, KeyOf(e)) ==> FirstOfKey(es, e))
  }

  // ----- Grouping -----

  /** The events with the given key, in order. */
  function GroupOf(es: seq<Event>, key: DedupeKey): seq<Event> {
    Having(es, KeyOf, key)
  }

  ghost function AsSet(es: seq<Event>): set<Event> {
    set e | e in es
  }

  lemma {:induction false} HavingDistinctIds<K>(es: seq<Event>, keyOf: Event -> K, key: K)
    requires DistinctIds(es)
    ensures DistinctIds(Having(es, keyOf, key))
  {
    if es != [] {
      var shorter, last := es[..|es| - 1], es[|es| - 1];
      HavingDistinctIds(shorter, keyOf, key);
      var group := Having(shorter, keyOf, key);
      forall k | 0 <= k < |group| ensures group[k].id != last.id {
        var i := HavingIndex(shorter, keyOf, key, k);
        assert es[i].id != es[|es| - 1].id;
      }
    }
  }

  // ----- Resolving one group -----

  ghost predicate AllAgree(g: seq<Event>) {
    forall i, j :: 0 <= i < |g| && 0 <= j < |g| ==> g[i].fingerprint == g[j].fingerprint
  }

  ghost predicate SharedKey(g: seq<Event>) {
    forall i :: 0 <= i < |g| ==> KeyOf(g[i]) == KeyOf(g[0])
  }

  method Agreement(g: seq<Event>) returns (agree: bool)
    ensures agree <==> AllAgree(g)
  {
    var fingerprints := set e | e in g :: e.fingerprint;
    agree := forall x, y :: x in fingerprints && y in fingerprints ==> x == y;
    forall i | 0 <= i < |g| ensures g[i].fingerprint in fingerprints {
      assert g[i] in g;
    }
    forall x | x in fingerprints ensures exists i :: 0 <= i < |g| && g[i].fingerprint == x {
      var e :| e in g && e.fingerprint == x;
      var i :| 0 <= i < |g| && g[i] == e;
    }
  }

  /** The first of a group by authority, retrieval and identity. */
  method PickByAuthority(g: seq<Event>) returns (e: Event)
    requires g != []
    ensures e in g && forall y :: y in g ==> AuthorityOrder(e, y)
  {
    var sorted := SortBy(AuthorityOrder, g);
    OrdersAreTotal();
    SortBySorts(AuthorityOrder, g);
    SameElements(sorted, g);
    e := sorted[0];
    forall y | y in g ensures AuthorityOrder(e, y) {
      assert y in sorted;
      var k :| 0 <= k < |sorted| && sorted[k] == y;
    }
  }

  method BestTier(g: seq<Event>) returns (tier: int)
    requires g != []
    ensures exists e :: e in g && e.tier == tier
    ensures forall e :: e in g ==> tier <= e.tier
  {
    tier := g[0].tier;
    assert g[0] in g;
    for i := 1 to |g|
      invariant exists e :: e in g && e.tier == tier
      invariant forall j :: 0 <= j < i ==> tier <= g[j].tier
    {
      if g[i].tier < tier {
        tier := g[i].tier;
        assert g[i] in g;
      }
    }
  }

  /** The outcome of a group of at least two events of one key. */
  ghost predicate Resolves(g: seq<Event>, c: EventConflict) {
    && g != []
    && c.candidates == g
    && (c.state == Agrees <==> AllAgree(g))
    && (c.state == Superseded <==> !AllAgree(g) && BestAgree(AsSet(g), KeyOf(g[0])))
    && (c.state == Unresolved <==> !BestAgree(AsSet(g), KeyOf(g[0])))
    && c.state != Conflicting
    && (c.selected.Some? <==> c.state != Unresolved)
    && (c.selected.Some? ==> c.selected.value in g && forall y :: y in g ==> AuthorityOrder(c.selected.value, y))
  }

  lemma BestTierDecides(g: seq<Event>, tier: int)
    requires g != [] && SharedKey(g)
    requires (exists e :: e in g && e.tier == tier) && forall e :: e in g ==> tier <= e.tier
    ensures AllAgree(Having(g, TierOf, tier)) <==> BestAgree(AsSet(g), KeyOf(g[0]))
    ensures AllAgree(g) ==> BestAgree(AsSet(g), KeyOf(g[0]))
  {
    var es, best := AsSet(g), Having(g, TierOf, tier);
    forall e | e in g ensures KeyOf(e) == KeyOf(g[0]) && (BestOfKey(es, e) <==> e.tier == tier) {
      var i :| 0 <= i < |g| && g[i] == e;
      var top :| top in g && top.tier == tier;
      var j :| 0 <= j < |g| && g[j] == top;
      if e.tier == tier {
        forall y | y in es && KeyOf(y) == KeyOf(e) ensures e.tier <= y.tier {}
      } else {
        assert top in es && KeyOf(top) == KeyOf(e);
      }
    }
    if AllAgree(best) {
      forall x, y | BestOfKey(es, x) && BestOfKey(es, y) && KeyOf(x) == KeyOf(g[0]) && KeyOf(y) == KeyOf(g[0])
        ensures x.fingerprint == y.fingerprint
      {
        HavingMembers(g, TierOf, tier, x);
        HavingMembers(g, TierOf, tier, y);
        var i :| 0 <= i < |best| && best[i] == x;
        var j :| 0 <= j < |best| && best[j] == y;
      }
    }
    if BestAgree(es, KeyOf(g[0])) {
      forall i, j | 0 <= i < |best| && 0 <= j < |best| ensures best[i].fingerprint == best[j].fingerprint {
        HavingMembers(g, TierOf, tier, best[i]);
        HavingMembers(g, TierOf, tier, best[j]);
        assert BestOfKey(es, best[i]) && BestOfKey(es, best[j]);
      }
    }
    if AllAgree(g) {
      forall x, y | BestOfKey(es, x) && BestOfKey(es, y) ensures x.fingerprint == y.fingerprint {
        assert x in g && y in g;
        var i :| 0 <= i < |g| && g[i] == x;
        var j :| 0 <= j < |g| && g[j] == y;
      }
    }
  }

  /** Where the best tier agrees and the whole group does not, there is another tier. */
  lemma SeveralTiers(g: seq<Event>, tier: int, tiers: set<int>)
    requires !AllAgree(g) && AllAgree(Having(g, TierOf, tier))
    requires exists e :: e in g && e.tier == tier
    requires tiers == set e | e in g :: e.tier
    ensures |tiers| > 1
  {
    var other := OtherTier(g, tier);
    assert other in tiers && tier in tiers;
    hide *;
    assert tiers == {tier, other} + (tiers - {tier, other});
  }

  lemma OtherTier(g: seq<Event>, tier: int) returns (other: int)
    requires !AllAgree(g) && AllAgree(Having(g, TierOf, tier))
    ensures other != tier && exists e :: e in g && e.tier == other
  {
    var i, j :| 0 <= i < |g| && 0 <= j < |g| && g[i].fingerprint != g[j].fingerprint;
    var best := Having(g, TierOf, tier);
    HavingMembers(g, TierOf, tier, g[i]);
    HavingMembers(g, TierOf, tier, g[j]);
    hide Having;
    assert g[i] in g && g[j] in g;
    if g[i].tier != tier {
      return g[i].tier;
    }
    return g[j].tier;
  }

  datatype GroupError = TooFewCandidates | MixedKeys

  method ResolveExactDedupeGroup(g: seq<Event>) returns (r: Result<EventConflict, GroupError>)
    ensures r == Err(TooFewCandidates) <==> |g| < 2
    ensures r == Err(MixedKeys) <==> |g| >= 2 && !SharedKey(g)
    ensures r.Ok? <==> |g| >= 2 && SharedKey(g)
    ensures r.Ok? ==> Resolves(g, r.value)
  {
    if |g| < 2 {
      return Err(TooFewCandidates);
    }
    for i := 0 to |g|
      invariant forall j :: 0 <= j < i ==> KeyOf(g[j]) == KeyOf(g[0])
    {
      if KeyOf(g[i]) != KeyOf(g[0]) {
        return Err(MixedKeys);
      }
    }
    var agree := Agreement(g);
    var tier := BestTier(g);
    BestTierDecides(g, tier);
    if agree {
      var selected := PickByAuthority(g);
      return Ok(EventConflict(Agrees, g, Some(selected)));
    }
    var best := Having(g, TierOf, tier);
    var bestAgree := Agreement(best);
    var tiers := set e | e in g :: e.tier;
    if bestAgree { SeveralTiers(g, tier, tiers); }
    if bestAgree && |tiers| > 1 {
      var selected := PickOfBest(g, tier);
      return Ok(EventConflict(Superseded, g, Some(selected)));
    }
    return Ok(EventConflict(Unresolved, g, None));
  }

  /** The first of the best tier is the first of the whole group. */
  method PickOfBest(g: seq<Event>, tier: int) returns (e: Event)
    requires (exists e :: e in g && e.tier == tier) && forall e :: e in g ==> tier <= e.tier
    ensures e in g && forall y :: y in g ==> AuthorityOrder(e, y)
  {
    var best := Having(g, TierOf, tier);
    ghost var top :| top in g && top.tier == tier;
    HavingMembers(g, TierOf, tier, top);
    e := PickByAuthority(best);
    HavingMembers(g, TierOf, tier, e);
    forall y | y in g ensures AuthorityOrder(e, y) {
      HavingMembers(g, TierOf, tier, y);
    }
  }

  // ----- Processing all events -----

  lemma GroupSharesKey(es: seq<Event>, key: DedupeKey)
    ensures SharedKey(GroupOf(es, key))
    ensures forall k :: 0 <= k < |GroupOf(es, key)| ==> KeyOf(GroupOf(es, key)[k]) == key
  {
    var g := GroupOf(es, key);
    forall k | 0 <= k < |g| ensures KeyOf(g[k]) == key {
      var i := HavingIndex(es, KeyOf, key, k);
    }
  }

  /** Within a group, agreement and priority are those of the whole set of events. */
  lemma GroupDecides(es: seq<Event>, key: DedupeKey)
    ensures BestAgree(AsSet(GroupOf(es, key)), key) <==> BestAgree(AsSet(es), key)
  {
    var g := GroupOf(es, key);
    forall x ensures BestOfKey(AsSet(g), x) && KeyOf(x) == key <==> BestOfKey(AsSet(es), x) && KeyOf(x) == key {
      HavingMembers(es, KeyOf, key, x);
      forall y ensures y in AsSet(g) <==> y in AsSet(es) && KeyOf(y) == key { HavingMembers(es, KeyOf, key, y); }
    }
  }

  /** What a group contributes to the survivors. */
  ghost predicate Contributes(g: seq<Event>, kept: seq<Event>) {
    if |g| == 1 then kept == g
    else exists c :: Resolves(g, c) && kept == (if c.selected.Some? then [c.selected.value] else g)
  }

  lemma ContributionIsSurvival(es: seq<Event>, key: DedupeKey, kept: seq<Event>, e: Event)
    requires DistinctIds(es) && GroupOf(es, key) != [] && Contributes(GroupOf(es, key), kept)
    ensures e in kept <==> Survives(AsSet(es), e) && KeyOf(e) == key
  {
    var g := GroupOf(es, key);
    HavingMembers(es, KeyOf, key, e);
    GroupSharesKey(es, key);
    GroupDecides(es, key);
    forall y ensures y in g <==> y in es && KeyOf(y) == key { HavingMembers(es, KeyOf, key, y); }
    if |g| == 1 {
      assert g[0] in g;
    } else {
      var c :| Resolves(g, c) && kept == (if c.selected.Some? then [c.selected.value] else g);
      if c.selected.Some? {
        var s := c.selected.value;
        if e in g && FirstOfKey(AsSet(es), e) {
          assert AuthorityOrder(e, s) && AuthorityOrder(s, e);
          SameIdSameEvent(es, e, s);
        }
      }
    }
  }

  lemma SameIdSameEvent(es: seq<Event>, a: Event, b: Event)
    requires DistinctIds(es) && a in es && b in es && a.id == b.id
    ensures a == b
  {
    var i :| 0 <= i < |es| && es[i] == a;
    var j :| 0 <= j < |es| && es[j] == b;
  }

  /** One conflict record for every shared key, in the order of the keys, with that group's verdict. */
  ghost predicate RecordsOf(es: seq<Event>, keys: seq<DedupeKey>, conflicts: seq<EventConflict>) {
    && |conflicts| == |keys|
    && forall i {:trigger Resolves(GroupOf(es, keys[i]), conflicts[i])} ::
         0 <= i < |keys| ==> Resolves(GroupOf(es, keys[i]), conflicts[i])
  }

  method KeepOfGroup(es: seq<Event>, key: DedupeKey, g: seq<Event>)
    returns (kept: seq<Event>, conflict: Option<EventConflict>)
    requires g == GroupOf(es, key) && g != []
    ensures Contributes(g, kept)
    ensures forall k :: 0 <= k < |kept| ==> kept[k] in g
    ensures DistinctIds(g) ==> DistinctIds(kept)
    ensures conflict.Some? <==> |g| >= 2
    ensures conflict.Some? ==> Resolves(g, conflict.value)
  {
    if |g| == 1 {
      return g, None;
    }
    GroupSharesKey(es, key);
    var resolved := ResolveExactDedupeGroup(g);
    var c := resolved.value;
    if c.selected.Some? {
      return [c.selected.value], Some(c);
    }
    return g, Some(c);
  }

  /** The survivors gathered from the given keys. */
  ghost predicate GatheredFrom(es: seq<Event>, keys: seq<DedupeKey>, survivors: seq<Event>) {
    && (forall e :: e in survivors ==> e in es && KeyOf(e) in keys)
    && (DistinctIds(es) ==> DistinctIds(survivors))
    && (DistinctIds(es) ==> forall e :: e in survivors <==> Survives(AsSet(es), e) && KeyOf(e) in keys)
  }

  /** What the groups of the keys contribute, one after the other. */
  ghost predicate GatheredInOrder(es: seq<Event>, keys: seq<DedupeKey>, survivors: seq<Event>) {
    if keys == [] then survivors == []
    else
      exists n: nat ::
        EndsWithGroup(es, keys[|keys| - 1], survivors, n) && GatheredInOrder(es, keys[..|keys| - 1], survivors[..n])
  }

  ghost predicate EndsWithGroup(es: seq<Event>, key: DedupeKey, survivors: seq<Event>, n: nat) {
    n <= |survivors| && Contributes(GroupOf(es, key), survivors[n..])
  }

  lemma OrderOneMore(es: seq<Event>, keys: seq<DedupeKey>, key: DedupeKey, survivors: seq<Event>, kept: seq<Event>)
    requires GatheredInOrder(es, keys, survivors) && Contributes(GroupOf(es, key), kept)
    ensures GatheredInOrder(es, keys + [key], survivors + kept)
  {
    var more, all := keys + [key], survivors + kept;
    assert more[..|more| - 1] == keys && all[..|survivors|] == survivors && all[|survivors|..] == kept;
    assert EndsWithGroup(es, key, all, |survivors|);
  }

  lemma GatherOneMore(es: seq<Event>, keys: seq<DedupeKey>, key: DedupeKey, survivors: seq<Event>, kept: seq<Event>)
    requires key !in keys && GatheredFrom(es, keys, survivors)
    requires GroupOf(es, key) != [] && Contributes(GroupOf(es, key), kept)
    requires forall k :: 0 <= k < |kept| ==> kept[k] in GroupOf(es, key)
    requires DistinctIds(GroupOf(es, key)) ==> DistinctIds(kept)
    ensures GatheredFrom(es, keys + [key], survivors + kept)
  {
    forall e | e in kept ensures e in es && KeyOf(e) == key {
      var k :| 0 <= k < |kept| && kept[k] == e;
      HavingMembers(es, KeyOf, key, e);
    }
    if DistinctIds(es) {
      HavingDistinctIds(es, KeyOf, key);
      JoinDistinct(es, survivors, kept, keys, key);
      SurvivorsOneMore(es, keys, key, survivors, kept);
    }
  }

  lemma SurvivorsOneMore(es: seq<Event>, keys: seq<DedupeKey>, key: DedupeKey, survivors: seq<Event>, kept: seq<Event>)
    requires DistinctIds(es) && GroupOf(es, key) != [] && Contributes(GroupOf(es, key), kept)
    requires forall e :: e in survivors <==> Survives(AsSet(es), e) && KeyOf(e) in keys
    ensures forall e :: e in survivors + kept <==> Survives(AsSet(es), e) && KeyOf(e) in keys + [key]
  {
    forall e ensures e in survivors + kept <==> Survives(AsSet(es), e) && KeyOf(e) in keys + [key] {
      ContributionIsSurvival(es, key, kept, e);
    }
  }

  lemma JoinDistinct(es: seq<Event>, survivors: seq<Event>, kept: seq<Event>, keys: seq<DedupeKey>, key: DedupeKey)
    requires DistinctIds(es) && DistinctIds(survivors) && DistinctIds(kept) && key !in keys
    requires forall e :: e in survivors ==> e in es && KeyOf(e) in keys
    requires forall e :: e in kept ==> e in es && KeyOf(e) == key
    ensures DistinctIds(survivors + kept)
  {
    forall i, j | 0 <= i < |survivors| && 0 <= j < |kept| ensures survivors[i].id != kept[j].id {
      assert survivors[i] in survivors && kept[j] in kept;
      if survivors[i].id == kept[j].id {
        SameIdSameEvent(es, survivors[i], kept[j]);
      }
    }
  }

  lemma RecordOneMore(es: seq<Event>, keys: seq<DedupeKey>, key: DedupeKey, conflicts: seq<EventConflict>,
                      conflict: Option<EventConflict>)
    requires RecordsOf(es, SharedKeys(es, KeyOf, keys), conflicts)
    requires conflict.Some? <==> |GroupOf(es, key)| >= 2
    requires conflict.Some? ==> Resolves(GroupOf(es, key), conflict.value)
    ensures RecordsOf(es, SharedKeys(es, KeyOf, keys + [key]),
                      if conflict.Some? then conflicts + [conflict.value] else conflicts)
  {
    var shared := SharedKeys(es, KeyOf, keys);
    assert (keys + [key])[..|keys|] == keys;
    if conflict.Some? {
      var more := conflicts + [conflict.value];
      forall i | 0 <= i < |shared| + 1 ensures Resolves(GroupOf(es, (shared + [key])[i]), more[i]) {
        if i < |shared| { assert Resolves(GroupOf(es, shared[i]), conflicts[i]); }
      }
    }
  }

  /** The survivors of every group, in the order of the groups, and the conflict records. */
  method GatherSurvivors(es: seq<Event>, order: seq<DedupeKey>, buckets: map<DedupeKey, seq<Event>>)
    returns (survivors: seq<Event>, conflicts: seq<EventConflict>)
    requires Bucketed(es, KeyOf, order, buckets)
    ensures GatheredFrom(es, order, survivors) && GatheredInOrder(es, order, survivors)
    ensures RecordsOf(es, SharedKeys(es, KeyOf, order), conflicts)
  {
    survivors, conflicts := [], [];
    ghost var keys: seq<DedupeKey> := [];
    FirstSeenKeys(es, KeyOf);
    for n := 0 to |order|
      invariant keys == order[..n] && GatheredFrom(es, keys, survivors) && GatheredInOrder(es, keys, survivors)
      invariant RecordsOf(es, SharedKeys(es, KeyOf, keys), conflicts)
    {
      assert order[n] in order;
      NewAtPosition(order, n);
      var kept, conflict := KeepOfGroup(es, order[n], buckets[order[n]]);
      GatherOneMore(es, keys, order[n], survivors, kept);
      OrderOneMore(es, keys, order[n], survivors, kept);
      RecordOneMore(es, keys, order[n], conflicts, conflict);
      keys := keys + [order[n]];
      survivors := survivors + kept;
      if conflict.Some? {
        conflicts := conflicts + [conflict.value];
      }
    }
    assert keys == order;
  }

  // ----- Output order -----

  /** The days, the latest first. */
  method SortDays(days: seq<int>) returns (r: seq<int>)
    requires NoDuplicates(days)
    ensures forall d :: d in r <==> d in days
    ensures forall i, j :: 0 <= i < j < |r| ==> r[i] > r[j]
  {
    r := SortBy(DescendingDay, days);
    OrdersAreTotal();
    SortBySorts(DescendingDay, days);
    SameElements(r, days);
    PermutedNoDuplicates(days, r);
  }

  method SortDay(es: seq<Event>) returns (r: seq<Event>)
    ensures Ascending(TitleOrder, r)
    ensures multiset(r) == multiset(es)
  {
    r := SortBy(TitleOrder, es);
    OrdersAreTotal();
    SortBySorts(TitleOrder, es);
  }

  /** `r` holds the events of the given days, as often as `es` does. */
  ghost predicate OfDays(es: seq<Event>, days: seq<int>, r: seq<Event>) {
    forall e :: multiset(r)[e] == if e.date in days then multiset(es)[e] else 0
  }

  lemma OneMoreDay(es: seq<Event>, days: seq<int>, day: int, r: seq<Event>, today: seq<Event>)
    requires OfDays(es, days, r) && day !in days && multiset(today) == multiset(Having(es, DateOf, day))
    ensures OfDays(es, days + [day], r + today)
    ensures forall e :: e in r ==> e.date in days
    ensures forall e :: e in today ==> e.date == day
  {
    forall e ensures multiset(today)[e] == if e.date == day then multiset(es)[e] else 0 {
      HavingCounts(es, DateOf, day, e);
    }
    forall e | e in r ensures e.date in days { assert e in multiset(r); }
    forall e | e in today ensures e.date == day { assert e in multiset(today); }
  }

  /** Orders the events: later days first, within a day by title and identity; none is lost or repeated. */
  method OrderEvents(es: seq<Event>) returns (r: seq<Event>)
    ensures Ascending(OutputOrder, r)
    ensures multiset(r) == multiset(es)
  {
    var seen, buckets := BucketByKey(es, DateOf);
    FirstSeenKeys(es, DateOf);
    var days := SortDays(seen);
    r := [];
    for i := 0 to |days|
      invariant Ascending(OutputOrder, r)
      invariant OfDays(es, days[..i], r)
    {
      assert days[i] in days;
      var today := SortDay(buckets[days[i]]);
      assert days[..i + 1] == days[..i] + [days[i]];
      OneMoreDay(es, days[..i], days[i], r, today);
      AppendDay(r, today, days[..i], days[i]);
      r := r + today;
    }
    assert days[..|days|] == days;
    AllDays(es, days, r);
  }

  lemma AllDays(es: seq<Event>, days: seq<int>, r: seq<Event>)
    requires OfDays(es, days, r) && forall e :: e in es ==> e.date in days
    ensures multiset(r) == multiset(es)
  {
    forall e ensures multiset(r)[e] == multiset(es)[e] {
      assert e in es <==> e in multiset(es);
    }
  }

  lemma AppendDay(r: seq<Event>, today: seq<Event>, past: seq<int>, day: int)
    requires Ascending(OutputOrder, r) && Ascending(TitleOrder, today)
    requires forall e :: e in r ==> e.date in past
    requires forall e :: e in today ==> e.date == day
    requires forall d :: d in past ==> d > day
    ensures Ascending(OutputOrder, r + today)
  {
    var both := r + today;
    forall i, j | 0 <= i < j < |both| ensures OutputOrder(both[i], both[j]) {
      if i < |r| { assert both[i] in r; }
      if j >= |r| { assert both[j] in today; }
      if i >= |r| { assert both[i] in today; assert TitleOrder(today[i - |r|], today[j - |r|]); }
    }
  }

  // ----- Date disagreements -----

  /** The events of one company, type and title, in order. */
  function SoftGroupOf(es: seq<Event>, key: SoftKey): seq<Event> {
    Having(es, SoftKeyOf, key)
  }

  /** Two events of the group report different dates. */
  ghost predicate DatesDisagree(g: seq<Event>) {
    exists i, j :: 0 <= i < |g| && 0 <= j < |g| && g[i].date != g[j].date
  }

  method SeveralDates(g: seq<Event>) returns (several: bool)
    ensures several <==> DatesDisagree(g)
  {
    for i := 0 to |g|
      invariant forall k :: 0 <= k < i ==> g[k].date == g[0].date
    {
      if g[i].date != g[0].date {
        return true;
      }
    }
    return false;
  }

  /** One record for every key among `keys` whose events report different dates, in the order of the keys. */
  ghost function DateRecords(es: seq<Event>, keys: seq<SoftKey>): seq<EventConflict> {
    if keys == [] then []
    else
      var group := SoftGroupOf(es, keys[|keys| - 1]);
      DateRecords(es, keys[..|keys| - 1])
        + (if DatesDisagree(group) then [EventConflict(Conflicting, group, None)] else [])
  }

  /** Flags every company, type and title reported with different dates, once, with all its events. */
  method DetectSoftDateConflicts(es: seq<Event>) returns (conflicts: seq<EventConflict>)
    ensures conflicts == DateRecords(es, FirstSeen(es, SoftKeyOf))
  {
    conflicts := [];
    var order, buckets := BucketByKey(es, SoftKeyOf);
    for n := 0 to |order|
      invariant conflicts == DateRecords(es, order[..n])
    {
      assert order[n] in order;
      assert order[..n + 1][..n] == order[..n];
      var group := buckets[order[n]];
      if |group| >= 2 {
        var several := SeveralDates(group);
        if several {
          conflicts := conflicts + [EventConflict(Conflicting, group, None)];
        }
      }
    }
    assert order[..|order|] == order;
  }

  lemma {:induction false} DateRecordsExact(es: seq<Event>, keys: seq<SoftKey>, c: EventConflict)
    ensures c in DateRecords(es, keys) <==>
              && c.state == Conflicting && c.selected == None && DatesDisagree(c.candidates)
              && exists key :: key in keys && c.candidates == SoftGroupOf(es, key)
  {
    if keys != [] {
      var shorter, last := keys[..|keys| - 1], keys[|keys| - 1];
      assert keys == shorter + [last];
      DateRecordsExact(es, shorter, c);
    }
  }

  /** A date record is of a key that some event has; every key with different dates has its record. */
  lemma DateRecordsOfEvents(es: seq<Event>, soft: seq<EventConflict>)
    requires soft == DateRecords(es, FirstSeen(es, SoftKeyOf))
    ensures forall c :: c in soft ==>
              && c.state == Conflicting && c.selected == None && DatesDisagree(c.candidates)
              && exists e :: e in es && c.candidates == SoftGroupOf(es, SoftKeyOf(e))
    ensures forall e :: e in es && DatesDisagree(SoftGroupOf(es, SoftKeyOf(e))) ==>
              EventConflict(Conflicting, SoftGroupOf(es, SoftKeyOf(e)), None) in soft
  {
    FirstSeenKeys(es, SoftKeyOf);
    forall c ensures c in soft <==>
              && c.state == Conflicting && c.selected == None && DatesDisagree(c.candidates)
              && exists key :: key in FirstSeen(es, SoftKeyOf) && c.candidates == SoftGroupOf(es, key)
    {
      DateRecordsExact(es, FirstSeen(es, SoftKeyOf), c);
    }
  }

  // ----- The whole process -----

  /** What the process returns for the events. */
  ghost predicate Processed(es: seq<Event>, survivors: seq<Event>, conflicts: seq<EventConflict>) {
    && Ascending(OutputOrder, survivors)
    && (forall e :: e in survivors ==> e in es)
    && (DistinctIds(es) ==> NoDuplicates(survivors) && forall e :: e in survivors <==> Survives(AsSet(es), e))
    && (forall e :: e in es && |GroupOf(es, KeyOf(e))| >= 2 ==>
          exists c :: c in conflicts && Resolves(GroupOf(es, KeyOf(e)), c))
  }

  /** A record of a date disagreement: all survivors of one company, type and title. */
  ghost predicate DateRecord(survivors: seq<Event>, c: EventConflict) {
    && c.state == Conflicting && c.selected == None && DatesDisagree(c.candidates)
    && exists key :: CandidatesAre(survivors, c, key)
  }

  ghost predicate CandidatesAre(survivors: seq<Event>, c: EventConflict, key: SoftKey) {
    forall e :: e in c.candidates <==> e in survivors && SoftKeyOf(e) == key
  }

  /** A record of a group of several events with one key. */
  ghost predicate GroupRecord(es: seq<Event>, c: EventConflict) {
    exists key :: |GroupOf(es, key)| >= 2 && Resolves(GroupOf(es, key), c)
  }

  /** The records are those of the groups and of the date disagreements left among the survivors. */
  ghost predicate Recorded(es: seq<Event>, survivors: seq<Event>, conflicts: seq<EventConflict>) {
    && (forall c :: c in conflicts ==> GroupRecord(es, c) || DateRecord(survivors, c))
    && (forall e, f :: e in survivors && f in survivors && SoftKeyOf(e) == SoftKeyOf(f) && e.date != f.date ==>
          exists c :: c in conflicts && DateRecord(survivors, c) && e in c.candidates && f in c.candidates)
  }

  lemma GroupsRecorded(es: seq<Event>, order: seq<DedupeKey>, exact: seq<EventConflict>, c: EventConflict)
    requires RecordsOf(es, SharedKeys(es, KeyOf, order), exact) && c in exact
    ensures GroupRecord(es, c)
  {
    var i :| 0 <= i < |exact| && exact[i] == c;
    var key := SharedKeys(es, KeyOf, order)[i];
    assert key in SharedKeys(es, KeyOf, order);
    SharedKeysExact(es, KeyOf, order, key);
    assert Resolves(GroupOf(es, SharedKeys(es, KeyOf, order)[i]), exact[i]);
  }

  lemma DatesRecorded(gathered: seq<Event>, survivors: seq<Event>, c: EventConflict, e: Event)
    requires forall x :: x in survivors <==> x in gathered
    requires c.state == Conflicting && c.selected == None && DatesDisagree(c.candidates)
    requires c.candidates == SoftGroupOf(gathered, SoftKeyOf(e))
    ensures DateRecord(survivors, c)
  {
    forall x ensures x in c.candidates <==> x in survivors && SoftKeyOf(x) == SoftKeyOf(e) {
      HavingMembers(gathered, SoftKeyOf, SoftKeyOf(e), x);
    }
    assert CandidatesAre(survivors, c, SoftKeyOf(e));
  }

  lemma DatesCovered(gathered: seq<Event>, survivors: seq<Event>, soft: seq<EventConflict>, e: Event, f: Event)
    returns (c: EventConflict)
    requires forall x :: x in survivors <==> x in gathered
    requires forall x :: x in gathered && DatesDisagree(SoftGroupOf(gathered, SoftKeyOf(x))) ==>
               EventConflict(Conflicting, SoftGroupOf(gathered, SoftKeyOf(x)), None) in soft
    requires e in survivors && f in survivors && SoftKeyOf(e) == SoftKeyOf(f) && e.date != f.date
    ensures c in soft && DateRecord(survivors, c) && e in c.candidates && f in c.candidates
  {
    var g := SoftGroupOf(gathered, SoftKeyOf(e));
    HavingMembers(gathered, SoftKeyOf, SoftKeyOf(e), e);
    HavingMembers(gathered, SoftKeyOf, SoftKeyOf(e), f);
    var i :| 0 <= i < |g| && g[i] == e;
    var j :| 0 <= j < |g| && g[j] == f;
    c := EventConflict(Conflicting, g, None);
    DatesRecorded(gathered, survivors, c, e);
  }

  lemma AllRecorded(es: seq<Event>, order: seq<DedupeKey>, gathered: seq<Event>, survivors: seq<Event>,
                    exact: seq<EventConflict>, soft: seq<EventConflict>)
    requires RecordsOf(es, SharedKeys(es, KeyOf, order), exact)
    requires forall x :: x in survivors <==> x in gathered
    requires forall c :: c in soft ==>
               && c.state == Conflicting && c.selected == None && DatesDisagree(c.candidates)
               && exists e :: e in gathered && c.candidates == SoftGroupOf(gathered, SoftKeyOf(e))
    requires forall x :: x in gathered && DatesDisagree(SoftGroupOf(gathered, SoftKeyOf(x))) ==>
               EventConflict(Conflicting, SoftGroupOf(gathered, SoftKeyOf(x)), None) in soft
    ensures Recorded(es, survivors, exact + soft)
  {
    forall c | c in exact + soft ensures GroupRecord(es, c) || DateRecord(survivors, c) {
      if c in exact {
        GroupsRecorded(es, order, exact, c);
      } else {
        var e :| e in gathered && c.candidates == SoftGroupOf(gathered, SoftKeyOf(e));
        DatesRecorded(gathered, survivors, c, e);
      }
    }
    forall e, f | e in survivors && f in survivors && SoftKeyOf(e) == SoftKeyOf(f) && e.date != f.date
      ensures exists c :: c in exact + soft && DateRecord(survivors, c) && e in c.candidates && f in c.candidates
    {
      var c := DatesCovered(gathered, survivors, soft, e, f);
      assert c in exact + soft;
    }
  }

  lemma GroupCovered(es: seq<Event>, order: seq<DedupeKey>, buckets: map<DedupeKey, seq<Event>>,
                     exact: seq<EventConflict>,
                     e: Event) returns (c: EventConflict)
    requires Bucketed(es, KeyOf, order, buckets) && RecordsOf(es, SharedKeys(es, KeyOf, order), exact)
    requires e in es && |GroupOf(es, KeyOf(e))| >= 2
    ensures c in exact && Resolves(GroupOf(es, KeyOf(e)), c)
  {
    FirstSeenKeys(es, KeyOf);
    SharedKeysExact(es, KeyOf, order, KeyOf(e));
    var shared := SharedKeys(es, KeyOf, order);
    var i :| 0 <= i < |shared| && shared[i] == KeyOf(e);
    assert Resolves(GroupOf(es, shared[i]), exact[i]);
    c := exact[i];
  }

  /**
   * The order and number of everything returned: the records of the groups in the order in which their
   * keys first occur, then those of the date disagreements; the survivors are what the groups
   * contribute, each as often, sorted.
   */
  ghost predicate Arranged(es: seq<Event>, gathered: seq<Event>, survivors: seq<Event>, conflicts: seq<EventConflict>) {
    var keys := FirstSeen(es, KeyOf);
    var n := |SharedKeys(es, KeyOf, keys)|;
    && GatheredInOrder(es, keys, gathered)
    && multiset(survivors) == multiset(gathered) && Ascending(OutputOrder, survivors)
    && n <= |conflicts|
    && RecordsOf(es, SharedKeys(es, KeyOf, keys), conflicts[..n])
    && conflicts[n..] == DateRecords(gathered, FirstSeen(gathered, SoftKeyOf))
  }

  method ProcessEvents(es: seq<Event>)
    returns (survivors: seq<Event>, conflicts: seq<EventConflict>, ghost gathered: seq<Event>)
    ensures Arranged(es, gathered, survivors, conflicts)
    ensures Processed(es, survivors, conflicts)
    ensures Recorded(es, survivors, conflicts)
  {
    var order, buckets := BucketByKey(es, KeyOf);
    var kept, exact := GatherSurvivors(es, order, buckets);
    gathered := kept;
    var soft := DetectSoftDateConflicts(kept);
    conflicts := exact + soft;
    survivors := OrderEvents(kept);
    assert conflicts[..|exact|] == exact && conflicts[|exact|..] == soft;
    SameElements(survivors, kept);
    DateRecordsOfEvents(kept, soft);
    AllRecorded(es, order, kept, survivors, exact, soft);
    AllProcessed(es, order, buckets, kept, survivors, exact, soft);
  }

  lemma AllProcessed(es: seq<Event>, order: seq<DedupeKey>, buckets: map<DedupeKey, seq<Event>>, gathered: seq<Event>,
                     survivors: seq<Event>, exact: seq<EventConflict>, soft: seq<EventConflict>)
    requires Bucketed(es, KeyOf, order, buckets) && GatheredFrom(es, order, gathered)
    requires RecordsOf(es, SharedKeys(es, KeyOf, order), exact)
    requires Ascending(OutputOrder, survivors) && multiset(survivors) == multiset(gathered)
    ensures Processed(es, survivors, exact + soft)
  {
    FirstSeenKeys(es, KeyOf);
    SameElements(survivors, gathered);
    forall e | e in es && |GroupOf(es, KeyOf(e))| >= 2
      ensures exists c :: c in exact + soft && Resolves(GroupOf(es, KeyOf(e)), c)
    {
      var c := GroupCovered(es, order, buckets, exact, e);
      assert c in exact + soft;
    }
    if DistinctIds(es) {
      PermutedNoDuplicates(gathered, survivors);
      forall e ensures e in survivors <==> Survives(AsSet(es), e) {
        assert Survives(AsSet(es), e) ==> e in es;
      }
    }
  }

  // ----- Confluence -----

  lemma SameSurvivorsSameOutput(a: seq<Event>, b: seq<Event>)
    requires Ascending(OutputOrder, a) && Ascending(OutputOrder, b)
    requires NoDuplicates(a) && NoDuplicates(b)
    requires forall e :: e in a <==> e in b
    requires forall x, y :: x in a && y in a && x.id == y.id ==> x == y
    ensures a == b
  {
    SameElementsSameMultiset(a, b);
    SortedPermutationUnique(OutputOrder, a, b);
  }

  /** With distinct identities every arrangement of the same events gives the same survivors in the same order. */
  lemma ProcessIsConfluent(es: seq<Event>, fs: seq<Event>, a: seq<Event>, b: seq<Event>,
                           ca: seq<EventConflict>, cb: seq<EventConflict>)
    requires DistinctIds(es) && DistinctIds(fs) && multiset(es) == multiset(fs)
    requires Processed(es, a, ca) && Processed(fs, b, cb)
    ensures a == b
  {
    SameElements(es, fs);
    assert AsSet(es) == AsSet(fs);
    forall x, y | x in a && y in a && x.id == y.id ensures x == y {
      SameIdSameEvent(es, x, y);
    }
    SameSurvivorsSameOutput(a, b);
  }

  /** Among the survivors every event survives again. */
  lemma SurvivorsSurvive(es: seq<Event>, a: seq<Event>, e: Event)
    requires DistinctIds(es) && (forall x :: x in a <==> Survives(AsSet(es), x))
    ensures Survives(AsSet(a), e) <==> e in a
  {
    var all, kept := AsSet(es), AsSet(a);
    if e in a {
      if BestAgree(all, KeyOf(e)) {
        assert FirstOfKey(all, e);
      } else {
        forall x ensures BestOfKey(kept, x) && KeyOf(x) == KeyOf(e) <==> BestOfKey(all, x) && KeyOf(x) == KeyOf(e) {
          forall y | KeyOf(y) == KeyOf(e) ensures y in kept <==> y in all {}
        }
        var x, y :| BestOfKey(all, x) && BestOfKey(all, y) && KeyOf(x) == KeyOf(e) && KeyOf(y) == KeyOf(e)
                    && x.fingerprint != y.fingerprint;
        assert BestOfKey(kept, x) && BestOfKey(kept, y);
      }
    }
  }

  /** Processing the survivors again returns them unchanged. */
  lemma ProcessIsIdempotent(es: seq<Event>, a: seq<Event>, b: seq<Event>, ca: seq<EventConflict>,
                            cb: seq<EventConflict>)
    requires DistinctIds(es) && Processed(es, a, ca) && Processed(a, b, cb)
    ensures a == b
  {
    forall x, y | x in a && y in a && x.id == y.id ensures x == y {
      SameIdSameEvent(es, x, y);
    }
    forall i, j | 0 <= i < j < |a| ensures a[i].id != a[j].id {
      assert a[i] != a[j] && a[i] in a && a[j] in a;
    }
    forall e ensures e in a <==> e in b {
      SurvivorsSurvive(es, a, e);
    }
    SameSurvivorsSameOutput(a, b);
  }

  // ----- The same in the fields of the events -----

  /** Two reports of one event: the company, type, date and title agree. */
  ghost predicate SameEvent(a: Event, b: Event) {
    a.company == b.company && a.eventType == b.eventType && a.date == b.date && a.title == b.title
  }

  /** No report of the same event has a higher authority, that is a lower tier. */
  ghost predicate Unsurpassed(es: seq<Event>, x: Event) {
    x in es && forall y :: y in es && SameEvent(x, y) ==> x.tier <= y.tier
  }

  /** Two reports of the event that none surpasses differ materially. */
  ghost predicate Disputed(es: seq<Event>, e: Event) {
    exists x, y :: SameEvent(e, x) && SameEvent(e, y) && Unsurpassed(es, x) && Unsurpassed(es, y)
                   && x.fingerprint != y.fingerprint
  }

  /** A report of a higher authority; of the same authority but retrieved earlier; or else of the smaller identity. */
  ghost predicate Preferred(a: Event, b: Event) {
    || a.tier < b.tier
    || (a.tier == b.tier && a.retrievedAt < b.retrievedAt)
    || (a.tier == b.tier && a.retrievedAt == b.retrievedAt && a.id < b.id)
  }

  lemma DisputedIff(es: seq<Event>, e: Event)
    ensures Disputed(es, e) <==> !BestAgree(AsSet(es), KeyOf(e))
  {
    var all, key := AsSet(es), KeyOf(e);
    forall x ensures KeyOf(x) == key && BestOfKey(all, x) <==> SameEvent(e, x) && Unsurpassed(es, x) {
      assert forall y :: KeyOf(y) == KeyOf(x) <==> SameEvent(x, y);
    }
    if !BestAgree(all, key) {
      var x, y :| BestOfKey(all, x) && BestOfKey(all, y) && KeyOf(x) == key && KeyOf(y) == key
                  && x.fingerprint != y.fingerprint;
      assert SameEvent(e, x) && SameEvent(e, y) && Unsurpassed(es, x) && Unsurpassed(es, y);
    }
  }

  /**
   * Which reports are kept: all of a disputed event, and otherwise the one to which no other report of
   * the same event is preferred.
   */
  lemma KeptIff(es: seq<Event>, survivors: seq<Event>, conflicts: seq<EventConflict>, e: Event)
    requires DistinctIds(es) && Processed(es, survivors, conflicts) && e in es
    ensures e in survivors <==> Disputed(es, e) || !exists y :: y in es && SameEvent(e, y) && Preferred(y, e)
  {
    DisputedIff(es, e);
    hide Disputed, BestAgree;
    var all := AsSet(es);
    assert FirstOfKey(all, e) <==> !exists y :: y in es && SameEvent(e, y) && Preferred(y, e) by {
      if !FirstOfKey(all, e) {
        var y :| y in all && KeyOf(y) == KeyOf(e) && !AuthorityOrder(e, y);
        assert y in es && SameEvent(e, y) && Preferred(y, e);
      }
    }
  }

  /** The output is ordered by date, latest first, then by title and identity. */
  lemma OutputIsOrdered(es: seq<Event>, survivors: seq<Event>, conflicts: seq<EventConflict>, i: int, j: int)
    requires Processed(es, survivors, conflicts) && 0 <= i < j < |survivors|
    ensures var a, b := survivors[i], survivors[j];
            || a.date > b.date
            || (a.date == b.date && a.title < b.title)
            || (a.date == b.date && a.title == b.title && a.id <= b.id)
  {
  }

  /**
   * Dates that disagree are recorded: two survivors are candidates of one date conflict exactly when they
   * have company, type and title in common and a survivor that shares these with them has another date.
   */
  lemma DateConflictIff(es: seq<Event>, survivors: seq<Event>, conflicts: seq<EventConflict>, e: Event, f: Event)
    requires Recorded(es, survivors, conflicts) && e in survivors && f in survivors
    ensures (exists c :: c in conflicts && c.state == Conflicting && e in c.candidates && f in c.candidates)
            <==> && e.company == f.company && e.eventType == f.eventType && e.title == f.title
                 && exists g :: g in survivors && g.company == e.company && g.eventType == e.eventType
                                && g.title == e.title && g.date != e.date
  {
    if c :| c in conflicts && c.state == Conflicting && e in c.candidates && f in c.candidates {
      DateConflictMeans(es, survivors, conflicts, c, e, f);
    }
    if g :| SoftKeyOf(e) == SoftKeyOf(f) && g in survivors && SoftKeyOf(g) == SoftKeyOf(e) && g.date != e.date {
      var c :| c in conflicts && DateRecord(survivors, c) && e in c.candidates && g in c.candidates;
      var key :| CandidatesAre(survivors, c, key);
    }
  }

  lemma GroupRecordsDecide(es: seq<Event>, c: EventConflict)
    requires GroupRecord(es, c)
    ensures c.state != Conflicting
  {
    var key :| |GroupOf(es, key)| >= 2 && Resolves(GroupOf(es, key), c);
  }

  lemma DateConflictMeans(es: seq<Event>, survivors: seq<Event>, conflicts: seq<EventConflict>, c: EventConflict,
                          e: Event, f: Event)
    requires Recorded(es, survivors, conflicts) && c in conflicts && c.state == Conflicting
    requires e in c.candidates && f in c.candidates
    ensures e.company == f.company && e.eventType == f.eventType && e.title == f.title
    ensures exists g :: g in survivors && g.company == e.company && g.eventType == e.eventType
                        && g.title == e.title && g.date != e.date
  {
    assert DateRecord(survivors, c) by {
      if GroupRecord(es, c) { GroupRecordsDecide(es, c); }
    }
    var key :| CandidatesAre(survivors, c, key);
    var i, j :| 0 <= i < |c.candidates| && 0 <= j < |c.candidates| && c.candidates[i].date != c.candidates[j].date;
    var g := if c.candidates[i].date != e.date then c.candidates[i] else c.candidates[j];
    assert g in c.candidates && g.date != e.date;
  }

  /**
   * Nothing is lost silently: a dropped event is a candidate of a recorded conflict, and the selected
   * survivor reports the same event and is preferred to every other report of it.
   */
  lemma DroppedEventsAreRecorded(es: seq<Event>, survivors: seq<Event>, conflicts: seq<EventConflict>, e: Event)
    requires DistinctIds(es) && Processed(es, survivors, conflicts)
    requires e in es && e !in survivors
    ensures exists c :: c in conflicts && e in c.candidates && c.selected.Some? && c.selected.value in survivors
              && SameEvent(c.selected.value, e)
              && forall y :: y in es && SameEvent(y, e) && y != c.selected.value ==> Preferred(c.selected.value, y)
  {
    var key := KeyOf(e);
    var g := GroupOf(es, key);
    HavingMembers(es, KeyOf, key, e);
    GroupSharesKey(es, key);
    GroupDecides(es, key);
    hide Preferred;
    assert BestAgree(AsSet(es), key) && !FirstOfKey(AsSet(es), e);
    var other :| other in es && KeyOf(other) == key && !AuthorityOrder(e, other);
    HavingMembers(es, KeyOf, key, other);
    TwoMembers(g, e, other);
    var c :| c in conflicts && Resolves(g, c);
    var s := c.selected.value;
    HavingMembers(es, KeyOf, key, s);
    forall y | y in AsSet(es) && KeyOf(y) == key ensures AuthorityOrder(s, y) {
      HavingMembers(es, KeyOf, key, y);
    }
    assert Survives(AsSet(es), s);
    FirstIsPreferred(es, s);
    assert SameEvent(s, e);
  }

  lemma FirstIsPreferred(es: seq<Event>, s: Event)
    requires DistinctIds(es) && s in es && FirstOfKey(AsSet(es), s)
    ensures forall y :: y in es && SameEvent(y, s) && y != s ==> Preferred(s, y)
  {
    forall y | y in es && SameEvent(y, s) && y != s ensures Preferred(s, y) {
      assert y in AsSet(es) && KeyOf(y) == KeyOf(s);
      if y.id == s.id { SameIdSameEvent(es, y, s); }
    }
  }

  lemma TwoMembers(g: seq<Event>, a: Event, b: Event)
    requires a in g && b in g && a != b
    ensures |g| >= 2
  {
    var i :| 0 <= i < |g| && g[i] == a;
    var j :| 0 <= j < |g| && g[j] == b;
  }
}
