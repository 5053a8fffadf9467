/**
 * The two-phase TTL cache: look up under the lock, fetch without it, and look up again before
 * storing (src/financial_intelligence/infrastructure/financial/cache.py; the cache of
 * src/financial_intelligence/infrastructure/industry/cache.py is the same without a fiscal year).
 */
module PackageCache {
  import opened Outcomes

  datatype Origin = Live | CachedLive | Fixture | UnavailableOrigin

  datatype Package = Package(origin: Origin, content: int)

  datatype Query = Query(company: int, fiscalYear: Option<int>)

  datatype Key = Key(company: int, year: Option<int>)

  /** The fiscal year 0 counts as absent, so it shares the key of the latest package. */
  function KeyOf(q: Query): Key {
    Key(q.company, if q.fiscalYear == Some(0) then None else q.fiscalYear)
  }

  datatype Entry = Entry(package: Package, expiresAt: int)

  /** A cached LIVE package is labelled CACHED_LIVE; other origins are kept. */
  function LabelCached(p: Package): Package {
    if p.origin == Live then p.(origin := CachedLive) else p
  }

  function Fresh(entries: map<Key, Entry>, key: Key, now: int): Option<Package> {
    if key in entries && entries[key].expiresAt > now then Some(entries[key].package) else None
  }

  function Stored(entries: map<Key, Entry>, key: Key, fetched: Option<Package>, expiresAt: int): map<Key, Entry> {
    match fetched
    case Some(p) => entries[key := Entry(p, expiresAt)]
    case None => entries - {key}
  }

  class CachingAdapter {
    const ttl: int
    var entries: map<Key, Entry>

    constructor (ttl: int)
      requires ttl > 0
      ensures this.ttl == ttl && entries == map[]
    {
      this.ttl, entries := ttl, map[];
    }

    /** The first locked phase. */
    method Lookup(q: Query, now: int) returns (hit: Option<Package>)
      ensures hit == match Fresh(entries, KeyOf(q), now) case Some(p) => Some(LabelCached(p)) case None => None
      ensures var key := Key(q.company, if q.fiscalYear == Some(0) then None else q.fiscalYear);
              && (hit.Some? <==> key in entries && now < entries[key].expiresAt)
              && (hit.Some? ==>
                    && hit.value.content == entries[key].package.content
                    && hit.value.origin == if entries[key].package.origin == Live then CachedLive
                                           else entries[key].package.origin)
    {
      var key := KeyOf(q);
      if key in entries {
        var cached := entries[key];
        if cached.expiresAt > now {
          return Some(LabelCached(cached.package));
        }
      }
      return None;
    }

    /** The second locked phase: an entry stored in the meantime wins over the fetched package. */
    method Commit(q: Query, now: int, fetched: Option<Package>) returns (answer: Option<Package>)
      modifies this
      ensures match Fresh(old(entries), KeyOf(q), now)
              case Some(p) => answer == Some(LabelCached(p)) && entries == old(entries)
              case None => answer == fetched && entries == Stored(old(entries), KeyOf(q), fetched, now + ttl)
      ensures var key := Key(q.company, if q.fiscalYear == Some(0) then None else q.fiscalYear);
              && (key in old(entries) && now < old(entries)[key].expiresAt ==> entries == old(entries))
              && (!(key in old(entries) && now < old(entries)[key].expiresAt) ==>
                    && answer == fetched
                    && (key in entries <==> fetched.Some?)
                    && (key in entries ==> entries[key].package == fetched.value && entries[key].expiresAt == now + ttl)
                    && entries - {key} == old(entries) - {key})
    {
      var key := KeyOf(q);
      var again := Lookup(q, now);
      if again.Some? {
        return again;
      }
      match fetched {
        case Some(p) => entries := entries[key := Entry(p, now + ttl)];
        case None => entries := map k | k in entries && k != key :: entries[k];
      }
      return fetched;
    }

    method Clear()
      modifies this
      ensures entries == map[]
    {
      entries := map[];
    }

    /** A whole call when no other thread interferes; `now` and `later` are its two clock readings. */
    method GetPackage(q: Query, source: Query -> Option<Package>, now: int, later: int)
      returns (answer: Option<Package>)
      modifies this
      ensures match Fresh(old(entries), KeyOf(q), now)
              case Some(p) => answer == Some(LabelCached(p)) && entries == old(entries)
              case None =>
                match Fresh(old(entries), KeyOf(q), later)
                case Some(p) => answer == Some(LabelCached(p)) && entries == old(entries)
                case None => answer == source(q) && entries == Stored(old(entries), KeyOf(q), source(q), later + ttl)
    {
      var hit := Lookup(q, now);
      if hit.Some? {
        return hit;
      }
      var fetched := source(q);
      answer := Commit(q, later, fetched);
    }
  }

  // ----- Threads -----

  datatype Thread = Fetching(query: Query) | Fetched(query: Query, result: Option<Package>)

  /** What the inner source has returned for a key. */
  datatype Fetch = Fetch(key: Key, result: Option<Package>)

  /**
   * An answer given at the clock reading `now`. A hit answers with a labelled copy of `source`,
   * stored at `storedAt`; otherwise the answer is `source` itself.
   */
  datatype Answer = Answer(query: Query, source: Option<Package>, hit: bool, now: int, storedAt: int)
  {
    function Result(): Option<Package> {
      if hit && source.Some? then Some(LabelCached(source.value)) else source
    }
  }

  /** A package stored by a commit, with the commit's clock reading. */
  datatype Store = Store(key: Key, package: Package, at: int)

  /** The cache shared by any number of threads, with the history of fetches, stores and answers. */
  datatype System = System(
    ttl: int,
    entries: map<Key, Entry>,
    threads: seq<Thread>,
    fetches: set<Fetch>,
    stores: set<Store>,
    answers: seq<Answer>)

  datatype Event =
    | LookupStep(query: Query, now: int)
    | FetchStep(k: nat, result: Option<Package>)
    | CommitStep(k: nat, now: int)
    | ClearStep

  function Hit(s: System, q: Query, now: int, entry: Entry): Answer {
    Answer(q, Some(entry.package), true, now, entry.expiresAt - s.ttl)
  }

  function WithoutThread(threads: seq<Thread>, k: nat): seq<Thread>
    requires k < |threads|
  {
    threads[..k] + threads[k + 1..]
  }

  /** One atomic step of some thread, with an arbitrary clock reading and an arbitrary source. */
  function Step(s: System, event: Event): System {
    match event
    case LookupStep(q, now) =>
      if Fresh(s.entries, KeyOf(q), now).Some?
      then s.(answers := s.answers + [Hit(s, q, now, s.entries[KeyOf(q)])])
      else s.(threads := s.threads + [Fetching(q)])
    case FetchStep(k, result) =>
      if k < |s.threads| && s.threads[k].Fetching?
      then s.(threads := s.threads[k := Fetched(s.threads[k].query, result)],
              fetches := s.fetches + {Fetch(KeyOf(s.threads[k].query), result)})
      else s
    case CommitStep(k, now) =>
      if k < |s.threads| && s.threads[k].Fetched? then
        var q, result := s.threads[k].query, s.threads[k].result;
        var rest := WithoutThread(s.threads, k);
        if Fresh(s.entries, KeyOf(q), now).Some?
        then s.(threads := rest, answers := s.answers + [Hit(s, q, now, s.entries[KeyOf(q)])])
        else s.(threads := rest,
                entries := Stored(s.entries, KeyOf(q), result, now + s.ttl),
                stores := s.stores + (if result.Some? then {Store(KeyOf(q), result.value, now)} else {}),
                answers := s.answers + [Answer(q, result, false, now, now)])
      else s
    case ClearStep => s.(entries := map[])
  }

  ghost function Play(s: System, events: seq<Event>): System {
    if events == [] then s else Step(Play(s, events[..|events| - 1]), events[|events| - 1])
  }

  function EmptySystem(ttl: int): System {
    System(ttl, map[], [], {}, {}, [])
  }

  // ----- Correctness under every interleaving -----

  predicate SoundAnswer(s: System, a: Answer) {
    && Fetch(KeyOf(a.query), a.source) in s.fetches
    && (a.hit ==>
          && a.source.Some?
          && Store(KeyOf(a.query), a.source.value, a.storedAt) in s.stores
          && a.now - a.storedAt < s.ttl)
  }

  predicate SoundThread(s: System, t: Thread) {
    t.Fetched? ==> Fetch(KeyOf(t.query), t.result) in s.fetches
  }

  ghost predicate Sound(s: System) {
    && (forall key :: key in s.entries ==>
          && Fetch(key, Some(s.entries[key].package)) in s.fetches
          && Store(key, s.entries[key].package, s.entries[key].expiresAt - s.ttl) in s.stores)
    && (forall k {:trigger SoundThread(s, s.threads[k])} :: 0 <= k < |s.threads| ==> SoundThread(s, s.threads[k]))
    && (forall k {:trigger SoundAnswer(s, s.answers[k])} :: 0 <= k < |s.answers| ==> SoundAnswer(s, s.answers[k]))
  }

  lemma RemainingThread(threads: seq<Thread>, k: nat, j: nat)
    requires k < |threads| && j < |WithoutThread(threads, k)|
    ensures WithoutThread(threads, k)[j] == if j < k then threads[j] else threads[j + 1]
  {
  }

  lemma StepKeepsSound(s: System, event: Event)
    requires Sound(s)
    ensures Sound(Step(s, event))
    ensures Step(s, event).ttl == s.ttl
  {
    var t := Step(s, event);
    forall k | 0 <= k < |t.threads| ensures SoundThread(t, t.threads[k]) {
      if k < |s.threads| { assert SoundThread(s, s.threads[k]); }
      if k + 1 < |s.threads| { assert SoundThread(s, s.threads[k + 1]); }
      if event.CommitStep? && event.k < |s.threads| && s.threads[event.k].Fetched? {
        RemainingThread(s.threads, event.k, k);
      }
    }
    if event.CommitStep? && event.k < |s.threads| { assert SoundThread(s, s.threads[event.k]); }
    forall k | 0 <= k < |t.answers| ensures SoundAnswer(t, t.answers[k]) {
      if k < |s.answers| { assert SoundAnswer(s, s.answers[k]); }
    }
  }

  lemma {:induction false} PlayKeepsSound(s: System, events: seq<Event>)
    requires Sound(s)
    ensures Sound(Play(s, events)) && Play(s, events).ttl == s.ttl
  {
    if events != [] {
      PlayKeepsSound(s, events[..|events| - 1]);
      StepKeepsSound(Play(s, events[..|events| - 1]), events[|events| - 1]);
    }
  }

  /**
   * Under every interleaving, every answer was returned by the inner source for the answer's key,
   * up to the LIVE to CACHED_LIVE label of a hit, and a hit was stored by a commit less than the time
   * to live before its clock reading.
   */
  lemma AnswersAreGenuine(ttl: int, events: seq<Event>, k: nat)
    requires k < |Play(EmptySystem(ttl), events).answers|
    ensures var s := Play(EmptySystem(ttl), events);
            var a := s.answers[k];
            && Fetch(KeyOf(a.query), a.source) in s.fetches
            && (a.Result() == a.source || (a.source.Some? && a.Result() == Some(LabelCached(a.source.value))))
            && (a.hit ==>
                  && a.source.Some?
                  && Store(KeyOf(a.query), a.source.value, a.storedAt) in s.stores
                  && a.now - a.storedAt < ttl)
  {
    PlayKeepsSound(EmptySystem(ttl), events);
    var s := Play(EmptySystem(ttl), events);
    assert SoundAnswer(s, s.answers[k]);
  }

  /** No commit replaces or removes an entry that is unexpired at the commit's clock reading, or any other entry. */
  lemma CommitSparesFreshEntries(s: System, k: nat, now: int, key: Key)
    requires key in s.entries
             && (s.entries[key].expiresAt > now || !(k < |s.threads| && KeyOf(s.threads[k].query) == key))
    ensures var t := Step(s, CommitStep(k, now));
            key in t.entries && t.entries[key] == s.entries[key]
  {
  }

  // ----- Pure sources -----

  /** Two queries share a key exactly when they differ at most by fiscal year 0 against no fiscal year. */
  lemma SharedKeys(p: Query, q: Query)
    ensures KeyOf(p) == KeyOf(q) <==>
              p.company == q.company
              && (p.fiscalYear == q.fiscalYear || (p.fiscalYear in {None, Some(0)} && q.fiscalYear in {None, Some(0)}))
  {
  }

  /** A fetch asks the source for the query of its thread. */
  predicate AsksHere(s: System, event: Event, source: Query -> Option<Package>) {
    event.FetchStep? && event.k < |s.threads| ==> event.result == source(s.threads[event.k].query)
  }

  /** Every fetch in the history asks the source. */
  ghost predicate AsksSource(s: System, events: seq<Event>, source: Query -> Option<Package>) {
    events == [] ||
    (AsksSource(s, events[..|events| - 1], source)
     && AsksHere(Play(s, events[..|events| - 1]), events[|events| - 1], source))
  }

  /** Only queries that the callers pass are looked up. */
  ghost predicate LooksUp(events: seq<Event>, callers: Query -> bool) {
    forall event :: event in events && event.LookupStep? ==> callers(event.query)
  }

  /** An answer of `package` is right for `q` if the source gives it itself, or with the label it then has. */
  predicate Serves(source: Query -> Option<Package>, q: Query, package: Package) {
    source(q).Some? && (package == source(q).value || package == LabelCached(source(q).value))
  }

  /** The answer is the source's own, up to the label of a cached package. */
  predicate Refines(source: Query -> Option<Package>, a: Answer) {
    match a.Result()
    case None => source(a.query).None?
    case Some(package) => Serves(source, a.query, package)
  }

  ghost predicate AllRefine(s: System, source: Query -> Option<Package>) {
    forall k {:trigger s.answers[k]} :: 0 <= k < |s.answers| ==> Refines(source, s.answers[k])
  }

  /** Whatever the source gives one caller serves, once labelled, every caller with the same key. */
  ghost predicate AgreesOnKeys(source: Query -> Option<Package>, callers: Query -> bool) {
    forall p, q :: callers(p) && callers(q) && KeyOf(p) == KeyOf(q) && source(p).Some? ==>
      Serves(source, q, LabelCached(source(p).value))
  }

  /** `package` is what the source gave the caller `p` for the key. */
  predicate GivenTo(source: Query -> Option<Package>, callers: Query -> bool, p: Query, key: Key, package: Package) {
    callers(p) && KeyOf(p) == key && source(p) == Some(package)
  }

  predicate PureThread(source: Query -> Option<Package>, callers: Query -> bool, t: Thread) {
    callers(t.query) && (t.Fetched? ==> t.result == source(t.query))
  }

  ghost predicate PureAnswer(source: Query -> Option<Package>, callers: Query -> bool, a: Answer) {
    && callers(a.query)
    && if a.hit then a.source.Some? && exists p :: GivenTo(source, callers, p, KeyOf(a.query), a.source.value)
       else a.source == source(a.query)
  }

  /** Everything in the cache, in flight and answered came from the source, through some caller's query. */
  ghost predicate Pure(s: System, source: Query -> Option<Package>, callers: Query -> bool) {
    && (forall key :: key in s.entries ==> exists p :: GivenTo(source, callers, p, key, s.entries[key].package))
    && (forall k {:trigger s.threads[k]} :: 0 <= k < |s.threads| ==> PureThread(source, callers, s.threads[k]))
    && (forall k {:trigger s.answers[k]} :: 0 <= k < |s.answers| ==> PureAnswer(source, callers, s.answers[k]))
  }

  lemma StepKeepsPure(s: System, event: Event, source: Query -> Option<Package>, callers: Query -> bool)
    requires Pure(s, source, callers) && AsksHere(s, event, source)
    requires event.LookupStep? ==> callers(event.query)
    ensures Pure(Step(s, event), source, callers)
  {
    var t := Step(s, event);
    if event.CommitStep? && event.k < |s.threads| && s.threads[event.k].Fetched? {
      var q, result := s.threads[event.k].query, s.threads[event.k].result;
      if result.Some? {
        assert GivenTo(source, callers, q, KeyOf(q), result.value);
      }
      forall k | 0 <= k < |t.threads| ensures PureThread(source, callers, t.threads[k]) {
        RemainingThread(s.threads, event.k, k);
      }
    }
  }

  lemma {:induction false} PlayKeepsPure(ttl: int, events: seq<Event>, source: Query -> Option<Package>,
                                         callers: Query -> bool)
    requires AsksSource(EmptySystem(ttl), events, source) && LooksUp(events, callers)
    ensures Pure(Play(EmptySystem(ttl), events), source, callers)
  {
    if events != [] {
      var shorter, last := events[..|events| - 1], events[|events| - 1];
      PlayKeepsPure(ttl, shorter, source, callers);
      assert last in events;
      StepKeepsPure(Play(EmptySystem(ttl), shorter), last, source, callers);
    }
  }

  lemma PlayOneMore(s: System, events: seq<Event>, event: Event, source: Query -> Option<Package>)
    ensures Play(s, events + [event]) == Step(Play(s, events), event)
    ensures AsksSource(s, events + [event], source)
            <==> AsksSource(s, events, source) && AsksHere(Play(s, events), event, source)
  {
    assert (events + [event])[..|events + [event]| - 1] == events;
  }

  /** `p` is looked up, fetched and stored, and right after that its key is looked up again by `q`. */
  function StoredThenShared(p: Query, result: Option<Package>, q: Query): seq<Event> {
    [LookupStep(p, 0)] + [FetchStep(0, result)] + [CommitStep(0, 0)] + [LookupStep(q, 0)]
  }

  lemma SharedAnswer(ttl: int, source: Query -> Option<Package>, p: Query, q: Query)
    requires ttl > 0 && KeyOf(p) == KeyOf(q) && source(p).Some?
    ensures var events := StoredThenShared(p, source(p), q);
            var answers := Play(EmptySystem(ttl), events).answers;
            && AsksSource(EmptySystem(ttl), events, source)
            && |answers| == 2 && answers[1].query == q
            && answers[1].Result() == Some(LabelCached(source(p).value))
  {
    var s, r := EmptySystem(ttl), source(p);
    var one := [LookupStep(p, 0)];
    var two := one + [FetchStep(0, r)];
    var three := two + [CommitStep(0, 0)];
    assert [] + one == one;
    PlayOneMore(s, [], LookupStep(p, 0), source);
    PlayOneMore(s, one, FetchStep(0, r), source);
    PlayOneMore(s, two, CommitStep(0, 0), source);
    PlayOneMore(s, three, LookupStep(q, 0), source);
    var looked, fetched := Play(s, one), Play(s, two);
    assert looked.threads == [Fetching(p)];
    assert fetched.threads == [Fetched(p, r)] && fetched.entries == map[];
    assert Play(s, three).entries[KeyOf(p)] == Entry(r.value, ttl);
  }

  /**
   * With a pure source the cache refines it: over every interleaving of any number of threads, every
   * answer to a caller is the source's own up to the label, if and only if what the source gives one
   * caller serves every caller with the same key.
   */
  lemma CacheRefinesSourceIff(ttl: int, source: Query -> Option<Package>, callers: Query -> bool)
    requires ttl > 0
    ensures (forall events: seq<Event> :: AsksSource(EmptySystem(ttl), events, source) && LooksUp(events, callers) ==>
               AllRefine(Play(EmptySystem(ttl), events), source))
            <==> AgreesOnKeys(source, callers)
  {
    if AgreesOnKeys(source, callers) {
      forall events: seq<Event> | AsksSource(EmptySystem(ttl), events, source) && LooksUp(events, callers)
        ensures AllRefine(Play(EmptySystem(ttl), events), source)
      {
        PlayKeepsPure(ttl, events, source, callers);
        PureAnswersRefine(Play(EmptySystem(ttl), events), source, callers);
      }
    } else {
      var p: Query, q: Query :| callers(p) && callers(q) && KeyOf(p) == KeyOf(q) && source(p).Some?
                                && !Serves(source, q, LabelCached(source(p).value));
      SharedAnswer(ttl, source, p, q);
      var events := StoredThenShared(p, source(p), q);
      assert LooksUp(events, callers);
      assert !Refines(source, Play(EmptySystem(ttl), events).answers[1]);
    }
  }

  lemma PureAnswersRefine(s: System, source: Query -> Option<Package>, callers: Query -> bool)
    requires Pure(s, source, callers) && AgreesOnKeys(source, callers)
    ensures AllRefine(s, source)
  {
    forall k | 0 <= k < |s.answers| ensures Refines(source, s.answers[k]) {
      var a := s.answers[k];
      if a.hit {
        var p :| GivenTo(source, callers, p, KeyOf(a.query), a.source.value);
        assert Serves(source, a.query, LabelCached(source(p).value));
      }
    }
  }

  /** The queries of the application: no fiscal year, or one that is not 0. */
  function WithoutYearZero(): Query -> bool {
    (q: Query) => q.fiscalYear != Some(0)
  }

  /** As long as nobody asks for the fiscal year 0, every answer refines the source, whatever the source. */
  lemma CacheRefinesSource(ttl: int, events: seq<Event>, source: Query -> Option<Package>)
    requires AsksSource(EmptySystem(ttl), events, source) && LooksUp(events, WithoutYearZero())
    ensures AllRefine(Play(EmptySystem(ttl), events), source)
  {
    PlayKeepsPure(ttl, events, source, WithoutYearZero());
    forall p, q | WithoutYearZero()(p) && WithoutYearZero()(q) && KeyOf(p) == KeyOf(q) && source(p).Some?
      ensures Serves(source, q, LabelCached(source(p).value))
    {
      assert p == q;
    }
    PureAnswersRefine(Play(EmptySystem(ttl), events), source, WithoutYearZero());
  }

  const LATEST_YEAR := 2024
  const LATEST_PACKAGE := Package(Fixture, 1)

  /** A provider with one package: it is the latest, and the one of its own fiscal year. */
  function OnePackage(): Query -> Option<Package> {
    (q: Query) => if q.company == 1 && q.fiscalYear in {None, Some(LATEST_YEAR)} then Some(LATEST_PACKAGE) else None
  }

  /**
   * The fiscal year 0 is answered with the latest package, once that is cached, although the provider
   * has none for it.
   */
  lemma YearZeroGetsLatest(ttl: int)
    requires ttl > 0
    ensures var source, asked := OnePackage(), Query(1, Some(0));
            var events := StoredThenShared(Query(1, None), source(Query(1, None)), asked);
            var answers := Play(EmptySystem(ttl), events).answers;
            && AsksSource(EmptySystem(ttl), events, source)
            && |answers| == 2 && answers[1].query == asked
            && answers[1].Result() == Some(LATEST_PACKAGE) && source(asked) == None
  {
    SharedAnswer(ttl, OnePackage(), Query(1, None), Query(1, Some(0)));
  }
}
