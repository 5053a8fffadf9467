/** Selecting the elements of a sequence by a key, and bucketing a sequence by its keys. */
module Grouping {
  import opened Sorting

  /** The elements of `xs` with the given key, in order. */
  function Having<T, K(==)>(xs: seq<T>, keyOf: T -> K, key: K): seq<T> {
    if xs == [] then []
    else Having(xs[..|xs| - 1], keyOf, key) + (if keyOf(xs[|xs| - 1]) == key then [xs[|xs| - 1]] else [])
  }

  lemma HavingOneMore<T, K>(xs: seq<T>, x: T, keyOf: T -> K, key: K)
    ensures Having(xs + [x], keyOf, key) == Having(xs, keyOf, key) + (if keyOf(x) == key then [x] else [])
  {
    assert (xs + [x])[..|xs|] == xs;
  }

  lemma {:induction false} HavingMembers<T, K>(xs: seq<T>, keyOf: T -> K, key: K, x: T)
    ensures x in Having(xs, keyOf, key) <==> x in xs && keyOf(x) == key
  {
    if xs != [] {
      assert xs == xs[..|xs| - 1] + [xs[|xs| - 1]];
      HavingMembers(xs[..|xs| - 1], keyOf, key, x);
    }
  }

  lemma {:induction false} HavingIndex<T, K>(xs: seq<T>, keyOf: T -> K, key: K, k: nat) returns (i: nat)
    requires k < |Having(xs, keyOf, key)|
    ensures i < |xs| && xs[i] == Having(xs, keyOf, key)[k] && keyOf(xs[i]) == key
  {
    var shorter := xs[..|xs| - 1];
    if k < |Having(shorter, keyOf, key)| {
      i := HavingIndex(shorter, keyOf, key, k);
    } else {
      i := |xs| - 1;
    }
  }

  lemma {:induction false} HavingDistinct<T, K>(xs: seq<T>, keyOf: T -> K, key: K)
    requires NoDuplicates(xs)
    ensures NoDuplicates(Having(xs, keyOf, key))
  {
    if xs != [] {
      var shorter, last := xs[..|xs| - 1], xs[|xs| - 1];
      HavingDistinct(shorter, keyOf, key);
      HavingMembers(shorter, keyOf, key, last);
      assert last !in shorter;
    }
  }

  /** Selecting by key keeps the multiplicity of every element with the key, and no other. */
  lemma {:induction false} HavingCounts<T, K>(xs: seq<T>, keyOf: T -> K, key: K, x: T)
    ensures multiset(Having(xs, keyOf, key))[x] == if keyOf(x) == key then multiset(xs)[x] else 0
  {
    if xs != [] {
      assert xs == xs[..|xs| - 1] + [xs[|xs| - 1]];
      HavingCounts(xs[..|xs| - 1], keyOf, key, x);
    }
  }

  // ----- Buckets -----

  /** The keys of `xs` by first appearance. */
  ghost function FirstSeen<T, K>(xs: seq<T>, keyOf: T -> K): seq<K> {
    if xs == [] then []
    else
      var before, key := FirstSeen(xs[..|xs| - 1], keyOf), keyOf(xs[|xs| - 1]);
      if key in before then before else before + [key]
  }

  lemma {:induction false} FirstSeenKeys<T, K(!new)>(xs: seq<T>, keyOf: T -> K)
    ensures NoDuplicates(FirstSeen(xs, keyOf))
    ensures forall key :: key in FirstSeen(xs, keyOf) <==> exists x :: x in xs && keyOf(x) == key
  {
    if xs != [] {
      var shorter, last := xs[..|xs| - 1], xs[|xs| - 1];
      FirstSeenKeys(shorter, keyOf);
      assert xs == shorter + [last];
      assert last in xs;
    }
  }

  /** Each key is listed at its first appearance, after exactly the keys that appear before that. */
  lemma {:induction false} FirstSeenIsFirst<T, K(!new)>(xs: seq<T>, keyOf: T -> K, k: nat) returns (i: nat)
    requires k < |FirstSeen(xs, keyOf)|
    ensures i < |xs| && keyOf(xs[i]) == FirstSeen(xs, keyOf)[k]
    ensures forall j :: 0 <= j < i ==> keyOf(xs[j]) != keyOf(xs[i])
    ensures FirstSeen(xs, keyOf)[..k] == FirstSeen(xs[..i], keyOf)
  {
    var shorter := xs[..|xs| - 1];
    var before := FirstSeen(shorter, keyOf);
    FirstSeenKeys(shorter, keyOf);
    if k < |before| {
      i := FirstSeenIsFirst(shorter, keyOf, k);
      assert xs[..i] == shorter[..i] && FirstSeen(xs, keyOf)[..k] == before[..k];
    } else {
      i := |xs| - 1;
      forall j | 0 <= j < i ensures keyOf(xs[j]) != keyOf(xs[i]) {
        assert shorter[j] in shorter;
      }
    }
  }

  /** The buckets hold the elements of every key seen, and nothing else. */
  ghost predicate Bucketed<T, K(!new)>(xs: seq<T>, keyOf: T -> K, order: seq<K>, buckets: map<K, seq<T>>) {
    && order == FirstSeen(xs, keyOf)
    && (forall key :: key in buckets <==> key in order)
    && (forall key :: key in buckets ==> buckets[key] == Having(xs, keyOf, key) && buckets[key] != [])
    && (forall key :: key !in buckets ==> Having(xs, keyOf, key) == [])
  }

  lemma BucketStep<T, K(!new)>(xs: seq<T>, x: T, keyOf: T -> K, order: seq<K>, buckets: map<K, seq<T>>)
    requires Bucketed(xs, keyOf, order, buckets)
    ensures var key := keyOf(x);
            Bucketed(xs + [x], keyOf,
                     if key in buckets then order else order + [key],
                     buckets[key := (if key in buckets then buckets[key] else []) + [x]])
  {
    assert (xs + [x])[..|xs|] == xs;
    forall key ensures Having(xs + [x], keyOf, key) == Having(xs, keyOf, key) + (if keyOf(x) == key then [x] else []) {}
  }

  /** Buckets the elements by key, in the order in which the keys first occur. */
  method BucketByKey<T, K(==, !new)>(xs: seq<T>, keyOf: T -> K) returns (order: seq<K>, buckets: map<K, seq<T>>)
    ensures Bucketed(xs, keyOf, order, buckets)
  {
    order, buckets := [], map[];
    for i := 0 to |xs|
      invariant Bucketed(xs[..i], keyOf, order, buckets)
    {
      var key := keyOf(xs[i]);
      BucketStep(xs[..i], xs[i], keyOf, order, buckets);
      assert xs[..i + 1] == xs[..i] + [xs[i]];
      if key in buckets {
        buckets := buckets[key := buckets[key] + [xs[i]]];
      } else {
        order := order + [key];
        buckets := buckets[key := [] + [xs[i]]];
      }
    }
    assert xs[..|xs|] == xs;
  }

  // ----- Keys with several elements -----

  /** The keys among `keys` that at least two elements have. */
  ghost function SharedKeys<T, K>(xs: seq<T>, keyOf: T -> K, keys: seq<K>): seq<K> {
    if keys == [] then []
    else
      var last := keys[|keys| - 1];
      SharedKeys(xs, keyOf, keys[..|keys| - 1]) + (if |Having(xs, keyOf, last)| >= 2 then [last] else [])
  }

  lemma {:induction false} SharedKeysExact<T, K>(xs: seq<T>, keyOf: T -> K, keys: seq<K>, key: K)
    ensures key in SharedKeys(xs, keyOf, keys) <==> key in keys && |Having(xs, keyOf, key)| >= 2
  {
    if keys != [] {
      assert keys == keys[..|keys| - 1] + [keys[|keys| - 1]];
      SharedKeysExact(xs, keyOf, keys[..|keys| - 1], key);
    }
  }
}
