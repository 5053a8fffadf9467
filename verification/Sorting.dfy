/** Stable sorting by a total preorder, and the uniqueness of a sorted permutation. */
module Sorting {

  ghost predicate TotalPreorder<T(!new)>(le: (T, T) -> bool) {
    && (forall a, b :: le(a, b) || le(b, a))
    && (forall a, b, c :: le(a, b) && le(b, c) ==> le(a, c))
  }

  ghost predicate Ascending<T>(le: (T, T) -> bool, s: seq<T>) {
    forall i, j :: 0 <= i < j < |s| ==> le(s[i], s[j])
  }

  /** Places `x` before the first element it does not come after, so equal keys keep their order. */
  function Insert<T>(le: (T, T) -> bool, x: T, s: seq<T>): seq<T> {
    if s == [] then [x]
    else if le(x, s[0]) then [x] + s
    else [s[0]] + Insert(le, x, s[1..])
  }

  function SortBy<T>(le: (T, T) -> bool, s: seq<T>): seq<T> {
    if s == [] then [] else Insert(le, s[0], SortBy(le, s[1..]))
  }

  lemma {:induction false} InsertKeepsElements<T>(le: (T, T) -> bool, x: T, s: seq<T>)
    ensures multiset(Insert(le, x, s)) == multiset(s) + multiset{x}
  {
    if s != [] {
      SplitHead(s);
      if !le(x, s[0]) {
        InsertKeepsElements(le, x, s[1..]);
      }
    }
  }

  lemma {:induction false} InsertSorts<T(!new)>(le: (T, T) -> bool, x: T, s: seq<T>)
    requires TotalPreorder(le) && Ascending(le, s)
    ensures Ascending(le, Insert(le, x, s))
  {
    if s == [] {
    } else if le(x, s[0]) {
      assert forall k :: 0 <= k < |s| ==> le(x, s[k]);
    } else {
      InsertSorts(le, x, s[1..]);
      var r := Insert(le, x, s[1..]);
      InsertKeepsElements(le, x, s[1..]);
      forall k | 0 <= k < |r| ensures le(s[0], r[k]) {
        assert r[k] in multiset(r);
        if r[k] != x {
          assert r[k] in s[1..];
        }
      }
    }
  }

  lemma {:induction false} SortBySorts<T(!new)>(le: (T, T) -> bool, s: seq<T>)
    requires TotalPreorder(le)
    ensures Ascending(le, SortBy(le, s))
    ensures multiset(SortBy(le, s)) == multiset(s)
  {
    if s != [] {
      SortBySorts(le, s[1..]);
      InsertSorts(le, s[0], SortBy(le, s[1..]));
      InsertKeepsElements(le, s[0], SortBy(le, s[1..]));
      assert s == [s[0]] + s[1..];
    }
  }

  // ----- Stability -----

  predicate Ties<T>(le: (T, T) -> bool, a: T, b: T) {
    le(a, b) && le(b, a)
  }

  /** The elements that tie with `x`, in order. */
  function TiedWith<T>(le: (T, T) -> bool, s: seq<T>, x: T): seq<T> {
    if s == [] then [] else (if Ties(le, s[0], x) then [s[0]] else []) + TiedWith(le, s[1..], x)
  }

  lemma TiedOneMore<T>(le: (T, T) -> bool, x: T, s: seq<T>, y: T)
    ensures TiedWith(le, [x] + s, y) == (if Ties(le, x, y) then [x] else []) + TiedWith(le, s, y)
  {
    assert ([x] + s)[1..] == s;
  }

  lemma {:induction false} InsertBeforeTies<T(!new)>(le: (T, T) -> bool, x: T, s: seq<T>, y: T)
    requires TotalPreorder(le)
    ensures TiedWith(le, Insert(le, x, s), y) == (if Ties(le, x, y) then [x] else []) + TiedWith(le, s, y)
  {
    hide TotalPreorder, TiedWith, Ties;
    if s == [] {
      assert Insert(le, x, s) == [x] + s;
      TiedOneMore(le, x, s, y);
    } else if le(x, s[0]) {
      assert Insert(le, x, s) == [x] + s;
      TiedOneMore(le, x, s, y);
    } else {
      var rest := Insert(le, x, s[1..]);
      assert Insert(le, x, s) == [s[0]] + rest && s == [s[0]] + s[1..];
      InsertBeforeTies(le, x, s[1..], y);
      TiedOneMore(le, s[0], rest, y);
      TiedOneMore(le, s[0], s[1..], y);
      if Ties(le, x, y) { SmallerDoesNotTie(le, s[0], x, y); }
    }
  }

  lemma SmallerDoesNotTie<T(!new)>(le: (T, T) -> bool, a: T, x: T, y: T)
    requires TotalPreorder(le) && !le(x, a) && Ties(le, x, y)
    ensures !Ties(le, a, y)
  {
    assert le(x, y) && le(y, a) ==> le(x, a);
  }

  /** Sorting keeps elements that tie in their order. */
  lemma {:induction false} SortKeepsTies<T(!new)>(le: (T, T) -> bool, s: seq<T>, y: T)
    requires TotalPreorder(le)
    ensures TiedWith(le, SortBy(le, s), y) == TiedWith(le, s, y)
  {
    hide TotalPreorder;
    if s != [] {
      SortKeepsTies(le, s[1..], y);
      InsertBeforeTies(le, s[0], SortBy(le, s[1..]), y);
    }
  }

  lemma {:induction false} FirstTied<T(!new)>(le: (T, T) -> bool, s: seq<T>, y: T)
    requires Ties(le, y, y)
    ensures TiedWith(le, s, y) != [] && TiedWith(le, s, y)[0] == y
            <==> exists i :: 0 <= i < |s| && s[i] == y && forall j :: 0 <= j < i ==> !Ties(le, s[j], y)
  {
    if s != [] {
      FirstTied(le, s[1..], y);
      if Ties(le, s[0], y) {
        if s[0] == y {
          assert exists i :: i == 0 && s[i] == y;
        }
      } else {
        if i :| 0 <= i < |s| && s[i] == y && forall j :: 0 <= j < i ==> !Ties(le, s[j], y) {
          assert i > 0 && s[1..][i - 1] == y;
        }
        if i :| 0 <= i < |s| - 1 && s[1..][i] == y && forall j :: 0 <= j < i ==> !Ties(le, s[1..][j], y) {
          forall j | 0 <= j < i + 1 ensures !Ties(le, s[j], y) {
            if j > 0 { assert s[1..][j - 1] == s[j]; }
          }
          assert s[i + 1] == y;
        }
      }
    }
  }

  lemma SameElements<T>(a: seq<T>, b: seq<T>)
    requires multiset(a) == multiset(b)
    ensures |a| == |b|
    ensures forall x :: x in a <==> x in b
  {
    assert |multiset(a)| == |multiset(b)|;
    forall x ensures x in a <==> x in b {
      assert x in a <==> x in multiset(a);
      assert x in b <==> x in multiset(b);
    }
  }

  lemma SplitHead<T>(s: seq<T>)
    requires s != []
    ensures multiset(s) == multiset{s[0]} + multiset(s[1..])
  {
    assert s == [s[0]] + s[1..];
  }

  lemma HeadsAgree<T(!new)>(le: (T, T) -> bool, a: seq<T>, b: seq<T>)
    requires Ascending(le, a) && Ascending(le, b) && multiset(a) == multiset(b) && a != []
    requires forall x, y :: x in a && y in a && le(x, y) && le(y, x) ==> x == y
    ensures b != [] && a[0] == b[0] && multiset(a[1..]) == multiset(b[1..])
  {
    SameElements(a, b);
    assert a[0] in b && b[0] in a;
    var i :| 0 <= i < |b| && b[i] == a[0];
    var j :| 0 <= j < |a| && a[j] == b[0];
    assert i > 0 ==> le(b[0], b[i]);
    assert j > 0 ==> le(a[0], a[j]);
    assert a[0] == b[0];
    SplitHead(a);
    SplitHead(b);
    assert multiset(a[1..]) == multiset(a) - multiset{a[0]};
  }

  /** A sequence is the only ascending arrangement of its elements when keys tell elements apart. */
  lemma {:induction false} SortedPermutationUnique<T(!new)>(le: (T, T) -> bool, a: seq<T>, b: seq<T>)
    requires Ascending(le, a) && Ascending(le, b) && multiset(a) == multiset(b)
    requires forall x, y :: x in a && y in a && le(x, y) && le(y, x) ==> x == y
    ensures a == b
  {
    SameElements(a, b);
    if a != [] {
      HeadsAgree(le, a, b);
      forall x, y | x in a[1..] && y in a[1..] && le(x, y) && le(y, x) ensures x == y {
        assert x in a && y in a;
      }
      SortedPermutationUnique(le, a[1..], b[1..]);
      assert a == [a[0]] + a[1..] && b == [b[0]] + b[1..];
    }
  }

  ghost predicate NoDuplicates<T>(s: seq<T>) {
    forall i, j :: 0 <= i < j < |s| ==> s[i] != s[j]
  }

  lemma NewAtPosition<T>(s: seq<T>, n: nat)
    requires NoDuplicates(s) && n < |s|
    ensures s[n] !in s[..n]
    ensures s[..n + 1] == s[..n] + [s[n]]
  {
  }

  lemma {:induction false} NoDuplicatesCount<T>(s: seq<T>, x: T)
    requires NoDuplicates(s)
    ensures multiset(s)[x] <= 1
  {
    if s != [] {
      SplitHead(s);
      NoDuplicatesCount(s[1..], x);
      forall k | 0 <= k < |s[1..]| ensures s[1..][k] != s[0] {
        assert s[1..][k] == s[k + 1];
      }
      assert s[0] !in s[1..];
    }
  }

  lemma {:induction false} CountedOnce<T>(s: seq<T>)
    requires forall x :: x in s ==> multiset(s)[x] <= 1
    ensures NoDuplicates(s)
  {
    forall i, j | 0 <= i < j < |s| ensures s[i] != s[j] {
      assert s == s[..j] + s[j..];
      assert multiset(s) == multiset(s[..j]) + multiset(s[j..]);
      assert s[..j][i] == s[i] && s[j..][0] == s[j];
      assert s[i] in multiset(s[..j]) && s[j] in multiset(s[j..]);
      assert s[i] in s && s[j] in s;
    }
  }

  lemma PermutedNoDuplicates<T>(a: seq<T>, b: seq<T>)
    requires multiset(a) == multiset(b) && NoDuplicates(a)
    ensures NoDuplicates(b)
  {
    forall x | x in b ensures multiset(b)[x] <= 1 {
      NoDuplicatesCount(a, x);
    }
    CountedOnce(b);
  }

  lemma SameElementsSameMultiset<T>(a: seq<T>, b: seq<T>)
    requires NoDuplicates(a) && NoDuplicates(b) && forall x :: x in a <==> x in b
    ensures multiset(a) == multiset(b)
  {
    forall x ensures multiset(a)[x] == multiset(b)[x] {
      NoDuplicatesCount(a, x);
      NoDuplicatesCount(b, x);
      assert x in a <==> x in multiset(a);
      assert x in b <==> x in multiset(b);
    }
  }
}
