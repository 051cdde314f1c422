/** Comparator sorting, as `Array.prototype.sort` and a store's `orderBy` do
    it: the result is ordered by the comparator and holds the same elements. */
module Sorting {
  import opened Common

  /** `le` is a total preorder: every two elements compare, and the order is
      transitive. Ties are allowed. */
  ghost predicate TotalPreorder<T(!new)>(le: (T, T) -> bool) {
    && (forall a, b :: le(a, b) || le(b, a))
    && (forall a, b, c :: le(a, b) && le(b, c) ==> le(a, c))
  }

  predicate SortedBy<T>(s: seq<T>, le: (T, T) -> bool) {
    forall i, j :: 0 <= i < j < |s| ==> le(s[i], s[j])
  }

  /** Places `x` before the first element it does not follow. */
  function Insert<T>(x: T, s: seq<T>, le: (T, T) -> bool): (r: seq<T>)
    ensures |r| == |s| + 1
    ensures multiset(r) == multiset(s) + multiset{x}
  {
    if s == [] then [x]
    else if le(x, s[0]) then [x] + s
    else
      assert s == [s[0]] + s[1..];
      [s[0]] + Insert(x, s[1..], le)
  }

  lemma {:induction false} InsertSorted<T(!new)>(x: T, s: seq<T>, le: (T, T) -> bool)
    requires TotalPreorder(le)
    requires SortedBy(s, le)
    ensures SortedBy(Insert(x, s, le), le)
  {
    if s == [] {
    } else if le(x, s[0]) {
      ConsSorted(x, s, le);
    } else {
      InsertSorted(x, s[1..], le);
      InsertAfterHead(x, s, le);
    }
  }

  /** An element no greater than the head goes in front of a sorted sequence. */
  lemma ConsSorted<T(!new)>(x: T, s: seq<T>, le: (T, T) -> bool)
    requires TotalPreorder(le)
    requires SortedBy(s, le) && s != [] && le(x, s[0])
    ensures SortedBy([x] + s, le)
  {
    var r := [x] + s;
    forall i, j | 0 <= i < j < |r|
      ensures le(r[i], r[j])
    {
      if i > 0 {
        assert r[i] == s[i - 1] && r[j] == s[j - 1];
      } else if j > 1 {
        assert le(s[0], s[j - 1]);
      }
    }
  }

  /** The head stays in front when `x` goes into the sorted tail. */
  lemma InsertAfterHead<T(!new)>(x: T, s: seq<T>, le: (T, T) -> bool)
    requires TotalPreorder(le)
    requires SortedBy(s, le) && s != [] && !le(x, s[0])
    requires SortedBy(Insert(x, s[1..], le), le)
    ensures SortedBy([s[0]] + Insert(x, s[1..], le), le)
  {
    var rest := Insert(x, s[1..], le);
    InsertFrom(x, s[1..], le);
    var r := [s[0]] + rest;
    forall i, j | 0 <= i < j < |r|
      ensures le(r[i], r[j])
    {
      if i == 0 {
        var y := rest[j - 1];
        assert y in rest;
        if y != x {
          assert y in s[1..];
          var k :| 0 <= k < |s| - 1 && s[1..][k] == y;
          assert le(s[0], s[k + 1]);
        }
      } else {
        assert r[i] == rest[i - 1] && r[j] == rest[j - 1];
      }
    }
  }

  /** Each element of an insertion is `x` or comes from `s`. */
  lemma {:induction false} InsertFrom<T>(x: T, s: seq<T>, le: (T, T) -> bool)
    ensures forall y :: y in Insert(x, s, le) ==> y == x || y in s
  {
    if s != [] && !le(x, s[0]) {
      InsertFrom(x, s[1..], le);
    }
  }

  /** Insertion sort by `le`: the head goes into the sorted tail, in front of
      the first element it does not follow. */
  function SortBy<T(!new)>(s: seq<T>, le: (T, T) -> bool): (r: seq<T>)
    requires TotalPreorder(le)
    ensures multiset(r) == multiset(s)
    ensures SortedBy(r, le)
  {
    if s == [] then []
    else
      var sorted := SortBy(s[1..], le);
      SortStep(s, sorted, le);
      Insert(s[0], sorted, le)
  }

  /** Inserting the head into the sorted tail sorts the whole sequence. */
  lemma SortStep<T(!new)>(s: seq<T>, sorted: seq<T>, le: (T, T) -> bool)
    requires TotalPreorder(le)
    requires s != []
    requires multiset(sorted) == multiset(s[1..]) && SortedBy(sorted, le)
    ensures multiset(Insert(s[0], sorted, le)) == multiset(s)
    ensures SortedBy(Insert(s[0], sorted, le), le)
  {
    InsertSorted(s[0], sorted, le);
    assert s == [s[0]] + s[1..];
  }

  lemma SortByLength<T(!new)>(s: seq<T>, le: (T, T) -> bool)
    requires TotalPreorder(le)
    ensures |SortBy(s, le)| == |s|
  {
    assert |multiset(SortBy(s, le))| == |multiset(s)|;
  }

  /** Sorting neither adds nor drops an element. */
  lemma SortByMembers<T(!new)>(s: seq<T>, le: (T, T) -> bool)
    requires TotalPreorder(le)
    ensures forall x :: x in SortBy(s, le) <==> x in s
  {
    var r := SortBy(s, le);
    forall x
      ensures x in r <==> x in s
    {
      assert x in r <==> x in multiset(r);
      assert x in s <==> x in multiset(s);
    }
  }

  /** Filtering keeps the order of what it keeps. */
  lemma {:induction false} FilterKeepsSorted<T(!new)>(s: seq<T>, keep: T -> bool, le: (T, T) -> bool)
    requires SortedBy(s, le)
    ensures SortedBy(Filter(s, keep), le)
  {
    if s != [] {
      FilterKeepsSorted(s[1..], keep, le);
      var rest := Filter(s[1..], keep);
      if keep(s[0]) {
        var r := [s[0]] + rest;
        forall i, j | 0 <= i < j < |r|
          ensures le(r[i], r[j])
        {
          assert r[j] == rest[j - 1] && r[j] in s[1..];
          if i > 0 {
            assert r[i] == rest[i - 1];
          } else {
            var k :| 0 <= k < |s[1..]| && s[1..][k] == r[j];
            assert s[0 + 1 + k] == r[j];
          }
        }
      }
    }
  }

  /** `Array.prototype.slice(0, n)`. */
  function Take<T>(s: seq<T>, n: nat): (r: seq<T>)
    ensures |r| <= n && |r| <= |s|
    ensures r == s[..|r|]
    ensures |s| <= n ==> r == s
    ensures |s| > n ==> |r| == n
  {
    if |s| <= n then s else s[..n]
  }
}
