/** Small value-level helpers shared by every part of the model: optional
    values, the string order used for sorting, ASCII lower-casing, substring
    search, and counting over sequences. */
module Common {

  datatype Option<+T> = None | Some(value: T) {
    function GetOr(default: T): T {
      match this
      case Some(v) => v
      case None => default
    }
  }

  /** JavaScript truthiness of an optional string: missing and "" are falsy. */
  predicate Truthy(s: Option<string>) {
    s.Some? && s.value != ""
  }

  /** A request field whose JSON type is not known in advance. Only strings
      are looked into; any other value keeps its truthiness and nothing else. */
  datatype JsValue = JsString(s: string) | JsOther(truthy: bool)

  predicate JsTruthy(v: JsValue) {
    match v
    case JsString(s) => s != ""
    case JsOther(t) => t
  }

  /** `a` sorts before or together with `b` in code-point order. */
  predicate StrLe(a: string, b: string) {
    if a == [] then true
    else if b == [] then false
    else if a[0] != b[0] then a[0] < b[0]
    else StrLe(a[1..], b[1..])
  }

  lemma {:induction false} StrLeTotal(a: string, b: string)
    ensures StrLe(a, b) || StrLe(b, a)
  {
    if a != [] && b != [] && a[0] == b[0] {
      StrLeTotal(a[1..], b[1..]);
    }
  }

  lemma {:induction false} StrLeTransitive(a: string, b: string, c: string)
    requires StrLe(a, b) && StrLe(b, c)
    ensures StrLe(a, c)
  {
    if a != [] && b != [] && c != [] && a[0] == b[0] && b[0] == c[0] {
      StrLeTransitive(a[1..], b[1..], c[1..]);
    }
  }

  lemma {:induction false} StrLeAntisymmetric(a: string, b: string)
    requires StrLe(a, b) && StrLe(b, a)
    ensures a == b
  {
    if a != [] && b != [] {
      StrLeAntisymmetric(a[1..], b[1..]);
    }
  }

  /** `String.prototype.toLowerCase`, restricted to the ASCII letters. */
  function LowerChar(c: char): (d: char)
    ensures 'A' <= c <= 'Z' ==> d as int == c as int + 32
    ensures !('A' <= c <= 'Z') ==> d == c
  {
    if 'A' <= c <= 'Z' then (c as int + 32) as char else c
  }

  function ToLower(s: string): (r: string)
    ensures |r| == |s|
    ensures forall i :: 0 <= i < |s| ==> r[i] == LowerChar(s[i])
  {
    if s == [] then [] else [LowerChar(s[0])] + ToLower(s[1..])
  }

  lemma ToLowerIdempotent(s: string)
    ensures ToLower(ToLower(s)) == ToLower(s)
  {
  }

  /** `needle` occurs in `hay` starting at position `i`. */
  predicate OccursAt(needle: string, hay: string, i: nat) {
    i + |needle| <= |hay| && hay[i..i + |needle|] == needle
  }

  /** `needle` occurs somewhere in `hay`. */
  ghost predicate OccursIn(needle: string, hay: string) {
    exists i: nat :: OccursAt(needle, hay, i)
  }

  /** `String.prototype.includes`: scans the start positions in turn. */
  predicate Includes(hay: string, needle: string) {
    IncludesFrom(hay, needle, 0)
  }

  predicate IncludesFrom(hay: string, needle: string, i: nat)
    decreases |hay| - i
  {
    if i + |needle| > |hay| then false
    else hay[i..i + |needle|] == needle || IncludesFrom(hay, needle, i + 1)
  }

  lemma {:induction false} IncludesFromSound(hay: string, needle: string, i: nat)
    ensures IncludesFrom(hay, needle, i) <==> exists j: nat :: i <= j && OccursAt(needle, hay, j)
    decreases |hay| - i
  {
    if i + |needle| <= |hay| {
      IncludesFromSound(hay, needle, i + 1);
      if hay[i..i + |needle|] == needle {
        assert OccursAt(needle, hay, i);
      }
      if exists j: nat :: i <= j && OccursAt(needle, hay, j) {
        var j: nat :| i <= j && OccursAt(needle, hay, j);
        assert j == i || (i + 1 <= j && OccursAt(needle, hay, j));
      }
    }
  }

  lemma IncludesMeansOccurs(hay: string, needle: string)
    ensures Includes(hay, needle) <==> OccursIn(needle, hay)
  {
    IncludesFromSound(hay, needle, 0);
  }

  lemma EmptyIncluded(hay: string)
    ensures Includes(hay, "")
  {
    assert OccursAt("", hay, 0);
    IncludesMeansOccurs(hay, "");
  }

  /** Number of positions of `s` that hold `x`. */
  function Count<T(==)>(s: seq<T>, x: T): (n: nat)
    ensures n <= |s|
    ensures x !in s ==> n == 0
    ensures x in s ==> n > 0
  {
    if s == [] then 0 else (if s[0] == x then 1 else 0) + Count(s[1..], x)
  }

  lemma {:induction false} CountAppend<T>(s: seq<T>, y: T, x: T)
    ensures Count(s + [y], x) == Count(s, x) + (if y == x then 1 else 0)
  {
    if s == [] {
      assert s + [y] == [y];
    } else {
      assert (s + [y])[1..] == s[1..] + [y];
      CountAppend(s[1..], y, x);
    }
  }

  /** The values of `s` in order of first occurrence, each once. */
  function Distinct<T(==,!new)>(s: seq<T>): (r: seq<T>)
    ensures forall x :: x in r <==> x in s
    ensures forall i, j :: 0 <= i < j < |r| ==> r[i] != r[j]
  {
    if s == [] then []
    else
      var prefix := Distinct(s[..|s| - 1]);
      assert forall x :: x in s <==> x in s[..|s| - 1] || x == s[|s| - 1];
      if s[|s| - 1] in prefix then prefix else prefix + [s[|s| - 1]]
  }

  /** `Array.prototype.filter`. */
  function Filter<T(!new)>(s: seq<T>, keep: T -> bool): (r: seq<T>)
    ensures |r| <= |s|
    ensures forall x :: x in r <==> x in s && keep(x)
  {
    if s == [] then []
    else
      assert forall x :: x in s <==> x == s[0] || x in s[1..];
      if keep(s[0]) then [s[0]] + Filter(s[1..], keep) else Filter(s[1..], keep)
  }

  /** Filtering distributes over concatenation. */
  lemma {:induction false} FilterAppend<T(!new)>(s: seq<T>, t: seq<T>, keep: T -> bool)
    ensures Filter(s + t, keep) == Filter(s, keep) + Filter(t, keep)
  {
    if s == [] {
      assert s + t == t;
    } else {
      var st := s + t;
      assert st[0] == s[0] && st[1..] == s[1..] + t;
      FilterAppend(s[1..], t, keep);
      if keep(s[0]) {
        assert Filter(st, keep) == [s[0]] + Filter(st[1..], keep);
        assert Filter(s, keep) == [s[0]] + Filter(s[1..], keep);
      } else {
        assert Filter(st, keep) == Filter(st[1..], keep);
        assert Filter(s, keep) == Filter(s[1..], keep);
      }
    }
  }

  /** Filtering twice by the same predicate is filtering once. */
  lemma {:induction false} FilterIdempotent<T(!new)>(s: seq<T>, keep: T -> bool)
    ensures Filter(Filter(s, keep), keep) == Filter(s, keep)
  {
    if s != [] {
      FilterIdempotent(s[1..], keep);
    }
  }

  /** A filter that keeps every element returns its input. */
  lemma {:induction false} FilterAll<T(!new)>(s: seq<T>, keep: T -> bool)
    requires forall x :: x in s ==> keep(x)
    ensures Filter(s, keep) == s
  {
    if s != [] {
      FilterAll(s[1..], keep);
    }
  }

  /** Two predicates that agree on the elements give the same filter. */
  lemma {:induction false} FilterCongruent<T(!new)>(s: seq<T>, p: T -> bool, q: T -> bool)
    requires forall x :: x in s ==> p(x) == q(x)
    ensures Filter(s, p) == Filter(s, q)
  {
    if s != [] {
      FilterCongruent(s[1..], p, q);
    }
  }

  /** `s.reduce((acc, x) => acc + f(x), 0)`. */
  function SumBy<T>(s: seq<T>, f: T -> int): int {
    if s == [] then 0 else f(s[0]) + SumBy(s[1..], f)
  }

  lemma {:induction false} SumByAppend<T>(s: seq<T>, t: seq<T>, f: T -> int)
    ensures SumBy(s + t, f) == SumBy(s, f) + SumBy(t, f)
  {
    if s == [] {
      assert s + t == t;
    } else {
      assert (s + t)[1..] == s[1..] + t;
      SumByAppend(s[1..], t, f);
    }
  }

  /** Taking one term out of a sum. */
  lemma SumByRemove<T>(t: seq<T>, i: nat, f: T -> int)
    requires i < |t|
    ensures SumBy(t, f) == f(t[i]) + SumBy(t[..i] + t[i + 1..], f)
  {
    var before, after := t[..i], t[i + 1..];
    var rest := [t[i]] + after;
    assert t == before + rest;
    assert rest[1..] == after;
    SumByAppend(before, rest, f);
    SumByAppend(before, after, f);
  }

  lemma MultisetRemove<T>(t: seq<T>, i: nat)
    requires i < |t|
    ensures multiset(t[..i] + t[i + 1..]) == multiset(t) - multiset{t[i]}
  {
    assert t == t[..i] + [t[i]] + t[i + 1..];
  }

  /** A sum does not depend on the order of its terms. */
  lemma {:induction false} SumByPermutation<T>(s: seq<T>, t: seq<T>, f: T -> int)
    requires multiset(s) == multiset(t)
    ensures SumBy(s, f) == SumBy(t, f)
    decreases |s|
  {
    if s == [] {
      assert |multiset(t)| == 0;
    } else {
      var x := s[0];
      assert x in multiset(t);
      var i :| 0 <= i < |t| && t[i] == x;
      var rest := t[..i] + t[i + 1..];
      MultisetRemove(t, i);
      assert multiset(s[1..]) == multiset(rest) by {
        assert s == [x] + s[1..];
      }
      SumByPermutation(s[1..], rest, f);
      SumByRemove(t, i, f);
    }
  }

  /** Replacing one term changes the sum by the difference of the terms. */
  lemma {:induction false} SumByUpdate<T>(s: seq<T>, i: nat, y: T, f: T -> int)
    requires i < |s|
    ensures SumBy(s[i := y], f) == SumBy(s, f) - f(s[i]) + f(y)
  {
    if i == 0 {
      assert s[i := y][1..] == s[1..];
    } else {
      assert s[i := y][1..] == s[1..][i - 1 := y];
      SumByUpdate(s[1..], i - 1, y, f);
    }
  }

  /** A sum whose terms are zero outside `keep` is the sum over the elements
      `keep` retains. */
  lemma {:induction false} SumByMasked<T(!new)>(s: seq<T>, keep: T -> bool, g: T -> int, f: T -> int)
    requires forall x :: f(x) == (if keep(x) then g(x) else 0)
    ensures SumBy(s, f) == SumBy(Filter(s, keep), g)
  {
    if s != [] {
      SumByMasked(s[1..], keep, g, f);
      if keep(s[0]) {
        assert ([s[0]] + Filter(s[1..], keep))[1..] == Filter(s[1..], keep);
      }
    }
  }

  predicate NoDuplicates<T(==)>(s: seq<T>) {
    forall i, j :: 0 <= i < j < |s| ==> s[i] != s[j]
  }

  lemma {:induction false} NoDuplicatesOccurOnce<T>(t: seq<T>, x: T)
    requires NoDuplicates(t)
    ensures multiset(t)[x] <= 1
  {
    if t != [] {
      assert t == [t[0]] + t[1..];
      assert NoDuplicates(t[1..]) by {
        forall i, j | 0 <= i < j < |t[1..]|
          ensures t[1..][i] != t[1..][j]
        {
          assert t[1..][i] == t[i + 1] && t[1..][j] == t[j + 1];
        }
      }
      NoDuplicatesOccurOnce(t[1..], x);
      if t[0] == x {
        assert x !in t[1..];
      }
    }
  }

  /** A permutation of a list without duplicates has none either. */
  lemma NoDuplicatesPermutation<T>(s: seq<T>, t: seq<T>)
    requires multiset(s) == multiset(t)
    ensures NoDuplicates(t) ==> NoDuplicates(s)
  {
    forall i, j | 0 <= i < j < |s| && NoDuplicates(t)
      ensures s[i] != s[j]
    {
      if s[i] == s[j] {
        assert s == s[..j] + [s[j]] + s[j + 1..];
        assert s[i] in s[..j];
        assert multiset(s)[s[j]] >= 2;
        NoDuplicatesOccurOnce(t, s[j]);
      }
    }
  }
}
