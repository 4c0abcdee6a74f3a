/**
 * `Array.prototype.sort` with a comparator, as the rank code uses it. The
 * engine's sort is stable and treats a NaN comparator result as 0, so for a
 * consistent comparator its output is that of a stable insertion sort that
 * moves an element behind its neighbour only when the comparator is positive.
 */
module Sorting {

  import opened Js
  import opened Grouping

  /** Whether the comparator result puts `a` after `b`: a positive number (NaN counts as 0). */
  predicate After(c: Number) {
    c.Num? && c.v > 0.0
  }

  /** Insert `x` into `s` in front of the first element it need not follow. */
  function Insert<T>(x: T, s: seq<T>, cmp: (T, T) -> Number): (r: seq<T>)
    ensures multiset(r) == multiset(s) + multiset{x}
    ensures |r| == |s| + 1
  {
    if s == [] || !After(cmp(x, s[0])) then [x] + s
    else
      assert s == [s[0]] + s[1..];
      [s[0]] + Insert(x, s[1..], cmp)
  }

  /** `s.sort(cmp)`. */
  function Sort<T>(s: seq<T>, cmp: (T, T) -> Number): (r: seq<T>)
    ensures multiset(r) == multiset(s)
    ensures |r| == |s|
  {
    if s == [] then []
    else
      assert s == [s[0]] + s[1..];
      Insert(s[0], Sort(s[1..], cmp), cmp)
  }

  /** `s` is ordered by `score`, largest first. */
  ghost predicate NonIncreasing<T>(s: seq<T>, score: T -> real) {
    forall i, j :: 0 <= i < j < |s| ==> score(s[i]) >= score(s[j])
  }

  /** A comparator computing `score(b) - score(a)`, the descending order the source asks for. */
  ghost predicate Descending<T(!new)>(cmp: (T, T) -> Number, score: T -> real) {
    forall a, b :: cmp(a, b) == Num(score(b) - score(a))
  }

  lemma {:induction false} InsertNonIncreasing<T(!new)>(x: T, s: seq<T>, cmp: (T, T) -> Number, score: T -> real)
    requires Descending(cmp, score)
    requires NonIncreasing(s, score)
    ensures NonIncreasing(Insert(x, s, cmp), score)
  {
    if s == [] || !After(cmp(x, s[0])) {
      if s != [] {
        assert cmp(x, s[0]) == Num(score(s[0]) - score(x));
        ConsNonIncreasing(x, s, score);
      }
    } else {
      var t := Insert(x, s[1..], cmp);
      assert cmp(x, s[0]) == Num(score(s[0]) - score(x));
      InsertNonIncreasing(x, s[1..], cmp, score);
      forall y | y in t ensures score(s[0]) >= score(y) {
        InsertMember(x, s[1..], cmp, y);
        if y != x {
          HeadIsBest(s, score, y);
        }
      }
      PrependBest(s[0], t, score);
    }
  }

  /** What an insertion holds is the inserted element or one it was given. */
  lemma {:induction false} InsertMember<T>(x: T, s: seq<T>, cmp: (T, T) -> Number, y: T)
    requires y in Insert(x, s, cmp)
    ensures y == x || y in s
  {
    assert y in multiset(Insert(x, s, cmp));
  }

  /** The head of a list ordered largest first scores at least as much as anything in the list. */
  lemma HeadIsBest<T>(s: seq<T>, score: T -> real, y: T)
    requires NonIncreasing(s, score) && s != [] && y in s[1..]
    ensures score(s[0]) >= score(y)
  {
    var j :| 0 <= j < |s[1..]| && s[1..][j] == y;
    assert s[j + 1] == y;
  }

  /** A list ordered largest first stays so with an element in front that scores at least its head. */
  lemma ConsNonIncreasing<T>(x: T, s: seq<T>, score: T -> real)
    requires NonIncreasing(s, score) && s != [] && score(x) >= score(s[0])
    ensures NonIncreasing([x] + s, score)
  {
    var r := [x] + s;
    forall i, j | 0 <= i < j < |r| ensures score(r[i]) >= score(r[j]) {
      assert r[j] == s[j - 1];
      if i > 0 { assert r[i] == s[i - 1]; }
    }
  }

  /** A list ordered largest first stays so with an element in front that scores at least all of it. */
  lemma PrependBest<T>(x: T, t: seq<T>, score: T -> real)
    requires NonIncreasing(t, score)
    requires forall y :: y in t ==> score(x) >= score(y)
    ensures NonIncreasing([x] + t, score)
  {
    var r := [x] + t;
    forall i, j | 0 <= i < j < |r| ensures score(r[i]) >= score(r[j]) {
      assert r[j] == t[j - 1];
      if i > 0 { assert r[i] == t[i - 1]; }
    }
  }

  /** With a descending comparator the sorted list is ordered by score, largest first. */
  lemma {:induction false} SortNonIncreasing<T(!new)>(s: seq<T>, cmp: (T, T) -> Number, score: T -> real)
    requires Descending(cmp, score)
    ensures NonIncreasing(Sort(s, cmp), score)
  {
    if s != [] {
      SortNonIncreasing(s[1..], cmp, score);
      InsertNonIncreasing(s[0], Sort(s[1..], cmp), cmp, score);
    }
  }

  /** A comparator that never answers "after" on these elements (it only yields 0 or NaN) leaves the list as it is. */
  lemma {:induction false} SortNeverAfter<T>(s: seq<T>, cmp: (T, T) -> Number)
    requires forall a, b :: a in s && b in s ==> !After(cmp(a, b))
    ensures Sort(s, cmp) == s
  {
    if s != [] {
      SortNeverAfter(s[1..], cmp);
      if |s| > 1 {
        assert s[0] in s && s[1] in s;
      }
    }
  }

  lemma {:induction false} InsertDistinctBy<T, K>(x: T, s: seq<T>, cmp: (T, T) -> Number, key: T -> K)
    requires DistinctBy(s, key)
    requires forall i :: 0 <= i < |s| ==> key(s[i]) != key(x)
    ensures DistinctBy(Insert(x, s, cmp), key)
  {
    if s == [] || !After(cmp(x, s[0])) {
      var r := [x] + s;
      forall i, j | 0 <= i < j < |r| ensures key(r[i]) != key(r[j]) {
        assert r[j] == s[j - 1];
        if i > 0 { assert r[i] == s[i - 1]; }
      }
    } else {
      var t := Insert(x, s[1..], cmp);
      InsertDistinctBy(x, s[1..], cmp, key);
      forall y | y in t ensures key(y) != key(s[0]) {
        assert y in multiset(t);
        if y != x {
          assert y in multiset(s[1..]);
          var j :| 0 <= j < |s[1..]| && s[1..][j] == y;
          assert s[j + 1] == y;
        }
      }
      var r := [s[0]] + t;
      forall i, j | 0 <= i < j < |r| ensures key(r[i]) != key(r[j]) {
        assert r[j] == t[j - 1];
        if i > 0 { assert r[i] == t[i - 1]; }
      }
    }
  }

  /** Sorting keeps keys pairwise distinct. */
  lemma {:induction false} SortDistinctBy<T, K>(s: seq<T>, cmp: (T, T) -> Number, key: T -> K)
    requires DistinctBy(s, key)
    ensures DistinctBy(Sort(s, cmp), key)
  {
    if s != [] {
      var t := Sort(s[1..], cmp);
      SortDistinctBy(s[1..], cmp, key);
      forall i | 0 <= i < |t| ensures key(t[i]) != key(s[0]) {
        assert t[i] in multiset(s[1..]);
        var j :| 0 <= j < |s[1..]| && s[1..][j] == t[i];
        assert s[j + 1] == t[i];
      }
      InsertDistinctBy(s[0], t, cmp, key);
    }
  }

  /** Sorting keeps exactly the elements it was given. */
  lemma SortSameElements<T>(s: seq<T>, cmp: (T, T) -> Number, x: T)
    ensures x in Sort(s, cmp) <==> x in s
  {
    assert x in Sort(s, cmp) <==> x in multiset(Sort(s, cmp));
    assert x in s <==> x in multiset(s);
  }

  /** Cutting a list ordered largest first keeps the best: whatever falls outside the prefix scores no more than what is in it. */
  lemma PrefixKeepsBest<T>(s: seq<T>, m: nat, score: T -> real, x: T)
    requires NonIncreasing(s, score)
    requires m <= |s| && x in s && x !in s[..m]
    ensures forall y :: y in s[..m] ==> score(x) <= score(y)
  {
    var p :| 0 <= p < |s| && s[p] == x;
    forall i | 0 <= i < m ensures s[i] != x {
      assert s[i] == s[..m][i];
    }
    forall y | y in s[..m] ensures score(x) <= score(y) {
      var i :| 0 <= i < m && s[..m][i] == y;
      assert s[i] == y;
    }
  }
}
