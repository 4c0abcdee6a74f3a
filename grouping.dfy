/**
 * Sequence views of the JavaScript `Map` and object accumulations in the
 * rank code: the order in which keys are first inserted (a `Map`'s iteration
 * order), how often a key occurs, the first and the last element carrying a
 * key, and sums taken over the elements of one key.
 */
module Grouping {

  ghost predicate Distinct<K>(s: seq<K>) {
    forall i, j :: 0 <= i < j < |s| ==> s[i] != s[j]
  }

  ghost predicate DistinctBy<T, K>(s: seq<T>, key: T -> K) {
    forall i, j :: 0 <= i < j < |s| ==> key(s[i]) != key(s[j])
  }

  /** Whether some element of `s` has key `k`. */
  predicate HasKey<T>(s: seq<T>, key: T -> string, k: string) {
    exists i :: 0 <= i < |s| && key(s[i]) == k
  }

  /** The distinct keys of `s`, in order of first occurrence. */
  function KeyOrder<T>(s: seq<T>, key: T -> string): (r: seq<string>)
    ensures forall k :: k in r <==> HasKey(s, key, k)
    ensures Distinct(r)
    ensures |r| <= |s|
  {
    if s == [] then []
    else
      var p := KeyOrder(s[..|s| - 1], key);
      assert forall k :: HasKey(s, key, k) <==> HasKey(s[..|s| - 1], key, k) || key(s[|s| - 1]) == k by {
        forall k | HasKey(s, key, k) && key(s[|s| - 1]) != k
          ensures HasKey(s[..|s| - 1], key, k)
        {
          var i :| 0 <= i < |s| && key(s[i]) == k;
          assert s[..|s| - 1][i] == s[i];
        }
        forall k | HasKey(s[..|s| - 1], key, k) ensures HasKey(s, key, k) {
          var i :| 0 <= i < |s| - 1 && key(s[..|s| - 1][i]) == k;
          assert s[i] == s[..|s| - 1][i];
        }
      }
      if key(s[|s| - 1]) in p then p else p + [key(s[|s| - 1])]
  }

  /** How many elements of `s` have key `k`. */
  function Count<T>(s: seq<T>, key: T -> string, k: string): (r: nat)
    ensures r <= |s|
    ensures r > 0 <==> HasKey(s, key, k)
  {
    if s == [] then 0
    else
      var c := Count(s[..|s| - 1], key, k);
      assert HasKey(s, key, k) <==> HasKey(s[..|s| - 1], key, k) || key(s[|s| - 1]) == k by {
        if HasKey(s, key, k) && key(s[|s| - 1]) != k {
          var i :| 0 <= i < |s| && key(s[i]) == k;
          assert s[..|s| - 1][i] == s[i];
        }
        if HasKey(s[..|s| - 1], key, k) {
          var i :| 0 <= i < |s| - 1 && key(s[..|s| - 1][i]) == k;
          assert s[i] == s[..|s| - 1][i];
        }
      }
      c + if key(s[|s| - 1]) == k then 1 else 0
  }

  /** The sum of `val` over the elements of `s` with key `k`. */
  function SumWhere<T>(s: seq<T>, key: T -> string, k: string, val: T -> real): real
  {
    if s == [] then 0.0
    else SumWhere(s[..|s| - 1], key, k, val) + if key(s[|s| - 1]) == k then val(s[|s| - 1]) else 0.0
  }

  /** The first element of `s` with key `k`; `FirstWithIsFirst` says why. */
  function FirstWith<T>(s: seq<T>, key: T -> string, k: string): (r: T)
    requires HasKey(s, key, k)
    ensures key(r) == k
  {
    var p := s[..|s| - 1];
    if HasKey(p, key, k) then FirstWith(p, key, k)
    else
      assert key(s[|s| - 1]) == k by {
        forall j | 0 <= j < |s| - 1 ensures key(s[j]) != k {
          assert p[j] == s[j];
        }
      }
      s[|s| - 1]
  }

  /** The last element of `s` with key `k`, what a run of assignments `obj[k] = …` leaves behind; `LastWithIsLast` says why. */
  function LastWith<T>(s: seq<T>, key: T -> string, k: string): (r: T)
    requires HasKey(s, key, k)
    ensures key(r) == k
  {
    var p := s[..|s| - 1];
    if key(s[|s| - 1]) == k then s[|s| - 1]
    else
      assert HasKey(p, key, k) by {
        var i :| 0 <= i < |s| && key(s[i]) == k;
        assert p[i] == s[i];
      }
      LastWith(p, key, k)
  }

  /** `FirstWith` is the element at the smallest position holding key `k`. */
  lemma {:induction false} FirstWithIsFirst<T>(s: seq<T>, key: T -> string, k: string)
    requires HasKey(s, key, k)
    ensures exists i :: 0 <= i < |s| && s[i] == FirstWith(s, key, k) && forall j :: 0 <= j < i ==> key(s[j]) != k
  {
    var p := s[..|s| - 1];
    if HasKey(p, key, k) {
      FirstWithIsFirst(p, key, k);
      var i :| 0 <= i < |p| && p[i] == FirstWith(p, key, k) && forall j :: 0 <= j < i ==> key(p[j]) != k;
      assert s[i] == p[i] && forall j :: 0 <= j < i ==> s[j] == p[j];
    } else {
      forall j | 0 <= j < |s| - 1 ensures key(s[j]) != k {
        assert s[j] == p[j];
      }
    }
  }

  /** `LastWith` is the element at the largest position holding key `k`. */
  lemma {:induction false} LastWithIsLast<T>(s: seq<T>, key: T -> string, k: string)
    requires HasKey(s, key, k)
    ensures exists i :: 0 <= i < |s| && s[i] == LastWith(s, key, k) && forall j :: i < j < |s| ==> key(s[j]) != k
  {
    var p := s[..|s| - 1];
    var last := |s| - 1;
    if key(s[last]) != k {
      assert HasKey(p, key, k) by {
        var i :| 0 <= i < |s| && key(s[i]) == k;
        assert p[i] == s[i];
      }
      LastWithIsLast(p, key, k);
      var i :| 0 <= i < |p| && p[i] == LastWith(p, key, k) && forall j :: i < j < |p| ==> key(p[j]) != k;
      assert s[i] == LastWith(s, key, k) by { assert s[i] == p[i]; }
      forall j | i < j < |s| ensures key(s[j]) != k {
        if j < last { assert s[j] == p[j]; }
      }
    } else {
      assert s[last] == LastWith(s, key, k);
    }
  }

  /**
   * The reciprocal-rank contribution of key `k` in the ranked list `s`:
   * the sum of `1 / (base + i)` over the positions `i` whose element has key `k`.
   */
  function PositionScore<T>(s: seq<T>, key: T -> string, k: string, base: real): (r: real)
    requires base > 0.0
    ensures r >= 0.0
  {
    if s == [] then 0.0
    else
      PositionScore(s[..|s| - 1], key, k, base)
      + if key(s[|s| - 1]) == k then 1.0 / (base + (|s| - 1) as real) else 0.0
  }

  /** `1 / a` shrinks as `a` grows. */
  lemma ReciprocalAntitone(a: real, b: real)
    requires a >= b > 0.0
    ensures 1.0 / a <= 1.0 / b
  {
    assert (1.0 / a) * a == 1.0 && (1.0 / b) * b == 1.0;
    assert (1.0 / a) * b <= (1.0 / a) * a;
  }

  /** A key that occurs at most once, and not at position 0, scores at most `1 / (base + 1)`. */
  lemma {:induction false} PositionScoreTailBound<T>(s: seq<T>, key: T -> string, k: string, base: real)
    requires base > 0.0
    requires |s| > 0 && key(s[0]) != k
    requires Count(s, key, k) <= 1
    ensures PositionScore(s, key, k, base) <= 1.0 / (base + 1.0)
  {
    var p := s[..|s| - 1];
    if |s| > 1 {
      assert p[0] == s[0];
      if key(s[|s| - 1]) == k {
        PositionScoreAbsent(p, key, k, base);
        ReciprocalAntitone(base + (|s| - 1) as real, base + 1.0);
      } else {
        PositionScoreTailBound(p, key, k, base);
      }
    } else {
      assert p == [];
    }
  }

  /** The position score of a key that heads the list is at least `1 / base`. */
  lemma {:induction false} PositionScoreHeadBound<T>(s: seq<T>, key: T -> string, k: string, base: real)
    requires base > 0.0
    requires |s| > 0 && key(s[0]) == k
    ensures PositionScore(s, key, k, base) >= 1.0 / base
  {
    if |s| > 1 {
      var p := s[..|s| - 1];
      assert p[0] == s[0];
      PositionScoreHeadBound(p, key, k, base);
    } else {
      assert s[..0] == [];
    }
  }

  /** A key that does not occur contributes nothing. */
  lemma {:induction false} PositionScoreAbsent<T>(s: seq<T>, key: T -> string, k: string, base: real)
    requires base > 0.0
    requires !HasKey(s, key, k)
    ensures PositionScore(s, key, k, base) == 0.0
  {
    if s != [] {
      var p := s[..|s| - 1];
      forall i | 0 <= i < |p| ensures key(p[i]) != k { assert p[i] == s[i]; }
      PositionScoreAbsent(p, key, k, base);
    }
  }

  /** A key that does not occur sums to nothing. */
  lemma {:induction false} SumWhereAbsent<T>(s: seq<T>, key: T -> string, k: string, val: T -> real)
    requires !HasKey(s, key, k)
    ensures SumWhere(s, key, k, val) == 0.0
  {
    if s != [] {
      var p := s[..|s| - 1];
      forall i | 0 <= i < |p| ensures key(p[i]) != k { assert p[i] == s[i]; }
      SumWhereAbsent(p, key, k, val);
    }
  }

  lemma HasKeyAppend<T>(a: seq<T>, b: seq<T>, key: T -> string, k: string)
    ensures HasKey(a + b, key, k) <==> HasKey(a, key, k) || HasKey(b, key, k)
  {
    if HasKey(a + b, key, k) {
      var i :| 0 <= i < |a + b| && key((a + b)[i]) == k;
      if i >= |a| { assert (a + b)[i] == b[i - |a|]; }
    }
    if HasKey(a, key, k) {
      var i :| 0 <= i < |a| && key(a[i]) == k;
      assert (a + b)[i] == a[i];
    }
    if HasKey(b, key, k) {
      var i :| 0 <= i < |b| && key(b[i]) == k;
      assert (a + b)[|a| + i] == b[i];
    }
  }

  /** A position score depends only on the keys at each position, nothing else about the elements. */
  lemma {:induction false} PositionScoreKeysOnly<T, U>(s: seq<T>, keyS: T -> string, t: seq<U>, keyT: U -> string, k: string, base: real)
    requires base > 0.0
    requires |s| == |t| && forall i :: 0 <= i < |s| ==> keyS(s[i]) == keyT(t[i])
    ensures PositionScore(s, keyS, k, base) == PositionScore(t, keyT, k, base)
  {
    if s != [] {
      PositionScoreKeysOnly(s[..|s| - 1], keyS, t[..|t| - 1], keyT, k, base);
    }
  }

  /** `ss.flat()`: the concatenation of the lists in order. */
  function Flatten<T>(ss: seq<seq<T>>): seq<T>
  {
    if ss == [] then [] else Flatten(ss[..|ss| - 1]) + ss[|ss| - 1]
  }

  /** How one more element changes the key views of a prefix. */
  lemma AppendKeys<T>(p: seq<T>, x: T, key: T -> string, k: string)
    ensures HasKey(p + [x], key, k) <==> HasKey(p, key, k) || key(x) == k
    ensures Count(p + [x], key, k) == Count(p, key, k) + if key(x) == k then 1 else 0
    ensures KeyOrder(p + [x], key) == if key(x) in KeyOrder(p, key) then KeyOrder(p, key) else KeyOrder(p, key) + [key(x)]
  {
    assert (p + [x])[..|p|] == p;
    HasKeyAppend(p, [x], key, k);
    assert HasKey([x], key, k) <==> key(x) == k by {
      if key(x) == k { assert [x][0] == x; }
    }
  }

  /** How one more element changes the first and last element with key `k`. */
  lemma AppendFirstLast<T>(p: seq<T>, x: T, key: T -> string, k: string)
    requires HasKey(p, key, k) || key(x) == k
    ensures HasKey(p + [x], key, k)
    ensures FirstWith(p + [x], key, k) == if HasKey(p, key, k) then FirstWith(p, key, k) else x
    ensures LastWith(p + [x], key, k) == if key(x) == k then x else LastWith(p, key, k)
  {
    AppendKeys(p, x, key, k);
    assert (p + [x])[..|p|] == p;
  }

  /** An element with another key changes neither whether `k` occurs nor its last element. */
  lemma LastWithAppendOther<T>(p: seq<T>, x: T, key: T -> string, k: string)
    requires key(x) != k
    ensures HasKey(p + [x], key, k) == HasKey(p, key, k)
    ensures HasKey(p, key, k) ==> LastWith(p + [x], key, k) == LastWith(p, key, k)
  {
    AppendKeys(p, x, key, k);
    assert (p + [x])[..|p|] == p;
  }

  /** How one more element changes a sum. */
  lemma AppendSum<T>(p: seq<T>, x: T, key: T -> string, k: string, val: T -> real)
    ensures SumWhere(p + [x], key, k, val) == SumWhere(p, key, k, val) + if key(x) == k then val(x) else 0.0
  {
    assert (p + [x])[..|p|] == p;
  }

  /** How one more element changes a position score. */
  lemma AppendPosition<T>(p: seq<T>, x: T, key: T -> string, k: string, base: real)
    requires base > 0.0
    ensures PositionScore(p + [x], key, k, base) == PositionScore(p, key, k, base) + if key(x) == k then 1.0 / (base + |p| as real) else 0.0
  {
    assert (p + [x])[..|p|] == p;
  }
}
