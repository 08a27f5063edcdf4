/**
 * Sequence helpers shared by the whole model: the JavaScript array built-ins
 * the point-of-sale script leans on (`find`/`findIndex`, `filter`) and the
 * vocabulary used to state what they return.
 */
module Util {

  datatype Option<T> = None | Some(value: T)

  /** `r` is `s` with some elements dropped and the rest kept in their order. */
  ghost predicate SubsequenceOf<T>(r: seq<T>, s: seq<T>)
    decreases |s|
  {
    r == [] || (s != [] && ((r[0] == s[0] && SubsequenceOf(r[1..], s[1..])) || SubsequenceOf(r, s[1..])))
  }

  /** No two positions of `s` share a key. */
  ghost predicate DistinctBy<T, K>(s: seq<T>, key: T -> K)
  {
    forall i, j :: 0 <= i < j < |s| ==> key(s[i]) != key(s[j])
  }

  /** No value occurs twice in `s`. */
  ghost predicate Distinct<T>(s: seq<T>)
  {
    forall i, j :: 0 <= i < j < |s| ==> s[i] != s[j]
  }

  /** `Array.prototype.findIndex`: the first position whose element satisfies `p`. */
  function FirstIndex<T>(s: seq<T>, p: T -> bool): (r: Option<nat>)
    ensures r.Some? ==> r.value < |s| && p(s[r.value]) && forall j :: 0 <= j < r.value ==> !p(s[j])
    ensures r.None? ==> forall j :: 0 <= j < |s| ==> !p(s[j])
  {
    if s == [] then None
    else if p(s[0]) then Some(0)
    else match FirstIndex(s[1..], p)
      case None => None
      case Some(i) => Some(i + 1)
  }

  /** `Array.prototype.filter`: the elements of `s` that satisfy `keep`, in their original order. */
  function Filter<T(==,!new)>(s: seq<T>, keep: T -> bool): (r: seq<T>)
    ensures |r| <= |s|
    ensures forall x :: x in r <==> x in s && keep(x)
    ensures SubsequenceOf(r, s)
  {
    if s == [] then []
    else if keep(s[0]) then [s[0]] + Filter(s[1..], keep)
    else Filter(s[1..], keep)
  }

  /** Every sequence is a subsequence of itself. */
  lemma {:induction false} Reflexive<T>(s: seq<T>)
    ensures SubsequenceOf(s, s)
    decreases |s|
  {
    if s != [] {
      Reflexive(s[1..]);
    }
  }

  /** A callback that accepts every element keeps the whole sequence. */
  lemma {:induction false} FilterAll<T(!new)>(s: seq<T>, keep: T -> bool)
    requires forall x :: x in s ==> keep(x)
    ensures Filter(s, keep) == s
    decreases |s|
  {
    if s != [] {
      assert forall x :: x in s[1..] ==> x in s;
      FilterAll(s[1..], keep);
    }
  }

  /** A prefix of the kept elements is what filtering some prefix of the input keeps. */
  lemma {:induction false} FilterPrefixes<T(!new)>(s: seq<T>, keep: T -> bool, n: nat)
    requires n <= |Filter(s, keep)|
    ensures exists k :: 0 <= k <= |s| && Filter(s[..k], keep) == Filter(s, keep)[..n]
    decreases |s|
  {
    if n == 0 {
      assert Filter(s[..0], keep) == Filter(s, keep)[..0];
    } else {
      var tail := Filter(s[1..], keep);
      var m := if keep(s[0]) then n - 1 else n;
      assert Filter(s, keep) == (if keep(s[0]) then [s[0]] + tail else tail);
      FilterPrefixes(s[1..], keep, m);
      var k' :| 0 <= k' <= |s[1..]| && Filter(s[1..][..k'], keep) == tail[..m];
      var pre := s[..k' + 1];
      assert pre[0] == s[0] && pre[1..] == s[1..][..k'];
      assert Filter(pre, keep) == (if keep(s[0]) then [s[0]] + tail[..m] else tail[..m]);
      assert Filter(pre, keep) == Filter(s, keep)[..n];
    }
  }

  /** `filter` keeps every copy of a kept element and no copy of a dropped one. */
  lemma {:induction false} FilterCount<T(!new)>(s: seq<T>, keep: T -> bool)
    ensures forall x :: multiset(Filter(s, keep))[x] == if keep(x) then multiset(s)[x] else 0
    decreases |s|
  {
    if s != [] {
      assert s == [s[0]] + s[1..];
      FilterCount(s[1..], keep);
    }
  }

  /**
   * In a sequence without repeated values, a prefix of the kept elements misses no kept
   * element that comes before one it holds.
   */
  lemma {:induction false} FilterPrefixClosed<T(!new)>(s: seq<T>, keep: T -> bool, n: nat, i: nat, j: nat)
    requires Distinct(s) && i < j < |s| && keep(s[i])
    requires n <= |Filter(s, keep)| && s[j] in Filter(s, keep)[..n]
    ensures s[i] in Filter(s, keep)[..n]
    decreases |s|
  {
    var tail := Filter(s[1..], keep);
    assert Distinct(s[1..]) by {
      forall a, b | 0 <= a < b < |s[1..]| ensures s[1..][a] != s[1..][b] {
        assert s[1..][a] == s[a + 1] && s[1..][b] == s[b + 1];
      }
    }
    assert s[1..][j - 1] == s[j];
    if keep(s[0]) {
      assert Filter(s, keep) == [s[0]] + tail;
      if i == 0 {
        assert Filter(s, keep)[..n][0] == s[0];
      } else {
        assert Filter(s, keep)[..n] == [s[0]] + tail[..n - 1];
        assert s[j] != s[0];
        assert s[1..][i - 1] == s[i];
        FilterPrefixClosed(s[1..], keep, n - 1, i - 1, j - 1);
      }
    } else {
      assert Filter(s, keep) == tail;
      assert s[1..][i - 1] == s[i];
      FilterPrefixClosed(s[1..], keep, n, i - 1, j - 1);
    }
  }

  /** Dropping elements never makes two of the survivors share a key. */
  lemma {:induction false} FilterKeepsDistinct<T(!new), K>(s: seq<T>, keep: T -> bool, key: T -> K)
    requires DistinctBy(s, key)
    ensures DistinctBy(Filter(s, keep), key)
  {
    if s != [] {
      var tail := Filter(s[1..], keep);
      assert DistinctBy(s[1..], key) by {
        forall i, j | 0 <= i < j < |s[1..]| ensures key(s[1..][i]) != key(s[1..][j]) {
          assert s[1..][i] == s[i + 1] && s[1..][j] == s[j + 1];
        }
      }
      FilterKeepsDistinct(s[1..], keep, key);
      if keep(s[0]) {
        var r := [s[0]] + tail;
        forall i, j | 0 <= i < j < |r| ensures key(r[i]) != key(r[j]) {
          assert r[j] == tail[j - 1];
          if i == 0 {
            assert r[j] in s[1..];
            var m :| 0 <= m < |s[1..]| && s[1..][m] == r[j];
            assert s[m + 1] == r[j];
          } else {
            assert r[i] == tail[i - 1];
          }
        }
      }
    }
  }

  /** A leading part of a subsequence is still a subsequence (`slice(0, n)` after `filter`). */
  lemma {:induction false} SubsequencePrefix<T>(r: seq<T>, s: seq<T>, n: nat)
    requires SubsequenceOf(r, s) && n <= |r|
    ensures SubsequenceOf(r[..n], s)
    decreases |s|
  {
    if n > 0 {
      if r[0] == s[0] && SubsequenceOf(r[1..], s[1..]) {
        SubsequencePrefix(r[1..], s[1..], n - 1);
        assert r[..n][1..] == r[1..][..n - 1];
      } else {
        SubsequencePrefix(r, s[1..], n);
      }
    }
  }
}
