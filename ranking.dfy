/** The stable sorts the backend's reports use (`sorted(..., key=..., reverse=...)` and
    `list.sort(...)` of solar-panel-backend/main.py). Python's sort is stable also with
    `reverse=True`: records with equal keys keep their original order. Every such sort is
    written here as a descending sort by a key of type `Rank`, compared lexicographically;
    an ascending sort by a real key is the descending sort by its negation. */
module Ranking {

  /** A sort key: `major` first, then `minor`. */
  datatype Rank = Rank(major: int, minor: real)

  predicate RankLe(a: Rank, b: Rank)
  {
    a.major < b.major || (a.major == b.major && a.minor <= b.minor)
  }

  /** Highest key first. */
  ghost predicate SortedDesc<T>(s: seq<T>, key: T -> Rank)
  {
    forall i, j :: 0 <= i < j < |s| ==> RankLe(key(s[j]), key(s[i]))
  }

  /** Inserts `x` into a list sorted highest first, after every element whose key is at least
      as high: a later element lands after the earlier ones it ties with. */
  function InsertDesc<T>(x: T, s: seq<T>, key: T -> Rank): (r: seq<T>)
    ensures |r| == |s| + 1
    ensures multiset(r) == multiset(s) + multiset{x}
  {
    if s == [] then [x]
    else if RankLe(key(x), key(s[0])) then
      assert s == [s[0]] + s[1..];
      [s[0]] + InsertDesc(x, s[1..], key)
    else [x] + s
  }

  /** Insertion sort, highest key first, stable. */
  function SortDesc<T>(s: seq<T>, key: T -> Rank): (r: seq<T>)
    ensures |r| == |s|
    ensures multiset(r) == multiset(s)
  {
    if s == [] then []
    else
      assert s == s[..|s| - 1] + [s[|s| - 1]];
      InsertDesc(s[|s| - 1], SortDesc(s[..|s| - 1], key), key)
  }

  lemma {:induction false} InsertDescSorted<T>(x: T, s: seq<T>, key: T -> Rank)
    requires SortedDesc(s, key)
    ensures SortedDesc(InsertDesc(x, s, key), key)
  {
    if s != [] && RankLe(key(x), key(s[0])) {
      InsertDescSorted(x, s[1..], key);
      var r := InsertDesc(x, s[1..], key);
      // every element of r is s[1..]'s or x, and both lie at or below s[0]
      forall j | 0 <= j < |r| ensures RankLe(key(r[j]), key(s[0])) {
        assert r[j] in multiset(r);
        if r[j] != x {
          assert r[j] in multiset(s[1..]);
          var k :| 0 <= k < |s[1..]| && s[1..][k] == r[j];
          assert s[k + 1] == r[j];
        }
      }
    }
  }

  /** An element ranking at or below everything already sorted goes last. */
  lemma {:induction false} InsertDescLast<T>(x: T, s: seq<T>, key: T -> Rank)
    requires forall k :: 0 <= k < |s| ==> RankLe(key(x), key(s[k]))
    ensures InsertDesc(x, s, key) == s + [x]
  {
    if s != [] {
      InsertDescLast(x, s[1..], key);
      assert s == [s[0]] + s[1..];
    }
  }

  /** Stability: a list whose keys all tie comes out of the sort unchanged. */
  lemma {:induction false} SortDescStable<T>(s: seq<T>, key: T -> Rank)
    requires forall i, j :: 0 <= i < |s| && 0 <= j < |s| ==> key(s[i]) == key(s[j])
    ensures SortDesc(s, key) == s
  {
    if s != [] {
      var init := s[..|s| - 1];
      SortDescStable(init, key);
      InsertDescLast(s[|s| - 1], init, key);
      assert init + [s[|s| - 1]] == s;
    }
  }

  /** The sort orders its output and keeps its elements. */
  lemma {:induction false} SortDescSorted<T>(s: seq<T>, key: T -> Rank)
    ensures SortedDesc(SortDesc(s, key), key)
  {
    if s != [] {
      SortDescSorted(s[..|s| - 1], key);
      InsertDescSorted(s[|s| - 1], SortDesc(s[..|s| - 1], key), key);
    }
  }

  /** The first `n` elements of a list, or all of it: Python's `xs[:n]` for `n >= 0`. */
  function Take<T>(s: seq<T>, n: nat): (r: seq<T>)
    ensures |r| == if |s| < n then |s| else n
    ensures forall i :: 0 <= i < |r| ==> r[i] == s[i]
  {
    if |s| < n then s else s[..n]
  }

  /** The first `n` of the sorted list are the `n` highest, highest first: every element left
      out ranks at or below every element kept. */
  lemma TopRanked<T>(s: seq<T>, key: T -> Rank, n: nat)
    ensures var t := Take(SortDesc(s, key), n);
            && |t| == (if |s| < n then |s| else n)
            && SortedDesc(t, key)
            && multiset(t) <= multiset(s)
            && forall x, i :: x in multiset(s) - multiset(t) && 0 <= i < |t| ==> RankLe(key(x), key(t[i]))
  {
    var r := SortDesc(s, key);
    var t := Take(r, n);
    SortDescSorted(s, key);
    assert r == t + r[|t|..];
    assert multiset(r) == multiset(t) + multiset(r[|t|..]);
    forall x, i | x in multiset(s) - multiset(t) && 0 <= i < |t| ensures RankLe(key(x), key(t[i])) {
      assert x in multiset(r[|t|..]);
      var j :| 0 <= j < |r[|t|..]| && r[|t|..][j] == x;
      assert r[|t| + j] == x;
    }
  }
}
