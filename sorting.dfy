/**
 * `Array.prototype.sort` with a comparator. Since ES2019 the sort is stable:
 * an element is never moved past an element the comparator ranks equal.
 * A comparator `cmp` is represented by `before(a, b) == (cmp(a, b) <= 0)`,
 * "a may stay in front of b".
 */
module Sorting {

  /** The comparator is consistent: every pair is ordered one way or the other, transitively. */
  ghost predicate TotalPreorder<T(!new)>(before: (T, T) -> bool) {
    && (forall a, b :: before(a, b) || before(b, a))
    && (forall a, b, c :: before(a, b) && before(b, c) ==> before(a, c))
  }

  predicate SortedBy<T>(s: seq<T>, before: (T, T) -> bool) {
    forall i, j | 0 <= i < j < |s| :: before(s[i], s[j])
  }

  /** Places `x` in front of the first element it may precede. */
  function Insert<T>(x: T, s: seq<T>, before: (T, T) -> bool): (r: seq<T>)
    ensures multiset(r) == multiset(s) + multiset{x}
    ensures |r| == |s| + 1
  {
    if s == [] || before(x, s[0]) then [x] + s
    else
      assert s == [s[0]] + s[1..];
      [s[0]] + Insert(x, s[1..], before)
  }

  /** Stable insertion sort: the earlier of two equally ranked elements stays first. */
  function Sort<T>(s: seq<T>, before: (T, T) -> bool): (r: seq<T>)
    ensures multiset(r) == multiset(s)
    ensures |r| == |s|
  {
    if s == [] then []
    else
      assert s == [s[0]] + s[1..];
      Insert(s[0], Sort(s[1..], before), before)
  }

  lemma {:induction false} InsertSorted<T(!new)>(x: T, s: seq<T>, before: (T, T) -> bool)
    requires TotalPreorder(before)
    requires SortedBy(s, before)
    ensures SortedBy(Insert(x, s, before), before)
  {
    if s == [] || before(x, s[0]) {
    } else {
      assert before(s[0], x);
      var t := s[1..];
      InsertSorted(x, t, before);
      var r := Insert(x, t, before);
      forall k | 0 <= k < |r|
        ensures before(s[0], r[k])
      {
        var y := r[k];
        assert y in multiset(r);
        assert y in multiset(t) + multiset{x};
        if y != x {
          assert y in t;
          var m :| 0 <= m < |t| && t[m] == y;
          assert s[m + 1] == y;
        }
      }
      var q := [s[0]] + r;
      forall i, j | 0 <= i < j < |q|
        ensures before(q[i], q[j])
      {
        assert q[j] == r[j - 1];
        if i > 0 {
          assert q[i] == r[i - 1];
        }
      }
    }
  }

  /** Sorting with a consistent comparator yields an ordered permutation. */
  lemma {:induction false} SortSorted<T(!new)>(s: seq<T>, before: (T, T) -> bool)
    requires TotalPreorder(before)
    ensures SortedBy(Sort(s, before), before)
    ensures multiset(Sort(s, before)) == multiset(s)
  {
    if s != [] {
      SortSorted(s[1..], before);
      InsertSorted(s[0], Sort(s[1..], before), before);
    }
  }

  /** A comparator that returns 0 for every pair leaves the order untouched. */
  lemma {:induction false} SortAllEqualIsIdentity<T>(s: seq<T>, before: (T, T) -> bool)
    requires forall i, j | 0 <= i < |s| && 0 <= j < |s| :: before(s[i], s[j])
    ensures Sort(s, before) == s
  {
    if s != [] {
      SortAllEqualIsIdentity(s[1..], before);
      assert Sort(s[1..], before) == s[1..];
      if |s| > 1 {
        assert before(s[0], s[1]);
      }
    }
  }
}
