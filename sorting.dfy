/**
 * `Array.prototype.sort(compare)`: a stable sort driven by a comparator that
 * returns a negative number, zero or a positive number. It is modelled by a
 * stable insertion sort that, like the ECMAScript sort, keeps `a` before `b`
 * unless `compare(a, b) > 0`. Every comparator yields a permutation; a
 * consistent comparator also yields a sorted result.
 */
module Sorting {

  /**
   * The comparator induces a total preorder: the sign flips when the
   * arguments are swapped, and "not after" is transitive.
   */
  ghost predicate Consistent<T(!new)>(cmp: (T, T) -> int)
  {
    && (forall a, b :: cmp(a, b) > 0 ==> cmp(b, a) < 0)
    && (forall a, b, c :: cmp(a, b) <= 0 && cmp(b, c) <= 0 ==> cmp(a, c) <= 0)
  }

  /** No pair of elements is out of order. */
  ghost predicate SortedBy<T>(s: seq<T>, cmp: (T, T) -> int)
  {
    forall i, j :: 0 <= i < j < |s| ==> cmp(s[i], s[j]) <= 0
  }

  /** Inserts `x` before the first element it does not have to follow. */
  function Insert<T>(x: T, s: seq<T>, cmp: (T, T) -> int): (r: seq<T>)
    ensures |r| == |s| + 1
    ensures multiset(r) == multiset(s) + multiset{x}
  {
    if s == [] || cmp(x, s[0]) <= 0 then [x] + s
    else
      assert s == [s[0]] + s[1..];
      [s[0]] + Insert(x, s[1..], cmp)
  }

  /** The sorted array: a permutation of the input for every comparator. */
  function Sort<T>(s: seq<T>, cmp: (T, T) -> int): (r: seq<T>)
    ensures |r| == |s|
    ensures multiset(r) == multiset(s)
  {
    if s == [] then []
    else
      assert s == [s[0]] + s[1..];
      Insert(s[0], Sort(s[1..], cmp), cmp)
  }

  /** Every element of `s` may follow `a`. */
  ghost predicate AllAfter<T>(a: T, s: seq<T>, cmp: (T, T) -> int)
  {
    forall k :: 0 <= k < |s| ==> cmp(a, s[k]) <= 0
  }

  lemma {:induction false} InsertAllAfter<T>(a: T, x: T, s: seq<T>, cmp: (T, T) -> int)
    requires AllAfter(a, s, cmp) && cmp(a, x) <= 0
    ensures AllAfter(a, Insert(x, s, cmp), cmp)
  {
    if s != [] && cmp(x, s[0]) > 0 {
      InsertAllAfter(a, x, s[1..], cmp);
      assert AllAfter(a, s[1..], cmp) by {
        forall k | 0 <= k < |s[1..]| ensures cmp(a, s[1..][k]) <= 0 {
          assert s[1..][k] == s[k + 1];
        }
      }
    }
  }

  lemma {:induction false} InsertSorted<T(!new)>(x: T, s: seq<T>, cmp: (T, T) -> int)
    requires Consistent(cmp) && SortedBy(s, cmp)
    ensures SortedBy(Insert(x, s, cmp), cmp)
  {
    if s == [] {
    } else if cmp(x, s[0]) <= 0 {
      forall k | 0 <= k < |s| ensures cmp(x, s[k]) <= 0 {
        if k > 0 {
          assert cmp(s[0], s[k]) <= 0;
        }
      }
    } else {
      var tail := Insert(x, s[1..], cmp);
      InsertSorted(x, s[1..], cmp);
      assert AllAfter(s[0], s[1..], cmp) by {
        forall k | 0 <= k < |s[1..]| ensures cmp(s[0], s[1..][k]) <= 0 {
          assert s[1..][k] == s[k + 1];
        }
      }
      InsertAllAfter(s[0], x, s[1..], cmp);
      assert Insert(x, s, cmp) == [s[0]] + tail;
    }
  }

  /** A consistent comparator sorts. */
  lemma {:induction false} SortSorted<T(!new)>(s: seq<T>, cmp: (T, T) -> int)
    requires Consistent(cmp)
    ensures SortedBy(Sort(s, cmp), cmp)
  {
    if s != [] {
      SortSorted(s[1..], cmp);
      InsertSorted(s[0], Sort(s[1..], cmp), cmp);
    }
  }

  /** In a sorted sequence the first element may precede every element. */
  lemma SortedFirst<T>(s: seq<T>, cmp: (T, T) -> int, x: T)
    requires SortedBy(s, cmp) && x in s
    ensures |s| > 0 && (s[0] == x || cmp(s[0], x) <= 0)
  {
  }
}
