/**
 * Python's `sorted(xs, key=k)` for a real-valued key: an ascending order that keeps
 * elements with equal keys in their input order (a stable sort). It is written as
 * insertion from the left, which is one way to obtain that unique result.
 */
module StableSort {

  predicate SortedBy<T>(s: seq<T>, key: T -> real)
  {
    forall i, j :: 0 <= i < j < |s| ==> key(s[i]) <= key(s[j])
  }

  /** The elements of `s` whose key is `k`, in their order in `s`. */
  function KeyFilter<T>(s: seq<T>, key: T -> real, k: real): seq<T>
  {
    if s == [] then [] else KeyFilter(s[..|s| - 1], key, k) + (if key(s[|s| - 1]) == k then [s[|s| - 1]] else [])
  }

  /** Place `x` after every trailing element whose key is larger than its own. */
  function Insert<T>(x: T, s: seq<T>, key: T -> real): (r: seq<T>)
    ensures |r| == |s| + 1
    ensures multiset(r) == multiset(s) + multiset{x}
  {
    if s == [] || key(s[|s| - 1]) <= key(x) then s + [x]
    else
      assert s == s[..|s| - 1] + [s[|s| - 1]];
      Insert(x, s[..|s| - 1], key) + [s[|s| - 1]]
  }

  /** `sorted(s, key=key)`. */
  function SortBy<T>(s: seq<T>, key: T -> real): (r: seq<T>)
    ensures |r| == |s| && multiset(r) == multiset(s)
  {
    if s == [] then []
    else
      assert s == s[..|s| - 1] + [s[|s| - 1]];
      Insert(s[|s| - 1], SortBy(s[..|s| - 1], key), key)
  }

  /** Two elements with different keys come out in key order, whatever their input order. */
  lemma SortTwo<T>(a: T, b: T, key: T -> real)
    requires key(a) < key(b)
    ensures SortBy([b, a], key) == [a, b] && SortBy([a, b], key) == [a, b]
  {
    SortPair(b, a, key);
    SortPair(a, b, key);
    assert Insert(a, [b], key) == [a, b] by { assert [b][..0] == []; }
  }

  /** Sorting a pair inserts its second element into its first. */
  lemma SortPair<T>(a: T, b: T, key: T -> real)
    ensures SortBy([a, b], key) == Insert(b, [a], key)
  {
    assert [a, b][..1] == [a];
    assert [a][..0] == [];
  }

  lemma {:induction false} InsertSorted<T>(x: T, s: seq<T>, key: T -> real)
    requires SortedBy(s, key)
    ensures SortedBy(Insert(x, s, key), key)
  {
    if s == [] || key(s[|s| - 1]) <= key(x) {
    } else {
      var init, last := s[..|s| - 1], s[|s| - 1];
      InsertSorted(x, init, key);
      var r := Insert(x, init, key);
      forall y | y in r
        ensures key(y) <= key(last)
      {
        assert y in multiset(r);
        if y != x {
          assert y in multiset(init);
          var i :| 0 <= i < |init| && init[i] == y;
          assert s[i] == y;
        }
      }
      assert forall i :: 0 <= i < |r| ==> r[i] in r;
    }
  }

  lemma {:induction false} InsertKeyFilter<T>(x: T, s: seq<T>, key: T -> real, k: real)
    ensures KeyFilter(Insert(x, s, key), key, k) == KeyFilter(s, key, k) + (if key(x) == k then [x] else [])
  {
    if s == [] || key(s[|s| - 1]) <= key(x) {
      assert (s + [x])[..|s|] == s;
    } else {
      var init, last := s[..|s| - 1], s[|s| - 1];
      InsertKeyFilter(x, init, key, k);
      var r := Insert(x, init, key);
      assert (r + [last])[..|r|] == r;
    }
  }

  /** `SortBy` is sorted and stable: the elements of each key keep their input order. */
  lemma {:induction false} SortByStable<T>(s: seq<T>, key: T -> real)
    ensures SortedBy(SortBy(s, key), key)
    ensures forall k :: KeyFilter(SortBy(s, key), key, k) == KeyFilter(s, key, k)
  {
    if s != [] {
      var init, last := s[..|s| - 1], s[|s| - 1];
      SortByStable(init, key);
      InsertSorted(last, SortBy(init, key), key);
      forall k
        ensures KeyFilter(SortBy(s, key), key, k) == KeyFilter(s, key, k)
      {
        InsertKeyFilter(last, SortBy(init, key), key, k);
      }
    }
  }

  /** The last element after sorting has the greatest key, and among the elements with
      that key it is the one that came last in the input. */
  lemma LastIsNewest<T>(s: seq<T>, key: T -> real)
    requires s != []
    ensures var t := SortBy(s, key); var m := key(t[|t| - 1]);
      && (forall i :: 0 <= i < |s| ==> key(s[i]) <= m)
      && KeyFilter(s, key, m) != []
      && t[|t| - 1] == KeyFilter(s, key, m)[|KeyFilter(s, key, m)| - 1]
  {
    var t := SortBy(s, key);
    SortByStable(s, key);
    var m := key(t[|t| - 1]);
    forall i | 0 <= i < |s|
      ensures key(s[i]) <= m
    {
      assert s[i] in multiset(t);
      var j :| 0 <= j < |t| && t[j] == s[i];
    }
    assert KeyFilter(t, key, m) == KeyFilter(t[..|t| - 1], key, m) + [t[|t| - 1]];
  }
}
