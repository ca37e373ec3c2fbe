/** `Array.prototype.sort` with a numeric comparator. The engines the client
    runs on sort stably, so elements whose keys compare equal keep their
    relative order; the model is a stable insertion sort by an integer key,
    ascending or descending. */
module Sorting {

  /** `b` may come after `a` in the sorted output. */
  predicate InOrder(ka: int, kb: int, descending: bool)
  {
    if descending then ka >= kb else ka <= kb
  }

  predicate SortedBy<T>(s: seq<T>, key: T -> int, descending: bool)
  {
    forall i, j :: 0 <= i < j < |s| ==> InOrder(key(s[i]), key(s[j]), descending)
  }

  /** Insert `x` before the first element that does not strictly precede it. */
  function Insert<T>(x: T, s: seq<T>, key: T -> int, descending: bool): seq<T>
  {
    if s == [] || InOrder(key(x), key(s[0]), descending) then [x] + s
    else [s[0]] + Insert(x, s[1..], key, descending)
  }

  function SortBy<T>(s: seq<T>, key: T -> int, descending: bool): seq<T>
  {
    if s == [] then [] else Insert(s[0], SortBy(s[1..], key, descending), key, descending)
  }

  /** In a sorted list the head may precede every later element. */
  lemma HeadFirst<T>(s: seq<T>, key: T -> int, descending: bool, y: T)
    requires s != [] && SortedBy(s, key, descending) && y in s[1..]
    ensures InOrder(key(s[0]), key(y), descending)
  {
    var m :| 0 <= m < |s[1..]| && s[1..][m] == y;
    assert s[m + 1] == y;
  }

  /** A head that may precede every element of a sorted tail keeps the
      list sorted. */
  lemma ConsSorted<T>(h: T, t: seq<T>, key: T -> int, descending: bool)
    requires SortedBy(t, key, descending)
    requires forall k :: 0 <= k < |t| ==> InOrder(key(h), key(t[k]), descending)
    ensures SortedBy([h] + t, key, descending)
  {
    var r := [h] + t;
    forall i, j | 0 <= i < j < |r|
      ensures InOrder(key(r[i]), key(r[j]), descending)
    {
      assert r[j] == t[j - 1];
      if i > 0 {
        assert r[i] == t[i - 1];
      }
    }
  }

  lemma {:induction false} InsertPermutes<T>(x: T, s: seq<T>, key: T -> int, descending: bool)
    ensures multiset(Insert(x, s, key, descending)) == multiset(s) + multiset{x}
  {
    if !(s == [] || InOrder(key(x), key(s[0]), descending)) {
      InsertPermutes(x, s[1..], key, descending);
      assert s == [s[0]] + s[1..];
    }
  }

  lemma {:induction false} InsertSorted<T>(x: T, s: seq<T>, key: T -> int, descending: bool)
    requires SortedBy(s, key, descending)
    ensures SortedBy(Insert(x, s, key, descending), key, descending)
    ensures multiset(Insert(x, s, key, descending)) == multiset(s) + multiset{x}
  {
    InsertPermutes(x, s, key, descending);
    if s == [] || InOrder(key(x), key(s[0]), descending) {
      forall k | 0 <= k < |s|
        ensures InOrder(key(x), key(s[k]), descending)
      {
        assert k == 0 || InOrder(key(s[0]), key(s[k]), descending);
      }
      ConsSorted(x, s, key, descending);
    } else {
      var t := Insert(x, s[1..], key, descending);
      InsertSorted(x, s[1..], key, descending);
      assert SortedBy(s[1..], key, descending);
      forall k | 0 <= k < |t|
        ensures InOrder(key(s[0]), key(t[k]), descending)
      {
        assert t[k] in multiset(t);
        if t[k] != x {
          assert t[k] in multiset(s[1..]);
          HeadFirst(s, key, descending, t[k]);
        }
      }
      ConsSorted(s[0], t, key, descending);
    }
  }

  /** The sorted output is ordered by the key and is a permutation of the input. */
  lemma {:induction false} SortByCorrect<T>(s: seq<T>, key: T -> int, descending: bool)
    ensures SortedBy(SortBy(s, key, descending), key, descending)
    ensures multiset(SortBy(s, key, descending)) == multiset(s)
    ensures |SortBy(s, key, descending)| == |s|
  {
    var r := SortBy(s, key, descending);
    if s != [] {
      var rest := SortBy(s[1..], key, descending);
      SortByCorrect(s[1..], key, descending);
      InsertSorted(s[0], rest, key, descending);
      assert r == Insert(s[0], rest, key, descending);
      assert s == [s[0]] + s[1..];
      assert multiset(s) == multiset{s[0]} + multiset(s[1..]);
    }
    assert |r| == |multiset(r)| == |multiset(s)| == |s|;
  }

  /** Stability at its simplest: input that is already in order, in particular
      input whose keys are all equal, comes back unchanged. */
  lemma {:induction false} SortByStableWhenSorted<T>(s: seq<T>, key: T -> int, descending: bool)
    requires SortedBy(s, key, descending)
    ensures SortBy(s, key, descending) == s
  {
    if s != [] {
      assert SortedBy(s[1..], key, descending);
      SortByStableWhenSorted(s[1..], key, descending);
    }
  }

  lemma ConstantKeySorted<T>(s: seq<T>, key: T -> int, descending: bool)
    requires forall i :: 0 <= i < |s| ==> key(s[i]) == key(s[0])
    ensures SortedBy(s, key, descending)
  {
  }
}
