/**
 Sorting by a key, in the two strengths Go's library gives.

   StableSort        a stable sort, which the program relies on where ties must keep their
                     order: the replayed stream and the retry chains
   SortUnstably      a sorted permutation and no more, where the order among ties is open: the
                     quantile, the desk windows and the entries of one kind

 Stability is `SortFilter`: picking elements out commutes with sorting.
 */
module Sorting {

  ghost predicate Sorted<T>(s: seq<T>, key: T -> real) {
    forall i, j :: 0 <= i < j < |s| ==> key(s[i]) <= key(s[j])
  }

  ghost predicate Distinct<T>(s: seq<T>) { forall i, j :: 0 <= i < j < |s| ==> s[i] != s[j] }

  function Filter<T>(s: seq<T>, p: T -> bool): seq<T> {
    if s == [] then [] else if p(s[0]) then [s[0]] + Filter(s[1..], p) else Filter(s[1..], p)
  }

  lemma {:induction false} FilterMembers<T>(s: seq<T>, p: T -> bool)
    ensures |Filter(s, p)| <= |s|
    ensures forall i :: 0 <= i < |Filter(s, p)| ==> Filter(s, p)[i] in s && p(Filter(s, p)[i])
    ensures forall i :: 0 <= i < |s| && p(s[i]) ==> s[i] in Filter(s, p)
  {
    if s != [] {
      FilterMembers(s[1..], p);
      assert s == [s[0]] + s[1..];
    }
  }

  lemma {:induction false} FilterConcat<T>(a: seq<T>, b: seq<T>, p: T -> bool)
    ensures Filter(a + b, p) == Filter(a, p) + Filter(b, p)
  {
    if a == [] {
      assert a + b == b;
    } else {
      assert (a + b)[1..] == a[1..] + b;
      FilterConcat(a[1..], b, p);
    }
  }

  /** One more element at the end. */
  lemma FilterSnoc<T>(s: seq<T>, x: T, p: T -> bool)
    ensures Filter(s + [x], p) == Filter(s, p) + (if p(x) then [x] else [])
  {
    FilterConcat(s, [x], p);
    assert [x][1..] == [] && Filter([x][1..], p) == [];
  }

  lemma {:induction false} FilterNone<T>(s: seq<T>, p: T -> bool)
    requires forall i :: 0 <= i < |s| ==> !p(s[i])
    ensures Filter(s, p) == []
  {
    if s != [] {
      FilterNone(s[1..], p);
    }
  }

  lemma {:induction false} FilterAll<T>(s: seq<T>, p: T -> bool)
    requires forall i :: 0 <= i < |s| ==> p(s[i])
    ensures Filter(s, p) == s
  {
    if s != [] {
      FilterAll(s[1..], p);
    }
  }

  lemma {:induction false} FilterSame<T>(s: seq<T>, p: T -> bool, q: T -> bool)
    requires forall i :: 0 <= i < |s| ==> p(s[i]) == q(s[i])
    ensures Filter(s, p) == Filter(s, q)
  {
    if s != [] {
      FilterSame(s[1..], p, q);
    }
  }

  // ----- the stable sort

  function Insert<T>(x: T, s: seq<T>, key: T -> real): seq<T> {
    if s == [] || key(x) <= key(s[0]) then [x] + s else [s[0]] + Insert(x, s[1..], key)
  }

  function StableSort<T>(s: seq<T>, key: T -> real): seq<T> {
    if s == [] then [] else Insert(s[0], StableSort(s[1..], key), key)
  }

  lemma {:induction false} InsertPermutes<T>(x: T, s: seq<T>, key: T -> real)
    ensures multiset(Insert(x, s, key)) == multiset{x} + multiset(s)
    ensures |Insert(x, s, key)| == |s| + 1
  {
    if s != [] && key(s[0]) < key(x) {
      InsertPermutes(x, s[1..], key);
      assert s == [s[0]] + s[1..];
    }
  }

  /** The result is the same elements, each as often as before. */
  lemma {:induction false} SortPermutes<T>(s: seq<T>, key: T -> real)
    ensures multiset(StableSort(s, key)) == multiset(s)
    ensures |StableSort(s, key)| == |s|
  {
    if s != [] {
      SortPermutes(s[1..], key);
      InsertPermutes(s[0], StableSort(s[1..], key), key);
      assert s == [s[0]] + s[1..];
    }
  }

  lemma {:induction false} InsertSorted<T>(x: T, s: seq<T>, key: T -> real)
    requires Sorted(s, key)
    ensures Sorted(Insert(x, s, key), key)
  {
    if s != [] && key(s[0]) < key(x) {
      InsertSorted(x, s[1..], key);
      InsertPermutes(x, s[1..], key);
      var r := Insert(x, s[1..], key);
      forall i | 0 <= i < |r| ensures key(s[0]) <= key(r[i]) {
        assert r[i] in multiset(r);
        assert r[i] == x || r[i] in s[1..];
      }
    }
  }

  /** The result is in order of the key. */
  lemma {:induction false} SortSorted<T>(s: seq<T>, key: T -> real)
    ensures Sorted(StableSort(s, key), key)
  {
    if s != [] {
      SortSorted(s[1..], key);
      InsertSorted(s[0], StableSort(s[1..], key), key);
    }
  }

  // Whatever comes before everything sorted goes in front, filtered or not.
  lemma InsertFirst<T>(x: T, s: seq<T>, key: T -> real, p: T -> bool)
    requires forall i :: 0 <= i < |s| ==> key(x) <= key(s[i])
    ensures Insert(x, Filter(s, p), key) == [x] + Filter(s, p)
  {
    FilterMembers(s, p);
    if Filter(s, p) != [] {
      assert Filter(s, p)[0] in s;
    }
  }

  lemma {:induction false} InsertFilter<T>(x: T, s: seq<T>, key: T -> real, p: T -> bool)
    requires Sorted(s, key)
    ensures Filter(Insert(x, s, key), p) == if p(x) then Insert(x, Filter(s, p), key) else Filter(s, p)
  {
    if s == [] || key(x) <= key(s[0]) {
      assert ([x] + s)[1..] == s;
      InsertFirst(x, s, key, p);
    } else {
      var rest := Insert(x, s[1..], key);
      assert ([s[0]] + rest)[1..] == rest;
      InsertFilter(x, s[1..], key, p);
      if p(s[0]) && p(x) {
        var f := Filter(s[1..], p);
        assert ([s[0]] + f)[1..] == f;
        assert Insert(x, [s[0]] + f, key) == [s[0]] + Insert(x, f, key);
      }
    }
  }

  /** Stability, for every way of looking: picking elements out commutes with sorting, so elements
      with equal keys stay in the order they came. */
  lemma {:induction false} SortFilter<T>(s: seq<T>, key: T -> real, p: T -> bool)
    ensures Filter(StableSort(s, key), p) == StableSort(Filter(s, p), key)
  {
    if s != [] {
      SortFilter(s[1..], key, p);
      SortSorted(s[1..], key);
      InsertFilter(s[0], StableSort(s[1..], key), key, p);
      if p(s[0]) {
        var f := Filter(s[1..], p);
        assert ([s[0]] + f)[1..] == f && ([s[0]] + f)[0] == s[0];
      }
    }
  }

  lemma {:induction false} SortOfSorted<T>(s: seq<T>, key: T -> real)
    requires Sorted(s, key)
    ensures StableSort(s, key) == s
  {
    if s != [] {
      SortOfSorted(s[1..], key);
    }
  }

  // ----- the sort that promises less

  /** Some sorted arrangement of the same elements; which one, among ties, is not promised. */
  method SortUnstably<T>(s: seq<T>, key: T -> real) returns (r: seq<T>)
    ensures multiset(r) == multiset(s) && |r| == |s|
    ensures Sorted(r, key)
  {
    r := StableSort(s, key);
    SortSorted(s, key);
    SortPermutes(s, key);
  }
}
