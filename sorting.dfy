/** `Array.prototype.sort` with a comparator of the form `(a, b) => key(a) - key(b)`,
    which every sort in the storefront uses. The sort is stable, so its result is fully
    determined: it is `StableSort`, the insertion sort that places each element after the
    earlier ones with an equal key. */
module Sorting {
  import opened SeqFacts

  predicate SortedBy<T>(s: seq<T>, key: T -> int) {
    forall i, j :: 0 <= i < j < |s| ==> key(s[i]) <= key(s[j])
  }

  /** Puts `x` in front of the first element whose key is greater than `x`'s. */
  function Insert<T>(x: T, s: seq<T>, key: T -> int): seq<T> {
    if |s| == 0 then [x]
    else if key(x) < key(s[0]) then [x] + s
    else [s[0]] + Insert(x, s[1..], key)
  }

  /** Inserts the elements one by one, in their original order. */
  function StableSort<T>(s: seq<T>, key: T -> int): seq<T> {
    if |s| == 0 then [] else Insert(s[|s| - 1], StableSort(s[..|s| - 1], key), key)
  }

  /** The elements whose key is `v`, in their order. */
  function WithKey<T>(s: seq<T>, key: T -> int, v: int): seq<T> {
    if |s| == 0 then []
    else (if key(s[0]) == v then [s[0]] else []) + WithKey(s[1..], key, v)
  }

  lemma {:induction false} InsertSorted<T>(x: T, s: seq<T>, key: T -> int)
    requires SortedBy(s, key)
    ensures SortedBy(Insert(x, s, key), key)
    ensures multiset(Insert(x, s, key)) == multiset(s) + multiset{x}
    ensures |Insert(x, s, key)| == |s| + 1
  {
    if |s| > 0 && key(x) < key(s[0]) {
      SortedTail(s, key);
      SortedCons(x, s, key);
    } else if |s| > 0 {
      var tail := s[1..];
      SortedTail(s, key);
      InsertSorted(x, tail, key);
      InsertAbove(x, tail, key, key(s[0]));
      SortedCons(s[0], Insert(x, tail, key), key);
      SplitFirst(s);
    }
  }

  /** The tail of a sorted sequence is sorted, and its first element bounds the rest. */
  lemma SortedTail<T>(s: seq<T>, key: T -> int)
    requires SortedBy(s, key) && |s| > 0
    ensures SortedBy(s[1..], key)
    ensures forall m :: 0 <= m < |s| ==> key(s[0]) <= key(s[m])
    ensures forall m :: 0 <= m < |s[1..]| ==> key(s[0]) <= key(s[1..][m])
  {
    var tail := s[1..];
    assert forall m :: 0 <= m < |tail| ==> tail[m] == s[m + 1];
  }

  /** Putting an element no greater than any other in front keeps a sequence sorted. */
  lemma SortedCons<T>(h: T, t: seq<T>, key: T -> int)
    requires SortedBy(t, key) && forall m :: 0 <= m < |t| ==> key(h) <= key(t[m])
    ensures SortedBy([h] + t, key)
  {
    var r := [h] + t;
    forall i, j | 0 <= i < j < |r| ensures key(r[i]) <= key(r[j]) {
      assert r[j] == t[j - 1];
      if i > 0 {
        assert r[i] == t[i - 1];
      }
    }
  }

  /** A lower bound of `x` and of every element of `s` bounds every element of the result. */
  lemma {:induction false} InsertAbove<T>(x: T, s: seq<T>, key: T -> int, lo: int)
    requires lo <= key(x) && forall m :: 0 <= m < |s| ==> lo <= key(s[m])
    ensures forall m :: 0 <= m < |Insert(x, s, key)| ==> lo <= key(Insert(x, s, key)[m])
  {
    if |s| > 0 && key(x) >= key(s[0]) {
      var tail := s[1..];
      assert forall m :: 0 <= m < |tail| ==> tail[m] == s[m + 1];
      InsertAbove(x, tail, key, lo);
    }
  }

  /** The functional sort yields a sorted permutation of its input. */
  lemma {:induction false} StableSortSorted<T>(s: seq<T>, key: T -> int)
    ensures SortedBy(StableSort(s, key), key)
    ensures multiset(StableSort(s, key)) == multiset(s)
    ensures |StableSort(s, key)| == |s|
  {
    if |s| > 0 {
      StableSortSorted(s[..|s| - 1], key);
      InsertSorted(s[|s| - 1], StableSort(s[..|s| - 1], key), key);
      SplitLast(s);
    }
  }

  lemma {:induction false} WithKeyAppend<T>(a: seq<T>, b: seq<T>, key: T -> int, v: int)
    ensures WithKey(a + b, key, v) == WithKey(a, key, v) + WithKey(b, key, v)
  {
    if |a| == 0 {
      AppendEmpty(a, b);
    } else {
      var head := if key(a[0]) == v then [a[0]] else [];
      AppendFront(a, b);
      calc {
        WithKey(a + b, key, v);
        head + WithKey(a[1..] + b, key, v);
        { WithKeyAppend(a[1..], b, key, v); }
        head + (WithKey(a[1..], key, v) + WithKey(b, key, v));
        { AppendAssociative(head, WithKey(a[1..], key, v), WithKey(b, key, v)); }
        WithKey(a, key, v) + WithKey(b, key, v);
      }
    }
  }

  lemma {:induction false} WithKeyAboveIsEmpty<T>(s: seq<T>, key: T -> int, v: int)
    requires forall k :: 0 <= k < |s| ==> key(s[k]) > v
    ensures WithKey(s, key, v) == []
  {
    if |s| > 0 {
      WithKeyAboveIsEmpty(s[1..], key, v);
    }
  }

  lemma {:induction false} InsertWithKey<T>(x: T, s: seq<T>, key: T -> int, v: int)
    requires SortedBy(s, key)
    ensures WithKey(Insert(x, s, key), key, v)
         == WithKey(s, key, v) + (if key(x) == v then [x] else [])
  {
    if |s| == 0 {
      assert WithKey([x], key, v) == (if key(x) == v then [x] else []) + WithKey([], key, v);
    } else if key(x) < key(s[0]) {
      WithKeyAppend([x], s, key, v);
      assert WithKey([x], key, v) == (if key(x) == v then [x] else []) + WithKey([], key, v);
      if key(x) == v {
        WithKeyAboveIsEmpty(s, key, v);
      }
    } else {
      InsertWithKey(x, s[1..], key, v);
      assert ([s[0]] + Insert(x, s[1..], key))[1..] == Insert(x, s[1..], key);
    }
  }

  /** Stability: for every key, the elements with that key keep their relative order. */
  lemma {:induction false} StableSortIsStable<T>(s: seq<T>, key: T -> int, v: int)
    ensures WithKey(StableSort(s, key), key, v) == WithKey(s, key, v)
  {
    if |s| > 0 {
      var init, last := s[..|s| - 1], s[|s| - 1];
      StableSortIsStable(init, key, v);
      StableSortSorted(init, key);
      InsertWithKey(last, StableSort(init, key), key, v);
      SplitLast(s);
      WithKeyAppend(init, [last], key, v);
      assert WithKey([last], key, v) == (if key(last) == v then [last] else []) + WithKey([], key, v);
    }
  }

  /** Where `Insert` puts `x` in a sorted sequence: after the first `j` elements exactly when
      those are not greater than `x` and the rest are. */
  lemma {:induction false} InsertAt<T>(x: T, s: seq<T>, key: T -> int, j: nat)
    requires j <= |s|
    requires forall m :: 0 <= m < j ==> key(s[m]) <= key(x)
    requires forall m :: j <= m < |s| ==> key(s[m]) > key(x)
    ensures Insert(x, s, key) == s[..j] + [x] + s[j..]
  {
    if j > 0 {
      InsertAt(x, s[1..], key, j - 1);
      assert s[1..][..j - 1] == s[1..j];
      assert s[..j] == [s[0]] + s[1..j];
    }
  }

  /** One step of insertion sort: moves `a[i]` left past the greater elements of the
      sorted prefix `a[..i]`. */
  method InsertInPlace<T>(a: array<T>, i: nat, key: T -> int)
    requires i < a.Length
    requires SortedBy(a[..i], key)
    modifies a
    ensures a[..i + 1] == Insert(old(a[i]), old(a[..i]), key)
    ensures a[i + 1..] == old(a[i + 1..])
  {
    ghost var done := a[..i];
    var x := a[i];
    var j := i;
    while j > 0 && key(a[j - 1]) > key(x)
      invariant 0 <= j <= i
      invariant forall m :: 0 <= m < j ==> a[m] == done[m]
      invariant forall m :: j < m <= i ==> a[m] == done[m - 1]
      invariant forall m :: j <= m < i ==> key(done[m]) > key(x)
      invariant forall m :: i < m < a.Length ==> a[m] == old(a[m])
    {
      a[j] := a[j - 1];
      j := j - 1;
    }
    a[j] := x;
    ghost var r := a[..i + 1];
    assert forall m :: 0 <= m < j ==> r[m] == done[m];
    assert forall m :: j < m < |r| ==> r[m] == done[m - 1];
    ShiftedIsInserted(r, done, x, j);
    forall m | 0 <= m < j ensures key(done[m]) <= key(x) {
      assert key(done[m]) <= key(done[j - 1]);
    }
    InsertAt(x, done, key, j);
  }

  /** The prefix the insertion step leaves: `done` up to `j`, then `x`, then the rest of
      `done` one place to the right. */
  lemma ShiftedIsInserted<T>(r: seq<T>, done: seq<T>, x: T, j: nat)
    requires j <= |done| && |r| == |done| + 1
    requires forall m :: 0 <= m < j ==> r[m] == done[m]
    requires r[j] == x
    requires forall m :: j < m < |r| ==> r[m] == done[m - 1]
    ensures r == done[..j] + [x] + done[j..]
  {
  }

  /** Insertion sort in place: after step `i` the prefix `a[..i]` is the stable sort of the
      original prefix. */
  method SortInPlace<T>(a: array<T>, key: T -> int)
    modifies a
    ensures a[..] == StableSort(old(a[..]), key)
  {
    ghost var orig := a[..];
    var i := 0;
    while i < a.Length
      invariant 0 <= i <= a.Length
      invariant a[..i] == StableSort(orig[..i], key)
      invariant a[i..] == orig[i..]
    {
      StableSortSorted(orig[..i], key);
      InsertInPlace(a, i, key);
      assert orig[..i + 1][..i] == orig[..i];
      assert orig[..i + 1][i] == orig[i];
      i := i + 1;
    }
    assert a[..] == a[..a.Length];
    assert orig == orig[..a.Length];
  }
}
