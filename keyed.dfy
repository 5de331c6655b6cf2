/** Sequences whose elements carry a string id, as the store's `cart` and `wishlist`
    and the filter's category list do. The functions are generic in how the id is read. */
module Keyed {
  import opened SeqFacts

  type Id = string

  /** Some element has id `k` (the source's `some(it => it.id === k)` and a truthy `find`). */
  predicate Has<T>(s: seq<T>, idOf: T -> Id, k: Id) {
    exists i :: 0 <= i < |s| && idOf(s[i]) == k
  }

  /** No two elements share an id. */
  predicate DistinctIds<T>(s: seq<T>, idOf: T -> Id) {
    forall i, j :: 0 <= i < j < |s| ==> idOf(s[i]) != idOf(s[j])
  }

  /** `findIndex(it => it.id === k)`: the first position with id `k`, or -1. */
  function IndexOf<T>(s: seq<T>, idOf: T -> Id, k: Id): (r: int)
    ensures -1 <= r < |s|
    ensures r == -1 <==> !Has(s, idOf, k)
    ensures r >= 0 ==> idOf(s[r]) == k && forall j :: 0 <= j < r ==> idOf(s[j]) != k
  {
    if |s| == 0 then -1
    else if idOf(s[0]) == k then 0
    else
      var r := IndexOf(s[1..], idOf, k);
      assert forall j :: 1 <= j < |s| ==> s[j] == s[1..][j - 1];
      if r == -1 then -1 else r + 1
  }

  /** `filter(it => it.id !== k)`: drops every element with id `k`. */
  function Without<T(==,!new)>(s: seq<T>, idOf: T -> Id, k: Id): (r: seq<T>)
    ensures |r| <= |s|
    ensures forall x :: x in r <==> x in s && idOf(x) != k
    ensures !Has(r, idOf, k)
    ensures !Has(s, idOf, k) ==> r == s
  {
    if |s| == 0 then []
    else
      var rest := Without(s[1..], idOf, k);
      assert forall x :: x in s <==> x == s[0] || x in s[1..];
      assert !Has(s, idOf, k) ==> !Has(s[1..], idOf, k) by {
        if Has(s[1..], idOf, k) {
          var i :| 0 <= i < |s[1..]| && idOf(s[1..][i]) == k;
          assert idOf(s[i + 1]) == k;
        }
      }
      if idOf(s[0]) == k then rest
      else
        assert forall i :: 1 <= i < |[s[0]] + rest| ==> ([s[0]] + rest)[i] == rest[i - 1];
        [s[0]] + rest
  }

  /** Filtering distributes over concatenation: the kept elements stay in their order. */
  lemma {:induction false} WithoutAppend<T(!new)>(a: seq<T>, b: seq<T>, idOf: T -> Id, k: Id)
    ensures Without(a + b, idOf, k) == Without(a, idOf, k) + Without(b, idOf, k)
  {
    if |a| == 0 {
      AppendEmpty(a, b);
    } else {
      AppendFront(a, b);
      WithoutAppend(a[1..], b, idOf, k);
      if idOf(a[0]) != k {
        AppendAssociative([a[0]], Without(a[1..], idOf, k), Without(b, idOf, k));
      }
    }
  }

  /** When position `i` is the only one with id `k`, filtering drops exactly that element. */
  lemma WithoutOnlyAt<T(!new)>(s: seq<T>, idOf: T -> Id, k: Id, i: nat)
    requires i < |s| && idOf(s[i]) == k
    requires forall j :: 0 <= j < |s| && j != i ==> idOf(s[j]) != k
    ensures Without(s, idOf, k) == s[..i] + s[i + 1..]
  {
    var before, x, after := s[..i], s[i], s[i + 1..];
    assert !Has(before, idOf, k) by {
      forall j | 0 <= j < |before| ensures idOf(before[j]) != k {
        assert before[j] == s[j];
      }
    }
    assert !Has(after, idOf, k) by {
      forall j | 0 <= j < |after| ensures idOf(after[j]) != k {
        assert after[j] == s[i + 1 + j];
      }
    }
    SplitAt(s, i);
    WithoutAppend(before + [x], after, idOf, k);
    WithoutAppend(before, [x], idOf, k);
    assert Without([x], idOf, k) == [];
  }

  /** Filtering a sequence with distinct ids keeps its ids distinct. */
  lemma {:induction false} WithoutKeepsDistinct<T(!new)>(s: seq<T>, idOf: T -> Id, k: Id)
    requires DistinctIds(s, idOf)
    ensures DistinctIds(Without(s, idOf, k), idOf)
  {
    if |s| > 0 {
      WithoutKeepsDistinct(s[1..], idOf, k);
      var rest := Without(s[1..], idOf, k);
      forall x | x in rest ensures idOf(x) != idOf(s[0]) {
        var j :| 0 <= j < |s[1..]| && s[1..][j] == x;
        assert s[j + 1] == x;
      }
    }
  }

  /** Appending an element whose id is new keeps the ids distinct. */
  lemma AppendNewKeepsDistinct<T>(s: seq<T>, x: T, idOf: T -> Id)
    requires DistinctIds(s, idOf) && !Has(s, idOf, idOf(x))
    ensures DistinctIds(s + [x], idOf)
  {
    forall i, j | 0 <= i < j < |s + [x]| ensures idOf((s + [x])[i]) != idOf((s + [x])[j]) {
      if j == |s| {
        assert (s + [x])[i] == s[i];
      }
    }
  }
}
