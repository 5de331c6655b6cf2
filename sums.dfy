/** The `reduce((sum, it) => sum + f(it), 0)` reductions the pages and the store use. */
module Sums {
  import opened SeqFacts

  /** Left fold of `+` over `f` applied to each element, starting from 0. */
  function SumOf<T>(s: seq<T>, f: T -> int): int {
    if |s| == 0 then 0 else SumOf(s[..|s| - 1], f) + f(s[|s| - 1])
  }

  /** The sum over a concatenation is the sum of the sums. */
  lemma {:induction false} SumOfAppend<T>(a: seq<T>, b: seq<T>, f: T -> int)
    ensures SumOf(a + b, f) == SumOf(a, f) + SumOf(b, f)
  {
    if |b| == 0 {
      AppendEmpty(b, a);
    } else {
      AppendBack(a, b);
      SumOfAppend(a, b[..|b| - 1], f);
    }
  }

  /** Summing a one-element sequence gives that element's term. */
  lemma SumOfSingleton<T>(x: T, f: T -> int)
    ensures SumOf([x], f) == f(x)
  {
    assert [x][..0] == [];
  }

  /** Replacing one element changes the sum by the difference of the two terms. */
  lemma SumOfUpdate<T>(s: seq<T>, i: nat, x: T, f: T -> int)
    requires i < |s|
    ensures SumOf(s[i := x], f) == SumOf(s, f) - f(s[i]) + f(x)
  {
    SplitAt(s, i);
    SplitAt(s[i := x], i);
    assert s[i := x][..i] == s[..i] && s[i := x][i + 1..] == s[i + 1..];
    SumOfMiddle(s[..i], s[i], s[i + 1..], f);
    SumOfMiddle(s[..i], x, s[i + 1..], f);
  }

  /** When every term is non-negative, so is the sum. */
  lemma {:induction false} SumOfNonNegative<T>(s: seq<T>, f: T -> int)
    requires forall i :: 0 <= i < |s| ==> f(s[i]) >= 0
    ensures SumOf(s, f) >= 0
  {
    if |s| > 0 {
      SumOfNonNegative(s[..|s| - 1], f);
    }
  }

  /** Appending one element adds its term. */
  lemma SumOfSnoc<T>(a: seq<T>, x: T, f: T -> int)
    ensures SumOf(a + [x], f) == SumOf(a, f) + f(x)
  {
    assert (a + [x])[..|a|] == a;
  }

  /** An element between two parts adds its term to theirs. */
  lemma {:induction false} SumOfMiddle<T>(a: seq<T>, x: T, b: seq<T>, f: T -> int)
    ensures SumOf(a + [x] + b, f) == SumOf(a + b, f) + f(x)
  {
    SumOfAppend(a + [x], b, f);
    SumOfSnoc(a, x, f);
    SumOfAppend(a, b, f);
  }

  /** Dropping one element takes its term out of the sum. */
  lemma SumOfRemove<T>(s: seq<T>, i: nat, f: T -> int)
    requires i < |s|
    ensures SumOf(s[..i] + s[i + 1..], f) == SumOf(s, f) - f(s[i])
  {
    SplitAt(s, i);
    SumOfMiddle(s[..i], s[i], s[i + 1..], f);
  }
}
