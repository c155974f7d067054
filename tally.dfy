/** Sums of a per-card weight over a sequence of cards. Hand totals, ace counts
    and Hi-Lo counts are all sums of this shape. */
module Tally {

  /** f(s[0]) + ... + f(s[|s|-1]), peeling the last element so that appending a
      card adds its weight. */
  function SumOf<T>(s: seq<T>, f: T -> int): int
  {
    if s == [] then 0 else SumOf(s[..|s| - 1], f) + f(s[|s| - 1])
  }

  /** The sum over a concatenation is the sum of the two sums. */
  lemma {:induction false} SumOfConcat<T>(a: seq<T>, b: seq<T>, f: T -> int)
    ensures SumOf(a + b, f) == SumOf(a, f) + SumOf(b, f)
  {
    if b != [] {
      assert (a + b)[..|a + b| - 1] == a + b[..|b| - 1];
      SumOfConcat(a, b[..|b| - 1], f);
    } else {
      assert a + b == a;
    }
  }

  /** Appending one element adds its weight. */
  lemma SumOfAppend<T>(a: seq<T>, x: T, f: T -> int)
    ensures SumOf(a + [x], f) == SumOf(a, f) + f(x)
  {
    assert (a + [x])[..|a + [x]| - 1] == a;
  }

  /** Elements of equal weight sum to that weight times their number. */
  lemma {:induction false} SumOfUniform<T>(s: seq<T>, f: T -> int, w: int)
    requires forall i :: 0 <= i < |s| ==> f(s[i]) == w
    ensures SumOf(s, f) == w * |s|
  {
    if s != [] {
      SumOfUniform(s[..|s| - 1], f, w);
    }
  }

  /** A sum does not depend on the order of the elements. */
  lemma {:induction false} SumOfPermutation<T>(a: seq<T>, b: seq<T>, f: T -> int)
    requires multiset(a) == multiset(b)
    ensures SumOf(a, f) == SumOf(b, f)
  {
    if a == [] {
      assert |b| == |multiset(b)| == 0;
    } else {
      var n := |a| - 1;
      var x := a[n];
      assert a == a[..n] + [x];
      assert x in multiset(b);
      var i :| 0 <= i < |b| && b[i] == x;
      var rest := b[..i] + b[i + 1..];
      assert b == b[..i] + [x] + b[i + 1..];
      assert multiset(b) == multiset(b[..i]) + multiset{x} + multiset(b[i + 1..]);
      assert multiset(a) == multiset(a[..n]) + multiset{x};
      assert multiset(rest) == multiset(b[..i]) + multiset(b[i + 1..]);
      assert forall y :: multiset(a[..n])[y] == multiset(rest)[y] by {
        forall y ensures multiset(a[..n])[y] == multiset(rest)[y] {
          assert (multiset(a[..n]) + multiset{x})[y] == (multiset(rest) + multiset{x})[y];
        }
      }
      SumOfPermutation(a[..n], rest, f);
      SumOfConcat(b[..i] + [x], b[i + 1..], f);
      SumOfAppend(b[..i], x, f);
      SumOfConcat(b[..i], b[i + 1..], f);
      SumOfAppend(a[..n], x, f);
    }
  }
}
