/**
 * Left-to-right sums of a real-valued measure over a sequence: the shape of every
 * accumulator loop in the trade routes and the portfolio chart.
 */
module Sums {

  /** The sum of `f` over `s`, accumulated from the first element to the last. */
  function Sum<T>(s: seq<T>, f: T -> real): real
  {
    if s == [] then 0.0 else Sum(s[..|s| - 1], f) + f(s[|s| - 1])
  }

  /** Summing over a concatenation is summing over each part. */
  lemma {:induction false} SumAppend<T>(a: seq<T>, b: seq<T>, f: T -> real)
    ensures Sum(a + b, f) == Sum(a, f) + Sum(b, f)
  {
    if b != [] {
      assert (a + b)[..|a + b| - 1] == a + b[..|b| - 1];
      SumAppend(a, b[..|b| - 1], f);
    } else {
      assert a + b == a;
    }
  }

  /** Removing the element at index `j` removes exactly its measure from the sum. */
  lemma {:induction false} SumRemove<T>(s: seq<T>, j: nat, f: T -> real)
    requires j < |s|
    ensures Sum(s, f) == Sum(s[..j] + s[j + 1..], f) + f(s[j])
  {
    var before, x, after := s[..j], s[j], s[j + 1..];
    assert s == (before + [x]) + after;
    SumAppend(before + [x], after, f);
    assert (before + [x])[..|before|] == before;
    SumAppend(before, after, f);
  }

  /** The sum does not depend on the order of the elements. */
  lemma {:induction false} SumPermutation<T>(a: seq<T>, b: seq<T>, f: T -> real)
    requires multiset(a) == multiset(b)
    ensures Sum(a, f) == Sum(b, f)
    decreases |a|
  {
    if a == [] {
      assert |b| == |multiset(b)| == 0;
    } else {
      var n := |a| - 1;
      var x := a[n];
      assert a == a[..n] + [x];
      assert x in multiset(b);
      var j :| 0 <= j < |b| && b[j] == x;
      var rest := b[..j] + b[j + 1..];
      assert b == b[..j] + [x] + b[j + 1..];
      assert multiset(a[..n]) == multiset(rest) by {
        calc {
          multiset(a[..n]);
          multiset(a) - multiset{x};
          multiset(b) - multiset{x};
          multiset(rest);
        }
      }
      SumPermutation(a[..n], rest, f);
      SumRemove(b, j, f);
    }
  }

  /** Sums are linear: a measure that is the difference of two others sums to the difference. */
  lemma {:induction false} SumDifference<T>(s: seq<T>, f: T -> real, g: T -> real, h: T -> real)
    requires forall x :: h(x) == f(x) - g(x)
    ensures Sum(s, h) == Sum(s, f) - Sum(s, g)
  {
    if s != [] {
      SumDifference(s[..|s| - 1], f, g, h);
    }
  }

  /** A measure that is zero on every element sums to zero. */
  lemma {:induction false} SumZero<T>(s: seq<T>, f: T -> real)
    requires forall i :: 0 <= i < |s| ==> f(s[i]) == 0.0
    ensures Sum(s, f) == 0.0
  {
    if s != [] {
      SumZero(s[..|s| - 1], f);
    }
  }
}
