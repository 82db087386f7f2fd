/** Real-number helpers shared by the weight, colour and chart code: the
    left fold `reduce(0, +)`, absolute value, and Swift's `Int(_:)` truncation. */
module Numeric {

  function Abs(x: real): (r: real)
    ensures 0.0 <= r
    ensures r == x || r == -x
  {
    if x < 0.0 then -x else x
  }

  lemma MulNonNegative(a: real, b: real)
    requires 0.0 <= a && 0.0 <= b
    ensures 0.0 <= a * b
  {
  }

  lemma MulPositive(a: real, b: real)
    requires 0.0 < a && 0.0 < b
    ensures 0.0 < a * b
  {
  }

  lemma SumOfSquares(a: real, b: real)
    ensures 0.0 <= a * a + b * b
  {
  }

  /** On non-negative reals, squaring preserves and reflects `<`. */
  lemma SquareMonotone(a: real, b: real)
    requires 0.0 <= a && 0.0 <= b
    ensures a < b <==> a * a < b * b
  {
    if a < b {
      MulNonNegative(a, b - a);
      assert a * (b - a) == a * b - a * a;
      MulPositive(b, b - a);
      assert b * (b - a) == b * b - a * b;
    } else {
      MulNonNegative(b, a - b);
      assert b * (a - b) == a * b - b * b;
      MulNonNegative(a, a - b);
      assert a * (a - b) == a * a - a * b;
    }
  }

  /** Non-negative square roots are unique. */
  lemma RootUnique(a: real, b: real)
    requires 0.0 <= a && 0.0 <= b
    requires a * a == b * b
    ensures a == b
  {
    SquareMonotone(a, b);
    SquareMonotone(b, a);
  }

  /** A product of two factors in [0, 1] lies in [0, the second factor]. */
  lemma ProductInUnit(a: real, b: real)
    requires 0.0 <= a <= 1.0 && 0.0 <= b
    ensures 0.0 <= a * b <= b
  {
    MulNonNegative(a, b);
    MulNonNegative(1.0 - a, b);
    assert (1.0 - a) * b == b - a * b;
  }

  /** A part divided by a positive whole it does not exceed is a fraction
      in [0, 1]. */
  lemma FractionInUnit(a: real, t: real)
    requires 0.0 <= a <= t && 0.0 < t
    ensures 0.0 <= a / t <= 1.0
  {
  }

  /** `s.reduce(0, +)`: the elements added from the first to the last. */
  function Sum(s: seq<real>): real
  {
    if |s| == 0 then 0.0 else Sum(s[..|s| - 1]) + s[|s| - 1]
  }

  ghost predicate AllNonNegative(s: seq<real>) {
    forall i :: 0 <= i < |s| ==> 0.0 <= s[i]
  }

  /** Every element of `s` divided by `t`. */
  function DivideAll(s: seq<real>, t: real): (r: seq<real>)
    requires t != 0.0
    ensures |r| == |s|
  {
    seq(|s|, i requires 0 <= i < |s| => s[i] / t)
  }

  lemma {:induction false} SumNonNegative(s: seq<real>)
    requires AllNonNegative(s)
    ensures 0.0 <= Sum(s)
  {
    if |s| > 0 {
      SumNonNegative(s[..|s| - 1]);
    }
  }

  /** A non-negative sequence sums to at least each of its elements. */
  lemma {:induction false} ElementAtMostSum(s: seq<real>, k: nat)
    requires AllNonNegative(s)
    requires k < |s|
    ensures s[k] <= Sum(s)
  {
    var n := |s| - 1;
    if k == n {
      SumNonNegative(s[..n]);
    } else {
      ElementAtMostSum(s[..n], k);
    }
  }

  /** A non-negative sequence sums to zero only when every element is zero. */
  lemma {:induction false} ZeroSumMeansAllZero(s: seq<real>)
    requires AllNonNegative(s)
    requires Sum(s) <= 0.0
    ensures forall i :: 0 <= i < |s| ==> s[i] == 0.0
  {
    forall i | 0 <= i < |s|
      ensures s[i] == 0.0
    {
      ElementAtMostSum(s, i);
    }
  }

  /** Dividing every element by `t` divides the sum by `t`. */
  lemma {:induction false} SumDivideAll(s: seq<real>, t: real)
    requires t != 0.0
    ensures Sum(DivideAll(s, t)) == Sum(s) / t
  {
    if |s| > 0 {
      var n := |s| - 1;
      assert DivideAll(s, t)[..n] == DivideAll(s[..n], t);
      SumDivideAll(s[..n], t);
      assert Sum(DivideAll(s, t)) == Sum(s[..n]) / t + s[n] / t;
      assert Sum(s[..n]) / t + s[n] / t == (Sum(s[..n]) + s[n]) / t;
    }
  }

  /** A sequence whose every element is `c` sums to `|s| * c`. */
  lemma {:induction false} SumConstant(s: seq<real>, c: real)
    requires forall i :: 0 <= i < |s| ==> s[i] == c
    ensures Sum(s) == |s| as real * c
  {
    if |s| > 0 {
      SumConstant(s[..|s| - 1], c);
    }
  }

  /** Swift's `Int(x)`: truncation toward zero. */
  function Truncate(x: real): (n: int)
    ensures 0.0 <= x ==> 0 <= n && n as real <= x < n as real + 1.0
    ensures x < 0.0 ==> n <= 0 && n as real - 1.0 < x <= n as real
  {
    if 0.0 <= x then x.Floor else -((-x).Floor)
  }

  /** A whole percentage `Int(w * 100)` of a share in [0, 1] is in 0...100. */
  function Percent(w: real): (p: int)
    ensures 0.0 <= w <= 1.0 ==> 0 <= p <= 100
    ensures 0.0 <= w ==> p as real <= w * 100.0 < p as real + 1.0
  {
    Truncate(w * 100.0)
  }
}
