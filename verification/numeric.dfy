/**
 * Real-valued stand-ins for the numpy primitives the statistics use:
 * integer powers, sums, the fractional power `x ** (1. / k)`, and the
 * float values (a real number or NaN) that the statistics return.
 */
module Numeric {

  /** `x ** n` for a non-negative integer exponent. */
  function Pow(x: real, n: nat): (r: real)
  {
    if n == 0 then 1.0 else x * Pow(x, n - 1)
  }

  /** The sum of a list, `np.sum` / Python's `sum`. */
  function Sum(s: seq<real>): (r: real)
  {
    if |s| == 0 then 0.0 else s[0] + Sum(s[1..])
  }

  /** Every element of `s` multiplied by `c`. */
  function Scale(s: seq<real>, c: real): (r: seq<real>)
    ensures |r| == |s|
  {
    seq(|s|, i requires 0 <= i < |s| => s[i] * c)
  }

  /** Every element of `s` divided by `d`, numpy's `np.array(s) / d`. */
  function DivideEach(s: seq<real>, d: real): (r: seq<real>)
    requires d != 0.0
    ensures |r| == |s|
  {
    seq(|s|, i requires 0 <= i < |s| => s[i] / d)
  }

  /** A float the statistics return: a real number, or the NaN that numpy
      produces for a fractional power of a negative number. */
  datatype Float = Finite(value: real) | NaN

  /** `f ** n` for a non-negative integer exponent; NaN stays NaN. */
  function Power(f: Float, n: nat): (r: Float)
    ensures r.NaN? <==> f.NaN?
  {
    match f
    case NaN => NaN
    case Finite(x) => Finite(Pow(x, n))
  }

  /** `a / b` for a divisor that is not zero; NaN on either side gives NaN. */
  function Divide(a: Float, b: Float): (r: Float)
    requires b != Finite(0.0)
    ensures r.NaN? <==> a.NaN? || b.NaN?
    ensures r.Finite? ==> r.value * b.value == a.value
  {
    if a.NaN? || b.NaN? then NaN else Finite(a.value / b.value)
  }

  /** `y` is a non-negative k-th root of `x`. */
  ghost predicate IsRoot(y: real, x: real, k: nat)
  {
    0.0 <= y && Pow(y, k) == x
  }

  /**
   * `x ** (1. / k)` for an order k >= 1. The power 1.0 is exact. For k > 1
   * the result is the non-negative k-th root of x where one exists, and NaN
   * where none does (numpy's result for a negative base). Real k-th roots of
   * non-negative numbers exist, but the completeness of the reals is beyond
   * what can be proved here, so existence is stated as a condition.
   */
  ghost function Root(x: real, k: nat): (r: Float)
    requires k >= 1
    ensures k == 1 ==> r == Finite(x)
    ensures k > 1 && r.Finite? ==> IsRoot(r.value, x, k)
    ensures k > 1 && r.NaN? ==> forall y :: !IsRoot(y, x, k)
  {
    if k == 1 then Finite(x)
    else if exists y :: IsRoot(y, x, k) then
      var y :| IsRoot(y, x, k); Finite(y)
    else NaN
  }

  lemma {:induction false} PowNonNegative(x: real, n: nat)
    requires 0.0 <= x
    ensures 0.0 <= Pow(x, n)
  {
    if n > 0 {
      PowNonNegative(x, n - 1);
    }
  }

  lemma {:induction false} PowNonZero(x: real, n: nat)
    requires x != 0.0
    ensures Pow(x, n) != 0.0
  {
    if n > 0 {
      PowNonZero(x, n - 1);
    }
  }

  /** Even powers are never negative. */
  lemma {:induction false} PowEvenNonNegative(x: real, n: nat)
    requires n % 2 == 0
    ensures 0.0 <= Pow(x, n)
  {
    if n > 0 {
      PowEvenNonNegative(x, n - 2);
      assert Pow(x, n) == x * (x * Pow(x, n - 2));
      assert 0.0 <= x * x by {
        if x < 0.0 { assert x * x == (-x) * (-x); }
      }
      assert Pow(x, n) == (x * x) * Pow(x, n - 2);
    }
  }

  /** Powers split over a sum of exponents. */
  lemma {:induction false} PowAdd(x: real, m: nat, n: nat)
    ensures Pow(x, m + n) == Pow(x, m) * Pow(x, n)
  {
    if m > 0 {
      PowAdd(x, m - 1, n);
      assert Pow(x, m + n) == x * Pow(x, m - 1 + n);
    }
  }

  /** On the non-negative reals, x |-> x^n is strictly increasing for n >= 1. */
  lemma {:induction false} PowStrictlyIncreasing(a: real, b: real, n: nat)
    requires 0.0 <= a < b && n >= 1
    ensures Pow(a, n) < Pow(b, n)
  {
    var pa, pb := Pow(a, n - 1), Pow(b, n - 1);
    assert Pow(a, n) == a * pa && Pow(b, n) == b * pb;
    if n > 1 {
      PowStrictlyIncreasing(a, b, n - 1);
      PowNonNegative(a, n - 1);
      MulMonotone(a, b, pa);
      MulStrictlyMonotone(b, pa, pb);
    } else {
      assert pa == 1.0 && pb == 1.0;
    }
  }

  lemma MulMonotone(a: real, b: real, c: real)
    requires a <= b && 0.0 <= c
    ensures a * c <= b * c
  {
    assert b * c - a * c == (b - a) * c;
  }

  lemma MulStrictlyMonotone(c: real, a: real, b: real)
    requires 0.0 < c && a < b
    ensures c * a < c * b
  {
    assert c * b - c * a == c * (b - a);
  }

  /** Non-negative k-th roots are unique. */
  lemma PowInjective(a: real, b: real, n: nat)
    requires 0.0 <= a && 0.0 <= b && n >= 1
    requires Pow(a, n) == Pow(b, n)
    ensures a == b
  {
    if a < b {
      PowStrictlyIncreasing(a, b, n);
    } else if b < a {
      PowStrictlyIncreasing(b, a, n);
    }
  }

  /** The root undoes the power: the k-th root of y^k is y, for y >= 0. */
  lemma RootOfPow(y: real, k: nat)
    requires 0.0 <= y && k >= 1
    ensures Root(Pow(y, k), k) == Finite(y)
  {
    if k > 1 {
      assert IsRoot(y, Pow(y, k), k);
      var r := Root(Pow(y, k), k);
      PowInjective(r.value, y, k);
    } else {
      assert Pow(y, 1) == y;
    }
  }

  /** A fractional power of a negative number is NaN; only order 1 keeps it. */
  lemma RootOfNegative(x: real, k: nat)
    requires x < 0.0 && k > 1
    ensures Root(x, k) == NaN
  {
    forall y | 0.0 <= y
      ensures Pow(y, k) != x
    {
      PowNonNegative(y, k);
    }
  }

  lemma {:induction false} SumNonNegative(s: seq<real>)
    requires forall i :: 0 <= i < |s| ==> 0.0 <= s[i]
    ensures 0.0 <= Sum(s)
  {
    if |s| > 0 {
      SumNonNegative(s[1..]);
    }
  }

  /** Scaling every element scales the sum. */
  lemma {:induction false} SumScale(s: seq<real>, c: real)
    ensures Sum(Scale(s, c)) == Sum(s) * c
  {
    if |s| > 0 {
      forall i | 0 <= i < |s| - 1
        ensures Scale(s, c)[1..][i] == Scale(s[1..], c)[i]
      {
        assert Scale(s, c)[i + 1] == s[i + 1] * c;
      }
      assert Scale(s, c)[1..] == Scale(s[1..], c);
      SumScale(s[1..], c);
    }
  }

  /** Dividing every element divides the sum. */
  lemma {:induction false} SumDivideEach(s: seq<real>, d: real)
    requires d != 0.0
    ensures Sum(DivideEach(s, d)) == Sum(s) / d
  {
    if |s| > 0 {
      assert DivideEach(s, d)[1..] == DivideEach(s[1..], d);
      SumDivideEach(s[1..], d);
    }
  }
}
