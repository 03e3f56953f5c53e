/**
 * What the statistics of module Stats promise: the weights only matter up
 * to a common factor, order 1 is the weighted mean, the standard deviation
 * with default weights is the root of the population variance, and
 * skewness and kurtosis undo the roots of the moments they are built from.
 */
module StatsProperties {
  import opened Numeric
  import opened Stats

  // ------------------------------------------------- reference definitions

  /** Σ data[i] * w[i] over the pairs that `zip` forms. */
  function Dot(data: seq<real>, w: seq<real>): (r: real)
    decreases |data|
  {
    if |data| == 0 || |w| == 0 then 0.0 else data[0] * w[0] + Dot(data[1..], w[1..])
  }

  /** Σ (x - c)² over the samples. */
  function SumSquares(data: seq<real>, c: real): (r: real)
    ensures 0.0 <= r
  {
    if |data| == 0 then 0.0
    else
      var d := data[0] - c;
      assert 0.0 <= d * d by {
        if d < 0.0 { assert d * d == (-d) * (-d); }
      }
      d * d + SumSquares(data[1..], c)
  }

  /** The population variance: the mean squared deviation from the mean. */
  function Variance(data: seq<real>): (v: real)
    requires |data| > 0
    ensures 0.0 <= v
  {
    SumSquares(data, Sum(data) / (|data| as real)) / (|data| as real)
  }

  // ---------------------------------------------------------------- weights

  /** The probability mass function sums to one. */
  lemma PmfSumsToOne(weights: seq<real>)
    requires Sum(weights) != 0.0
    ensures Sum(Pmf(weights)) == 1.0
  {
    var s := Sum(weights);
    SumDivideEach(weights, s);
    assert s / s == 1.0;
  }

  /** Multiplying every weight by the same non-zero factor leaves the
      probability mass function unchanged. */
  lemma PmfScaleInvariant(weights: seq<real>, a: real)
    requires Sum(weights) != 0.0 && a != 0.0
    ensures Sum(Scale(weights, a)) != 0.0
    ensures Pmf(Scale(weights, a)) == Pmf(weights)
  {
    var s := Sum(weights);
    SumScale(weights, a);
    ScaledQuotient(a, s * a, 1.0, s, a);
    var sa := Sum(Scale(weights, a));
    assert sa == s * a;
    assert Pmf(Scale(weights, a)) == DivideEach(Scale(weights, a), sa);
    assert Pmf(weights) == DivideEach(weights, s);
    forall i | 0 <= i < |weights|
      ensures DivideEach(Scale(weights, a), s * a)[i] == DivideEach(weights, s)[i]
    {
      DivideEachScaledAt(weights, a, s, i);
    }
  }

  lemma DivideEachScaledAt(weights: seq<real>, a: real, s: real, i: nat)
    requires s != 0.0 && a != 0.0 && i < |weights|
    ensures s * a != 0.0
    ensures DivideEach(Scale(weights, a), s * a)[i] == DivideEach(weights, s)[i]
  {
    ScaledQuotient(weights[i] * a, s * a, weights[i], s, a);
  }

  /** y / t == x / s when y and t are x and s multiplied by the same a. */
  lemma ScaledQuotient(y: real, t: real, x: real, s: real, a: real)
    requires s != 0.0 && a != 0.0 && y == x * a && t == s * a
    ensures t != 0.0 && y / t == x / s
  {
    var q := x / s;
    assert q * s == x;
    assert q * t == y;
  }

  /** Every root moment is unchanged when all weights are scaled alike. */
  lemma RootMomentScaleInvariant(data: seq<real>, weights: seq<real>, k: int, a: real)
    requires Sum(weights) != 0.0 && a != 0.0 && k >= 1
    ensures Sum(Scale(weights, a)) != 0.0
    ensures RootMoment(data, Scale(weights, a), k) == RootMoment(data, weights, k)
  {
    PmfScaleInvariant(weights, a);
  }

  /** `moment` is unchanged when all weights are scaled alike, for every
      choice of order and maximum order. */
  lemma MomentScaleInvariant(data: seq<real>, weights: seq<real>, a: real,
                             order: Option<int>, maxOrder: Option<int>)
    requires Sum(weights) != 0.0 && a != 0.0
    requires maxOrder.Some? || order.None? || order.value >= 0
    ensures WellWeighted(data, Some(Scale(weights, a)))
    ensures Moment(data, Some(Scale(weights, a)), order, maxOrder) == Moment(data, Some(weights), order, maxOrder)
  {
    PmfScaleInvariant(weights, a);
    var r1 := Moment(data, Some(Scale(weights, a)), order, maxOrder);
    var r2 := Moment(data, Some(weights), order, maxOrder);
    if maxOrder.Some? {
      forall i | 0 <= i < |r1.stats|
        ensures r1.stats[i] == r2.stats[i]
      {
        RootMomentScaleInvariant(data, weights, i + 1, a);
      }
    } else {
      RootMomentScaleInvariant(data, weights, OrderOr1(order), a);
    }
  }

  // ------------------------------------------------------ order 1: the mean

  lemma {:induction false} ZipSumDivideEach(data: seq<real>, w: seq<real>, c: real, k: nat, d: real)
    requires d != 0.0
    ensures ZipSum(data, DivideEach(w, d), c, k) == ZipSum(data, w, c, k) / d
    decreases |data|
  {
    if |data| > 0 && |w| > 0 {
      assert DivideEach(w, d)[1..] == DivideEach(w[1..], d);
      ZipSumDivideEach(data[1..], w[1..], c, k, d);
    }
  }

  lemma {:induction false} ZipSumOrderOne(data: seq<real>, w: seq<real>)
    ensures ZipSum(data, w, 0.0, 1) == Dot(data, w)
    decreases |data|
  {
    if |data| > 0 && |w| > 0 {
      assert Pow(data[0] - 0.0, 1) == data[0];
      ZipSumOrderOne(data[1..], w[1..]);
    }
  }

  lemma {:induction false} DotOnes(data: seq<real>)
    ensures Dot(data, Ones(|data|)) == Sum(data)
  {
    if |data| > 0 {
      assert Ones(|data|)[1..] == Ones(|data| - 1);
      DotOnes(data[1..]);
    }
  }

  /** `mean` is the weighted mean Σ xᵢwᵢ / Σw, pairing samples and weights
      as `zip` does; the root of order 1 changes nothing. */
  lemma MeanIsWeightedMean(data: seq<real>, weights: Option<seq<real>>)
    requires WellWeighted(data, weights)
    ensures var w := Weights(data, weights);
            Mean(data, weights) == Finite(Dot(data, w) / Sum(w))
  {
    var w := Weights(data, weights);
    ZipSumDivideEach(data, w, 0.0, 1, Sum(w));
    ZipSumOrderOne(data, w);
  }

  /** Without weights, `mean` is the arithmetic mean Σx / n. */
  lemma MeanUnweighted(data: seq<real>)
    requires |data| > 0
    ensures WellWeighted(data, None)
    ensures Mean(data, None) == Finite(Sum(data) / (|data| as real))
  {
    MeanIsWeightedMean(data, None);
    DotOnes(data);
  }

  /** Equal non-zero weights give the arithmetic mean too. */
  lemma MeanUniformWeights(data: seq<real>, a: real)
    requires |data| > 0 && a != 0.0
    ensures WellWeighted(data, Some(Scale(Ones(|data|), a)))
    ensures Mean(data, Some(Scale(Ones(|data|), a))) == Finite(Sum(data) / (|data| as real))
  {
    MomentScaleInvariant(data, Ones(|data|), a, Some(1), None);
    MeanUnweighted(data);
  }

  lemma {:induction false} DotIgnoresUnpaired(data: seq<real>, extra: seq<real>, w: seq<real>)
    requires |w| <= |data|
    ensures Dot(data + extra, w) == Dot(data, w)
    decreases |data|
  {
    if |w| > 0 {
      assert (data + extra)[1..] == data[1..] + extra;
      DotIgnoresUnpaired(data[1..], extra, w[1..]);
    }
  }

  /** Samples beyond the last weight pair with nothing and do not change
      `mean`. */
  lemma MeanIgnoresUnpairedSamples(data: seq<real>, extra: seq<real>, weights: seq<real>)
    requires |weights| <= |data| && Sum(weights) != 0.0
    ensures Mean(data + extra, Some(weights)) == Mean(data, Some(weights))
  {
    MeanIsWeightedMean(data + extra, Some(weights));
    MeanIsWeightedMean(data, Some(weights));
    DotIgnoresUnpaired(data, extra, weights);
  }

  // ------------------------------------------ order 2: the standard deviation

  lemma {:induction false} ZipSumOnesSquares(data: seq<real>, c: real)
    ensures ZipSum(data, Ones(|data|), c, 2) == SumSquares(data, c)
  {
    if |data| > 0 {
      assert Ones(|data|)[1..] == Ones(|data| - 1);
      var d := data[0] - c;
      assert Pow(d, 1) == d;
      assert Pow(d, 2) == d * d;
      ZipSumOnesSquares(data[1..], c);
    }
  }

  /** Without weights, `std` is the square root of the population variance,
      which is never negative. */
  lemma StdUnweighted(data: seq<real>)
    requires |data| > 0
    ensures WellWeighted(data, None)
    ensures Std(data, None) == Root(Variance(data), 2)
  {
    var n := |data|;
    ZipSumDivideEach(data, Ones(n), Sum(data) / (n as real), 2, n as real);
    ZipSumOnesSquares(data, Sum(data) / (n as real));
  }

  /** The centre of orders above 1 is the unweighted mean, whatever the
      weights: with all weight on the sample 0.0, the mean is 0.0 yet the
      standard deviation is 1.0, the distance to the unweighted mean 1.0. */
  lemma StdCentresOnUnweightedMean()
    ensures WellWeighted([0.0, 2.0], Some([1.0, 0.0]))
    ensures Mean([0.0, 2.0], Some([1.0, 0.0])) == Finite(0.0)
    ensures Std([0.0, 2.0], Some([1.0, 0.0])) == Finite(1.0)
  {
    var data, w := [0.0, 2.0], [1.0, 0.0];
    assert Sum(w) == 1.0;
    MeanIsWeightedMean(data, Some(w));
    assert Pmf(w) == w;
    assert Centre(data, 2) == 1.0;
    assert Pow(-1.0, 2) == 1.0 && Pow(1.0, 2) == 1.0;
    assert CentralMoment(data, w, 2) == 1.0;
    RootOfPow(1.0, 2);
  }

  // ------------------------------------------------ skewness and kurtosis

  /** Cubing the rooted order-3 moment gives back the order-3 central moment:
      skewness is m₃ / std³ whenever that root exists. */
  lemma SkewnessFromMoments(data: seq<real>, weights: Option<seq<real>>)
    requires WellWeighted(data, weights)
    requires Std(data, weights).Finite? && Std(data, weights) != Finite(0.0)
    requires Moment(data, weights, Some(3), None).stat.Finite?
    ensures Pow(Std(data, weights).value, 3) != 0.0
    ensures Skewness(data, weights)
         == Finite(CentralMoment(data, Weights(data, weights), 3) / Pow(Std(data, weights).value, 3))
  {
    PowNonZero(Std(data, weights).value, 3);
  }

  /** Kurtosis undoes both roots: it is m₄ / m₂², the order-4 central moment
      over the square of the order-2 one, whenever the roots exist. */
  lemma KurtosisFromMoments(data: seq<real>, weights: Option<seq<real>>)
    requires WellWeighted(data, weights)
    requires Std(data, weights).Finite? && Std(data, weights) != Finite(0.0)
    requires Moment(data, weights, Some(4), None).stat.Finite?
    ensures CentralMoment(data, Weights(data, weights), 2) != 0.0
    ensures var w := Weights(data, weights);
            var m2 := CentralMoment(data, w, 2);
            Kurtosis(data, weights) == Finite(CentralMoment(data, w, 4) / (m2 * m2))
  {
    var s := Std(data, weights).value;
    PowNonZero(s, 2);
    PowAdd(s, 2, 2);
  }

  // ------------------------------------------------------------- examples

  /** `moment` with a maximum order of 3 lists the moments of orders 1, 2
      and 3, whatever `order` says. */
  lemma MomentUpToThree(data: seq<real>, weights: Option<seq<real>>, order: Option<int>)
    requires WellWeighted(data, weights)
    ensures Moment(data, weights, order, Some(3))
         == Vector([Mean(data, weights), Std(data, weights), Moment(data, weights, Some(3), None).stat])
  {
  }

  /** The extrema of the samples 1, 2, 3, 4, 5. */
  lemma OneToFiveExtrema()
    ensures Max([1.0, 2.0, 3.0, 4.0, 5.0]) == 5.0
    ensures Min([1.0, 2.0, 3.0, 4.0, 5.0]) == 1.0
  {
    var data := [1.0, 2.0, 3.0, 4.0, 5.0];
    assert forall x :: x in data ==> 1.0 <= x <= 5.0;
    assert data[4] <= Max(data) && Min(data) <= data[0];
  }

  /** The range of the samples 1, 2, 3, 4, 5. */
  lemma OneToFiveRange()
    ensures Range([1.0, 2.0, 3.0, 4.0, 5.0]) == 4.0
  {
    OneToFiveExtrema();
  }

  lemma OneToFiveSums()
    ensures Sum([1.0, 2.0, 3.0, 4.0, 5.0]) == 15.0
    ensures SumSquares([1.0, 2.0, 3.0, 4.0, 5.0], 3.0) == 10.0
  {
  }

  /** The mean of the samples 1, 2, 3, 4, 5 without weights is 3. */
  lemma OneToFiveMean()
    ensures WellWeighted([1.0, 2.0, 3.0, 4.0, 5.0], None)
    ensures Mean([1.0, 2.0, 3.0, 4.0, 5.0], None) == Finite(3.0)
  {
    OneToFiveSums();
    MeanUnweighted([1.0, 2.0, 3.0, 4.0, 5.0]);
  }

  lemma OneToFiveVariance()
    ensures Variance([1.0, 2.0, 3.0, 4.0, 5.0]) == 2.0
  {
    OneToFiveSums();
  }

  /** The standard deviation of the samples 1, 2, 3, 4, 5 without weights
      is the square root of 2. */
  lemma OneToFiveStd()
    ensures WellWeighted([1.0, 2.0, 3.0, 4.0, 5.0], None)
    ensures Std([1.0, 2.0, 3.0, 4.0, 5.0], None) == Root(2.0, 2)
  {
    StdUnweighted([1.0, 2.0, 3.0, 4.0, 5.0]);
    OneToFiveVariance();
  }
}
