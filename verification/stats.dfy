/**
 * The `Stats` namespace of maml/utils/_stats.py: extrema, range and the
 * weighted "root moments" from which mean, standard deviation, skewness and
 * kurtosis are derived. Every operation is a pure function of its inputs.
 */
module Stats {
  import opened Numeric

  datatype Option<T> = None | Some(value: T)

  /** What `Stats.moment` returns: one value, or a list of them when a
      maximum order is given. */
  datatype MomentValue = Scalar(stat: Float) | Vector(stats: seq<Float>)

  // ---------------------------------------------------------------- extrema

  /** `Stats.max`: the largest sample. */
  function Max(data: seq<real>): (r: real)
    requires |data| > 0
    ensures r in data
    ensures forall i :: 0 <= i < |data| ==> data[i] <= r
  {
    if |data| == 1 then data[0]
    else
      var rest := Max(data[1..]);
      if data[0] < rest then rest else data[0]
  }

  /** `Stats.min`: the smallest sample. */
  function Min(data: seq<real>): (r: real)
    requires |data| > 0
    ensures r in data
    ensures forall i :: 0 <= i < |data| ==> r <= data[i]
  {
    if |data| == 1 then data[0]
    else
      var rest := Min(data[1..]);
      if rest < data[0] then rest else data[0]
  }

  /** `Stats.range`: max minus min, that is the largest difference between
      two samples. */
  function Range(data: seq<real>): (r: real)
    requires |data| > 0
    ensures 0.0 <= r
    ensures forall i, j :: 0 <= i < |data| && 0 <= j < |data| ==> data[i] - data[j] <= r
    ensures exists i, j :: 0 <= i < |data| && 0 <= j < |data| && r == data[i] - data[j]
  {
    var hi, lo := Max(data), Min(data);
    var i :| 0 <= i < |data| && data[i] == hi;
    var j :| 0 <= j < |data| && data[j] == lo;
    assert hi - lo == data[i] - data[j];
    hi - lo
  }

  // ---------------------------------------------------------------- weights

  /** One weight of 1.0 per sample: `[1.0] * len(data)`. */
  function Ones(n: nat): (w: seq<real>)
    ensures |w| == n
    ensures forall i :: 0 <= i < n ==> w[i] == 1.0
    ensures Sum(w) == n as real
  {
    if n == 0 then [] else [1.0] + Ones(n - 1)
  }

  /** The weights `moment` works with: the caller's, or uniform ones. */
  function Weights(data: seq<real>, weights: Option<seq<real>>): (w: seq<real>)
    ensures weights.Some? ==> w == weights.value
    ensures weights.None? ==> |w| == |data| && Sum(w) == |data| as real
    ensures weights.None? ==> forall i :: 0 <= i < |w| ==> w[i] == 1.0
  {
    if weights.None? then Ones(|data|) else weights.value
  }

  /** The weights can be normalised: their sum is not zero. */
  predicate WellWeighted(data: seq<real>, weights: Option<seq<real>>)
  {
    Sum(Weights(data, weights)) != 0.0
  }

  /** The weights normalised into a probability mass function. */
  function Pmf(weights: seq<real>): (p: seq<real>)
    requires Sum(weights) != 0.0
    ensures |p| == |weights|
    ensures forall i :: 0 <= i < |p| ==> p[i] * Sum(weights) == weights[i]
  {
    DivideEach(weights, Sum(weights))
  }

  /** Non-negative weights give a non-negative probability mass function. */
  lemma PmfNonNegative(weights: seq<real>)
    requires Sum(weights) != 0.0
    requires forall i :: 0 <= i < |weights| ==> 0.0 <= weights[i]
    ensures forall i :: 0 <= i < |weights| ==> 0.0 <= Pmf(weights)[i]
  {
    var s := Sum(weights);
    SumNonNegative(weights);
    forall i | 0 <= i < |weights|
      ensures 0.0 <= Pmf(weights)[i]
    {
      var p := Pmf(weights)[i];
      assert p * s == weights[i];
      if p < 0.0 {
        MulStrictlyMonotone(s, p, 0.0);
      }
    }
  }

  // ---------------------------------------------------------------- moments

  /** The centre of the order-k moment: 0.0 for order 1, otherwise the
      unweighted mean of all of `data`. (For empty `data` numpy's mean is
      NaN, but `zip` then pairs nothing, so the centre is never used.) */
  function Centre(data: seq<real>, k: int): (c: real)
    ensures k <= 1 ==> c == 0.0
    ensures k > 1 && |data| > 0 ==> c * (|data| as real) == Sum(data)
  {
    if k > 1 && |data| > 0 then Sum(data) / (|data| as real) else 0.0
  }

  /** `sum([(x - c) ** k * p for x, p in zip(data, pmf)])`; `zip` stops at
      the end of the shorter list. */
  function ZipSum(data: seq<real>, pmf: seq<real>, c: real, k: nat): (r: real)
    decreases |data|
  {
    if |data| == 0 || |pmf| == 0 then 0.0
    else Pow(data[0] - c, k) * pmf[0] + ZipSum(data[1..], pmf[1..], c, k)
  }

  /** An even-order sum over non-negative probabilities is non-negative. */
  lemma {:induction false} ZipSumEvenNonNegative(data: seq<real>, pmf: seq<real>, c: real, k: nat)
    requires k % 2 == 0
    requires forall i :: 0 <= i < |pmf| ==> 0.0 <= pmf[i]
    ensures 0.0 <= ZipSum(data, pmf, c, k)
    decreases |data|
  {
    if |data| > 0 && |pmf| > 0 {
      PowEvenNonNegative(data[0] - c, k);
      MulMonotone(0.0, Pow(data[0] - c, k), pmf[0]);
      ZipSumEvenNonNegative(data[1..], pmf[1..], c, k);
    }
  }

  /** The sum `_root_moment` takes the k-th root of. With non-negative
      weights, every even-order central moment is non-negative. */
  function CentralMoment(data: seq<real>, weights: seq<real>, k: int): (r: real)
    requires k >= 1 && Sum(weights) != 0.0
    ensures k % 2 == 0 && (forall i :: 0 <= i < |weights| ==> 0.0 <= weights[i]) ==> 0.0 <= r
  {
    var pmf := Pmf(weights);
    assert (forall i :: 0 <= i < |weights| ==> 0.0 <= weights[i]) ==>
             forall i :: 0 <= i < |pmf| ==> 0.0 <= pmf[i] by {
      if forall i :: 0 <= i < |weights| ==> 0.0 <= weights[i] {
        PmfNonNegative(weights);
      }
    }
    var c := Centre(data, k);
    assert k % 2 == 0 && (forall i :: 0 <= i < |pmf| ==> 0.0 <= pmf[i]) ==> 0.0 <= ZipSum(data, pmf, c, k) by {
      if k % 2 == 0 && (forall i :: 0 <= i < |pmf| ==> 0.0 <= pmf[i]) {
        ZipSumEvenNonNegative(data, pmf, c, k);
      }
    }
    ZipSum(data, pmf, c, k)
  }

  /** `_root_moment(data, weights, k)`: the k-th root of the central moment.
      Order 1 is never NaN; above order 1 a finite result is a non-negative
      k-th root of the central moment, and a negative central moment gives
      NaN. */
  ghost function RootMoment(data: seq<real>, weights: seq<real>, k: int): (r: Float)
    requires k >= 1 && Sum(weights) != 0.0
    ensures k == 1 ==> r.Finite?
    ensures k > 1 && r.Finite? ==> IsRoot(r.value, CentralMoment(data, weights, k), k)
    ensures k > 1 && CentralMoment(data, weights, k) < 0.0 ==> r == NaN
  {
    var m := CentralMoment(data, weights, k);
    if k > 1 && m < 0.0 then RootOfNegative(m, k); Root(m, k)
    else Root(m, k)
  }

  /** `order or 1`: an absent or zero order means order 1. */
  function OrderOr1(order: Option<int>): (r: int)
    ensures order.None? ==> r == 1
    ensures order.Some? ==> (r == order.value || (order.value == 0 && r == 1))
    ensures r != 0
  {
    if order.None? || order.value == 0 then 1 else order.value
  }

  /** The orders `moment` evaluates: `1..max_order` when a maximum order is
      given (none when it is below 1), otherwise just `order or 1`. */
  function Orders(order: Option<int>, maxOrder: Option<int>): (orders: seq<int>)
    requires maxOrder.Some? || order.None? || order.value >= 0
    ensures forall i :: 0 <= i < |orders| ==> orders[i] >= 1
  {
    if maxOrder.Some? then
      var n := if maxOrder.value < 0 then 0 else maxOrder.value;
      seq(n, i => i + 1)
    else [OrderOr1(order)]
  }

  /** `Stats.moment(data, weights, order, max_order)`. */
  ghost function Moment(data: seq<real>, weights: Option<seq<real>>,
                        order: Option<int>, maxOrder: Option<int>): (r: MomentValue)
    requires WellWeighted(data, weights)
    requires maxOrder.Some? || order.None? || order.value >= 0
    ensures maxOrder.Some? ==>
      && r.Vector?
      && |r.stats| == (if maxOrder.value < 0 then 0 else maxOrder.value)
      && forall i :: 0 <= i < |r.stats| ==>
           r.stats[i] == RootMoment(data, Weights(data, weights), i + 1)
    ensures maxOrder.None? ==>
      r == Scalar(RootMoment(data, Weights(data, weights), if order.None? || order.value == 0 then 1 else order.value))
  {
    var single := maxOrder.None?;
    var w := Weights(data, weights);
    var orders := Orders(order, maxOrder);
    var stats := seq(|orders|, i requires 0 <= i < |orders| => RootMoment(data, w, orders[i]));
    if single then Scalar(stats[0]) else Vector(stats)
  }

  // ------------------------------------------------------ derived statistics

  /** `Stats.mean`: the moment of order 1. */
  ghost function Mean(data: seq<real>, weights: Option<seq<real>>): (r: Float)
    requires WellWeighted(data, weights)
    ensures r.Finite?
  {
    Moment(data, weights, Some(1), None).stat
  }

  /** `Stats.std`: the moment of order 2. */
  ghost function Std(data: seq<real>, weights: Option<seq<real>>): (r: Float)
    requires WellWeighted(data, weights)
    ensures r.Finite? ==>
      0.0 <= r.value && r.value * r.value == CentralMoment(data, Weights(data, weights), 2)
  {
    var std := Moment(data, weights, Some(2), None).stat;
    assert std.Finite? ==> Pow(std.value, 2) == std.value * std.value by {
      if std.Finite? { assert Pow(std.value, 1) == std.value; }
    }
    std
  }

  /** `Stats.skewness`: the cube of the (already rooted) order-3 moment over
      the cube of the standard deviation. Since numpy's fractional power has
      no negative results, the skewness is never negative: a negative
      third central moment gives NaN. */
  ghost function Skewness(data: seq<real>, weights: Option<seq<real>>): (r: Float)
    requires WellWeighted(data, weights)
    requires Std(data, weights) != Finite(0.0)
    ensures CentralMoment(data, Weights(data, weights), 3) < 0.0 ==> r == NaN
    ensures r.Finite? ==> 0.0 <= r.value
  {
    var third := Moment(data, weights, Some(3), None).stat;
    var std := Std(data, weights);
    assert Power(std, 3) != Finite(0.0) by {
      if std.Finite? { PowNonZero(std.value, 3); }
    }
    RatioOfPowersNonNegative(third, std, 3);
    Divide(Power(third, 3), Power(std, 3))
  }

  /** Powers of non-negative floats have a non-negative ratio. */
  lemma RatioOfPowersNonNegative(a: Float, b: Float, n: nat)
    requires a.Finite? ==> 0.0 <= a.value
    requires b.Finite? ==> 0.0 <= b.value
    requires b != Finite(0.0)
    ensures Power(b, n) != Finite(0.0)
    ensures Divide(Power(a, n), Power(b, n)).Finite? ==> 0.0 <= Divide(Power(a, n), Power(b, n)).value
  {
    if b.Finite? {
      PowNonZero(b.value, n);
      PowNonNegative(b.value, n);
    }
    if a.Finite? && b.Finite? {
      PowNonNegative(a.value, n);
      var x, y := Pow(a.value, n), Pow(b.value, n);
      assert 0.0 < y;
      var q := x / y;
      assert q * y == x;
      if q < 0.0 {
        MulStrictlyMonotone(y, q, 0.0);
      }
    }
  }

  /** `Stats.kurtosis`: the fourth power of the (already rooted) order-4
      moment over the fourth power of the standard deviation. */
  ghost function Kurtosis(data: seq<real>, weights: Option<seq<real>>): (r: Float)
    requires WellWeighted(data, weights)
    requires Std(data, weights) != Finite(0.0)
    ensures r.Finite? ==> 0.0 <= r.value
  {
    var fourth := Moment(data, weights, Some(4), None).stat;
    var std := Std(data, weights);
    assert Power(std, 4) != Finite(0.0) by {
      if std.Finite? { PowNonZero(std.value, 4); }
    }
    RatioOfPowersNonNegative(fourth, std, 4);
    Divide(Power(fourth, 4), Power(std, 4))
  }
}
