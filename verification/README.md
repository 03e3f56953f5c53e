# Stats: descriptive statistics over weighted samples

A Dafny model of the `Stats` namespace of the materials machine-learning
package `maml` (`maml/utils/_stats.py`). `Stats` turns a list of samples of
any length, optionally weighted, into fixed summary numbers: maximum,
minimum, range, and the "root moments" from which mean, standard deviation,
skewness and kurtosis are derived. Every operation is a pure function, so
the model is made of functions and lemmas over Dafny `real`:

- `numeric.dfy`, module `Numeric`: integer powers `Pow`, sums `Sum`,
  element-wise division, the float results `Float = Finite(real) | NaN`,
  and `Root(x, k)`, the fractional power `x ** (1. / k)`.
- `stats.dfy`, module `Stats`: `Max`, `Min`, `Range`, the default weights,
  the probability mass function `Pmf`, the centre of a moment, the
  `zip`-paired sum `ZipSum`, `RootMoment` (the helper `_root_moment`),
  `Moment` with its `order` / `max_order` dispatch, and `Mean`, `Std`,
  `Skewness`, `Kurtosis`.
- `stats_properties.dfy`, module `StatsProperties`: independent reference
  definitions (weighted sum `Dot`, population `Variance`) and the lemmas
  that tie the statistics to them.

How the model reads the code:

- `Root(x, 1)` is exactly `x`, so order-1 results are exact. For `k > 1`
  `Root` gives the non-negative k-th root where one exists and `NaN`
  otherwise. numpy's float power of a negative base with a fractional
  exponent is `nan`; this holds for odd orders too. So skewness is `NaN`
  whenever the third central moment is negative, and a finite skewness is
  never negative (`Skewness`).
- The centre of every order above 1 is the unweighted mean of all samples.
  The weights play no part in it (`StdCentresOnUnweightedMean`).
- `zip` pairs samples with weights only up to the shorter list. The weight
  sum still covers every weight, and the centre still covers every sample.
- `skewness` and `kurtosis` raise the already-rooted moments to the third
  and fourth power. This undoes the roots: kurtosis is m4 / m2²
  (`KurtosisFromMoments`).

What the code does not check, and what it then does:

- Samples and weights of different lengths are not an error. `zip`
  truncates the pairing to the shorter list.
- An order of 0 is not an error. `order or 1` turns it into 1.
- A `max_order` below 1 gives an empty list.
- Empty samples with explicit weights of nonzero sum give 0.0 for `moment`,
  `mean` and `std`, because `zip` pairs nothing. `skewness` and `kurtosis`
  then divide 0.0 by 0.0 (see "## Left out").
- A negative central moment yields NaN for every order above 1, odd orders
  included.

## Model

| member | source | states |
|---|---|---|
| `Stats.Max` | maml/utils/_stats.py:20-30 | the result is one of the samples and no sample exceeds it |
| `Stats.Min` | maml/utils/_stats.py:32-42 | the result is one of the samples and no sample is below it |
| `Stats.Range` | maml/utils/_stats.py:44-54 | max - min is non-negative, bounds every difference of two samples and equals one such difference |
| `Stats.Ones` | maml/utils/_stats.py:85 | the default weights: one weight 1.0 per sample, summing to the number of samples |
| `Stats.Weights` | maml/utils/_stats.py:84-85 | the caller's weights when given; otherwise 1.0 per sample with sum len(data), so the default weights can be normalised exactly when there is a sample |
| `Stats.Pmf` | maml/utils/_stats.py:176-177 | one entry per weight, each entry times the weight sum gives back its weight |
| `Stats.PmfNonNegative` | maml/utils/_stats.py:176-177 | non-negative weights give a non-negative probability mass function |
| `Stats.Centre` | maml/utils/_stats.py:178-181 | the centre is 0.0 for order 1 and the unweighted mean of the samples for higher orders |
| `Stats.ZipSumEvenNonNegative` | maml/utils/_stats.py:183-184 | an even-order sum over the `zip` pairs with non-negative probabilities is non-negative |
| `Stats.CentralMoment` | maml/utils/_stats.py:176-184 | the paired sum `ZipSum` of (x - centre)^k * p over the `zip` of samples and probabilities; with non-negative weights every even-order central moment is non-negative |
| `Stats.RootMoment` | maml/utils/_stats.py:164-186 | order 1 is never NaN; above order 1 a finite result is a non-negative k-th root of the central moment, and a negative central moment gives NaN |
| `Stats.OrderOr1` | maml/utils/_stats.py:90 | an absent or zero order becomes 1, any other order is kept, so the result is never 0 |
| `Stats.Orders` | maml/utils/_stats.py:87-90 | every order `moment` evaluates is at least 1 |
| `Stats.Moment` | maml/utils/_stats.py:56-96 | with `max_order`, a list of length max(max_order, 0) whose i-th entry is the root moment of order i+1, whatever `order` is; without it, the single root moment of order `order or 1` |
| `Stats.Mean` | maml/utils/_stats.py:98-111 | the mean is never NaN |
| `Stats.Std` | maml/utils/_stats.py:113-127 | a finite standard deviation is non-negative and its square is the order-2 central moment |
| `Stats.Skewness` | maml/utils/_stats.py:129-144 | a negative third central moment makes skewness NaN, and a finite skewness is never negative |
| `Stats.Kurtosis` | maml/utils/_stats.py:146-161 | a finite kurtosis is never negative |
| `Numeric.Root` | maml/utils/_stats.py:186 | order 1 is the identity; for higher orders a finite result is a non-negative k-th root of the sum, and NaN means there is none |
| `Numeric.RootOfPow` | maml/utils/_stats.py:186 | the k-th root of y^k is y for every y >= 0 (non-negative roots are unique) |
| `Numeric.RootOfNegative` | maml/utils/_stats.py:186 | a negative sum under a root of order above 1 gives NaN |
| `Numeric.Divide` | maml/utils/_stats.py:144 | the quotient is NaN exactly when a side is NaN, and otherwise times the divisor gives the dividend |
| `StatsProperties.PmfSumsToOne` | maml/utils/_stats.py:176-177 | the probability mass function sums to 1 |
| `StatsProperties.PmfScaleInvariant` | maml/utils/_stats.py:176-177 | scaling all weights by one non-zero factor leaves the probability mass function unchanged |
| `StatsProperties.RootMomentScaleInvariant` | maml/utils/_stats.py:176-186 | scaling all weights by one non-zero factor leaves every root moment unchanged |
| `StatsProperties.MomentScaleInvariant` | maml/utils/_stats.py:84-96 | scaling all weights by one non-zero factor leaves `moment` unchanged for every order and maximum order |
| `StatsProperties.MeanIsWeightedMean` | maml/utils/_stats.py:176-186 | `mean` is Σ xᵢwᵢ / Σw over the pairs `zip` forms, Σw over all weights |
| `StatsProperties.MeanUnweighted` | maml/utils/_stats.py:84-85 | without weights `mean` is the arithmetic mean Σx / n |
| `StatsProperties.MeanUniformWeights` | maml/utils/_stats.py:176-177 | equal non-zero weights give the arithmetic mean as well |
| `StatsProperties.MeanIgnoresUnpairedSamples` | maml/utils/_stats.py:183-184 | samples past the last weight do not change `mean` |
| `StatsProperties.StdUnweighted` | maml/utils/_stats.py:113-127 | without weights `std` is the square root of the population variance |
| `StatsProperties.StdCentresOnUnweightedMean` | maml/utils/_stats.py:178-184 | with all weight on sample 0.0 of [0.0, 2.0] the mean is 0.0 but `std` is 1.0: the centre ignores the weights |
| `StatsProperties.SkewnessFromMoments` | maml/utils/_stats.py:129-144 | when the order-3 root exists, skewness is the third central moment over std³ |
| `StatsProperties.KurtosisFromMoments` | maml/utils/_stats.py:146-161 | when the roots exist, kurtosis is m4 / m2², the fourth central moment over the squared second |
| `StatsProperties.MomentUpToThree` | maml/utils/_stats.py:87-95 | `max_order=3` gives [mean, std, order-3 moment] whatever `order` is |
| `StatsProperties.OneToFiveExtrema` | maml/utils/_stats.py:21-42 | for samples 1..5 max is 5 and min is 1 |
| `StatsProperties.OneToFiveRange` | maml/utils/_stats.py:45-54 | for samples 1..5 the range is 4 |
| `StatsProperties.OneToFiveMean` | maml/utils/_stats.py:99-111 | for samples 1..5 without weights the mean is 3 |
| `StatsProperties.OneToFiveStd` | maml/utils/_stats.py:114-127 | for samples 1..5 without weights `std` is the square root of 2 |

## Left out

- Floating point: values are exact reals. Rounding, overflow, infinities and
  bit-identical results are not modelled. NaN is modelled only where it
  comes from a fractional power of a negative number.
- Numeric.Root: that a non-negative real has a real k-th root is not proved,
  because that needs the completeness of the reals. Results for orders
  above 1 are therefore stated as conditional on the root existing, and the
  model's `NaN` branch for a non-negative sum without a root cannot occur
  over the real numbers. Python's `1. / k` exponent is taken as exactly 1/k.
- Stats.Max, Stats.Min, Stats.Range: the empty list, on which numpy raises
  an error, is excluded by a precondition rather than modelled as an
  error.
- Stats.Moment and everything built on it: a weight sum of zero is excluded
  by a precondition. What the code does then depends on the weights:
  - Empty weights (the default weights of empty samples): `np.sum([])` is
    0.0, dividing the empty array by it gives an empty array, and `zip`
    pairs nothing. So every root moment is 0.0: `mean([])` and `std([])`
    return 0.0, the latter with numpy's warning about the mean of an empty
    slice.
  - Non-empty weights summing to zero: the probability mass function holds
    inf or nan (with a warning). When there is a sample to pair, the result
    is inf or nan too. When the samples are empty, `zip` pairs nothing and
    every root moment is 0.0, as above.
- Stats.Skewness, Stats.Kurtosis: a standard deviation of exactly 0.0 is
  excluded by a precondition. With negative weights this can happen while
  the third or fourth central moment is not zero. When the moments are
  numpy floats, the division warns and gives nan if the numerator is 0.0
  or nan, and inf otherwise. When `zip` paired nothing (empty samples),
  the moments are plain Python floats 0.0, and `0.0 ** 3 / 0.0 ** 3`
  raises ZeroDivisionError.
- Stats.Moment: a negative `order` (without `max_order`) is excluded. It
  would use negative integer powers and the reciprocal root, which may
  divide by zero.
- numpy internals (`np.max`, `np.min`, `np.sum`, `np.mean`, `np.array`)
  are modelled as plain recursive reductions over sequences. The order of
  summation does not matter over the reals.
- Non-integer or boolean `order` values, and inputs that are not lists of
  numbers, are not modelled.
