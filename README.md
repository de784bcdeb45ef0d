# statistical-go, modelled in Dafny

This project models the computational core of `statistical-go`, a Go
toolkit of descriptive statistics, probability distributions, hypothesis
tests and regression solvers. Each Go source file is one Dafny module. The
loops of the source are methods. Each is proved equal to a specification
function, except `Descriptive.Mode`, whose result depends on the order of
a map scan and is specified by the property it has in every order.
Lemmas then state what the specification functions mean:
bounds, round trips, uniqueness, symmetry, and the values of the test
fixtures.

| module | file | Go source |
|---|---|---|
| `Descriptive` | descriptive.dfy | stat/descriptive.go |
| `Forecasting` | forecasting.dfy | stat/forecasting.go |
| `Sorting` | sorting.dfy | `sort.Float64s`, as the order statistics use it |
| `Sums` | sums.dfy | the accumulator loops' sums and their algebra |
| `LinearRegression` | linear.dfy | regression/linear.go |
| `Matrices` | matrix.dfy | `transpose`, `matMul`, `matVecMul` of regression/multiple.go and regression/models/ridge.go |
| `GaussJordan` | inverse.dfy | `matInverse` of regression/multiple.go and regression/models/ridge.go |
| `MultipleRegression` | multiple.dfy | regression/multiple.go |
| `Ridge` | ridge.dfy | regression/models/ridge.go |
| `Centering` | centering.dfy | `centerVector` and `centerColumns` of regression/models/lasso.go |
| `Lasso` | lasso.dfy | regression/models/lasso.go |
| `ChiSquare` | chi2.dfy | hypothesis/chi2.go |
| `Anova` | anova.dfy | hypothesis/anova.go |
| `TTest` | ttest.dfy | hypothesis/ttest.go |
| `ZTest` | ztest.dfy | hypothesis/ztest.go |
| `TestResults` | testresult.dfy | hypothesis/types.go |
| `Binomial` | binomial.dfy | probability/binomial.go |
| `Poisson` | poisson.dfy | probability/poisson.go |
| `Uniform` | uniform.dfy | probability/uniform.go |
| `NormalQuantile` | quantile.dfy | probability/NormalInverseCDF.go |
| `ConditionalProbability` | conditional.dfy | probability/conditional.go |
| `ProbabilityRules` | rules.dfy | probability/basic.go |
| `Numerics` | numerics.dfy | the calls into Go's `math` package |
| `Outcomes` | outcomes.dfy | Go's `(T, error)` results and NaN/±Inf outcomes |

Modelling conventions:

- Every `float64` is an exact `real`. Comparisons the source makes with
  zero (a pivot, a slope denominator, a within-group mean square) are real
  equalities.
- A Go `panic` is a precondition. The one exception is `factorial`'s
  overflow check, which becomes an `Err` result.
- An `error` return is a `Result` datatype.
- A NaN or infinite outcome is a variant of `Value` inside `TestResult`.
- `math.Sqrt`, `math.Log`, `math.Exp` and `math.Erf` are fields of a
  `Numerics.Math` record. They are not computed. The ghost predicate
  `Sound(m)` states the only facts the proofs use about them:
  - a square root is non-negative and squares back;
  - `exp` is positive;
  - `log x ≤ x − 1`;
  - `erf` lies in [−1, 1], is 0 at 0 and is not negative on non-negative
    arguments.
- `math.Pow` with a whole exponent is the exact product `Numerics.Pow`.
- The chi-square CDF is a parameter of the chi-square tests.
- Matrices are sequences of rows. `matInverse` rewrites a two-dimensional
  array in place. The lasso coefficients are an array updated in place.
  Other intermediate matrices are fresh values, and inputs are never
  modified.

## Model

| member | source | states |
|---|---|---|
| Binomial.ChooseAbove | probability/binomial.go:32-42 | C(n, k) = 0 when k > n |
| Binomial.ChooseAll | probability/binomial.go:32-42 | C(n, n) = 1 |
| Binomial.ChoosePositive | probability/binomial.go:32-42 | C(n, k) ≥ 1 for k ≤ n |
| Binomial.ChooseStep | probability/binomial.go:37-40 | (n − i)·C(n, i) = (i + 1)·C(n, i + 1), so every division in the loop is exact |
| Binomial.ChooseSymmetric | probability/binomial.go:33-35 | C(n, k) = C(n, n − k), which justifies replacing k by n − k |
| Binomial.BinomialCoefficient | probability/binomial.go:32-42 | the loop returns exactly C(n, k) as a float, and that value is at least 1 |
| Binomial.BinomialPMF | probability/binomial.go:10-16 | the mass lies in [0, 1]; the invalid-argument panic becomes a precondition |
| Binomial.MassNonNegative | probability/binomial.go:14-15 | every term C(n, i)·pⁱ·(1 − p)ⁿ⁻ⁱ is non-negative for p in [0, 1] |
| Binomial.PrefixMonotone | probability/binomial.go:24-27 | partial sums of the masses never decrease and stay non-negative |
| Binomial.MassStep | probability/binomial.go:14-15 | Pascal's rule lifted to masses: B(n + 1, k) = p·B(n, k − 1) + (1 − p)·B(n, k) |
| Binomial.PrefixStep | probability/binomial.go:24-27 | the same recurrence for the cumulative sums |
| Binomial.MassTotal | probability/binomial.go:20-29 | the masses of 0..n add up to exactly 1 |
| Binomial.MassAtMostOne | probability/binomial.go:10-16 | no single mass exceeds 1 |
| Binomial.BinomialCDF | probability/binomial.go:20-29 | the loop sum equals the sum of the masses of 0..k, lies in [0, 1], and is 1 when k = n |
| Binomial.CumulativeMonotone | probability/binomial.go:20-29 | P(X ≤ j) ≤ P(X ≤ k) for j ≤ k |
| Binomial.FixtureChoose | probability/binomial.go:32-42 | C(5, 1) = 5 and C(5, 2) = 10 |
| Binomial.FixturePMF | probability/binomial_test.go:15 | BinomialPMF(5, 2, 0.5) = 0.3125 exactly |
| Binomial.FixtureNoSuccess | probability/binomial_test.go:16 | BinomialPMF(10, 0, 0.1) = 0.9¹⁰ = 0.3486784401, the value the test rounds to 0.348678 |
| Binomial.FixtureCDF | probability/binomial_test.go:38 | P(X ≤ 2) for five fair trials is exactly 0.5 |
| Poisson.FactGrows | probability/poisson.go:30-42 | n! ≥ 1 and n! ≤ (n + 1)! |
| Poisson.FactMonotone | probability/poisson.go:30-42 | i ≤ j implies i! ≤ j! |
| Poisson.Factorial | probability/poisson.go:30-42 | the loop returns n! unless some running product passes the float64 maximum; it reports overflow exactly when n ≥ 2 and n! passes that maximum |
| Poisson.MassPositive | probability/poisson.go:9-14 | with λ > 0 every mass λᵏe^(−λ)/k! is positive |
| Poisson.PoissonPMF | probability/poisson.go:9-14 | fails exactly when k! overflows; otherwise the mass is positive and mass·k! = λᵏ·e^(−λ) |
| Poisson.MassRecurrence | probability/poisson.go:9-14 | P(k + 1) = P(k)·λ/(k + 1) |
| Poisson.PoissonCDF | probability/poisson.go:18-27 | fails exactly when k! overflows; otherwise it returns the sum of the masses of 0..k, which is positive |
| Poisson.CumulativeMonotone | probability/poisson.go:18-27 | the cumulative sum never decreases in k |
| Poisson.FixtureFact | probability/poisson.go:30-42 | 0! = 1! = 1 and 5! = 120 |
| Poisson.FixtureRateTwo | probability/poisson_test.go:14-17 | at λ = 2: P(1) = P(2) = 2e^(−2), P(3) = P(2)·2/3, and P(X ≤ 2) = 5e^(−2) (the test's 0.270670 and 0.676676) |
| Uniform.UniformPDF | probability/uniform.go:5-13 | the density is 1/(b − a) on the closed interval [a, b] and 0 outside; a ≥ b panics (a precondition) |
| Uniform.UniformCDF | probability/uniform.go:17-27 | the CDF lies in [0, 1], is 0 at and below a, and is 1 at and above b |
| Uniform.CDFMonotone | probability/uniform.go:17-27 | the CDF never decreases |
| Uniform.CDFIsIntegral | probability/uniform.go:5-27 | on [a, b], F(x) = (x − a)·f(x), so the CDF integrates the density |
| Uniform.CDFStrictInside | probability/uniform.go:26 | inside [a, b] the CDF is strictly increasing |
| Uniform.FixtureUniform | probability/uniform_test.go:14-45 | the density and CDF values of the test tables on [0, 10] |
| ProbabilityRules.AdditionRule | probability/basic.go:4-6 | r + P(A ∩ B) = P(A) + P(B); for a consistent joint probability the union is a probability at least as large as either event |
| ProbabilityRules.Union | probability/basic.go:24-26 | the same inclusion–exclusion result with the overlap passed in |
| ProbabilityRules.UnionIsAdditionRule | probability/basic.go:4-26 | `Union` and `AdditionRule` agree on every input |
| ProbabilityRules.MultiplicationRule | probability/basic.go:9-11 | for probabilities the product is a consistent joint probability, and it is 0 exactly when one factor is 0 |
| ProbabilityRules.IndependentConsistent | probability/basic.go:9-11 | max(0, a + b − 1) ≤ a·b ≤ min(a, b) for probabilities a and b |
| ProbabilityRules.Intersection | probability/basic.go:19-21 | the same guarantees as the multiplication rule |
| ProbabilityRules.IntersectionIsMultiplicationRule | probability/basic.go:9-21 | `Intersection` and `MultiplicationRule` agree on every input |
| ProbabilityRules.ComplementRule | probability/basic.go:14-16 | r + P(A) = 1, and r is a probability exactly when P(A) is |
| ProbabilityRules.ComplementInvolution | probability/basic.go:14-16 | taking the complement twice gives back P(A) |
| ProbabilityRules.IndependentUnion | probability/basic.go:4-16 | for independent events, P(A ∪ B) = 1 − (1 − a)(1 − b) (De Morgan) |
| ProbabilityRules.FixtureRules | probability/basic_test.go:11-46 | the five worked values of the tests, exactly |
| ConditionalProbability.Conditional | probability/conditional.go:3-8 | 0 when P(B) = 0; otherwise the unique r with r·P(B) = P(A ∩ B) |
| ConditionalProbability.ConditionalIsProbability | probability/conditional.go:3-8 | a consistent joint probability conditions to a probability |
| ConditionalProbability.ChainRule | probability/conditional.go:3-8 | P(A given B)·P(B) = P(A ∩ B), and conditioning an independent product on B gives back P(A) |
| ConditionalProbability.FixtureConditional | probability/conditional_test.go:11-14 | 0.15/0.3 = 0.2/0.4 = 0.5, and both 0/0.5 and the division by zero give 0 |
| NormalQuantile.ExpandA | probability/NormalInverseCDF.go:23-25 | the Horner form over the coefficients a is the nested polynomial the central branch evaluates |
| NormalQuantile.ExpandB | probability/NormalInverseCDF.go:26-28 | the same for b, with the trailing constant 1 |
| NormalQuantile.ExpandC | probability/NormalInverseCDF.go:29-31 | the same for c |
| NormalQuantile.ExpandD | probability/NormalInverseCDF.go:32-33 | the same for d, with the trailing constant 1 |
| NormalQuantile.CentralNumeratorPositive | probability/NormalInverseCDF.go:47-50 | the central numerator polynomial is positive for every r = q² the central region can produce |
| NormalQuantile.CentralDenominatorPositive | probability/NormalInverseCDF.go:50-51 | the central denominator is positive on the same range, so the division is defined |
| NormalQuantile.CentralRange | probability/NormalInverseCDF.go:35-36 | for p in [p_low, 1 − p_low], (p − 0.5)² ≤ 0.47575² |
| NormalQuantile.TailDenominatorPositive | probability/NormalInverseCDF.go:41-42 | the tail denominator is at least 1 for q ≥ 0 |
| NormalQuantile.TailNumeratorNegative | probability/NormalInverseCDF.go:41 | the tail numerator is negative for q ≥ 1.396 |
| NormalQuantile.TailVariable | probability/NormalInverseCDF.go:39-40 | for p below p_low, q = √(−2·log p) is at least 1.396 |
| NormalQuantile.Tail | probability/NormalInverseCDF.go:39-42 | the lower-tail branch returns a negative value |
| NormalQuantile.Central | probability/NormalInverseCDF.go:47-51 | the central branch is negative exactly when p < 0.5 and zero exactly when p = 0.5 |
| NormalQuantile.StandardNormalInverseCDF | probability/NormalInverseCDF.go:17-53 | the result is negative, zero or positive exactly as p is below, at or above 0.5, in every branch; p outside (0, 1) panics (a precondition) |
| NormalQuantile.StandardSymmetric | probability/NormalInverseCDF.go:43-46 | the approximation is odd about one half: z(1 − p) = −z(p), which is the symmetry the upper-tail branch relies on |
| NormalQuantile.CentralOdd | probability/NormalInverseCDF.go:47-51 | the central branch is odd: z(1 − p) = −z(p) |
| NormalQuantile.NormalInverseCDF | probability/NormalInverseCDF.go:8-13 | the quantile μ + σ·z(p) lies below, at or above the mean exactly as p lies below, at or above 0.5; σ ≤ 0 panics (a precondition) |
| NormalQuantile.NormalSymmetric | probability/NormalInverseCDF.go:8-13 | the quantiles at p and 1 − p lie symmetrically about the mean |
| Numerics.Phi | hypothesis/ttest.go:76-78 | the standard normal CDF 0.5·(1 + erf(x/√2)) lies in [0, 1] and is at least 0.5 for x ≥ 0 |
| Numerics.PhiZero | hypothesis/ttest.go:76-78 | Φ(0) = 0.5 |
| Numerics.TwoTailed | hypothesis/ttest.go:15 | the two-tailed p-value 2·(1 − Φ(\|s\|)) lies in [0, 1] |
| Numerics.TwoTailedSymmetric | hypothesis/ttest.go:15 | the p-value ignores the sign of the statistic, and a statistic of 0 gives p = 1 |
| Numerics.PowNonNegative | probability/binomial.go:15 | `math.Pow` with a whole exponent is non-negative for a non-negative base, and positive for a positive one |
| Numerics.PowOne | probability/binomial.go:15 | 1ᵏ = 1 |
| Numerics.PowAdd | probability/binomial.go:15 | x^(a+b) = xᵃ·xᵇ |
| Numerics.PowMul | probability/binomial.go:15 | (x·y)ᵏ = xᵏ·yᵏ |
| TTest.StudentTCDF | hypothesis/ttest.go:67-73 | the result lies in [0, 1] and is at least 0.5 for t ≥ 0 |
| TTest.StudentTIgnoresDf | hypothesis/ttest.go:67-73 | the degrees of freedom have no effect on the result (the placeholder uses the normal CDF) |
| TTest.TPValue | hypothesis/ttest.go:15 | the t-test p-value is the two-tailed normal p-value and lies in [0, 1] |
| TTest.OneSampleTTest | hypothesis/ttest.go:8-17 | t·(sd/√n) = x̄ − μ, the p-value is the two-tailed value of t, and t = 0 exactly when x̄ = μ; the panics are preconditions |
| TTest.WelchDFBounds | hypothesis/ttest.go:28-29 | the Welch–Satterthwaite degrees of freedom lie between min(n₁ − 1, n₂ − 1) and n₁ + n₂ − 2 |
| TTest.WelchScalar | hypothesis/ttest.go:29 | min(u, v) ≤ (a + b)²/(a²/u + b²/v) ≤ u + v for positive a, b and u, v ≥ 1 |
| TTest.TwoSampleTTestWelch | hypothesis/ttest.go:20-33 | t·√(sd₁²/n₁ + sd₂²/n₂) = m₁ − m₂ and the p-value is the two-tailed value of t; the panics are preconditions |
| TTest.PairedDegenerate | hypothesis/ttest.go:52-58 | the statistic is finite exactly when the differences are not all equal; otherwise it is +Inf or −Inf with p-value 0, or NaN for a zero difference |
| TTest.SumDifferences | hypothesis/ttest.go:45-50 | the loop returns Σdᵢ and Σdᵢ² for dᵢ = xᵢ − yᵢ |
| TTest.PairedTTest | hypothesis/ttest.go:36-61 | the result is the paired t-test on the differences with their two-pass sample variance (including the ±Inf and NaN cases); a length mismatch or fewer than two pairs panics (preconditions) |
| TTest.PairedFromMoments | hypothesis/ttest.go:52-60 | the paired result written out in terms of the mean and the sample variance of the differences |
| TTest.OnePassVariance | hypothesis/ttest.go:52-53 | the one-pass (Σd² − n·mean²)/(n − 1) equals the two-pass sample variance Σ(d − mean)²/(n − 1) |
| ZTest.NormalCDF | hypothesis/ztest.go:38-40 | the result lies in [0, 1] and is at least 0.5 at or above the mean |
| ZTest.NormalCDFStandard | hypothesis/ztest.go:38-40 | with mean 0 and deviation 1 it is the standard normal CDF |
| ZTest.ZPValue | hypothesis/ztest.go:17 | the z-test p-value is the two-tailed normal p-value and lies in [0, 1] |
| ZTest.OneSampleZTest | hypothesis/ztest.go:8-19 | z·(σ/√n) = x̄ − μ, the p-value is the two-tailed value of z, and z = 0 exactly when x̄ = μ; σ ≤ 0 or n ≤ 0 panics (preconditions) |
| ZTest.PooledError | hypothesis/ztest.go:29 | the standard error is positive and its square is σ₁²/n₁ + σ₂²/n₂ |
| ZTest.TwoSampleZTest | hypothesis/ztest.go:22-33 | z·se = m₁ − m₂ and the p-value is the two-tailed value of z; the panics are preconditions |
| ZTest.TwoSampleZSwap | hypothesis/ztest.go:22-33 | swapping the two samples negates z and keeps the p-value |
| ZTest.TwoSampleZEqualMeans | hypothesis/ztest.go:22-33 | equal means give z = 0 and p = 1 |
| Anova.FDistributionCDF | hypothesis/anova.go:67-74 | the result lies in [0, 1]; it is 0 when either degree of freedom is not positive, and at least 0.5 for F ≥ 1 |
| Anova.CountAtLeast | hypothesis/anova.go:14-22 | non-empty groups hold at least as many values as there are groups, so dfWithin = N − k is never negative |
| Anova.GroupMean | hypothesis/anova.go:57-63 | the loop returns the average of the group |
| Anova.OneWayANOVA | hypothesis/anova.go:9-55 | the result is the one-way ANOVA of the groups (`AnovaResult`): F = MSB/MSW and p = 1 − CDF(F, k − 1, N − k); NaN and p = 1 when every group holds one value; NaN for both when MSW = 0; fewer than two groups panics (a precondition) |
| Anova.AccumulateTotals | hypothesis/anova.go:14-22 | the first loop returns the sum and the number of all values |
| Anova.AccumulateBetween | hypothesis/anova.go:24-30 | the second loop returns Σ_g n_g·(mean_g − grand)² |
| Anova.AccumulateWithin | hypothesis/anova.go:32-39 | the third loop returns Σ_g Σ_v (v − mean_g)² |
| Anova.TotalSumWeighted | hypothesis/anova.go:14-22 | the grand total is the size-weighted sum of the group means |
| Anova.SumsOfSquaresNonNegative | hypothesis/anova.go:24-39 | both sums of squares are non-negative |
| Anova.WithinZero | hypothesis/anova.go:32-39 | the within-group sum of squares is 0 exactly when no group varies (both directions) |
| Anova.NoSpread | hypothesis/anova.go:41-52 | groups without spread, with more values than groups, give NaN for both the statistic and the p-value |
| Anova.Spread | hypothesis/anova.go:41-54 | one group that varies, with more values than groups, gives a finite F ≥ 0 and a p-value in [0, 1] |
| Anova.SingletonGroups | hypothesis/anova.go:41-54 | one value per group gives dfWithin = 0: the statistic is NaN and the p-value is 1 |
| Anova.FixtureAnova | hypothesis/anova_test.go:19-23 | the groups {4, 5, 6}, {10, 9, 11}, {7, 8, 9} give F = 19 exactly |
| Anova.ThreeGroupTotals | hypothesis/anova.go:14-22 | the count and the total of three groups, written out |
| Anova.ThreeGroupSquares | hypothesis/anova.go:24-39 | the between- and within-group sums of squares of three groups, written out |
| Forecasting.ExponentialSmoothing | stat/forecasting.go:6-19 | the loop returns the recursively defined smoothed value, which lies between the least and the greatest observation; an empty series or α outside (0, 1] panics (preconditions) |
| Forecasting.SmoothedBetween | stat/forecasting.go:14-18 | every step is a convex combination, so the smoothed value stays within the range of the data |
| Forecasting.SmoothedStep | stat/forecasting.go:16 | s_n = α·x_n + (1 − α)·s_(n−1) |
| Forecasting.SmoothedAlphaOne | stat/forecasting.go:14-18 | with α = 1 the result is the last observation |
| Forecasting.SmoothedSingle | stat/forecasting.go:14 | a single observation smooths to itself, whatever α is |
| Forecasting.SmoothedConstant | stat/forecasting.go:14-18 | a constant series smooths to its constant |
| Forecasting.FixtureSmoothing | stat/forecasting_test.go:10-12 | 50, 55, 53, 60, 62, 65 with α = 0.3 smooths to exactly 59.15885 |
| ChiSquare.TermSign | hypothesis/chi2.go:21-22 | a cell's contribution (o − e)²/e is non-negative when e > 0, and zero exactly when o = e |
| ChiSquare.DivergenceZero | hypothesis/chi2.go:15-23 | the goodness-of-fit statistic is non-negative, and zero exactly when the observed frequencies equal the expected ones |
| ChiSquare.ChiSquareGoodnessOfFit | hypothesis/chi2.go:10-27 | the statistic is Σ (oᵢ − eᵢ)²/eᵢ, never negative, and the p-value is 1 − chiSquareCDF(statistic, n − 1); unequal or empty slices and an expected frequency ≤ 0 panic (preconditions) |
| ChiSquare.FixtureGoodnessOfFit | hypothesis/chi2_test.go:9-11 | observed 16, 18, 16, 14, 12, 12 against expected 16, 16, 16, 16, 16, 8 gives 3.5 |
| ChiSquare.ColumnTotals | hypothesis/chi2.go:48-56 | one total per column, each the column's sum |
| ChiSquare.RowTotals | hypothesis/chi2.go:48-56 | one total per row, each the row's sum |
| ChiSquare.RowMarginals | hypothesis/chi2.go:44-57 | the row totals add up to the grand total |
| ChiSquare.ColumnMarginals | hypothesis/chi2.go:44-57 | the column totals add up to the grand total |
| ChiSquare.TotalsNonNegative | hypothesis/chi2.go:49-55 | with no negative cell, every row, column and grand total is non-negative |
| ChiSquare.GrandTotalPositive | hypothesis/chi2.go:59-68 | a non-negative table with a positive row total has a positive grand total, so the division by `total` is defined |
| ChiSquare.ExpectedPositive | hypothesis/chi2.go:73 | positive margins give a positive expected count |
| ChiSquare.MarginsPositive | hypothesis/chi2.go:31-68 | a table that passes every panic check has positive row, column and grand totals |
| ChiSquare.RowContributionsNonNegative | hypothesis/chi2.go:72-76 | one row's contribution to the statistic is non-negative |
| ChiSquare.ContributionsNonNegative | hypothesis/chi2.go:71-77 | the independence statistic is a sum of non-negative contributions |
| ChiSquare.ChiSquareTestOfIndependence | hypothesis/chi2.go:30-82 | the statistic is Σᵢⱼ (oᵢⱼ − Eᵢⱼ)²/Eᵢⱼ with Eᵢⱼ = rowᵢ·colⱼ/total, never negative, and the p-value is 1 − chiSquareCDF(statistic, (r − 1)(c − 1)); fewer than two rows or columns, ragged rows, negative cells and zero margins panic (preconditions) |
| ChiSquare.AccumulateMargins | hypothesis/chi2.go:40-57 | the first double loop fills the row totals, the column totals and the grand total |
| ChiSquare.AccumulateStatistic | hypothesis/chi2.go:70-77 | the second double loop returns the sum of the cells' contributions |
| ChiSquare.RowContributionsStep | hypothesis/chi2.go:73-75 | one more cell adds (o − E)²/E to its row's contribution |
| ChiSquare.ContributionsStep | hypothesis/chi2.go:71-77 | one more row adds its row contribution to the statistic |
| ChiSquare.ColumnTotalStep | hypothesis/chi2.go:54 | one more row adds its cell to each column total |
| ChiSquare.GrandTotalStep | hypothesis/chi2.go:55 | one more row adds its sum to the grand total |
| ChiSquare.FixtureIndependence | hypothesis/chi2_test.go:40-55 | the test's 3×4 table passes every panic check, and its statistic, with expected counts row total·column total/650, is exactly 93231203/3794328 ≈ 24.5712, within the test's 0.1 of 24.57 |
| Descriptive.Mean | stat/descriptive.go:9-18 | the loop returns the average of the sample, 0 for an empty sample |
| Descriptive.Variance | stat/descriptive.go:21-32 | the loop returns the sample variance Σ(v − mean)²/(n − 1), 0 for fewer than two values, and the result is never negative |
| Descriptive.VarianceZero | stat/descriptive.go:21-32 | the sample variance is non-negative, and zero exactly when there are fewer than two values or all values are equal |
| Descriptive.StdDev | stat/descriptive.go:35-37 | the standard deviation is non-negative, squares to the sample variance, and is zero exactly when there are fewer than two values or all are equal |
| Descriptive.Least | stat/descriptive.go:82-93 | the least element is an element of the sample and no element is below it |
| Descriptive.Greatest | stat/descriptive.go:96-107 | the greatest element is an element of the sample and no element is above it |
| Descriptive.Min | stat/descriptive.go:82-93 | the scan returns the least element, 0 for an empty sample |
| Descriptive.Max | stat/descriptive.go:96-107 | the scan returns the greatest element, 0 for an empty sample |
| Descriptive.Range | stat/descriptive.go:76-79 | Max − Min: never negative, and zero exactly when all values are equal |
| Descriptive.Mode | stat/descriptive.go:56-73 | the result is an element of the sample that occurs at least as often as every other element, 0 for an empty sample, whatever order the frequency map is scanned in |
| Descriptive.AverageBetween | stat/descriptive.go:9-18 | the mean lies between the least and the greatest element |
| Descriptive.SumBetween | stat/descriptive.go:13-16 | a sum of n values in [lo, hi] lies in [n·lo, n·hi] |
| Descriptive.MiddleBetween | stat/descriptive.go:47-51 | the middle of a sorted sequence lies between its ends |
| Descriptive.Median | stat/descriptive.go:40-52 | 0 for an empty sample; otherwise the middle of the sorted copy, which lies between the least and the greatest element |
| Descriptive.MedianPermutation | stat/descriptive.go:45-46 | the median depends only on the values, not on their order |
| Descriptive.MedianSorted | stat/descriptive.go:40-52 | the median of an already sorted sample is its middle |
| Descriptive.MedianOfSlice | stat/descriptive.go:135-139 | the median of a slice of a sorted sequence lies between the slice's ends |
| Descriptive.MedianAroundMiddle | stat/descriptive.go:118-139 | the median of three or more sorted values lies between the last element of the lower half and the first of the upper half |
| Descriptive.MedianOfPrefix | stat/descriptive.go:135-138 | the median of a sorted prefix is at most its last element |
| Descriptive.MedianOfSuffix | stat/descriptive.go:136-139 | the median of a sorted suffix is at least its first element |
| Descriptive.Quartiles | stat/descriptive.go:109-143 | Q1 ≤ Q2 ≤ Q3 for every sample, and Q2 is the median |
| Descriptive.SortedQuartilesOrdered | stat/descriptive.go:118-142 | the quartiles read off a sorted copy are ordered |
| Descriptive.SortedSecondQuartile | stat/descriptive.go:118-142 | the second quartile read off a sorted copy is its middle, the median |
| Descriptive.QuartilesPermutation | stat/descriptive.go:115-116 | the quartiles depend only on the values, not on their order |
| Descriptive.QuartilesOne | stat/descriptive.go:123-125 | one value is every quartile |
| Descriptive.QuartilesTwo | stat/descriptive.go:127-132 | two values give the lower one, their mean and the higher one |
| Descriptive.SortedPair | stat/descriptive.go:127-132 | two values that sort to [a, b] give (a, (a + b)/2, b) |
| Descriptive.ZScore | stat/descriptive.go:147-156 | zero exactly when there are fewer than two values, no spread, or the value is the mean; otherwise z·sd = x − mean |
| Descriptive.Covariance | stat/descriptive.go:160-172 | the loop returns Σ(x − x̄)(y − ȳ)/(n − 1), 0 for unequal lengths or fewer than two values |
| Descriptive.CovarianceSelf | stat/descriptive.go:160-172 | the covariance of a sample with itself is its variance |
| Descriptive.CovarianceSymmetric | stat/descriptive.go:160-172 | the covariance does not depend on the order of the two samples |
| Descriptive.CovarianceOfLine | stat/descriptive.go:160-172 | the covariance of x with a·x + b is a times the variance of x |
| Descriptive.LineMeans | stat/descriptive.go:9-18 | the mean of a line's values is the line at the mean |
| Descriptive.FixtureCovariance | stat/descriptive_test.go:300-306 | x = 1..5 and y = 2x have covariance 5 |
| Descriptive.Pearson | stat/descriptive.go:176-186 | 0 on unequal lengths, fewer than two values or a sample without spread; otherwise r·sd_x·sd_y is the sample covariance |
| Descriptive.PearsonSelf | stat/descriptive.go:176-186 | a sample that varies has correlation 1 with itself |
| Descriptive.PowerSum | stat/descriptive.go:200-203 | the accumulator loop returns Σ ((v − mean)/sd)^k |
| Descriptive.Skewness | stat/descriptive.go:190-205 | the result is n/((n − 1)(n − 2))·Σz³, and 0 for fewer than three values or data without spread |
| Descriptive.SkewGuards | stat/descriptive.go:190-199 | the skewness is 0 for fewer than three values or data without spread |
| Descriptive.SkewValue | stat/descriptive.go:204 | past the guards the skewness is the factor times the summed cubes |
| Descriptive.Kurtosis | stat/descriptive.go:209-227 | the result is n(n + 1)/((n − 1)(n − 2)(n − 3))·Σz⁴ − 3(n − 1)²/((n − 2)(n − 3)), and 0 for fewer than four values or data without spread |
| Descriptive.KurtGuards | stat/descriptive.go:209-218 | the excess kurtosis is 0 for fewer than four values or data without spread |
| Descriptive.KurtValue | stat/descriptive.go:223-226 | past the guards the excess kurtosis is the first term times the summed fourth powers, less the correction |
| Descriptive.SquaredDeviationsStep | stat/descriptive.go:27-30 | one more value adds its squared deviation |
| Descriptive.DeviationProductsStep | stat/descriptive.go:168-170 | one more pair adds its product of deviations |
| Descriptive.PowersStep | stat/descriptive.go:201-203 | one more value adds its standardised power |
| Descriptive.LeastStep | stat/descriptive.go:87-91 | one more element replaces the least element exactly when it is smaller |
| Descriptive.GreatestStep | stat/descriptive.go:101-105 | one more element replaces the greatest element exactly when it is larger |
| LinearRegression.PredictY | regression/linear.go:62-64 | the value at x = 0 is the intercept, and a line with non-zero slope gives back x from its value |
| LinearRegression.Predictions | regression/linear.go:107-110 | one prediction per x, each the line at that x |
| LinearRegression.Fit | regression/linear.go:7-19 | invalid input (unequal or empty slices) gives (0, 0) |
| LinearRegression.Residuals | regression/linear.go:129-131 | one residual per point |
| LinearRegression.SpreadAround | regression/linear.go:37 | around a centre a with n·a = Σx, Σ(x − a)² = Σx² − n·a² |
| LinearRegression.DenominatorAround | regression/linear.go:37 | nΣx² − (Σx)² = n·Σ(x − a)² around the centre a with n·a = Σx |
| LinearRegression.DenominatorOfSpread | regression/linear.go:37 | the denominator is n times the spread, from the spread's closed form |
| LinearRegression.CrossOfSpread | regression/linear.go:37 | the arithmetic of `DenominatorOfSpread` on the accumulated sums |
| LinearRegression.DenominatorSpread | regression/linear.go:37 | the slope denominator is n times the spread of x about its mean |
| LinearRegression.NumeratorAround | regression/linear.go:42 | nΣxy − Σx·Σy = n·Σ(x − a)(y − b) for any a and the centre b with n·b = Σy |
| LinearRegression.NumeratorOfProducts | regression/linear.go:42 | the numerator is n times the co-spread, from the co-spread's closed form |
| LinearRegression.CrossOfProducts | regression/linear.go:42 | the arithmetic of `NumeratorOfProducts` on the accumulated sums |
| LinearRegression.NumeratorCoSpread | regression/linear.go:42 | the slope numerator is n times the co-spread of x and y about their means |
| LinearRegression.DenominatorZero | regression/linear.go:66-76 | the denominator is never negative, and it is zero exactly when every x is equal: the case `isZeroDenominator` detects |
| LinearRegression.SlopeCentred | regression/linear.go:22-43 | for varying x the slope is Σ(x − x̄)(y − ȳ)/Σ(x − x̄)², with a positive denominator |
| LinearRegression.SlopeAround | regression/linear.go:22-43 | around any centres a, b with n·a = Σx and n·b = Σy, the slope is Σ(x − a)(y − b)/Σ(x − a)² when that spread is positive |
| LinearRegression.SlopeOfSpreads | regression/linear.go:37-42 | the common factor n cancels from the slope's numerator and denominator |
| LinearRegression.ConstantX | regression/linear.go:12-15 | with every x equal the fit is (0, 0), whatever y is |
| LinearRegression.FitThroughMeans | regression/linear.go:7-19 | for varying x the fitted line passes through (x̄, ȳ) |
| LinearRegression.FlatFit | regression/linear.go:12-18 | a zero slope over varying x still computes the intercept, which is ȳ |
| LinearRegression.LineSum | regression/linear.go:31-32 | points on y = m·x + b have Σy = m·Σx + n·b |
| LinearRegression.LineDot | regression/linear.go:33-34 | points on y = m·x + b have Σxy = m·Σx² + b·Σx |
| LinearRegression.LineDotLast | regression/linear.go:33-34 | the induction step of `LineDot`: one more point on the line |
| LinearRegression.LineDotStep | regression/linear.go:33-34 | the arithmetic of that step |
| LinearRegression.CrossLine | regression/linear.go:37-42 | the numerator of a line's sums is m times the denominator, on the sums alone |
| LinearRegression.ExactNumerator | regression/linear.go:37-42 | points on y = m·x + b have slope numerator m times the denominator |
| LinearRegression.NumeratorOfSums | regression/linear.go:37-42 | the same, from Σxy and Σy of the line |
| LinearRegression.CrossOfLine | regression/linear.go:37-42 | the arithmetic of `NumeratorOfSums` |
| LinearRegression.ExactSlope | regression/linear.go:22-43 | points on y = m·x + b with varying x have slope m |
| LinearRegression.ExactIntercept | regression/linear.go:46-59 | points on y = m·x + b have intercept b given the slope m |
| LinearRegression.ExactLine | regression/linear.go:7-19 | points on a line with varying x are fitted by that very line |
| LinearRegression.MSEZero | regression/linear.go:79-91 | the mean squared error is never negative, and on valid input zero exactly when the predictions equal the observations |
| LinearRegression.RMSEZero | regression/linear.go:94-100 | the root mean squared error is never negative, squares to the MSE, and on valid input is zero exactly when the predictions are exact |
| LinearRegression.ExactLineEvaluate | regression/linear.go:103-113 | points on a line with varying x are fitted with zero error |
| LinearRegression.OnLine | regression/linear.go:62-64 | points on a line are their own predictions |
| LinearRegression.DeterminationBounds | regression/linear.go:117-140 | R² ≤ 1; 0 when y has no spread; otherwise 1 exactly when the line passes through every point |
| LinearRegression.SlopeSums | regression/linear.go:28-35 | the loop returns Σx, Σy, Σxy and Σx² |
| LinearRegression.CalculateSlope | regression/linear.go:22-43 | the result is the least-squares slope, 0 on invalid input or a zero denominator |
| LinearRegression.CalculateIntercept | regression/linear.go:46-59 | the result is (Σy − m·Σx)/n, 0 on invalid input |
| LinearRegression.IsZeroDenominator | regression/linear.go:68-76 | true exactly when nΣx² − (Σx)² = 0 |
| LinearRegression.SimpleLinearRegression | regression/linear.go:7-19 | the result is the least-squares fit, (0, 0) on invalid input or constant x |
| LinearRegression.MeanSquaredError | regression/linear.go:79-91 | the loop returns Σ(yTrue − yPred)²/n, 0 on invalid input |
| LinearRegression.RootMeanSquaredError | regression/linear.go:94-100 | the result is the square root of the mean squared error, 0 on invalid input |
| LinearRegression.EvaluateLinearRegression | regression/linear.go:103-113 | the predictions array is filled with the fitted line, and the result is their MSE against y |
| LinearRegression.RSquared | regression/linear.go:117-140 | the result is 1 − SSres/SStot, 0 on invalid input or when y has no spread |
| LinearRegression.SumsOfSquares | regression/linear.go:129-133 | the loop returns Σ(y − ȳ)² and the sum of squared residuals |
| LinearRegression.SquaresStep | regression/linear.go:130-132 | one more point adds its squared residual and its squared deviation |
| LinearRegression.FixtureSums | regression/linear_test.go:8-9 | x = 1..5, y = 2, 4, 5, 4, 5 have Σx = 15, Σy = 20, Σx² = 55, Σxy = 66 |
| LinearRegression.FixtureFit | regression/linear_test.go:7-20 | the fitted line is y = 0.6·x + 2.2 |
| LinearRegression.FixtureResiduals | regression/linear_test.go:7-20 | its residuals are −0.8, 0.6, 1, −0.6, −0.2, squares summing to 2.4 |
| LinearRegression.FixtureEvaluate | regression/linear_test.go:148-158 | the MSE of the fit is 0.48 |
| LinearRegression.FixtureDetermination | regression/linear_test.go:160-171 | R² of the fit is 0.6 |
| LinearRegression.FixtureMSE | regression/linear_test.go:118-127 | MSE([3, −0.5, 2, 7], [2.5, 0, 2, 8]) = 0.375 |
| LinearRegression.FixtureGuards | regression/linear_test.go:42-62 | constant x fits (0, 0), and PredictY(4, 2, 1) = 9 |
| Matrices.Column | regression/multiple.go:54 | column j has one entry per row, entry k being B[k][j] |
| Matrices.Identity | regression/multiple.go:104 | the n×n identity: ones on the diagonal, zeros elsewhere |
| Matrices.Transposed | regression/multiple.go:47-58 | the transpose has |A[0]| rows of |A| entries, row i being column i of A |
| Matrices.Product | regression/multiple.go:61-77 | the product has |A| rows of |B[0]| entries, entry (i, j) the inner product of row i of A with column j of B over k < |B| |
| Matrices.Apply | regression/multiple.go:80-92 | A·x has one entry per row, entry i the inner product of row i with x |
| Matrices.Transpose | regression/multiple.go:47-58 | the loops build the transpose (the same code is regression/models/ridge.go:84-95) |
| Matrices.InnerProduct | regression/multiple.go:69-72 | the innermost loop returns Σ_{k < p} u[k]·v[k] |
| Matrices.MatMul | regression/multiple.go:61-77 | the loops build the product (the same code is regression/models/ridge.go:97-113) |
| Matrices.MatVecMul | regression/multiple.go:80-92 | the loops build the matrix-vector product (the same computation is regression/models/ridge.go:115-124) |
| Matrices.TransposeInvolution | regression/multiple.go:47-58 | transposing a rectangular matrix twice gives it back |
| Matrices.ProductIdentityLeft | regression/multiple.go:61-77 | I·B = B |
| Matrices.ProductIdentityRight | regression/multiple.go:61-77 | A·I = A |
| Matrices.ApplyIdentity | regression/multiple.go:80-92 | I·x = x |
| Matrices.GramSymmetric | regression/multiple.go:23-24 | the Gram matrix XᵀX is symmetric |
| Matrices.RowCombination | regression/multiple.go:80-92 | p·G over q columns has entry l equal to p · column l |
| Matrices.DotApply | regression/multiple.go:80-92 | p·(G·b) = (p·G)·b |
| Matrices.RowCombinationLast | regression/multiple.go:80-92 | p·G splits into its first rows and its last row |
| Matrices.DotApplyStep | regression/multiple.go:80-92 | one induction step of `DotApply` |
| Matrices.CombinationSplit | regression/multiple.go:80-92 | (p·G)·b splits into its first |p| − 1 rows and the last one |
| Matrices.ApplicationSplit | regression/multiple.go:80-92 | p·(G·b) splits the same way |
| Matrices.ApplyLast | regression/multiple.go:80-92 | G·b is G without its last row applied to b, followed by the last row's product with b |
| Matrices.ApplyProduct | regression/multiple.go:30-31 | P·(G·b) = (P·G)·b, so β = (XᵀX)⁻¹(Xᵀy) is the product of the inverse and Xᵀ applied to y |
| Matrices.ApplyZero | regression/multiple.go:80-92 | a matrix sends the zero vector to the zero vector |
| Matrices.Apply3 | regression/multiple.go:80-92 | a 3×3 matrix applied to a vector, written out row by row |
| Matrices.Product3Row | regression/multiple.go:61-77 | a row of a 3×3 product, written out |
| Matrices.Product3Entry | regression/multiple.go:69-73 | an entry of a 3×3 product, written out |
| Matrices.Dot3Entries | regression/multiple.go:69-72 | a 3-entry inner product, written out |
| GaussJordan.Augment | regression/multiple.go:97-105 | [A \| I]: n rows of 2n entries, A on the left and the identity on the right |
| GaussJordan.ScaleRow | regression/multiple.go:113-115 | every entry of the row divided by the pivot |
| GaussJordan.SubtractRow | regression/multiple.go:118-121 | every entry of the row less f times the pivot row's entry |
| GaussJordan.PivotStep | regression/multiple.go:108-123 | step i divides row i by its diagonal entry, then subtracts from every other row its column-i entry times the new row i |
| GaussJordan.Eliminate | regression/multiple.go:108-124 | the steps keep the n×2n shape and fail only with the singular error |
| GaussJordan.RightBlock | regression/multiple.go:127-133 | the right-hand n columns, row by row |
| GaussJordan.Inverse | regression/multiple.go:95-135 | success gives an n×n matrix; failure is only the singular error |
| GaussJordan.Grid | regression/multiple.go:98-100 | the two-dimensional array read as a matrix of rows |
| GaussJordan.ScaleRowInPlace | regression/multiple.go:113-115 | row i of the array is divided by the pivot and nothing else changes |
| GaussJordan.SubtractRowInPlace | regression/multiple.go:116-122 | row k of the array loses f times row i and nothing else changes |
| GaussJordan.NewAugmented | regression/multiple.go:97-105 | a new n×2n array holding [A \| I] |
| GaussJordan.EliminateInPlace | regression/multiple.go:108-124 | the in-place loops succeed exactly when the elimination does, and then leave its result in the array |
| GaussJordan.ExtractRight | regression/multiple.go:126-133 | the copied-out matrix is the right-hand block of the array |
| GaussJordan.MatInverse | regression/multiple.go:95-135 | the result is `Inverse(A)`: the singular error at the first zero pivot, else the right-hand block after elimination (the same code is regression/models/ridge.go:126-163) |
| GaussJordan.DotScale | regression/multiple.go:113-115 | scaling every entry scales the inner product |
| GaussJordan.AugmentTracks | regression/multiple.go:97-105 | every row [L \| R] of [A \| I] satisfies R·A = L |
| GaussJordan.DotDivide | regression/multiple.go:113-115 | dividing every entry by p divides the inner product by p |
| GaussJordan.ScaledRowTracks | regression/multiple.go:113-115 | dividing a row by the pivot keeps R·A = L |
| GaussJordan.DotSubtract | regression/multiple.go:118-121 | subtracting f times one sequence subtracts f times its inner product |
| GaussJordan.SubtractedRowTracks | regression/multiple.go:116-122 | subtracting a multiple of the pivot row keeps R·A = L |
| GaussJordan.PivotStepTracks | regression/multiple.go:108-123 | a pivot step keeps R·A = L in every row |
| GaussJordan.PivotStepReduced | regression/multiple.go:108-123 | step i turns column i into the unit vector eᵢ and keeps the columns before it |
| GaussJordan.EliminateSound | regression/multiple.go:108-124 | a successful elimination ends with [I \| R] and R·A = I row by row |
| GaussJordan.InverseIsLeftInverse | regression/multiple.go:95-135 | whenever `matInverse` succeeds its result R satisfies R·A = I |
| GaussJordan.SingularExample | regression/multiple_test.go:74-83 | [[1, 2], [2, 4]] is reported singular |
| GaussJordan.NoRowExchange | regression/multiple.go:109-112 | without row exchanges the invertible [[0, 1], [1, 0]] (its own inverse) is reported singular |
| GaussJordan.SolveUnique | regression/multiple.go:95-135 | when the elimination succeeds, A·b = c forces b = inv·c, so the solution is unique |
| MultipleRegression.Design | regression/multiple.go:17-21 | one row per input row, a 1 prepended to each |
| MultipleRegression.OLS | regression/multiple.go:11-33 | empty X or len(y) ≠ len(X) gives the dimensions error; the only other error is the singular one; success gives one coefficient per feature plus the intercept |
| MultipleRegression.MultipleLinearRegression | regression/multiple.go:11-33 | the result is `OLS(X, y)`: Dᵀ, DᵀD, its inverse, and (DᵀD)⁻¹(Dᵀy) |
| MultipleRegression.Prepend | regression/multiple.go:18-21 | the loop builds the design matrix |
| MultipleRegression.PredictMultiple | regression/multiple.go:36-42 | β₀ + Σ βᵢ₊₁·xᵢ |
| MultipleRegression.OLSUnique | regression/multiple.go:23-32 | the coefficients solve the normal equations DᵀD β = Dᵀy uniquely |
| MultipleRegression.RankDeficientSingular | regression/multiple.go:25-28 | a design with a non-zero null vector (collinear features) is rejected as singular |
| MultipleRegression.GramSingular | regression/multiple.go:23-28 | elimination fails on DᵀD whenever D has a non-zero null vector |
| MultipleRegression.GramNull | regression/multiple.go:23-24 | a null vector of D is a null vector of DᵀD |
| MultipleRegression.TrivialKernel | regression/multiple.go:25 | a matrix with a left inverse sends only the zero vector to zero |
| MultipleRegression.PredictDesignRow | regression/multiple.go:36-42 | predicting a training row gives row i of D·β |
| MultipleRegression.IdenticalRowsRejected | regression/multiple_test.go:106-118 | two identical rows are rejected as singular |
| MultipleRegression.FixtureDesign | regression/multiple_test.go:25-30 | the fixture's design matrix and its transpose |
| MultipleRegression.FixtureGram | regression/multiple_test.go:25-30 | DᵀD for the fixture |
| MultipleRegression.FixtureInvertible | regression/multiple_test.go:25-37 | elimination on the fixture's DᵀD succeeds |
| MultipleRegression.FixtureRightHandSide | regression/multiple_test.go:25-33 | Dᵀy = (23, 52, 53), and (−1, 5/3, 8/3) solves the normal equations |
| MultipleRegression.FitFromNormalEquations | regression/multiple.go:23-32 | once DᵀD is invertible, any solution of the normal equations is the fit |
| MultipleRegression.FixtureCoefficients | regression/multiple_test.go:24-43 | the fixture is fitted by intercept −1 and slopes 5/3 and 8/3 |
| Ridge.Ridged | regression/models/ridge.go:58-61 | λ is added to diagonal entries 1, 2, …; the intercept's entry and every off-diagonal entry are unchanged |
| Ridge.CentredDesign | regression/models/ridge.go:26-52 | |X| rows of |X[0]| + 1 entries: a one, then the centred features |
| Ridge.RidgeFit | regression/models/ridge.go:9-82 | empty X or len(y) ≠ len(X) gives the dimensions error; the only other error is the singular one; success gives the intercept and one slope per feature |
| Ridge.AddRidge | regression/models/ridge.go:58-61 | the diagonal loop produces the penalised matrix |
| Ridge.AdjustIntercept | regression/models/ridge.go:74-79 | the loop returns yMean less each slope times its feature mean |
| Ridge.CentredSolve | regression/models/ridge.go:17-72 | the feature means, the mean of y, and the solve of the penalised centred normal equations (or the singular error) |
| Ridge.RidgeRegression | regression/models/ridge.go:9-82 | the result is `RidgeFit(X, y, λ)` |
| Ridge.RidgeThroughMeans | regression/models/ridge.go:74-79 | the fitted plane passes through the centroid: predicting at the feature means gives the mean of y |
| Ridge.RidgeUnique | regression/models/ridge.go:54-79 | the slopes are the unique solution of (DcᵀDc + λĨ) b = Dcᵀ yc, with the intercept rebuilt from the means |
| Ridge.RidgeCentringSums | regression/models/ridge.go:17-46 | every centred feature column and the centred response sum to zero |
| Ridge.RidgedZero | regression/models/ridge.go:58-61 | without a penalty the system is the plain centred normal system |
| Ridge.RidgeSingularFixture | regression/models/ridge_test.go:42-54 | two identical rows with λ = 0 are rejected as singular |
| Ridge.FixtureMeans | regression/models/ridge_test.go:7-12 | the fixture's feature means are (2, 2) and the mean of y is 23/3 |
| Ridge.FixtureCentring | regression/models/ridge_test.go:7-12 | the fixture's centred design |
| Ridge.FixtureRidgeTranspose | regression/models/ridge_test.go:7-12 | its transpose |
| Ridge.FixtureRidgeSystem | regression/models/ridge_test.go:7-13 | the penalised system for λ = 0.1 |
| Ridge.FixtureRidgeRightHandSide | regression/models/ridge_test.go:7-13 | Dcᵀ yc = (0, 6, 7), and (0, 560/341, 870/341) solves the penalised system |
| Ridge.FixtureRidgeInvertible | regression/models/ridge_test.go:7-13 | elimination on the penalised system succeeds |
| Ridge.RidgeFromSystem | regression/models/ridge.go:54-79 | any solution of the centred penalised system, with the rebuilt intercept, is the fit |
| Ridge.FixtureRidgeIntercept | regression/models/ridge_test.go:7-16 | the fixture's rebuilt intercept is −737/1023 |
| Ridge.RidgeFixture | regression/models/ridge_test.go:6-25 | the λ = 0.1 fit is exactly (−737/1023, 560/341, 870/341), within 0.01 of the expected (−0.7204, 1.6422, 2.5513) |
| Lasso.Residual | regression/models/lasso.go:26-33 | yc − Xc·b, one entry per row |
| Lasso.SoftThreshold | regression/models/lasso.go:41-47 | zero inside the band |ρ| ≤ λ/2; for a positive norm, negative exactly below the band and positive exactly above it |
| Lasso.ZeroNormZeroRho | regression/models/lasso.go:25-39 | a zero column has zero ρ, so the update never divides by a zero norm when λ ≥ 0 |
| Lasso.Step | regression/models/lasso.go:24-48 | one coordinate update keeps the number of coefficients |
| Lasso.Sweep | regression/models/lasso.go:24-48 | a sweep keeps the number of coefficients |
| Lasso.Sweeps | regression/models/lasso.go:23-49 | any number of sweeps keeps the number of coefficients |
| Lasso.LassoFit | regression/models/lasso.go:8-58 | empty X or len(y) ≠ len(X) gives the dimensions error, the only error; success gives the intercept and one coefficient per feature |
| Lasso.Coefficients | regression/models/lasso.go:16-49 | one coefficient per feature |
| Lasso.ResidualUpdate | regression/models/lasso.go:26-33 | setting coefficient j to t subtracts t times column j from the residual without it |
| Lasso.SquareExpansion | regression/models/lasso.go:24-48 | ½‖r − t·c‖² = ½‖r‖² − t⟨c, r⟩ + ½t²‖c‖² |
| Lasso.ExpansionStep | regression/models/lasso.go:24-48 | the arithmetic of that expansion |
| Lasso.AlongPenalty | regression/models/lasso.go:41-47 | the penalty adds (λ/2)|t| to the objective along a coordinate |
| Lasso.ObjectiveAlong | regression/models/lasso.go:24-48 | along coordinate j the objective is its value with b_j = 0 plus ½·norm·t² − ρ·t + (λ/2)|t| |
| Lasso.ResidualSquare | regression/models/lasso.go:26-39 | the squared residual with b_j = t, expanded |
| Lasso.PenaltyUpdate | regression/models/lasso.go:41-47 | the penalty with b_j = t is its value with b_j = 0 plus (λ/2)|t| |
| Lasso.ObjectiveUnfold | regression/models/lasso.go:24-48 | the objective is ½‖residual‖² plus the penalty |
| Lasso.ThresholdMinimises | regression/models/lasso.go:41-47 | the soft-threshold update minimises the objective along its coordinate |
| Lasso.ThresholdInside | regression/models/lasso.go:45-46 | inside the band zero is the minimiser |
| Lasso.ThresholdAbove | regression/models/lasso.go:43-44 | above the band (ρ − λ/2)/norm is the minimiser |
| Lasso.ThresholdBelow | regression/models/lasso.go:41-42 | below the band (ρ + λ/2)/norm is the minimiser |
| Lasso.AlongMirror | regression/models/lasso.go:41-44 | the objective along a coordinate is unchanged when ρ and t both change sign |
| Lasso.AboveThreshold | regression/models/lasso.go:43-44 | above the band the objective exceeds its value at the minimiser |
| Lasso.StepMinimises | regression/models/lasso.go:24-48 | one update gives the least objective over every value of coordinate j |
| Lasso.SweepDescends | regression/models/lasso.go:24-48 | a sweep never increases the objective ½‖yc − Xc b‖² + (λ/2)‖b‖₁ |
| Lasso.SweepsDescend | regression/models/lasso.go:23-49 | any number of sweeps never increases the objective |
| Lasso.NoSweeps | regression/models/lasso.go:21-57 | with maxIter ≤ 0 every feature coefficient is zero and the intercept is the mean of y |
| Lasso.LassoThroughMeans | regression/models/lasso.go:51-57 | valid input always succeeds, and the model passes through the point of means |
| Lasso.RhoAtZero | regression/models/lasso.go:25-34 | when every other coefficient is zero, ρ_j is the plain correlation of column j with yc |
| Lasso.SweepAtZero | regression/models/lasso.go:24-48 | when no feature correlates with yc by more than λ/2, a sweep leaves zero at zero |
| Lasso.ZeroFixedPoint | regression/models/lasso.go:23-49 | ... and so does any number of sweeps |
| Lasso.FixtureLargePenaltyData | regression/models/lasso_test.go:54-62 | the means and the centred data of the λ = 10 fixture |
| Lasso.FixtureLargePenaltyCorrelations | regression/models/lasso_test.go:54-62 | both centred features correlate with yc by 1/3, inside λ/2 = 5 |
| Lasso.FixtureLargePenaltySweeps | regression/models/lasso_test.go:54-62 | the centred fixture stays at zero under any number of sweeps |
| Lasso.FixtureLargePenalty | regression/models/lasso_test.go:54-72 | with λ = 10 both feature coefficients are exactly zero |
| Lasso.FixtureDecreasingData | regression/models/lasso_test.go:96-104 | the means and centred data of the decreasing fixture |
| Lasso.FixtureConstantStep | regression/models/lasso_test.go:96-104 | the constant feature centres to a zero column, whose update is 0 |
| Lasso.FixtureDecreasingStep | regression/models/lasso_test.go:96-104 | the second feature sees ρ = −200 and norm 200, giving −399/400 |
| Lasso.FixtureDecreasingSweep | regression/models/lasso_test.go:96-104 | a sweep lands on (0, −399/400) from any start |
| Lasso.SweepOfTwo | regression/models/lasso.go:24-48 | a sweep over two coefficients is two steps |
| Lasso.FixtureDecreasingSweeps | regression/models/lasso_test.go:96-104 | any positive number of sweeps from zero gives (0, −399/400) |
| Lasso.FixtureDecreasing | regression/models/lasso_test.go:96-116 | the fit is (799/20, 0, −399/400), so β₂ < 0 as the test expects |
| Lasso.PartialFit | regression/models/lasso.go:27-32 | the innermost loop returns the fit of a row from every coefficient but j |
| Lasso.RhoLoop | regression/models/lasso.go:25-34 | the loop returns ρ_j |
| Lasso.NormLoop | regression/models/lasso.go:36-39 | the loop returns the squared length of column j |
| Lasso.StepInPlace | regression/models/lasso.go:24-48 | the coefficient array afterwards holds one coordinate update of its old contents |
| Lasso.SweepInPlace | regression/models/lasso.go:24-48 | the coefficient array afterwards holds one sweep of its old contents |
| Lasso.LassoIntercept | regression/models/lasso.go:51-55 | the loop returns yMean less Σ βⱼ·meanⱼ |
| Lasso.Descend | regression/models/lasso.go:20-49 | a new array holding maxIter sweeps from zero (none when maxIter ≤ 0) |
| Lasso.CentredDescent | regression/models/lasso.go:16-49 | the feature coefficients, the feature means and the mean of y |
| Lasso.FitChecked | regression/models/lasso.go:14-57 | past the dimension check the result is the successful fit |
| Lasso.LassoRegression | regression/models/lasso.go:8-58 | the result is `LassoFit(X, y, λ, maxIter)` |
| Centering.ColumnMeans | regression/models/lasso.go:80-87 | one mean per column, each the average of that column |
| Centering.Centered | regression/models/lasso.go:89-95 | |X| rows of |means| entries, each entry less its column's mean |
| Centering.Total | regression/models/lasso.go:64-67 | the sum loop returns Σv |
| Centering.CenterVector | regression/models/lasso.go:62-75 | the mean of v and v with the mean subtracted |
| Centering.ColumnMeansLoop | regression/models/lasso.go:80-87 | the loop returns the column means |
| Centering.CenterLoop | regression/models/lasso.go:89-95 | the loop returns the centred matrix |
| Centering.CenterColumns | regression/models/lasso.go:77-97 | the column means and X with each column centred |
| Centering.ShiftSum | regression/models/lasso.go:70-73 | shifting every element by c changes the sum to Σ(v − c) |
| Centering.CenteredVectorSum | regression/models/lasso.go:62-75 | a vector centred on its mean sums to zero |
| Centering.CenteredColumnsSum | regression/models/lasso.go:77-97 | every column centred on its mean sums to zero |
| Sorting.Insert | stat/descriptive.go:45-46 | inserting into a sorted sequence keeps it sorted and adds exactly the one element |
| Sorting.Sort | stat/descriptive.go:45-46 | the sorted copy is ascending and a permutation of the input |
| Sorting.SortedUnique | stat/descriptive.go:45-46 | two ascending sequences with the same elements are equal, so the sorted copy is determined by the input's elements |
| Sorting.SortedHeads | stat/descriptive.go:45-46 | ascending rearrangements of one multiset start with the same, least, element |
| Sorting.SortedTails | stat/descriptive.go:45-46 | removing the common head keeps the multisets equal |
| Sorting.SortSorted | stat/descriptive.go:115-118 | sorting an already sorted sequence changes nothing, so `Median(sorted)` inside `Quartiles` sees the same sequence |
| Sorting.SortPermutation | stat/descriptive.go:45-46 | the sorted copy depends only on the elements, not on their order |
| Sorting.SortedEnds | stat/descriptive.go:45-51 | the first element of a sorted sequence is its least and the last its greatest |
| Sorting.SortedSlice | stat/descriptive.go:134-140 | a slice of a sorted sequence is sorted |
| Sums.AverageTimes | stat/descriptive.go:9-18 | n times the mean is the sum |
| Sums.AllEqualAverage | stat/descriptive.go:21-32 | every element equals the mean exactly when all elements are equal |
| Sums.SpreadZero | stat/descriptive.go:21-32 | Σ(v − mean)² is non-negative, and zero exactly when all elements are equal |
| Sums.DeviationProductsMean | stat/descriptive.go:160-172 | around a centre b with n·b = Σy, Σ(x − a)(y − b) = Σxy − b·Σx whatever a is |
| Sums.DeviationProductsCentred | stat/descriptive.go:160-172 | Σ(x − x̄)(y − ȳ) = Σxy − n·x̄·ȳ |
| Sums.LineDeviations | stat/descriptive.go:160-172 | for points with y − c = m·(x − a), Σ(x − a)(y − c) = m·Σ(x − a)² |
| Sums.Convex | stat/forecasting.go:16 | a convex combination of two values in [lo, hi] stays in [lo, hi] |

## Left out

- Floating point: rounding, overflow to ±Inf and NaN are not modelled,
  except for the NaN and infinite outcomes the source produces on purpose
  (the ANOVA degenerate paths and `factorial`'s overflow). Every property
  holds in exact arithmetic only.
- Fixture lemmas: the tests compare with tolerances. The lemmas state the
  exact values instead (for example 560/341 for the test's 1.6422).
- `math.Sqrt`, `math.Log`, `math.Exp` and `math.Erf` are not computed. No
  property that depends on their values, beyond the `Sound` facts, is
  claimed.
- `chiSquareCDF`, `gammaLowerIncomplete` and `gamma` (hypothesis/chi2.go:84-127)
  are not modelled. They are Lanczos and series approximations. The chi-square
  tests take the CDF as a parameter.
- ChiSquare.ChiSquareGoodnessOfFit: the p-value is not claimed to lie in
  [0, 1], because the CDF is a parameter.
- ChiSquare.ChiSquareTestOfIndependence: the p-value is not claimed to lie
  in [0, 1], for the same reason.
- Binomial.BinomialCoefficient: requires n ≤ 61. Up to that bound every
  intermediate product `result * (n - i)` fits in a 64-bit Go `int`. The
  wrap-around beyond it is not modelled.
- Binomial.BinomialPMF: the same bound on n applies.
- Binomial.BinomialCDF: the same bound on n applies.
- Poisson.Factorial: the largest finite float64 is the parameter `limit`,
  and a running product above it stands for `math.IsInf`. The panic
  becomes an `Err` result.
- Poisson.PoissonCDF: the sum is not claimed to be at most 1. That bound
  needs the series of e^λ, which the uninterpreted `exp` does not give.
- Anova.OneWayANOVA: requires every group to be non-empty. In Go an empty
  group makes its mean NaN, which the model does not propagate.
- Lasso.LassoRegression: requires λ ≥ 0. With a negative λ a constant
  feature column makes Go divide by a zero norm.
- Lasso.LassoFit: requires λ ≥ 0, for the same reason.
- Matrix rows: every row must be at least as long as the first one. The
  operations require this as `Wide`, because a shorter row makes the Go code
  index out of range. Longer rows are tolerated as in Go: only their first
  entries are read.
- `transpose` of an empty matrix panics in Go. Here it is excluded by a
  precondition, and the regression functions return their dimension error
  before reaching it.
- `sort.Float64s` is library code. The model uses the sorted rearrangement,
  given as insertion sort. Any correct sort yields the same sequence
  (`Sorting.SortedUnique`).
- `Mode` scans a Go map, whose iteration order is unspecified. The model
  picks the keys in an arbitrary order and proves the result for every
  order. Which of several tied values is returned is not determined. The
  comment at stat/descriptive.go:54-55 says the first mode is returned, but
  the map scan gives no such guarantee, so the model does not promise it.
- `TestResult.Err` is not modelled. No test sets it.
- Tests that expect `BinomialPMF` and `BinomialCDF` to return 0 on invalid
  input contradict the code, which panics. The model follows the code.
  The tests of `BinomialQuantile` concern a function that is not part of
  this model.
- Not part of this model:
  - probability/normal.go and probability/exponential.go: a guard and one
    `math.Exp` or `math.Erf` call each;
  - montecarlo/pi.go: random sampling with goroutines;
  - statistical.go and analytics.go: forwarding wrappers;
  - examples/: demonstration programs.
