# Difference-in-differences simulator and A/B sample-size calculator, modelled in Dafny

This project models the computational core of a small causal-inference
teaching repository:

- **the current panel simulator** `simulate` (methods/diff_in_diff/did.py),
  module `Simulation`. It assigns `int(N * treat_ratio)` of `N` units to
  treatment and shuffles the vector in place. It then cross-merges the units
  with the five periods -3..1 and builds the outcome column one vectorised
  update at a time: group baseline, unit effect, group trend, period effect,
  treatment effect on treated post-treatment rows, noise;
- **the legacy simulator** `simulate` (simulate/simulate.py, repeated word for
  word in the notebook did_simulation.py), module `LegacySimulation`. It
  splits the units 50/50 with `np.repeat`, has no unit or period effects, and
  takes an unused parameter `R`;
- **the row selections made before each regression** (module `Panels`):
  - `estimate_did` and the notebook's `estimate` keep periods {0, 1};
  - `placebo_test` keeps {-1, 0} and relabels period 0 as the pretend post
    period;
  - the notebook's `placebo_test` keeps every period up to 0;
- **numpy's in-place shuffle** (module `Shuffling`), as a method on an array
  proved against a specification function;
- **the arithmetic of `means_plot`** (module `Coefficients`): the four group
  means and the counterfactual read off the regression coefficients;
- **`calculate_sample_size` and `calculate_test_length`**
  (methods/ab_testing/ab_testing.py), module `SampleSize`. Validation runs in
  order, the unrounded total comes from two normal quantiles, and each
  group's share is rounded up. IEEE infinities and NaN are modelled (module
  `Floats`), so the inputs for which Python fails at `int()` are error
  results, not preconditions.

Random draws are inputs:
- the shuffle's swap partners (`swaps[i] <= i`, one Fisher–Yates step per
  position from the last down to 1);
- standard normal values, which the model scales as numpy does
  (`loc + scale * z`).

A panel of `N` units is a sequence of `5 * N` rows in unit-major order: row
`r` is unit `r / 5` at period `r % 5 - 3`.

The code raises no configuration error of its own. did.py's `simulate` fails only
where numpy does: on a negative array length (`np.ones`/`np.zeros` of a negative
`int(N * treat_ratio)` or `N - n_treated`) and on a negative noise scale. It
accepts `treat_ratio = 0` or `N = 1` and returns a panel with an empty group.

## Model

| member | source | states |
|---|---|---|
| Simulation.Simulate | methods/diff_in_diff/did.py:21-119 | a negative group size fails with NegativeLength, then a negative noise scale with NegativeScale; otherwise the result is the simulated panel of the shuffled treatment vector |
| Simulation.AssignTreatment | methods/diff_in_diff/did.py:55-59 | the vector of ones then zeros, shuffled in place, is the specified treatment vector |
| Simulation.BuildPanel | methods/diff_in_diff/did.py:62-117 | the cross merge, the two effect merges and the outcome column give exactly the specified panel, or NegativeScale for a negative noise scale |
| Simulation.MergeColumns | methods/diff_in_diff/did.py:62-108 | the cross merge and the unit- and period-effect merges give every unit one row per period -3..1, carrying the unit's treatment and drawn effect and the period's post indicator and drawn effect |
| Simulation.OutcomeColumn | methods/diff_in_diff/did.py:88-117 | the successive column updates give every row the outcome baseline + unit effect + group trend × period + period effect + effect × treat × post indicator + noise |
| Simulation.TreatVector | methods/diff_in_diff/did.py:58-59 | the treatment vector has one entry per unit |
| Simulation.SimulatedPanel | methods/diff_in_diff/did.py:62-117 | the panel has five rows per unit |
| Simulation.TreatmentCounts | methods/diff_in_diff/did.py:55-59 | exactly `int(N * treat_ratio)` units are treated, the other `N - n_treated` are controls, and every entry is 0 or 1 |
| Simulation.SimulatedPanelShape | methods/diff_in_diff/did.py:54-71 | the data frame is the cross merge of units 0..N-1 with periods -3..1, with the post indicator on period 1 only |
| Simulation.SharedEffects | methods/diff_in_diff/did.py:76-111 | rows of one unit share its treatment and baseline effect; rows of one period share its period effect |
| Simulation.CellOfPanel | methods/diff_in_diff/did.py:54-117 | the row of unit u at period p holds the unit's treatment and drawn effect, the period's drawn effect and the outcome term by term |
| Simulation.PanelCell | methods/diff_in_diff/did.py:54-117 | the panel has its periods in place, and the row of unit u at period p is the specified cell |
| Simulation.EffectOnlyOnTreatedPost | methods/diff_in_diff/did.py:114 | the treatment effect changes the outcome of treated units in period 1 only, by exactly its size, and changes no other column |
| Simulation.NoiselessContrast | methods/diff_in_diff/did.py:88-114 | without noise, the difference in differences between a treated and a control unit is the trend gap times the period gap plus the effect when only the later period is post-treatment |
| Simulation.TrendGap | methods/diff_in_diff/did.py:95-96 | between two periods the treated trend gains on the control trend by the period gap times the difference of slopes |
| Simulation.CellContrast | methods/diff_in_diff/did.py:88-114 | cell by cell, without noise, the difference in differences is the trend gap plus the effect when only the later period is post-treatment |
| Simulation.EstimationRows | methods/diff_in_diff/did.py:140 | `estimate_did` regresses on periods 0 and 1 of every unit, two rows per unit, unchanged |
| Simulation.PlaceboRows | methods/diff_in_diff/did.py:165-166 | `placebo_test` regresses on periods -1 and 0 of every unit, with the time indicator set on period 0 only |
| Simulation.PlaceboBlindToEffect | methods/diff_in_diff/did.py:165-166 | the placebo regression's rows do not depend on the treatment effect |
| Shuffling.Repeat | methods/diff_in_diff/did.py:58 | `np.ones`/`np.zeros`/`np.repeat` give `n` copies of one value and nothing else |
| Shuffling.Shuffle | methods/diff_in_diff/did.py:59 | the in-place Fisher–Yates pass leaves the array holding the specified shuffle of its old contents |
| Shuffling.ShuffledPermutes | methods/diff_in_diff/did.py:59 | the shuffle is a permutation |
| Shuffling.ShuffledCounts | methods/diff_in_diff/did.py:58-59 | a shuffled vector of ones and zeros keeps both counts and holds nothing else |
| Panels.PostIndicator | methods/diff_in_diff/did.py:71 | the indicator is 1 exactly on period 1 and 0 elsewhere |
| Panels.OneRowPerCell | methods/diff_in_diff/did.py:68 | the cross merge has exactly one row per unit and period: index 5u + p + 3 holds unit u at period p, and no other index does |
| Panels.FilterMembers | methods/diff_in_diff/did.py:140 | a period mask keeps the rows that pass it and no others |
| Panels.RelabelPlacebo | methods/diff_in_diff/did.py:166 | the relabelled row has time indicator 1 exactly on period 0 and is otherwise unchanged |
| Panels.PlaceboMembers | methods/diff_in_diff/did.py:165-166 | on any table, the placebo rows are exactly its rows of periods -1 and 0 with only the time indicator rewritten, which is then 1 exactly on period 0 |
| Panels.EstimationWindowOfPanel | methods/diff_in_diff/did.py:140 | on a panel the {0, 1} selection has two rows per unit, periods 0 then 1, columns unchanged, and holds exactly the panel's rows of those periods |
| Panels.PlaceboWindowOfPanel | methods/diff_in_diff/did.py:165-166 | on a panel the placebo selection has two rows per unit, periods -1 then 0, with only the indicator rewritten |
| Panels.PreTreatmentWindowOfPanel | did_simulation.py:196 | on a panel the `time_period <= 0` selection has four rows per unit, periods -3..0, exactly the panel's rows up to period 0, none with the post indicator |
| Panels.FilterIgnoresDropped | methods/diff_in_diff/did.py:140 | two tables that differ only on rows a period mask drops give the same selection |
| Rounding.Trunc | methods/diff_in_diff/did.py:55 | `int()` truncates toward zero: the result lies within one of its argument, on the zero side |
| Rounding.Ceil | methods/ab_testing/ab_testing.py:47-48 | `np.ceil` gives the least integer not below its argument |
| Rounding.CeilMinusInt | methods/ab_testing/ab_testing.py:48 | rounding up commutes with subtracting a whole number |
| LegacySimulation.LegacySimulate | simulate/simulate.py:6-43 | a negative `N` fails with NegativeLength, an odd `N` with LengthMismatch, then a negative noise scale with NegativeScale; otherwise the result is the legacy panel of the shuffled 50/50 vector |
| LegacySimulation.BuildLegacyPanel | simulate/simulate.py:14-41 | the cross merge and the outcome column give exactly the legacy panel, or NegativeScale |
| LegacySimulation.LegacyMergeColumns | simulate/simulate.py:14-23 | the cross merge gives every unit one row per period -3..1, carrying the unit's treatment and the period's post indicator |
| LegacySimulation.LegacyOutcomeColumn | simulate/simulate.py:28-41 | the column updates give every row baseline + group trend × period + effect × treat × post indicator + noise |
| LegacySimulation.Half | simulate/simulate.py:11 | `np.floor(N/2)` is the whole half of `N` |
| LegacySimulation.LegacyTreatVector | simulate/simulate.py:11-12 | the shuffled vector has one entry per unit |
| LegacySimulation.LegacyPanel | simulate/simulate.py:14-23 | the legacy panel has five rows per unit |
| LegacySimulation.LegacyTreatmentCounts | simulate/simulate.py:11-12 | exactly half the units are treated and half are controls, every entry 0 or 1 |
| LegacySimulation.LegacyPanelShape | simulate/simulate.py:9-23 | the legacy data frame is the cross merge of units 0..N-1 with periods -3..1, with the post indicator on period 1 only |
| LegacySimulation.LegacyCellOfPanel | did_simulation.py:32-63 | the legacy data frame is a panel, and the row of unit u at period p holds the unit's treatment and the outcome term by term |
| LegacySimulation.LegacyIsCurrentWithoutEffects | simulate/simulate.py:28-38 | the legacy outcome is the current simulator's outcome with zero unit and period effects |
| LegacySimulation.IgnoresR | simulate/simulate.py:6 | the parameter `R` changes neither the treatment vector nor the panel |
| LegacySimulation.LegacyNoiselessGroups | simulate/simulate.py:28-38 | without noise, all units of one group share one outcome per period |
| LegacySimulation.LegacyNoiselessContrast | simulate/simulate.py:28-38 | without noise, the difference in differences is the trend gap times the period gap plus the effect when only the later period is post-treatment |
| LegacySimulation.LegacyCellContrast | simulate/simulate.py:28-38 | cell by cell, without noise, the legacy difference in differences is the current simulator's contrast with no unit or period effects |
| LegacySimulation.NotebookEstimationRows | did_simulation.py:124 | the notebook's `estimate` regresses on periods 0 and 1 of every unit, two rows per unit, unchanged |
| LegacySimulation.NotebookPlaceboRows | did_simulation.py:196 | the notebook's placebo regression sees periods -3..0 of every unit, four rows per unit, unchanged |
| LegacySimulation.NotebookPlaceboUntreated | did_simulation.py:196 | none of the notebook's placebo rows carries the post indicator |
| LegacySimulation.NotebookPlaceboBlindToEffect | did_simulation.py:196 | the notebook's placebo rows do not depend on the treatment effect |
| Coefficients.MeansFromCoefficients | methods/diff_in_diff/did.py:319-328 | each plotted mean is the regression's fitted value of its cell, and the counterfactual is the treated post value without the interaction |
| Coefficients.MeansReadOff | did_simulation.py:134-145 | the time coefficient is the control group's change, the treat coefficient the pre-period gap, the interaction the gap between treated post and counterfactual and the difference in differences of the four means |
| Coefficients.CoefficientsRoundTrip | methods/diff_in_diff/did.py:319-328 | the coefficients are recovered from the plotted means |
| Coefficients.MeansRoundTrip | did_simulation.py:141-145 | four means whose counterfactual follows the control group's change are recovered from their coefficients |
| SampleSize.Validate | methods/ab_testing/ab_testing.py:31-41 | alpha, power, variance and ratio are checked in that order, each failure with its own error, and validation passes exactly on in-range inputs |
| SampleSize.CalculateSampleSize | methods/ab_testing/ab_testing.py:5-55 | a validation failure is returned unchanged, and on success the total is the sum of the two groups |
| SampleSize.SucceedsExactly | methods/ab_testing/ab_testing.py:31-48 | sizes are returned exactly when validation passes, alpha > 0, 0 < power < 1 and delta ≠ 0; otherwise `int()` meets an infinity or NaN |
| SampleSize.DenominatorPositive | methods/ab_testing/ab_testing.py:46 | `ratio * (1 - ratio) * delta**2` is positive for a valid ratio and a non-zero delta |
| SampleSize.FiniteTotal | methods/ab_testing/ab_testing.py:43-46 | for those inputs the unrounded total is the finite, non-negative real quotient |
| SampleSize.ShareRounding | methods/ab_testing/ab_testing.py:47-51 | the rounded-up treated share and the rounded-up remainder are non-negative and add up to the total rounded up |
| SampleSize.RoundedShares | methods/ab_testing/ab_testing.py:47-48 | on a finite total the two roundings return the ceilings of the share and of the remainder |
| SampleSize.RoundsUp | methods/ab_testing/ab_testing.py:46-53 | on success each group size is its share rounded up, the total is the unrounded total rounded up, and none is negative |
| SampleSize.CalculateTestLength | methods/ab_testing/ab_testing.py:82 | the stub fails with NotImplemented for every input |
| Floats.NormPpf | methods/ab_testing/ab_testing.py:43-44 | the quantile is finite exactly inside (0, 1), -inf at 0, +inf at 1 and NaN outside |
| Floats.Add | methods/ab_testing/ab_testing.py:46 | finite sums are exact; NaN exactly when an operand is NaN or infinities of opposite sign meet |
| Floats.Mul | methods/ab_testing/ab_testing.py:46 | finite products are exact; NaN exactly when an operand is NaN or an infinity meets zero; finite exactly when both operands are |
| Floats.Div | methods/ab_testing/ab_testing.py:46 | division by a non-zero divisor is exact; a zero divisor gives an infinity, or NaN for a zero or NaN dividend |
| Floats.Square | methods/ab_testing/ab_testing.py:46 | squares are exact, an infinity squares to +inf, NaN stays NaN |
| Floats.Sub | methods/ab_testing/ab_testing.py:48 | finite differences are exact, and the difference is finite exactly when both operands are |
| Floats.CeilF | methods/ab_testing/ab_testing.py:47-48 | `np.ceil` rounds finite values up and leaves infinities and NaN alone |
| Floats.ToInt | methods/ab_testing/ab_testing.py:47-48 | `int()` truncates finite values toward zero and fails with Overflow on an infinity, NotANumber on NaN |

## Left out

- The regressions themselves: ordinary least squares with HC2 standard errors
  (`smf.ols(...).fit(cov_type='HC2')`) in `estimate_did`, `placebo_test` and
  the notebook's `estimate` and `placebo_test`. The model covers the rows each
  regression is given and the arithmetic `means_plot` does on its
  coefficients, not the fit. This includes the notebook placebo formula
  `treat*time_period`.
- numpy's generator and the fixed seed `np.random.seed(1)`. Draws are inputs,
  and `DrawsFit`/`LegacyDrawsFit` require them to have the sizes the code asks
  for.
- `scipy.stats.norm.ppf` on (0, 1) is a parameter `ppf`. Only its behaviour at
  and outside the endpoints is modelled.
- Floating point: finite values are exact reals, with no rounding and no
  overflow of a finite computation to infinity.
- Floats.ToInt: a finite float beyond the integer range is not distinguished.
  Python converts any finite float, so this loses nothing.
- SampleSize.CalculateSampleSize: NaN and infinite inputs are not modelled
  (the inputs are reals). Python's comparisons with NaN would let a NaN
  through validation. An infinite `delta` makes `delta**2` infinite. When
  `alpha > 0`, `0 < power < 1` and `variance` is finite, the numerator is
  finite, so the unrounded total is 0.0 and the result is {0, 0, 0}. Otherwise
  (`alpha = 0`, `power` of 0 or 1, or an infinite `variance`) the numerator
  is infinite or NaN, the total is NaN, and `int()` raises. An infinite
  `variance` passes validation and always makes the unrounded total infinite
  or NaN, so `int()` raises. Exception messages are not modelled
  either.
- Row order of pandas merges: the model fixes unit-major order (row `r` is
  unit `r / 5` at period `r % 5 - 3`). Before pandas 2.2, the inner merge on
  `time_period` in did.py returns the rows grouped by period, so the frame
  `simulate` returns, and the selections `estimate_did` and `placebo_test`
  make from it, are period-major. Only the set of rows, and every column
  except the pairing of noise draws with rows, is the same in every pandas
  version. The positional statements (`IsPanel`, `At`, `SimulatedPanelShape`,
  the `Slot` positions of `EstimationRows` and `PlaceboRows`) describe did.py
  under pandas 2.2 and later only. The legacy simulator merges only across,
  so its frame is unit-major in every version.
- The default argument values of both `simulate` functions (did.py:
  `b0_treat=10, b0_control=40, b1_treat=4, b1_control=4, treatment_effect=8,
  noise=3, N=500, treat_ratio=0.3`; the legacy simulator the same with `R=100`
  instead of `treat_ratio`): every parameter is given explicitly in the
  model. `calculate_sample_size` has no defaults.
- The `treat` column's dtype: did.py builds it from `np.ones`/`np.zeros` as
  floats, the legacy simulator as integers. The model uses the integers 0 and 1
  for both.
- `np.repeat` with the float count `np.floor(N/2)` is taken as its integer
  value.
- Plotting (`means_plot` figures, `plot_*` helpers), the Streamlit app pages,
  estimate/estimate.py and the remaining notebook cells.
