/** The legacy `simulate` of simulate/simulate.py, which the notebook
    did_simulation.py repeats word for word: a 50/50 split by `np.repeat`, no
    unit or period effects, and an unused parameter `R`. */
module LegacySimulation {
  import opened Results
  import opened Shuffling
  import opened Panels
  import Simulation

  /** The parameters of the legacy `simulate`; `r` is accepted and unused. */
  datatype LegacyConfig = LegacyConfig(
    b0Treat: real, b0Control: real, b1Treat: real, b1Control: real,
    treatmentEffect: real, noise: real, n: int, r: int)

  /** The generator's output: the shuffle's swap partners and one standard
      normal value per row. */
  datatype LegacyDraws = LegacyDraws(swaps: seq<nat>, rowDraws: seq<real>)

  /** What numpy and pandas raise: a negative repeat count, a `treat` column
      shorter than `unit`, or a negative scale. */
  datatype LegacyError = NegativeLength | LengthMismatch | NegativeScale

  /** `np.floor(N/2)` for a non-negative `N`. */
  function Half(n: nat): (h: nat)
    ensures 2 * h <= n < 2 * h + 2
  {
    n / 2
  }

  /** An `N` for which the data frame can be built. */
  predicate Buildable(c: LegacyConfig) {
    c.n >= 0 && 2 * Half(c.n) == c.n
  }

  /** Draws of the sizes the code asks for. */
  predicate LegacyDrawsFit(c: LegacyConfig, d: LegacyDraws) {
    Buildable(c) ==> ValidSwaps(d.swaps, c.n) && |d.rowDraws| == 5 * c.n
  }

  /** `np.repeat([0, 1], np.floor(N/2))` after `np.random.shuffle`. */
  function LegacyTreatVector(c: LegacyConfig, d: LegacyDraws): (t: seq<int>)
    requires Buildable(c) && LegacyDrawsFit(c, d)
    ensures |t| == c.n
  {
    Shuffled(Repeat(0, Half(c.n)) + Repeat(1, Half(c.n)), d.swaps)
  }

  /** The outcome of one row, term by term: group baseline, group trend times
      period, treatment effect on treated post-treatment rows, noise. */
  function LegacyOutcome(c: LegacyConfig, treat: int, period: int, timeIndicator: int, noise: real): real {
    (if treat == 1 then c.b0Treat else c.b0Control)
    + (if treat == 1 then period as real * c.b1Treat
       else if treat == 0 then period as real * c.b1Control
       else 0.0)
    + c.treatmentEffect * treat as real * timeIndicator as real + noise
  }

  /** The row of unit `u` at period `p`, given the shuffled treatment vector
      `t`: the unit's treatment, the post indicator and the outcome with that
      row's noise. */
  function LegacyCell(c: LegacyConfig, t: seq<int>, d: LegacyDraws, u: int, p: int): Row
    requires Buildable(c) && |t| == c.n && LegacyDrawsFit(c, d)
    requires 0 <= u < c.n && FirstPeriod <= p <= PostPeriod
  {
    LegacyRow(u, t[u], p, PostIndicator(p),
              LegacyOutcome(c, t[u], p, PostIndicator(p), c.noise * d.rowDraws[5 * u + p - FirstPeriod]))
  }

  /** Row `r` of the legacy panel: unit `r / 5` at period `r % 5 - 3`. */
  function LegacyPanelRow(c: LegacyConfig, t: seq<int>, d: LegacyDraws, r: int): Row
    requires Buildable(c) && |t| == c.n && LegacyDrawsFit(c, d)
    requires 0 <= r < 5 * c.n
  {
    LegacyCell(c, t, d, r / 5, r % 5 + FirstPeriod)
  }

  /** The panel the legacy `simulate` returns for treatment vector `t`. */
  function LegacyPanel(c: LegacyConfig, t: seq<int>, d: LegacyDraws): (rows: seq<Row>)
    requires Buildable(c) && |t| == c.n && LegacyDrawsFit(c, d)
    ensures |rows| == 5 * c.n
  {
    seq(5 * c.n, r requires 0 <= r < 5 * c.n => LegacyPanelRow(c, t, d, r))
  }

  /** The legacy `simulate`: the errors in the order the code meets them, then
      the panel. */
  method LegacySimulate(c: LegacyConfig, d: LegacyDraws) returns (result: Result<seq<Row>, LegacyError>)
    requires LegacyDrawsFit(c, d)
    ensures c.n < 0 ==> result == Err(NegativeLength)
    ensures c.n >= 0 && !Buildable(c) ==> result == Err(LengthMismatch)
    ensures Buildable(c) && c.noise < 0.0 ==> result == Err(NegativeScale)
    ensures Buildable(c) && c.noise >= 0.0 ==>
      result == Ok(LegacyPanel(c, LegacyTreatVector(c, d), d))
  {
    if c.n < 0 {
      return Err(NegativeLength);
    }
    var h := Half(c.n);
    if 2 * h != c.n {
      return Err(LengthMismatch);
    }
    var treat := ShuffleArrayOf(Repeat(0, h) + Repeat(1, h), d.swaps);
    result := BuildLegacyPanel(c, treat, d);
  }

  /** The cross merge with the five periods and the outcome column of the
      legacy `simulate`, for the shuffled treatment vector `t`. */
  method BuildLegacyPanel(c: LegacyConfig, t: seq<int>, d: LegacyDraws) returns (result: Result<seq<Row>, LegacyError>)
    requires Buildable(c) && |t| == c.n && LegacyDrawsFit(c, d)
    ensures c.noise < 0.0 ==> result == Err(NegativeScale)
    ensures c.noise >= 0.0 ==> result == Ok(LegacyPanel(c, t, d))
  {
    var rows := 5 * c.n;
    var treatCol, periodCol, indicatorCol := LegacyMergeColumns(c, t);
    if c.noise < 0.0 {
      return Err(NegativeScale);
    }
    var noiseCol := seq(rows, r requires 0 <= r < rows => c.noise * d.rowDraws[r]);
    var o := LegacyOutcomeColumn(c, treatCol, periodCol, indicatorCol, noiseCol);
    var panel := seq(rows, r requires 0 <= r < rows =>
      LegacyRow(r / 5, treatCol[r], periodCol[r], indicatorCol[r], o[r]));
    forall r | 0 <= r < rows
      ensures panel[r] == LegacyPanelRow(c, t, d, r)
    {
      var u, p := r / 5, r % 5 + FirstPeriod;
      RowIndex(r, c.n);
      LegacyRowOfColumns(c, t, d, u, p, treatCol[r], periodCol[r], indicatorCol[r], o[r]);
    }
    assert panel == LegacyPanel(c, t, d);
    return Ok(panel);
  }

  /** One row assembled from the merged columns is unit `u`'s cell at
      period `p`. */
  lemma LegacyRowOfColumns(c: LegacyConfig, t: seq<int>, d: LegacyDraws, u: int, p: int,
                           treat: int, period: int, timeIndicator: int, outcome: real)
    requires Buildable(c) && |t| == c.n && LegacyDrawsFit(c, d)
    requires 0 <= u < c.n && FirstPeriod <= p <= PostPeriod
    requires treat == t[u] && period == p && timeIndicator == PostIndicator(p)
    requires outcome == LegacyOutcome(c, treat, period, timeIndicator, c.noise * d.rowDraws[Position(u, p)])
    ensures LegacyRow(u, treat, period, timeIndicator, outcome) == LegacyCell(c, t, d, u, p)
  {
  }

  /** The cross merge of the units with the periods -3..1: each unit has one
      row per period, at `Position(u, p)`, carrying the unit's treatment and
      the period's indicator. */
  method LegacyMergeColumns(c: LegacyConfig, t: seq<int>)
    returns (treatCol: seq<int>, periodCol: seq<int>, indicatorCol: seq<int>)
    requires Buildable(c) && |t| == c.n
    ensures |treatCol| == |periodCol| == |indicatorCol| == 5 * c.n
    ensures forall u, p :: 0 <= u < c.n && FirstPeriod <= p <= PostPeriod ==>
      Position(u, p) < 5 * c.n &&
      treatCol[Position(u, p)] == t[u] && periodCol[Position(u, p)] == p &&
      indicatorCol[Position(u, p)] == PostIndicator(p)
  {
    var rows := 5 * c.n;
    treatCol := seq(rows, r requires 0 <= r < rows => t[r / 5]);
    periodCol := seq(rows, r => r % 5 + (-3));
    indicatorCol := seq(rows, r requires 0 <= r < rows => PostIndicator(periodCol[r]));
    forall u, p | 0 <= u < c.n && FirstPeriod <= p <= PostPeriod
      ensures Position(u, p) < rows && periodCol[Position(u, p)] == p && treatCol[Position(u, p)] == t[u]
    {
      CellIndex(u, p);
    }
  }

  /** `df['outcome']`, one vectorised column assignment after another: the
      group baseline, the two masked trend updates, the treatment effect, then
      the noise. Row by row the result is `LegacyOutcome`. */
  method LegacyOutcomeColumn(c: LegacyConfig, treatCol: seq<int>, periodCol: seq<int>,
                             indicatorCol: seq<int>, noiseCol: seq<real>)
    returns (o: seq<real>)
    requires |periodCol| == |indicatorCol| == |noiseCol| == |treatCol|
    ensures |o| == |treatCol|
    ensures forall r :: 0 <= r < |o| ==>
      o[r] == LegacyOutcome(c, treatCol[r], periodCol[r], indicatorCol[r], noiseCol[r])
  {
    var rows := |treatCol|;
    var baseline := seq(rows, r requires 0 <= r < rows => if treatCol[r] == 1 then c.b0Treat else c.b0Control);
    var withTreatTrend := seq(rows, r requires 0 <= r < rows =>
      if treatCol[r] == 1 then baseline[r] + periodCol[r] as real * c.b1Treat else baseline[r]);
    var withTrend := seq(rows, r requires 0 <= r < rows =>
      if treatCol[r] == 0 then withTreatTrend[r] + periodCol[r] as real * c.b1Control else withTreatTrend[r]);
    var withEffect := seq(rows, r requires 0 <= r < rows =>
      withTrend[r] + c.treatmentEffect * treatCol[r] as real * indicatorCol[r] as real);
    o := seq(rows, r requires 0 <= r < rows => withEffect[r] + noiseCol[r]);
  }

  // ---------------------------------------------------------------------
  // What the legacy panel promises
  // ---------------------------------------------------------------------

  /** Exactly half the units are treated and half are controls. */
  lemma LegacyTreatmentCounts(c: LegacyConfig, d: LegacyDraws)
    requires Buildable(c) && LegacyDrawsFit(c, d)
    ensures multiset(LegacyTreatVector(c, d))[1] == c.n / 2
    ensures multiset(LegacyTreatVector(c, d))[0] == c.n / 2
    ensures forall u :: 0 <= u < c.n ==> LegacyTreatVector(c, d)[u] == 0 || LegacyTreatVector(c, d)[u] == 1
  {
    var h := Half(c.n);
    var lead := Repeat(0, h) + Repeat(1, h);
    var t := Shuffled(lead, d.swaps);
    assert t == LegacyTreatVector(c, d);
    ShuffledCounts(h, h, lead, d.swaps);
    forall u | 0 <= u < c.n
      ensures t[u] == 0 || t[u] == 1
    {
      assert t[u] in {0, 1};
    }
  }

  /** Unit `u`'s row at period `p` of the legacy panel is `LegacyCell`. */
  lemma LegacyPanelCell(c: LegacyConfig, t: seq<int>, d: LegacyDraws, u: int, p: int)
    requires Buildable(c) && |t| == c.n && LegacyDrawsFit(c, d)
    requires 0 <= u < c.n && FirstPeriod <= p <= PostPeriod
    ensures HasPanelPeriods(LegacyPanel(c, t, d), c.n)
    ensures At(LegacyPanel(c, t, d), c.n, u, p) == LegacyCell(c, t, d, u, p)
  {
    LegacyPanelShape(c, t, d);
    CellIndex(u, p);
  }

  /** The legacy data frame is the cross merge of the units with periods
      -3..1: five rows per unit, unit-major, post indicator on period 1. */
  lemma LegacyPanelShape(c: LegacyConfig, t: seq<int>, d: LegacyDraws)
    requires Buildable(c) && |t| == c.n && LegacyDrawsFit(c, d)
    ensures IsPanel(LegacyPanel(c, t, d), c.n)
  {
  }

  /** The row of unit `u` at period `p` of the legacy panel. */
  lemma LegacyCellOfPanel(c: LegacyConfig, t: seq<int>, d: LegacyDraws, u: int, p: int)
    requires Buildable(c) && |t| == c.n && LegacyDrawsFit(c, d)
    requires 0 <= u < c.n && FirstPeriod <= p <= PostPeriod
    ensures IsPanel(LegacyPanel(c, t, d), c.n)
    ensures At(LegacyPanel(c, t, d), c.n, u, p) ==
      LegacyRow(u, t[u], p, PostIndicator(p),
                LegacyOutcome(c, t[u], p, PostIndicator(p), c.noise * d.rowDraws[5 * u + p + 3]))
  {
    LegacyPanelShape(c, t, d);
    LegacyPanelCell(c, t, d, u, p);
  }

  /** The current simulator's parameters with the same meaning. */
  function AsCurrent(c: LegacyConfig): Simulation.Config {
    Simulation.Config(c.b0Treat, c.b0Control, c.b1Treat, c.b1Control, c.treatmentEffect, c.noise, c.n, 0.5)
  }

  /** The legacy outcome is the current simulator's outcome with the unit
      baseline effect and the period effect both zero. */
  lemma LegacyIsCurrentWithoutEffects(c: LegacyConfig, treat: int, period: int, timeIndicator: int, noise: real)
    ensures LegacyOutcome(c, treat, period, timeIndicator, noise) ==
      Simulation.Outcome(AsCurrent(c), treat, period, timeIndicator, 0.0, 0.0, noise)
  {
  }

  /** The parameter `R` has no effect on the result. */
  lemma IgnoresR(c: LegacyConfig, d: LegacyDraws, r: int)
    requires Buildable(c) && LegacyDrawsFit(c, d)
    ensures Buildable(c.(r := r)) && LegacyDrawsFit(c.(r := r), d)
    ensures LegacyTreatVector(c.(r := r), d) == LegacyTreatVector(c, d)
    ensures LegacyPanel(c.(r := r), LegacyTreatVector(c, d), d) == LegacyPanel(c, LegacyTreatVector(c, d), d)
  {
    var t := LegacyTreatVector(c, d);
    var a, b := LegacyPanel(c.(r := r), t, d), LegacyPanel(c, t, d);
    forall i | 0 <= i < 5 * c.n
      ensures a[i] == b[i]
    {
      RowIgnoresR(c, t, d, r, i);
    }
  }

  /** One row of the legacy panel does not read `R`. */
  lemma RowIgnoresR(c: LegacyConfig, t: seq<int>, d: LegacyDraws, r: int, i: int)
    requires Buildable(c) && |t| == c.n && LegacyDrawsFit(c, d)
    requires 0 <= i < 5 * c.n
    ensures LegacyPanelRow(c.(r := r), t, d, i) == LegacyPanelRow(c, t, d, i)
  {
    RowIndex(i, c.n);
    CellIgnoresR(c, t, d, r, i / 5, i % 5 + FirstPeriod);
  }

  /** One cell of the legacy panel does not read `R`. */
  lemma CellIgnoresR(c: LegacyConfig, t: seq<int>, d: LegacyDraws, r: int, u: int, p: int)
    requires Buildable(c) && |t| == c.n && LegacyDrawsFit(c, d)
    requires 0 <= u < c.n && FirstPeriod <= p <= PostPeriod
    ensures LegacyCell(c.(r := r), t, d, u, p) == LegacyCell(c, t, d, u, p)
  {
    var noise := c.noise * d.rowDraws[Position(u, p)];
    assert LegacyOutcome(c.(r := r), t[u], p, PostIndicator(p), noise) ==
      LegacyOutcome(c, t[u], p, PostIndicator(p), noise);
  }

  /** Without noise, all units of one group share one outcome per period. */
  lemma LegacyNoiselessGroups(c: LegacyConfig, t: seq<int>, d: LegacyDraws, u: int, v: int, p: int)
    requires Buildable(c) && |t| == c.n && LegacyDrawsFit(c, d)
    requires c.noise == 0.0
    requires 0 <= u < c.n && 0 <= v < c.n && t[u] == t[v]
    requires FirstPeriod <= p <= PostPeriod
    ensures HasPanelPeriods(LegacyPanel(c, t, d), c.n)
    ensures At(LegacyPanel(c, t, d), c.n, u, p).outcome == At(LegacyPanel(c, t, d), c.n, v, p).outcome
  {
    LegacyPanelCell(c, t, d, u, p);
    LegacyPanelCell(c, t, d, v, p);
  }

  /** Without noise, the change of a treated unit between periods `q` and `p`
      minus that of a control unit is the trend gap over `p - q` periods plus
      the treatment effect when only `p` is post-treatment. */
  lemma LegacyNoiselessContrast(c: LegacyConfig, t: seq<int>, d: LegacyDraws, u: int, v: int, p: int, q: int)
    requires Buildable(c) && |t| == c.n && LegacyDrawsFit(c, d)
    requires c.noise == 0.0
    requires 0 <= u < c.n && 0 <= v < c.n && t[u] == 1 && t[v] == 0
    requires FirstPeriod <= p <= PostPeriod && FirstPeriod <= q <= PostPeriod
    ensures HasPanelPeriods(LegacyPanel(c, t, d), c.n)
    ensures
      var rows := LegacyPanel(c, t, d);
      (At(rows, c.n, u, p).outcome - At(rows, c.n, u, q).outcome)
      - (At(rows, c.n, v, p).outcome - At(rows, c.n, v, q).outcome)
      == (p - q) as real * (c.b1Treat - c.b1Control)
         + c.treatmentEffect * (PostIndicator(p) - PostIndicator(q)) as real
  {
    LegacyPanelCell(c, t, d, u, p);
    LegacyPanelCell(c, t, d, u, q);
    LegacyPanelCell(c, t, d, v, p);
    LegacyPanelCell(c, t, d, v, q);
    LegacyCellContrast(c, t, d, u, v, p, q);
  }

  /** Without noise, the change of treated unit `u` between periods `q` and
      `p` minus that of control unit `v`, cell by cell: the current
      simulator's contrast with no unit or period effects. */
  lemma LegacyCellContrast(c: LegacyConfig, t: seq<int>, d: LegacyDraws, u: int, v: int, p: int, q: int)
    requires Buildable(c) && |t| == c.n && LegacyDrawsFit(c, d)
    requires c.noise == 0.0
    requires 0 <= u < c.n && 0 <= v < c.n && t[u] == 1 && t[v] == 0
    requires FirstPeriod <= p <= PostPeriod && FirstPeriod <= q <= PostPeriod
    ensures (LegacyCell(c, t, d, u, p).outcome - LegacyCell(c, t, d, u, q).outcome)
      - (LegacyCell(c, t, d, v, p).outcome - LegacyCell(c, t, d, v, q).outcome)
      == (p - q) as real * (c.b1Treat - c.b1Control)
         + c.treatmentEffect * (PostIndicator(p) - PostIndicator(q)) as real
  {
    LegacyCellNoiseless(c, t, d, u, p);
    LegacyCellNoiseless(c, t, d, u, q);
    LegacyCellNoiseless(c, t, d, v, p);
    LegacyCellNoiseless(c, t, d, v, q);
    Simulation.TrendGap(AsCurrent(c), p, q);
    Simulation.EffectGap(c.treatmentEffect, p, q);
  }

  /** Without noise, the outcome of unit `u` at period `p` is its group's
      baseline and trend and, on a treated post-treatment row, the treatment
      effect. */
  lemma LegacyCellNoiseless(c: LegacyConfig, t: seq<int>, d: LegacyDraws, u: int, p: int)
    requires Buildable(c) && |t| == c.n && LegacyDrawsFit(c, d)
    requires c.noise == 0.0
    requires 0 <= u < c.n && (t[u] == 0 || t[u] == 1) && FirstPeriod <= p <= PostPeriod
    ensures LegacyCell(c, t, d, u, p).outcome ==
      Simulation.Baseline(AsCurrent(c), t[u]) + Simulation.Trend(AsCurrent(c), t[u], p)
      + (if t[u] == 1 && p == PostPeriod then c.treatmentEffect else 0.0)
  {
    LegacyNoiseless(c, t[u], p, d.rowDraws[5 * u + p - FirstPeriod]);
  }

  /** Without noise, a legacy outcome is the group baseline, the group trend
      and, on a treated post-treatment row, the treatment effect. */
  lemma LegacyNoiseless(c: LegacyConfig, treat: int, p: int, z: real)
    requires c.noise == 0.0 && (treat == 0 || treat == 1)
    ensures LegacyOutcome(c, treat, p, PostIndicator(p), c.noise * z) ==
      Simulation.Baseline(AsCurrent(c), treat) + Simulation.Trend(AsCurrent(c), treat, p)
      + (if treat == 1 && p == PostPeriod then c.treatmentEffect else 0.0)
  {
    LegacyIsCurrentWithoutEffects(c, treat, p, PostIndicator(p), c.noise * z);
    Simulation.NoiselessOutcome(AsCurrent(c), treat, p, 0.0, 0.0, z);
  }

  /** The notebook's placebo regression sees the periods up to 0 of every
      unit, four rows per unit in unit order. */
  lemma NotebookPlaceboRows(c: LegacyConfig, t: seq<int>, d: LegacyDraws)
    requires Buildable(c) && |t| == c.n && LegacyDrawsFit(c, d)
    ensures |PreTreatmentWindow(LegacyPanel(c, t, d))| == 4 * c.n
    ensures forall u, k :: 0 <= u < c.n && 0 <= k < 4 ==>
      Slot(4, u, k) < 4 * c.n &&
      PreTreatmentWindow(LegacyPanel(c, t, d))[Slot(4, u, k)] == LegacyCell(c, t, d, u, k - 3)
  {
    var rows := LegacyPanel(c, t, d);
    LegacyPanelShape(c, t, d);
    WindowOfPanel(rows, c.n, PreTreatmentMask);
    forall u, k | 0 <= u < c.n && 0 <= k < 4
      ensures PreTreatmentWindow(rows)[Slot(4, u, k)] == LegacyCell(c, t, d, u, k - 3)
    {
      assert PreTreatmentWindow(rows)[Slot(4, u, k)] == At(rows, c.n, u, k - 3);
      LegacyPanelCell(c, t, d, u, k - 3);
    }
  }

  /** None of the rows of the notebook's placebo regression carries the post
      indicator. */
  lemma NotebookPlaceboUntreated(c: LegacyConfig, t: seq<int>, d: LegacyDraws)
    requires Buildable(c) && |t| == c.n && LegacyDrawsFit(c, d)
    ensures forall x :: x in PreTreatmentWindow(LegacyPanel(c, t, d)) ==> x.timeIndicator == 0
  {
    LegacyPanelShape(c, t, d);
    PreTreatmentWindowOfPanel(LegacyPanel(c, t, d), c.n);
  }

  /** The rows of the notebook's placebo regression do not depend on the
      treatment effect: the placebo test cannot see it. */
  lemma NotebookPlaceboBlindToEffect(c: LegacyConfig, t: seq<int>, d: LegacyDraws, effect: real)
    requires Buildable(c) && |t| == c.n && LegacyDrawsFit(c, d)
    ensures PreTreatmentWindow(LegacyPanel(c, t, d)) ==
      PreTreatmentWindow(LegacyPanel(c.(treatmentEffect := effect), t, d))
  {
    var a := LegacyPanel(c, t, d);
    var b := LegacyPanel(c.(treatmentEffect := effect), t, d);
    forall r | 0 <= r < |a| && Keeps(PreTreatmentMask, a[r].period)
      ensures a[r] == b[r]
    {
      assert PostIndicator(a[r].period) == 0;
    }
    FilterIgnoresDropped(a, b, PreTreatmentMask);
  }

  /** The notebook's `estimate` regresses on the periods 0 and 1 of every
      unit, two rows per unit in unit order. */
  lemma NotebookEstimationRows(c: LegacyConfig, t: seq<int>, d: LegacyDraws)
    requires Buildable(c) && |t| == c.n && LegacyDrawsFit(c, d)
    ensures |EstimationWindow(LegacyPanel(c, t, d))| == 2 * c.n
    ensures forall u, k :: 0 <= u < c.n && 0 <= k < 2 ==>
      Slot(2, u, k) < 2 * c.n &&
      EstimationWindow(LegacyPanel(c, t, d))[Slot(2, u, k)] == LegacyCell(c, t, d, u, k)
  {
    var rows := LegacyPanel(c, t, d);
    LegacyPanelShape(c, t, d);
    EstimationWindowOfPanel(rows, c.n);
    forall u, k | 0 <= u < c.n && 0 <= k < 2
      ensures EstimationWindow(rows)[Slot(2, u, k)] == LegacyCell(c, t, d, u, k)
    {
      LegacyPanelCell(c, t, d, u, k);
    }
  }
}
