/** `simulate` of methods/diff_in_diff/did.py: the current panel simulator,
    with unit heterogeneity and shared period shocks. The generator's draws are
    inputs: the shuffle's swap partners and standard normal values, which numpy
    scales as `loc + scale * z`. */
module Simulation {
  import opened Results
  import opened Rounding
  import opened Shuffling
  import opened Panels

  /** `np.random.normal(0, 2, N)`: the scale of the unit baseline effects. */
  const UnitEffectScale: real := 2.0
  /** `np.random.normal(0, 2.5, 5)`: the scale of the period effects. */
  const TimeEffectScale: real := 2.5

  /** The parameters of `simulate`, defaults aside. */
  datatype Config = Config(
    b0Treat: real, b0Control: real, b1Treat: real, b1Control: real,
    treatmentEffect: real, noise: real, n: int, treatRatio: real)

  /** The generator's output, in the order the code consumes it. */
  datatype Draws = Draws(
    swaps: seq<nat>,          // partner of each step of the shuffle
    unitDraws: seq<real>,     // one standard normal value per unit
    timeDraws: seq<real>,     // one per period -3..1
    rowDraws: seq<real>)      // one per row

  /** What numpy raises: a negative array length, or a negative scale. */
  datatype SimError = NegativeLength | NegativeScale

  /** Draws of the sizes the code asks for. */
  predicate DrawsFit(n: int, d: Draws) {
    n >= 0 ==>
      ValidSwaps(d.swaps, n) && |d.unitDraws| == n &&
      |d.timeDraws| == 5 && |d.rowDraws| == 5 * n
  }

  /** `int(N * treat_ratio)` */
  function NTreated(c: Config): int {
    Trunc(c.n as real * c.treatRatio)
  }

  /** Both group sizes are array lengths numpy accepts. */
  predicate Sizeable(c: Config) {
    0 <= NTreated(c) && 0 <= c.n - NTreated(c)
  }

  /** `np.concatenate([np.ones(n_treated), np.zeros(n_control)])` */
  function Assignment(nTreated: nat, nControl: nat): seq<int> {
    Repeat(1, nTreated) + Repeat(0, nControl)
  }

  /** The treatment vector after `np.random.shuffle`; entry `u` is unit `u`'s. */
  function TreatVector(c: Config, d: Draws): (t: seq<int>)
    requires Sizeable(c) && DrawsFit(c.n, d)
    ensures |t| == c.n
  {
    Shuffled(Assignment(NTreated(c), c.n - NTreated(c)), d.swaps)
  }

  /** The outcome of one row, term by term: group baseline, unit effect, group
      trend times period, period effect, treatment effect on treated
      post-treatment rows, noise. */
  function Outcome(c: Config, treat: int, period: int, timeIndicator: int,
                   unitEffect: real, timeEffect: real, noise: real): real
  {
    Baseline(c, treat) + unitEffect + Trend(c, treat, period) + timeEffect
    + c.treatmentEffect * treat as real * timeIndicator as real + noise
  }

  /** `b0_treat if x == 1 else b0_control` */
  function Baseline(c: Config, treat: int): real {
    if treat == 1 then c.b0Treat else c.b0Control
  }

  /** The two masked updates: `treat == 1` rows get `period * b1_treat`,
      `treat == 0` rows `period * b1_control`. */
  function Trend(c: Config, treat: int, period: int): real {
    if treat == 1 then period as real * c.b1Treat
    else if treat == 0 then period as real * c.b1Control
    else 0.0
  }

  /** The row of unit `u` at period `p`, given the shuffled treatment vector
      `t`: the unit's treatment and drawn baseline effect, the period's drawn
      effect, the post indicator and the outcome with that row's noise. */
  function Cell(c: Config, t: seq<int>, d: Draws, u: int, p: int): Row
    requires c.n >= 0 && |t| == c.n && DrawsFit(c.n, d)
    requires 0 <= u < c.n && FirstPeriod <= p <= PostPeriod
  {
    var ti := PostIndicator(p);
    var unitEffect := UnitEffectScale * d.unitDraws[u];
    var timeEffect := TimeEffectScale * d.timeDraws[p - FirstPeriod];
    Row(u, t[u], p, ti, unitEffect, timeEffect,
        Outcome(c, t[u], p, ti, unitEffect, timeEffect, c.noise * d.rowDraws[5 * u + p - FirstPeriod]))
  }

  /** Row `r` of the simulated panel: unit `r / 5` at period `r % 5 - 3`. */
  function PanelRow(c: Config, t: seq<int>, d: Draws, r: int): Row
    requires c.n >= 0 && |t| == c.n && DrawsFit(c.n, d)
    requires 0 <= r < 5 * c.n
  {
    Cell(c, t, d, r / 5, r % 5 + FirstPeriod)
  }

  /** The successive column updates of one row add up to `Outcome`. */
  lemma ColumnUpdates(c: Config, treat: int, period: int, timeIndicator: int,
                      unitEffect: real, timeEffect: real, noise: real,
                      withUnit: real, withTreatTrend: real, withTrend: real, final: real)
    requires withUnit == Baseline(c, treat) + unitEffect
    requires withTreatTrend == if treat == 1 then withUnit + period as real * c.b1Treat else withUnit
    requires withTrend == if treat == 0 then withTreatTrend + period as real * c.b1Control else withTreatTrend
    requires final == withTrend + timeEffect + c.treatmentEffect * treat as real * timeIndicator as real + noise
    ensures final == Outcome(c, treat, period, timeIndicator, unitEffect, timeEffect, noise)
  {
  }

  /** One row assembled from the merged columns is unit `u`'s cell at
      period `p`. */
  lemma RowOfColumns(c: Config, t: seq<int>, d: Draws, u: int, p: int, treat: int, period: int,
                     timeIndicator: int, unitEffect: real, timeEffect: real, outcome: real)
    requires c.n >= 0 && |t| == c.n && DrawsFit(c.n, d)
    requires 0 <= u < c.n && FirstPeriod <= p <= PostPeriod
    requires treat == t[u] && period == p && timeIndicator == PostIndicator(p)
    requires unitEffect == UnitEffectScale * d.unitDraws[u]
    requires timeEffect == TimeEffectScale * d.timeDraws[p - FirstPeriod]
    requires outcome == Outcome(c, treat, period, timeIndicator, unitEffect, timeEffect, c.noise * d.rowDraws[Position(u, p)])
    ensures Row(u, treat, period, timeIndicator, unitEffect, timeEffect, outcome) == Cell(c, t, d, u, p)
  {
  }

  /** The panel `simulate` returns for treatment vector `t`. */
  function SimulatedPanel(c: Config, t: seq<int>, d: Draws): (rows: seq<Row>)
    requires c.n >= 0 && |t| == c.n && DrawsFit(c.n, d)
    ensures |rows| == 5 * c.n
  {
    seq(5 * c.n, r requires 0 <= r < 5 * c.n => PanelRow(c, t, d, r))
  }

  /** The treatment assignment of `simulate`: ones then zeros, shuffled in
      place by `np.random.shuffle`. */
  method AssignTreatment(c: Config, d: Draws) returns (t: seq<int>)
    requires Sizeable(c) && DrawsFit(c.n, d)
    ensures t == TreatVector(c, d)
  {
    var ones, zeros := NTreated(c), c.n - NTreated(c);
    t := ShuffleArrayOf(Assignment(ones, zeros), d.swaps);
  }

  /** `simulate` itself: treatment assignment, the cross merge with the five
      periods, then the outcome column built one term at a time. */
  method Simulate(c: Config, d: Draws) returns (result: Result<seq<Row>, SimError>)
    requires DrawsFit(c.n, d)
    ensures !Sizeable(c) ==> result == Err(NegativeLength)
    ensures Sizeable(c) && c.noise < 0.0 ==> result == Err(NegativeScale)
    ensures Sizeable(c) && c.noise >= 0.0 ==>
      result == Ok(SimulatedPanel(c, TreatVector(c, d), d))
  {
    if !Sizeable(c) {
      return Err(NegativeLength);
    }
    var t := AssignTreatment(c, d);
    result := BuildPanel(c, t, d);
  }

  /** The cross merge and the two effect merges of `simulate`, for the
      shuffled treatment vector `t`, then the outcome column. */
  method BuildPanel(c: Config, t: seq<int>, d: Draws) returns (result: Result<seq<Row>, SimError>)
    requires c.n >= 0 && |t| == c.n && DrawsFit(c.n, d)
    ensures c.noise < 0.0 ==> result == Err(NegativeScale)
    ensures c.noise >= 0.0 ==> result == Ok(SimulatedPanel(c, t, d))
  {
    var rows := 5 * c.n;
    var treatCol, periodCol, indicatorCol, unitEffectCol, timeEffectCol := MergeColumns(c, t, d);
    if c.noise < 0.0 {
      return Err(NegativeScale);
    }
    var noiseCol := seq(rows, r requires 0 <= r < rows => c.noise * d.rowDraws[r]);
    var o := OutcomeColumn(c, treatCol, periodCol, indicatorCol, unitEffectCol, timeEffectCol, noiseCol);
    var panel := seq(rows, r requires 0 <= r < rows =>
      Row(r / 5, treatCol[r], periodCol[r], indicatorCol[r], unitEffectCol[r], timeEffectCol[r], o[r]));
    forall r | 0 <= r < rows
      ensures panel[r] == PanelRow(c, t, d, r)
    {
      var u, p := r / 5, r % 5 + FirstPeriod;
      RowIndex(r, c.n);
      RowOfColumns(c, t, d, u, p, treatCol[r], periodCol[r], indicatorCol[r], unitEffectCol[r], timeEffectCol[r], o[r]);
    }
    assert panel == SimulatedPanel(c, t, d);
    return Ok(panel);
  }

  /** The cross merge of the units with the periods -3..1 and the merges of
      the unit and period effects: each unit has one row per period, at
      `Position(u, p)`, carrying the unit's treatment and drawn effect and the
      period's indicator and drawn effect. */
  method MergeColumns(c: Config, t: seq<int>, d: Draws)
    returns (treatCol: seq<int>, periodCol: seq<int>, indicatorCol: seq<int>,
             unitEffectCol: seq<real>, timeEffectCol: seq<real>)
    requires c.n >= 0 && |t| == c.n && DrawsFit(c.n, d)
    ensures |treatCol| == |periodCol| == |indicatorCol| == |unitEffectCol| == |timeEffectCol| == 5 * c.n
    ensures forall u, p :: 0 <= u < c.n && FirstPeriod <= p <= PostPeriod ==>
      Position(u, p) < 5 * c.n &&
      treatCol[Position(u, p)] == t[u] && periodCol[Position(u, p)] == p &&
      indicatorCol[Position(u, p)] == PostIndicator(p) &&
      unitEffectCol[Position(u, p)] == UnitEffectScale * d.unitDraws[u] &&
      timeEffectCol[Position(u, p)] == TimeEffectScale * d.timeDraws[p - FirstPeriod]
  {
    var rows := 5 * c.n;
    treatCol := seq(rows, r requires 0 <= r < rows => t[r / 5]);
    periodCol := seq(rows, r => r % 5 + (-3));
    indicatorCol := seq(rows, r requires 0 <= r < rows => PostIndicator(periodCol[r]));
    unitEffectCol := seq(rows, r requires 0 <= r < rows => UnitEffectScale * d.unitDraws[r / 5]);
    timeEffectCol := seq(rows, r requires 0 <= r < rows => TimeEffectScale * d.timeDraws[periodCol[r] - (-3)]);
    forall u, p | 0 <= u < c.n && FirstPeriod <= p <= PostPeriod
      ensures Position(u, p) < rows && periodCol[Position(u, p)] == p &&
        treatCol[Position(u, p)] == t[u] && unitEffectCol[Position(u, p)] == UnitEffectScale * d.unitDraws[u]
    {
      CellIndex(u, p);
    }
  }

  /** `df['outcome']`, one vectorised column assignment after another: the
      group baseline plus the unit effect, the two masked trend updates, the
      period effect and the treatment effect, then the noise. Row by row the
      result is `Outcome`. */
  method OutcomeColumn(c: Config, treatCol: seq<int>, periodCol: seq<int>, indicatorCol: seq<int>,
                       unitEffectCol: seq<real>, timeEffectCol: seq<real>, noiseCol: seq<real>)
    returns (o: seq<real>)
    requires |periodCol| == |indicatorCol| == |unitEffectCol| == |timeEffectCol| == |noiseCol| == |treatCol|
    ensures |o| == |treatCol|
    ensures forall r :: 0 <= r < |o| ==>
      o[r] == Outcome(c, treatCol[r], periodCol[r], indicatorCol[r], unitEffectCol[r], timeEffectCol[r], noiseCol[r])
  {
    var rows := |treatCol|;
    var withUnit := seq(rows, r requires 0 <= r < rows => Baseline(c, treatCol[r]) + unitEffectCol[r]);
    var withTreatTrend := seq(rows, r requires 0 <= r < rows =>
      if treatCol[r] == 1 then withUnit[r] + periodCol[r] as real * c.b1Treat else withUnit[r]);
    var withTrend := seq(rows, r requires 0 <= r < rows =>
      if treatCol[r] == 0 then withTreatTrend[r] + periodCol[r] as real * c.b1Control else withTreatTrend[r]);
    var withEffect := seq(rows, r requires 0 <= r < rows =>
      withTrend[r] + timeEffectCol[r] + c.treatmentEffect * treatCol[r] as real * indicatorCol[r] as real);
    o := seq(rows, r requires 0 <= r < rows => withEffect[r] + noiseCol[r]);
    forall r | 0 <= r < rows
      ensures o[r] == Outcome(c, treatCol[r], periodCol[r], indicatorCol[r], unitEffectCol[r], timeEffectCol[r], noiseCol[r])
    {
      ColumnUpdates(c, treatCol[r], periodCol[r], indicatorCol[r], unitEffectCol[r], timeEffectCol[r],
                    noiseCol[r], withUnit[r], withTreatTrend[r], withTrend[r], o[r]);
    }
  }

  // ---------------------------------------------------------------------
  // What the simulated panel promises
  // ---------------------------------------------------------------------

  /** `int(N * treat_ratio)` units are treated and the rest are controls;
      every unit is one or the other. */
  lemma TreatmentCounts(c: Config, d: Draws)
    requires Sizeable(c) && DrawsFit(c.n, d)
    ensures multiset(TreatVector(c, d))[1] == NTreated(c)
    ensures multiset(TreatVector(c, d))[0] == c.n - NTreated(c)
    ensures forall u :: 0 <= u < c.n ==> TreatVector(c, d)[u] == 0 || TreatVector(c, d)[u] == 1
  {
    var ones, zeros := NTreated(c), c.n - NTreated(c);
    var lead := Assignment(ones, zeros);
    var t := Shuffled(lead, d.swaps);
    assert t == TreatVector(c, d);
    ShuffledCounts(ones, zeros, lead, d.swaps);
    forall u | 0 <= u < c.n
      ensures t[u] == 0 || t[u] == 1
    {
      assert t[u] in {0, 1};
    }
  }

  /** The simulated data frame is the cross merge of the units with periods
      -3..1: five rows per unit, unit-major, post indicator on period 1. */
  lemma SimulatedPanelShape(c: Config, t: seq<int>, d: Draws)
    requires c.n >= 0 && |t| == c.n && DrawsFit(c.n, d)
    ensures IsPanel(SimulatedPanel(c, t, d), c.n)
  {
  }

  /** Rows of one unit share its treatment status and its drawn baseline
      effect; rows of one period share that period's drawn effect. */
  lemma SharedEffects(c: Config, t: seq<int>, d: Draws, r: int, s: int)
    requires c.n >= 0 && |t| == c.n && DrawsFit(c.n, d)
    requires 0 <= r < 5 * c.n && 0 <= s < 5 * c.n
    ensures
      var rows := SimulatedPanel(c, t, d);
      rows[r].unit == rows[s].unit ==>
        rows[r].treat == rows[s].treat && rows[r].unitBaselineEffect == rows[s].unitBaselineEffect
    ensures
      var rows := SimulatedPanel(c, t, d);
      rows[r].period == rows[s].period ==> rows[r].timeEffect == rows[s].timeEffect
  {
  }

  /** The row of unit `u` at period `p`: the unit's treatment status and drawn
      baseline effect, the period's drawn effect, and the outcome term by term. */
  lemma CellOfPanel(c: Config, t: seq<int>, d: Draws, u: int, p: int)
    requires c.n >= 0 && |t| == c.n && DrawsFit(c.n, d)
    requires 0 <= u < c.n && FirstPeriod <= p <= PostPeriod
    ensures HasPanelPeriods(SimulatedPanel(c, t, d), c.n)
    ensures At(SimulatedPanel(c, t, d), c.n, u, p) ==
      var unitEffect := UnitEffectScale * d.unitDraws[u];
      var timeEffect := TimeEffectScale * d.timeDraws[p + 3];
      Row(u, t[u], p, PostIndicator(p), unitEffect, timeEffect,
          Outcome(c, t[u], p, PostIndicator(p), unitEffect, timeEffect, c.noise * d.rowDraws[5 * u + p + 3]))
  {
    PanelCell(c, t, d, u, p);
    var unitEffect := UnitEffectScale * d.unitDraws[u];
    var timeEffect := TimeEffectScale * d.timeDraws[p + 3];
    assert Cell(c, t, d, u, p) == Row(u, t[u], p, PostIndicator(p), unitEffect, timeEffect,
      Outcome(c, t[u], p, PostIndicator(p), unitEffect, timeEffect, c.noise * d.rowDraws[5 * u + p + 3]));
  }

  /** The treatment effect enters only the rows of treated units in the
      post-treatment period; every other column is the same whatever its size. */
  lemma EffectOnlyOnTreatedPost(c: Config, t: seq<int>, d: Draws, u: int, p: int)
    requires c.n >= 0 && |t| == c.n && DrawsFit(c.n, d)
    requires 0 <= u < c.n && FirstPeriod <= p <= PostPeriod
    requires t[u] == 0 || t[u] == 1
    ensures HasPanelPeriods(SimulatedPanel(c, t, d), c.n)
    ensures HasPanelPeriods(SimulatedPanel(c.(treatmentEffect := 0.0), t, d), c.n)
    ensures At(SimulatedPanel(c, t, d), c.n, u, p).outcome ==
      At(SimulatedPanel(c.(treatmentEffect := 0.0), t, d), c.n, u, p).outcome
      + (if t[u] == 1 && p == PostPeriod then c.treatmentEffect else 0.0)
    ensures At(SimulatedPanel(c, t, d), c.n, u, p).(outcome := 0.0) ==
      At(SimulatedPanel(c.(treatmentEffect := 0.0), t, d), c.n, u, p).(outcome := 0.0)
  {
    PanelCell(c, t, d, u, p);
    PanelCell(c.(treatmentEffect := 0.0), t, d, u, p);
    CellEffect(c, t, d, u, p);
  }

  /** `EffectOnlyOnTreatedPost`, cell by cell. */
  lemma CellEffect(c: Config, t: seq<int>, d: Draws, u: int, p: int)
    requires c.n >= 0 && |t| == c.n && DrawsFit(c.n, d)
    requires 0 <= u < c.n && FirstPeriod <= p <= PostPeriod
    requires t[u] == 0 || t[u] == 1
    ensures Cell(c, t, d, u, p).outcome ==
      Cell(c.(treatmentEffect := 0.0), t, d, u, p).outcome
      + (if t[u] == 1 && p == PostPeriod then c.treatmentEffect else 0.0)
    ensures Cell(c, t, d, u, p).(outcome := 0.0) == Cell(c.(treatmentEffect := 0.0), t, d, u, p).(outcome := 0.0)
  {
  }

  /** Without noise, the outcome of a unit of group `treat` at period `p` is
      its baseline, its own effect, its trend, the period effect and, on a
      treated post-treatment row, the treatment effect. */
  lemma NoiselessOutcome(c: Config, treat: int, p: int, unitEffect: real, timeEffect: real, z: real)
    requires c.noise == 0.0 && (treat == 0 || treat == 1)
    ensures Outcome(c, treat, p, PostIndicator(p), unitEffect, timeEffect, c.noise * z) ==
      Baseline(c, treat) + unitEffect + Trend(c, treat, p) + timeEffect
      + (if treat == 1 && p == PostPeriod then c.treatmentEffect else 0.0)
  {
  }

  /** Between periods `q` and `p` the treated trend gains on the control trend
      by `p - q` times the difference of slopes. */
  lemma TrendGap(c: Config, p: int, q: int)
    ensures (Trend(c, 1, p) - Trend(c, 1, q)) - (Trend(c, 0, p) - Trend(c, 0, q))
      == (p - q) as real * (c.b1Treat - c.b1Control)
  {
    calc {
      (p - q) as real * (c.b1Treat - c.b1Control);
      (p as real - q as real) * c.b1Treat - (p as real - q as real) * c.b1Control;
      (p as real * c.b1Treat - q as real * c.b1Treat) - (p as real * c.b1Control - q as real * c.b1Control);
    }
  }

  /** Unit `u`'s row at period `p` of the panel is `Cell`. */
  lemma PanelCell(c: Config, t: seq<int>, d: Draws, u: int, p: int)
    requires c.n >= 0 && |t| == c.n && DrawsFit(c.n, d)
    requires 0 <= u < c.n && FirstPeriod <= p <= PostPeriod
    ensures HasPanelPeriods(SimulatedPanel(c, t, d), c.n)
    ensures At(SimulatedPanel(c, t, d), c.n, u, p) == Cell(c, t, d, u, p)
  {
    SimulatedPanelShape(c, t, d);
    CellIndex(u, p);
  }

  /** Without noise, the change of treated unit `u` between periods `q` and
      `p` minus that of control unit `v`, cell by cell. */
  lemma CellContrast(c: Config, t: seq<int>, d: Draws, u: int, v: int, p: int, q: int)
    requires c.n >= 0 && |t| == c.n && DrawsFit(c.n, d)
    requires c.noise == 0.0
    requires 0 <= u < c.n && 0 <= v < c.n && t[u] == 1 && t[v] == 0
    requires FirstPeriod <= p <= PostPeriod && FirstPeriod <= q <= PostPeriod
    ensures (Cell(c, t, d, u, p).outcome - Cell(c, t, d, u, q).outcome)
      - (Cell(c, t, d, v, p).outcome - Cell(c, t, d, v, q).outcome)
      == (p - q) as real * (c.b1Treat - c.b1Control)
         + c.treatmentEffect * (PostIndicator(p) - PostIndicator(q)) as real
  {
    CellNoiseless(c, t, d, u, p);
    CellNoiseless(c, t, d, u, q);
    CellNoiseless(c, t, d, v, p);
    CellNoiseless(c, t, d, v, q);
    TrendGap(c, p, q);
    EffectGap(c.treatmentEffect, p, q);
  }

  /** Without noise, the outcome of unit `u` at period `p` is its group's
      baseline, its own effect, its group's trend, the period's effect and, on
      a treated post-treatment row, the treatment effect. */
  lemma CellNoiseless(c: Config, t: seq<int>, d: Draws, u: int, p: int)
    requires c.n >= 0 && |t| == c.n && DrawsFit(c.n, d)
    requires c.noise == 0.0
    requires 0 <= u < c.n && (t[u] == 0 || t[u] == 1) && FirstPeriod <= p <= PostPeriod
    ensures Cell(c, t, d, u, p).outcome ==
      Baseline(c, t[u]) + UnitEffectScale * d.unitDraws[u] + Trend(c, t[u], p)
      + TimeEffectScale * d.timeDraws[p - FirstPeriod]
      + (if t[u] == 1 && p == PostPeriod then c.treatmentEffect else 0.0)
  {
    NoiselessOutcome(c, t[u], p, UnitEffectScale * d.unitDraws[u], TimeEffectScale * d.timeDraws[p - FirstPeriod],
                     d.rowDraws[5 * u + p - FirstPeriod]);
  }

  /** Without noise, the change of a treated unit between periods `q` and `p`
      minus that of a control unit is the gap between the two groups' trends
      over `p - q` periods plus the treatment effect when only `p` is
      post-treatment: unit and period effects cancel. */
  lemma NoiselessContrast(c: Config, t: seq<int>, d: Draws, u: int, v: int, p: int, q: int)
    requires c.n >= 0 && |t| == c.n && DrawsFit(c.n, d)
    requires c.noise == 0.0
    requires 0 <= u < c.n && 0 <= v < c.n && t[u] == 1 && t[v] == 0
    requires FirstPeriod <= p <= PostPeriod && FirstPeriod <= q <= PostPeriod
    ensures HasPanelPeriods(SimulatedPanel(c, t, d), c.n)
    ensures
      var rows := SimulatedPanel(c, t, d);
      (At(rows, c.n, u, p).outcome - At(rows, c.n, u, q).outcome)
      - (At(rows, c.n, v, p).outcome - At(rows, c.n, v, q).outcome)
      == (p - q) as real * (c.b1Treat - c.b1Control)
         + c.treatmentEffect * (PostIndicator(p) - PostIndicator(q)) as real
  {
    PanelCell(c, t, d, u, p);
    PanelCell(c, t, d, u, q);
    PanelCell(c, t, d, v, p);
    PanelCell(c, t, d, v, q);
    CellContrast(c, t, d, u, v, p, q);
  }

  /** The treatment-effect terms of two periods differ by the effect times
      the difference of their post indicators. */
  lemma EffectGap(effect: real, p: int, q: int)
    ensures (if p == PostPeriod then effect else 0.0) - (if q == PostPeriod then effect else 0.0)
      == effect * (PostIndicator(p) - PostIndicator(q)) as real
  {
  }

  /** The placebo regression's rows (periods -1 and 0, relabelled) do not
      depend on the treatment effect: the placebo test cannot see it. */
  lemma PlaceboBlindToEffect(c: Config, t: seq<int>, d: Draws, effect: real)
    requires c.n >= 0 && |t| == c.n && DrawsFit(c.n, d)
    ensures PlaceboWindow(SimulatedPanel(c, t, d)) ==
      PlaceboWindow(SimulatedPanel(c.(treatmentEffect := effect), t, d))
  {
    var a := SimulatedPanel(c, t, d);
    var b := SimulatedPanel(c.(treatmentEffect := effect), t, d);
    forall r | 0 <= r < |a| && Keeps(PlaceboMask, a[r].period)
      ensures a[r] == b[r]
    {
      assert PostIndicator(a[r].period) == 0;
    }
    PlaceboIgnoresDropped(a, b);
  }

  /** `placebo_test` regresses on the periods -1 and 0 of every unit, two rows
      per unit in unit order, with the time indicator set on period 0 only and
      every other column as simulated. */
  lemma PlaceboRows(c: Config, t: seq<int>, d: Draws)
    requires c.n >= 0 && |t| == c.n && DrawsFit(c.n, d)
    ensures |PlaceboWindow(SimulatedPanel(c, t, d))| == 2 * c.n
    ensures forall u, k :: 0 <= u < c.n && 0 <= k < 2 ==>
      Slot(2, u, k) < 2 * c.n &&
      PlaceboWindow(SimulatedPanel(c, t, d))[Slot(2, u, k)] == Cell(c, t, d, u, k - 1).(timeIndicator := k)
  {
    var rows := SimulatedPanel(c, t, d);
    SimulatedPanelShape(c, t, d);
    PlaceboWindowOfPanel(rows, c.n);
    forall u, k | 0 <= u < c.n && 0 <= k < 2
      ensures PlaceboWindow(rows)[Slot(2, u, k)] == Cell(c, t, d, u, k - 1).(timeIndicator := k)
    {
      PanelCell(c, t, d, u, k - 1);
    }
  }

  /** `estimate_did` regresses on the periods 0 and 1 of every unit, two rows
      per unit in unit order. */
  lemma EstimationRows(c: Config, t: seq<int>, d: Draws)
    requires c.n >= 0 && |t| == c.n && DrawsFit(c.n, d)
    ensures |EstimationWindow(SimulatedPanel(c, t, d))| == 2 * c.n
    ensures forall u, k :: 0 <= u < c.n && 0 <= k < 2 ==>
      Slot(2, u, k) < 2 * c.n &&
      EstimationWindow(SimulatedPanel(c, t, d))[Slot(2, u, k)] == Cell(c, t, d, u, k)
  {
    var rows := SimulatedPanel(c, t, d);
    SimulatedPanelShape(c, t, d);
    EstimationWindowOfPanel(rows, c.n);
    forall u, k | 0 <= u < c.n && 0 <= k < 2
      ensures EstimationWindow(rows)[Slot(2, u, k)] == Cell(c, t, d, u, k)
    {
      PanelCell(c, t, d, u, k);
    }
  }

}
