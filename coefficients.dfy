/** The arithmetic `means_plot` does on the coefficients of the regression
    `outcome ~ treat * time_indicator` (methods/diff_in_diff/did.py and the
    notebook did_simulation.py): the four group means it plots and the
    treated group's counterfactual. */
module Coefficients {

  /** `Intercept`, `treat`, `time_indicator` and `treat:time_indicator`. */
  datatype Coefficients = Coefficients(intercept: real, treat: real, timeIndicator: real, interaction: real)

  /** The five points of the plot. */
  datatype GroupMeans = GroupMeans(
    controlPre: real, controlPost: real, treatPre: real, treatPost: real, treatCounterfactual: real)

  /** The regression's fitted outcome for a group (`treat` 0 or 1) in a period
      (`time` 0 or 1). */
  function Fitted(b: Coefficients, treat: int, time: int): real {
    b.intercept + b.treat * treat as real + b.timeIndicator * time as real
    + b.interaction * (treat * time) as real
  }

  /** The sums of `means_plot`: each observed group mean is the fitted value of
      its cell, and the counterfactual is the treated group's post value without
      the interaction. */
  function MeansFromCoefficients(b: Coefficients): (m: GroupMeans)
    ensures m.controlPre == Fitted(b, 0, 0) && m.controlPost == Fitted(b, 0, 1)
    ensures m.treatPre == Fitted(b, 1, 0) && m.treatPost == Fitted(b, 1, 1)
    ensures m.treatCounterfactual == Fitted(b, 1, 1) - b.interaction
  {
    GroupMeans(
      b.intercept,
      b.intercept + b.timeIndicator,
      b.intercept + b.treat,
      b.intercept + b.treat + b.timeIndicator + b.interaction,
      b.intercept + b.treat + b.timeIndicator)
  }

  /** The coefficients a saturated two-by-two model takes from the four
      observed group means. */
  function CoefficientsFromMeans(m: GroupMeans): Coefficients {
    Coefficients(
      m.controlPre,
      m.treatPre - m.controlPre,
      m.controlPost - m.controlPre,
      (m.treatPost - m.treatPre) - (m.controlPost - m.controlPre))
  }

  /** What each coefficient means on the plot: `b2` is the control group's
      change, `b1` the pre-period gap between the groups, `b3` the gap between
      the treated post value and its counterfactual, which is the difference
      in differences of the four means; the counterfactual moves from the
      treated pre value by the control group's change. */
  lemma MeansReadOff(b: Coefficients)
    ensures MeansFromCoefficients(b).controlPost - MeansFromCoefficients(b).controlPre == b.timeIndicator
    ensures MeansFromCoefficients(b).treatPre - MeansFromCoefficients(b).controlPre == b.treat
    ensures MeansFromCoefficients(b).treatPost - MeansFromCoefficients(b).treatCounterfactual == b.interaction
    ensures
      var m := MeansFromCoefficients(b);
      && m.treatCounterfactual == m.treatPre + (m.controlPost - m.controlPre)
      && (m.treatPost - m.treatPre) - (m.controlPost - m.controlPre) == b.interaction
  {
  }

  /** The means of `means_plot` give back the coefficients they came from. */
  lemma CoefficientsRoundTrip(b: Coefficients)
    ensures CoefficientsFromMeans(MeansFromCoefficients(b)) == b
  {
  }

  /** Four group means whose counterfactual follows the control group's change
      are the plot of the coefficients taken from them. */
  lemma MeansRoundTrip(m: GroupMeans)
    requires m.treatCounterfactual == m.treatPre + (m.controlPost - m.controlPre)
    ensures MeansFromCoefficients(CoefficientsFromMeans(m)) == m
  {
  }
}
