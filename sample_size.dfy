/** The A/B-test sample-size calculator of methods/ab_testing/ab_testing.py:
    input validation in a fixed order, the unrounded total from the two normal
    quantiles, and the rounding of each group's share. */
module SampleSize {
  import opened Results
  import opened Rounding
  import opened Floats

  /** The dictionary `calculate_sample_size` returns. */
  datatype SampleSizes = SampleSizes(nControl: int, nTreated: int, nTotal: int)

  /** The four validation failures (each a bare `Exception` with its own
      message), the conversion errors `int()` raises on a non-finite size, and
      the `NotImplementedError` of `calculate_test_length`. */
  datatype SizeError =
    | AlphaOutOfRange
    | PowerOutOfRange
    | NegativeVariance
    | RatioOutOfRange
    | Conversion(cause: ConversionError)
    | NotImplemented

  /** The input checks at the top of `calculate_sample_size`, in order; `delta` is not checked. */
  function Validate(alpha: real, power: real, variance: real, ratio: real): (r: Option<SizeError>)
    ensures r == None <==>
      0.0 <= alpha <= 1.0 && 0.0 <= power <= 1.0 && variance >= 0.0 && 0.0 < ratio < 1.0
    ensures (alpha < 0.0 || alpha > 1.0) ==> r == Some(AlphaOutOfRange)
    ensures 0.0 <= alpha <= 1.0 && (power < 0.0 || power > 1.0) ==> r == Some(PowerOutOfRange)
    ensures 0.0 <= alpha <= 1.0 && 0.0 <= power <= 1.0 && variance < 0.0 ==> r == Some(NegativeVariance)
    ensures 0.0 <= alpha <= 1.0 && 0.0 <= power <= 1.0 && variance >= 0.0 && (ratio <= 0.0 || ratio >= 1.0) ==>
      r == Some(RatioOutOfRange)
  {
    if alpha < 0.0 || alpha > 1.0 then Some(AlphaOutOfRange)
    else if power < 0.0 || power > 1.0 then Some(PowerOutOfRange)
    else if variance < 0.0 then Some(NegativeVariance)
    else if ratio <= 0.0 || ratio >= 1.0 then Some(RatioOutOfRange)
    else None
  }

  /** `n_total` before rounding, as a float: the squared sum of the two
      quantiles times the variance, over `ratio * (1 - ratio) * delta**2`. */
  function UnroundedTotal(ppf: real -> real, alpha: real, power: real, delta: real, variance: real, ratio: real): Float {
    var zAlpha := NormPpf(ppf, 1.0 - alpha / 2.0);
    var zPower := NormPpf(ppf, power);
    Div(Mul(Square(Add(zAlpha, zPower)), Finite(variance)), Denominator(ratio, delta))
  }

  /** `ratio * (1 - ratio) * delta**2` */
  function Denominator(ratio: real, delta: real): real {
    Times(Times(ratio, 1.0 - ratio), Times(delta, delta))
  }

  /** The same quantity for finite quantiles, over the reals. */
  function TotalOf(zAlpha: real, zPower: real, delta: real, variance: real, ratio: real): real
    requires Denominator(ratio, delta) != 0.0
  {
    Times(Times(zAlpha + zPower, zAlpha + zPower), variance) / Denominator(ratio, delta)
  }

  /** `calculate_sample_size`, with `norm.ppf` given as `ppf` on (0, 1). */
  function CalculateSampleSize(ppf: real -> real, alpha: real, power: real, delta: real,
                               variance: real, ratio: real): (r: Result<SampleSizes, SizeError>)
    ensures Validate(alpha, power, variance, ratio).Some? ==>
      r == Err(Validate(alpha, power, variance, ratio).value)
    ensures r.Ok? ==> r.value.nTotal == r.value.nTreated + r.value.nControl
  {
    match Validate(alpha, power, variance, ratio)
    case Some(e) => Err(e)
    case None =>
      var nTotal := UnroundedTotal(ppf, alpha, power, delta, variance, ratio);
      match ToInt(CeilF(Mul(nTotal, Finite(ratio))))
      case Err(e) => Err(Conversion(e))
      case Ok(nTreated) =>
        match ToInt(CeilF(Sub(nTotal, Finite(nTreated as real))))
        case Err(e) => Err(Conversion(e))
        case Ok(nControl) => Ok(SampleSizes(nControl, nTreated, nTreated + nControl))
  }

  /** `calculate_test_length` is a stub: it raises for every input. */
  function CalculateTestLength(traffic: int, totalSampleSize: int): (r: Result<int, SizeError>)
    ensures r.Err? && r.error == NotImplemented
  {
    Err(NotImplemented)
  }

  // ---------------------------------------------------------------------
  // What the calculator promises
  // ---------------------------------------------------------------------

  /** The calculator returns sizes exactly when the inputs pass validation,
      the significance level is above 0, the power strictly between 0 and 1
      and the effect size non-zero; otherwise the infinite quantile or the
      division by zero ends in `int()` of an infinity or a NaN. */
  lemma SucceedsExactly(ppf: real -> real, alpha: real, power: real, delta: real,
                        variance: real, ratio: real)
    ensures CalculateSampleSize(ppf, alpha, power, delta, variance, ratio).Ok? <==>
      Validate(alpha, power, variance, ratio) == None &&
      0.0 < alpha && 0.0 < power < 1.0 && delta != 0.0
  {
    if Validate(alpha, power, variance, ratio) == None {
      var total := UnroundedTotal(ppf, alpha, power, delta, variance, ratio);
      if 0.0 < alpha && 0.0 < power < 1.0 && delta != 0.0 {
        FiniteTotal(ppf, alpha, power, delta, variance, ratio);
        RoundedShares(total, TotalOf(ppf(1.0 - alpha / 2.0), ppf(power), delta, variance, ratio), ratio);
      } else {
        TotalNotFinite(ppf, alpha, power, delta, variance, ratio);
        assert !Mul(total, Finite(ratio)).Finite?;
      }
    }
  }

  /** An endpoint quantile, or a zero effect size, leaves the unrounded total
      infinite or NaN. */
  lemma TotalNotFinite(ppf: real -> real, alpha: real, power: real, delta: real,
                       variance: real, ratio: real)
    requires Validate(alpha, power, variance, ratio) == None
    requires !(0.0 < alpha && 0.0 < power < 1.0 && delta != 0.0)
    ensures !UnroundedTotal(ppf, alpha, power, delta, variance, ratio).Finite?
  {
    var sum := Add(NormPpf(ppf, 1.0 - alpha / 2.0), NormPpf(ppf, power));
    var numerator := Mul(Square(sum), Finite(variance));
    if 0.0 < alpha && 0.0 < power < 1.0 {
      assert Denominator(ratio, delta) == 0.0;
    } else {
      QuantileSumInfinite(ppf, alpha, power);
      assert !numerator.Finite?;
    }
  }

  /** At the endpoints `alpha == 0`, `power == 0` or `power == 1` one quantile
      is infinite, and so is their sum, or it is NaN. */
  lemma QuantileSumInfinite(ppf: real -> real, alpha: real, power: real)
    requires 0.0 <= alpha <= 1.0 && 0.0 <= power <= 1.0
    requires !(0.0 < alpha && 0.0 < power < 1.0)
    ensures !Add(NormPpf(ppf, 1.0 - alpha / 2.0), NormPpf(ppf, power)).Finite?
  {
    if alpha == 0.0 {
      assert NormPpf(ppf, 1.0 - alpha / 2.0) == PosInf;
    } else {
      assert IsInf(NormPpf(ppf, power));
    }
  }

  /** `ratio * (1 - ratio) * delta**2` is positive for a valid ratio and a
      non-zero effect size. */
  lemma DenominatorPositive(ratio: real, delta: real)
    requires 0.0 < ratio < 1.0 && delta != 0.0
    ensures Denominator(ratio, delta) > 0.0
  {
    PositiveProduct(ratio, 1.0 - ratio);
    SquareSign(delta);
    PositiveProduct(Times(ratio, 1.0 - ratio), Times(delta, delta));
  }

  /** For valid inputs the unrounded total is a finite, non-negative number:
      the real quotient `calculate_sample_size` computes. */
  lemma FiniteTotal(ppf: real -> real, alpha: real, power: real, delta: real, variance: real, ratio: real)
    requires Validate(alpha, power, variance, ratio) == None
    requires 0.0 < alpha && 0.0 < power < 1.0 && delta != 0.0
    ensures Denominator(ratio, delta) > 0.0
    ensures UnroundedTotal(ppf, alpha, power, delta, variance, ratio) ==
      Finite(TotalOf(ppf(1.0 - alpha / 2.0), ppf(power), delta, variance, ratio))
    ensures TotalOf(ppf(1.0 - alpha / 2.0), ppf(power), delta, variance, ratio) >= 0.0
  {
    var zAlpha, zPower := NormPpf(ppf, 1.0 - alpha / 2.0), NormPpf(ppf, power);
    assert zAlpha == Finite(ppf(1.0 - alpha / 2.0));
    assert zPower == Finite(ppf(power));
    var sum := ppf(1.0 - alpha / 2.0) + ppf(power);
    assert Square(Add(zAlpha, zPower)) == Finite(Times(sum, sum));
    var numerator := Times(Times(sum, sum), variance);
    assert Mul(Square(Add(zAlpha, zPower)), Finite(variance)) == Finite(numerator);
    DenominatorPositive(ratio, delta);
    SquareSign(sum);
    NonNegativeProduct(Times(sum, sum), variance);
    NonNegativeQuotient(numerator, Denominator(ratio, delta));
  }

  lemma NonNegativeQuotient(x: real, y: real)
    requires x >= 0.0 && y > 0.0
    ensures x / y >= 0.0
  {
  }

  /** Rounding a non-negative total split by `ratio`: the treated share rounded
      up, then the remainder rounded up, add up to the total rounded up, and
      neither is negative. */
  lemma ShareRounding(total: real, ratio: real)
    requires total >= 0.0 && 0.0 < ratio < 1.0
    ensures Ceil(Times(total, ratio)) >= 0
    ensures Ceil(total - Ceil(Times(total, ratio)) as real) >= 0
    ensures Ceil(Times(total, ratio)) + Ceil(total - Ceil(Times(total, ratio)) as real) == Ceil(total)
  {
    NonNegativeProduct(total, ratio);
    NonNegativeProduct(total, 1.0 - ratio);
    assert Times(total, 1.0 - ratio) == total - Times(total, ratio);
    CeilMinusInt(total, Ceil(Times(total, ratio)));
  }

  /** The two roundings of `calculate_sample_size` on a finite total. */
  lemma RoundedShares(nTotal: Float, total: real, ratio: real)
    requires nTotal == Finite(total)
    ensures ToInt(CeilF(Mul(nTotal, Finite(ratio)))) == Ok(Ceil(Times(total, ratio)))
    ensures ToInt(CeilF(Sub(nTotal, Finite(Ceil(Times(total, ratio)) as real)))) ==
      Ok(Ceil(total - Ceil(Times(total, ratio)) as real))
  {
    var treated := Ceil(Times(total, ratio));
    assert CeilF(Mul(nTotal, Finite(ratio))) == Finite(treated as real);
    TruncOfInt(treated);
    TruncOfInt(Ceil(total - treated as real));
  }

  /** On success the sizes round the shares up: `n_treated` is the ceiling of
      the treated share of the unrounded total, `n_control` the ceiling of what
      is left, and the returned total is the ceiling of the unrounded total;
      none is negative. */
  lemma RoundsUp(ppf: real -> real, alpha: real, power: real, delta: real, variance: real, ratio: real)
    requires CalculateSampleSize(ppf, alpha, power, delta, variance, ratio).Ok?
    ensures 0.0 < alpha && 0.0 < power < 1.0 && delta != 0.0 && 0.0 < ratio < 1.0
    ensures Denominator(ratio, delta) > 0.0
    ensures
      var total := TotalOf(ppf(1.0 - alpha / 2.0), ppf(power), delta, variance, ratio);
      var sizes := CalculateSampleSize(ppf, alpha, power, delta, variance, ratio).value;
      && total >= 0.0
      && sizes.nTreated == Ceil(Times(total, ratio)) && sizes.nTreated as real >= Times(total, ratio)
      && sizes.nControl == Ceil(total - sizes.nTreated as real)
      && sizes.nControl as real >= total - sizes.nTreated as real
      && sizes.nTotal == Ceil(total) && sizes.nTotal as real >= total
      && sizes.nTreated >= 0 && sizes.nControl >= 0
  {
    SucceedsExactly(ppf, alpha, power, delta, variance, ratio);
    FiniteTotal(ppf, alpha, power, delta, variance, ratio);
    var total := TotalOf(ppf(1.0 - alpha / 2.0), ppf(power), delta, variance, ratio);
    RoundedShares(UnroundedTotal(ppf, alpha, power, delta, variance, ratio), total, ratio);
    ShareRounding(total, ratio);
  }
}
