/** The part of IEEE 754 double arithmetic the sample-size calculator can
    reach: infinities and NaN as numpy produces them (an infinite quantile,
    `inf - inf`, `inf * 0`, a division by zero), with finite values as exact
    reals. Rounding of finite values and overflow to infinity are not modelled. */
module Floats {
  import opened Results
  import opened Rounding

  datatype Float = Finite(v: real) | PosInf | NegInf | NaN

  /** The product of two reals, kept as one term so that facts about a product
      carry over from one proof step to the next. */
  function Times(x: real, y: real): real {
    x * y
  }

  lemma PositiveProduct(x: real, y: real)
    requires x > 0.0 && y > 0.0
    ensures Times(x, y) > 0.0
  {
  }

  lemma NegativeProduct(x: real, y: real)
    requires x < 0.0 && y < 0.0
    ensures Times(x, y) > 0.0
  {
  }

  lemma NonNegativeProduct(x: real, y: real)
    requires x >= 0.0 && y >= 0.0
    ensures Times(x, y) >= 0.0
  {
  }

  /** A square is positive unless its root is zero. */
  lemma SquareSign(x: real)
    ensures Times(x, x) >= 0.0
    ensures x != 0.0 ==> Times(x, x) > 0.0
  {
    if x < 0.0 {
      NegativeProduct(x, x);
    } else if x > 0.0 {
      PositiveProduct(x, x);
    }
  }

  /** Why `int()` refuses a float: `OverflowError` for an infinity,
      `ValueError` for NaN. */
  datatype ConversionError = Overflow | NotANumber

  /** The sign of a non-NaN value: -1, 0 or 1. */
  function Sign(x: Float): (s: int)
    ensures -1 <= s <= 1
    ensures x.Finite? ==> (s == 0 <==> x.v == 0.0) && (s == 1 <==> x.v > 0.0)
    ensures x.PosInf? ==> s == 1
    ensures x.NegInf? ==> s == -1
  {
    match x
    case Finite(v) => if v > 0.0 then 1 else if v < 0.0 then -1 else 0
    case PosInf => 1
    case NegInf => -1
    case NaN => 0
  }

  /** The infinity of sign `s`. */
  function Inf(s: int): (x: Float)
    ensures x.PosInf? || x.NegInf?
    ensures Sign(x) == (if s < 0 then -1 else 1)
  {
    if s < 0 then NegInf else PosInf
  }

  predicate IsInf(x: Float) {
    x.PosInf? || x.NegInf?
  }

  function Add(x: Float, y: Float): (z: Float)
    ensures x.Finite? && y.Finite? ==> z == Finite(x.v + y.v)
    ensures z.NaN? <==> x.NaN? || y.NaN? || (IsInf(x) && IsInf(y) && x != y)
  {
    match (x, y)
    case (NaN, _) => NaN
    case (_, NaN) => NaN
    case (PosInf, NegInf) => NaN
    case (NegInf, PosInf) => NaN
    case (Finite(a), Finite(b)) => Finite(a + b)
    case (Finite(_), _) => y
    case (_, _) => x
  }

  function Sub(x: Float, y: Float): (z: Float)
    ensures x.Finite? && y.Finite? ==> z == Finite(x.v - y.v)
    ensures z.Finite? <==> x.Finite? && y.Finite?
  {
    Add(x, Negate(y))
  }

  function Negate(x: Float): (z: Float)
    ensures x.Finite? <==> z.Finite?
    ensures x.NaN? <==> z.NaN?
  {
    match x
    case Finite(a) => Finite(-a)
    case PosInf => NegInf
    case NegInf => PosInf
    case NaN => NaN
  }

  function Mul(x: Float, y: Float): (z: Float)
    ensures x.Finite? && y.Finite? ==> z == Finite(Times(x.v, y.v))
    ensures z.NaN? <==> x.NaN? || y.NaN? || (IsInf(x) && Sign(y) == 0) || (IsInf(y) && Sign(x) == 0)
    ensures z.Finite? <==> x.Finite? && y.Finite?
  {
    if x.NaN? || y.NaN? then NaN
    else if x.Finite? && y.Finite? then Finite(Times(x.v, y.v))
    else if Sign(x) == 0 || Sign(y) == 0 then NaN
    else Inf(Sign(x) * Sign(y))
  }

  /** `x / y` for a finite divisor, as numpy divides: a zero divisor gives an
      infinity, or NaN for `0 / 0`. */
  function Div(x: Float, y: real): (z: Float)
    ensures x.Finite? && y != 0.0 ==> z == Finite(x.v / y)
    ensures z.NaN? <==> x.NaN? || (y == 0.0 && Sign(x) == 0)
    ensures z.Finite? <==> x.Finite? && y != 0.0
  {
    if x.NaN? then NaN
    else if x.Finite? && y != 0.0 then Finite(x.v / y)
    else if Sign(x) == 0 then NaN
    else Inf(Sign(x) * (if y < 0.0 then -1 else 1))
  }

  /** `x ** 2` */
  function Square(x: Float): (z: Float)
    ensures x.Finite? ==> z == Finite(Times(x.v, x.v))
    ensures z.NaN? <==> x.NaN?
    ensures IsInf(x) ==> z == PosInf
  {
    Mul(x, x)
  }

  /** `np.ceil` */
  function CeilF(x: Float): (z: Float)
    ensures x.Finite? ==> z == Finite(Ceil(x.v) as real)
    ensures !x.Finite? ==> z == x
  {
    if x.Finite? then Finite(Ceil(x.v) as real) else x
  }

  /** `int()` of an integral float. */
  function ToInt(x: Float): (r: Result<int, ConversionError>)
    ensures x.Finite? ==> r == Ok(Trunc(x.v))
    ensures IsInf(x) ==> r == Err(Overflow)
    ensures x.NaN? ==> r == Err(NotANumber)
  {
    match x
    case Finite(a) => Ok(Trunc(a))
    case NaN => Err(NotANumber)
    case _ => Err(Overflow)
  }

  /** `norm.ppf(q)` where the quantile function on (0, 1) is `ppf`: the
      endpoints give infinities and anything outside [0, 1] NaN. */
  function NormPpf(ppf: real -> real, q: real): (z: Float)
    ensures z.Finite? <==> 0.0 < q < 1.0
    ensures z == PosInf <==> q == 1.0
    ensures z == NegInf <==> q == 0.0
    ensures 0.0 < q < 1.0 ==> z.v == ppf(q)
  {
    if q < 0.0 || q > 1.0 then NaN
    else if q == 0.0 then NegInf
    else if q == 1.0 then PosInf
    else Finite(ppf(q))
  }
}
