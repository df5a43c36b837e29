/** The two float-to-integer roundings the code relies on, over exact reals. */
module Rounding {

  /** Python's `int(x)` on a finite float: truncation toward zero. */
  function Trunc(x: real): (r: int)
    ensures 0.0 <= x ==> 0 <= r && r as real <= x < r as real + 1.0
    ensures x < 0.0 ==> r <= 0 && r as real - 1.0 < x <= r as real
  {
    if x >= 0.0 then x.Floor else -((-x).Floor)
  }

  /** `int()` of a whole number is that number. */
  lemma TruncOfInt(k: int)
    ensures Trunc(k as real) == k
  {
    assert (k as real).Floor == k;
    assert (-(k as real)).Floor == -k;
  }

  /** `np.ceil(x)`: the least integer not below `x`. */
  function Ceil(x: real): (r: int)
    ensures x <= r as real < x + 1.0
  {
    -((-x).Floor)
  }

  /** Ceiling commutes with subtracting a whole number. */
  lemma CeilMinusInt(x: real, k: int)
    ensures Ceil(x - k as real) == Ceil(x) - k
  {
    var a, b := Ceil(x - k as real), Ceil(x) - k;
    assert x - k as real <= b as real < x - k as real + 1.0;
    assert x - k as real <= a as real < x - k as real + 1.0;
  }

}
