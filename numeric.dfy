/** The C numeric conventions the tone curve code relies on, over unbounded
    integers and exact reals (floats are abstracted as `real`). */
module Numeric {

  /** C's conversion `(int)v` of a floating-point value: truncation toward zero. */
  function Trunc(v: real): (r: int)
    ensures v >= 0.0 ==> r >= 0 && r as real <= v < r as real + 1.0
    ensures v < 0.0 ==> r <= 0 && r as real - 1.0 < v <= r as real
  {
    if v >= 0.0 then v.Floor else -((-v).Floor)
  }

  /** Truncation toward zero never decreases as its argument grows. */
  lemma TruncMonotone(v: real, w: real)
    requires v <= w
    ensures Trunc(v) <= Trunc(w)
  {
    if v < 0.0 && w >= 0.0 {
    } else if v >= 0.0 {
      assert Trunc(v) as real <= v <= w < Trunc(w) as real + 1.0;
    } else {
      assert Trunc(v) as real - 1.0 < v <= w <= Trunc(w) as real;
    }
  }

  /** The `CLAMP(v, lo, hi)` macro on integers. */
  function ClampInt(v: int, lo: int, hi: int): (r: int)
    requires lo <= hi
    ensures lo <= r <= hi
    ensures lo <= v <= hi ==> r == v
    ensures v <= lo ==> r == lo
    ensures v >= hi ==> r == hi
  {
    if v < lo then lo else if v > hi then hi else v
  }

  /** The `CLAMP(v, lo, hi)` macro on floating-point values. */
  function ClampReal(v: real, lo: real, hi: real): (r: real)
    requires lo <= hi
    ensures lo <= r <= hi
    ensures lo <= v <= hi ==> r == v
    ensures v <= lo ==> r == lo
    ensures v >= hi ==> r == hi
  {
    if v < lo then lo else if v > hi then hi else v
  }

  /** The `MAX(a, b)` macro. */
  function MaxReal(a: real, b: real): (r: real)
    ensures r >= a && r >= b && (r == a || r == b)
  {
    if a > b then a else b
  }

  /** The `MIN(a, b)` macro. */
  function MinReal(a: real, b: real): (r: real)
    ensures r <= a && r <= b && (r == a || r == b)
  {
    if a < b then a else b
  }

  /** A value clamped to [0, w] divided by w lies in [0, 1]. */
  lemma UnitRatio(v: real, w: real)
    requires 0.0 <= v <= w && w > 0.0
    ensures 0.0 <= v / w <= 1.0
    ensures v == 0.0 ==> v / w == 0.0
    ensures v == w ==> v / w == 1.0
  {
    assert v / w * w == v;
    assert (1.0 - v / w) * w == w - v;
  }
}
