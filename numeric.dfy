/** Scalar helpers shared by every module: `f32::clamp`, `f32::abs`, `max`, and
    the truncating remainder that Rust's `%` computes on `f32`. */
module Numeric {

  /** `x.clamp(lo, hi)`; Rust panics when `lo > hi`, so that is excluded here. */
  function Clamp(x: real, lo: real, hi: real): (r: real)
    requires lo <= hi
    ensures lo <= r <= hi
    ensures lo <= x <= hi ==> r == x
    ensures x < lo ==> r == lo
    ensures x > hi ==> r == hi
  {
    if x < lo then lo else if x > hi then hi else x
  }

  function Abs(x: real): (r: real)
    ensures r >= 0.0
    ensures r == x || r == -x
  {
    if x < 0.0 then -x else x
  }

  function Max(a: real, b: real): (r: real)
    ensures r >= a && r >= b
    ensures r == a || r == b
  {
    if a >= b then a else b
  }

  function Min(a: real, b: real): (r: real)
    ensures r <= a && r <= b
    ensures r == a || r == b
  {
    if a <= b then a else b
  }

  /** A uniform draw from `[lo, hi]` given as the unit draw `u`: `lo + u * (hi - lo)`. */
  function Lerp(lo: real, hi: real, u: real): (r: real)
    requires lo <= hi && 0.0 <= u <= 1.0
    ensures lo <= r <= hi
    ensures u == 0.0 ==> r == lo
    ensures u == 1.0 ==> r == hi
  {
    var d := hi - lo;
    UnitScale(d, u);
    lo + u * d
  }

  /** A unit fraction of a non-negative length lies between zero and the length. */
  lemma UnitScale(d: real, u: real)
    requires d >= 0.0 && 0.0 <= u <= 1.0
    ensures 0.0 <= u * d <= d
  {
    assert (1.0 - u) * d >= 0.0;
  }

  /** Every point of `[lo, hi]` is the value of some unit draw. */
  lemma {:induction false} LerpCovers(lo: real, hi: real, x: real)
    requires lo <= x <= hi
    ensures exists u :: 0.0 <= u <= 1.0 && Lerp(lo, hi, u) == x
  {
    if hi == lo {
      assert Lerp(lo, hi, 0.0) == x;
    } else {
      var d := hi - lo;
      var u := (x - lo) / d;
      assert u * d == x - lo;
      assert (u - 1.0) * d == x - lo - d;
      assert (u - 1.0) * d <= 0.0;
      assert Lerp(lo, hi, u) == x;
    }
  }

  /** Rounds toward zero, as the quotient inside Rust's `%` on floats does. */
  function Trunc(x: real): (n: int)
    ensures x >= 0.0 ==> 0 <= n && n as real <= x < n as real + 1.0
    ensures x < 0.0 ==> n <= 0 && n as real - 1.0 < x <= n as real
  {
    if x >= 0.0 then x.Floor else -((-x).Floor)
  }

  /** `a % b` on `f32`: the remainder takes the sign of `a`. */
  function FMod(a: real, b: real): (r: real)
    requires b > 0.0
    ensures a >= 0.0 ==> 0.0 <= r < b
    ensures a < 0.0 ==> -b < r <= 0.0
  {
    var x := a / b;
    assert a >= 0.0 <==> x >= 0.0;
    var q := Trunc(x) as real;
    if a >= 0.0 then RemainderAbove(a, b, x, q); a - q * b
    else RemainderBelow(a, b, x, q); a - q * b
  }

  /** With `a == x * b` and `x - q` in `[0, 1)`, the remainder `a - q * b` lies in `[0, b)`. */
  lemma RemainderAbove(a: real, b: real, x: real, q: real)
    requires b > 0.0 && x * b == a && q <= x < q + 1.0
    ensures 0.0 <= a - q * b < b
  {
    var d := x - q;
    assert d < 1.0;
    assert d * b < b;
    assert a - q * b == d * b;
  }

  /** With `a == x * b` and `x - q` in `(-1, 0]`, the remainder `a - q * b` lies in `(-b, 0]`. */
  lemma RemainderBelow(a: real, b: real, x: real, q: real)
    requires b > 0.0 && x * b == a && q - 1.0 < x <= q
    ensures -b < a - q * b <= 0.0
  {
    var d := q - x;
    assert d < 1.0;
    assert d * b < b;
    assert q * b - a == d * b;
  }
}
