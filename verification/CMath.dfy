/** The pieces of the C maths library and of C conversions that the oscillator equations use,
    stated over Dafny's exact reals. */
module CMath {
  /** C's division of doubles, for a non-zero divisor, in exact arithmetic. */
  function Quotient(x: real, y: real): real
    requires y != 0.0
  {
    x / y
  }

  /** C's `fabs`. */
  function Abs(x: real): (r: real)
    ensures r >= 0.0
    ensures r == x || r == -x
  {
    if x < 0.0 then -x else x
  }

  /** C's float-to-int conversion (`static_cast<int>`, or an implicit conversion on
      assignment to an `int`): the fraction is discarded, rounding toward zero. */
  function TruncateToInt(x: real): (r: int)
    ensures x >= 0.0 ==> r >= 0 && r as real <= x < r as real + 1.0
    ensures x <= 0.0 ==> r <= 0 && r as real - 1.0 < x <= r as real
  {
    if x >= 0.0 then x.Floor else -((-x).Floor)
  }

  /** C's `fmod(a, b)` for a non-negative dividend and a positive divisor, where truncating and
      flooring `a / b` agree: what is left of `a` once every whole multiple of `b` is taken away. */
  function Fmod(a: real, b: real): (r: real)
    requires a >= 0.0 && b > 0.0
    ensures 0.0 <= r < b
    ensures r <= a
    ensures ((a - r) / b).Floor as real == (a - r) / b
  {
    var k := (a / b).Floor;
    var d := a / b - k as real;
    FloorBounds(a / b, k);
    ScaleBelow(b, d);
    var r := a - b * k as real;
    assert r == b * d;
    assert (a - r) / b == k as real;
    r
  }

  /** The quotient `a / b` lies in [k, k + 1) for its floor k, so b * (a/b - k) lies in [0, b). */
  lemma FloorBounds(q: real, k: int)
    requires k == q.Floor
    ensures k as real <= q < k as real + 1.0
  {
  }

  /** A positive scale applied to a fraction in [0, 1) stays in [0, scale). */
  lemma ScaleBelow(b: real, d: real)
    requires b > 0.0 && 0.0 <= d < 1.0
    ensures 0.0 <= b * d < b
  {
    assert b - b * d == b * (1.0 - d);
  }

  /** Multiplying by a positive number keeps the sign. */
  lemma MulSign(a: real, P: real)
    requires P > 0.0
    ensures a > 0.0 <==> a * P > 0.0
    ensures a < 0.0 <==> a * P < 0.0
  {
    if a > 0.0 { assert a * P > 0.0 * P; }
    if a < 0.0 { assert a * P < 0.0 * P; }
  }

  /** Shifting the dividend by whole periods does not change the remainder: the phase of a
      counter taken modulo a period depends only on the counter modulo that period. */
  lemma {:induction false} FmodShift(a: real, b: real, k: nat)
    requires a >= 0.0 && b > 0.0
    ensures Fmod(a + k as real * b, b) == Fmod(a, b)
  {
    var q := a / b;
    assert (a + k as real * b) / b == q + k as real;
    FloorShift(q, k);
  }

  /** Adding a whole number to a real adds it to the floor. */
  lemma FloorShift(q: real, k: int)
    ensures (q + k as real).Floor == q.Floor + k
  {
    var f := q.Floor;
    assert f as real <= q < f as real + 1.0;
    assert (f + k) as real <= q + k as real < (f + k) as real + 1.0;
  }
}
