/**
 * The pieces of JavaScript number semantics the editor relies on, on finite
 * values: truncation toward zero, the `%` operator, and the unsigned-long
 * conversion a DOM attribute such as `canvas.width` applies on assignment.
 */
module JsNumber {

  /** `Math.trunc`: rounds toward zero. */
  function Trunc(x: real): (n: int)
    ensures 0.0 <= x ==> 0 <= n && n as real <= x < n as real + 1.0
    ensures x < 0.0 ==> n <= 0 && n as real - 1.0 < x <= n as real
  {
    if x >= 0.0 then x.Floor else -((-x).Floor)
  }

  /** The `%` operator: the remainder of truncating division, with the sign of the dividend. */
  function Remainder(a: real, d: real): real
    requires d != 0.0
  {
    a - d * Trunc(a / d) as real
  }

  /** For a non-negative dividend and a positive constant minute length, `%` is the
      usual modulus, and its integer part is the integer part of `a` reduced mod 60. */
  lemma RemainderBySixty(a: real)
    requires 0.0 <= a
    ensures 0.0 <= Remainder(a, 60.0) < 60.0
    ensures Remainder(a, 60.0).Floor == a.Floor % 60
    ensures (a / 60.0).Floor == a.Floor / 60
  {
    var q := Trunc(a / 60.0);
    assert q == (a / 60.0).Floor;
    assert 60.0 * q as real <= a < 60.0 * q as real + 60.0;
    var r := Remainder(a, 60.0);
    assert r == a - 60.0 * q as real;
    assert r.Floor == a.Floor - 60 * q;
    assert 60 * q <= a.Floor < 60 * q + 60;
  }

  const TwoTo32: int := 0x1_0000_0000

  /** ToUint32 on a finite number: truncate toward zero, then reduce modulo 2^32. */
  function ToUint32(x: real): (n: nat)
    ensures n < TwoTo32
    ensures 0.0 <= x < TwoTo32 as real ==> n == x.Floor
    ensures -(TwoTo32 as real) < x < 0.0 ==> n == 0 || n == TwoTo32 + Trunc(x)
  {
    Trunc(x) % TwoTo32
  }
}
