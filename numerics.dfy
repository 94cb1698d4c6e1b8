/**
 * The few pieces of .NET arithmetic the cropper relies on, stated over
 * unbounded `int` and exact `real`: Math.Min/Max/Abs, Math.Ceiling,
 * Math.Round (which rounds half to even), the truncating `(int)` cast and
 * the truncating remainder `%`.
 */
module Numerics {

  function Min(a: real, b: real): (r: real)
    ensures r <= a && r <= b
    ensures r == a || r == b
  {
    if a <= b then a else b
  }

  function Max(a: real, b: real): (r: real)
    ensures r >= a && r >= b
    ensures r == a || r == b
  {
    if a >= b then a else b
  }

  function Abs(a: real): (r: real)
    ensures r >= 0.0
    ensures r == a || r == -a
  {
    if a < 0.0 then -a else a
  }

  /** Math.Ceiling followed by an `(int)` cast: the least integer not below `x`. */
  function Ceiling(x: real): (n: int)
    ensures n as real - 1.0 < x <= n as real
  {
    -((-x).Floor)
  }

  /** Math.Round with its default midpoint rule: the nearest integer, ties to the even one. */
  function RoundHalfEven(x: real): (n: int)
    ensures Abs(n as real - x) <= 0.5
    ensures Abs(n as real - x) == 0.5 ==> n % 2 == 0
  {
    var f := x.Floor;
    var d := x - f as real;
    if d < 0.5 then f
    else if d > 0.5 then f + 1
    else if f % 2 == 0 then f
    else f + 1
  }

  /** The `(int)` cast of a floating-point value: rounds toward zero. */
  function Truncate(x: real): (n: int)
    ensures 0.0 <= x ==> 0 <= n && n as real <= x < n as real + 1.0
    ensures x < 0.0 ==> n <= 0 && n as real - 1.0 < x <= n as real
  {
    if x >= 0.0 then x.Floor else -((-x).Floor)
  }

  /** Integer division `/` on `int`: the quotient is rounded toward zero. */
  function TruncatedQuotient(a: int, n: int): (q: int)
    requires n > 0
    ensures a >= 0 ==> q >= 0
    ensures a <= 0 ==> q <= 0
  {
    if a >= 0 then a / n else -((-a) / n)
  }

  /** The `%` operator on `int`: the remainder takes the sign of the dividend. */
  function TruncatedRemainder(a: int, n: int): (r: int)
    requires n > 0
    ensures -n < r < n
    ensures a >= 0 ==> r >= 0
    ensures a <= 0 ==> r <= 0
    ensures a == n * TruncatedQuotient(a, n) + r
  {
    if a >= 0 then a % n
    else
      var q := (-a) / n;
      assert -a == n * q + (-a) % n;
      assert n * (-q) == -(n * q);
      -((-a) % n)
  }
}
