/** The two ways the program keeps an angle (in degrees) bounded.

    Moons and rings advance an angle and subtract 360 once when it reaches 360
    (Ring.cs:67-69, Moon.cs:30-35). The planet's rotation is reduced with the
    single-precision remainder operator `% 360` instead (SaturnSimulation.cs:181). */
module Angles {

  /** One conditional subtraction of a full turn. */
  function WrapOnce(a: real): (r: real)
    ensures r == a || r == a - 360.0
    ensures r < 360.0 <==> a < 720.0
    ensures 0.0 <= a < 360.0 ==> r == a
  {
    if a >= 360.0 then a - 360.0 else a
  }

  /** The update step shared by Moon.Update and Ring.Update: grow by
      speed * dt, then wrap once. */
  function Advance(angle: real, speed: real, dt: real): (r: real)
    ensures r == angle + speed * dt || r == angle + speed * dt - 360.0
    ensures r < 360.0 <==> angle + speed * dt < 720.0
  {
    WrapOnce(angle + speed * dt)
  }

  /** A single subtraction lands in [0, 360) exactly for inputs in [0, 720). */
  lemma WrapOnceRange(a: real)
    ensures 0.0 <= WrapOnce(a) < 360.0 <==> 0.0 <= a < 720.0
    ensures 0.0 <= a < 360.0 ==> WrapOnce(a) == a
  {
  }

  /** The exact condition for Advance to give an angle in [0, 360). */
  lemma AdvanceRangeExactly(angle: real, speed: real, dt: real)
    ensures 0.0 <= Advance(angle, speed, dt) < 360.0 <==> 0.0 <= angle + speed * dt < 720.0
  {
    WrapOnceRange(angle + speed * dt);
  }

  /** An angle in range stays in range when the increment is in [0, 360). */
  lemma AdvanceStaysInRange(angle: real, speed: real, dt: real)
    requires 0.0 <= angle < 360.0
    requires 0.0 <= speed * dt < 360.0
    ensures 0.0 <= Advance(angle, speed, dt) < 360.0
    ensures Advance(angle, speed, dt) == angle + speed * dt
            || Advance(angle, speed, dt) == angle + speed * dt - 360.0
  {
    AdvanceRangeExactly(angle, speed, dt);
  }

  /** The wrap only ever adds: a negative increment leaves the range. */
  lemma AdvanceNegativeEscapes(angle: real, speed: real, dt: real)
    requires 0.0 <= angle < 360.0
    requires angle + speed * dt < 0.0
    ensures Advance(angle, speed, dt) < 0.0
  {
  }

  /** With no elapsed (scaled) time an angle in range is left as it is. */
  lemma AdvanceStill(angle: real, speed: real)
    requires 0.0 <= angle < 360.0
    ensures Advance(angle, speed, 0.0) == angle
  {
  }

  /** Rounding toward zero, as a float-to-integer conversion does. */
  function Truncate(x: real): (n: int)
    ensures 0.0 <= x ==> 0 <= n && n as real <= x < n as real + 1.0
    ensures x < 0.0 ==> n <= 0 && n as real - 1.0 < x <= n as real
  {
    if x >= 0.0 then x.Floor else -((-x).Floor)
  }

  /** The C# `%` operator on floats with divisor 360: the remainder of the
      quotient truncated toward zero, so it takes the sign of the dividend. */
  function Rem360(x: real): (r: real)
    ensures 0.0 <= x ==> 0.0 <= r < 360.0
    ensures x < 0.0 ==> -360.0 < r <= 0.0
  {
    x - 360.0 * (Truncate(x / 360.0) as real)
  }

  /** Rem360 keeps the value modulo a whole number of turns, lands in [0, 360)
      for a non-negative input, in (-360, 0] for a negative one, and leaves an
      angle already in [0, 360) alone. */
  lemma Rem360Range(x: real)
    ensures ((x - Rem360(x)) / 360.0).Floor as real == (x - Rem360(x)) / 360.0
    ensures 0.0 <= x ==> 0.0 <= Rem360(x) < 360.0
    ensures x < 0.0 ==> -360.0 < Rem360(x) <= 0.0
    ensures 0.0 <= x < 360.0 ==> Rem360(x) == x
  {
    var n := Truncate(x / 360.0);
    assert x - Rem360(x) == 360.0 * n as real;
    if 0.0 <= x < 360.0 {
      assert 0.0 <= x / 360.0 < 1.0;
      assert n == 0;
    }
  }
}
