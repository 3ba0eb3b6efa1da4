/** The arithmetic helpers the robot code takes from its math library:
    clamping, joystick deadband and the degree/radian conversion. */
module MathUtil {

  /** Java's Math.PI, written as a decimal. */
  const PI: real := 3.141592653589793

  function Abs(x: real): real
  {
    if x < 0.0 then -x else x
  }

  function Min(a: real, b: real): real
  {
    if a <= b then a else b
  }

  function Max(a: real, b: real): real
  {
    if a >= b then a else b
  }

  /** MathUtil.clamp(value, low, high) = max(low, min(value, high)): the value
      saturated into [low, high]. Out-of-range values are never rejected. */
  function Clamp(value: real, low: real, high: real): (r: real)
    ensures low <= high ==> low <= r <= high
    ensures low <= value <= high ==> r == value
    ensures value < low ==> r == low
    ensures low <= high < value ==> r == high
  {
    Max(low, Min(value, high))
  }

  /** Clamping twice is clamping once. */
  lemma ClampIdempotent(value: real, low: real, high: real)
    requires low <= high
    ensures Clamp(Clamp(value, low, high), low, high) == Clamp(value, low, high)
  {
  }

  /** MathUtil.applyDeadband(value, deadband) with the library's default
      maximum magnitude of 1: inputs within the band become exactly 0 and the
      rest of [-1, 1] is rescaled linearly so that full scale stays full scale. */
  function ApplyDeadband(value: real, deadband: real): (r: real)
    requires 0.0 < deadband < 1.0
    ensures r == 0.0 <==> -deadband <= value <= deadband
    ensures value > deadband ==> r > 0.0
    ensures value < -deadband ==> r < 0.0
    ensures -1.0 <= value <= 1.0 ==> -1.0 <= r <= 1.0
  {
    if Abs(value) > deadband then
      if 1.0 / deadband > 1000000000000.0 then
        (if value > 0.0 then value - deadband else value + deadband)
      else if value > 0.0 then
        DeadbandScaled(value - deadband, deadband)
      else
        DeadbandScaled(value + deadband, deadband)
    else
      0.0
  }

  /** The linear map 1 * x / (1 - deadband) used above the band. */
  function DeadbandScaled(x: real, deadband: real): (r: real)
    requires 0.0 < deadband < 1.0
    ensures x > 0.0 ==> r > 0.0
    ensures x < 0.0 ==> r < 0.0
    ensures -(1.0 - deadband) <= x <= 1.0 - deadband ==> -1.0 <= r <= 1.0
    ensures x >= 1.0 - deadband ==> r >= 1.0
    ensures x <= -(1.0 - deadband) ==> r <= -1.0
  {
    var d := 1.0 - deadband;
    QuotientBounds(x, d);
    1.0 * x / d
  }

  /** Bounds on x / d for a positive divisor, from x == (x / d) * d. */
  lemma QuotientBounds(x: real, d: real)
    requires d > 0.0
    ensures x > 0.0 ==> x / d > 0.0
    ensures x < 0.0 ==> x / d < 0.0
    ensures -d <= x <= d ==> -1.0 <= x / d <= 1.0
    ensures x >= d ==> x / d >= 1.0
    ensures x <= -d ==> x / d <= -1.0
  {
    var q := x / d;
    assert q * d == x;
    if q > 1.0 { assert q * d > 1.0 * d; }
    if q < -1.0 { assert q * d < -1.0 * d; }
    if q < 1.0 { assert q * d < 1.0 * d; }
    if q > -1.0 { assert q * d > -1.0 * d; }
  }

  /** A joystick value after deadband and then clamp: 0 exactly inside the
      band, the sign of the input outside it, and full scale for any input
      at or beyond full scale. */
  function DeadbandThenClamp(value: real, deadband: real): (r: real)
    requires 0.0 < deadband < 1.0
    ensures -1.0 <= r <= 1.0
    ensures r == 0.0 <==> -deadband <= value <= deadband
    ensures value > deadband ==> r > 0.0
    ensures value < -deadband ==> r < 0.0
    ensures 1.0 / deadband <= 1000000000000.0 && value >= 1.0 ==> r == 1.0
    ensures 1.0 / deadband <= 1000000000000.0 && value <= -1.0 ==> r == -1.0
  {
    var deadbanded := ApplyDeadband(value, deadband);
    assert 1.0 / deadband <= 1000000000000.0 && value >= 1.0 ==> deadbanded >= 1.0 by {
      if 1.0 / deadband <= 1000000000000.0 && value >= 1.0 {
        assert deadbanded == DeadbandScaled(value - deadband, deadband);
      }
    }
    assert 1.0 / deadband <= 1000000000000.0 && value <= -1.0 ==> deadbanded <= -1.0 by {
      if 1.0 / deadband <= 1000000000000.0 && value <= -1.0 {
        assert deadbanded == DeadbandScaled(value + deadband, deadband);
      }
    }
    Clamp(deadbanded, -1.0, 1.0)
  }

  /** A stick value inside the band gives 0; one beyond full scale gives exactly 1. */
  lemma DeadbandThenClampExamples()
    ensures DeadbandThenClamp(0.05, 0.1) == 0.0
    ensures DeadbandThenClamp(1.5, 0.1) == 1.0
  {
  }

  /** Units.degreesToRadians. */
  function DegreesToRadians(degrees: real): real
  {
    degrees * PI / 180.0
  }
}
