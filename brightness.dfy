/**
 * The brightness mapper: a calibrated photoresistor reading becomes the
 * 10-bit PWM duty the LED uses when it flashes.  The firmware computes it in
 * floating point; here the same steps are done on exact reals, followed by
 * the truncating conversion C applies when a float is returned as an int.
 */
module Brightness {

  /** Reading at which the normalised light level is 0. */
  const Offset: int := 500
  /** Reading span that the normalised light level maps onto [0, 1]. */
  const Span: int := 2598
  /** Lower clamp of the normalised level: the LED never drops below 10 %. */
  const MinLevel: real := 0.1
  /** Upper clamp of the normalised level. */
  const MaxLevel: real := 1.0
  /** Largest duty of the 10-bit PWM channel. */
  const FullScale: int := 1023

  /** C's float-to-int conversion: truncation toward zero. */
  function TruncateTowardZero(x: real): (n: int)
    ensures 0.0 <= x ==> 0 <= n && n as real <= x < n as real + 1.0
    ensures x <= 0.0 ==> n <= 0 && n as real - 1.0 < x <= n as real
  {
    if x >= 0.0 then x.Floor else -((-x).Floor)
  }

  /** The reading shifted and scaled so that [Offset, Offset + Span] lands on [0, 1]. */
  function Normalise(reading: int): real
  {
    (reading - Offset) as real / Span as real
  }

  /** The two clamps, upper first and lower second, as the firmware applies them. */
  function Clamp(level: real): (c: real)
    ensures MinLevel <= c <= MaxLevel
    ensures MinLevel <= level <= MaxLevel ==> c == level
    ensures level < MinLevel ==> c == MinLevel
    ensures MaxLevel < level ==> c == MaxLevel
  {
    var capped := if level > MaxLevel then MaxLevel else level;
    if capped < MinLevel then MinLevel else capped
  }

  /** The duty used for an "on" flash, given the ambient-light reading. */
  function RawAdcToLedVal(reading: int): (duty: int)
    ensures 102 <= duty <= FullScale
  {
    TruncateTowardZero(Clamp(Normalise(reading)) * FullScale as real)
  }

  /**
   * An independent definition of the same map in integer arithmetic only:
   * below the lower clamp the duty is 10 % of full scale rounded down, at
   * or above the span it is full scale, and in between it is the exact
   * quotient rounded down.
   */
  function LedValByIntegers(reading: int): int
  {
    var shifted := reading - Offset;
    if shifted >= Span then FullScale
    else if 10 * shifted < Span then 102
    else shifted * FullScale / Span
  }

  /** Rounding a quotient by the span down is the same in reals and in integers. */
  lemma FloorOfQuotientBySpan(n: int)
    requires 0 <= n
    ensures (n as real / Span as real).Floor == n / Span
  {
    var k := n / Span;
    assert k * Span <= n < (k + 1) * Span;
    assert k as real <= n as real / Span as real < k as real + 1.0;
  }

  /** The real-valued mapper and the integer reference agree on every reading. */
  lemma RawAdcToLedValByIntegers(reading: int)
    ensures RawAdcToLedVal(reading) == LedValByIntegers(reading)
  {
    var shifted := reading - Offset;
    var level := Normalise(reading);
    if shifted >= Span {
      assert level >= 1.0;
    } else if 10 * shifted < Span {
      assert level < MinLevel;
      assert (MinLevel * FullScale as real).Floor == 102;
    } else {
      assert MinLevel <= level < MaxLevel;
      assert level * FullScale as real == (shifted * FullScale) as real / Span as real;
      FloorOfQuotientBySpan(shifted * FullScale);
    }
  }

  /** A brighter room never yields a dimmer flash. */
  lemma RawAdcToLedValMonotonic(a: int, b: int)
    requires a <= b
    ensures RawAdcToLedVal(a) <= RawAdcToLedVal(b)
  {
    assert Normalise(a) <= Normalise(b);
    var ca, cb := Clamp(Normalise(a)), Clamp(Normalise(b));
    assert ca <= cb;
    assert ca * FullScale as real <= cb * FullScale as real;
  }

  /** The lower clamp takes effect exactly for readings at or below 759. */
  lemma LowerClampEngages(reading: int)
    ensures Normalise(reading) < MinLevel <==> reading <= 759
  {
  }

  /** The minimum duty 102 is produced exactly by the readings at or below 761. */
  lemma MinimumDutyReadings(reading: int)
    ensures RawAdcToLedVal(reading) == 102 <==> reading <= 761
  {
    RawAdcToLedValByIntegers(reading);
    var shifted := reading - Offset;
    if 10 * shifted >= Span && shifted < Span {
      if shifted <= 261 {
        assert shifted * FullScale < 103 * Span;
      } else {
        assert shifted * FullScale >= 103 * Span;
      }
    }
  }

  /** Full scale 1023 is produced exactly by the readings at or above 3098. */
  lemma FullScaleReadings(reading: int)
    ensures RawAdcToLedVal(reading) == FullScale <==> reading >= 3098
  {
    RawAdcToLedValByIntegers(reading);
    var shifted := reading - Offset;
    if 10 * shifted >= Span && shifted < Span {
      assert shifted * FullScale < FullScale * Span;
    }
  }
}
