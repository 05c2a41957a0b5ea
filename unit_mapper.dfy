/**
 * The conversions from raw ADC codes (0..1023) to the controller's settings: the PWM
 * frequency that sets the pulse delay, and the potentiometer steps for on-time and
 * amplitude. Each is `numpy.interp` over the sample points [0, 1023]; the two step
 * mappings are then truncated by Python's `int`. Also the physical values shown on the
 * display for a step. Reals here are exact rationals.
 */
module UnitMapper {

  /** Largest raw code of the 10-bit ADC. */
  const RAW_MAX := 1023
  /** Number of potentiometer steps. */
  const STEPS := 0x80

  function Min(a: real, b: real): real { if a <= b then a else b }
  function Max(a: real, b: real): real { if a <= b then b else a }

  /**
   * `numpy.interp(x, [x0, x1], [y0, y1])`: y0 at and left of x0, y1 at and right of x1,
   * the straight line through both points in between.
   */
  function Interp(x: real, x0: real, x1: real, y0: real, y1: real): (y: real)
    requires x0 < x1
    ensures x <= x0 ==> y == y0
    ensures x >= x1 ==> y == y1
    ensures Min(y0, y1) <= y <= Max(y0, y1)
  {
    if x <= x0 then y0
    else if x >= x1 then y1
    else
      var t := (x - x0) / (x1 - x0);
      RatioInUnit(x - x0, x1 - x0);
      assert (y1 - y0) / (x1 - x0) * (x - x0) == t * (y1 - y0);
      BetweenEnds(t, y0, y1);
      (y1 - y0) / (x1 - x0) * (x - x0) + y0
  }

  lemma ProductNonNegative(u: real, v: real)
    requires u >= 0.0 && v >= 0.0
    ensures u * v >= 0.0
  {
  }

  /** A point a fraction t of the way from y0 to y1 lies between them. */
  lemma BetweenEnds(t: real, y0: real, y1: real)
    requires 0.0 <= t <= 1.0
    ensures Min(y0, y1) <= y0 + t * (y1 - y0) <= Max(y0, y1)
  {
    assert y1 - (y0 + t * (y1 - y0)) == (1.0 - t) * (y1 - y0);
    if y0 <= y1 {
      ProductNonNegative(t, y1 - y0);
      ProductNonNegative(1.0 - t, y1 - y0);
    } else {
      ProductNonNegative(t, y0 - y1);
      ProductNonNegative(1.0 - t, y0 - y1);
      assert t * (y0 - y1) == -(t * (y1 - y0));
      assert (1.0 - t) * (y0 - y1) == -((1.0 - t) * (y1 - y0));
    }
  }

  lemma RatioInUnit(a: real, b: real)
    requires 0.0 < a < b
    ensures 0.0 < a / b < 1.0
  {
    var t := a / b;
    assert t * b == a;
    if t >= 1.0 {
      ProductNonNegative(t - 1.0, b);
      assert false;
    }
    if t <= 0.0 {
      ProductNonNegative(-t, b);
      assert false;
    }
  }

  lemma QuotientSign(a: real, b: real)
    requires b > 0.0
    ensures a >= 0.0 ==> a / b >= 0.0
    ensures a <= 0.0 ==> a / b <= 0.0
  {
    var t := a / b;
    assert t * b == a;
    if a >= 0.0 && t < 0.0 {
      ProductNonNegative(-t, b);
      assert false;
    }
    if a <= 0.0 && t > 0.0 {
      ProductNonNegative(t, b);
      assert false;
    }
  }

  /** Taking reciprocals reverses the order of positive numbers. */
  lemma ReciprocalAntitone(f: real, f': real)
    requires 0.0 < f' <= f
    ensures 1.0 / f <= 1.0 / f'
  {
    var a, b := 1.0 / f, 1.0 / f';
    assert a * f == 1.0 && b * f' == 1.0;
    QuotientSign(1.0, f);
    if a > b {
      ProductNonNegative(a, f - f');
      ProductPositive(a - b, f');
      assert false;
    }
  }

  lemma ProductPositive(u: real, v: real)
    requires u > 0.0 && v > 0.0
    ensures u * v > 0.0
  {
  }

  /** A larger x never moves the interpolated value away from y1. */
  lemma InterpMonotone(x: real, x': real, x0: real, x1: real, y0: real, y1: real)
    requires x0 < x1 && x <= x'
    ensures y0 <= y1 ==> Interp(x, x0, x1, y0, y1) <= Interp(x', x0, x1, y0, y1)
    ensures y0 >= y1 ==> Interp(x, x0, x1, y0, y1) >= Interp(x', x0, x1, y0, y1)
  {
    if x0 < x && x' < x1 {
      var s := (y1 - y0) / (x1 - x0);
      QuotientSign(y1 - y0, x1 - x0);
      assert s * (x' - x0) - s * (x - x0) == s * (x' - x);
      if y0 <= y1 {
        ProductNonNegative(s, x' - x);
      }
      if y0 >= y1 {
        ProductNonNegative(-s, x' - x);
        assert (-s) * (x' - x) == -(s * (x' - x));
      }
    }
  }

  /** Python's `int` on a number: truncation toward zero. */
  function Trunc(r: real): (n: int)
    ensures r >= 0.0 ==> 0 <= n && n as real <= r < n as real + 1.0
    ensures r < 0.0 ==> n <= 0 && r <= n as real && (n as real) - 1.0 < r
  {
    if r >= 0.0 then r.Floor else -((-r).Floor)
  }

  lemma TruncMonotone(r: real, r': real)
    requires 0.0 <= r <= r'
    ensures Trunc(r) <= Trunc(r')
  {
  }

  /** Truncating an exact quotient by 1023 is integer division by 1023. */
  lemma TruncOfQuotient(a: nat)
    ensures Trunc(a as real / RAW_MAX as real) == a / RAW_MAX
  {
    var q, r := a / RAW_MAX, a % RAW_MAX;
    assert a == RAW_MAX * q + r;
    var x := a as real / RAW_MAX as real;
    assert x * 1023.0 == a as real;
    assert q as real <= x < q as real + 1.0;
  }

  // ---- delay: ADC channel 0 -> PWM frequency ----

  /** `interp(raw, [0, 1023], [1, 0.1])`, the PWM frequency in Hz. */
  function DelayValue(raw: int): (hz: real)
    ensures 0.1 <= hz <= 1.0
  {
    Interp(raw as real, 0.0, RAW_MAX as real, 1.0, 0.1)
  }

  lemma DelayEnds()
    ensures DelayValue(0) == 1.0 && DelayValue(RAW_MAX) == 0.1
  {
  }

  lemma DelayMonotone(raw: int, raw': int)
    requires raw <= raw'
    ensures DelayValue(raw') <= DelayValue(raw)
  {
    InterpMonotone(raw as real, raw' as real, 0.0, RAW_MAX as real, 1.0, 0.1);
  }

  /** On the ADC's range the frequency falls linearly, by 0.9 Hz over the 1023 codes. */
  lemma DelayFormula(raw: int)
    requires 0 <= raw <= RAW_MAX
    ensures DelayValue(raw) == 1.0 - 0.9 * raw as real / 1023.0
  {
  }

  /** The delay shown, `1 / frequency` seconds, lies in [1, 10] and grows with raw. */
  lemma DelayPeriod(raw: int, raw': int)
    requires raw <= raw'
    ensures 1.0 <= 1.0 / DelayValue(raw) <= 1.0 / DelayValue(raw') <= 10.0
  {
    DelayMonotone(raw, raw');
    var f, f' := DelayValue(raw), DelayValue(raw');
    ReciprocalAntitone(1.0, f);
    ReciprocalAntitone(f, f');
    ReciprocalAntitone(f', 0.1);
  }

  // ---- on-time: ADC channel 1 -> on-time potentiometer step ----

  /** `int(interp(raw, [0, 1023], [0x80, 0x00]))`. */
  function OnTimeStep(raw: int): (step: int)
    ensures 0 <= step <= STEPS
  {
    Trunc(Interp(raw as real, 0.0, RAW_MAX as real, STEPS as real, 0.0))
  }

  /** On the ADC's range the step is `128 * (1023 - raw) / 1023` in integer division. */
  lemma OnTimeStepFormula(raw: int)
    requires 0 <= raw <= RAW_MAX
    ensures OnTimeStep(raw) == (STEPS * (RAW_MAX - raw)) / RAW_MAX
  {
    if raw < RAW_MAX {
      var y := Interp(raw as real, 0.0, RAW_MAX as real, STEPS as real, 0.0);
      assert y == (STEPS * (RAW_MAX - raw)) as real / RAW_MAX as real;
      TruncOfQuotient(STEPS * (RAW_MAX - raw));
    }
  }

  lemma OnTimeStepEnds()
    ensures OnTimeStep(0) == 128 && OnTimeStep(RAW_MAX) == 0
  {
    OnTimeStepFormula(0);
  }

  lemma OnTimeStepMonotone(raw: int, raw': int)
    requires raw <= raw'
    ensures OnTimeStep(raw') <= OnTimeStep(raw)
  {
    InterpMonotone(raw as real, raw' as real, 0.0, RAW_MAX as real, STEPS as real, 0.0);
    TruncMonotone(Interp(raw' as real, 0.0, RAW_MAX as real, STEPS as real, 0.0),
                  Interp(raw as real, 0.0, RAW_MAX as real, STEPS as real, 0.0));
  }

  // ---- amplitude: ADC channel 2 -> amplitude potentiometer step ----

  /** `int(interp(raw, [0, 1023], [0x00, 0x80]))`. */
  function AmpStep(raw: int): (step: int)
    ensures 0 <= step <= STEPS
  {
    Trunc(Interp(raw as real, 0.0, RAW_MAX as real, 0.0, STEPS as real))
  }

  /** On the ADC's range the step is `128 * raw / 1023` in integer division. */
  lemma AmpStepFormula(raw: int)
    requires 0 <= raw <= RAW_MAX
    ensures AmpStep(raw) == (STEPS * raw) / RAW_MAX
  {
    if raw < RAW_MAX {
      var y := Interp(raw as real, 0.0, RAW_MAX as real, 0.0, STEPS as real);
      assert y == (STEPS * raw) as real / RAW_MAX as real;
      TruncOfQuotient(STEPS * raw);
    }
  }

  lemma AmpStepEnds()
    ensures AmpStep(0) == 0 && AmpStep(RAW_MAX) == 128
  {
    AmpStepFormula(0);
  }

  lemma AmpStepMonotone(raw: int, raw': int)
    requires raw <= raw'
    ensures AmpStep(raw) <= AmpStep(raw')
  {
    InterpMonotone(raw as real, raw' as real, 0.0, RAW_MAX as real, 0.0, STEPS as real);
    TruncMonotone(Interp(raw as real, 0.0, RAW_MAX as real, 0.0, STEPS as real),
                  Interp(raw' as real, 0.0, RAW_MAX as real, 0.0, STEPS as real));
  }

  // ---- values shown on the display ----

  /** On-time in ms of the timing circuit for a step: 0.25 + (128 - step) * 0.037109. */
  function OnTimeMs(step: int): real
  {
    0.25 + (STEPS - step) as real * 0.037109
  }

  /** Amplitude in volts for a step: 0.0391 V per step. */
  function AmplitudeVolts(step: int): real
  {
    step as real * 0.0391
  }

  /** The on-time shown lies in [0.25, 4.999952] ms and grows with raw. */
  lemma OnTimeShown(raw: int, raw': int)
    requires raw <= raw'
    ensures 0.25 <= OnTimeMs(OnTimeStep(raw)) <= OnTimeMs(OnTimeStep(raw')) <= 4.999952
  {
    OnTimeStepMonotone(raw, raw');
  }

  /** The amplitude shown lies in [0, 5.0048] V and grows with raw. */
  lemma AmplitudeShown(raw: int, raw': int)
    requires raw <= raw'
    ensures 0.0 <= AmplitudeVolts(AmpStep(raw)) <= AmplitudeVolts(AmpStep(raw')) <= 5.0048
  {
    AmpStepMonotone(raw, raw');
  }
}
