/** thermistorTemp of src/ecu/thermistor.cpp: the thermistor's resistance
    from the pull-up divider, a linear fit from resistance to temperature,
    and a clamp to the limits of the region where the fit holds. */
module Thermistor {

  /** The calibration of one sensor (struct thermistor). */
  datatype Sensor = Sensor(
    invSlope: real,
    invYintercept: real,
    lowTempLimit: real,
    highTempLimit: real,
    supplyVoltage: real,
    pullupResistor: real)

  /** The thermistor's resistance from the reading at the divider's middle
      node.  A reading equal to the supply voltage divides by zero. */
  function Resistance(t: Sensor, rawSensorVoltage: int): real
    requires rawSensorVoltage as real != t.supplyVoltage
  {
    (rawSensorVoltage as real * t.pullupResistor) / (t.supplyVoltage - rawSensorVoltage as real)
  }

  /** The temperature of the linear fit. */
  function FitTemp(t: Sensor, resistance: real): real
  {
    t.invSlope * resistance + t.invYintercept
  }

  /** The limit check: the low limit below it, the high limit above it, the
      value itself otherwise. */
  function Clamp(v: real, low: real, high: real): real
  {
    if v < low then low else if v > high then high else v
  }

  /** thermistorTemp. */
  function ThermistorTemp(t: Sensor, rawSensorVoltage: int): real
    requires rawSensorVoltage as real != t.supplyVoltage
  {
    Clamp(FitTemp(t, Resistance(t, rawSensorVoltage)), t.lowTempLimit, t.highTempLimit)
  }

  /** The resistance solves the divider equation: the current through the
      pull-up, (supply - raw) / pullup, equals the current through the
      thermistor, raw / resistance.  Below the supply and with a positive
      pull-up it is non-negative. */
  lemma ResistanceSolvesDivider(t: Sensor, raw: int)
    requires raw as real != t.supplyVoltage
    ensures Resistance(t, raw) * (t.supplyVoltage - raw as real) == raw as real * t.pullupResistor
    ensures 0 <= raw && raw as real < t.supplyVoltage && 0.0 <= t.pullupResistor ==> 0.0 <= Resistance(t, raw)
  {
    var num, den := raw as real * t.pullupResistor, t.supplyVoltage - raw as real;
    if 0 <= raw && raw as real < t.supplyVoltage && 0.0 <= t.pullupResistor {
      assert 0.0 <= num;
    }
  }

  /** The three branches of the limit check, and what it returns when the
      limits are inverted: one of the two limits. */
  lemma ClampCases(v: real, low: real, high: real)
    ensures v < low ==> Clamp(v, low, high) == low
    ensures low <= v <= high ==> Clamp(v, low, high) == v
    ensures low <= v && v > high ==> Clamp(v, low, high) == high
    ensures high < low ==> Clamp(v, low, high) == low || Clamp(v, low, high) == high
  {
  }

  /** With ordered limits the result lies between them. */
  lemma ClampInRange(v: real, low: real, high: real)
    requires low <= high
    ensures low <= Clamp(v, low, high) <= high
    ensures Clamp(v, low, high) == v <==> low <= v <= high
  {
  }

  /** Clamping twice is clamping once. */
  lemma ClampIdempotent(v: real, low: real, high: real)
    requires low <= high
    ensures Clamp(Clamp(v, low, high), low, high) == Clamp(v, low, high)
  {
  }

  /** A hotter fit never reads colder. */
  lemma ClampMonotone(v: real, w: real, low: real, high: real)
    requires low <= high && v <= w
    ensures Clamp(v, low, high) <= Clamp(w, low, high)
  {
  }

  /** The sensor's reading lies between its limits, and is the fitted
      temperature whenever that is within them. */
  lemma TempWithinLimits(t: Sensor, raw: int)
    requires raw as real != t.supplyVoltage && t.lowTempLimit <= t.highTempLimit
    ensures t.lowTempLimit <= ThermistorTemp(t, raw) <= t.highTempLimit
    ensures var fit := FitTemp(t, Resistance(t, raw));
            t.lowTempLimit <= fit <= t.highTempLimit ==> ThermistorTemp(t, raw) == fit
  {
    ClampInRange(FitTemp(t, Resistance(t, raw)), t.lowTempLimit, t.highTempLimit);
  }
}
