/** The speed macros of src/ecu/ecu.h: the angular speed over one revolution
    of the crank, and the conversions between degrees per microsecond and
    revolutions per minute, with the speed thresholds of the controller. */
module Units {

  /** Thresholds in revolutions per minute. */
  const EngageSpeed: real := 100.0
  const CrankingSpeed: real := 500.0
  const UpperRevLimit: real := 6000.0
  const LowerRevLimit: real := 5800.0

  /** The rounded conversion factors the macros use. */
  const ToRpmFactor: real := 166666.7
  const FromRpmFactor: real := 0.000006

  /** calcSpeed: one revolution (360 degrees) over the time between two
      passes of the calibration tooth, in degrees per microsecond.  Two
      passes at the same instant divide by zero. */
  function CalcSpeed(currTime: real, prevTime: real): real
    requires currTime != prevTime
  {
    360.0 / (currTime - prevTime)
  }

  /** The smoothed form the speed test is written against: 70% of the new
      revolution speed and 30% of the previous estimate. */
  function CalcSpeedWeighted(currTime: real, prevTime: real, currAngSpeed: real): real
    requires currTime != prevTime
  {
    0.7 * CalcSpeed(currTime, prevTime) + 0.3 * currAngSpeed
  }

  function ConvertToRpm(angularSpeed: real): real
  {
    angularSpeed * ToRpmFactor
  }

  function ConvertFromRpm(rpm: real): real
  {
    rpm * FromRpmFactor
  }

  /** Over the measured interval the speed accounts for exactly one
      revolution, and it is positive when time moves forward. */
  lemma CalcSpeedOneRevolution(currTime: real, prevTime: real)
    requires currTime != prevTime
    ensures CalcSpeed(currTime, prevTime) * (currTime - prevTime) == 360.0
    ensures currTime > prevTime ==> CalcSpeed(currTime, prevTime) > 0.0
  {
  }

  /** A longer revolution means a lower speed. */
  lemma CalcSpeedDecreasing(prevTime: real, t1: real, t2: real)
    requires prevTime < t1 < t2
    ensures CalcSpeed(t2, prevTime) < CalcSpeed(t1, prevTime)
  {
    var d1, d2 := t1 - prevTime, t2 - prevTime;
    assert 360.0 / d2 * d2 == 360.0 / d1 * d1;
  }

  /** The smoothed speed lies between the new revolution speed and the
      previous estimate. */
  lemma WeightedBetween(currTime: real, prevTime: real, prevSpeed: real)
    requires currTime != prevTime
    ensures var s, w := CalcSpeed(currTime, prevTime), CalcSpeedWeighted(currTime, prevTime, prevSpeed);
            (s <= prevSpeed ==> s <= w <= prevSpeed) && (prevSpeed <= s ==> prevSpeed <= w <= s)
  {
  }

  /** The two values the speed test expects, to within two billionths of a
      degree per microsecond (the test compares single-precision floats). */
  lemma SpeedTestValues()
    ensures var first := CalcSpeedWeighted(62000.0, 500.0, 0.006);
            && -0.000000002 < first - 0.00589756 < 0.000000002
            && -0.000000002 < CalcSpeedWeighted(123000.0, 62000.0, first) - 0.0059004155 < 0.000000002
  {
    var first := CalcSpeedWeighted(62000.0, 500.0, 0.006);
    assert CalcSpeed(62000.0, 500.0) == 360.0 / 61500.0;
    assert first == 0.7 * (360.0 / 61500.0) + 0.0018;
    assert CalcSpeed(123000.0, 62000.0) == 360.0 / 61000.0;
  }

  /** The values the conversion tests expect. */
  lemma RpmTestValues()
    ensures ConvertToRpm(0.007) == 1166.6669
    ensures ConvertToRpm(0.0) == 0.0
    ensures ConvertToRpm(1.0) == 166666.7
    ensures ConvertFromRpm(7000.0) == 0.042
    ensures ConvertFromRpm(0.0) == 0.0
    ensures ConvertFromRpm(1.0) == 0.000006
  {
  }

  /** Both conversions are linear and strictly increasing. */
  lemma ConversionsLinear(a: real, b: real, k: real)
    ensures ConvertToRpm(a + k * b) == ConvertToRpm(a) + k * ConvertToRpm(b)
    ensures ConvertFromRpm(a + k * b) == ConvertFromRpm(a) + k * ConvertFromRpm(b)
    ensures a < b ==> ConvertToRpm(a) < ConvertToRpm(b) && ConvertFromRpm(a) < ConvertFromRpm(b)
  {
  }

  /** The conversions are inverse only up to their rounded constants: a
      round trip, in either order, scales by 166666.7 * 6E-6 = 1.0000002,
      so it gives back its input only at zero. */
  lemma RoundTripScales(s: real)
    ensures ConvertFromRpm(ConvertToRpm(s)) == 1.0000002 * s
    ensures ConvertToRpm(ConvertFromRpm(s)) == 1.0000002 * s
    ensures ConvertFromRpm(ConvertToRpm(s)) == s <==> s == 0.0
  {
  }

  /** The speed thresholds are ordered, so the rev-limit hysteresis band is
      not empty; in degrees per microsecond the engage speed is 0.0006. */
  lemma ThresholdsOrdered()
    ensures EngageSpeed < CrankingSpeed < LowerRevLimit < UpperRevLimit
    ensures ConvertFromRpm(EngageSpeed) == 0.0006
    ensures ConvertFromRpm(UpperRevLimit) - ConvertFromRpm(LowerRevLimit) == 0.0012
  {
  }
}
