/** The tachometer driver of src/ecu/tach.cpp.  The tachometer is driven by
    a 555 timer whose period is set by two digital potentiometers in series,
    a coarse 100 kOhm one and a fine 10 kOhm one, each a 7-bit wiper written
    over SPI.  A requested resistance is split between the two pots by
    truncating wiper arithmetic, and the resistance the pots then present is
    returned. */
module Tach {
  import opened CArith

  /** Chip-select pins. */
  const Cs100k: int := 3
  const Cs10k: int := 2

  /** End-to-end resistance, wiper resistance and resistance per step. */
  const RBw100k: real := 107000.0
  const RW100k: real := 99.3
  const RRes100k: real := 835.9375
  const RBw10k: real := 9660.0
  const RW10k: real := 93.2
  const RRes10k: real := 75.46875

  const NumTrigTeeth: real := 1.0
  const Five55TimerConst: real := 1.1
  const TachCapacitance: real := 0.000001

  /** Signals on the pins and bytes on the SPI bus, in order. */
  datatype BusEvent =
    | PinModeOutput(pin: int)
    | DigitalWrite(pin: int, high: bool)
    | Transfer(data: int)

  /** The wiper position for the share `r` of the resistance on one pot:
      `r` capped at the pot's end-to-end resistance, less the wiper
      resistance, in whole steps, the fraction dropped. */
  function WiperPos(r: real, bw: real, w: real, res: real): int
    requires res > 0.0
  {
    Trunc(((if r > bw then bw else r) - w) / res)
  }

  function Pos100k(resistance: real): int
  {
    WiperPos(resistance, RBw100k, RW100k, RRes100k)
  }

  /** What is left for the fine pot after the coarse pot's steps. */
  function Remaining(resistance: real): real
  {
    resistance - Pos100k(resistance) as real * RRes100k
  }

  function Pos10k(resistance: real): int
  {
    WiperPos(Remaining(resistance), RBw10k, RW10k, RRes10k)
  }

  /** The resistance setTachResistance reports: the steps of both pots. */
  function Actual(resistance: real): real
  {
    Pos100k(resistance) as real * RRes100k + Pos10k(resistance) as real * RRes10k
  }

  /** The byte sent for a wiper position: non-positive positions become 0,
      and the mask keeps the low eight bits. */
  function WiperByte(wiperPos: int): int
  {
    if wiperPos <= 0 then 0 else wiperPos % 256
  }

  /** setDigiPotResistance on the bus: select the chip, send the write
      command 0x00 and the wiper byte, deselect. */
  function DigiPotFrame(chipSelectPin: int, wiperPos: int): seq<BusEvent>
  {
    [DigitalWrite(chipSelectPin, false), Transfer(0), Transfer(WiperByte(wiperPos)),
     DigitalWrite(chipSelectPin, true)]
  }

  /** calcTachResistance: the seconds per trigger tooth at `currRpm`, over
      the 555 timer's constant times the capacitance. */
  function CalcTachResistance(currRpm: real): real
    requires currRpm != 0.0
  {
    var secondsPerTooth := 1.0 / (currRpm * NumTrigTeeth / 60.0);
    secondsPerTooth / (Five55TimerConst * TachCapacitance)
  }

  /** The byte on the bus is always a byte, and is the position itself for
      every position a pot has. */
  lemma WiperByteInRange(wiperPos: int)
    ensures 0 <= WiperByte(wiperPos) <= 255
    ensures 0 <= wiperPos <= 255 ==> WiperByte(wiperPos) == wiperPos
  {
  }

  /** For a non-negative request the coarse wiper lies in [0, 127] and leaves
      a non-negative remainder; for a request within the coarse pot's range
      the remainder is more than the wiper resistance. */
  lemma Pos100kRange(resistance: real)
    requires resistance >= 0.0
    ensures 0 <= Pos100k(resistance) <= 127
    ensures Remaining(resistance) >= 0.0
    ensures RW100k <= resistance ==> Remaining(resistance) >= RW100k
  {
    var capped := if resistance > RBw100k then RBw100k else resistance;
    var v := (capped - RW100k) / RRes100k;
    var n := Pos100k(resistance);
    assert v * RRes100k == capped - RW100k;
    if v >= 0.0 {
      assert n as real <= v;
      assert n as real * RRes100k <= v * RRes100k;
    } else {
      assert n == 0;
    }
  }

  /** The fine wiper lies in [-1, 126], and is -1 exactly when the request is
      at most 17.73125 ohms: the wiper resistance less one step. */
  lemma Pos10kRange(resistance: real)
    requires resistance >= 0.0
    ensures -1 <= Pos10k(resistance) <= 126
    ensures Pos10k(resistance) == -1 <==> resistance <= RW10k - RRes10k
  {
    Pos100kRange(resistance);
    var rem := Remaining(resistance);
    var capped := if rem > RBw10k then RBw10k else rem;
    var v := (capped - RW10k) / RRes10k;
    assert v * RRes10k == capped - RW10k;
    if resistance < RW100k {
      assert Pos100k(resistance) == 0;
      assert rem == resistance;
    }
  }

  /** The documented promise: the resistance reported is strictly less than
      the one requested, for every non-negative request. */
  lemma ActualBelowRequest(resistance: real)
    requires resistance >= 0.0
    ensures Actual(resistance) < resistance
  {
    Pos100kRange(resistance);
    var rem := Remaining(resistance);
    var capped := if rem > RBw10k then RBw10k else rem;
    var v := (capped - RW10k) / RRes10k;
    var n := Pos10k(resistance);
    assert v * RRes10k == capped - RW10k;
    assert n as real < v + 1.0;
    assert n as real * RRes10k < (v + 1.0) * RRes10k;
    assert (v + 1.0) * RRes10k == capped - RW10k + RRes10k;
  }

  /** At a request of at most 17.73125 ohms the reported resistance is
      negative although the fine pot is sent wiper 0. */
  lemma TinyRequestNegative(resistance: real)
    requires 0.0 <= resistance <= RW10k - RRes10k
    ensures Actual(resistance) < 0.0
    ensures WiperByte(Pos10k(resistance)) == 0 && WiperByte(Pos100k(resistance)) == 0
  {
    Pos10kRange(resistance);
    assert Pos100k(resistance) == 0;
  }

  /** The tach resistance is inversely proportional to the speed: the
      product with the speed is 60 / (1.1 * 1e-6). */
  lemma TachResistanceInverse(currRpm: real)
    requires currRpm != 0.0
    ensures CalcTachResistance(currRpm) * currRpm == 60.0 / (Five55TimerConst * TachCapacitance)
  {
    var c := Five55TimerConst * TachCapacitance;
    var spt := 1.0 / (currRpm * NumTrigTeeth / 60.0);
    assert spt * currRpm == 60.0;
    assert spt / c * currRpm == spt * currRpm / c;
  }

  /** It is positive and strictly decreasing for positive speeds. */
  lemma TachResistanceDecreasing(rpm1: real, rpm2: real)
    requires 0.0 < rpm1 < rpm2
    ensures 0.0 < CalcTachResistance(rpm2) < CalcTachResistance(rpm1)
  {
    TachResistanceInverse(rpm1);
    TachResistanceInverse(rpm2);
    var k := 60.0 / (Five55TimerConst * TachCapacitance);
    var r1, r2 := CalcTachResistance(rpm1), CalcTachResistance(rpm2);
    assert r1 * rpm1 == k && r2 * rpm2 == k && k > 0.0;
    PositiveFactor(r2, rpm2);
    ScaleStrict(rpm1, rpm2, r2);
    assert r2 * rpm1 < r2 * rpm2;
    assert r2 * rpm1 < r1 * rpm1 by {
      assert r2 * rpm2 == k == r1 * rpm1;
    }
    Distribute(r1, r2, rpm1);
    PositiveFactor(r1 - r2, rpm1);
  }

  lemma PositiveFactor(a: real, b: real)
    requires b > 0.0 && a * b > 0.0
    ensures a > 0.0
  {
  }

  lemma Distribute(a: real, b: real, c: real)
    ensures (a - b) * c == a * c - b * c
  {
  }

  lemma ScaleStrict(a: real, b: real, c: real)
    requires a < b && c > 0.0
    ensures c * a < c * b
  {
  }

  /** The pins and the SPI bus as the driver sees them. */
  class TachDriver {
    /** Everything sent so far, oldest first. */
    var bus: seq<BusEvent>

    constructor ()
      ensures bus == []
    {
      bus := [];
    }

    /** initTach: both chip selects become outputs and are deselected. */
    method InitTach()
      modifies this
      ensures bus == old(bus) + [PinModeOutput(Cs100k), PinModeOutput(Cs10k),
                                 DigitalWrite(Cs100k, true), DigitalWrite(Cs10k, true)]
    {
      bus := bus + [PinModeOutput(Cs100k)];
      bus := bus + [PinModeOutput(Cs10k)];
      bus := bus + [DigitalWrite(Cs100k, true)];
      bus := bus + [DigitalWrite(Cs10k, true)];
    }

    method SetDigiPotResistance(chipSelectPin: int, wiperPos: int)
      modifies this
      ensures bus == old(bus) + DigiPotFrame(chipSelectPin, wiperPos)
    {
      bus := bus + [DigitalWrite(chipSelectPin, false)];
      bus := bus + [Transfer(0)];
      var data := if wiperPos <= 0 then 0 else wiperPos % 256;
      bus := bus + [Transfer(data)];
      bus := bus + [DigitalWrite(chipSelectPin, true)];
    }

    /** setTachResistance: program the coarse pot, then the fine pot with what
        is left, and report the resistance set. */
    method SetTachResistance(resistance: real) returns (actual: real)
      modifies this
      ensures bus == old(bus) + DigiPotFrame(Cs100k, Pos100k(resistance))
                              + DigiPotFrame(Cs10k, Pos10k(resistance))
      ensures actual == Actual(resistance)
    {
      var r100kPos := Trunc(((if resistance > RBw100k then RBw100k else resistance) - RW100k) / RRes100k);
      SetDigiPotResistance(Cs100k, r100kPos);

      var remaining := resistance - r100kPos as real * RRes100k;
      var r10kPos := Trunc(((if remaining > RBw10k then RBw10k else remaining) - RW10k) / RRes10k);
      SetDigiPotResistance(Cs10k, r10kPos);

      actual := r100kPos as real * RRes100k + r10kPos as real * RRes10k;
    }
  }
}
