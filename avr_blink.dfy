/** The blink demo of avr-timertest.cpp: timer 1 in clear-on-compare mode
    with the 1024 prescaler, and a compare interrupt that toggles the LED and
    halves the compare value while it is above 1000, so the blinking speeds
    up until the compare value settles. */
module AvrBlink {

  /** TCCR1B bits: WGM12 (CTC mode) and the 1024 prescaler.  The source
      writes timer 0's names CS02 | CS00, which sit at the same bit
      positions as timer 1's CS12 | CS10, so the value is 5 either way. */
  const CtcBit: bv8 := 8
  const Clock1024: bv8 := 5
  /** OCIE1A in TIMSK1. */
  const CompareInterruptBit: bv8 := 2

  const InitialCompare: int := 65535
  const HalvingThreshold: int := 1000

  /** One interrupt's effect on the 16-bit compare register. */
  function Halve(ocr: nat): nat
  {
    if ocr > HalvingThreshold then ocr / 2 else ocr
  }

  /** The compare register after `n` interrupts. */
  function Iterate(ocr: nat, n: nat): nat
  {
    if n == 0 then ocr else Halve(Iterate(ocr, n - 1))
  }

  /** The compare value never grows, and an interrupt leaves it unchanged
      exactly when it is at most 1000 or zero. */
  lemma HalveNonIncreasing(ocr: nat)
    ensures Halve(ocr) <= ocr
    ensures Halve(ocr) == ocr <==> ocr <= HalvingThreshold
  {
  }

  /** A halving step from above 1000 never yields less than 500. */
  lemma HalveFloor(ocr: nat)
    requires ocr > HalvingThreshold
    ensures 500 <= Halve(ocr) < ocr
  {
  }

  /** Once at most 1000 the compare value stays put, whatever the number
      of further interrupts. */
  lemma {:induction false} IterateSettled(ocr: nat, n: nat)
    requires ocr <= HalvingThreshold
    ensures Iterate(ocr, n) == ocr
  {
    if n > 0 {
      IterateSettled(ocr, n - 1);
    }
  }

  /** The register never grows over a run of interrupts. */
  lemma {:induction false} IterateNonIncreasing(ocr: nat, n: nat)
    ensures Iterate(ocr, n) <= ocr
    ensures n > 0 ==> Iterate(ocr, n) <= Iterate(ocr, n - 1)
  {
    if n > 0 {
      IterateNonIncreasing(ocr, n - 1);
      HalveNonIncreasing(Iterate(ocr, n - 1));
    }
  }

  /** The values after the first interrupts, starting from 65535. */
  const Trajectory: seq<nat> := [65535, 32767, 16383, 8191, 4095, 2047, 1023, 511]

  /** From 65535 the compare value goes 32767, 16383, 8191, 4095, 2047, 1023,
      511, and stays 511 from the seventh interrupt on. */
  lemma {:induction false} FromInitial(n: nat)
    ensures n < |Trajectory| ==> Iterate(InitialCompare, n) == Trajectory[n]
    ensures n >= 7 ==> Iterate(InitialCompare, n) == 511
  {
    if n == 0 {
    } else if n < |Trajectory| {
      FromInitial(n - 1);
    } else {
      FromInitial(7);
      IterateSplit(InitialCompare, 7, n - 7);
      IterateSettled(511, n - 7);
    }
  }

  /** n interrupts after k interrupts are k + n interrupts. */
  lemma {:induction false} IterateSplit(ocr: nat, k: nat, n: nat)
    ensures Iterate(ocr, k + n) == Iterate(Iterate(ocr, k), n)
  {
    if n > 0 {
      IterateSplit(ocr, k, n - 1);
    }
  }

  /** Timer 1's registers and the LED pin. */
  class Blink {
    var tccr1a: bv8
    var tccr1b: bv8
    var tcnt1: int
    var timsk1: bv8
    var ocr1a: nat
    var ledIsOutput: bool
    var ledHigh: bool
    var interruptsEnabled: bool

    /** setup: the LED pin becomes an output; with interrupts off, clear the
        control registers and the counter, load 65535 into the compare
        register, select CTC mode and the 1024 prescaler, and enable the
        compare interrupt. */
    method Setup()
      modifies this
      ensures ledIsOutput && interruptsEnabled && ledHigh == old(ledHigh)
      ensures tccr1a == 0 && tcnt1 == 0 && ocr1a == InitialCompare
      ensures tccr1b == CtcBit | Clock1024 && tccr1b == 13
      ensures timsk1 == old(timsk1) | CompareInterruptBit
    {
      ledIsOutput := true;
      interruptsEnabled := false;
      tccr1a := 0;
      tccr1b := 0;
      tcnt1 := 0;
      ocr1a := 65535;
      tccr1b := tccr1b | CtcBit;
      tccr1b := tccr1b | Clock1024;
      timsk1 := timsk1 | CompareInterruptBit;
      interruptsEnabled := true;
    }

    /** The compare interrupt: toggle the LED, then halve the compare value
        if it is above 1000. */
    method CompareIsr()
      modifies this
      ensures ledHigh == !old(ledHigh)
      ensures ocr1a == Halve(old(ocr1a))
      ensures tccr1a == old(tccr1a) && tccr1b == old(tccr1b) && tcnt1 == old(tcnt1)
      ensures timsk1 == old(timsk1) && ledIsOutput == old(ledIsOutput)
      ensures interruptsEnabled == old(interruptsEnabled)
    {
      ledHigh := !ledHigh;
      if ocr1a > 1000 {
        ocr1a := ocr1a / 2;
      }
    }
  }
}
