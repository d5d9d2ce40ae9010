/** The timer-1 set-up of Arduino/src/avr-timertest.cpp on an ATmega: put
    timer 1 in clear-on-compare mode, enable its compare interrupt, and pick
    the first clock prescaler whose compare value fits the 16-bit register.
    The 8-bit control registers are bit-vectors; the 16-bit compare register
    and the 16-bit globals `q` and `i` are integers below 2^16. */
module AvrPrescaler {
  import opened CArith

  /** The prescaler table; entry 0 stands for "no clock" and is never used
      as a divisor. */
  const Prescalers: seq<int> := [0, 1, 8, 64, 256, 1024]

  /** Bit positions: WGM12 in TCCR1B, OCIE1A in TIMSK1. */
  const CtcBit: bv8 := 8
  const CompareInterruptBit: bv8 := 2

  const Limit: int := 65535
  const Reg16: int := 0x1_0000

  /** The compare value for prescaler `i`: the division first (C's long
      division, truncating), then the factor 16. */
  function CompareValue(m: int, i: int): int
    requires 1 <= i < |Prescalers|
  {
    CDiv(m, Prescalers[i]) * 16
  }

  predicate Fits(m: int, i: int)
    requires 1 <= i < |Prescalers|
  {
    CompareValue(m, i) < Limit
  }

  /** The index the search stops at, starting from `from`: the first that
      fits, or 6 when none does. */
  function FirstFit(m: int, from: int): (r: int)
    requires 1 <= from <= |Prescalers|
    ensures from <= r <= |Prescalers|
    ensures r < |Prescalers| ==> Fits(m, r)
    ensures forall j :: from <= j < r ==> !Fits(m, j)
    decreases |Prescalers| - from
  {
    if from == |Prescalers| then from
    else if Fits(m, from) then from
    else FirstFit(m, from + 1)
  }

  /** For a non-negative period the next prescaler never gives a larger
      compare value. */
  lemma CompareValueStep(m: int, i: int)
    requires m >= 0 && 1 <= i < |Prescalers| - 1
    ensures 0 <= CompareValue(m, i + 1) <= CompareValue(m, i)
  {
    var p, k := Prescalers[i], Prescalers[i + 1] / Prescalers[i];
    assert Prescalers[i + 1] == p * k && p > 0 && k > 0;
    assert CDiv(m, p) == m / p && CDiv(m, p * k) == m / (p * k);
    if i == 1 {
      assert m / 8 <= m / 1;
    } else if i == 2 {
      assert m / 64 <= m / 8;
    } else if i == 3 {
      assert m / 256 <= m / 64;
    } else {
      assert m / 1024 <= m / 256;
    }
  }

  /** Hence, for a non-negative period, once a prescaler fits every larger
      one does. */
  lemma {:induction false} FitsPersist(m: int, i: int, j: int)
    requires m >= 0 && 1 <= i <= j < |Prescalers| && Fits(m, i)
    ensures Fits(m, j)
    decreases j - i
  {
    if i < j {
      CompareValueStep(m, i);
      FitsPersist(m, i + 1, j);
    }
  }

  /** A non-negative period fits no prescaler exactly when it is at least
      4194304 = 4096 * 1024 timer ticks; the search then ends at 6, past the
      end of the table that main reads at that index. */
  lemma NoFitIff(m: int)
    requires m >= 0
    ensures FirstFit(m, 1) == |Prescalers| <==> m >= 4096 * 1024
  {
    var r := FirstFit(m, 1);
    if m >= 4096 * 1024 {
      assert CDiv(m, 1024) >= 4096;
    } else {
      assert CDiv(m, 1024) <= 4095;
      assert Fits(m, 5);
    }
  }

  /** A negative period fits at once: the first prescaler is taken and the
      negative value wraps into the 16-bit register. */
  lemma NegativePeriodFirst(m: int)
    requires m < 0
    ensures FirstFit(m, 1) == 1
    ensures CompareValue(m, 1) % Reg16 == (16 * m) % Reg16
  {
  }

  /** One second at 16 MHz, m = 1000000 as main passes it: prescaler 256
      (index 4) with compare value 62496. */
  lemma OneSecondExample()
    ensures FirstFit(1000000, 1) == 4
    ensures Prescalers[4] == 256 && CompareValue(1000000, 4) == 62496
  {
    assert !Fits(1000000, 1) && !Fits(1000000, 2) && !Fits(1000000, 3);
    assert Fits(1000000, 4);
  }

  /** The registers and globals the set-up touches. */
  class Timer1 {
    var tccr1a: bv8
    var tccr1b: bv8
    var tcnt1: int
    var timsk1: bv8
    var ocr1a: int
    var q: int
    var i: int
    var interruptsEnabled: bool
    var ledHigh: bool

    /** configTimer: with interrupts off, clear TCCR1A and the counter, set
        CTC mode and the compare interrupt, then try prescalers 1..5 in
        order; the first that fits sets the clock-select bits to its index
        and loads OCR1A and q with its compare value.  If none fits, no
        clock is selected and OCR1A and q keep their values. */
    method ConfigTimer(m: int)
      modifies this
      ensures tccr1a == 0 && tcnt1 == 0 && timsk1 == old(timsk1) | CompareInterruptBit
      ensures interruptsEnabled && ledHigh == old(ledHigh)
      ensures i == FirstFit(m, 1)
      ensures i < |Prescalers| ==> tccr1b == CtcBit | i as bv8
                                   && ocr1a == CompareValue(m, i) % Reg16 && q == ocr1a
      ensures i == |Prescalers| ==> tccr1b == CtcBit && ocr1a == old(ocr1a) && q == old(q)
    {
      interruptsEnabled := false;
      tccr1a := 0;
      tccr1b := 0 | CtcBit;
      tcnt1 := 0;
      timsk1 := timsk1 | CompareInterruptBit;
      i := 1;
      while i < 6
        invariant 1 <= i <= 6
        invariant FirstFit(m, 1) == FirstFit(m, i)
        invariant tccr1a == 0 && tcnt1 == 0 && tccr1b == CtcBit
        invariant timsk1 == old(timsk1) | CompareInterruptBit
        invariant ocr1a == old(ocr1a) && q == old(q) && ledHigh == old(ledHigh)
        decreases 6 - i
      {
        if CDiv(m, Prescalers[i]) * 16 < 65535 {
          tccr1b := tccr1b | i as bv8;
          ocr1a := (CDiv(m, Prescalers[i]) * 16) % Reg16;
          q := ocr1a;
          break;
        }
        i := i + 1;
      }
      interruptsEnabled := true;
    }

    /** The compare interrupt: toggle the LED. */
    method CompareIsr()
      modifies this
      ensures ledHigh == !old(ledHigh)
      ensures tccr1a == old(tccr1a) && tccr1b == old(tccr1b) && timsk1 == old(timsk1)
      ensures ocr1a == old(ocr1a) && tcnt1 == old(tcnt1) && q == old(q) && i == old(i)
      ensures interruptsEnabled == old(interruptsEnabled)
    {
      ledHigh := !ledHigh;
    }
  }

  /** Clock-select bits: a selected prescaler index 1..5 sits below the CTC
      bit, so the control byte is 8 + i and reads back as mode and index. */
  lemma ControlByte(i: int)
    requires 1 <= i <= 5
    ensures (CtcBit | i as bv8) as int == 8 + i
    ensures (CtcBit | i as bv8) & 7 == i as bv8
  {
    assert i == 1 || i == 2 || i == 3 || i == 4 || i == 5;
  }
}
