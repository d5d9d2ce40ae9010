/** The DMTimer layer of src/timers.c: five hardware timers, each with a slot
    in a table of callbacks.  configTimer writes a timer's slot and loads its
    count registers, freezeTimer stops one timer, and each timer's overflow
    interrupt calls the callback in its slot.  The register calls into the
    timer library are recorded, in order, as actions on a trace. */
module Timers {
  import opened CArith

  /** unsigned int is 32 bits wide. */
  const Word: int := 0x1_0000_0000
  const MaxCount: int := 0xFFFF_FFFF

  /** Timer ticks per microsecond. */
  const TicksPerMicrosecond: int := 26

  /** The largest delay whose count does not wrap around. */
  const MaxUnwrapped: int := 165191049

  /** TIMER_CONVERT: the count to load so that the up-counter overflows
      after `microsec` microseconds, in unsigned 32-bit arithmetic (both the
      product and the difference wrap modulo 2^32). */
  function TimerConvert(microsec: int): (count: int)
    requires 0 <= microsec < Word
    ensures 0 <= count < Word
  {
    (MaxCount - (microsec * TicksPerMicrosecond) % Word) % Word
  }

  /** Whatever the delay, the count plus 26 ticks per microsecond is the
      all-ones word modulo 2^32. */
  lemma TimerConvertCongruent(microsec: int)
    requires 0 <= microsec < Word
    ensures (TimerConvert(microsec) + TicksPerMicrosecond * microsec) % Word == MaxCount
  {
    var p := microsec * TicksPerMicrosecond;
    var k := p / Word;
    assert p == k * Word + p % Word;
    var c := TimerConvert(microsec);
    var d := MaxCount - p % Word;
    assert 0 <= d < Word;
    assert c == d;
    assert c + p == MaxCount + k * Word;
  }

  /** The count is the plain difference 0xFFFFFFFF - 26 * us exactly when the
      delay is at most 165191049 microseconds; beyond that it wraps. */
  lemma TimerConvertNoWrap(microsec: int)
    requires 0 <= microsec < Word
    ensures TimerConvert(microsec) == MaxCount - TicksPerMicrosecond * microsec
            <==> microsec <= MaxUnwrapped
  {
    if microsec <= MaxUnwrapped {
      assert microsec * TicksPerMicrosecond < Word;
    } else {
      assert MaxCount - TicksPerMicrosecond * microsec < 0;
    }
  }

  /** Within that range, the counter loaded with the count overflows after
      exactly 26 * us + 1 ticks. */
  lemma TicksToOverflow(microsec: int)
    requires 0 <= microsec <= MaxUnwrapped
    ensures Word - TimerConvert(microsec) == TicksPerMicrosecond * microsec + 1
  {
    TimerConvertNoWrap(microsec);
  }

  /** The hardware timers behind the ids 0..4. */
  datatype HwTimer = DMTimer2 | DMTimer3 | DMTimer4 | DMTimer6 | DMTimer7

  /** The slot each timer's interrupt handler calls. */
  function Slot(h: HwTimer): int
  {
    match h
    case DMTimer2 => 0
    case DMTimer3 => 1
    case DMTimer4 => 2
    case DMTimer6 => 3
    case DMTimer7 => 4
  }

  /** The hardware timer the switches of configTimer and freezeTimer pick for
      an id; other ids match no case. */
  function HwOf(timer: int): (h: Option<HwTimer>)
    ensures h.Some? <==> 0 <= timer < 5
    ensures h.Some? ==> Slot(h.value) == timer
  {
    if timer == 0 then Some(DMTimer2)
    else if timer == 1 then Some(DMTimer3)
    else if timer == 2 then Some(DMTimer4)
    else if timer == 3 then Some(DMTimer6)
    else if timer == 4 then Some(DMTimer7)
    else None
  }

  /** Slots and timers are in one-to-one correspondence: each timer's
      handler calls the slot that configTimer writes for that timer. */
  lemma SlotRoundTrip(h: HwTimer)
    ensures 0 <= Slot(h) < 5 && HwOf(Slot(h)) == Some(h)
  {
  }

  lemma SlotInjective(h1: HwTimer, h2: HwTimer)
    ensures Slot(h1) == Slot(h2) <==> h1 == h2
  {
  }

  /** A callback is known by an identifier; what it does is not modelled. */
  type CallbackId = int

  /** The calls into the interrupt controller and the timer library. */
  datatype Action =
    | MasterIrqEnable
    | AintcInit
    | ModuleClkConfig(h: HwTimer)
    | IntRegister(h: HwTimer)
    | IntPrioritySet(h: HwTimer, priority: int)
    | IntSystemEnable(h: HwTimer)
    | PreScalerClkDisable(h: HwTimer)
    | Reset(h: HwTimer)
    | CounterSet(h: HwTimer, count: int)
    | ReloadSet(h: HwTimer, count: int)
    | ModeConfigure(h: HwTimer)
    | IntEnable(h: HwTimer)
    | Enable(h: HwTimer)
    | Disable(h: HwTimer)
    | IntDisable(h: HwTimer)
    | IntStatusClear(h: HwTimer)
    | Invoke(callback: CallbackId)

  /** What configTimer asks of the hardware for timer `h`, id `timer`. */
  function ConfigActions(h: HwTimer, timer: int, count: int): seq<Action>
  {
    [ModuleClkConfig(h), IntRegister(h), IntPrioritySet(h, timer), IntSystemEnable(h),
     PreScalerClkDisable(h), Reset(h), CounterSet(h, count), ReloadSet(h, count),
     ModeConfigure(h), IntEnable(h), Enable(h)]
  }

  /** The counter and the reload register are loaded with the same count,
      and the interrupt is enabled before the timer is started. */
  lemma ConfigLoadsBothRegisters(h: HwTimer, timer: int, count: int)
    ensures var a := ConfigActions(h, timer, count);
            CounterSet(h, count) in a && ReloadSet(h, count) in a
            && (forall i, j :: 0 <= i < |a| && 0 <= j < |a| && a[i] == IntSystemEnable(h) && a[j] == Enable(h) ==> i < j)
  {
  }

  /** The handler of a timer, on the table of slots: the callback it calls. */
  function Dispatch(slots: seq<Option<CallbackId>>, h: HwTimer): Option<CallbackId>
    requires |slots| == 5
  {
    slots[Slot(h)]
  }

  /** After configTimer writes id `timer`, that timer's handler calls the new
      callback, and every other timer's handler calls what it called before;
      configuring the same id again replaces the callback. */
  lemma DispatchAfterConfig(slots: seq<Option<CallbackId>>, timer: int, callback: Option<CallbackId>, h: HwTimer)
    requires |slots| == 5 && 0 <= timer < 5
    ensures Dispatch(slots[timer := callback], h)
            == if h == HwOf(timer).value then callback else Dispatch(slots, h)
  {
    SlotInjective(h, HwOf(timer).value);
  }

  /** The callback table and the timers' interrupt state. */
  class TimerModule {
    /** callbacks[5]: a null pointer is None. */
    const callbacks: array<Option<CallbackId>>
    /** Timers whose system interrupt configTimer has enabled. */
    var armed: set<HwTimer>
    /** Timers started and not frozen since. */
    var running: set<HwTimer>
    var trace: seq<Action>

    /** Only a configured timer runs.  configTimer stores whatever pointer
        it is given, null included, so an armed timer's slot may be null. */
    ghost predicate Valid()
      reads this, callbacks
    {
      && callbacks.Length == 5
      && running <= armed
    }

    /** The table starts out all null, as a static array does. */
    constructor ()
      ensures Valid() && fresh(callbacks)
      ensures callbacks[..] == [None, None, None, None, None]
      ensures armed == {} && running == {} && trace == []
    {
      callbacks := new Option<CallbackId>[5](_ => None);
      armed := {};
      running := {};
      trace := [];
      new;
      assert callbacks[..] == [None, None, None, None, None];
    }

    /** initTimers: enable IRQs and initialise the interrupt controller. */
    method InitTimers()
      modifies this
      ensures trace == old(trace) + [MasterIrqEnable, AintcInit]
      ensures armed == old(armed) && running == old(running)
    {
      trace := trace + [MasterIrqEnable];
      trace := trace + [AintcInit];
    }

    /** configTimer: pick the hardware timer for the id, store the callback in
        the id's slot, enable its interrupt and load both count registers with
        the converted delay.  The id must be 0..4: other ids write outside the
        table.  `autoReload` is not used by the source.  A null `callback`
        is None and is stored like any other. */
    method ConfigTimer(timer: int, microseconds: int, autoReload: int, callback: Option<CallbackId>)
      requires Valid()
      requires 0 <= timer < 5 && 0 <= microseconds < Word
      modifies this, callbacks
      ensures Valid()
      ensures callbacks[..] == old(callbacks[..])[timer := callback]
      ensures armed == old(armed) + {HwOf(timer).value}
      ensures running == old(running) + {HwOf(timer).value}
      ensures trace == old(trace) + ConfigActions(HwOf(timer).value, timer, TimerConvert(microseconds))
    {
      var h: HwTimer;
      if timer == 0 {
        h := DMTimer2;
      } else if timer == 1 {
        h := DMTimer3;
      } else if timer == 2 {
        h := DMTimer4;
      } else if timer == 3 {
        h := DMTimer6;
      } else {
        h := DMTimer7;
      }
      trace := trace + [ModuleClkConfig(h), IntRegister(h)];

      callbacks[timer] := callback;

      trace := trace + [IntPrioritySet(h, timer), IntSystemEnable(h)];
      armed := armed + {h};

      var count := (MaxCount - (microseconds * TicksPerMicrosecond) % Word) % Word;
      trace := trace + [PreScalerClkDisable(h), Reset(h), CounterSet(h, count), ReloadSet(h, count)];
      trace := trace + [ModeConfigure(h), IntEnable(h), Enable(h)];
      running := running + {h};
    }

    /** freezeTimer: stop the id's hardware timer; an id outside 0..4 matches
        no case and nothing happens. */
    method FreezeTimer(timer: int)
      requires Valid()
      modifies this
      ensures Valid() && armed == old(armed)
      ensures 0 <= timer < 5 ==> running == old(running) - {HwOf(timer).value}
                                 && trace == old(trace) + [Disable(HwOf(timer).value)]
      ensures !(0 <= timer < 5) ==> running == old(running) && trace == old(trace)
    {
      var h := HwOf(timer);
      if h.Some? {
        trace := trace + [Disable(h.value)];
        running := running - {h.value};
      }
    }

    /** The overflow handler of hardware timer `h` (DMTimer2Isr ...
        DMTimer7Isr): mask the overflow interrupt, clear its flag, call the
        callback in the timer's slot once, unmask.  The slot must hold a
        callback: the handler calls through the pointer without a check. */
    method Isr(h: HwTimer) returns (invoked: CallbackId)
      requires Valid() && h in armed && callbacks[Slot(h)].Some?
      modifies this
      ensures Valid() && armed == old(armed) && running == old(running)
      ensures callbacks[Slot(h)] == Some(invoked)
      ensures trace == old(trace) + [IntDisable(h), IntStatusClear(h), Invoke(invoked), IntEnable(h)]
    {
      trace := trace + [IntDisable(h), IntStatusClear(h)];
      invoked := callbacks[Slot(h)].value;
      trace := trace + [Invoke(invoked)];
      trace := trace + [IntEnable(h)];
    }
  }
}
