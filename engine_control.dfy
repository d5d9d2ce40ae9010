/** The interrupt-driven controller of src/ECU.c: a crank-tooth tracker that
    detects the missing tooth from a window of three timestamps, two timer
    interrupts that toggle the injector and the ignition coil, and the
    recalculation block of the main loop that turns the table results into
    timer delays.

    Each interrupt handler runs to completion on the volatile globals, so it
    is one atomic transition.  The microsecond clock is a parameter, and the
    DueTimer `start`/`stop` calls and the pin writes are appended to an effect
    log. */
module EngineControl {
  import opened CArith

  const DwellTime: int := 10
  const Tdc: int := 360
  const Grace: int := 5
  const CalibAngle: int := 0
  const AnglePerTooth: int := 420
  const FuelPin: int := 0

  datatype Timer = FuelTimer | SparkTimer

  /** What a handler does outside the globals. */
  datatype Effect =
    | Stop(timer: Timer)
    | Start(timer: Timer, period: int)
    | Write(pin: int, high: bool)

  /** The volatile globals of the controller.  The two `char` flags only ever
      hold TRUE or FALSE, so they are booleans here. */
  datatype Globals = Globals(
    instantDPMS: int,
    fuelOpen: bool,
    chargingSpark: bool,
    fuelDuration: int,
    toothCount: int,
    lastTick: int,
    lastTickDelta: int,
    prevTick: int,
    prevTickDelta: int,
    prevPrevTick: int,
    lastToothAngle: int,
    recalc: bool)

  /** Globals of static storage start out zero. */
  function Initial(): Globals
  {
    Globals(0, false, false, 0, 0, 0, 0, 0, 0, 0, 0, false)
  }

  datatype Outcome = Outcome(next: Globals, effects: seq<Effect>)

  /* ---------------------------------------------------------------------
     The crank-tooth interrupt (tacISR)
     --------------------------------------------------------------------- */

  /** The missing tooth: the latest interval exceeds 1.3 times the one before
      it.  Over the reals `last > prev * 1.3` is `10 * last > 13 * prev`. */
  predicate IsGap(lastDelta: int, prevDelta: int)
  {
    10 * lastDelta > 13 * prevDelta
  }

  /** tacISR at time `now`.  The speed estimate divides by the new interval,
      so two teeth at the same instant are undefined behaviour. */
  function TacStep(g: Globals, now: int): Globals
    requires now != g.lastTick
  {
    var lastDelta := now - g.lastTick;
    var prevDelta := g.lastTick - g.prevTick;
    var gap := IsGap(lastDelta, prevDelta);
    g.(prevPrevTick := g.prevTick, prevTick := g.lastTick, lastTick := now,
       lastTickDelta := lastDelta, prevTickDelta := prevDelta,
       toothCount := if gap then 0 else g.toothCount + 1,
       lastToothAngle := if gap then CalibAngle else g.lastToothAngle + AnglePerTooth,
       instantDPMS := CDiv(AnglePerTooth, lastDelta))
  }

  /** The two deltas are the gaps between consecutive ticks of the window. */
  predicate WindowConsistent(g: Globals)
  {
    g.lastTickDelta == g.lastTick - g.prevTick && g.prevTickDelta == g.prevTick - g.prevPrevTick
  }

  /** The window slides by one tick and both deltas are taken from the
      shifted window. */
  lemma TacShiftsWindow(g: Globals, now: int)
    requires now != g.lastTick
    ensures var g' := TacStep(g, now);
            g'.prevPrevTick == g.prevTick && g'.prevTick == g.lastTick && g'.lastTick == now
            && WindowConsistent(g')
  {
  }

  /** A gap restarts the tooth count at the calibration angle; any other
      tooth advances the count by one and the angle by one tooth. */
  lemma TacCountsTeeth(g: Globals, now: int)
    requires now != g.lastTick
    ensures var g' := TacStep(g, now);
            if IsGap(now - g.lastTick, g.lastTick - g.prevTick)
            then g'.toothCount == 0 && g'.lastToothAngle == CalibAngle
            else g'.toothCount == g.toothCount + 1 && g'.lastToothAngle == g.lastToothAngle + AnglePerTooth
  {
  }

  /** The tooth interrupt touches neither the injector nor the coil state,
      and does not ask for a recalculation even on a gap. */
  lemma TacLeavesOutputs(g: Globals, now: int)
    requires now != g.lastTick
    ensures var g' := TacStep(g, now);
            g'.fuelOpen == g.fuelOpen && g'.chargingSpark == g.chargingSpark
            && g'.recalc == g.recalc && g'.fuelDuration == g.fuelDuration
  {
  }

  /** The integer speed estimate: zero once a tooth interval exceeds the
      angle of one tooth, at least one for any positive interval up to it. */
  lemma DpmsVanishes(delta: int)
    requires delta != 0
    ensures delta > AnglePerTooth ==> CDiv(AnglePerTooth, delta) == 0
    ensures 0 < delta <= AnglePerTooth ==> 1 <= CDiv(AnglePerTooth, delta) <= AnglePerTooth
    ensures delta < 0 ==> CDiv(AnglePerTooth, delta) <= 0
  {
    CDivBounds(AnglePerTooth, delta);
    if delta > AnglePerTooth {
      var q := CDiv(AnglePerTooth, delta);
      if q >= 1 {
        MulGrows(q, delta);
      }
    } else if 0 < delta {
      var q := CDiv(AnglePerTooth, delta);
      if q > AnglePerTooth {
        MulGrows(q, delta);
      }
    }
  }

  lemma MulGrows(q: int, d: int)
    requires q >= 1 && d >= 1
    ensures q * d >= d && q * d >= q
  {
  }

  /* ---------------------------------------------------------------------
     The timer interrupts (fuelISR, sparkISR)
     --------------------------------------------------------------------- */

  /** fuelISR: stop the fuel timer; close an open injector, or open a closed
      one and re-arm the timer for the injection length. */
  function FuelStep(g: Globals): Outcome
  {
    if g.fuelOpen then
      Outcome(g.(fuelOpen := false), [Stop(FuelTimer), Write(FuelPin, false)])
    else
      Outcome(g.(fuelOpen := true), [Stop(FuelTimer), Write(FuelPin, true), Start(FuelTimer, g.fuelDuration)])
  }

  /** The fuel interrupt always stops its timer first, drives the injector to
      the new state, and re-arms the timer exactly when it has just opened
      the injector; it changes no other global. */
  lemma FuelToggles(g: Globals)
    ensures var o := FuelStep(g);
            o.next.fuelOpen == !g.fuelOpen && o.next == g.(fuelOpen := !g.fuelOpen)
            && o.effects[0] == Stop(FuelTimer) && o.effects[1] == Write(FuelPin, !g.fuelOpen)
            && (Start(FuelTimer, g.fuelDuration) in o.effects <==> !g.fuelOpen)
  {
  }

  /** Two fuel interrupts restore the injector state: one open-close pulse. */
  lemma FuelTwiceRestores(g: Globals)
    ensures FuelStep(FuelStep(g).next).next == g
  {
  }

  /** sparkISR: stop the spark timer; end a charge (and ask the main loop to
      recalculate), or begin one and re-arm the timer for the dwell time. */
  function SparkStep(g: Globals): Outcome
  {
    if g.chargingSpark then
      Outcome(g.(chargingSpark := false, recalc := true), [Stop(SparkTimer)])
    else
      Outcome(g.(chargingSpark := true), [Stop(SparkTimer), Start(SparkTimer, DwellTime)])
  }

  /** A spark interrupt flips the coil state, re-arms for the dwell exactly
      when it starts a charge, and raises `recalc` exactly when it discharges. */
  lemma SparkToggles(g: Globals)
    ensures var o := SparkStep(g);
            o.next.chargingSpark == !g.chargingSpark
            && o.effects[0] == Stop(SparkTimer)
            && (Start(SparkTimer, DwellTime) in o.effects <==> !g.chargingSpark)
            && o.next.recalc == (g.recalc || g.chargingSpark)
            && o.next.(chargingSpark := g.chargingSpark, recalc := g.recalc) == g
  {
  }

  /* ---------------------------------------------------------------------
     The recalculation block of the main loop
     --------------------------------------------------------------------- */

  /** The angles (degrees) and delays (microseconds) of one recalculation. */
  datatype Plan = Plan(
    sparkAdvAngle: int,
    fuelDurationAngle: int,
    fuelEndAngle: int,
    fuelStartAngle: int,
    sparkChargeAngle: int,
    approxSparkAngle: int,
    sparkChargeTime: int,
    approxFuelAngle: int,
    fuelStartTime: int)

  /** Where the crank is `now`, extrapolated from the last tooth. */
  function ApproxAngle(lastToothAngle: int, lastTick: int, dpms: int, now: int): int
  {
    lastToothAngle + (now - lastTick) * dpms
  }

  /** The delay until the crank reaches `target`, as the integer quotient. */
  function DelayUntil(target: int, approx: int, dpms: int): int
    requires dpms != 0
  {
    CDiv(target - approx, dpms)
  }

  /** The recalculation block, from the spark-advance table result, the
      injection length and the two clock readings.  The advance is stored in
      an `int`, so TDC minus the table value is truncated. */
  function Recalc(saLookup: real, duration: int, dpms: int, lastToothAngle: int, lastTick: int,
                  now1: int, now2: int): Plan
    requires dpms != 0
  {
    var adv := Trunc(Tdc as real - saLookup);
    var durAngle := duration * dpms;
    var fuelEnd := adv - Grace;
    var fuelStart := fuelEnd - durAngle;
    var chargeAngle := adv - DwellTime * dpms;
    var approx1 := ApproxAngle(lastToothAngle, lastTick, dpms, now1);
    var approx2 := ApproxAngle(lastToothAngle, lastTick, dpms, now2);
    Plan(adv, durAngle, fuelEnd, fuelStart, chargeAngle,
         approx1, DelayUntil(chargeAngle, approx1, dpms),
         approx2, DelayUntil(fuelStart, approx2, dpms))
  }

  /** The fuel window closes GRACE degrees before the spark, opens one
      injection length (in degrees) earlier, and the coil starts charging one
      dwell time (in degrees) before the spark; the spark sits at TDC minus
      the table's advance, to within one degree. */
  lemma RecalcAngles(saLookup: real, duration: int, dpms: int, lastToothAngle: int, lastTick: int,
                     now1: int, now2: int)
    requires dpms != 0
    ensures var p := Recalc(saLookup, duration, dpms, lastToothAngle, lastTick, now1, now2);
            && p.fuelEndAngle == p.sparkAdvAngle - Grace
            && p.fuelStartAngle == p.fuelEndAngle - duration * dpms
            && p.sparkChargeAngle == p.sparkAdvAngle - DwellTime * dpms
            && (duration >= 0 && dpms > 0 ==> p.fuelStartAngle <= p.fuelEndAngle < p.sparkAdvAngle)
            && (dpms > 0 ==> p.sparkChargeAngle < p.sparkAdvAngle)
            && (saLookup <= Tdc as real ==> p.sparkAdvAngle as real <= Tdc as real - saLookup < p.sparkAdvAngle as real + 1.0)
  {
    var p := Recalc(saLookup, duration, dpms, lastToothAngle, lastTick, now1, now2);
    if duration >= 0 && dpms > 0 {
      MulNonNeg(duration, dpms);
    }
  }

  lemma MulNonNeg(a: int, b: int)
    requires a >= 0 && b >= 0
    ensures a * b >= 0
  {
  }

  /** Converted back to degrees, a delay never overshoots the remaining angle
      and falls short of it by less than one microsecond of rotation; it is
      negative when the target already lies behind the crank by a whole
      microsecond of rotation or more. */
  lemma DelayUndershoots(target: int, approx: int, dpms: int)
    requires dpms != 0
    ensures var t, rest := DelayUntil(target, approx, dpms), target - approx;
            && (rest >= 0 ==> 0 <= t * dpms <= rest < t * dpms + Abs(dpms))
            && (rest <= 0 ==> t * dpms - Abs(dpms) < rest <= t * dpms <= 0)
            && (dpms > 0 && rest <= -dpms ==> t < 0)
  {
    CDivBounds(target - approx, dpms);
    var t := DelayUntil(target, approx, dpms);
    if dpms > 0 && target - approx <= -dpms && t >= 0 {
      MulNonNeg(t, dpms);
    }
  }

  /** One pass of the main loop.  Without `recalc` nothing happens.  With it,
      the pass stores the injection length and starts the spark timer and
      then the fuel timer; it never clears `recalc`.  A zero speed estimate
      divides by zero: `None`. */
  function LoopPass(g: Globals, saLookup: real, duration: int, now1: int, now2: int): Option<Outcome>
  {
    if !g.recalc then Some(Outcome(g, []))
    else if g.instantDPMS == 0 then None
    else
      var p := Recalc(saLookup, duration, g.instantDPMS, g.lastToothAngle, g.lastTick, now1, now2);
      Some(Outcome(g.(fuelDuration := duration),
                   [Start(SparkTimer, p.sparkChargeTime), Start(FuelTimer, p.fuelStartTime)]))
  }

  /* ---------------------------------------------------------------------
     Runs of events
     --------------------------------------------------------------------- */

  datatype Event =
    | Tooth(now: int)
    | FuelFires
    | SparkFires
    | MainLoop(saLookup: real, duration: int, now1: int, now2: int)

  /** One event; `None` when the event divides by zero. */
  function Step(g: Globals, e: Event): Option<Globals>
  {
    match e
    case Tooth(now) => if now == g.lastTick then None else Some(TacStep(g, now))
    case FuelFires => Some(FuelStep(g).next)
    case SparkFires => Some(SparkStep(g).next)
    case MainLoop(sa, dur, now1, now2) =>
      match LoopPass(g, sa, dur, now1, now2)
      case None => None
      case Some(o) => Some(o.next)
  }

  function Run(g: Globals, evs: seq<Event>): Option<Globals>
    decreases |evs|
  {
    if evs == [] then Some(g)
    else match Step(g, evs[0])
      case None => None
      case Some(g') => Run(g', evs[1..])
  }

  /** Only a discharging spark interrupt changes `recalc`, and it sets it. */
  lemma RecalcOnlyFromSpark(g: Globals, e: Event, g': Globals)
    requires Step(g, e) == Some(g')
    ensures g'.recalc != g.recalc ==> e == SparkFires && g.chargingSpark && g'.recalc
  {
  }

  /** Nothing in the controller clears `recalc`: once a spark has been fired
      every later main-loop pass recalculates. */
  lemma {:induction false} RecalcStaysSet(g: Globals, evs: seq<Event>, g': Globals)
    requires g.recalc && Run(g, evs) == Some(g')
    ensures g'.recalc
    decreases |evs|
  {
    if evs != [] {
      var next :| Step(g, evs[0]) == Some(next);
      RecalcOnlyFromSpark(g, evs[0], next);
      RecalcStaysSet(next, evs[1..], g');
    }
  }

  /** The tooth angle is always the calibration angle plus one tooth per
      counted tooth. */
  predicate AngleTracksCount(g: Globals)
  {
    g.lastToothAngle == CalibAngle + AnglePerTooth * g.toothCount
  }

  lemma StepKeepsAngle(g: Globals, e: Event, g': Globals)
    requires AngleTracksCount(g) && Step(g, e) == Some(g')
    ensures AngleTracksCount(g')
  {
  }

  lemma {:induction false} RunKeepsAngle(g: Globals, evs: seq<Event>, g': Globals)
    requires AngleTracksCount(g) && Run(g, evs) == Some(g')
    ensures AngleTracksCount(g')
    decreases |evs|
  {
    if evs != [] {
      var next :| Step(g, evs[0]) == Some(next);
      StepKeepsAngle(g, evs[0], next);
      RunKeepsAngle(next, evs[1..], g');
    }
  }

  /** From power-up, three evenly spaced teeth followed by one whose interval
      is 1.3 times longer (plus a microsecond) are recognised as the gap,
      while exactly 1.3 times is not. */
  lemma MissingToothExample()
    ensures var g := TacStep(TacStep(TacStep(Initial(), 1000), 2000), 3000);
            && TacStep(g, 4301).toothCount == 0
            && TacStep(g, 4300).toothCount == g.toothCount + 1
            && TacStep(g, 4301).instantDPMS == 0
  {
    var g := TacStep(TacStep(TacStep(Initial(), 1000), 2000), 3000);
    assert g.lastTick == 3000 && g.prevTick == 2000;
    assert IsGap(1301, 1000) && !IsGap(1300, 1000);
    DpmsVanishes(1301);
  }

  /* ---------------------------------------------------------------------
     The controller as the firmware holds it
     --------------------------------------------------------------------- */

  class Ecu {
    var instantDPMS: int
    var fuelOpen: bool
    var chargingSpark: bool
    var fuelDuration: int
    var toothCount: int
    var lastTick: int
    var lastTickDelta: int
    var prevTick: int
    var prevTickDelta: int
    var prevPrevTick: int
    var lastToothAngle: int
    var recalc: bool
    /** Timer calls and pin writes, oldest first. */
    var effects: seq<Effect>

    ghost function State(): Globals
      reads this
    {
      Globals(instantDPMS, fuelOpen, chargingSpark, fuelDuration, toothCount, lastTick,
              lastTickDelta, prevTick, prevTickDelta, prevPrevTick, lastToothAngle, recalc)
    }

    constructor ()
      ensures State() == Initial() && effects == []
    {
      instantDPMS, fuelOpen, chargingSpark, fuelDuration := 0, false, false, 0;
      toothCount, lastTick, lastTickDelta := 0, 0, 0;
      prevTick, prevTickDelta, prevPrevTick := 0, 0, 0;
      lastToothAngle, recalc := 0, false;
      effects := [];
    }

    method FuelIsr()
      modifies this
      ensures State() == FuelStep(old(State())).next
      ensures effects == old(effects) + FuelStep(old(State())).effects
    {
      effects := effects + [Stop(FuelTimer)];
      if fuelOpen {
        effects := effects + [Write(FuelPin, false)];
        fuelOpen := false;
      } else {
        effects := effects + [Write(FuelPin, true)];
        fuelOpen := true;
        effects := effects + [Start(FuelTimer, fuelDuration)];
      }
    }

    method SparkIsr()
      modifies this
      ensures State() == SparkStep(old(State())).next
      ensures effects == old(effects) + SparkStep(old(State())).effects
    {
      effects := effects + [Stop(SparkTimer)];
      if chargingSpark {
        chargingSpark := false;
        recalc := true;
      } else {
        chargingSpark := true;
        effects := effects + [Start(SparkTimer, DwellTime)];
      }
    }

    method TacIsr(now: int)
      requires now != lastTick
      modifies this
      ensures State() == TacStep(old(State()), now)
      ensures effects == old(effects)
    {
      prevPrevTick := prevTick;
      prevTick := lastTick;
      lastTick := now;

      lastTickDelta := lastTick - prevTick;
      prevTickDelta := prevTick - prevPrevTick;

      if IsGap(lastTickDelta, prevTickDelta) {
        lastToothAngle := CalibAngle;
        toothCount := 0;
      } else {
        toothCount := toothCount + 1;
        lastToothAngle := lastToothAngle + AnglePerTooth;
      }

      instantDPMS := CDiv(AnglePerTooth, lastTickDelta);
    }

    /** One pass of the main loop's body; the two clock readings are the
        values `micros()` returns at the two extrapolations. */
    method MainLoopPass(saLookup: real, duration: int, now1: int, now2: int)
      requires recalc ==> instantDPMS != 0
      modifies this
      ensures LoopPass(old(State()), saLookup, duration, now1, now2).Some?
      ensures var o := LoopPass(old(State()), saLookup, duration, now1, now2).value;
              State() == o.next && effects == old(effects) + o.effects
    {
      if recalc {
        var sparkAdvAngle := Trunc(Tdc as real - saLookup);
        fuelDuration := duration;

        var fuelDurationAngle := fuelDuration * instantDPMS;
        var fuelEndAngle := sparkAdvAngle - Grace;
        var fuelStartAngle := fuelEndAngle - fuelDurationAngle;

        var sparkChargeAngle := sparkAdvAngle - DwellTime * instantDPMS;
        var approxAngle := lastToothAngle + (now1 - lastTick) * instantDPMS;
        var sparkChargeTime := CDiv(sparkChargeAngle - approxAngle, instantDPMS);
        effects := effects + [Start(SparkTimer, sparkChargeTime)];

        approxAngle := lastToothAngle + (now2 - lastTick) * instantDPMS;
        var fuelStartTime := CDiv(fuelStartAngle - approxAngle, instantDPMS);
        effects := effects + [Start(FuelTimer, fuelStartTime)];
      }
    }
  }
}
