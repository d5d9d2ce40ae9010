# A verified model of the small-engine ECU firmware

This project models the core of the cpsmv ECU: the firmware that runs a small
single-cylinder engine, plus the table model of its PyQt tuning tool. It is
written in Dafny, and the verifier proves the properties stated below about
that model.

The modelled parts are:

- **Calibration tables** (`table.dfy`, module `CalibrationTable`).
  - The linear bracket search `findIndex`.
  - Row-major addressing of 2-axis and 3-axis grids.
  - Bilinear and trilinear interpolation between the cells that bracket a
    query.
- **Interrupt-driven controller** (`engine_control.dfy`, module `EngineControl`).
  - The crank-tooth interrupt. It keeps a window of three timestamps,
    detects the missing tooth and tracks the crank angle.
  - The fuel-injector and ignition-coil timer interrupts.
  - The arithmetic of the main loop's recalculation block.
  - Each handler is one atomic transition of the volatile globals. It is a
    pure step function, and also a method of the class `Ecu`.
- **Speed and unit conversions** of `ecu.h` (`units.dfy`).
- **Thermistor conversion with clamping** (`thermistor.dfy`).
- **Tachometer driver** (`tach.dfy`).
  - It splits a resistance between two digital potentiometers and sends
    SPI frames.
  - It computes the tach resistance for a speed.
- **DMTimer layer** (`timers.dfy`).
  - The 32-bit `TIMER_CONVERT`.
  - The five-slot callback table, written by `configTimer` and read by the
    five overflow handlers.
  - `freezeTimer`.
- **Tuner table model** (`tuner.dfy`).
  - Qt model queries.
  - Cell edits validated by `int()`.
  - The four-cell highlight around an operating point.
  - The two shipped tables.
- **AVR timer demos**.
  - The first-fit prescaler search (`avr_prescaler.dfy`).
  - The compare-value halving interrupt (`avr_blink.dfy`).

Conventions:

- C `float` is modelled as `real`. Assigning a float to an `int` truncates
  toward zero (`CArith.Trunc`). C's `/` on integers truncates toward zero
  (`CArith.CDiv`).
- Unsigned 32-bit and 16-bit wrap-around is written out where the source
  relies on it.
- Pins, SPI transfers, timer starts and stops, and timer-library calls are
  appended, in order, to a log field of the class that performs them.
- The microsecond clock is a parameter.

## Model

| member | source | states |
|---|---|---|
| CalibrationTable.BracketIndex | src/ecu/table.cpp:26-30 | When the last breakpoint lies above `x`, the index lies in -1..n-2. The next breakpoint lies above `x` and every breakpoint up to the index lies at or below `x`. The index is -1 exactly when `x` lies below the first breakpoint. |
| CalibrationTable.FindIndex | src/ecu/table.cpp:26-30 | The scan loop stops inside the array when the last breakpoint lies above `x`. It returns the bracket described above. |
| CalibrationTable.BracketUnique | src/ecu/table.cpp:26-30 | Only one index has both bracket properties. |
| CalibrationTable.BracketAtBreakpoint | src/ecu/table.cpp:26-30 | On a strictly increasing axis, a query exactly at inner breakpoint `i` is bracketed by `i`. |
| CalibrationTable.Offset2DInRange | src/ecu/table.cpp:36-43 | Cell (x, y) of a width-by-height grid has its offset `y*width + x` inside the grid. |
| CalibrationTable.Offset2DInjective | src/ecu/table.cpp:36-43 | Two cells whose columns lie inside the row width share an offset only when they are the same cell. |
| CalibrationTable.Update2DOthers | src/ecu/table.cpp:41-43 | Writing one cell leaves every other in-width cell unchanged. |
| CalibrationTable.Table2D.Set2DData | src/ecu/table.cpp:36-43 | `set2DData` writes exactly one array element. `get2DData` at the same (x, y) then returns the value. For `0 <= x < width`, every other cell is unchanged. |
| CalibrationTable.Area | src/ecu/table.cpp:60 | The cell area that the bilinear lookup divides by is positive whenever the bracket is strict, which findIndex guarantees. |
| CalibrationTable.Weights2DConvex | src/ecu/table.cpp:59-66 | Inside the cell the four weights are non-negative and add up to `(x2-x1)(y2-y1)`. |
| CalibrationTable.Interpolate2DFormula | src/ecu/table.cpp:59-66 | The source's closed-form expression equals the weighted sum of the four corners divided by the area. |
| CalibrationTable.Table2D.Table2DLookup | src/ecu/table.cpp:47-67 | For a query inside both axes (first breakpoint included, last excluded), the lookup returns the bilinear interpolation `Bilinear` of the four bracketing cells. |
| CalibrationTable.BilinearBetweenCorners | src/ecu/table.cpp:59-66 | The bilinear value lies between the least and the greatest of its four corner cells. |
| CalibrationTable.BilinearConstant | src/ecu/table.cpp:59-66 | Four equal corners interpolate to their common value. |
| CalibrationTable.BilinearAtBreakpoint | src/ecu/table.cpp:49-66 | On strictly increasing axes, a query at breakpoints (xs[i], ys[j]) strictly inside the axes returns the grid cell (i, j) exactly. |
| CalibrationTable.Offset3DNested | src/ecu/table.cpp:73-80 | The 3-axis offset `z*(length*width) + y*width + x` is a 2-axis offset whose rows are whole planes. |
| CalibrationTable.Offset3DInRange | src/ecu/table.cpp:73-80 | A cell inside the three axes has its offset inside the grid. |
| CalibrationTable.Offset3DInjective | src/ecu/table.cpp:73-80 | Distinct cells inside the width and the length have distinct offsets. |
| CalibrationTable.Update3DOthers | src/ecu/table.cpp:78-80 | Writing one cell of a 3-axis grid leaves every other cell unchanged. |
| CalibrationTable.Table3D.Set3DData | src/ecu/table.cpp:73-80 | `set3DData` writes exactly one element. `get3DData` returns the value, and every other in-range cell is unchanged. |
| CalibrationTable.Volume | src/ecu/table.cpp:100 | The cell volume that the trilinear lookup divides by is positive. |
| CalibrationTable.Weights3DConvex | src/ecu/table.cpp:99-111 | The eight weights are non-negative and add up to the cell volume. |
| CalibrationTable.Interpolate3DFormula | src/ecu/table.cpp:99-111 | The source's eight-term expression equals the weighted sum of the eight corners divided by the volume. |
| CalibrationTable.Table3D.Table3DLookup | src/ecu/table.cpp:84-112 | For a query inside all three axes, the lookup returns the trilinear interpolation `Trilinear` of the eight bracketing cells. |
| CalibrationTable.TrilinearBetweenCorners | src/ecu/table.cpp:99-111 | The trilinear value lies between the least and the greatest of its eight corners. |
| CalibrationTable.TrilinearConstant | src/ecu/table.cpp:99-111 | Eight equal corners interpolate to their common value. |
| CalibrationTable.TrilinearAtBreakpoint | src/ecu/table.cpp:84-111 | At the lower breakpoints of a cell of strictly increasing axes, the lookup returns `get3DData(i, j, k)` exactly. |
| EngineControl.TacShiftsWindow | src/ECU.c:87-92 | `tacISR` slides the window, so that prevPrevTick←prevTick, prevTick←lastTick and lastTick←now. It then takes both deltas from the shifted window. |
| EngineControl.TacCountsTeeth | src/ECU.c:94-101 | On a gap (`last > 1.3*prev`, as `10*last > 13*prev`) the tooth count becomes 0 and the angle becomes CALIB_ANGLE. Otherwise the count rises by 1 and the angle by ANGLE_PER_TOOTH. |
| EngineControl.TacLeavesOutputs | src/ECU.c:85-104 | `tacISR` changes neither injector nor coil state, nor `fuelDuration`. It does not raise `recalc`, even on a gap. |
| EngineControl.DpmsVanishes | src/ECU.c:103 | The integer speed `420 / lastTickDelta` is 0 for every interval above 420 and lies in 1..420 for intervals 1..420. |
| EngineControl.MissingToothExample | src/ECU.c:87-103 | From power-up, teeth at 1000, 2000 and 3000 µs followed by one at 4301 µs are seen as the gap. A tooth at 4300 µs is not. |
| EngineControl.FuelToggles | src/ECU.c:48-63 | `fuelISR` stops its timer first, then flips `fuelOpen` and drives the pin to the new state. It re-arms the timer for `fuelDuration` exactly when it opens the injector, and changes no other global. |
| EngineControl.FuelTwiceRestores | src/ECU.c:48-63 | Two fuel interrupts restore the globals. |
| EngineControl.SparkToggles | src/ECU.c:66-83 | `sparkISR` stops its timer, then flips `chargingSpark`. It re-arms for DWELLTIME exactly when a charge starts, and raises `recalc` exactly when it discharges. |
| EngineControl.RecalcAngles | src/ECU.c:131-141 | fuelEnd = sparkAdv − GRACE. fuelStart = fuelEnd − fuelDuration·DPMS. sparkCharge = sparkAdv − DWELLTIME·DPMS. These angles are ordered for a positive speed, and sparkAdv is TDC minus the table value, truncated. |
| EngineControl.DelayUndershoots | src/ECU.c:142-147 | Each delay `(target − approxAngle)/DPMS` undershoots the remaining angle by less than one µs of rotation. It is negative when the target lies behind the crank by at least one µs of rotation (DPMS degrees); a target less than that behind gets a delay of 0, because C's division truncates. |
| EngineControl.RecalcOnlyFromSpark | src/ECU.c:48-150 | The only event that changes `recalc` is a discharging spark interrupt, and it sets the flag. |
| EngineControl.RecalcStaysSet | src/ECU.c:125-150 | Over any run of interrupts and loop passes, a raised `recalc` is never cleared. |
| EngineControl.StepKeepsAngle | src/ECU.c:94-101 | Every event preserves `lastToothAngle == CALIB_ANGLE + 420·toothCount`. |
| EngineControl.RunKeepsAngle | src/ECU.c:94-101 | The same holds over any run of events. |
| EngineControl.Ecu.constructor | src/ECU.c:27-45 | The globals start out zero. |
| EngineControl.Ecu.FuelIsr | src/ECU.c:48-63 | The method performs the `FuelStep` transition on the fields and appends its effects. |
| EngineControl.Ecu.SparkIsr | src/ECU.c:66-83 | The method performs the `SparkStep` transition and appends its effects. |
| EngineControl.Ecu.TacIsr | src/ECU.c:85-104 | The method performs the `TacStep` transition at time `now`. It requires `now != lastTick`, because the division by zero is undefined. |
| EngineControl.Ecu.MainLoopPass | src/ECU.c:129-149 | With `recalc` set, the pass stores the injection length and starts the spark timer, then the fuel timer, with the delays of `Recalc`. Without it, nothing changes. |
| Units.CalcSpeedOneRevolution | src/ecu/ecu.h:70 | `calcSpeed` times the interval is 360 degrees. It is defined only for distinct times and is positive when time moves forward. |
| Units.CalcSpeedDecreasing | src/ecu/ecu.h:70 | A longer revolution gives a lower speed. |
| Units.WeightedBetween | src/ecu/ecu.h:69 | The smoothed speed lies between the new revolution speed and the previous estimate. |
| Units.SpeedTestValues | src/ecu/test/ecuTest.cpp:30-46 | The weighted form gives 0.00589756 and then 0.0059004155, each within 2e-9. |
| Units.RpmTestValues | src/ecu/test/ecuTest.cpp:55-65 | convertToRPM gives 0.007→1166.6669, 0→0 and 1→166666.7. convertFromRPM gives 7000→0.042, 0→0 and 1→6E-6. |
| Units.ConversionsLinear | src/ecu/ecu.h:71-74 | Both conversions are linear and strictly increasing. |
| Units.RoundTripScales | src/ecu/ecu.h:71-74 | A round trip in either order scales by 1.0000002. RPM to speed and back returns its input only at 0. |
| Units.ThresholdsOrdered | src/ecu/ecu.h:53-56 | ENGAGE < CRANKING < LOWER_REV_LIMIT < UPPER_REV_LIMIT, so the hysteresis band is not empty. |
| Thermistor.ResistanceSolvesDivider | src/ecu/thermistor.cpp:49 | The computed resistance satisfies the divider equation, and it is non-negative for readings below the supply. |
| Thermistor.ClampCases | src/ecu/thermistor.cpp:56-61 | Below the low limit the result is that limit. Above the high limit it is that limit. Otherwise it is the value. With inverted limits it is one of the two limits. |
| Thermistor.ClampInRange | src/ecu/thermistor.cpp:56-61 | With ordered limits the result lies between them, and it equals the input exactly when the input lies between them. |
| Thermistor.ClampIdempotent | src/ecu/thermistor.cpp:56-61 | Clamping twice is clamping once. |
| Thermistor.ClampMonotone | src/ecu/thermistor.cpp:56-61 | The clamp is non-decreasing. |
| Thermistor.TempWithinLimits | src/ecu/thermistor.cpp:45-62 | `thermistorTemp` lies within the limits and returns the fitted temperature whenever that lies inside them. |
| Tach.WiperByteInRange | src/ecu/tach.cpp:35 | The data byte is always in 0..255, and it equals the position for positions 0..255. |
| Tach.Pos100kRange | src/ecu/tach.cpp:19 | For R ≥ 0 the coarse wiper lies in 0..127 and the remainder is non-negative. |
| Tach.Pos10kRange | src/ecu/tach.cpp:23-24 | The fine wiper lies in -1..126. It is -1 exactly when R ≤ R_W_10K − R_RES_10K. |
| Tach.ActualBelowRequest | src/ecu/tach.cpp:27-28 | The returned resistance is strictly below the request for every R ≥ 0. |
| Tach.TinyRequestNegative | src/ecu/tach.cpp:24-35 | For R ≤ 17.73125 the returned resistance is negative, although both pots are sent wiper 0. |
| Tach.TachResistanceInverse | src/ecu/tach.cpp:39-48 | Tach resistance times rpm is 60/(1.1·1e-6). |
| Tach.TachResistanceDecreasing | src/ecu/tach.cpp:39-48 | For positive speeds the tach resistance is positive and strictly decreasing. |
| Tach.TachDriver.InitTach | src/ecu/tach.cpp:8-15 | Both chip selects become outputs and are driven HIGH. |
| Tach.TachDriver.SetDigiPotResistance | src/ecu/tach.cpp:31-37 | The bus gets CS LOW, 0x00, the clamped wiper byte and CS HIGH, in that order. |
| Tach.TachDriver.SetTachResistance | src/ecu/tach.cpp:17-29 | The 100K frame is sent before the 10K frame, and the method returns `Actual(R)`. |
| Timers.TimerConvert | src/timers.c:8 | The converted count is a 32-bit unsigned value. |
| Timers.TimerConvertCongruent | src/timers.c:8 | count + 26·us ≡ 0xFFFFFFFF (mod 2^32), for every delay. |
| Timers.TimerConvertNoWrap | src/timers.c:8 | The count is exactly 0xFFFFFFFF − 26·us if and only if us ≤ 165191049. |
| Timers.TicksToOverflow | src/timers.c:8 | Within that range the counter overflows after 26·us + 1 ticks. |
| Timers.HwOf | src/timers.c:30-60 | Ids 0..4 select a hardware timer whose handler reads slot `id`. Every other id matches no case. |
| Timers.SlotRoundTrip | src/timers.c:111-180 | Each handler reads a slot in 0..4, and that slot's id selects the same timer. |
| Timers.SlotInjective | src/timers.c:111-180 | Different handlers read different slots. |
| Timers.ConfigLoadsBothRegisters | src/timers.c:65-83 | The counter and reload registers get the same count. The interrupt is enabled before the timer starts. |
| Timers.DispatchAfterConfig | src/timers.c:62 | After configuring id `t`, timer `t`'s handler calls the new callback and every other handler calls what it called before. Reconfiguring replaces the callback. |
| Timers.TimerModule.constructor | src/timers.c:16 | The callback table starts all null. |
| Timers.TimerModule.InitTimers | src/timers.c:19-23 | It enables IRQs and initialises the interrupt controller. |
| Timers.TimerModule.ConfigTimer | src/timers.c:25-84 | For ids 0..4 it writes only `callbacks[id]`, storing the given pointer as it is (a null pointer included). The write comes after `IntRegister`, amid the register calls, which are issued in source order with `TIMER_CONVERT(us)`. It keeps the invariant that only interrupt-enabled timers run. |
| Timers.TimerModule.FreezeTimer | src/timers.c:86-104 | It disables only the selected timer, and does nothing for ids outside 0..4. |
| Timers.TimerModule.Isr | src/timers.c:111-180 | The handler masks the overflow interrupt, clears its flag, calls `callbacks[slot]` once, then unmasks. It requires the slot to hold a callback. |
| Tuner.IntParsesAccepted | src/SMVTuner/TablePrototype.py:74-77 | `int()` accepts ints, floats, digit strings and digit groups with single underscores. |
| Tuner.IntParsesPadded | src/SMVTuner/TablePrototype.py:74-77 | `int()` accepts a signed number with surrounding whitespace. |
| Tuner.IntParsesRejected | src/SMVTuner/TablePrototype.py:74-79 | `int()` rejects empty and blank strings, decimals, doubled or leading underscores, and a lone sign. |
| Tuner.CountSplit | src/SMVTuner/TablePrototype.py:89-95 | When the entries below k are ≤ x and the rest are > x, the counting loop counts k. |
| Tuner.HighlightIsBracket | src/SMVTuner/TablePrototype.py:87-95 | On a strictly increasing axis the highlight index equals findIndex's bracket. |
| Tuner.HighlightOutOfRange | src/SMVTuner/TablePrototype.py:87-99 | The highlight index is -1 below the axis. At or above the last entry its neighbour is one past the end. |
| Tuner.HighlightCellsSquare | src/SMVTuner/TablePrototype.py:96-99 | The four listed cells are exactly the 2×2 square at (yh, xh). |
| Tuner.SetCellReads | src/SMVTuner/TablePrototype.py:76 | A cell edit keeps the shape. The cell reads back the new value and every other cell is unchanged. |
| Tuner.ShippedShapes | src/SMVTuner/TablePrototype.py:101-141 | VE has 16-entry strictly increasing axes and a 16×16 grid. SA has 12-entry axes and a 12×12 grid. Rows correspond to y-axis entries and columns to x-axis entries. |
| Tuner.TuningTable.VE | src/SMVTuner/TablePrototype.py:101-122 | It builds the VE table, which satisfies the shape invariant. |
| Tuner.TuningTable.SA | src/SMVTuner/TablePrototype.py:124-141 | It builds the SA table, which satisfies the shape invariant. |
| Tuner.TableModel.constructor | src/SMVTuner/TablePrototype.py:34-37 | The model starts with no highlighted cells. |
| Tuner.TableModel.Data | src/SMVTuner/TablePrototype.py:39-56 | A display query returns `data[row][col]` exactly when the index is within rowCount×columnCount. The red brush is returned exactly for a highlighted in-range cell, and centred alignment exactly for an in-range alignment query. |
| Tuner.TableModel.HeaderData | src/SMVTuner/TablePrototype.py:58-67 | The display role returns the x-axis entry for a column or the y-axis entry for a row. |
| Tuner.TableModel.SetData | src/SMVTuner/TablePrototype.py:72-83 | It succeeds if and only if the index is valid and `int(value)` succeeds. On success it stores the original value. On failure the table is unchanged. |
| Tuner.TableModel.SetHighlight | src/SMVTuner/TablePrototype.py:85-99 | It replaces the list with the four cells around (count(y)−1, count(x)−1). |
| AvrPrescaler.FirstFit | Arduino/src/avr-timertest.cpp:17-23 | The search stops at the first index in 1..5 whose compare value `m/prescaler*16` is below 65535, or at 6 when none fits. |
| AvrPrescaler.CompareValueStep | Arduino/src/avr-timertest.cpp:18 | For m ≥ 0 the next prescaler never gives a larger compare value. |
| AvrPrescaler.FitsPersist | Arduino/src/avr-timertest.cpp:17-23 | For m ≥ 0, once a prescaler fits, every larger one fits too. |
| AvrPrescaler.NoFitIff | Arduino/src/avr-timertest.cpp:17-23 | For m ≥ 0 nothing fits if and only if m ≥ 4194304. The search then ends at 6, past the end of the table. |
| AvrPrescaler.NegativePeriodFirst | Arduino/src/avr-timertest.cpp:17-20 | A negative period takes prescaler 1, and its value wraps into the 16-bit register. |
| AvrPrescaler.OneSecondExample | Arduino/src/avr-timertest.cpp:17-32 | For m = 1000000 the search picks index 4 (prescaler 256) with OCR1A = 62496. |
| AvrPrescaler.ControlByte | Arduino/src/avr-timertest.cpp:14-19 | TCCR1B ends as 8 + i, and its low bits read back i. |
| AvrPrescaler.Timer1.ConfigTimer | Arduino/src/avr-timertest.cpp:11-25 | TCCR1A and TCNT1 are zeroed and OCIE1A is set, whatever the outcome. `i == FirstFit(m)`. On a fit, TCCR1B = CTC|i and OCR1A = q = the compare value. Otherwise OCR1A and q keep their values. |
| AvrPrescaler.Timer1.CompareIsr | Arduino/src/avr-timertest.cpp:42-44 | The compare interrupt toggles the LED and leaves the registers, the globals and the interrupt flag unchanged. |
| AvrBlink.HalveNonIncreasing | avr-timertest.cpp:26 | OCR1A never increases, and it stays unchanged exactly when it is ≤ 1000. |
| AvrBlink.HalveFloor | avr-timertest.cpp:26 | Halving from above 1000 never goes below 500. |
| AvrBlink.IterateSettled | avr-timertest.cpp:23-27 | A value ≤ 1000 stays put through any number of interrupts. |
| AvrBlink.IterateNonIncreasing | avr-timertest.cpp:23-27 | OCR1A never increases over a run of interrupts. |
| AvrBlink.FromInitial | avr-timertest.cpp:15-26 | From 65535, OCR1A goes 32767, 16383, 8191, 4095, 2047, 1023, 511, and it is 511 from the seventh interrupt on. |
| AvrBlink.Blink.Setup | avr-timertest.cpp:5-21 | TCCR1A and TCNT1 are zeroed. OCR1A = 65535. TCCR1B = CTC plus clock 1024 (= 13). OCIE1A is set and the LED pin is an output. |
| AvrBlink.Blink.CompareIsr | avr-timertest.cpp:23-27 | The interrupt toggles the LED and sets OCR1A to `Halve(OCR1A)`. |

## Left out

- Preemption. Each interrupt handler and each main-loop pass is one atomic step, so interleavings inside a handler are not modelled.
- `micros()` and the clock. The time is a parameter. The 32-bit `int` overflow of the tick arithmetic in src/ECU.c is not modelled.
- DueTimer semantics. `start` and `stop` are logged with their argument; what a negative period does is not modelled.
- The non-compiling parts of `main` in src/ECU.c:
  - the MAP read;
  - the `fuelDuration` formula (the macros end in `;` and MASS_FLOW_RATE is empty);
  - the volumetric-efficiency lookup.
  The spark-advance table result and the injection length are inputs instead.
- EngineControl.Recalc: `approxAngle` is undeclared in the source. The model gives it type `int`, like main's other angles, so the delays are signed integer quotients. Were it declared `unsigned long` like `micros()`, the quotients would be unsigned, and the negative-delay clause of `DelayUndershoots` would not hold.
- EngineControl.Ecu.TacIsr: it requires `now != lastTick`. A zero tooth interval makes `ANGLE_PER_TOOTH / lastTickDelta` divide by zero, which C leaves undefined. `Run` returns `None` for that event instead.
- EngineControl.Ecu.MainLoopPass: it requires a non-zero speed estimate when `recalc` is set, because the source then divides by zero. The estimate is an integer division, so by `DpmsVanishes` it is zero for every tooth interval above 420 µs, which covers all slow running, not only a corner case. `LoopPass` and `Run` return `None` for that case instead.
- Arduino/src/ECU.c is not part of this model. It is a pseudocode draft whose timings and fuel equation are comments.
- Functions that are declared but have no body shown: `readADC`, `tableLookup`, `getCurrAngle`, `injectorPulse`, `timeToStartFueling`, `timetoChargeSpark`, `readMAP` and related functions. The `injectorPulse` test expectation cannot be checked without the body.
- Units.CalcSpeedWeighted: the speed test calls `calcSpeed` with three arguments, which fits only the commented-out weighted macro, so the test's values are stated about that form. The two-argument macro is modelled separately.
- IEEE-754 behaviour: rounding, the `EXPECT_FLOAT_EQ` tolerances, and the float rounding of the `1.3f` comparison. Thermistor.Resistance requires a reading different from the supply voltage. At that reading C produces an infinity, or NaN when both are zero, and NaN would pass the clamp unchanged. Units.CalcSpeed requires `currTime != prevTime`, and Tach.CalcTachResistance requires `currRpm != 0` (an engine at standstill). C gives an infinity in both cases.
- CalibrationTable.Table2D.Table2DLookup and CalibrationTable.Table3D.Table3DLookup require every query to lie inside its axis, because the code does not clamp. Strictly increasing axes are needed only for the breakpoint lemmas. The division is safe from the bracket alone.
- Hardware registers of the DMTimer library: their effect is not modelled, only the order of the calls. `DMTimerModeConfigure` uses the undefined `reload`, and `autoReload` is unused. `getTime` has no body.
- Timers.TimerModule.ConfigTimer requires an id in 0..4. Other ids write outside `callbacks[5]` and use uninitialised locals.
- Timers.TimerModule.Isr: what the callbacks themselves do is not modelled. A callback is an identifier.
- Timers.TimerModule.Isr: it requires a non-null callback in the timer's slot. `configTimer` stores a null pointer without complaint, and the handler would then call through it, which is undefined.
- Tuner: `int()` on strings is modelled for the ASCII whitespace Python strips (space, tab, line feed, vertical tab, form feed, carriage return and 0x1C to 0x1F), signs, digits and underscores. Non-ASCII digits and whitespace (such as U+0085 and U+00A0) are not modelled, nor are non-finite floats.
- The Qt index, `flags`, `TableWindow`, `MyHeaderView` and the `__main__` block of src/SMVTuner/TablePrototype.py. The GUI, pickle persistence, serial I/O, src/analog.c, src/pinoutput.c, src/testapp.c, Arduino/src/avr-pinterrupt.cpp and src/temp_plot/TempPlot.py are not part of this model either.
- AvrPrescaler.CompareValue: `m/prescaler*16` is computed without 32-bit `long` overflow, which would be undefined behaviour for |m| ≥ 2^27. The `Serial` prints in `main`, and its out-of-bounds `prescalers[6]` read when nothing fits, are not modelled beyond `NoFitIff`.
- The serial port in the blink demo avr-timertest.cpp: `Serial.begin(115200)` in `setup` and the `Serial.println` in `loop` are output only and are not modelled.
