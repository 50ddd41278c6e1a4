# Helicopter controller: a Dafny model of its integer core

This project models the integer and discrete-state core of a small
helicopter-rig controller written in C for a TI Tiva board, together with the
two week-3 PWM lab programs it grew from.

- **Yaw decoder** (`yawDetection.c`): two encoder pins decode to one of four
  states on every edge. A fixed table over (previous state, new state) adds
  +1, -1 or nothing to a signed tick count. Ticks become degrees as
  `yaw * 360 / 448`, truncated toward zero. A one-shot reference handler
  zeroes the count on the first home-sensor edge.
- **Altitude estimator** (`altADC.c`): the ADC interrupt writes samples into
  a ten-slot ring. `updateAlt` sums ten reads and takes a rounded mean. It
  converts the mean to a percentage against a ground baseline, and latches
  that baseline on its 20th call.
- **Flight controller** (`main.c`): the LANDED / ORIENTING / FLYING / LANDING
  state machine of the main loop. Each pass sends the duties it held to the
  generators and only then stores the PID results. The SysTick handler sets
  the slow-tick flag every 25 ticks.
- **PWM layer** (`pwmControl.c`): the period is `clock / 4 / 200` and the
  pulse width is `period * duty / 100`, both truncating. Initialisation leaves
  both outputs off.
- **Week-3 lab programs** (`week3/pwmGen4.c`, `week3/pwmGen3.c`): buttons
  step a frequency (50..400 Hz, by 50) and a duty (5..95 %, by 5), and each
  accepted press reprograms the main generator.

Each C file that updates state in place is a class. Its fields are the
file's statics or `main`'s locals. A ghost `State()` packs the fields into a
datatype value, and each method promises that the new `State()` is a pure
step function of the old one. The step functions carry the lemmas. C's
truncating `/`, the 16-bit conversion and the unsigned wrap-arounds are
written out in `CInt`, because Dafny's integers are unbounded and its `/` is
Euclidean.

Two details of the main loop that the model keeps as the code has them:

- Each pass sends the duties held *before* the PID call (`main.c:250-257`).
  ORIENTING's 5 % / 10 % and the 0 % / 0 % set on leaving it therefore
  reach the generators in that same pass, and the PID results only take
  effect in the next one (see `FlightController.OrientingPass`).
- The store `actual_yaw = 0` on leaving ORIENTING (`main.c:171`) is
  overwritten by `getYaw()` at `main.c:245` before anything reads it, so it
  has no effect (see `FlightController.OrientingPass`).

Other behaviour of the code that the proofs make explicit:

- Every `updateAlt` call before the latch divides by `maxValue - landedValue
  == 0`, which C leaves undefined. The model gives `None` for that value
  (`AltAdc.UpToLatch`).
- A reference edge after the first stores 1 in the tick count instead of 0
  (`YawDetection.LaterRefEdgeStoresOne`).
- After a landing, a new switch-on goes straight to FLYING with both outputs
  still off, because only the first takeoff enables them
  (`FlightController.NoRestartAfterLanding`).
- `pwmGen3.c` programs 67 % at start-up while its loop tracks 25 %
  (`PwmGen3.InitialDutyUntracked`).

## Model

| member | source | states |
|---|---|---|
| `CInt.Div` | yawDetection.c:90 | C's `/`: the remainder is smaller than the divisor in magnitude and never has the opposite sign of the dividend (truncation toward zero) |
| `CInt.DivNegate` | yawDetection.c:90 | negating the dividend negates the truncated quotient |
| `CInt.Int16` | main.c:246 | conversion to `int16_t`: a value in -32768..32767 congruent to the input modulo 2^16, and the input itself when it fits |
| `YawDetection.Decode` | yawDetection.c:45-60 | (A,B) = (0,0) gives 1, (0,1) gives 2, (1,1) gives 3 and (1,0) gives 4, each as an if-and-only-if; the result is always in 1..4 |
| `YawDetection.Delta` | yawDetection.c:63-86 | the table counts +1 exactly on the forward steps 1-2-3-4-1, -1 exactly on their reverses, and 0 on every other pair (repeat, diagonal skip, start state 0) |
| `YawDetection.DeltaAntisymmetric` | yawDetection.c:63-86 | swapping an edge's two states negates its count |
| `YawDetection.DegreesOdd` | yawDetection.c:90 | the degree conversion is odd (same magnitude either way); ±1 tick reads as 0 degrees |
| `YawDetection.DegreesOfRevolutions` | yawDetection.c:90 | k·448 ticks convert to exactly k·360 degrees, and the conversion is off by less than one degree |
| `YawDetection.Degrees` | yawDetection.c:90 | `(yaw * 360) / 448` truncated toward zero: for a non-negative count, 360 times the ticks exceeds 448 times the degrees by 0..447, and for a negative count it falls short by 0..447, so the result has the count's sign and is never rounded away from zero |
| `YawDetection.RefEdge` | yawDetection.c:94-107 | a reference edge clears `yawRef`; it sets the count to 0 and the trigger to 1 on the first edge and to 1 on every later one; the degrees and states are untouched |
| `YawDetection.Edge` | yawDetection.c:31-91 | one encoder edge: the new state is in 1..4 and becomes the previous state, the count moves by +1, 0 or -1, the degrees are the conversion of the new count, and `yawRef` and the trigger are unchanged |
| `YawDetection.EdgeEffect` | yawDetection.c:44-90 | an encoder edge leaves the state in 1..4, stores it as the previous state, changes the count by at most 1 (+1 iff forward, -1 iff backward), refreshes the degrees, and leaves the reference flags alone |
| `YawDetection.FirstEdgeNotCounted` | yawDetection.c:23-87 | the first edge after start-up never counts, since the previous state starts at 0 |
| `YawDetection.LaterRefEdgeStoresOne` | yawDetection.c:99-106 | once the trigger is set, any reference edge leaves the count at 1 |
| `YawDetection.RefEdgeLeavesDegreesStale` | yawDetection.c:89-107 | after the first reference edge the stored degrees no longer match the zeroed count unless they were already 0 |
| `YawDetection.NetBackCancels` | yawDetection.c:63-86 | retracing any run of decoded states back to its start cancels its count exactly |
| `YawDetection.NetOfTurns` | yawDetection.c:63-86 | k forward turns of the cycle add exactly 4k ticks and k backward turns subtract 4k |
| `YawDetection.ForwardThenBackward` | yawDetection.c:63-86 | a forward turn followed by a backward turn returns the count to its start |
| `YawDetection.ConfinedRunTracksPosition` | yawDetection.c:63-87 | on a run with no skipped state, start state plus net count equals the end state modulo 4 |
| `YawDetection.SkipIsLost` | yawDetection.c:63-86 | a diagonal skip of two states counts nothing |
| `YawDetection.EncoderRunCounts` | yawDetection.c:31-91 | a run of encoder edges adds the net count of the states it decodes to, ends in its last state, keeps the degrees in step, and leaves the reference flags alone |
| `YawDetection.ReferenceStaysFound` | yawDetection.c:94-107 | once the reference is found it is never outstanding again, whatever interrupts follow |
| `YawDetection.ReferenceOutstandingUntilEdge` | yawDetection.c:94-107 | from start-up, encoder edges alone leave the reference outstanding, and the first reference edge zeroes the count |
| `YawDetection.YawEncoder.constructor` | yawDetection.c:21-26 | the statics start as yaw 0, states 0, `yawRef` 1, trigger 0 |
| `YawDetection.YawEncoder.HandleYaw` | yawDetection.c:31-91 | `handleYaw` updates the statics exactly as one encoder edge (`Edge`) |
| `YawDetection.YawEncoder.YawRefHandler` | yawDetection.c:94-107 | `yawRefHandler` updates the statics exactly as one reference edge (`RefEdge`) |
| `YawDetection.YawEncoder.GetYaw` | yawDetection.c:160-163 | returns the stored degrees without recomputing them |
| `YawDetection.YawEncoder.CheckYawRef` | yawDetection.c:166-169 | returns the reference-outstanding flag |
| `CircBuf.CircBuf.constructor` | altADC.c:87 | a ring of `size` zeroed slots with both indices at 0 |
| `CircBuf.CircBuf.Write` | altADC.c:44 | stores the sample at the write index and advances it with wrap-around; the read side is untouched |
| `CircBuf.CircBuf.Read` | altADC.c:105 | returns the value at the read index and advances it with wrap-around; the contents are untouched |
| `CircBuf.FullTurnSum` | altADC.c:104-106 | a full turn of reads from any start sums to the sum of the whole ring |
| `CircBuf.UniformWindowSum` | altADC.c:104-106 | n reads of a ring holding only v sum to n·v |
| `AltAdc.Mean` | altADC.c:109 | `(2*sum + 10)/2/10` is the mean of ten reads rounded to nearest, halves up |
| `AltAdc.MeanOfUniformRing` | altADC.c:103-109 | a ring holding only v has mean v |
| `AltAdc.Percent` | altADC.c:110 | the percentage is undefined exactly when `maxValue == landedValue` |
| `AltAdc.PercentScale` | altADC.c:110-117 | with the latched baseline, the landed reading is 0 %, 993 units below it 100 %, and 993 above it -100 % (no clamp) |
| `AltAdc.PercentInTravel` | altADC.c:110-117 | between the landed reading and full altitude the percentage lies in 0..100 |
| `AltAdc.PercentFitsInt16` | altADC.c:110 | with 12-bit readings the percentage lies in ±413, so storing it in `int16_t` never truncates |
| `AltAdc.UpToLatch` | altADC.c:94-118 | for calls 1..20 the counter equals the number of calls, the baselines stay 0 so each call divides by zero, and the 20th call latches the baseline to its own mean |
| `AltAdc.Update` | altADC.c:91-119 | one `updateAlt` call: the call counter steps modulo 2^16; the percentage is missing exactly when the divisor `maxValue - landedValue` is 0; once latched the baselines never change; the latching call sets the baseline to this call's mean and the top to 993 below it; the baseline is latched exactly when it already was or the counter has reached 20 |
| `AltAdc.LatchIsFinal` | altADC.c:113-118 | once latched, the baselines never change, whatever the 16-bit counter does |
| `AltAdc.AfterLatch` | altADC.c:91-119 | from start-up, every call after the 20th reports a defined percentage against the 20th call's mean |
| `AltAdc.AltEstimator.constructor` | altADC.c:52-88 | the ring holds ten zeroed slots and the statics start at their initial values |
| `AltAdc.AltEstimator.ADCIntHandler` | altADC.c:33-49 | one conversion writes exactly one sample into the ring |
| `AltAdc.AltEstimator.UpdateAlt` | altADC.c:91-119 | the loop's ten `readCircBuf` calls sum exactly the ten slots from the read index on, wrapping at the end of the ring (`Sum(Window(data, rindex, 10))`), and bring the read index back to its start; the ring's data and write index are untouched, and the statics change exactly as `Update` given that sum |
| `AltAdc.AltEstimator.GetAlt` | altADC.c:128-131 | returns the stored percentage without recomputing it |
| `PwmArith.Period` | pwmControl.c:139-140 | `clock / 4 / freq` is the largest whole number of PWM counts that fits `freq` times into the PWM clock |
| `PwmArith.PulseWidth` | pwmControl.c:143-144 | `period * duty / 100` with the product wrapped to 32 bits: the width times 100 fits 32 bits, and any duty up to 100 gives a width no larger than the period |
| `PwmArith.WidthWithinPeriod` | week3/pwmGen4.c:200-205 | for a 32-bit clock and a duty of at most 100 % the product cannot wrap; the width is the truncated share, at most the period, all of it at 100 %, none at 0 %, and monotone in the duty |
| `PwmArith.Program` | week3/pwmGen4.c:196-206 | programming sets the period from the clock and frequency and keeps the output switch |
| `PwmArith.SetOutput` | pwmControl.c:119-130 | switching the output forwards the flag and keeps period and width |
| `PwmControl.SetDutyWithinPeriod` | pwmControl.c:135-157 | the period is `clock / 800` for both rotors; the width is `period * duty / 100`, at most the period, the whole period at 100 % and 0 at 0 %; the output switch is kept |
| `PwmControl.InitialiseIsOff` | pwmControl.c:76-116 | initialisation programs 0 % at 200 Hz with the output off, whatever the registers held |
| `PwmControl.SetDuty` | pwmControl.c:135-157 | `setMainPWM`/`setTailPWM`: the period becomes `clock / 800` whatever the old registers held, the output switch is kept, and a duty up to 100 % gives a width within the period |
| `PwmControl.Initialise` | pwmControl.c:76-116 | initialisation leaves the period at `clock / 800`, the width 0 and the output off |
| `PwmLab.PassKeepsRange` | week3/pwmGen4.c:279-310 | one loop pass keeps the frequency a multiple of 50 in 50..400 and the duty a multiple of 5 in 5..95 |
| `PwmLab.LoopPass` | week3/pwmGen4.c:279-310 | one pass programs the generator at most four times; UP alone adds 50 Hz below 400 Hz and DOWN alone takes off 50 Hz above 50 Hz, RIGHT alone adds 5 % below 95 % and LEFT alone takes off 5 % above 5 %, and each of these at its limit, or no press on that pair, leaves its variable unchanged |
| `PwmLab.PassesKeepRange` | week3/pwmGen3.c:214-250 | any number of passes, with any presses, keeps the setting in that range |
| `PwmLab.ButtonsIndependent` | week3/pwmGen4.c:279-310 | the frequency after a pass depends only on UP and DOWN, the duty only on RIGHT and LEFT |
| `PwmLab.PassProgramsCurrent` | week3/pwmGen4.c:279-310 | each accepted press programs the setting current at that point, and each programmed setting differs from the one before it by one step of exactly one of frequency or duty; a pass programs at most four times and ends on the last setting programmed; with no accepted press nothing changes |
| `PwmLab.RangeEnds` | week3/pwmGen3.c:218-230 | UP is ignored at 400 Hz and DOWN at 50 Hz; UP then DOWN inside the range returns to the same frequency after two programs |
| `PwmGen3.InitialDutyUntracked` | week3/pwmGen3.c:136-169 | the start-up width (67 %) is larger than the width of the tracked duty (25 %) for any clock of 3 kHz or more; at 20 MHz they are 13400 and 5000 counts |
| `PwmGen3.PwmGen3.constructor` | week3/pwmGen3.c:182-202 | the variables start at 250 Hz / 25 % while the generator holds 250 Hz / 67 % with the output on |
| `PwmGen3.PwmGen3.SetPwm` | week3/pwmGen3.c:159-169 | `setPWM` programs the current frequency and duty |
| `PwmGen3.PwmGen3.LoopPass` | week3/pwmGen3.c:214-250 | the setting moves as `PwmLab.LoopPass`; the generator holds the last setting programmed, or is unchanged when no press was accepted |
| `PwmGen4.PwmGen4.constructor` | week3/pwmGen4.c:230-258 | main at 250 Hz / 25 % and tail at 200 Hz / 10 %, both programmed and switched on |
| `PwmGen4.PwmGen4.SetMainPwm` | week3/pwmGen4.c:196-206 | `setMainPWM` programs the current main frequency and duty |
| `PwmGen4.PwmGen4.LoopPass` | week3/pwmGen4.c:275-311 | the main setting moves as `PwmLab.LoopPass` and the main generator holds the last setting programmed; the tail's variables and generator never change |
| `FlightController.TicksCount` | main.c:59-75 | after n SysTicks the sample counter is n mod 2^32, the tick counter n mod 25, and `slowTick` is set exactly when n ≥ 25 (it is never cleared) |
| `FlightController.Init` | main.c:98-125 | the loop starts LANDED with `programStart` set, setpoints and duties 0, and both outputs off |
| `FlightController.Tick` | main.c:59-75 | one SysTick: the sample counter steps (wrapping at 2^32) and the tick counter stays below 25; below 24 it counts up and keeps `slowTick`, at 24 it resets to 0 and sets `slowTick`; `slowTick` is never cleared here |
| `FlightController.Pass` | main.c:130-268 | every pass keeps the invariant: mode names a `mode_names` entry, the altitude setpoint is a multiple of 10 in 0..100, duties are in 0..100, the outputs switch together, they are off before the first takeoff and on while orienting |
| `FlightController.Run` | main.c:130-268 | any number of passes keeps that invariant |
| `FlightController.Telemetry` | main.c:259-267 | telemetry is sent exactly when `slowTick` is set, carrying `mode_names[mode]` and the main and tail duties just stored from the PID call |
| `FlightController.TelemetryAfterFirstSlowTick` | main.c:260-267 | from the 25th tick on, every pass sends telemetry |
| `FlightController.ModeTransitions` | main.c:138-242 | the mode moves only LANDED→ORIENTING, LANDED→FLYING, ORIENTING→FLYING, FLYING→LANDING and LANDING→LANDED |
| `FlightController.ModeStep` | main.c:138-242 | one `switch (mode)`: the mode changes only along LANDED→ORIENTING/FLYING, ORIENTING→FLYING, FLYING→LANDING, LANDING→LANDED; `switchPrevState` is stored only together with a mode change; the first takeoff goes to ORIENTING and clears `programStart`, which is never set again; the measured altitude is untouched |
| `FlightController.FlyingButtons` | main.c:198-218 | outside FLYING nothing changes; in FLYING only the two setpoints change, UP alone below 100 adds 10 and DOWN alone above 0 subtracts 10 so a multiple of 10 in 0..100 stays one, no UP/DOWN press keeps the altitude, and LEFT adds 15 and RIGHT subtracts 15 from the yaw setpoint |
| `FlightController.LandedTakeoff` | main.c:139-160 | a switch-on edge goes to ORIENTING with both outputs on the first time, and to FLYING with the outputs untouched afterwards; without an edge nothing changes |
| `FlightController.OrientingPass` | main.c:163-257 | ORIENTING ignores the switch; while the reference is outstanding 5 % / 10 % reach the generators in that pass; when it is found the mode becomes FLYING, setpoints 0, and 0 % / 0 % are sent; `actual_yaw` ends as the new reading; the PID results are stored |
| `FlightController.FlyingPass` | main.c:186-253 | the held duties are sent; a switch-off edge goes to LANDING with the setpoints unchanged; otherwise UP alone below 100 raises the altitude setpoint by 10, DOWN alone above 0 lowers it by 10, no UP/DOWN press leaves it as it was, and LEFT/RIGHT move the yaw setpoint by 15 without bound |
| `FlightController.LandingPass` | main.c:223-241 | LANDING zeroes both setpoints and lands, with both outputs off, exactly when the previous pass read altitude 0 and yaw within ±5 |
| `FlightController.PassKeepsOutputsOff` | main.c:138-242 | after the first takeoff, a pass never switches disabled outputs on |
| `FlightController.NoRestartAfterLanding` | main.c:142-158 | after a landing the outputs stay off for every later run of passes |
| `FlightController.ClimbClamps` | main.c:200-208 | k passes of UP in FLYING raise the altitude setpoint to the smaller of start + 10k and 100 |
| `FlightController.FlightCycle` | main.c:130-268 | switch on → ORIENTING with outputs on → reference found → FLYING → switch off → LANDING → landed with outputs off → switch on → FLYING with outputs still off |
| `FlightController.Heli.constructor` | main.c:98-125 | the loop variables and generators start as `Init`, the SysTick statics at 0 |
| `FlightController.Heli.SysTickIntHandler` | main.c:59-75 | the handler updates the counters exactly as `Tick` |
| `FlightController.Heli.ModeSwitch` | main.c:138-242 | the `switch (mode)` statement updates the variables exactly as `ModeStep` |
| `FlightController.Heli.ButtonControl` | main.c:198-218 | the FLYING button block updates the setpoints exactly as `FlyingButtons` |
| `FlightController.Heli.LoopPass` | main.c:130-268 | one pass updates the variables exactly as `Pass` and returns the telemetry `Telemetry` describes |

## Left out

- Hardware and driverlib: clock and peripheral set-up, GPIO, ADC and PWM
  register calls. Pin levels, ADC samples, the clock rate and the
  generators' previous registers are parameters; `triggerADC` only starts a
  conversion and is not modelled.
- control.c (the floating-point PID) is not part of this model. `alt_pid`
  and `yaw_pid` results are inputs of a pass, bounded to 2..98 as their clamp
  guarantees.
- circBufT.c is not part of this model. The ring is modelled by the behaviour
  the altitude module relies on.
- Button debouncing and switch reading (`buttons4`, `checkButton`,
  `checkSwitch`) are not part of this model. They are per-pass inputs, and
  the switch is a boolean.
- uart.c, display.c and the week-3 `displayData` helpers are text formatting
  and transport. The model keeps only the values handed to
  `formatUARTOutput`.
- reset.c: a hardware reset, nothing to state.
- Interrupt interleaving: each handler runs as one atomic method call.
- `updateAlt` and `getAlt`/`getYaw` are not composed into the main-loop
  model. Their results are inputs of `FlightController.Pass`.
- `changeYaw` is declared in yawDetection.h without a definition.
- main.c's `BUF_SIZE` (20) is never used.
- `YawDetection.Degrees`: does not model the `int32_t` overflow of
  `yaw * 360`, which needs over 5.9 million ticks.
- `FlightController.FlyingPass`: does not model the `int32_t` overflow of
  `desired_yaw`, which needs over 143 million LEFT presses.
- `AltAdc.AltEstimator.ADCIntHandler`: requires samples of at most 4095, the
  ADC's 12-bit range. It does not model the `int32_t` sum or the `int16_t`
  mean and baselines overflowing, which that range rules out.
- `FlightController.Init`: `actual_alt` and `actual_yaw` are uninitialised
  in the source. They start at 0 here, and no pass reads them before a pass
  has stored them.
