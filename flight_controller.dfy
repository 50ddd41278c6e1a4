/** The helicopter's main loop, main.c: a four-mode state machine (LANDED,
    ORIENTING, FLYING, LANDING) driven once per pass by the mode switch, the
    four buttons and the yaw reference flag; after the mode step every pass
    reads the yaw and altitude, sends the duties it held to the two PWM
    generators, and only then stores the PID results for the next pass.  The
    SysTick interrupt counts ticks and sets the slow-tick flag that enables
    telemetry.  Module readings (`getYaw`, `getAlt`, `checkYawRef`,
    `checkSwitch`, `checkButton`) and the PID results are inputs of a pass. */
module FlightController {
  import opened CInt
  import opened Wrappers
  import opened PwmArith
  import opened PwmControl

  /** `enum modeNum`. */
  const Landed: nat := 0
  const Orienting: nat := 1
  const Flying: nat := 2
  const Landing: nat := 3

  /** `mode_names`, indexed by the mode. */
  const ModeNames: seq<string> := ["landed", "orienting", "flying", "landing"]

  const SystickRateHz: nat := 100
  const SlowtickRateHz: nat := 4
  /** `ticksPerSlow`: 100 / 4 = 25 SysTicks per slow tick. */
  const TicksPerSlow: nat := SystickRateHz / SlowtickRateHz

  /** Setpoint steps and bounds of the FLYING buttons. */
  const AltStep: int := 10
  const AltTop: int := 100
  const YawStep: int := 15
  /** LANDING accepts a yaw within ±5 of the origin. */
  const YawTolerance: int := 5
  /** The duties ORIENTING holds while it searches for the reference. */
  const SearchMainDuty: int := 5
  const SearchTailDuty: int := 10

  // ---------------------------------------------------------------------
  // SysTick

  /** `g_ulSampCnt` (uint32), the handler's static `tickCount` (uint8) and
      `slowTick`. */
  datatype Ticks = Ticks(sampCnt: nat, tickCount: nat, slowTick: bool)

  const TicksInit := Ticks(0, 0, false)

  /** One `SysTickIntHandler` call (the ADC trigger it starts is hardware). */
  function Tick(t: Ticks): (r: Ticks)
    ensures r.sampCnt < U32 && r.tickCount < TicksPerSlow
    ensures t.sampCnt < U32 - 1 ==> r.sampCnt == t.sampCnt + 1
    ensures t.slowTick ==> r.slowTick
    ensures t.tickCount + 1 < TicksPerSlow ==> r.tickCount == t.tickCount + 1 && r.slowTick == t.slowTick
    ensures t.tickCount + 1 == TicksPerSlow ==> r.tickCount == 0 && r.slowTick
  {
    var sampCnt := (t.sampCnt + 1) % U32;
    var count := (t.tickCount + 1) % U8;
    if count >= TicksPerSlow then Ticks(sampCnt, 0, true) else Ticks(sampCnt, count, t.slowTick)
  }

  /** The tick state after `n` interrupts from start-up. */
  function TicksAfter(n: nat): Ticks
  {
    if n == 0 then TicksInit else Tick(TicksAfter(n - 1))
  }

  /** After `n` ticks the sample counter is `n` modulo 2^32, the tick counter
      is `n` modulo 25 (so always in 0..24 between ticks), and `slowTick` is
      set exactly when 25 ticks have passed: nothing ever clears it. */
  lemma {:induction false} TicksCount(n: nat)
    ensures TicksAfter(n) == Ticks(n % U32, n % TicksPerSlow, n >= TicksPerSlow)
  {
    if n > 0 {
      TicksCount(n - 1);
      var r := (n - 1) % TicksPerSlow;
      assert (r + 1) % U8 == r + 1;
      ModStep(n - 1, TicksPerSlow);
      ModStep(n - 1, U32);
      if n - 1 < TicksPerSlow {
        ModUnique(n - 1, TicksPerSlow, 0, n - 1);
      }
      var m := (n - 1) % U32;
      if m + 1 == U32 {
        ModUnique(m + 1, U32, 1, 0);
      } else {
        ModUnique(m + 1, U32, 0, m + 1);
      }
      var t := Tick(TicksAfter(n - 1));
      assert t.sampCnt == n % U32;
      assert t.tickCount == n % TicksPerSlow;
      assert t.slowTick == (n >= TicksPerSlow);
    }
  }

  /** Counting modulo `d` one step further. */
  lemma ModStep(x: nat, d: nat)
    requires d > 0
    ensures (x + 1) % d == if x % d + 1 == d then 0 else x % d + 1
  {
    var q, r := x / d, x % d;
    assert x == d * q + r;
    if r + 1 == d {
      assert x + 1 == d * (q + 1) + 0;
      ModUnique(x + 1, d, q + 1, 0);
    } else {
      assert x + 1 == d * q + (r + 1);
      ModUnique(x + 1, d, q, r + 1);
    }
  }

  /** The remainder is the one `r` in 0..d-1 with `y == d * q + r`. */
  lemma ModUnique(y: int, d: int, q: int, r: int)
    requires d > 0 && 0 <= r < d && y == d * q + r
    ensures y % d == r
  {
    var q0, r0 := y / d, y % d;
    assert y == d * q0 + r0;
    assert d * (q - q0) == d * q - d * q0;
    if q > q0 {
      MulAtLeast(d, q - q0);
    } else if q < q0 {
      assert d * (q0 - q) == d * q0 - d * q;
      MulAtLeast(d, q0 - q);
    }
  }

  lemma MulAtLeast(d: int, k: int)
    requires d > 0 && k >= 1
    ensures d * k >= d
  {
    assert d * k == d * (k - 1) + d;
    assert d * (k - 1) >= 0;
  }

  // ---------------------------------------------------------------------
  // The main loop

  /** The loop's variables and the two generators' registers. */
  datatype Ctrl = Ctrl(
    mode: nat,
    desiredAlt: int,
    desiredYaw: int,
    actualAlt: int,
    actualYaw: int,
    mainDuty: int,
    tailDuty: int,
    switchPrev: bool,
    programStart: bool,
    mainGen: Generator,
    tailGen: Generator)

  /** The state when the loop is first entered: LANDED, setpoints and duties
      0, `programStart` set, both generators initialised (0 %, output off).
      `actual_yaw` and `actual_alt` are uninitialised in the source and not
      read before the first pass stores them; they start at 0 here. */
  function Init(clock: nat, mainBefore: Generator, tailBefore: Generator): (c: Ctrl)
    requires clock < U32
    ensures Valid(c) && c.mode == Landed && c.programStart
    ensures !c.mainGen.outputOn && !c.tailGen.outputOn
    ensures c.desiredAlt == 0 && c.desiredYaw == 0 && c.mainDuty == 0 && c.tailDuty == 0
  {
    InitialiseIsOff(mainBefore, clock);
    InitialiseIsOff(tailBefore, clock);
    Ctrl(Landed, 0, 0, 0, 0, 0, 0, false, true,
         Initialise(mainBefore, clock), Initialise(tailBefore, clock))
  }

  /** The state every pass keeps: a named mode, an altitude setpoint that is
      a multiple of 10 in 0..100, duties within 0..100 %, an `int16_t`
      altitude reading, both outputs switched together, both off before the
      first takeoff, and both on while orienting. */
  predicate Valid(c: Ctrl)
  {
    c.mode < |ModeNames| &&
    0 <= c.desiredAlt <= AltTop && c.desiredAlt % AltStep == 0 &&
    0 <= c.mainDuty <= DutyCycleMax && 0 <= c.tailDuty <= DutyCycleMax &&
    -0x8000 <= c.actualAlt < 0x8000 &&
    c.mainGen.outputOn == c.tailGen.outputOn &&
    (c.programStart ==> c.mode == Landed && !c.mainGen.outputOn) &&
    (c.mode == Orienting ==> c.mainGen.outputOn)
  }

  datatype Buttons = Buttons(up: bool, down: bool, left: bool, right: bool)

  /** What one pass reads: the switch, the buttons (polled in FLYING only),
      `checkYawRef()` (polled in ORIENTING only; true while the reference is
      outstanding), `getYaw()`, `getAlt()` and the two PID results. */
  datatype PassInput = PassInput(
    switchOn: bool,
    buttons: Buttons,
    yawRefOutstanding: bool,
    yaw: int,
    alt: int,
    altPid: int,
    yawPid: int)

  /** `alt_pid` and `yaw_pid` clamp their result to 2..98. */
  predicate PidInRange(i: PassInput)
  {
    2 <= i.altPid <= 98 && 2 <= i.yawPid <= 98
  }

  /** The FLYING buttons, each acting only while the mode is still FLYING. */
  function FlyingButtons(c: Ctrl, b: Buttons): (r: Ctrl)
    ensures c.mode != Flying ==> r == c
    ensures r == c.(desiredAlt := r.desiredAlt, desiredYaw := r.desiredYaw)
    ensures 0 <= c.desiredAlt <= AltTop && c.desiredAlt % AltStep == 0 ==>
      0 <= r.desiredAlt <= AltTop && r.desiredAlt % AltStep == 0
    ensures c.mode == Flying && b.up && !b.down && c.desiredAlt < AltTop ==> r.desiredAlt == c.desiredAlt + AltStep
    ensures c.mode == Flying && b.down && !b.up && c.desiredAlt > 0 ==> r.desiredAlt == c.desiredAlt - AltStep
    ensures !b.up && !b.down ==> r.desiredAlt == c.desiredAlt
    ensures c.mode == Flying ==>
      r.desiredYaw == c.desiredYaw + (if b.left then YawStep else 0) - (if b.right then YawStep else 0)
  {
    var flying := c.mode == Flying;
    var a1 := if b.up && c.desiredAlt < AltTop && flying then c.desiredAlt + AltStep else c.desiredAlt;
    var a2 := if b.down && a1 > 0 && flying then a1 - AltStep else a1;
    var y1 := if b.left && flying then c.desiredYaw + YawStep else c.desiredYaw;
    var y2 := if b.right && flying then y1 - YawStep else y1;
    c.(desiredAlt := a2, desiredYaw := y2)
  }

  /** The `switch (mode)` statement. */
  function ModeStep(c: Ctrl, i: PassInput): (r: Ctrl)
    ensures r.actualAlt == c.actualAlt
    ensures r.switchPrev == c.switchPrev || (r.switchPrev == i.switchOn && r.mode != c.mode)
    ensures c.mode == Landed && c.programStart && r.mode != Landed ==> r.mode == Orienting && !r.programStart
    ensures !c.programStart ==> !r.programStart
    ensures r.mode != c.mode ==>
      (c.mode == Landed && (r.mode == Orienting || r.mode == Flying)) ||
      (c.mode == Orienting && r.mode == Flying) ||
      (c.mode == Flying && r.mode == Landing) ||
      (c.mode == Landing && r.mode == Landed)
  {
    var sw := i.switchOn;
    if c.mode == Landed then
      if sw && sw != c.switchPrev && c.programStart then
        c.(mode := Orienting, switchPrev := sw, programStart := false,
           mainGen := SetOutput(c.mainGen, true), tailGen := SetOutput(c.tailGen, true))
      else if sw && sw != c.switchPrev then
        c.(mode := Flying, switchPrev := sw)
      else
        c
    else if c.mode == Orienting then
      if !i.yawRefOutstanding then
        c.(desiredAlt := 0, desiredYaw := 0, actualYaw := 0, mainDuty := 0, tailDuty := 0, mode := Flying)
      else
        c.(mainDuty := SearchMainDuty, tailDuty := SearchTailDuty)
    else if c.mode == Flying then
      var c1 := if !sw && sw != c.switchPrev then c.(mode := Landing, switchPrev := sw) else c;
      FlyingButtons(c1, i.buttons)
    else if c.mode == Landing then
      var c1 := c.(desiredAlt := 0, desiredYaw := 0);
      if c1.mode == Landing && c1.actualAlt == 0 && -YawTolerance <= c1.actualYaw <= YawTolerance then
        c1.(mode := Landed, mainGen := SetOutput(c1.mainGen, false), tailGen := SetOutput(c1.tailGen, false))
      else
        c1
    else
      c
  }

  /** One pass of `while (1)` after `updateAlt`: the mode step, the
      readings, the held duties to the generators, the PID results stored.
      Every pass keeps the state valid. */
  function Pass(c: Ctrl, i: PassInput, clock: nat): (r: Ctrl)
    requires Valid(c) && PidInRange(i) && clock < U32
    ensures Valid(r)
  {
    var m := ModeStep(c, i);
    m.(actualYaw := i.yaw, actualAlt := Int16(i.alt),
       mainGen := SetDuty(m.mainGen, clock, m.mainDuty),
       tailGen := SetDuty(m.tailGen, clock, m.tailDuty),
       mainDuty := i.altPid, tailDuty := i.yawPid)
  }

  /** Successive passes. */
  function Run(c: Ctrl, ins: seq<PassInput>, clock: nat): (r: Ctrl)
    requires Valid(c) && clock < U32 && forall k :: 0 <= k < |ins| ==> PidInRange(ins[k])
    ensures Valid(r)
    decreases |ins|
  {
    if ins == [] then c else Run(Pass(c, ins[0], clock), ins[1..], clock)
  }

  /** What `formatUARTOutput` is given. */
  datatype Report = Report(
    mainDuty: int, tailDuty: int, actualAlt: int, desiredAlt: int,
    actualYaw: int, desiredYaw: int, modeName: string)

  /** The telemetry at the end of a pass: sent when `slowTick` is set, with
      the mode's name looked up in range and the duties just computed. */
  function Telemetry(c: Ctrl, slowTick: bool): (r: Option<Report>)
    requires c.mode < |ModeNames|
    ensures r.Some? <==> slowTick
    ensures r.Some? ==> r.value.modeName == ModeNames[c.mode] && r.value.mainDuty == c.mainDuty && r.value.tailDuty == c.tailDuty
  {
    if slowTick then
      Some(Report(c.mainDuty, c.tailDuty, c.actualAlt, c.desiredAlt, c.actualYaw, c.desiredYaw, ModeNames[c.mode]))
    else
      None
  }

  /** From the 25th tick on, every pass sends telemetry. */
  lemma TelemetryAfterFirstSlowTick(n: nat, c: Ctrl)
    requires n >= TicksPerSlow && c.mode < |ModeNames|
    ensures Telemetry(c, TicksAfter(n).slowTick).Some?
  {
    TicksCount(n);
  }

  // ---------------------------------------------------------------------
  // Properties of a pass

  /** The modes move only along LANDED -> ORIENTING -> FLYING -> LANDING ->
      LANDED, with the shortcut LANDED -> FLYING. */
  lemma ModeTransitions(c: Ctrl, i: PassInput, clock: nat)
    requires Valid(c) && PidInRange(i) && clock < U32
    ensures var r := Pass(c, i, clock);
      r.mode == c.mode ||
      (c.mode == Landed && (r.mode == Orienting || r.mode == Flying)) ||
      (c.mode == Orienting && r.mode == Flying) ||
      (c.mode == Flying && r.mode == Landing) ||
      (c.mode == Landing && r.mode == Landed)
  {
  }

  /** LANDED: a switch-on edge takes off.  The first time it goes to
      ORIENTING, clears `programStart` and switches both outputs on; every
      later time it goes straight to FLYING and leaves the outputs as they
      are.  Without an edge nothing happens. */
  lemma LandedTakeoff(c: Ctrl, i: PassInput, clock: nat)
    requires Valid(c) && PidInRange(i) && clock < U32 && c.mode == Landed
    ensures var r := Pass(c, i, clock);
      var edge := i.switchOn && !c.switchPrev;
      (edge && c.programStart ==>
         r.mode == Orienting && !r.programStart && r.switchPrev &&
         r.mainGen.outputOn && r.tailGen.outputOn) &&
      (edge && !c.programStart ==>
         r.mode == Flying && r.switchPrev &&
         r.mainGen.outputOn == c.mainGen.outputOn && r.tailGen.outputOn == c.tailGen.outputOn) &&
      (!edge ==> r.mode == Landed && r.switchPrev == c.switchPrev && r.programStart == c.programStart)
  {
  }

  /** ORIENTING ignores the switch.  While the reference is outstanding it
      holds 5 % / 10 %, and those reach the generators in the same pass;
      once the reference is found it goes to FLYING with both setpoints 0
      and sends 0 % / 0 % in that pass.  Its zeroing of `actual_yaw` is
      overwritten by the reading before anything uses it. */
  lemma OrientingPass(c: Ctrl, i: PassInput, clock: nat)
    requires Valid(c) && PidInRange(i) && clock < U32 && c.mode == Orienting
    ensures var r := Pass(c, i, clock);
      r.switchPrev == c.switchPrev && r.actualYaw == i.yaw &&
      r.mainDuty == i.altPid && r.tailDuty == i.yawPid &&
      (i.yawRefOutstanding ==>
         r.mode == Orienting &&
         r.mainGen == SetDuty(c.mainGen, clock, SearchMainDuty) &&
         r.tailGen == SetDuty(c.tailGen, clock, SearchTailDuty)) &&
      (!i.yawRefOutstanding ==>
         r.mode == Flying && r.desiredAlt == 0 && r.desiredYaw == 0 &&
         r.mainGen == SetDuty(c.mainGen, clock, 0) && r.tailGen == SetDuty(c.tailGen, clock, 0))
  {
  }

  /** FLYING: a switch-off edge goes to LANDING and the buttons of that pass
      are ignored; otherwise UP and DOWN move the altitude setpoint by 10
      within 0..100 and LEFT and RIGHT move the yaw setpoint by 15 each,
      without bound.  The held duties are sent before the PID results are
      stored. */
  lemma FlyingPass(c: Ctrl, i: PassInput, clock: nat)
    requires Valid(c) && PidInRange(i) && clock < U32 && c.mode == Flying
    ensures var r := Pass(c, i, clock);
      var b := i.buttons;
      r.mainGen == SetDuty(c.mainGen, clock, c.mainDuty) &&
      r.tailGen == SetDuty(c.tailGen, clock, c.tailDuty) &&
      (!i.switchOn && c.switchPrev ==>
         r.mode == Landing && !r.switchPrev &&
         r.desiredAlt == c.desiredAlt && r.desiredYaw == c.desiredYaw) &&
      (i.switchOn || !c.switchPrev ==>
         r.mode == Flying && r.switchPrev == c.switchPrev &&
         r.desiredYaw == c.desiredYaw + (if b.left then YawStep else 0) - (if b.right then YawStep else 0) &&
         (r.desiredAlt == c.desiredAlt + AltStep ==> b.up && !b.down && c.desiredAlt < AltTop) &&
         (r.desiredAlt == c.desiredAlt - AltStep ==> b.down && c.desiredAlt > 0 && !(b.up && c.desiredAlt < AltTop)) &&
         (r.desiredAlt == c.desiredAlt || r.desiredAlt == c.desiredAlt + AltStep || r.desiredAlt == c.desiredAlt - AltStep) &&
         (b.up && !b.down && c.desiredAlt < AltTop ==> r.desiredAlt == c.desiredAlt + AltStep) &&
         (b.down && !b.up && c.desiredAlt > 0 ==> r.desiredAlt == c.desiredAlt - AltStep) &&
         (!b.up && !b.down ==> r.desiredAlt == c.desiredAlt))
  {
  }

  /** LANDING forces both setpoints to 0 on every pass, and lands (both
      outputs off) exactly when the readings of the previous pass were an
      altitude of 0 and a yaw within ±5. */
  lemma LandingPass(c: Ctrl, i: PassInput, clock: nat)
    requires Valid(c) && PidInRange(i) && clock < U32 && c.mode == Landing
    ensures var r := Pass(c, i, clock);
      r.desiredAlt == 0 && r.desiredYaw == 0 && r.switchPrev == c.switchPrev &&
      (r.mode == Landed <==> c.actualAlt == 0 && -YawTolerance <= c.actualYaw <= YawTolerance) &&
      (r.mode != Landed ==> r.mode == Landing && r.mainGen.outputOn == c.mainGen.outputOn) &&
      (r.mode == Landed ==> !r.mainGen.outputOn && !r.tailGen.outputOn)
  {
  }

  /** Once the first takeoff is past and the outputs are off, no pass turns
      them on again. */
  lemma PassKeepsOutputsOff(c: Ctrl, i: PassInput, clock: nat)
    requires Valid(c) && PidInRange(i) && clock < U32
    requires !c.programStart && !c.mainGen.outputOn
    ensures var r := Pass(c, i, clock);
      !r.programStart && !r.mainGen.outputOn && !r.tailGen.outputOn
  {
  }

  /** A landing is final for the motors: after it, however the switch and
      buttons are worked, the helicopter can return to FLYING but neither
      output is ever switched on again, because only the first takeoff
      enables them. */
  lemma {:induction false} NoRestartAfterLanding(c: Ctrl, ins: seq<PassInput>, clock: nat)
    requires Valid(c) && clock < U32 && forall k :: 0 <= k < |ins| ==> PidInRange(ins[k])
    requires !c.programStart && !c.mainGen.outputOn
    ensures var r := Run(c, ins, clock);
      !r.programStart && !r.mainGen.outputOn && !r.tailGen.outputOn
    decreases |ins|
  {
    if ins != [] {
      PassKeepsOutputsOff(c, ins[0], clock);
      NoRestartAfterLanding(Pass(c, ins[0], clock), ins[1..], clock);
    }
  }

  /** Holding UP in FLYING with the switch on climbs 10 % per pass and stops
      at 100 %: after `k` passes the setpoint is the smaller of its start
      plus 10k and 100, and the mode and the yaw setpoint are unchanged. */
  lemma {:induction false} ClimbClamps(c: Ctrl, i: PassInput, k: nat, clock: nat)
    requires Valid(c) && c.mode == Flying && PidInRange(i) && clock < U32
    requires i.switchOn && i.buttons == Buttons(true, false, false, false)
    ensures var r := Run(c, seq(k, _ => i), clock);
      r.mode == Flying && r.desiredYaw == c.desiredYaw &&
      r.desiredAlt == if c.desiredAlt + AltStep * k <= AltTop then c.desiredAlt + AltStep * k else AltTop
    decreases k
  {
    if k > 0 {
      var ins := seq(k, _ => i);
      assert ins[1..] == seq(k - 1, _ => i);
      ClimbClamps(Pass(c, i, clock), i, k - 1, clock);
    }
  }

  /** A whole flight: the switch goes on (ORIENTING, outputs on), the
      reference is found (FLYING), the switch goes off (LANDING) with the
      helicopter at altitude 0 and yaw 0, the next pass lands it (outputs
      off), and a second switch-on goes to FLYING with the outputs off. */
  lemma FlightCycle(clock: nat, mainBefore: Generator, tailBefore: Generator, pid: int)
    requires clock < U32 && 2 <= pid <= 98
    ensures
      var quiet := Buttons(false, false, false, false);
      var on := PassInput(true, quiet, true, 0, 0, pid, pid);
      var found := PassInput(true, quiet, false, 0, 0, pid, pid);
      var off := PassInput(false, quiet, false, 0, 0, pid, pid);
      var c0 := Init(clock, mainBefore, tailBefore);
      var c1 := Pass(c0, on, clock);
      var c2 := Pass(c1, found, clock);
      var c3 := Pass(c2, off, clock);
      var c4 := Pass(c3, off, clock);
      var c5 := Pass(c4, on, clock);
      c1.mode == Orienting && c1.mainGen.outputOn && c1.tailGen.outputOn &&
      c2.mode == Flying && c3.mode == Landing && c4.mode == Landed &&
      !c4.mainGen.outputOn && !c4.tailGen.outputOn &&
      c5.mode == Flying && !c5.mainGen.outputOn && !c5.tailGen.outputOn
  {
  }

  // ---------------------------------------------------------------------
  // The program's variables, updated in place

  /** `main`'s locals, the generators' registers, and the SysTick statics. */
  class Heli {
    const clock: nat
    var mode: nat
    var desiredAlt: int
    var desiredYaw: int
    var actualAlt: int
    var actualYaw: int
    var mainDuty: int
    var tailDuty: int
    var switchPrev: bool
    var programStart: bool
    var mainGen: Generator
    var tailGen: Generator
    var sampCnt: nat
    var tickCount: nat
    var slowTick: bool

    ghost function State(): Ctrl
      reads this
    {
      Ctrl(mode, desiredAlt, desiredYaw, actualAlt, actualYaw, mainDuty, tailDuty,
           switchPrev, programStart, mainGen, tailGen)
    }

    ghost function TickState(): Ticks
      reads this
    {
      Ticks(sampCnt, tickCount, slowTick)
    }

    /** `main`'s declarations and `initialiseMainPWM`/`initialiseTailPWM`. */
    constructor (clock: nat, mainBefore: Generator, tailBefore: Generator)
      requires clock < U32
      ensures this.clock == clock
      ensures State() == Init(clock, mainBefore, tailBefore) && TickState() == TicksInit
    {
      this.clock := clock;
      mode := Landed;
      desiredAlt, desiredYaw := 0, 0;
      actualAlt, actualYaw := 0, 0;
      mainDuty, tailDuty := 0, 0;
      switchPrev, programStart := false, true;
      mainGen := Initialise(mainBefore, clock);
      tailGen := Initialise(tailBefore, clock);
      sampCnt, tickCount, slowTick := 0, 0, false;
    }

    /** `SysTickIntHandler`. */
    method SysTickIntHandler()
      modifies this`sampCnt, this`tickCount, this`slowTick
      ensures TickState() == Tick(old(TickState()))
    {
      sampCnt := (sampCnt + 1) % U32;
      tickCount := (tickCount + 1) % U8;
      if tickCount >= TicksPerSlow {
        tickCount := 0;
        slowTick := true;
      }
    }

    /** The `switch (mode)` statement. */
    method ModeSwitch(i: PassInput)
      modifies this
      ensures State() == ModeStep(old(State()), i) && TickState() == old(TickState())
    {
      var switchCur := i.switchOn;
      if mode == Landed {
        if switchCur && switchCur != switchPrev && programStart {
          mode := Orienting;
          switchPrev := switchCur;
          programStart := false;
          mainGen := SetOutput(mainGen, true);
          tailGen := SetOutput(tailGen, true);
        } else if switchCur && switchCur != switchPrev {
          mode := Flying;
          switchPrev := switchCur;
        }
      } else if mode == Orienting {
        var yawRef := i.yawRefOutstanding;
        if !yawRef {
          desiredAlt, desiredYaw := 0, 0;
          actualYaw := 0;
          mainDuty, tailDuty := 0, 0;
          mode := Flying;
        } else {
          mainDuty := SearchMainDuty;
          tailDuty := SearchTailDuty;
        }
      } else if mode == Flying {
        if !switchCur && switchCur != switchPrev {
          mode := Landing;
          switchPrev := switchCur;
        }
        ButtonControl(i.buttons);
      } else if mode == Landing {
        desiredAlt, desiredYaw := 0, 0;
        if mode == Landing && actualAlt == 0 && -YawTolerance <= actualYaw <= YawTolerance {
          mode := Landed;
          mainGen := SetOutput(mainGen, false);
          tailGen := SetOutput(tailGen, false);
        }
      }
    }

    /** The FLYING case's button control. */
    method ButtonControl(b: Buttons)
      modifies this`desiredAlt, this`desiredYaw
      ensures State() == FlyingButtons(old(State()), b)
    {
      if b.up && desiredAlt < AltTop && mode == Flying {
        desiredAlt := desiredAlt + AltStep;
      }
      if b.down && desiredAlt > 0 && mode == Flying {
        desiredAlt := desiredAlt - AltStep;
      }
      if b.left && mode == Flying {
        desiredYaw := desiredYaw + YawStep;
      }
      if b.right && mode == Flying {
        desiredYaw := desiredYaw - YawStep;
      }
    }

    /** One pass of the `while (1)` loop; returns what goes to the UART. */
    method LoopPass(i: PassInput) returns (report: Option<Report>)
      requires Valid(State()) && PidInRange(i) && clock < U32
      modifies this
      ensures State() == Pass(old(State()), i, clock) && TickState() == old(TickState())
      ensures report == Telemetry(State(), slowTick)
    {
      ModeSwitch(i);

      actualYaw := i.yaw;
      actualAlt := Int16(i.alt);

      mainGen := SetDuty(mainGen, clock, mainDuty);
      tailGen := SetDuty(tailGen, clock, tailDuty);

      mainDuty := i.altPid;
      tailDuty := i.yawPid;

      if slowTick {
        report := Some(Report(mainDuty, tailDuty, actualAlt, desiredAlt, actualYaw, desiredYaw, ModeNames[mode]));
      } else {
        report := None;
      }
    }
  }
}
