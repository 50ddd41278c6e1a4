/** The helicopter's PWM layer, pwmControl.c: the main and the tail rotor
    each have a generator at a fixed 200 Hz whose duty the control loop sets
    as a percentage, and an output that the flight modes switch on and off.
    The file has no state of its own; the hardware registers it writes are
    modelled as a Generator value per rotor. */
module PwmControl {
  import opened CInt
  import opened PwmArith

  /** `PWM_CONST_FREQ`: both rotors run at 200 Hz. */
  const PwmConstFreq: nat := 200
  /** `DUTY_CYCLE_MAX`. */
  const DutyCycleMax: nat := 100
  /** `DUTY_CYCLE_START`: the duty programmed at initialisation. */
  const DutyCycleStart: nat := 0

  /** `setMainPWM` / `setTailPWM` (the two are the same computation on
      different generators): period `clock / 4 / 200`, width
      `period * duty / 100`.  The duty is a 16-bit parameter. */
  function SetDuty(g: Generator, clock: nat, duty: nat): (h: Generator)
    requires clock < U32 && duty < U16
    ensures h.period == clock / 800 && h.outputOn == g.outputOn
    ensures duty <= DutyCycleMax ==> h.width <= h.period
  {
    var h := Program(g, clock, PwmConstFreq, duty);
    if duty <= DutyCycleMax then
      WidthWithinPeriod(clock, PwmConstFreq, duty, DutyCycleMax);
      h
    else
      h
  }

  /** A duty within 0..100 % programs a width within the period, exactly
      the truncated share `period * duty / 100`, the whole period at 100 %
      and nothing at 0 %; the period itself is `clock / 800` and the output
      switch is left as it was. */
  lemma SetDutyWithinPeriod(g: Generator, clock: nat, duty: nat)
    requires clock < U32 && duty <= DutyCycleMax
    ensures var h := SetDuty(g, clock, duty);
      h.period == clock / 800 &&
      h.width == h.period * duty / 100 && h.width <= h.period &&
      SetDuty(g, clock, DutyCycleMax).width == h.period &&
      SetDuty(g, clock, 0).width == 0 &&
      h.outputOn == g.outputOn
  {
    WidthWithinPeriod(clock, PwmConstFreq, duty, DutyCycleMax);
    WidthWithinPeriod(clock, PwmConstFreq, 0, duty);
  }

  /** `initialiseMainPWM` / `initialiseTailPWM`: program the start duty,
      then leave the output switched off.  Whatever the registers held
      before is overwritten. */
  function Initialise(before: Generator, clock: nat): (g: Generator)
    requires clock < U32
    ensures g.period == clock / 800 && g.width == 0 && !g.outputOn
  {
    WidthWithinPeriod(clock, PwmConstFreq, DutyCycleStart, DutyCycleStart);
    SetOutput(SetDuty(before, clock, DutyCycleStart), false)
  }

  /** Initialisation programs a 0 % duty at 200 Hz with the output off,
      whatever the registers held before. */
  lemma InitialiseIsOff(before: Generator, clock: nat)
    requires clock < U32
    ensures Initialise(before, clock) == Generator(clock / 800, 0, false)
  {
    SetDutyWithinPeriod(before, clock, DutyCycleStart);
  }
}
