/** week3/pwmGen3.c: the single-generator lab program.  Its loop is the one
    PwmLab describes, but its set-up programs `PWM_FIXED_DUTY` (67 %) while
    the loop's duty variable starts at 25 %: until the first accepted press
    the output runs at a duty the program does not track. */
module PwmGen3 {
  import opened CInt
  import opened PwmArith
  import opened PwmLab

  /** The duty the set-up programs is not the duty the loop believes in:
      for any clock of at least 3000 Hz (a period of three counts or more at
      250 Hz) the programmed width exceeds the tracked one.  At the program's
      20 MHz clock the period is 20000 counts, and the widths are 13400 and
      5000. */
  lemma InitialDutyUntracked(clock: nat)
    requires 3000 <= clock < U32
    ensures var p := Period(clock, PwmStartRateHz);
      PulseWidth(p, PwmFixedDuty) > PulseWidth(p, DutyCycleStart)
    ensures clock == 20_000_000 ==>
      var p := Period(clock, PwmStartRateHz);
      p == 20000 && PulseWidth(p, PwmFixedDuty) == 13400 && PulseWidth(p, DutyCycleStart) == 5000
  {
    var p := Period(clock, PwmStartRateHz);
    assert 3 * 1000 <= clock;
    assert p >= 3;
    WidthWithinPeriod(clock, PwmStartRateHz, DutyCycleStart, DutyCycleStart);
    assert PulseWidth(p, PwmFixedDuty) == p * 67 / 100 by {
      assert p * 1000 <= clock;
      assert p * 67 < U32;
    }
    assert p * 67 >= p * 25 + 100;
  }

  /** `main`'s loop variables and the one generator it programs. */
  class PwmGen3 {
    const clock: nat
    var freq: int
    var dutyCycle: int
    var gen: Generator

    ghost predicate Valid()
      reads this
    {
      clock < U32 && InRange(Setting(freq, dutyCycle))
    }

    /** `main` up to its loop: the variables start at 250 Hz / 25 %, but
        `initialisePWM` programs 250 Hz / 67 %; the output is switched on. */
    constructor (clock: nat, before: Generator)
      requires clock < U32
      ensures Valid() && this.clock == clock
      ensures Setting(freq, dutyCycle) == Start
      ensures gen == SetOutput(Program(before, clock, PwmStartRateHz, PwmFixedDuty), true)
    {
      this.clock := clock;
      freq, dutyCycle := PwmStartRateHz, DutyCycleStart;
      new;
      gen := SetOutput(Program(before, clock, PwmStartRateHz, PwmFixedDuty), false);
      gen := SetOutput(gen, true);
    }

    /** `setPWM(ui32Freq, ui32DutyCycle)`. */
    method SetPwm()
      requires Valid()
      modifies this`gen
      ensures gen == Program(old(gen), clock, freq, dutyCycle)
    {
      gen := Program(gen, clock, freq, dutyCycle);
    }

    /** One pass of the `while (1)` loop: the setting moves as
        PwmLab.LoopPass says; the generator holds the last setting an
        accepted press programmed, or is untouched when none was accepted
        (so the 67 % of the set-up survives until the first accepted press). */
    method LoopPass(b: Buttons)
      requires Valid()
      modifies this
      ensures Valid()
      ensures Setting(freq, dutyCycle) == PwmLab.LoopPass(old(Setting(freq, dutyCycle)), b).setting
      ensures PwmLab.LoopPass(old(Setting(freq, dutyCycle)), b).applied == [] ==> gen == old(gen)
      ensures PwmLab.LoopPass(old(Setting(freq, dutyCycle)), b).applied != [] ==>
        gen == Program(old(gen), clock, freq, dutyCycle)
    {
      PassKeepsRange(Setting(freq, dutyCycle), b);
      if b.up && freq < PwmRateMaxHz {
        freq := freq + PwmRateStepHz;
        SetPwm();
      }
      if b.down && freq > PwmRateMinHz {
        freq := freq - PwmRateStepHz;
        SetPwm();
      }
      if b.right && dutyCycle < DutyCycleMax {
        dutyCycle := dutyCycle + DutyCycleChangeAmount;
        SetPwm();
      }
      if b.left && dutyCycle > DutyCycleMin {
        dutyCycle := dutyCycle - DutyCycleChangeAmount;
        SetPwm();
      }
    }
  }
}
