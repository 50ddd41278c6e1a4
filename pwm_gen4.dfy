/** week3/pwmGen4.c: the lab program that drives both rotors' generators.
    The main generator starts at 250 Hz and 25 %, and the buttons step it as
    PwmLab describes; the tail generator is programmed once, at 200 Hz and
    10 %, and never again.  Both outputs are switched on after set-up. */
module PwmGen4 {
  import opened CInt
  import opened PwmArith
  import opened PwmLab

  /** `PWM_TAIL_CONST_HZ` and `DUTY_CYCLE_TAIL_CONSTANT`. */
  const PwmTailConstHz: int := 200
  const DutyCycleTailConstant: int := 10

  /** `main`'s loop variables and the two generators it programs.  The
      system clock rate is a parameter of the model. */
  class PwmGen4 {
    const clock: nat
    var mainFreq: int
    var mainDutyCycle: int
    var tailFreq: int
    var tailDutyCycle: int
    var mainGen: Generator
    var tailGen: Generator

    ghost predicate Valid()
      reads this
    {
      clock < U32 && InRange(Setting(mainFreq, mainDutyCycle))
    }

    /** `main` up to its loop: the variables start at 250 Hz / 25 % and
        200 Hz / 10 %, `initialiseMainPWM` and `initialiseTailPWM` program
        those, and both outputs are switched on. */
    constructor (clock: nat, mainBefore: Generator, tailBefore: Generator)
      requires clock < U32
      ensures Valid() && this.clock == clock
      ensures Setting(mainFreq, mainDutyCycle) == Start
      ensures tailFreq == PwmTailConstHz && tailDutyCycle == DutyCycleTailConstant
      ensures mainGen == SetOutput(Program(mainBefore, clock, PwmStartRateHz, DutyCycleStart), true)
      ensures tailGen == SetOutput(Program(tailBefore, clock, PwmTailConstHz, DutyCycleTailConstant), true)
    {
      this.clock := clock;
      mainFreq, mainDutyCycle := PwmStartRateHz, DutyCycleStart;
      tailFreq, tailDutyCycle := PwmTailConstHz, DutyCycleTailConstant;
      new;
      mainGen := SetOutput(Program(mainBefore, clock, mainFreq, mainDutyCycle), false);
      tailGen := SetOutput(Program(tailBefore, clock, tailFreq, tailDutyCycle), false);
      mainGen := SetOutput(mainGen, true);
      tailGen := SetOutput(tailGen, true);
    }

    /** `setMainPWM(ui32MainFreq, ui32MainDutyCycle)`. */
    method SetMainPwm()
      requires Valid()
      modifies this`mainGen
      ensures mainGen == Program(old(mainGen), clock, mainFreq, mainDutyCycle)
    {
      mainGen := Program(mainGen, clock, mainFreq, mainDutyCycle);
    }

    /** One pass of the `while (1)` loop.  The setting moves as
        PwmLab.LoopPass says; the main generator holds the last setting an
        accepted press programmed, or is untouched when none was accepted;
        nothing of the tail changes. */
    method LoopPass(b: Buttons)
      requires Valid()
      modifies this`mainFreq, this`mainDutyCycle, this`mainGen
      ensures Valid()
      ensures Setting(mainFreq, mainDutyCycle) == PwmLab.LoopPass(old(Setting(mainFreq, mainDutyCycle)), b).setting
      ensures PwmLab.LoopPass(old(Setting(mainFreq, mainDutyCycle)), b).applied == [] ==> mainGen == old(mainGen)
      ensures PwmLab.LoopPass(old(Setting(mainFreq, mainDutyCycle)), b).applied != [] ==>
        mainGen == Program(old(mainGen), clock, mainFreq, mainDutyCycle)
      ensures tailFreq == old(tailFreq) && tailDutyCycle == old(tailDutyCycle) && tailGen == old(tailGen)
    {
      PassKeepsRange(Setting(mainFreq, mainDutyCycle), b);
      if b.up && mainFreq < PwmRateMaxHz {
        mainFreq := mainFreq + PwmRateStepHz;
        SetMainPwm();
      }
      if b.down && mainFreq > PwmRateMinHz {
        mainFreq := mainFreq - PwmRateStepHz;
        SetMainPwm();
      }
      if b.right && mainDutyCycle < DutyCycleMax {
        mainDutyCycle := mainDutyCycle + DutyCycleChangeAmount;
        SetMainPwm();
      }
      if b.left && mainDutyCycle > DutyCycleMin {
        mainDutyCycle := mainDutyCycle - DutyCycleChangeAmount;
        SetMainPwm();
      }
    }
  }
}
