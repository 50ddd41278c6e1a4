/** The PWM arithmetic that pwmControl.c and both week-3 programs share:
    a generator's period from the system clock and a frequency, and a pulse
    width from the period and a duty-cycle percentage.  All operands are
    unsigned 32-bit, so the divisions truncate the way Dafny's `/` does on
    naturals (CInt.DivNonNegative) and the product `period * duty` wraps
    modulo 2^32. */
module PwmArith {
  import opened CInt

  /** The PWM clock is the system clock divided by 4 (`PWM_DIVIDER`). */
  const PwmDivider: nat := 4

  /** `clock / PWM_DIVIDER / freq`: the largest whole number of PWM clock
      counts that fits `freq` times into the PWM clock. */
  function Period(clock: nat, freq: nat): (p: nat)
    requires freq > 0
    ensures p * (PwmDivider * freq) <= clock < (p + 1) * (PwmDivider * freq)
  {
    var q := clock / PwmDivider;
    assert PwmDivider * q <= clock < PwmDivider * q + PwmDivider;
    var p := q / freq;
    assert freq * p <= q < freq * p + freq;
    assert p * (PwmDivider * freq) == PwmDivider * (freq * p);
    assert (p + 1) * (PwmDivider * freq) == PwmDivider * (freq * p + freq);
    p
  }

  /** `period * duty / 100` in unsigned 32-bit arithmetic. */
  function PulseWidth(period: nat, duty: nat): (w: nat)
    requires period < U32 && duty < U32
    ensures 100 * w < U32
    ensures duty <= 100 ==> w <= period
  {
    var m := period * duty;
    if duty <= 100 then
      MulMonotone(period, duty, 100);
      m % U32 / 100
    else
      m % U32 / 100
  }

  /** For a clock that fits in 32 bits, a frequency of at least 25 Hz and a
      duty of at most 100 %, the product cannot wrap: the width is the
      truncated share of the period, never more than the period, all of it
      at 100 %, none of it at 0 %, and it grows with the duty. */
  lemma WidthWithinPeriod(clock: nat, freq: nat, duty: nat, duty': nat)
    requires clock < U32 && freq >= 25 && duty <= duty' <= 100
    ensures var p := Period(clock, freq);
      p < U32 &&
      PulseWidth(p, duty) == p * duty / 100 &&
      PulseWidth(p, duty) <= PulseWidth(p, duty') <= p &&
      PulseWidth(p, 100) == p && PulseWidth(p, 0) == 0
  {
    var p := Period(clock, freq);
    PeriodFits(clock, freq);
    WidthNoWrap(p, duty);
    WidthNoWrap(p, duty');
    WidthNoWrap(p, 100);
    WidthNoWrap(p, 0);
    MulMonotone(p, duty, duty');
  }

  /** At 25 Hz or more, a period times 100 fits in 32 bits. */
  lemma PeriodFits(clock: nat, freq: nat)
    requires clock < U32 && freq >= 25
    ensures Period(clock, freq) * 100 < U32
  {
    var p := Period(clock, freq);
    assert p * 100 <= p * (PwmDivider * freq);
  }

  /** Without wrap-around the width is the plain truncated share. */
  lemma WidthNoWrap(p: nat, d: nat)
    requires p * 100 < U32 && d <= 100
    ensures PulseWidth(p, d) == p * d / 100
  {
    MulMonotone(p, d, 100);
    assert (p * d) % U32 == p * d;
  }

  lemma MulMonotone(a: nat, b: nat, c: nat)
    requires b <= c
    ensures a * b <= a * c
  {
  }

  /** The registers of one PWM generator and its output: the period and the
      pulse width last programmed, and whether the output pin is driven. */
  datatype Generator = Generator(period: nat, width: nat, outputOn: bool)

  /** Program a frequency and a duty: the period, then the width from it. */
  function Program(g: Generator, clock: nat, freq: nat, duty: nat): (h: Generator)
    requires freq > 0 && clock < U32 && duty < U32
    ensures h.outputOn == g.outputOn
    ensures h.period == Period(clock, freq)
  {
    var p := Period(clock, freq);
    g.(period := p, width := PulseWidth(p, duty))
  }

  /** `PWMOutputState`: switch the output pin; the registers stay. */
  function SetOutput(g: Generator, on: bool): (h: Generator)
    ensures h.outputOn == on && h.period == g.period && h.width == g.width
  {
    g.(outputOn := on)
  }
}
