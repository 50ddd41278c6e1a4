/** What the two week-3 PWM lab programs (week3/pwmGen3.c and
    week3/pwmGen4.c) share: the same constants and the same button-driven
    loop body.  Each pass checks UP, DOWN, RIGHT and LEFT in that order; UP
    and DOWN step the frequency by 50 Hz within 50..400 Hz, RIGHT and LEFT
    step the duty by 5 % within 5..95 %, and every accepted press programs
    the main generator with the frequency and duty current at that point. */
module PwmLab {

  const PwmStartRateHz: int := 250
  const PwmRateStepHz: int := 50
  const PwmRateMinHz: int := 50
  const PwmRateMaxHz: int := 400
  /** `PWM_FIXED_DUTY`, the duty pwmGen3.c programs at initialisation. */
  const PwmFixedDuty: int := 67
  const DutyCycleMax: int := 95
  const DutyCycleMin: int := 5
  const DutyCycleStart: int := 25
  const DutyCycleChangeAmount: int := 5

  /** The four button events one pass polls (debouncing is outside the model). */
  datatype Buttons = Buttons(up: bool, down: bool, left: bool, right: bool)

  /** The loop's frequency and duty variables. */
  datatype Setting = Setting(freq: int, duty: int)

  const Start := Setting(PwmStartRateHz, DutyCycleStart)

  /** The settings the buttons can reach: a multiple of 50 Hz in 50..400 Hz
      and a multiple of 5 % in 5..95 %. */
  predicate InRange(s: Setting)
  {
    s.freq % PwmRateStepHz == 0 && PwmRateMinHz <= s.freq <= PwmRateMaxHz &&
    s.duty % DutyCycleChangeAmount == 0 && DutyCycleMin <= s.duty <= DutyCycleMax
  }

  /** The state of a pass between checks: the current setting and the
      settings programmed into the main generator so far, in order. */
  datatype Progress = Progress(setting: Setting, applied: seq<Setting>)

  /** One `if`: when the button was pressed and the guard holds, move to
      `next` and program it. */
  function Press(c: Progress, pressed: bool, guard: bool, next: Setting): Progress
  {
    if pressed && guard then Progress(next, c.applied + [next]) else c
  }

  /** One pass of the `while (1)` loop body, each guard evaluated against the
      value current at that point. */
  function LoopPass(s: Setting, b: Buttons): (r: Progress)
    ensures |r.applied| <= 4
    ensures !b.up && !b.down ==> r.setting.freq == s.freq
    ensures !b.left && !b.right ==> r.setting.duty == s.duty
    ensures b.up && !b.down && s.freq < PwmRateMaxHz ==> r.setting.freq == s.freq + PwmRateStepHz
    ensures b.down && !b.up && s.freq > PwmRateMinHz ==> r.setting.freq == s.freq - PwmRateStepHz
    ensures b.right && !b.left && s.duty < DutyCycleMax ==> r.setting.duty == s.duty + DutyCycleChangeAmount
    ensures b.left && !b.right && s.duty > DutyCycleMin ==> r.setting.duty == s.duty - DutyCycleChangeAmount
    ensures b.up && !b.down && s.freq >= PwmRateMaxHz ==> r.setting.freq == s.freq
    ensures b.down && !b.up && s.freq <= PwmRateMinHz ==> r.setting.freq == s.freq
    ensures b.right && !b.left && s.duty >= DutyCycleMax ==> r.setting.duty == s.duty
    ensures b.left && !b.right && s.duty <= DutyCycleMin ==> r.setting.duty == s.duty
  {
    var c0 := Progress(s, []);
    var f0 := c0.setting;
    var c1 := Press(c0, b.up, f0.freq < PwmRateMaxHz, f0.(freq := f0.freq + PwmRateStepHz));
    var f1 := c1.setting;
    var c2 := Press(c1, b.down, f1.freq > PwmRateMinHz, f1.(freq := f1.freq - PwmRateStepHz));
    var f2 := c2.setting;
    var c3 := Press(c2, b.right, f2.duty < DutyCycleMax, f2.(duty := f2.duty + DutyCycleChangeAmount));
    var f3 := c3.setting;
    Press(c3, b.left, f3.duty > DutyCycleMin, f3.(duty := f3.duty - DutyCycleChangeAmount))
  }

  /** The start setting is in range, and no pass can leave the range. */
  lemma PassKeepsRange(s: Setting, b: Buttons)
    requires InRange(s)
    ensures InRange(Start) && InRange(LoopPass(s, b).setting)
  {
  }

  /** The setting after successive passes of the loop. */
  function Passes(s: Setting, bs: seq<Buttons>): Setting
    decreases |bs|
  {
    if bs == [] then s else Passes(LoopPass(s, bs[0]).setting, bs[1..])
  }

  /** However long the loop runs and whatever is pressed, the setting stays
      a multiple of 50 Hz in 50..400 Hz and a multiple of 5 % in 5..95 %. */
  lemma {:induction false} PassesKeepRange(s: Setting, bs: seq<Buttons>)
    requires InRange(s)
    ensures InRange(Passes(s, bs))
    decreases |bs|
  {
    if bs != [] {
      PassKeepsRange(s, bs[0]);
      PassesKeepRange(LoopPass(s, bs[0]).setting, bs[1..]);
    }
  }

  /** Each button pair drives only its own variable: the frequency after a
      pass depends on UP and DOWN alone, the duty on RIGHT and LEFT alone. */
  lemma ButtonsIndependent(s: Setting, b: Buttons, b': Buttons)
    ensures b.up == b'.up && b.down == b'.down ==>
      LoopPass(s, b).setting.freq == LoopPass(s, b').setting.freq
    ensures b.right == b'.right && b.left == b'.left ==>
      LoopPass(s, b).setting.duty == LoopPass(s, b').setting.duty
  {
  }

  /** `next` is `prev` moved by exactly one button: one frequency step or
      one duty step, the other variable unchanged. */
  predicate OneStep(prev: Setting, next: Setting)
  {
    (next.duty == prev.duty &&
     (next.freq == prev.freq + PwmRateStepHz || next.freq == prev.freq - PwmRateStepHz)) ||
    (next.freq == prev.freq &&
     (next.duty == prev.duty + DutyCycleChangeAmount || next.duty == prev.duty - DutyCycleChangeAmount))
  }

  /** Every accepted press programs the main generator with the setting
      current at that point: each program is one button step away from the
      setting before it, and the last programmed setting is the one the pass
      ends with; a pass with no accepted press programs nothing and changes
      nothing.  At most one program per button. */
  lemma PassProgramsCurrent(s: Setting, b: Buttons)
    ensures var c := LoopPass(s, b);
      |c.applied| <= 4 &&
      (forall k :: 0 <= k < |c.applied| ==> OneStep(if k == 0 then s else c.applied[k - 1], c.applied[k])) &&
      (c.applied == [] ==> c.setting == s) &&
      (c.applied != [] ==> c.applied[|c.applied| - 1] == c.setting)
  {
  }

  /** At the top of the range UP is ignored, at the bottom DOWN is; a press of
      both from inside the range returns to the same frequency after two
      programs. */
  lemma RangeEnds(d: int, f: int)
    requires PwmRateMinHz < f < PwmRateMaxHz
    ensures LoopPass(Setting(PwmRateMaxHz, d), Buttons(true, false, false, false)) == Progress(Setting(PwmRateMaxHz, d), [])
    ensures LoopPass(Setting(PwmRateMinHz, d), Buttons(false, true, false, false)) == Progress(Setting(PwmRateMinHz, d), [])
    ensures LoopPass(Setting(f, d), Buttons(true, true, false, false)).setting == Setting(f, d)
    ensures |LoopPass(Setting(f, d), Buttons(true, true, false, false)).applied| == 2
  {
  }
}
