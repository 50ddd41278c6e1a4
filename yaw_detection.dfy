/** The quadrature yaw decoder of yawDetection.c: two encoder channels are
    decoded into one of four states on every edge, a fixed table over
    (previous state, new state) counts ticks, ticks are converted to degrees,
    and a separate reference (home) sensor zeroes the count once. */
module YawDetection {
  import opened CInt

  /** Encoder resolution: ticks in one revolution. */
  const TicksPerRev: int := 448
  const DegreesPerRev: int := 360

  /** Decoded states, numbered as the source numbers them.  `state_yaw` and
      `prev_state_yaw` start at 0, which is none of them. */
  const NoState: int := 0
  const Hold: int := 1
  const Clockwise: int := 2
  const High: int := 3
  const CounterClockwise: int := 4

  /** Pin levels to state: (A, B) = (0,0) Hold, (0,1) Clockwise, (1,1) High,
      (1,0) CounterClockwise.  A pin reads as high when its masked value is
      non-zero. */
  function Decode(pinA: int, pinB: int): (s: int)
    ensures Hold <= s <= CounterClockwise
    ensures s == Hold <==> pinA == 0 && pinB == 0
    ensures s == Clockwise <==> pinA == 0 && pinB != 0
    ensures s == High <==> pinA != 0 && pinB != 0
    ensures s == CounterClockwise <==> pinA != 0 && pinB == 0
  {
    if pinA == 0 then (if pinB == 0 then Hold else Clockwise)
    else (if pinB != 0 then High else CounterClockwise)
  }

  /** `s` is one step forward of `prev` on the cycle 1 -> 2 -> 3 -> 4 -> 1. */
  predicate Forward(prev: int, s: int)
  {
    Hold <= prev <= CounterClockwise && s == prev % 4 + 1
  }

  /** The source's transition table: what one edge adds to the tick count.
      Exactly the forward steps count +1 and exactly the backward steps -1;
      a repeated state, a diagonal skip and the start state 0 count nothing. */
  function Delta(prev: int, s: int): (d: int)
    ensures d == 1 <==> Forward(prev, s)
    ensures d == -1 <==> Forward(s, prev)
    ensures d == 0 <==> !Forward(prev, s) && !Forward(s, prev)
  {
    if (prev == 1 && s == 2) || (prev == 2 && s == 3) || (prev == 3 && s == 4) || (prev == 4 && s == 1) then 1
    else if (prev == 4 && s == 3) || (prev == 3 && s == 2) || (prev == 2 && s == 1) || (prev == 1 && s == 4) then -1
    else 0
  }

  /** Swapping the two states of an edge negates its count. */
  lemma DeltaAntisymmetric(prev: int, s: int)
    ensures Delta(s, prev) == -Delta(prev, s)
  {
  }

  /** Ticks to degrees: `yaw * 360 / 448` with C's truncating division. */
  function Degrees(ticks: int): (d: int)
    ensures Abs(ticks * DegreesPerRev - TicksPerRev * d) < TicksPerRev
    ensures ticks >= 0 ==> d >= 0
    ensures ticks <= 0 ==> d <= 0
    ensures ticks >= 0 ==> 0 <= ticks * DegreesPerRev - TicksPerRev * d < TicksPerRev
    ensures ticks <= 0 ==> -TicksPerRev < ticks * DegreesPerRev - TicksPerRev * d <= 0
  {
    Div(ticks * DegreesPerRev, TicksPerRev)
  }

  /** Truncation makes the conversion odd: turning the same number of ticks
      either way gives the same magnitude.  Under Euclidean division -1 tick
      would read as -1 degree; here it reads as 0. */
  lemma DegreesOdd(ticks: int)
    ensures Degrees(-ticks) == -Degrees(ticks)
    ensures Degrees(-1) == 0 && Degrees(1) == 0
  {
    assert -ticks * DegreesPerRev == -(ticks * DegreesPerRev);
    DivNegate(ticks * DegreesPerRev, TicksPerRev);
    DivNonNegative(DegreesPerRev, TicksPerRev);
  }

  /** Whole revolutions convert exactly, and the error of the conversion is
      under one degree. */
  lemma DegreesOfRevolutions(k: int, ticks: int)
    ensures Degrees(k * TicksPerRev) == k * DegreesPerRev
    ensures Abs(ticks * DegreesPerRev - TicksPerRev * Degrees(ticks)) < TicksPerRev
  {
    var a := k * TicksPerRev * DegreesPerRev;
    assert k * TicksPerRev * DegreesPerRev == TicksPerRev * (k * DegreesPerRev);
    var q := Degrees(k * TicksPerRev);
    assert Abs(a - TicksPerRev * q) < TicksPerRev;
    assert a - TicksPerRev * q == TicksPerRev * (k * DegreesPerRev - q);
  }

  /** The decoder's file-scope statics: `yaw`, `state_yaw`, `prev_state_yaw`,
      `yawRef`, `g_trigger` and `yaw_degrees`. */
  datatype YawState = YawState(yaw: int, state: int, prev: int, yawRef: int, trigger: int, degrees: int)

  /** Their values at start-up. */
  const Start := YawState(0, NoState, NoState, 1, 0, 0)

  /** One edge on either encoder channel (`handleYaw`). */
  function Edge(s: YawState, pinA: int, pinB: int): (t: YawState)
    ensures Hold <= t.state <= CounterClockwise && t.prev == t.state
    ensures t.yaw == s.yaw + 1 || t.yaw == s.yaw || t.yaw == s.yaw - 1
    ensures t.degrees == Degrees(t.yaw)
    ensures t.yawRef == s.yawRef && t.trigger == s.trigger
  {
    var n := Decode(pinA, pinB);
    var y := s.yaw + Delta(s.prev, n);
    s.(yaw := y, state := n, prev := n, degrees := Degrees(y))
  }

  /** One falling edge of the reference sensor (`yawRefHandler`).  It stores
      1 in the count unconditionally and then, only while the one-shot flag
      is clear, 0: the first edge zeroes the count, every later one sets it
      to 1.  The degrees are not recomputed, so `getYaw` goes stale until the
      next encoder edge. */
  function RefEdge(s: YawState): (t: YawState)
    ensures t.yawRef == 0
    ensures t.trigger == if s.trigger == 0 then 1 else s.trigger
    ensures t.yaw == if s.trigger == 0 then 0 else 1
    ensures t.degrees == s.degrees && t.state == s.state && t.prev == s.prev
  {
    var s1 := s.(yawRef := 0, yaw := 1);
    if s1.yawRef == 0 && s1.trigger == 0 then s1.(yaw := 0, trigger := 1) else s1
  }

  /** Every encoder edge leaves a decoded state in 1..4, remembers it as the
      previous state, counts by the table and refreshes the degrees; it does
      not touch the reference flags. */
  lemma EdgeEffect(s: YawState, pinA: int, pinB: int)
    ensures var t := Edge(s, pinA, pinB);
      Hold <= t.state <= CounterClockwise && t.prev == t.state &&
      t.yaw - s.yaw in {-1, 0, 1} &&
      (t.yaw == s.yaw + 1 <==> Forward(s.prev, t.state)) &&
      (t.yaw == s.yaw - 1 <==> Forward(t.state, s.prev)) &&
      t.degrees == Degrees(t.yaw) &&
      t.yawRef == s.yawRef && t.trigger == s.trigger
  {
  }

  /** The first edge after start-up never counts, whatever the pins read. */
  lemma FirstEdgeNotCounted(pinA: int, pinB: int)
    ensures Edge(Start, pinA, pinB).yaw == 0
  {
  }

  /** Once the reference capture has fired, a further reference edge leaves
      the count at 1 instead of 0, and the degrees still show the old value. */
  lemma LaterRefEdgeStoresOne(s: YawState)
    requires s.trigger == 1
    ensures RefEdge(s).yaw == 1 && RefEdge(RefEdge(s)).yaw == 1
  {
  }

  /** After the first reference edge, `getYaw` reports the degrees of the
      count before the zeroing whenever that was not 0. */
  lemma RefEdgeLeavesDegreesStale(s: YawState)
    requires s.trigger == 0 && s.degrees != 0
    ensures RefEdge(s).degrees != Degrees(RefEdge(s).yaw)
  {
    DivNonNegative(0, TicksPerRev);
  }

  // ----- Runs of decoded states -----

  /** Net ticks a run of decoded states adds, starting after state `prev`. */
  function Net(prev: int, path: seq<int>): int
    decreases |path|
  {
    if path == [] then 0 else Delta(prev, path[0]) + Net(path[0], path[1..])
  }

  /** The state a run ends in. */
  function Last(prev: int, path: seq<int>): int
  {
    if path == [] then prev else path[|path| - 1]
  }

  lemma {:induction false} NetAppend(prev: int, p: seq<int>, q: seq<int>)
    ensures Net(prev, p + q) == Net(prev, p) + Net(Last(prev, p), q)
    decreases |p|
  {
    if p == [] {
      assert p + q == q;
    } else {
      assert (p + q)[1..] == p[1..] + q;
      NetAppend(p[0], p[1..], q);
      assert Last(p[0], p[1..]) == Last(prev, p);
    }
  }

  /** The run that retraces `path` back to `prev`. */
  function Back(prev: int, path: seq<int>): seq<int>
    decreases |path|
  {
    if path == [] then [] else Back(path[0], path[1..]) + [prev]
  }

  /** Retracing any run, valid or not, cancels its count exactly. */
  lemma {:induction false} NetBackCancels(prev: int, path: seq<int>)
    ensures Net(prev, path) + Net(Last(prev, path), Back(prev, path)) == 0
    decreases |path|
  {
    if path != [] {
      var h, r := path[0], path[1..];
      var l := Last(h, r);
      assert l == Last(prev, path);
      NetBackCancels(h, r);
      NetAppend(l, Back(h, r), [prev]);
      assert Last(l, Back(h, r)) == h by {
        if r != [] { assert Back(h, r) == Back(r[0], r[1..]) + [h]; }
      }
      DeltaAntisymmetric(h, prev);
    }
  }

  /** One forward turn of the cycle, Hold -> Clockwise -> High -> CounterClockwise -> Hold. */
  const ForwardTurn: seq<int> := [Clockwise, High, CounterClockwise, Hold]
  /** One backward turn, Hold -> CounterClockwise -> High -> Clockwise -> Hold. */
  const BackwardTurn: seq<int> := [CounterClockwise, High, Clockwise, Hold]

  function Repeat(p: seq<int>, k: nat): (r: seq<int>)
    ensures |r| == k * |p|
  {
    if k == 0 then [] else p + Repeat(p, k - 1)
  }

  /** One turn either way, unfolded state by state. */
  lemma OneTurn()
    ensures Net(Hold, ForwardTurn) == 4 && Last(Hold, ForwardTurn) == Hold
    ensures Net(Hold, BackwardTurn) == -4 && Last(Hold, BackwardTurn) == Hold
  {
    assert Net(CounterClockwise, [Hold]) == 1;
    assert Net(High, [CounterClockwise, Hold]) == 2;
    assert Net(Clockwise, [High, CounterClockwise, Hold]) == 3;
    assert Net(Clockwise, [Hold]) == -1;
    assert Net(High, [Clockwise, Hold]) == -2;
    assert Net(CounterClockwise, [High, Clockwise, Hold]) == -3;
  }

  /** From Hold, k forward turns add exactly 4k ticks and k backward turns
      take away exactly 4k. */
  lemma {:induction false} NetOfTurns(k: nat)
    ensures Net(Hold, Repeat(ForwardTurn, k)) == 4 * k
    ensures Net(Hold, Repeat(BackwardTurn, k)) == -4 * k
  {
    if k > 0 {
      NetOfTurns(k - 1);
      OneTurn();
      NetAppend(Hold, ForwardTurn, Repeat(ForwardTurn, k - 1));
      NetAppend(Hold, BackwardTurn, Repeat(BackwardTurn, k - 1));
    }
  }

  /** A forward turn followed by the backward turn returns the count to
      where it started. */
  lemma ForwardThenBackward()
    ensures Net(Hold, ForwardTurn + BackwardTurn) == 0
  {
    OneTurn();
    NetAppend(Hold, ForwardTurn, BackwardTurn);
  }

  /** Neighbouring states on the cycle, or the same state twice. */
  predicate Adjacent(prev: int, s: int)
  {
    Hold <= s <= CounterClockwise && (prev == s || Forward(prev, s) || Forward(s, prev))
  }

  predicate Confined(prev: int, path: seq<int>)
  {
    (path != [] ==> Adjacent(prev, path[0])) &&
    forall i :: 1 <= i < |path| ==> Adjacent(path[i - 1], path[i])
  }

  /** On a run that never skips a state, the count tracks the encoder's
      position exactly: start state plus net ticks is the end state, modulo
      the four states of the cycle. */
  lemma {:induction false} ConfinedRunTracksPosition(prev: int, path: seq<int>)
    requires Hold <= prev <= CounterClockwise && Confined(prev, path)
    ensures (prev + Net(prev, path) - Last(prev, path)) % 4 == 0
    decreases |path|
  {
    if path != [] {
      var h, r := path[0], path[1..];
      assert Confined(h, r) by {
        if r != [] { assert Adjacent(path[0], path[1]); }
        forall i | 1 <= i < |r|
          ensures Adjacent(r[i - 1], r[i])
        {
          assert Adjacent(path[i], path[i + 1]);
        }
      }
      ConfinedRunTracksPosition(h, r);
      assert Last(h, r) == Last(prev, path);
    }
  }

  /** A diagonal skip (Hold <-> High, Clockwise <-> CounterClockwise) counts
      nothing although the encoder moved two states. */
  lemma SkipIsLost(prev: int)
    requires Hold <= prev <= CounterClockwise
    ensures Delta(prev, (prev + 1) % 4 + 1) == 0
  {
  }

  // ----- Runs of interrupts -----

  /** The two interrupts that change the decoder's state. */
  datatype YawEvent = EncoderEdge(pinA: int, pinB: int) | ReferenceEdge

  function Apply(s: YawState, e: YawEvent): YawState
  {
    match e
    case EncoderEdge(a, b) => Edge(s, a, b)
    case ReferenceEdge => RefEdge(s)
  }

  function Run(s: YawState, es: seq<YawEvent>): YawState
    decreases |es|
  {
    if es == [] then s else Run(Apply(s, es[0]), es[1..])
  }

  /** The decoded states a run of encoder edges passes through. */
  function Decoded(es: seq<YawEvent>): (path: seq<int>)
    ensures |path| == |es|
  {
    if es == [] then [] else
      (match es[0] case EncoderEdge(a, b) => [Decode(a, b)] case ReferenceEdge => [NoState]) + Decoded(es[1..])
  }

  /** Encoder edges alone add exactly the net ticks of the states they
      decode to, and leave the degrees in step with the count. */
  lemma {:induction false} EncoderRunCounts(s: YawState, es: seq<YawEvent>)
    requires forall i :: 0 <= i < |es| ==> es[i].EncoderEdge?
    ensures Run(s, es).yaw == s.yaw + Net(s.prev, Decoded(es))
    ensures Run(s, es).prev == Last(s.prev, Decoded(es))
    ensures es != [] ==> Run(s, es).degrees == Degrees(Run(s, es).yaw)
    ensures Run(s, es).yawRef == s.yawRef && Run(s, es).trigger == s.trigger
    decreases |es|
  {
    if es != [] {
      var t := Apply(s, es[0]);
      EncoderRunCounts(t, es[1..]);
      assert Decoded(es)[1..] == Decoded(es[1..]);
      assert Decoded(es)[0] == t.prev;
      if es[1..] == [] {
        assert Decoded(es) == [t.prev];
      } else {
        assert Last(t.prev, Decoded(es[1..])) == Last(s.prev, Decoded(es));
      }
    }
  }

  /** The reference search, once finished, is never reported as outstanding
      again, and the one-shot flag stays set, whatever interrupts follow. */
  lemma {:induction false} ReferenceStaysFound(s: YawState, es: seq<YawEvent>)
    requires s.yawRef == 0 && s.trigger == 1
    ensures Run(s, es).yawRef == 0 && Run(s, es).trigger == 1
    decreases |es|
  {
    if es != [] {
      ReferenceStaysFound(Apply(s, es[0]), es[1..]);
    }
  }

  /** From start-up, the search is outstanding exactly until the first
      reference edge; that edge zeroes the count. */
  lemma {:induction false} ReferenceOutstandingUntilEdge(es: seq<YawEvent>)
    requires forall i :: 0 <= i < |es| ==> es[i].EncoderEdge?
    ensures Run(Start, es).yawRef == 1 && Run(Start, es).trigger == 0
    ensures RefEdge(Run(Start, es)).yaw == 0 && RefEdge(Run(Start, es)).yawRef == 0
  {
    EncoderRunCounts(Start, es);
  }

  /** The decoder as the source holds it: file-scope variables updated in
      place by two interrupt handlers and read by two getters. */
  class YawEncoder {
    var yawDegrees: int
    var yaw: int
    var stateYaw: int
    var prevStateYaw: int
    var yawRef: int
    var trigger: int

    ghost function State(): YawState
      reads this
    {
      YawState(yaw, stateYaw, prevStateYaw, yawRef, trigger, yawDegrees)
    }

    constructor ()
      ensures State() == Start
    {
      yawDegrees, yaw := 0, 0;
      stateYaw, prevStateYaw := NoState, NoState;
      yawRef, trigger := 1, 0;
    }

    /** `handleYaw`: decode the pins, count by the table, convert. */
    method HandleYaw(pinA: int, pinB: int)
      modifies this
      ensures State() == Edge(old(State()), pinA, pinB)
    {
      if pinA == 0 {
        if pinB == 0 { stateYaw := Hold; } else { stateYaw := Clockwise; }
      }
      if pinA != 0 {
        if pinB != 0 { stateYaw := High; } else { stateYaw := CounterClockwise; }
      }

      if prevStateYaw == 1 && stateYaw == 2 { yaw := yaw + 1; }
      if prevStateYaw == 2 && stateYaw == 3 { yaw := yaw + 1; }
      if prevStateYaw == 3 && stateYaw == 4 { yaw := yaw + 1; }
      if prevStateYaw == 4 && stateYaw == 1 { yaw := yaw + 1; }
      if prevStateYaw == 4 && stateYaw == 3 { yaw := yaw - 1; }
      if prevStateYaw == 3 && stateYaw == 2 { yaw := yaw - 1; }
      if prevStateYaw == 2 && stateYaw == 1 { yaw := yaw - 1; }
      if prevStateYaw == 1 && stateYaw == 4 { yaw := yaw - 1; }
      prevStateYaw := stateYaw;

      yawDegrees := Div(yaw * DegreesPerRev, TicksPerRev);
    }

    /** `yawRefHandler`: the reference sensor's falling edge. */
    method YawRefHandler()
      modifies this
      ensures State() == RefEdge(old(State()))
    {
      yawRef := 0;
      yaw := 1;
      if yawRef == 0 && trigger == 0 {
        yaw := 0;
        trigger := 1;
      }
    }

    /** `getYaw`: the degrees stored by the last encoder edge, not recomputed. */
    method GetYaw() returns (degrees: int)
      ensures degrees == State().degrees
    {
      degrees := yawDegrees;
    }

    /** `checkYawRef`: 1 while the reference search is outstanding, 0 after. */
    method CheckYawRef() returns (outstanding: int)
      ensures outstanding == State().yawRef
    {
      outstanding := yawRef;
    }
  }
}
