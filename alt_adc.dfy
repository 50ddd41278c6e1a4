/** The altitude estimator of altADC.c: the ADC interrupt writes each sample
    into a ten-slot ring; once per control-loop pass `updateAlt` reads ten
    values, takes their rounded mean, converts it to a percentage of the
    rig's travel against a ground baseline, and counts its calls.  On the
    20th call it latches the baseline once and for all. */
module AltAdc {
  import opened CInt
  import opened Wrappers
  import opened CircBuf

  /** Ring size and number of reads per update (`BUF_SIZE`). */
  const BufSize: nat := 10
  /** Largest 12-bit ADC code. */
  const AdcMax: nat := 4095
  /** The call on which the ground baseline latches. */
  const LatchCall: nat := 20
  /** Raw ADC units between the landed reading and full altitude. */
  const FullScale: int := 993

  /** `(2 * sum + BUF_SIZE) / 2 / BUF_SIZE`: the mean of ten reads rounded to
      the nearest integer, halves rounded up. */
  function Mean(sum: nat): (m: nat)
    ensures BufSize * m <= sum + BufSize / 2 < BufSize * m + BufSize
  {
    DivNonNegative(2 * sum + BufSize, 2);
    DivNonNegative((2 * sum + BufSize) / 2, BufSize);
    Div(Div(2 * sum + BufSize, 2), BufSize)
  }

  /** Ten reads of one value average to that value. */
  lemma MeanOfUniformRing(data: seq<nat>, r: nat, v: nat)
    requires |data| == BufSize && forall i :: 0 <= i < |data| ==> data[i] == v
    ensures Mean(Sum(Window(data, r, BufSize))) == v
  {
    UniformWindowSum(data, r, BufSize, v);
  }

  /** `(mean - landed) * 100 / (max - landed)`, truncating.  The source
      divides even when the divisor is 0, which C leaves undefined; the model
      says None there. */
  function Percent(mean: int, landed: int, max: int): (p: Option<int>)
    ensures p.None? <==> max == landed
  {
    if max - landed == 0 then None else Some(Div((mean - landed) * 100, max - landed))
  }

  /** With the latched baselines, the landed reading is 0 %, the reading
      993 units below it is 100 %, and nothing clamps readings outside that
      range: 993 units above the ground reads -100 %. */
  lemma PercentScale(landed: int)
    ensures Percent(landed, landed, landed - FullScale) == Some(0)
    ensures Percent(landed - FullScale, landed, landed - FullScale) == Some(100)
    ensures Percent(landed + FullScale, landed, landed - FullScale) == Some(-100)
  {
    DivNonNegative(0, FullScale);
    assert Div(-FullScale * 100, -FullScale) == 100;
    assert Div(FullScale * 100, -FullScale) == -100;
  }

  /** Between the landed reading and full altitude the percentage lies in
      0..100 and rises as the reading falls. */
  lemma PercentInTravel(mean: int, landed: int)
    requires landed - FullScale <= mean <= landed
    ensures var p := Percent(mean, landed, landed - FullScale);
      p.Some? && 0 <= p.value <= 100 && p.value == (landed - mean) * 100 / FullScale
  {
    var x := (landed - mean) * 100;
    assert (mean - landed) * 100 == -x;
    DivNegateDivisor(-x, FullScale);
    DivNegate(x, FullScale);
    DivNonNegative((landed - mean) * 100, FullScale);
  }

  /** With 12-bit readings and a 12-bit baseline the percentage stays within
      ±413, so storing it in the 16-bit `g_altitude` never truncates. */
  lemma PercentFitsInt16(mean: int, landed: int)
    requires 0 <= mean <= AdcMax && 0 <= landed <= AdcMax
    ensures var p := Percent(mean, landed, landed - FullScale);
      p.Some? && -413 <= p.value <= 413 && Int16(p.value) == p.value
  {
    var a := (mean - landed) * 100;
    var q := Div(a, -FullScale);
    assert -409500 <= a <= 409500;
    assert Abs(a + FullScale * q) < FullScale;
    assert -409500 - FullScale < FullScale * q < 409500 + FullScale;
  }

  /** The estimator's statics: `landedValue`, `maxValue`, `landed_set`,
      `g_buffer_values` (a 16-bit counter) and `g_altitude` (None where the
      source's division by zero leaves it undefined). */
  datatype AltState = AltState(landed: int, max: int, landedSet: bool, count: nat, altitude: Option<int>)

  const Init := AltState(0, 0, false, 0, Some(0))

  /** One `updateAlt` call, given the sum of the ten values it reads. */
  function Update(s: AltState, sum: nat): (t: AltState)
    ensures t.count == (s.count + 1) % U16
    ensures t.altitude.None? <==> s.max == s.landed
    ensures s.landedSet ==> t.landedSet && t.landed == s.landed && t.max == s.max
    ensures !s.landedSet && t.landedSet ==> t.landed == Mean(sum) && t.max == t.landed - FullScale
    ensures t.landedSet <==> s.landedSet || t.count >= LatchCall
  {
    var mean := Mean(sum);
    var altitude := Percent(mean, s.landed, s.max);
    var count := (s.count + 1) % U16;
    if !s.landedSet && count >= LatchCall then
      AltState(mean, mean - FullScale, true, count, altitude)
    else
      s.(count := count, altitude := altitude)
  }

  /** Successive `updateAlt` calls, given the sum each one reads. */
  function Updates(s: AltState, sums: seq<nat>): AltState
  {
    if sums == [] then s else Update(Updates(s, sums[..|sums| - 1]), sums[|sums| - 1])
  }

  /** Up to the 20th call: the counter equals the number of calls, the
      baselines are still both 0, so every one of these calls divides by
      zero; the 20th call latches the baseline to its own mean. */
  lemma {:induction false} UpToLatch(sums: seq<nat>)
    requires |sums| <= LatchCall
    ensures var t := Updates(Init, sums);
      t.count == |sums| &&
      t.landedSet == (|sums| == LatchCall) &&
      (|sums| < LatchCall ==> t.landed == 0 && t.max == 0) &&
      (|sums| == LatchCall ==> t.landed == Mean(sums[LatchCall - 1]) && t.max == t.landed - FullScale) &&
      (|sums| > 0 ==> t.altitude == None)
  {
    if sums != [] {
      UpToLatch(sums[..|sums| - 1]);
    }
  }

  /** Once latched, the baselines never change again, however many calls
      follow and whatever the 16-bit counter does. */
  lemma {:induction false} LatchIsFinal(s: AltState, sums: seq<nat>)
    requires s.landedSet
    ensures var t := Updates(s, sums);
      t.landedSet && t.landed == s.landed && t.max == s.max
  {
    if sums != [] {
      LatchIsFinal(s, sums[..|sums| - 1]);
    }
  }

  /** From start-up: the baseline is the mean of the 20th call, and every
      call after it reports a defined percentage against that baseline. */
  lemma {:induction false} AfterLatch(sums: seq<nat>)
    requires |sums| > LatchCall
    ensures var t := Updates(Init, sums);
      var landed := Mean(sums[LatchCall - 1]);
      t.landedSet && t.landed == landed && t.max == landed - FullScale &&
      t.altitude == Percent(Mean(sums[|sums| - 1]), landed, landed - FullScale) &&
      t.altitude.Some?
  {
    var first := sums[..LatchCall];
    UpToLatch(first);
    var prefix := sums[..|sums| - 1];
    assert prefix == first + sums[LatchCall..|sums| - 1];
    UpdatesAppend(Init, first, sums[LatchCall..|sums| - 1]);
    LatchIsFinal(Updates(Init, first), sums[LatchCall..|sums| - 1]);
  }

  lemma {:induction false} UpdatesAppend(s: AltState, a: seq<nat>, b: seq<nat>)
    ensures Updates(s, a + b) == Updates(Updates(s, a), b)
    decreases |b|
  {
    if b == [] {
      assert a + b == a;
    } else {
      assert (a + b)[..|a + b| - 1] == a + b[..|b| - 1];
      UpdatesAppend(s, a, b[..|b| - 1]);
    }
  }

  /** The altitude module's state as the source holds it: the ring and the
      statics of `updateAlt`, changed in place by the ADC interrupt and by
      the control loop. */
  class AltEstimator {
    var ring: CircBuf
    var landedValue: int
    var maxValue: int
    var landedSet: bool
    var bufferValues: nat
    var altitude: Option<int>

    ghost predicate Valid()
      reads this, ring
    {
      ring.Valid() && |ring.data| == BufSize &&
      (forall i :: 0 <= i < |ring.data| ==> ring.data[i] <= AdcMax) &&
      bufferValues < U16
    }

    ghost function State(): AltState
      reads this
    {
      AltState(landedValue, maxValue, landedSet, bufferValues, altitude)
    }

    /** `initADC`'s ring set-up together with the statics' initial values. */
    constructor ()
      ensures Valid() && fresh(ring) && State() == Init
      ensures ring.data == seq(BufSize, _ => 0)
    {
      ring := new CircBuf(BufSize);
      landedValue, maxValue, landedSet := 0, 0, false;
      bufferValues := 0;
      altitude := Some(0);
    }

    /** `ADCIntHandler`: one conversion's sample goes into the ring. */
    method ADCIntHandler(sample: nat)
      requires Valid() && sample <= AdcMax
      modifies ring
      ensures Valid()
      ensures ring.data == old(ring.data)[old(ring.windex) := sample]
      ensures ring.windex == (old(ring.windex) + 1) % BufSize && ring.rindex == old(ring.rindex)
    {
      ring.Write(sample);
    }

    /** `updateAlt`: ten reads, rounded mean, percentage, count, latch.  Ten
        reads of a ten-slot ring bring the read index back where it was. */
    method UpdateAlt()
      requires Valid()
      modifies this, ring
      ensures Valid() && ring == old(ring)
      ensures ring.data == old(ring.data) && ring.windex == old(ring.windex) && ring.rindex == old(ring.rindex)
      ensures State() == Update(old(State()), Sum(Window(old(ring.data), old(ring.rindex), BufSize)))
    {
      var sum: nat := 0;
      var i := 0;
      while i < BufSize
        modifies ring
        invariant 0 <= i <= BufSize
        invariant ring.Valid() && ring.data == old(ring.data) && ring.windex == old(ring.windex)
        invariant ring.rindex == if old(ring.rindex) + i < BufSize then old(ring.rindex) + i else old(ring.rindex) + i - BufSize
        invariant sum == Sum(Window(old(ring.data), old(ring.rindex), i))
      {
        WrapOnce(ring.rindex + 1, BufSize);
        WrapOnce(old(ring.rindex) + i, BufSize);
        SumWindowStep(old(ring.data), old(ring.rindex), i);
        var v := ring.Read();
        sum := sum + v;
        i := i + 1;
      }

      var meanValue := Mean(sum);
      altitude := Percent(meanValue, landedValue, maxValue);
      bufferValues := (bufferValues + 1) % U16;

      if !landedSet && bufferValues >= LatchCall {
        landedSet := true;
        landedValue := meanValue;
        maxValue := landedValue - FullScale;
      }
    }

    /** `getAlt`: the percentage the last update stored, not recomputed. */
    method GetAlt() returns (alt: Option<int>)
      ensures alt == State().altitude
    {
      alt := altitude;
    }
  }
}
