/** The ring of raw altitude samples the altitude module keeps (`circBuf_t`).
    Its own source, circBufT.c, is not part of this model; the ring is
    modelled by the behaviour the altitude module relies on: a fixed number
    of slots, a write index and a read index that each advance by one and
    wrap, writes that silently overwrite, and reads that never fail (reading
    faster than writing returns old samples again).  Slots start at 0. */
module CircBuf {

  class CircBuf {
    var data: seq<nat>
    var windex: nat
    var rindex: nat

    ghost predicate Valid()
      reads this
    {
      |data| > 0 && windex < |data| && rindex < |data|
    }

    /** `initCircBuf`: `size` zeroed slots, both indices at the first. */
    constructor (size: nat)
      requires size > 0
      ensures Valid() && data == seq(size, _ => 0) && windex == 0 && rindex == 0
    {
      data := seq(size, _ => 0);
      windex, rindex := 0, 0;
    }

    /** `writeCircBuf`: store at the write index and advance it. */
    method Write(v: nat)
      requires Valid()
      modifies this
      ensures Valid()
      ensures data == old(data)[old(windex) := v]
      ensures windex == (old(windex) + 1) % |data| && rindex == old(rindex)
    {
      data := data[windex := v];
      windex := (windex + 1) % |data|;
    }

    /** `readCircBuf`: the value at the read index; the index advances. */
    method Read() returns (v: nat)
      requires Valid()
      modifies this
      ensures Valid() && data == old(data) && windex == old(windex)
      ensures v == data[old(rindex)] && rindex == (old(rindex) + 1) % |data|
    {
      v := data[rindex];
      rindex := (rindex + 1) % |data|;
    }
  }

  /** The `n` values that `n` reads starting at index `r` return. */
  function Window(data: seq<nat>, r: nat, n: nat): (w: seq<nat>)
    requires |data| > 0
    ensures |w| == n
    ensures forall k :: 0 <= k < n ==> w[k] == data[(r + k) % |data|]
  {
    seq(n, k requires 0 <= k < n => data[(r + k) % |data|])
  }

  function Sum(s: seq<nat>): nat
  {
    if s == [] then 0 else Sum(s[..|s| - 1]) + s[|s| - 1]
  }

  lemma {:induction false} SumAppend(a: seq<nat>, b: seq<nat>)
    ensures Sum(a + b) == Sum(a) + Sum(b)
    decreases |b|
  {
    if b != [] {
      assert (a + b)[..|a + b| - 1] == a + b[..|b| - 1];
      SumAppend(a, b[..|b| - 1]);
    } else {
      assert a + b == a;
    }
  }

  /** A full turn of reads visits every slot once, whichever slot it starts
      at, so it sums to the sum of the whole ring. */
  lemma FullTurnSum(data: seq<nat>, r: nat)
    requires r < |data|
    ensures Sum(Window(data, r, |data|)) == Sum(data)
  {
    var front, back := data[..r], data[r..];
    assert front + back == data;
    RotatedWindow(data, r);
    SumAppend(back, front);
    SumAppend(front, back);
  }

  /** A full turn from slot `r` reads the slots from `r` on, then those before it. */
  lemma RotatedWindow(data: seq<nat>, r: nat)
    requires r < |data|
    ensures Window(data, r, |data|) == data[r..] + data[..r]
  {
    var w, v := Window(data, r, |data|), data[r..] + data[..r];
    forall k | 0 <= k < |data|
      ensures w[k] == v[k]
    {
      WrapOnce(r + k, |data|);
    }
  }

  /** One more read adds the value at the next slot. */
  lemma SumWindowStep(data: seq<nat>, r: nat, n: nat)
    requires |data| > 0
    ensures Sum(Window(data, r, n + 1)) == Sum(Window(data, r, n)) + data[(r + n) % |data|]
  {
    assert Window(data, r, n + 1)[..n] == Window(data, r, n);
  }

  lemma WrapOnce(x: nat, n: nat)
    requires 0 < n && x < 2 * n
    ensures x % n == if x < n then x else x - n
  {
    if x >= n {
      assert x == n * 1 + (x - n);
    }
  }

  /** A ring holding one value everywhere sums to that value per slot read. */
  lemma {:induction false} UniformWindowSum(data: seq<nat>, r: nat, n: nat, v: nat)
    requires |data| > 0 && forall i :: 0 <= i < |data| ==> data[i] == v
    ensures Sum(Window(data, r, n)) == n * v
  {
    if n > 0 {
      UniformWindowSum(data, r, n - 1, v);
      assert Window(data, r, n)[..n - 1] == Window(data, r, n - 1);
    }
  }
}
