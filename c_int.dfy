/** Integer semantics of the C target that the controller relies on.
    Dafny's `int` is unbounded and its `/` is Euclidean; the controller is
    written in C, whose `/` truncates toward zero and whose unsigned types
    wrap.  Every use of those rules in the model goes through this module. */
module CInt {

  /** Moduli of the unsigned fixed-width types. */
  const U8: int := 0x100
  const U16: int := 0x1_0000
  const U32: int := 0x1_0000_0000

  function Abs(x: int): (r: nat)
    ensures r == x || r == -x
  {
    if x < 0 then -x else x
  }

  /** Conversion to `int16_t`: the value congruent to `x` modulo 2^16 in
      -32768..32767, which is `x` itself when it already fits. */
  function Int16(x: int): (r: int)
    ensures -0x8000 <= r < 0x8000
    ensures (x - r) % U16 == 0
    ensures -0x8000 <= x < 0x8000 ==> r == x
  {
    (x + 0x8000) % U16 - 0x8000
  }

  /** C's `/` on integers: the quotient truncated toward zero.  Characterised
      by its remainder, which is smaller than the divisor in magnitude and
      never has the opposite sign of the dividend. */
  function Div(a: int, b: int): (q: int)
    requires b != 0
    ensures Abs(a - b * q) < Abs(b)
    ensures a - b * q == 0 || (a - b * q < 0 <==> a < 0)
  {
    var m := Abs(a) / Abs(b);
    var q := if (a < 0) == (b < 0) then m else -m;
    TruncatedRemainder(a, b, m, q);
    q
  }

  /** The remainder left by the truncated quotient is the magnitude's
      remainder, carrying the dividend's sign. */
  lemma TruncatedRemainder(a: int, b: int, m: int, q: int)
    requires b != 0 && m == Abs(a) / Abs(b)
    requires q == if (a < 0) == (b < 0) then m else -m
    ensures a - b * q == if a < 0 then -(Abs(a) % Abs(b)) else Abs(a) % Abs(b)
  {
    var n, d := Abs(a), Abs(b);
    assert n == d * m + n % d;
    if b > 0 {
      assert b * q == (if a < 0 then -(d * m) else d * m);
    } else {
      assert b * q == -d * q;
      assert b * q == (if a < 0 then -(d * m) else d * m);
    }
  }

  /** For a non-negative dividend and a positive divisor the two divisions agree. */
  lemma DivNonNegative(a: int, b: int)
    requires a >= 0 && b > 0
    ensures Div(a, b) == a / b
  {
  }

  /** Truncation is symmetric: negating the dividend negates the quotient
      (Euclidean division is not: -1 / 448 is -1 in Dafny, 0 in C). */
  lemma DivNegate(a: int, b: int)
    requires b != 0
    ensures Div(-a, b) == -Div(a, b)
  {
  }

  /** Negating the divisor negates the quotient as well. */
  lemma DivNegateDivisor(a: int, b: int)
    requires b != 0
    ensures Div(a, -b) == -Div(a, b)
  {
  }
}
