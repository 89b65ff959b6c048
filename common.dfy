/** Definitions shared by every part of the model: the byte type of the
    palette and pixel buffers, the random source behind RANDOM(n), C's
    truncating integer division, two's-complement XOR on `long`, and a
    counting function used by the fade routines. */
module Common {

  /** An `unsigned char` / `uint8_t`. */
  type byte = b: int | 0 <= b < 256

  /** A palette is 256 entries of three channel bytes. */
  const PAL_BYTES: int := 768

  /** Byte offset of channel c of palette entry e. */
  function Ix(e: int, c: int): int
  {
    3 * e + c
  }

  /** The value RANDOM(n) returns when the random source is at position
      `pos`: the supplied draw reduced into [0, n). Since `stream` is
      arbitrary, every outcome in [0, n) is possible at every call. */
  function Draw(stream: nat -> nat, pos: nat, n: int): (r: int)
    requires n > 0
    ensures 0 <= r < n
  {
    stream(pos) % n
  }

  /** The C library's random generator: a fixed stream of draws and the
      position of the next one. Every RANDOM(n) in the source is a call
      to Next(n). */
  class Rng {
    const stream: nat -> nat
    var pos: nat

    constructor (s: nat -> nat)
      ensures stream == s && pos == 0
    {
      stream := s;
      pos := 0;
    }

    method Next(n: int) returns (r: int)
      requires n > 0
      modifies this
      ensures pos == old(pos) + 1
      ensures r == Draw(stream, old(pos), n)
    {
      r := Draw(stream, pos, n);
      pos := pos + 1;
    }

    /** Consumes k draws whose values a pure function has already read
        from the stream. */
    method Advance(k: nat)
      modifies this
      ensures pos == old(pos) + k
    {
      pos := pos + k;
    }
  }

  function Abs(a: int): nat { if a < 0 then -a else a }

  /** C's `/`: the quotient truncated toward zero. Division by zero is
      undefined in C; here it yields 0. */
  function CDiv(a: int, b: int): int
  {
    if b == 0 then 0
    else if (a < 0) == (b < 0) then Abs(a) / Abs(b)
    else -(Abs(a) / Abs(b))
  }

  /** C's `%`: the remainder takes the sign of the dividend. */
  function CRem(a: int, b: int): int
    requires b != 0
  {
    if a >= 0 then Abs(a) % Abs(b) else -(Abs(a) % Abs(b))
  }

  /** The quotient is the exact quotient of the magnitudes, with the sign
      of the product of the operands: division truncates toward zero. */
  lemma CDivTruncates(a: int, b: int)
    requires b != 0
    ensures Abs(CDiv(a, b)) == Abs(a) / Abs(b)
    ensures (a < 0) == (b < 0) ==> CDiv(a, b) >= 0
    ensures (a < 0) != (b < 0) ==> CDiv(a, b) <= 0
    ensures a >= 0 && b > 0 ==> CDiv(a, b) == a / b
  {
    var q := Abs(a) / Abs(b);
    DivNonNeg(Abs(a), Abs(b));
    assert CDiv(a, b) == q || CDiv(a, b) == -q;
  }

  lemma DivNonNeg(n: nat, d: nat)
    requires d > 0
    ensures n / d >= 0
  {
  }

  /** The remainder is smaller in magnitude than the divisor and never has
      the opposite sign of the dividend. */
  lemma CRemBounds(a: int, b: int)
    requires b != 0
    ensures Abs(CRem(a, b)) < Abs(b)
    ensures a >= 0 ==> CRem(a, b) >= 0
    ensures a <= 0 ==> CRem(a, b) <= 0
  {
  }

  /** The identity C99 guarantees between `/` and `%`. */
  lemma CDivRem(a: int, b: int)
    requires b != 0
    ensures a == b * CDiv(a, b) + CRem(a, b)
  {
    var q, r := Abs(a) / Abs(b), Abs(a) % Abs(b);
    assert Abs(a) == Abs(b) * q + r;
    if a >= 0 && b > 0 {
      assert CDiv(a, b) == q && CRem(a, b) == r;
    } else if a >= 0 {
      assert CDiv(a, b) == -q && CRem(a, b) == r;
      NegMul(b, q);
    } else if b > 0 {
      assert CDiv(a, b) == -q && CRem(a, b) == -r;
      NegMul(b, q);
    } else {
      assert CDiv(a, b) == q && CRem(a, b) == -r;
      NegMul(b, q);
    }
  }

  lemma NegMul(b: int, q: int)
    ensures b * -q == -(b * q) == -b * q
  {
  }

  const LONG_MODULUS: int := 0x1_0000_0000_0000_0000
  const LONG_MIN: int := -0x8000_0000_0000_0000
  const LONG_MAX: int := 0x7FFF_FFFF_FFFF_FFFF

  /** The 64-bit two's-complement pattern of a `long`. */
  function LongBits(x: int): bv64
  {
    (x % LONG_MODULUS) as bv64
  }

  /** The `long` whose two's-complement pattern is `v`. */
  function LongOfBits(v: bv64): (x: int)
    ensures LONG_MIN <= x <= LONG_MAX
  {
    if v as int <= LONG_MAX then v as int else v as int - LONG_MODULUS
  }

  /** C's `^` on two `long` operands. */
  function Xor(a: int, b: int): (r: int)
    ensures LONG_MIN <= r <= LONG_MAX
  {
    LongOfBits(LongBits(a) ^ LongBits(b))
  }

  /** The number of i in [lo, hi) with P(i). */
  function Count(P: int -> bool, lo: int, hi: int): (n: nat)
    ensures lo <= hi ==> n <= hi - lo
    decreases hi - lo
  {
    if hi <= lo then 0 else Count(P, lo, hi - 1) + (if P(hi - 1) then 1 else 0)
  }

  /** A count reaches the length of its range exactly when P holds
      everywhere in it; this is how the fade routines' `num_... >= 765`
      test means "every byte". */
  lemma {:induction false} CountAll(P: int -> bool, lo: int, hi: int)
    requires lo <= hi
    ensures Count(P, lo, hi) >= hi - lo <==> forall i :: lo <= i < hi ==> P(i)
    decreases hi - lo
  {
    if hi > lo {
      CountAll(P, lo, hi - 1);
      if !P(hi - 1) {
        assert Count(P, lo, hi) == Count(P, lo, hi - 1) < hi - lo;
      }
    }
  }
}
