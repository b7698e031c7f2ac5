/**
 * Fixed-width C integer arithmetic written out over Dafny's unbounded integers:
 * unsigned wrap-around, the two's-complement reading of an unsigned value,
 * C's truncating division and shifts by powers of two.
 */
module CInt {
  const U8_MOD: int := 0x100
  const U16_MOD: int := 0x1_0000
  const U32_MOD: int := 0x1_0000_0000
  const U64_MOD: int := 0x1_0000_0000_0000_0000
  const INT16_MAX: int := 0x7FFF
  const INT32_MIN: int := -0x8000_0000
  const INT32_MAX: int := 0x7FFF_FFFF
  /** USHRT_MAX */
  const USHRT_MAX: int := 0xFFFF
  /** UINT_MAX */
  const UINT_MAX: int := 0xFFFF_FFFF

  predicate IsU8(x: int) { 0 <= x < U8_MOD }
  predicate IsU16(x: int) { 0 <= x < U16_MOD }
  predicate IsU32(x: int) { 0 <= x < U32_MOD }
  predicate IsS16(x: int) { -0x8000 <= x <= INT16_MAX }
  predicate IsS32(x: int) { INT32_MIN <= x <= INT32_MAX }

  /** Conversion to `uint32_t`: the unique value in range congruent to `x` modulo 2^32. */
  function U32(x: int): (r: int)
    ensures IsU32(r)
    ensures IsU32(x) ==> r == x
  {
    x % U32_MOD
  }

  /** Conversion to `unsigned char`. */
  function U8(x: int): (r: int)
    ensures IsU8(r)
    ensures (x - r) % U8_MOD == 0
    ensures IsU8(x) ==> r == x
  {
    x % U8_MOD
  }

  /** Conversion to `uint16_t`. */
  function U16(x: int): (r: int)
    ensures IsU16(r)
    ensures (x - r) % U16_MOD == 0
    ensures IsU16(x) ==> r == x
  {
    x % U16_MOD
  }

  /** Conversion to `size_t` on a 64-bit target. */
  function SizeT(x: int): (r: int)
    ensures 0 <= r < U64_MOD
    ensures (x - r) % U64_MOD == 0
    ensures 0 <= x < U64_MOD ==> r == x
  {
    x % U64_MOD
  }

  /** Reading an `unsigned` value as `int` (two's complement). */
  function S32OfU32(u: int): (r: int)
    requires IsU32(u)
    ensures IsS32(r)
    ensures U32(r) == u
  {
    if u <= INT32_MAX then u else u - U32_MOD
  }

  /** An `int` passed through `unsigned` and back is unchanged. */
  lemma S32ThroughU32(v: int)
    requires IsS32(v)
    ensures S32OfU32(U32(v)) == v
  {
    if v < 0 {
      assert U32(v) == v + U32_MOD;
    }
  }

  function Abs(x: int): (r: nat)
    ensures r == x || r == -x
  {
    if x < 0 then -x else x
  }

  /**
   * C's `/` on signed integers: the quotient is truncated toward zero, so its
   * magnitude is the floor of the magnitudes and its sign is the product of the signs.
   */
  function CDiv(a: int, b: int): (q: int)
    requires b != 0
    ensures Abs(q) == Abs(a) / Abs(b)
    ensures q == 0 || ((q > 0) <==> ((a > 0) == (b > 0)))
  {
    var m := Abs(a) / Abs(b);
    DivBounds(Abs(a), Abs(b));
    if (a < 0) != (b < 0) then -m else m
  }

  lemma DivBounds(x: nat, y: nat)
    requires y > 0
    ensures 0 <= x / y <= x
    ensures x / y > 0 ==> x >= y
  {
    var q, r := x / y, x % y;
    assert x == q * y + r && 0 <= r;
    if q > 0 {
      assert q * y >= 1 * y;
      assert q * y >= q * 1;
    }
  }

  function Pow2(k: nat): (r: nat)
    ensures r >= 1
  {
    if k == 0 then 1 else 2 * Pow2(k - 1)
  }

  lemma {:induction false} Pow2Add(a: nat, b: nat)
    ensures Pow2(a + b) == Pow2(a) * Pow2(b)
  {
    if a > 0 {
      Pow2Add(a - 1, b);
    }
  }

  lemma {:induction false} Pow2Monotone(a: nat, b: nat)
    requires a <= b
    ensures Pow2(a) <= Pow2(b)
  {
    if a < b {
      Pow2Monotone(a, b - 1);
    }
  }
}

/** The Linux error numbers the sources return. */
module Errno {
  const ENOMEM: int := 12
  const ENODEV: int := 19
  const EINVAL: int := 22
}
