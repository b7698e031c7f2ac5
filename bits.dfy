/**
 * C's bitwise `&` and `|` on non-negative integers, defined bit by bit from the
 * lowest, and the facts the sources rely on: a low mask `2^k - 1` keeps the
 * remainder modulo `2^k`, `|` with a value below `2^k` adds it to a multiple of
 * `2^k`, and `IS_POWER_OF_TWO`.
 */
module Bits {
  import opened CInt

  function BitAnd(a: nat, b: nat): (r: nat)
    ensures r <= a && r <= b
  {
    if a == 0 || b == 0 then 0
    else 2 * BitAnd(a / 2, b / 2) + (if a % 2 == 1 && b % 2 == 1 then 1 else 0)
  }

  function BitOr(a: nat, b: nat): (r: nat)
    ensures a <= r <= a + b && b <= r
  {
    if a == 0 then b
    else if b == 0 then a
    else 2 * BitOr(a / 2, b / 2) + (if a % 2 == 1 || b % 2 == 1 then 1 else 0)
  }

  /** Division with remainder has one answer. */
  lemma DivModUnique(x: int, d: int, q: int, r: int)
    requires 0 <= r < d && x == q * d + r
    ensures x / d == q && x % d == r
  {
    var q', r' := x / d, x % d;
    assert x == q' * d + r' && 0 <= r' < d;
    assert (q - q') * d == r' - r by {
      assert q * d - q' * d == (q - q') * d;
    }
    if q > q' {
      MulAtLeast(q - q', d);
    } else if q < q' {
      MulAtLeast(q' - q, d);
    }
  }

  lemma MulAtLeast(a: int, d: int)
    requires a >= 1 && d > 0
    ensures a * d >= d
  {
    assert a * d == (a - 1) * d + d;
  }

  lemma ModHalf(x: nat, d: nat)
    requires d > 0
    ensures x % (2 * d) == 2 * ((x / 2) % d) + x % 2
  {
    var q, b := x / 2, x % 2;
    var t, s := q / d, q % d;
    assert x == (2 * d) * t + (2 * s + b);
    DivModUnique(x, 2 * d, t, 2 * s + b);
  }

  /** `x & (2^k - 1)` is `x % 2^k`. */
  lemma {:induction false} AndLowMask(x: nat, k: nat)
    ensures BitAnd(x, Pow2(k) - 1) == x % Pow2(k)
  {
    if k == 0 {
      assert Pow2(0) == 1;
    } else {
      var h := Pow2(k - 1);
      assert Pow2(k) == 2 * h;
      AndLowMask(x / 2, k - 1);
      AndMaskStep(x, h - 1);
    }
  }

  /** One bit more of mask: from `(x / 2) & half` to `x & (2 * half + 1)`. */
  lemma AndMaskStep(x: nat, half: nat)
    requires BitAnd(x / 2, half) == (x / 2) % (half + 1)
    ensures BitAnd(x, 2 * half + 1) == x % (2 * (half + 1))
  {
    var m := 2 * half + 1;
    var a := BitAnd(x, m);
    assert a == 2 * ((x / 2) % (half + 1)) + x % 2 by {
      AndOdd(x, m, half);
    }
    LowBitOnTop(x, half + 1, a);
  }

  /** A value made of the low bit of `x` and, above it, `(x / 2) % h` is `x % 2h`. */
  lemma LowBitOnTop(x: nat, h: nat, a: int)
    requires h > 0 && a == 2 * ((x / 2) % h) + x % 2
    ensures a == x % (2 * h)
  {
    ModHalf(x, h);
  }

  /** `x & m` for an odd `m = 2 * half + 1`: the low bit of `x`, and above it
      `(x / 2) & half`. */
  lemma AndOdd(x: nat, m: nat, half: nat)
    requires m == 2 * half + 1
    ensures BitAnd(x, m) == 2 * BitAnd(x / 2, half) + x % 2
  {
    assert m / 2 == half && m % 2 == 1;
  }

  /** `(a << k) | b` is `a * 2^k + b` when `b` fits in the low `k` bits. */
  lemma {:induction false} OrShifted(a: nat, k: nat, b: nat)
    requires b < Pow2(k)
    ensures BitOr(a * Pow2(k), b) == a * Pow2(k) + b
  {
    if k > 0 && a > 0 && b > 0 {
      var hi := a * Pow2(k - 1);
      assert a * Pow2(k) == 2 * hi;
      OrShifted(a, k - 1, b / 2);
      assert (2 * hi) / 2 == hi && (2 * hi) % 2 == 0;
    }
  }

  lemma {:induction false} AndSelf(x: nat)
    ensures BitAnd(x, x) == x
  {
    if x > 0 {
      AndSelf(x / 2);
    }
  }

  /** C's `x >> s` on a non-negative integer. */
  function Shr(x: nat, s: nat): nat {
    DivBounds(x, Pow2(s));
    x / Pow2(s)
  }

  /** The exponent of the highest power of two not above `x`. */
  function Log2(x: nat): nat {
    if x <= 1 then 0 else 1 + Log2(x / 2)
  }

  /** `IS_POWER_OF_TWO(x)`: `x & (x - 1)` is 0. For 0, `x - 1` is -1, all bits
      set, and the test holds as well. */
  predicate IsPowerOfTwo(x: nat) {
    x == 0 || BitAnd(x, x - 1) == 0
  }

  lemma {:induction false} PowerOfTwoIff(x: nat)
    ensures IsPowerOfTwo(x) <==> x == 0 || x == Pow2(Log2(x))
  {
    if x > 0 {
      if x == Pow2(Log2(x)) {
        AndLowMask(x, Log2(x));
        assert x % x == 0;
      } else if BitAnd(x, x - 1) == 0 {
        PowerOfTwoHalf(x);
      }
    }
  }

  lemma {:induction false} Log2OfPow2(k: nat)
    ensures Log2(Pow2(k)) == k
  {
    if k > 0 {
      Log2OfPow2(k - 1);
      assert Pow2(k) / 2 == Pow2(k - 1);
    }
  }

  /** Every power of two passes `IS_POWER_OF_TWO`. */
  lemma PowerOfTwoPow2(k: nat)
    ensures IsPowerOfTwo(Pow2(k))
  {
    Log2OfPow2(k);
    PowerOfTwoIff(Pow2(k));
  }

  lemma {:induction false} PowerOfTwoHalf(x: nat)
    requires x > 0 && BitAnd(x, x - 1) == 0
    ensures x == Pow2(Log2(x))
  {
    if x > 1 {
      var y := x / 2;
      if x % 2 == 0 {
        assert BitAnd(x, x - 1) == 2 * BitAnd(y, y - 1);
        PowerOfTwoHalf(y);
      } else {
        assert BitAnd(x, x - 1) == 2 * BitAnd(y, y);
        AndSelf(y);
        assert false;
      }
    }
  }

  /** The powers of two the sources write as shifts and masks. */
  lemma Pow2Facts()
    ensures Pow2(8) == 256 && Pow2(12) == 4096 && Pow2(16) == 0x1_0000 && Pow2(24) == 0x100_0000 && Pow2(32) == U32_MOD
  {
    Pow2Add(8, 8);
    Pow2Add(16, 8);
    Pow2Add(24, 8);
  }

  /** Dividing by `a * b` is dividing by `a`, then by `b`. */
  lemma DivDiv(x: nat, a: nat, b: nat)
    requires a > 0 && b > 0
    ensures x / (a * b) == (x / a) / b
  {
    var q1, r1 := x / a, x % a;
    var q2, r2 := q1 / b, q1 % b;
    Regroup(x, a, b, q1, r1, q2, r2);
    DivModUnique(x, a * b, q2, a * r2 + r1);
  }

  lemma Regroup(x: int, a: int, b: int, q1: int, r1: int, q2: int, r2: int)
    requires a > 0 && x == a * q1 + r1 && 0 <= r1 < a
    requires q1 == b * q2 + r2 && 0 <= r2 < b
    ensures x == q2 * (a * b) + (a * r2 + r1) && 0 <= a * r2 + r1 < a * b
  {
    assert a * q1 == a * (b * q2) + a * r2;
    assert a * r2 <= a * (b - 1) by {
      assert a * (b - 1) - a * r2 == a * (b - 1 - r2);
    }
  }

  /** Adding a multiple of `m` keeps the remainder modulo `m`. */
  lemma ModAddMultiple(x: int, t: int, m: int)
    requires m > 0
    ensures (x + m * t) % m == x % m
  {
    DivModUnique(x + m * t, m, x / m + t, x % m);
  }

  /** Division by a positive number is monotone. */
  lemma DivMonotone(x: nat, y: nat, d: nat)
    requires x <= y && d > 0
    ensures x / d <= y / d
  {
    if x / d > y / d {
      MulAtLeast(x / d - y / d, d);
      assert false;
    }
  }

  /** A product divided by one factor is the other. */
  lemma DivOfMul(a: nat, d: nat)
    requires d > 0
    ensures (a * d) / d == a
  {
    DivModUnique(a * d, d, a, 0);
  }
}
