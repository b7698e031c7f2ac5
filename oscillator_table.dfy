/**
 * `oscillator_table_render` of oscillator-table.c: integer wavetable playback.
 * Each frame's table index is `frame * tbl_len / wave_len`, computed a byte at a
 * time in 32-bit registers; with interpolation on, the sample moves towards the
 * next table entry by the remainder; then it is scaled by the volume fraction and
 * written once per channel.
 */
module OscillatorTable {
  import opened CInt
  import opened Bits

  /** The largest `wave_len` for which `(r_reg << 8) + f_reg % wave_len` cannot
      wrap: 257 * (16711936 - 1) is 2^32 - 1. */
  const EXACT_WAVE_LEN_MAX: int := 16711936

  /** `p` and `r_reg` of the byte-chunk division. */
  datatype Registers = Registers(p: int, r: int)

  /** One pass of the inner loop with 32-bit registers. */
  function DivStep(reg: Registers, f: nat, tblLen: nat, waveLen: nat): (next: Registers)
    requires waveLen > 0
    ensures IsU32(next.p) && 0 <= next.r < waveLen
  {
    var fReg := U32(f * tblLen);
    var r1 := U32(U32(reg.r * 256) + fReg % waveLen);
    var p1 := U32(U32(reg.p * 256) + fReg / waveLen + r1 / waveLen);
    Registers(p1, r1 % waveLen)
  }

  /** The bytes of `frame` from the highest: `(frame >> shift) & 0xFF` for
      shift 24, 16, 8 and 0. */
  function FrameBytes(frame: nat): (bs: seq<nat>)
    ensures |bs| == 4 && forall i :: 0 <= i < 4 ==> bs[i] < 256
  {
    [(frame / 0x100_0000) % 256, (frame / 0x1_0000) % 256, (frame / 0x100) % 256, frame % 256]
  }

  /** The number the bytes `bs` spell, the highest first. */
  function BytesValue(bs: seq<nat>): nat {
    if bs == [] then 0 else BytesValue(bs[..|bs| - 1]) * 256 + bs[|bs| - 1]
  }

  /** The registers after one pass per byte of `bs`. */
  function Passes(bs: seq<nat>, tblLen: nat, waveLen: nat): Registers
    requires waveLen > 0
  {
    if bs == [] then Registers(0, 0)
    else DivStep(Passes(bs[..|bs| - 1], tblLen, waveLen), bs[|bs| - 1], tblLen, waveLen)
  }

  /** The four passes over the bytes of `frame`. */
  function LongDivision(frame: nat, tblLen: nat, waveLen: nat): Registers
    requires waveLen > 0
  {
    Passes(FrameBytes(frame), tblLen, waveLen)
  }

  /** Without wrap-around, one pass appends one byte to the exact quotient and remainder. */
  lemma DivStepExact(x: nat, f: nat, tblLen: nat, waveLen: nat)
    requires f < 256 && tblLen < 0x100_0000 && 0 < waveLen <= EXACT_WAVE_LEN_MAX
    ensures DivStep(Registers(U32(x / waveLen), x % waveLen), f, tblLen, waveLen)
      == Registers(U32((x * 256 + f * tblLen) / waveLen), (x * 256 + f * tblLen) % waveLen)
  {
    var fReg := f * tblLen;
    var q, r := x / waveLen, x % waveLen;
    PassOperandBounds(x, f, tblLen, waveLen);
    var r1 := r * 256 + fReg % waveLen;
    StepQuotient(x, fReg, waveLen);
    var y := x * 256 + fReg;
    StepGlue(q, r, f, tblLen, waveLen, fReg, r1, fReg / waveLen + r1 / waveLen, y / waveLen, y % waveLen);
  }

  /** Without wrap-around, the product register and the remainder register hold
      their exact values. */
  lemma PassOperandBounds(x: nat, f: nat, tblLen: nat, waveLen: nat)
    requires f < 256 && tblLen < 0x100_0000 && 0 < waveLen <= EXACT_WAVE_LEN_MAX
    ensures 0 <= f * tblLen < U32_MOD
    ensures 0 <= (x % waveLen) * 256 && (x % waveLen) * 256 + (f * tblLen) % waveLen < U32_MOD
  {
    ProductBound(f, tblLen);
    RemainderBound(x % waveLen, (f * tblLen) % waveLen, waveLen);
  }

  lemma ProductBound(f: nat, tblLen: nat)
    requires f < 256 && tblLen < 0x100_0000
    ensures 0 <= f * tblLen < U32_MOD
  {
    MulLe(f, 255, tblLen);
  }

  lemma RemainderBound(r: int, fr: int, waveLen: nat)
    requires 0 <= r < waveLen && 0 <= fr < waveLen <= EXACT_WAVE_LEN_MAX
    ensures 0 <= r * 256 && r * 256 + fr < U32_MOD
  {
  }

  /** The registers of one pass, given the exact values of its parts. */
  lemma StepGlue(q: int, r: int, f: nat, tblLen: nat, waveLen: nat, fReg: int, r1: int, add: int, yq: int, yr: int)
    requires waveLen > 0 && IsU32(r * 256)
    requires fReg == U32(f * tblLen) && r1 == U32(r * 256 + fReg % waveLen)
    requires add == fReg / waveLen + r1 / waveLen
    requires yq == 256 * q + add && yr == r1 % waveLen
    ensures DivStep(Registers(U32(q), r), f, tblLen, waveLen) == Registers(U32(yq), yr)
  {
    WrappedQuotient(q, add);
    DivStepOf(U32(q), r, f, tblLen, waveLen, fReg, r1, U32(yq));
  }

  lemma MulLe(a: nat, b: nat, c: nat)
    requires a <= b
    ensures a * c <= b * c
  {
  }

  /** The exact quotient and remainder after appending a byte to the dividend. */
  lemma StepQuotient(x: nat, fReg: int, waveLen: nat)
    requires waveLen > 0
    ensures var r1 := (x % waveLen) * 256 + fReg % waveLen;
      (x * 256 + fReg) / waveLen == 256 * (x / waveLen) + fReg / waveLen + r1 / waveLen &&
      (x * 256 + fReg) % waveLen == r1 % waveLen
  {
    var q, r := x / waveLen, x % waveLen;
    var r1 := r * 256 + fReg % waveLen;
    var quot := 256 * q + fReg / waveLen + r1 / waveLen;
    assert x * 256 + fReg == waveLen * quot + r1 % waveLen by {
      assert x == waveLen * q + r;
      assert fReg == waveLen * (fReg / waveLen) + fReg % waveLen;
      assert r1 == waveLen * (r1 / waveLen) + r1 % waveLen;
    }
    DivModUnique(x * 256 + fReg, waveLen, quot, r1 % waveLen);
  }

  /** Shifting the 32-bit register left by a byte and adding loses only
      multiples of 2^32. */
  lemma WrappedQuotient(q: int, add: int)
    ensures U32(U32(U32(q) * 256) + add) == U32(256 * q + add)
  {
    var k := 0 - (q / U32_MOD) * 256 - (U32(q) * 256) / U32_MOD;
    assert U32(U32(q) * 256) + add == 256 * q + add + U32_MOD * k by {
      assert q == U32_MOD * (q / U32_MOD) + U32(q);
      assert U32(q) * 256 == U32_MOD * ((U32(q) * 256) / U32_MOD) + U32(U32(q) * 256);
    }
    ModAddMultiple(256 * q + add, k, U32_MOD);
  }

  /** The registers holding the quotient (modulo 2^32) and remainder of
      `v * tblLen` by `waveLen`. */
  function Exact(v: nat, tblLen: nat, waveLen: nat): Registers
    requires waveLen > 0
  {
    Registers(U32(v * tblLen / waveLen), v * tblLen % waveLen)
  }

  /** Passes over bytes leave the exact quotient and remainder of their value
      times `tblLen` by `waveLen`. */
  lemma {:induction false} PassesExact(bs: seq<nat>, tblLen: nat, waveLen: nat)
    requires forall i :: 0 <= i < |bs| ==> bs[i] < 256
    requires tblLen < 0x100_0000 && 0 < waveLen <= EXACT_WAVE_LEN_MAX
    ensures Passes(bs, tblLen, waveLen) == Exact(BytesValue(bs), tblLen, waveLen)
  {
    if bs == [] {
      NoPasses(tblLen, waveLen);
    } else {
      var front := bs[..|bs| - 1];
      assert forall i :: 0 <= i < |front| ==> front[i] < 256;
      PassesExact(front, tblLen, waveLen);
      PassesStep(bs, tblLen, waveLen);
    }
  }

  lemma NoPasses(tblLen: nat, waveLen: nat)
    requires waveLen > 0
    ensures Passes([], tblLen, waveLen) == Exact(BytesValue([]), tblLen, waveLen)
  {
  }

  lemma PassesStep(bs: seq<nat>, tblLen: nat, waveLen: nat)
    requires bs != [] && bs[|bs| - 1] < 256
    requires tblLen < 0x100_0000 && 0 < waveLen <= EXACT_WAVE_LEN_MAX
    requires Passes(bs[..|bs| - 1], tblLen, waveLen) == Exact(BytesValue(bs[..|bs| - 1]), tblLen, waveLen)
    ensures Passes(bs, tblLen, waveLen) == Exact(BytesValue(bs), tblLen, waveLen)
  {
    var front := bs[..|bs| - 1];
    PassExact(Passes(front, tblLen, waveLen), BytesValue(front), bs[|bs| - 1], BytesValue(bs), tblLen, waveLen);
  }

  /** The four bytes of a 32-bit frame spell the frame. */
  lemma FrameBytesValue(frame: nat)
    requires frame < U32_MOD
    ensures BytesValue(FrameBytes(frame)) == frame
  {
    var bs := FrameBytes(frame);
    assert bs[..1][..0] == [] && bs[..2][..1] == bs[..1] && bs[..3][..2] == bs[..2] && bs[..3] == bs[..|bs| - 1];
    DivDiv(frame, 0x1_0000, 0x100);
    DivDiv(frame, 0x100, 0x100);
    DivDiv(frame, 1, 0x100);
    assert BytesValue(bs[..1]) == frame / 0x100_0000;
    assert BytesValue(bs[..2]) == frame / 0x1_0000;
    assert BytesValue(bs[..3]) == frame / 0x100;
  }

  lemma PassExact(reg: Registers, prev: nat, f: nat, cur: nat, tblLen: nat, waveLen: nat)
    requires f < 256 && tblLen < 0x100_0000 && 0 < waveLen <= EXACT_WAVE_LEN_MAX
    requires reg == Registers(U32(prev * tblLen / waveLen), prev * tblLen % waveLen)
    requires cur == prev * 256 + f
    ensures DivStep(reg, f, tblLen, waveLen) == Registers(U32(cur * tblLen / waveLen), cur * tblLen % waveLen)
  {
    AppendByteProduct(prev, f, cur, tblLen);
    DivStepExact(prev * tblLen, f, tblLen, waveLen);
  }

  lemma AppendByteProduct(prev: nat, f: nat, cur: nat, tblLen: nat)
    requires cur == prev * 256 + f
    ensures (prev * tblLen) * 256 + f * tblLen == cur * tblLen
  {
  }

  /**
   * The CHECK_MATH identity: whenever `(r_reg << 8) + f_reg % wave_len` cannot
   * wrap, the 32-bit byte-chunk division computes the same `p` as the 64-bit
   * `(frame * tbl_len) / wave_len` truncated to 32 bits, and its remainder.
   */
  lemma CheckMathIdentity(frame: nat, tblLen: nat, waveLen: nat)
    requires frame < U32_MOD && tblLen < 0x100_0000 && 0 < waveLen <= EXACT_WAVE_LEN_MAX
    ensures LongDivision(frame, tblLen, waveLen) == Registers(U32(frame * tblLen / waveLen), frame * tblLen % waveLen)
  {
    FrameBytesValue(frame);
    PassesExact(FrameBytes(frame), tblLen, waveLen);
  }

  /** Past EXACT_WAVE_LEN_MAX the division wraps: for frame 3370692887, tbl_len
      65536 and wave_len 16769547 (below 2^24) the 32-bit passes give 13107224
      where the 64-bit quotient is 13172790. */
  lemma CheckMathWraps()
    ensures LongDivision(3370692887, 65536, 16769547).p == 13107224
    ensures U32(3370692887 * 65536 / 16769547) == 13172790
  {
    var bs := FrameBytes(3370692887);
    WrapBytes();
    assert bs[..1] == [200] && bs[..2] == [200, 232] && bs[..3] == [200, 232, 177];
    assert bs[..1][..0] == [] && bs[..2][..1] == bs[..1] && bs[..3][..2] == bs[..2] && bs[..|bs| - 1] == bs[..3];
    WrapPass1();
    WrapPass2();
    WrapPass3();
    WrapPass4();
    assert Passes(bs[..1], 65536, 16769547) == Registers(0, 13107200);
    assert Passes(bs[..2], 65536, 16769547) == Registers(200, 16738152);
    assert Passes(bs[..3], 65536, 16769547) == Registers(51200, 1599488);
  }

  lemma WrapBytes()
    ensures FrameBytes(3370692887) == [200, 232, 177, 23]
  {
  }

  lemma WrapPass1()
    ensures DivStep(Registers(0, 0), 200, 65536, 16769547) == Registers(0, 13107200)
  {
  }

  lemma WrapPass2()
    ensures DivStep(Registers(0, 13107200), 232, 65536, 16769547) == Registers(200, 16738152)
  {
  }

  lemma WrapPass3()
    ensures DivStep(Registers(200, 16738152), 177, 65536, 16769547) == Registers(51200, 1599488)
  {
  }

  lemma WrapPass4()
    ensures DivStep(Registers(51200, 1599488), 23, 65536, 16769547) == Registers(13107224, 8507128)
  {
  }

  /** The same wrap at the level of a table: a 16-sample table played with scale
      (4094, 523, 4095, 12) passes the asserts of lines 83-85, yet at frame
      3370692887 the 32-bit passes pick sample 8 where the CHECK_MATH reference
      picks sample 6. */
  lemma CheckMathFails(data: seq<int>)
    requires |data| == 16 && forall i :: 0 <= i < 16 ==> IsS16(data[i])
    ensures var t, s := DeclareTable("table", data), WaveScale(4094, 523, 4095, 12);
      RenderDefined(t, s) && FramesAsserted(t, s) && ScaleNormal(s)
      && PhaseIndex(t, s, 3370692887) == 8
      && BitAnd(U32(3370692887 * TblLen(t, s) / WaveLen(t, s)), t.mask) == 6
  {
    var t, s := DeclareTable("table", data), WaveScale(4094, 523, 4095, 12);
    assert BitAnd(16, 15) == 0;
    Pow2Facts();
    WaveLenNormal(t, s);
    assert TblLen(t, s) == 65536 && WaveLen(t, s) == 16769547;
    CheckMathWraps();
    MaskIsModulo(t, 13172790);
  }

  /** One more shift halves the quotient. */
  lemma ShiftOnce(r: nat, w: nat)
    ensures Shr(r, w + 1) == Shr(r, w) / 2
  {
    DivDiv(r, Pow2(w), 2);
  }

  /** The `water` loop from `w`: the first shift at or after `w` that brings `r`
      down to at most 0x7FFF. */
  function WaterFrom(r: nat, w: nat): (water: nat)
    ensures water >= w && Shr(r, water) <= 0x7FFF
    ensures water > w ==> Shr(r, water - 1) > 0x7FFF
    decreases Shr(r, w)
  {
    if Shr(r, w) > 0x7FFF then
      ShiftOnce(r, w);
      WaterFrom(r, w + 1)
    else w
  }

  /** The `water` loop, started at 4. */
  function Water(r: nat): nat {
    WaterFrom(r, 4)
  }

  /** With `wave_len >= 16`, the watered-down `wave_len` is never 0, and it is at
      least the watered-down `r_reg`. */
  lemma WaterDivisor(r: nat, waveLen: nat)
    requires r < waveLen && waveLen >= 16
    ensures 0 < Shr(waveLen, Water(r))
    ensures Shr(r, Water(r)) <= Shr(waveLen, Water(r))
  {
    var w := Water(r);
    DivMonotone(r, waveLen, Pow2(w));
    if w == 4 {
      Pow2Facts();
      assert Pow2(4) == 16;
    } else {
      DivMonotone(r, waveLen, Pow2(w - 1));
      ShiftOnce(waveLen, w - 1);
    }
  }

  /**
   * Line 114's interpolation between `a` and `b`, `r_reg / wave_len` of the way,
   * after both are shifted right by `water`. C's `/` truncates toward zero.
   */
  function Interpolate(a: int, b: int, r: nat, waveLen: nat): int
    requires r < waveLen && waveLen >= 16
  {
    var w := Water(r);
    WaterDivisor(r, waveLen);
    a + CDiv((b - a) * Shr(r, w), Shr(waveLen, w))
  }

  /** `d * x / y` truncated, for `0 <= x <= y`, lies between 0 and `d`. */
  lemma ScaledBetween(d: int, x: nat, y: nat)
    requires 0 < y && x <= y
    ensures Abs(CDiv(d * x, y)) <= Abs(d)
    ensures d >= 0 ==> CDiv(d * x, y) >= 0
    ensures d <= 0 ==> CDiv(d * x, y) <= 0
  {
    MulFacts(d, x, y);
    DivMonotone(Abs(d) * x, Abs(d) * y, y);
    DivOfMul(Abs(d), y);
  }

  lemma MulFacts(d: int, x: nat, y: nat)
    requires x <= y
    ensures Abs(d * x) == Abs(d) * x <= Abs(d) * y
    ensures d >= 0 ==> d * x >= 0
    ensures d <= 0 ==> d * x <= 0
  {
    if d < 0 {
      assert d * x == -(Abs(d) * x);
    }
  }

  /** The interpolated value lies between `a` and `b` (the asserts at lines
      115-118), so it fits `int16_t`; the product before the division fits `int32_t`. */
  lemma InterpolateBetween(a: int, b: int, r: nat, waveLen: nat)
    requires IsS16(a) && IsS16(b) && r < waveLen && waveLen >= 16
    ensures IsS32((b - a) * Shr(r, Water(r)))
    ensures a < b ==> a <= Interpolate(a, b, r, waveLen) <= b
    ensures a >= b ==> b <= Interpolate(a, b, r, waveLen) <= a
  {
    var w := Water(r);
    WaterDivisor(r, waveLen);
    StepBetween(a, b, Shr(r, w), Shr(waveLen, w));
  }

  /** One interpolation step `a + (b - a) * x / y` with `x <= y` stays between
      `a` and `b`. */
  lemma StepBetween(a: int, b: int, x: nat, y: nat)
    requires IsS16(a) && IsS16(b) && 0 < y && x <= y && x <= 0x7FFF
    ensures IsS32((b - a) * x)
    ensures a < b ==> a <= a + CDiv((b - a) * x, y) <= b
    ensures a >= b ==> b <= a + CDiv((b - a) * x, y) <= a
  {
    ScaledBetween(b - a, x, y);
    ProductFits(b - a, x);
  }

  lemma ProductFits(d: int, x: nat)
    requires Abs(d) <= 65535 && x <= 0x7FFF
    ensures IsS32(d * x)
  {
    MulFacts(d, x, 0x7FFF);
    assert Abs(d) * 0x7FFF <= 65535 * 0x7FFF;
  }

  /** Line 122's volume scaling: `val * vol_frac / 65535`, truncating. */
  function Volume(val: int, volFrac: int): int {
    CDiv(val * volFrac, USHRT_MAX)
  }

  /** Scaling never increases the magnitude nor changes the sign, and the full
      fraction 65535 leaves the sample as it is. */
  lemma VolumeBound(val: int, volFrac: int)
    requires IsS16(val) && IsU16(volFrac)
    ensures IsS32(val * volFrac)
    ensures Abs(Volume(val, volFrac)) <= Abs(val)
    ensures val >= 0 ==> Volume(val, volFrac) >= 0
    ensures val <= 0 ==> Volume(val, volFrac) <= 0
    ensures volFrac == USHRT_MAX ==> Volume(val, volFrac) == val
  {
    ScaledBetween(val, volFrac, USHRT_MAX);
    MulFacts(val, volFrac, USHRT_MAX);
    assert Abs(val) * USHRT_MAX <= 0x8000 * USHRT_MAX;
    if volFrac == USHRT_MAX {
      DivOfMul(Abs(val), USHRT_MAX);
    }
  }

  /** `struct wave_table`: one period of a waveform, as `int16_t` samples. */
  datatype WaveTable = WaveTable(name: string, length: int, mask: int, data: seq<int>)

  /** `struct wave_scale`: the period to play, `length + sub / sub_den` frames. */
  datatype WaveScale = WaveScale(length: int, sub: int, subDen: int, subShift: int)

  /** `DECLARE_TABLE` over a static array: `STATIC_ARRAY_SIZE` is the element
      count, stored in the `uint16_t` fields. */
  function DeclareTable(name: string, data: seq<int>): (t: WaveTable)
    ensures t.name == name && t.data == data
    ensures t.length == U16(|data|) && t.mask == U16(|data| - 1)
    ensures 0 < |data| <= 0xFFFF ==> t.length == |data| && t.mask == |data| - 1
  {
    WaveTable(name, U16(|data|), U16(|data| - 1), data)
  }

  /** What the header asks of a table: a power-of-two length, `mask = length - 1`,
      and `length` samples of `int16_t`. */
  predicate TableValid(t: WaveTable) {
    IsU16(t.length) && IsU16(t.mask) && IsPowerOfTwo(t.length) && t.mask == t.length - 1
    && |t.data| == t.length && forall i :: 0 <= i < |t.data| ==> IsS16(t.data[i])
  }

  /** A table declared over a power-of-two array of `int16_t` values is valid. */
  lemma DeclaredTableValid(name: string, data: seq<int>)
    requires 0 < |data| <= 0xFFFF && IsPowerOfTwo(|data|)
    requires forall i :: 0 <= i < |data| ==> IsS16(data[i])
    ensures TableValid(DeclareTable(name, data))
  {
  }

  /** The header's reading of `sub`: a fraction over `sub_den = 2^sub_shift - 1`. */
  predicate ScaleNormal(s: WaveScale) {
    0 <= s.subShift < 16 && s.subDen == Pow2(s.subShift) - 1 && 0 <= s.sub <= s.subDen
  }

  /** The `uint16_t` fields of a scale, and shifts `tbl->length << sub_shift`
      and `wave_scale.length << sub_shift` that C defines (no `int` overflow). */
  predicate ScaleDefined(t: WaveTable, s: WaveScale) {
    IsU16(s.length) && IsU16(s.sub) && IsU16(s.subDen) && IsU16(s.subShift)
    && s.subShift < 32 && t.length * Pow2(s.subShift) <= INT32_MAX && s.length * Pow2(s.subShift) <= INT32_MAX
  }

  /** `tbl_len`: the table length in sub-frames. */
  function TblLen(t: WaveTable, s: WaveScale): nat
    requires TableValid(t) && ScaleDefined(t, s)
  {
    U32(t.length * Pow2(s.subShift))
  }

  /** `wave_len`: the period in sub-frames, `(length << sub_shift) | sub`. */
  function WaveLen(t: WaveTable, s: WaveScale): nat
    requires TableValid(t) && ScaleDefined(t, s)
  {
    U32(BitOr(s.length * Pow2(s.subShift), s.sub))
  }

  /** For a normal scale, `|` adds the fraction below the shifted length. */
  lemma WaveLenNormal(t: WaveTable, s: WaveScale)
    requires TableValid(t) && ScaleDefined(t, s) && ScaleNormal(s)
    ensures WaveLen(t, s) == s.length * Pow2(s.subShift) + s.sub
  {
    OrShifted(s.length, s.subShift, s.sub);
  }

  /** Interpolation stays on unless the table is more than four times the period. */
  predicate Interpolates(tblLen: nat, waveLen: nat)
    requires waveLen > 0
  {
    !(tblLen / waveLen > 4)
  }

  /** Everything `oscillator_table_render` needs before its loop: a valid table,
      a defined scale, and a nonzero `wave_len` to divide by. */
  predicate RenderDefined(t: WaveTable, s: WaveScale) {
    TableValid(t) && ScaleDefined(t, s) && WaveLen(t, s) > 0
  }

  /** The asserts at the top of each frame: `mask < 2^16`, and `wave_len` and
      `tbl_len` below 2^24. */
  predicate FramesAsserted(t: WaveTable, s: WaveScale)
    requires RenderDefined(t, s)
  {
    t.mask < 0x1_0000 && WaveLen(t, s) < 0x100_0000 && TblLen(t, s) < 0x100_0000
  }

  /** For a valid table, `p & mask` is `p % length`. */
  lemma MaskIsModulo(t: WaveTable, p: nat)
    requires TableValid(t)
    ensures BitAnd(p, t.mask) == p % t.length
  {
    PowerOfTwoIff(t.length);
    AndLowMask(p, Log2(t.length));
  }

  /** The table index of `frame`: line 97's `p &= tbl->mask`. */
  function PhaseIndex(t: WaveTable, s: WaveScale, frame: nat): (p: nat)
    requires RenderDefined(t, s)
    ensures p < t.length
  {
    LongDivision(frame, TblLen(t, s), WaveLen(t, s)).p % t.length
  }

  /** The CHECK_MATH check of lines 98-101 holds whenever `wave_len` is at most
      EXACT_WAVE_LEN_MAX: `p` equals `((uint64_t)frame * tbl_len / wave_len) & mask`. */
  lemma CheckMathIndex(t: WaveTable, s: WaveScale, frame: nat)
    requires RenderDefined(t, s) && FramesAsserted(t, s) && frame < U32_MOD
    requires WaveLen(t, s) <= EXACT_WAVE_LEN_MAX
    ensures PhaseIndex(t, s, frame) == BitAnd(U32(frame * TblLen(t, s) / WaveLen(t, s)), t.mask)
  {
    CheckMathIdentity(frame, TblLen(t, s), WaveLen(t, s));
    MaskIsModulo(t, U32(frame * TblLen(t, s) / WaveLen(t, s)));
  }

  /** With interpolation on, line 114 divides by `wave_len >> water`, which is
      nonzero only when `wave_len >= 16`. */
  predicate Divisible(t: WaveTable, s: WaveScale)
    requires RenderDefined(t, s)
  {
    Interpolates(TblLen(t, s), WaveLen(t, s)) ==> WaveLen(t, s) >= 16
  }

  /** The index of the second interpolation sample wrapped into the table,
      `(p + 1) & mask`: the next sample, or the first one after the last. */
  function NextIndex(t: WaveTable, p: nat): (q: nat)
    requires TableValid(t) && p < t.length
    ensures q < t.length
    ensures p < t.mask ==> q == p + 1
    ensures p == t.mask ==> q == 0
  {
    MaskIsModulo(t, p + 1);
    NextModulo(p, t.length);
    BitAnd(p + 1, t.mask)
  }

  lemma NextModulo(p: nat, len: nat)
    requires p < len
    ensures p + 1 < len ==> (p + 1) % len == p + 1
    ensures p + 1 == len ==> (p + 1) % len == 0
  {
  }

  /** The sample written for `frame`, interpolating towards the next sample of
      the period. */
  function FrameSample(t: WaveTable, s: WaveScale, frame: nat, volFrac: int): (v: int)
    requires RenderDefined(t, s) && FramesAsserted(t, s) && IsU16(volFrac) && Divisible(t, s)
    ensures IsS16(v)
  {
    var reg := LongDivision(frame, TblLen(t, s), WaveLen(t, s));
    var p := PhaseIndex(t, s, frame);
    var q := NextIndex(t, p);
    var val :=
      if Interpolates(TblLen(t, s), WaveLen(t, s)) then
        InterpolateBetween(t.data[p], t.data[q], reg.r, WaveLen(t, s));
        Interpolate(t.data[p], t.data[q], reg.r, WaveLen(t, s))
      else t.data[p];
    VolumeBound(val, volFrac);
    Volume(val, volFrac)
  }

  /** Line 86's `frame = offset + k`, in 32 bits. */
  function FrameOf(offset: nat, k: nat): (frame: nat)
    ensures frame < U32_MOD
  {
    U32(offset + k)
  }

  /** Line 107 reads `data[p + 1]`, which lies in the table only when `p < mask`. */
  predicate NextInTable(t: WaveTable, s: WaveScale, frame: nat)
    requires RenderDefined(t, s)
  {
    Interpolates(TblLen(t, s), WaveLen(t, s)) ==> PhaseIndex(t, s, frame) < t.mask
  }

  /** As written, line 107 reads past the table: a 16-sample table played at its
      own length (scale 16, no sub-frames) interpolates, and frame 15 lands on
      the last sample, index `mask`, so `data[p + 1]` is `data[16]`. */
  lemma NextSamplePastEnd(data: seq<int>)
    requires |data| == 16 && forall i :: 0 <= i < 16 ==> IsS16(data[i])
    ensures var t, s := DeclareTable("table", data), WaveScale(16, 0, 0, 0);
      RenderDefined(t, s) && Interpolates(TblLen(t, s), WaveLen(t, s))
      && PhaseIndex(t, s, 15) + 1 == |t.data| && !NextInTable(t, s, 15)
  {
    var t, s := DeclareTable("table", data), WaveScale(16, 0, 0, 0);
    assert BitAnd(16, 15) == 0;
    assert BitOr(16, 0) == 16;
    assert TblLen(t, s) == 16 && WaveLen(t, s) == 16;
    LastFrameIndex();
    assert PhaseIndex(t, s, 15) == LongDivision(15, 16, 16).p % 16;
  }

  lemma LastFrameIndex()
    ensures LongDivision(15, 16, 16).p == 15
  {
    CheckMathIdentity(15, 16, 16);
  }

  /** `data[p + 1]` lies in the table for each of the `count` frames from `offset`. */
  predicate NextInTableFrom(t: WaveTable, s: WaveScale, offset: nat, count: nat)
    requires RenderDefined(t, s)
  {
    forall k :: 0 <= k < count ==> NextInTable(t, s, FrameOf(offset, k))
  }

  function Repeat(v: int, n: nat): (r: seq<int>)
    ensures |r| == n && forall i :: 0 <= i < n ==> r[i] == v
  {
    seq(n, _ => v)
  }

  /** The samples of frames `offset` to `offset + count - 1`, in order. */
  function Samples(t: WaveTable, s: WaveScale, offset: nat, count: nat, volFrac: int): (xs: seq<int>)
    requires RenderDefined(t, s) && (count > 0 ==> FramesAsserted(t, s)) && IsU16(volFrac)
    requires Divisible(t, s)
    ensures |xs| == count
  {
    if count == 0 then []
    else Samples(t, s, offset, count - 1, volFrac) + [FrameSample(t, s, FrameOf(offset, count - 1), volFrac)]
  }

  /** Sample `k` is the sample of frame `offset + k`. */
  lemma {:induction false} SamplesAt(t: WaveTable, s: WaveScale, offset: nat, count: nat, volFrac: int, k: nat)
    requires RenderDefined(t, s) && (count > 0 ==> FramesAsserted(t, s)) && IsU16(volFrac)
    requires Divisible(t, s)
    requires k < count
    ensures Samples(t, s, offset, count, volFrac)[k] == FrameSample(t, s, FrameOf(offset, k), volFrac)
  {
    if k < count - 1 {
      SamplesAt(t, s, offset, count - 1, volFrac, k);
    }
  }

  /** Interleaved output: `channels` copies of each sample, sample by sample. */
  function Interleave(xs: seq<int>, channels: nat): (out: seq<int>) {
    if xs == [] then [] else Interleave(xs[..|xs| - 1], channels) + Repeat(xs[|xs| - 1], channels)
  }

  /** The interleaved output of `count` frames. */
  function Frames(t: WaveTable, s: WaveScale, offset: nat, count: nat, channels: nat, volFrac: int): seq<int>
    requires RenderDefined(t, s) && (count > 0 ==> FramesAsserted(t, s)) && IsU16(volFrac)
    requires Divisible(t, s)
  {
    Interleave(Samples(t, s, offset, count, volFrac), channels)
  }

  /** Interleaving one more sample appends its copies. */
  lemma InterleaveAppend(xs: seq<int>, v: int, channels: nat)
    ensures Interleave(xs + [v], channels) == Interleave(xs, channels) + Repeat(v, channels)
  {
    assert (xs + [v])[..|xs|] == xs;
  }

  /** `|xs| * channels` values in all. */
  lemma {:induction false} InterleaveLength(xs: seq<int>, channels: nat)
    ensures |Interleave(xs, channels)| == |xs| * channels
  {
    if xs != [] {
      InterleaveLength(xs[..|xs| - 1], channels);
      MulPred(|xs|, channels);
    }
  }

  /** Slot `k * channels + c` holds sample `k` for every channel `c`. */
  lemma {:induction false} InterleaveSlot(xs: seq<int>, channels: nat, k: nat, c: nat)
    requires k < |xs| && c < channels
    ensures k * channels + c < |Interleave(xs, channels)|
    ensures Interleave(xs, channels)[k * channels + c] == xs[k]
  {
    var front := xs[..|xs| - 1];
    InterleaveLength(front, channels);
    SlotOfAppend(Interleave(front, channels), xs[|xs| - 1], |front|, channels, k, c);
    MulPred(|xs|, channels);
    if k < |front| {
      InterleaveSlot(front, channels, k, c);
    }
  }

  /** Of the frames `fs`, output slot `k * channels + c` holds frame `k`'s sample
      for every channel `c`, and there are `count * channels` slots. */
  lemma FramesSlot(t: WaveTable, s: WaveScale, offset: nat, count: nat, channels: nat, volFrac: int, k: nat, c: nat,
                   fs: seq<int>, slot: nat)
    requires RenderDefined(t, s) && (count > 0 ==> FramesAsserted(t, s)) && IsU16(volFrac)
    requires Divisible(t, s)
    requires k < count && c < channels && slot == k * channels + c
    requires fs == Frames(t, s, offset, count, channels, volFrac)
    ensures |fs| == count * channels && slot < |fs| && fs[slot] == FrameSample(t, s, FrameOf(offset, k), volFrac)
  {
    var xs := Samples(t, s, offset, count, volFrac);
    InterleaveLength(xs, channels);
    InterleaveSlot(xs, channels, k, c);
    SamplesAt(t, s, offset, count, volFrac, k);
  }

  lemma SlotOfAppend(front: seq<int>, v: int, m: nat, ch: nat, k: nat, c: nat)
    requires |front| == m * ch && k <= m && c < ch
    ensures k * ch + c < |front| + ch
    ensures k < m ==> k * ch + c < |front|
    ensures k < m ==> (front + Repeat(v, ch))[k * ch + c] == front[k * ch + c]
    ensures k == m ==> (front + Repeat(v, ch))[k * ch + c] == v
  {
    if k < m {
      SlotBelow(k, m, ch, c);
    }
  }

  lemma SlotBelow(k: nat, m: nat, ch: nat, c: nat)
    requires k < m && c < ch
    ensures k * ch + c < m * ch
  {
    assert (k + 1) * ch <= m * ch;
  }

  lemma MulPred(n: nat, ch: nat)
    requires n > 0
    ensures (n - 1) * ch + ch == n * ch
  {
  }

  /** Lines 111-113: the `water` loop. */
  method WaterDown(r: nat) returns (water: nat)
    ensures water == Water(r)
  {
    water := 4;
    while Shr(r, water) > 0x7FFF
      invariant water >= 4 && WaterFrom(r, water) == Water(r)
      decreases Shr(r, water)
    {
      ShiftOnce(r, water);
      water := water + 1;
    }
  }

  /** Lines 86-122: the sample of one frame, from the division to the volume
      scaling, given the loop-invariant `tbl_len`, `wave_len` and `interpolate`. */
  method RenderFrame(tbl: WaveTable, scale: WaveScale, frame: nat, tblLen: nat, waveLen: nat, interpolate: bool, volFrac: int)
    returns (val: int)
    requires RenderDefined(tbl, scale) && FramesAsserted(tbl, scale) && IsU16(volFrac)
    requires Divisible(tbl, scale) && frame < U32_MOD && NextInTable(tbl, scale, frame)
    requires tblLen == TblLen(tbl, scale) && waveLen == WaveLen(tbl, scale)
    requires interpolate == Interpolates(tblLen, waveLen)
    ensures val == FrameSample(tbl, scale, frame, volFrac)
  {
    var p, rReg := DivideFrame(frame, tblLen, waveLen);
    ghost var reg := Registers(p, rReg);
    assert 0 <= p && 0 <= rReg < waveLen;
    MaskIsModulo(tbl, p);
    p := BitAnd(p, tbl.mask);
    var v: int;
    if interpolate {
      var a := tbl.data[p];
      var b := tbl.data[p + 1];
      var water := WaterDown(rReg);
      WaterDivisor(rReg, waveLen);
      InterpolateBetween(a, b, rReg, waveLen);
      v := a + CDiv((b - a) * Shr(rReg, water), Shr(waveLen, water));
    } else {
      v := tbl.data[p];
    }
    val := CDiv(v * volFrac, USHRT_MAX);
  }

  /**
   * `oscillator_table_render`: `count` frames from `offset`, each written to
   * `channels` consecutive slots of `out`. The asserts of lines 61-63 and 83-85
   * and the reads the frames make are preconditions; nothing past the
   * `count * channels` slots is written.
   */
  method Render(out: array<int>, tbl: WaveTable, offset: nat, count: nat, scale: WaveScale, channels: nat, volFrac: int)
    returns (r: int)
    requires RenderDefined(tbl, scale) && IsU32(offset) && IsU16(count) && IsU16(volFrac)
    requires IsU8(channels) && channels > 0
    requires count > 0 ==> FramesAsserted(tbl, scale)
    requires Divisible(tbl, scale) && NextInTableFrom(tbl, scale, offset, count)
    requires count * channels <= out.Length
    modifies out
    ensures r == 0
    ensures out[..count * channels] == Frames(tbl, scale, offset, count, channels, volFrac)
    ensures out[count * channels..] == old(out[count * channels..])
  {
    var tblLen := U32(tbl.length * Pow2(scale.subShift));
    var waveLen := U32(BitOr(scale.length * Pow2(scale.subShift), scale.sub));
    var interpolate := true;
    if tblLen / waveLen > 4 {
      interpolate := false;
    }
    ghost var end: nat := count * channels;
    ghost var tail := out[end..];
    ghost var xs: seq<int> := [];
    var k := 0;
    var pos := 0;
    while k < count
      invariant 0 <= k <= count && pos <= end
      invariant xs == Samples(tbl, scale, offset, k, volFrac)
      invariant out[..pos] == Interleave(xs, channels) && out[end..] == tail
    {
      var frame := U32(offset + k);
      assert frame == FrameOf(offset, k);
      var val := RenderFrame(tbl, scale, frame, tblLen, waveLen, interpolate, volFrac);
      ghost var before, start := out[..], pos;
      NextSlots(xs, channels, count, pos, end);
      pos := WriteFrame(out, pos, val, channels);
      RenderStep(tbl, scale, offset, count, channels, volFrac, k, start, end, before, out[..], val);
      xs := xs + [val];
      k := k + 1;
    }
    AllSlots(xs, channels, pos, end);
    return 0;
  }

  /** Lines 123-127: `val` into `channels` consecutive slots from `pos`. */
  method WriteFrame(out: array<int>, pos: nat, val: int, channels: nat) returns (next: nat)
    requires IsU8(channels) && channels > 0 && pos + channels <= out.Length
    modifies out
    ensures next == pos + channels
    ensures out[pos..next] == Repeat(val, channels)
    ensures forall i :: 0 <= i < out.Length && !(pos <= i < next) ==> out[i] == old(out[i])
  {
    next := pos;
    out[next] := val;
    next := next + 1;
    if channels / 2 != 0 {
      out[next] := val;
      next := next + 1;
    }
    var ch := 2;
    while ch < channels
      invariant 2 <= ch && (channels >= 2 ==> ch <= channels)
      invariant next == pos + (if channels == 1 then 1 else ch)
      invariant forall i :: pos <= i < next ==> out[i] == val
      invariant forall i :: 0 <= i < out.Length && !(pos <= i < next) ==> out[i] == old(out[i])
    {
      out[next] := val;
      next := next + 1;
      ch := ch + 1;
    }
  }

  /** What writing one frame's slots leaves in the array. */
  lemma WrittenFrame(before: seq<int>, after: seq<int>, pos: nat, channels: nat, end: nat)
    requires |before| == |after| && pos + channels <= end <= |after|
    requires forall i :: 0 <= i < |after| && !(pos <= i < pos + channels) ==> after[i] == before[i]
    ensures after[..pos] == before[..pos] && after[end..] == before[end..]
    ensures after[..pos + channels] == before[..pos] + after[pos..pos + channels]
  {
  }

  /** Writing frame `k`'s slots extends the interleaved output by one frame and
      keeps everything from slot `count * channels` on. */
  lemma RenderStep(t: WaveTable, s: WaveScale, offset: nat, count: nat, channels: nat, volFrac: int, k: nat,
                   pos: nat, end: nat, before: seq<int>, after: seq<int>, val: int)
    requires RenderDefined(t, s) && FramesAsserted(t, s) && IsU16(volFrac)
    requires Divisible(t, s) && k < count
    requires |before| == |after| && pos + channels <= end <= |after|
    requires before[..pos] == Interleave(Samples(t, s, offset, k, volFrac), channels)
    requires val == FrameSample(t, s, FrameOf(offset, k), volFrac)
    requires after[pos..pos + channels] == Repeat(val, channels)
    requires forall i :: 0 <= i < |after| && !(pos <= i < pos + channels) ==> after[i] == before[i]
    ensures after[..pos + channels] == Interleave(Samples(t, s, offset, k + 1, volFrac), channels)
    ensures after[end..] == before[end..]
  {
    WrittenFrame(before, after, pos, channels, end);
    InterleaveAppend(Samples(t, s, offset, k, volFrac), val, channels);
    SamplesStep(t, s, offset, k, volFrac);
  }

  /** Before frame `|xs|` of `count`, the slots written so far leave room for
      its `channels` slots below `count * channels`. */
  /** Once every frame is rendered, the slots written are exactly the first
      `count * channels`. */
  lemma AllSlots(xs: seq<int>, channels: nat, pos: nat, end: nat)
    requires pos == |Interleave(xs, channels)| && end == |xs| * channels
    ensures pos == end
  {
    InterleaveLength(xs, channels);
  }

  lemma NextSlots(xs: seq<int>, channels: nat, count: nat, pos: nat, end: nat)
    requires |xs| < count && pos == |Interleave(xs, channels)| && end == count * channels
    ensures pos + channels <= end
  {
    InterleaveLength(xs, channels);
    MulPred(|xs| + 1, channels);
    MulLe(|xs| + 1, count, channels);
  }

  /** One more frame appends its sample. */
  lemma SamplesStep(t: WaveTable, s: WaveScale, offset: nat, k: nat, volFrac: int)
    requires RenderDefined(t, s) && FramesAsserted(t, s) && IsU16(volFrac)
    requires Divisible(t, s)
    ensures Samples(t, s, offset, k + 1, volFrac) == Samples(t, s, offset, k, volFrac) + [FrameSample(t, s, FrameOf(offset, k), volFrac)]
  {
  }


  /** Lines 87-96: the byte-chunk division of `frame` by the loop over `shift`,
      with `uint32_t` registers. */
  method DivideFrame(frame: int, tblLen: int, waveLen: int) returns (p: int, rReg: int)
    requires IsU32(frame) && tblLen >= 0 && waveLen > 0
    ensures Registers(p, rReg) == LongDivision(frame, tblLen, waveLen)
  {
    ghost var bs := FrameBytes(frame);
    p, rReg := 0, 0;
    var fReg := 0;
    var shift := 24;
    ghost var n := 0;
    while shift >= 0
      invariant 0 <= n <= 4 && shift == 24 - 8 * n
      invariant Registers(p, rReg) == Passes(bs[..n], tblLen, waveLen)
    {
      ghost var p0, r0 := p, rReg;
      var f := BitAnd(Shr(frame, shift), 0xFF);
      LowByte(Shr(frame, shift));
      ByteOfShift(frame, shift, n);
      PassesPrefix(bs, n, tblLen, waveLen);
      fReg := U32(f * tblLen);
      rReg := U32(U32(rReg * 256) + fReg % waveLen);
      ghost var r1 := rReg;
      p := U32(U32(p * 256) + fReg / waveLen + rReg / waveLen);
      rReg := rReg % waveLen;
      DivStepOf(p0, r0, f, tblLen, waveLen, fReg, r1, p);
      shift := shift - 8;
      n := n + 1;
    }
    assert bs[..4] == bs;
  }

  /** `(frame >> shift) & 0xFF` is byte `n` of `frame`, for `shift = 24 - 8 * n`. */
  lemma ByteOfShift(frame: nat, shift: nat, n: nat)
    requires n < 4 && shift == 24 - 8 * n
    ensures Shr(frame, shift) % 256 == FrameBytes(frame)[n]
  {
    ShiftDivisor(shift);
    assert Shr(frame, shift) == frame / Pow2(shift);
  }

  /** `x & 0xFF` is `x % 256`. */
  lemma LowByte(x: nat)
    ensures BitAnd(x, 0xFF) == x % 256
  {
    Pow2Facts();
    AndLowMask(x, 8);
  }

  lemma ShiftDivisor(shift: nat)
    requires shift == 24 || shift == 16 || shift == 8 || shift == 0
    ensures Pow2(shift) == if shift == 24 then 0x100_0000 else if shift == 16 then 0x1_0000 else if shift == 8 then 0x100 else 1
  {
    Pow2Facts();
  }

  lemma DivStepOf(p0: int, r0: int, f: nat, tblLen: nat, waveLen: nat, fReg: int, r1: int, p1: int)
    requires waveLen > 0
    requires fReg == U32(f * tblLen)
    requires r1 == U32(U32(r0 * 256) + fReg % waveLen)
    requires p1 == U32(U32(p0 * 256) + fReg / waveLen + r1 / waveLen)
    ensures DivStep(Registers(p0, r0), f, tblLen, waveLen) == Registers(p1, r1 % waveLen)
  {
  }

  lemma PassesPrefix(bs: seq<nat>, n: nat, tblLen: nat, waveLen: nat)
    requires n < |bs| && waveLen > 0
    ensures Passes(bs[..n + 1], tblLen, waveLen) == DivStep(Passes(bs[..n], tblLen, waveLen), bs[n], tblLen, waveLen)
  {
    assert bs[..n + 1][..n] == bs[..n];
  }
}
