/**
 * tone-generator.c: plays one of four built-in wave tables at a frequency for a
 * duration. Its `render` is the same text as `oscillator_table_render` and is
 * modelled by OscillatorTable.Render. Here: the table checks, the lookup of the
 * table by name, the guard on the table's bit width, and the period loop of
 * `inner_main`. The conversions of frequency, duration and volume from their
 * floating-point arguments are taken as given.
 */
module ToneGenerator {
  import opened CInt
  import opened Bits
  import opened Options
  import opened OscillatorTable

  /** The PCM configuration `main` sets up. */
  const RATE: nat := 48000
  const PERIOD_SIZE: nat := 1024
  const CHANNELS: nat := 2
  /** `sub_den` and `sub_shift` of every scale `main` builds. */
  const SUB_DEN: nat := 0xFFF
  const SUB_SHIFT: nat := 12
  /** The largest `sub_shift + bits` the guard of line 354 lets through. */
  const MAX_BITS: nat := 24

  /** `g_wave_tables` over the four sample arrays, without its terminating entry. */
  function WaveTables(square: seq<int>, sine: seq<int>, triangle: seq<int>, sawtooth: seq<int>): (ts: seq<WaveTable>)
    ensures |ts| == 4
    ensures ts[0].name == "square" && ts[1].name == "sine" && ts[2].name == "triangle" && ts[3].name == "sawtooth"
    ensures ts[0].data == square && ts[1].data == sine && ts[2].data == triangle && ts[3].data == sawtooth
  {
    [DeclareTable("square", square), DeclareTable("sine", sine),
     DeclareTable("triangle", triangle), DeclareTable("sawtooth", sawtooth)]
  }

  /**
   * `check_wave_tables`: its asserts are that each array has at most 0xFFFF
   * samples; then it returns 0, and every table's `uint16_t` length is the
   * array's true length.
   */
  function CheckWaveTables(square: seq<int>, sine: seq<int>, triangle: seq<int>, sawtooth: seq<int>): (r: int)
    requires |square| <= 0xFFFF && |sine| <= 0xFFFF && |triangle| <= 0xFFFF && |sawtooth| <= 0xFFFF
    ensures r == 0
    ensures forall t :: t in WaveTables(square, sine, triangle, sawtooth) ==> t.length == |t.data|
  {
    0
  }

  /** The position of the first table named exactly `name`. */
  function FirstTable(tables: seq<WaveTable>, name: string): (r: Option<nat>)
    ensures r.Some? ==> r.value < |tables| && tables[r.value].name == name
    ensures r.Some? ==> forall j :: 0 <= j < r.value ==> tables[j].name != name
    ensures r.None? ==> forall j :: 0 <= j < |tables| ==> tables[j].name != name
  {
    if tables == [] then None
    else if tables[0].name == name then Some(0)
    else match FirstTable(tables[1..], name)
      case None => None
      case Some(i) => Some(i + 1)
  }

  /** The header's shape of a table: a power-of-two length and `mask = length - 1`. */
  predicate TableShape(t: WaveTable) {
    IsU16(t.length) && IsPowerOfTwo(t.length) && t.mask == t.length - 1
  }

  /**
   * Lines 306-317: the walk over `g_wave_tables` that stops at the first name
   * `strcmp` finds equal. The asserts on the table found are preconditions;
   * none found is `main`'s error 1.
   */
  method FindTable(tables: seq<WaveTable>, arg: string) returns (r: Option<nat>)
    requires FirstTable(tables, arg).Some? ==> TableShape(tables[FirstTable(tables, arg).value])
    ensures r == FirstTable(tables, arg)
    ensures r.Some? ==> TableShape(tables[r.value])
  {
    var i := 0;
    while i < |tables|
      invariant 0 <= i <= |tables|
      invariant forall j :: 0 <= j < i ==> tables[j].name != arg
    {
      if tables[i].name == arg {
        FirstTableIs(tables, arg, i);
        return Some(i);
      }
      i := i + 1;
    }
    NoTableNamed(tables, arg);
    return None;
  }

  lemma {:induction false} FirstTableIs(tables: seq<WaveTable>, name: string, i: nat)
    requires i < |tables| && tables[i].name == name
    requires forall j :: 0 <= j < i ==> tables[j].name != name
    ensures FirstTable(tables, name) == Some(i)
    decreases i
  {
    if i > 0 {
      FirstTableIs(tables[1..], name, i - 1);
    }
  }

  lemma {:induction false} NoTableNamed(tables: seq<WaveTable>, name: string)
    requires forall j :: 0 <= j < |tables| ==> tables[j].name != name
    ensures FirstTable(tables, name).None?
    decreases |tables|
  {
    if tables != [] {
      NoTableNamed(tables[1..], name);
    }
  }

  /** The least `bits` from `b` on with `2^bits >= length`. */
  function LeastBitsFrom(length: nat, b: nat): (r: nat)
    ensures r >= b && Pow2(r) >= length
    ensures r > b ==> Pow2(r - 1) < length
    decreases length - Pow2(b)
  {
    if Pow2(b) < length then LeastBitsFrom(length, b + 1) else b
  }

  function LeastBits(length: nat): nat {
    LeastBitsFrom(length, 0)
  }

  /** Line 353: `while ((1 << bits) < table->length) ++bits;`. For a `uint16_t`
      length, `bits` stays at most 16, so the shift never overflows. */
  method TableBits(length: nat) returns (bits: nat)
    requires IsU16(length)
    ensures bits == LeastBits(length) && bits <= 16
  {
    bits := 0;
    while Pow2(bits) < length
      invariant LeastBitsFrom(length, bits) == LeastBits(length)
      invariant bits <= 16
      decreases length - Pow2(bits)
    {
      if bits == 16 {
        Pow2Facts();
        assert false;
      }
      bits := bits + 1;
    }
  }

  /** For a power-of-two length, `bits` is its exponent: `1 << bits == length`. */
  lemma LeastBitsOfPower(length: nat, b: nat)
    requires length == Pow2(b)
    ensures LeastBits(length) == b
  {
    var r := LeastBits(length);
    if r < b {
      Pow2Monotone(r, b - 1);
    } else if r > b {
      Pow2Monotone(b, r - 1);
    }
  }

  /** The guard of line 354, as written. */
  predicate GuardRejects(subShift: nat, bits: nat) {
    subShift + bits > MAX_BITS
  }

  /** What the guard promises: a table it lets through has `tbl_len <= 2^24`. */
  lemma GuardBound(t: WaveTable, s: WaveScale)
    requires RenderDefined(t, s) && !GuardRejects(s.subShift, LeastBits(t.length))
    ensures TblLen(t, s) <= 0x100_0000
  {
    BitsBound(t.length, s.subShift, MAX_BITS);
    TblLenAtMost(t, s, Pow2(MAX_BITS));
    Pow2Facts();
  }

  lemma TblLenAtMost(t: WaveTable, s: WaveScale, bound: nat)
    requires RenderDefined(t, s) && t.length * Pow2(s.subShift) <= bound
    ensures TblLen(t, s) <= bound
  {
  }

  /** `length << shift` stays within `2^limit` when `bits(length) + shift <= limit`. */
  lemma BitsBound(length: nat, shift: nat, limit: nat)
    requires LeastBits(length) + shift <= limit
    ensures length * Pow2(shift) <= Pow2(limit)
  {
    var bits := LeastBits(length);
    Pow2Add(bits, shift);
    MulLe(length, Pow2(bits), Pow2(shift));
    Pow2Monotone(bits + shift, limit);
  }

  /**
   * As written, the guard admits `sub_shift + bits == 24`, where `tbl_len` is
   * 2^24 and the assert of line 157 fails: a 4096-sample table played with
   * `sub_shift` 12, as `main` always sets it.
   */
  lemma GuardAdmitsFullLength(data: seq<int>)
    requires |data| == 4096 && forall i :: 0 <= i < 4096 ==> IsS16(data[i])
    ensures var t, s := DeclareTable("sine", data), WaveScale(100, 0, SUB_DEN, SUB_SHIFT);
      RenderDefined(t, s) && LeastBits(t.length) == 12 && !GuardRejects(s.subShift, 12)
      && TblLen(t, s) == 0x100_0000 && !FramesAsserted(t, s)
  {
    var t, s := DeclareTable("sine", data), WaveScale(100, 0, SUB_DEN, SUB_SHIFT);
    FullLengthFacts();
    assert TblLen(t, s) == U32(4096 * Pow2(12));
    assert WaveLen(t, s) == U32(BitOr(100 * Pow2(12), 0));
    LeastBitsOfPower(4096, 12);
  }

  lemma FullLengthFacts()
    ensures Pow2(12) == 4096 && Pow2(24) == 0x100_0000
    ensures IsPowerOfTwo(4096) && BitOr(409600, 0) == 409600
  {
    Pow2Facts();
    PowerOfTwoPow2(12);
  }

  /** The guard evidently intended: `sub_shift + bits` must stay below 24. */
  predicate GuardRejectsIntended(subShift: nat, bits: nat) {
    subShift + bits >= MAX_BITS
  }

  /** A table the intended guard lets through passes the assert of line 157. */
  lemma GuardIntendedFits(t: WaveTable, s: WaveScale)
    requires RenderDefined(t, s) && !GuardRejectsIntended(s.subShift, LeastBits(t.length))
    ensures TblLen(t, s) < 0x100_0000
  {
    BitsBound(t.length, s.subShift, MAX_BITS - 1);
    TblLenAtMost(t, s, Pow2(MAX_BITS - 1));
    Pow2Facts();
    Pow2Add(23, 1);
  }

  /**
   * What `main` derives from its floating-point arguments in lines 319-347,
   * taken as given: whether the frequency is below 10 Hz, the duration negative
   * or the volume above 0 dB; the duration in frames, the volume fraction, and
   * the integer and fractional parts of the period `48000 / freq` in frames.
   */
  datatype FloatArgs = FloatArgs(
    freqTooLow: bool, durationNegative: bool, volumePositive: bool,
    duration: nat, volume: nat, scaleLength: nat, scaleSub: nat)

  /** The conversions land in their C types. */
  predicate FloatArgsFit(a: FloatArgs) {
    IsU32(a.duration) && IsU16(a.volume) && IsU16(a.scaleLength) && a.scaleSub <= SUB_DEN
  }

  /** `struct tone_generator_config`, with the table by its position. */
  datatype ToneConfig = ToneConfig(table: nat, scale: WaveScale, duration: nat, volume: nat)

  /** How `main` ends: a return code, or the call of `inner_main`. */
  datatype Launch = Exit(code: int) | Play(config: ToneConfig)

  /**
   * `main` up to the call of `inner_main`: usage and 0 unless there are exactly
   * four arguments; 1 for an unknown wave type, a refused frequency, duration or
   * volume, or a table too wide for the guard; otherwise the configuration.
   */
  method ToneMain(argv: seq<string>, square: seq<int>, sine: seq<int>, triangle: seq<int>, sawtooth: seq<int>, args: FloatArgs)
    returns (r: Launch)
    requires |square| <= 0xFFFF && |sine| <= 0xFFFF && |triangle| <= 0xFFFF && |sawtooth| <= 0xFFFF
    requires FloatArgsFit(args)
    requires var tables := WaveTables(square, sine, triangle, sawtooth);
      |argv| == 5 && FirstTable(tables, argv[1]).Some? ==> TableShape(tables[FirstTable(tables, argv[1]).value])
    ensures |argv| != 5 ==> r == Exit(0)
    ensures |argv| == 5 ==>
      var tables := WaveTables(square, sine, triangle, sawtooth);
      match FirstTable(tables, argv[1])
      case None => r == Exit(1)
      case Some(i) =>
        if args.freqTooLow || args.durationNegative || args.volumePositive then r == Exit(1)
        else if GuardRejects(SUB_SHIFT, LeastBits(tables[i].length)) then r == Exit(1)
        else r == Play(ToneConfig(i, WaveScale(args.scaleLength, args.scaleSub, SUB_DEN, SUB_SHIFT), args.duration, args.volume))
  {
    if |argv| != 5 {
      return Exit(0);
    }
    var checked := CheckWaveTables(square, sine, triangle, sawtooth);
    if checked != 0 {
      return Exit(1);
    }
    var tables := WaveTables(square, sine, triangle, sawtooth);
    var found := FindTable(tables, argv[1]);
    if found.None? {
      return Exit(1);
    }
    if args.freqTooLow || args.durationNegative || args.volumePositive {
      return Exit(1);
    }
    var scale := WaveScale(args.scaleLength, args.scaleSub, SUB_DEN, SUB_SHIFT);
    var bits := TableBits(tables[found.value].length);
    if scale.subShift + bits > MAX_BITS {
      return Exit(1);
    }
    return Play(ToneConfig(found.value, scale, args.duration, args.volume));
  }

  /** The asserts of `render` hold, and every period's `data[p + 1]` reads stay
      in the table. */
  ghost predicate Playable(t: WaveTable, s: WaveScale, duration: nat, volume: nat) {
    RenderDefined(t, s) && FramesAsserted(t, s) && Divisible(t, s) && IsU16(volume) && IsU32(duration)
    && forall n: nat :: PeriodStart(n) < duration ==> NextInTableFrom(t, s, PeriodStart(n), PERIOD_SIZE)
  }

  /** The first frame of the `n`-th period. */
  function PeriodStart(n: nat): nat {
    n * PERIOD_SIZE
  }

  /** The interleaved samples of the period starting at frame `pos`; nothing when the table cannot be rendered. */
  function PeriodFrames(t: WaveTable, s: WaveScale, pos: nat, volume: nat): seq<int> {
    if RenderDefined(t, s) && FramesAsserted(t, s) && Divisible(t, s) && IsU16(volume)
    then Frames(t, s, pos, PERIOD_SIZE, CHANNELS, volume)
    else []
  }

  /** The number of periods `inner_main` writes: `ceil(duration / period_size)`. */
  function Periods(duration: nat): nat {
    (duration + PERIOD_SIZE - 1) / PERIOD_SIZE
  }

  /** The periods written are exactly those that start before `duration`. */
  lemma PeriodsExact(duration: nat, n: nat)
    ensures n < Periods(duration) <==> PeriodStart(n) < duration
  {
  }

  /** The buffers handed to `pcm_write`, one per period, in order. */
  function Playback(t: WaveTable, s: WaveScale, duration: nat, volume: nat): (ws: seq<seq<int>>)
    ensures |ws| == Periods(duration)
    ensures forall n :: 0 <= n < |ws| ==> ws[n] == PeriodFrames(t, s, PeriodStart(n), volume)
  {
    seq(Periods(duration), n requires 0 <= n => PeriodFrames(t, s, PeriodStart(n), volume))
  }

  /**
   * `inner_main`: 1 when the PCM cannot be opened, is not ready or the buffer
   * cannot be allocated; otherwise one rendered period per `pcm_write`, from
   * frame 0 while `pos < duration`, and 0. A failing `pcm_write` is only
   * reported. `pos` is taken without wrap-around (see PositionWrapsToStart).
   */
  method InnerMain(tbl: WaveTable, config: ToneConfig, pcmOpens: bool, pcmReady: bool, allocOk: bool)
    returns (r: int, writes: seq<seq<int>>)
    requires Playable(tbl, config.scale, config.duration, config.volume)
    ensures !(pcmOpens && pcmReady && allocOk) ==> r == 1 && writes == []
    ensures pcmOpens && pcmReady && allocOk ==>
      r == 0 && writes == Playback(tbl, config.scale, config.duration, config.volume)
  {
    if !pcmOpens || !pcmReady {
      return 1, [];
    }
    if !allocOk {
      return 1, [];
    }
    var scale, duration, volume := config.scale, config.duration, config.volume;
    var buf := new int[PERIOD_SIZE * CHANNELS];
    writes := [];
    var pos := 0;
    ghost var n := 0;
    while pos < duration
      invariant pos == PeriodStart(n) && n <= Periods(duration)
      invariant |writes| == n
      invariant forall i :: 0 <= i < n ==> writes[i] == PeriodFrames(tbl, scale, PeriodStart(i), volume)
      decreases duration - pos
    {
      PeriodsExact(duration, n);
      var _ := Render(buf, tbl, pos, PERIOD_SIZE, scale, CHANNELS, volume);
      assert buf[..] == buf[..PERIOD_SIZE * CHANNELS];
      writes := writes + [buf[..]];
      pos := pos + PERIOD_SIZE;
      n := n + 1;
    }
    PeriodsExact(duration, n);
    return 0, writes;
  }

  /** Line 239's `pos += period_size` in `unsigned`. */
  function NextPosAsWritten(pos: nat): (next: nat)
    ensures next < U32_MOD
  {
    U32(pos + PERIOD_SIZE)
  }

  /**
   * As written, a duration past the last period start below 2^32 never ends:
   * for UINT_MAX frames the start 4294966272 is still below the duration, and
   * the next one wraps to frame 0, so the loop plays the tone from the start
   * again, forever.
   */
  lemma PositionWrapsToStart()
    ensures 4294966272 % PERIOD_SIZE == 0 && 4294966272 < UINT_MAX
    ensures NextPosAsWritten(4294966272) == 0 && 0 < UINT_MAX
  {
  }
}
