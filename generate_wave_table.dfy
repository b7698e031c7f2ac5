/**
 * generate-wave-table.c: the square-wave generator, the argument checks of
 * `main` and its chunk loop, which fills a 4096-byte buffer with the next
 * piece of the table and hands it to the output routine until the whole table
 * of `length` samples is written.
 */
module GenerateWaveTable {
  import opened CInt
  import opened Options
  import opened Text
  import opened Bits

  /** `data_t`, without DATA_TYPE_NONE, which `main` never selects. */
  datatype DataType = S16 | S32

  /** `struct signal_spec`: the sample format and the table length. */
  datatype SignalSpec = SignalSpec(dtype: DataType, length: nat)

  /** BUFSIZE, the bytes of `main`'s buffer. */
  const BUFSIZE: nat := 4096
  const FS_S16: int := 0x7FFF
  const FS_S32: int := 0x7FFF_FFFF

  /** FS_S16 or FS_S32: the largest sample of the format, whose negation fits it too. */
  function FullScale(t: DataType): (fs: int)
    ensures t == S16 ==> fs == INT16_MAX && IsS16(-fs)
    ensures t == S32 ==> fs == INT32_MAX && IsS32(-fs)
  {
    if t == S16 then FS_S16 else FS_S32
  }

  function SampleBytes(t: DataType): nat {
    if t == S16 then 2 else 4
  }

  /** The samples per chunk, `BUFSIZE / 2` for S16 and `BUFSIZE / 4` for S32:
      a chunk fills the buffer exactly. */
  function ChunkSize(t: DataType): (n: nat)
    ensures n * SampleBytes(t) == BUFSIZE
    ensures t == S16 ==> n == 2048
    ensures t == S32 ==> n == 1024
  {
    BUFSIZE / SampleBytes(t)
  }

  /** Sample `i` of the square table of `length` samples: full scale in the
      first half, its negation from `length / 2` on. */
  function SquareSample(t: DataType, length: nat, i: nat): (v: int)
    ensures v == FullScale(t) <==> i < length / 2
    ensures v == -FullScale(t) <==> i >= length / 2
  {
    if i < length / 2 then FullScale(t) else -FullScale(t)
  }

  /** A generator as the rule giving sample `i` of a table: the square rule, or
      the rule of one of the floating-point generators (sine, triangle and
      sawtooth), which this model takes as given. */
  datatype Generator = Square | Formula(sample: (DataType, nat, nat) -> int)

  function SampleOf(g: Generator, t: DataType, length: nat, i: nat): int {
    match g
    case Square => SquareSample(t, length, i)
    case Formula(f) => f(t, length, i)
  }

  /** The whole table generated in one go. */
  function Table(g: Generator, t: DataType, length: nat): (xs: seq<int>)
    ensures |xs| == length && forall i :: 0 <= i < length ==> xs[i] == SampleOf(g, t, length, i)
  {
    seq(length, i requires 0 <= i => SampleOf(g, t, length, i))
  }

  /** Lines 83-87: how many samples of a chunk from `offset` still lie in the
      first half. */
  function Midpoint(length: nat, offset: nat): nat {
    if length / 2 > offset then length / 2 - offset else 0
  }

  /** Sample `k` of the chunk is in the first half exactly when `offset + k` is. */
  lemma MidpointRule(length: nat, offset: nat, k: nat)
    ensures k < Midpoint(length, offset) <==> offset + k < length / 2
  {
  }

  /**
   * `square_wave_generator`: `count` samples from `offset` into `buf`. Going past
   * `length` only warns (the 32-bit test of line 78); the samples are written
   * all the same and the result is 0.
   */
  method SquareWave(spec: SignalSpec, offset: nat, count: nat, buf: array<int>) returns (r: int, warned: bool)
    requires IsU32(spec.length) && IsU32(offset) && IsU32(count) && count <= buf.Length
    modifies buf
    ensures r == 0
    ensures warned <==> U32(offset + count) > spec.length
    ensures forall k :: 0 <= k < count ==> buf[k] == SquareSample(spec.dtype, spec.length, offset + k)
    ensures buf[count..] == old(buf[count..])
  {
    warned := U32(offset + count) > spec.length;
    var midpoint := spec.length / 2;
    if midpoint > offset {
      midpoint := midpoint - offset;
    } else {
      midpoint := 0;
    }
    var fs := FullScale(spec.dtype);
    var k := 0;
    while k < count
      invariant 0 <= k <= count
      invariant forall j :: 0 <= j < k ==> buf[j] == SquareSample(spec.dtype, spec.length, offset + j)
      invariant buf[count..] == old(buf[count..])
    {
      MidpointRule(spec.length, offset, k);
      if k < midpoint {
        buf[k] := fs;
      } else {
        buf[k] := -fs;
      }
      k := k + 1;
    }
    return 0, warned;
  }

  /** The loop shared by the floating-point generators: sample `k` of the chunk
      is the rule at `offset + k`, that sum taken in 32 bits. */
  method FormulaWave(f: (DataType, nat, nat) -> int, spec: SignalSpec, offset: nat, count: nat, buf: array<int>) returns (r: int)
    requires IsU32(offset) && IsU32(count) && count <= buf.Length
    modifies buf
    ensures r == 0
    ensures forall k :: 0 <= k < count ==> buf[k] == f(spec.dtype, spec.length, U32(offset + k))
    ensures buf[count..] == old(buf[count..])
  {
    var k := 0;
    while k < count
      invariant 0 <= k <= count
      invariant forall j :: 0 <= j < k ==> buf[j] == f(spec.dtype, spec.length, U32(offset + j))
      invariant buf[count..] == old(buf[count..])
    {
      buf[k] := f(spec.dtype, spec.length, U32(offset + k));
      k := k + 1;
    }
    return 0;
  }

  /** `gen(&spec, k, count, buf)`: a chunk inside the table is that slice of the
      one-shot table. */
  method Generate(g: Generator, spec: SignalSpec, offset: nat, count: nat, buf: array<int>)
    requires IsU32(spec.length) && offset + count <= spec.length && count <= buf.Length
    modifies buf
    ensures buf[..count] == Table(g, spec.dtype, spec.length)[offset..offset + count]
  {
    match g
    case Square =>
      var _, _ := SquareWave(spec, offset, count, buf);
    case Formula(f) =>
      var _ := FormulaWave(f, spec, offset, count, buf);
  }

  /** One call of the generator and the output routine: `count` samples from `start`. */
  datatype Chunk = Chunk(start: nat, count: nat)

  /** The chunks that tile `[k, length)`: full chunks of `size`, the last one
      clamped to what is left. */
  function Plan(length: nat, size: nat, k: nat): seq<Chunk>
    requires size > 0
    decreases length - k
  {
    if k >= length then []
    else
      var count := if k + size > length then length - k else size;
      [Chunk(k, count)] + Plan(length, size, k + count)
  }

  /** The chunks run back to back from `from` to `to`, none empty. */
  predicate Tiles(cs: seq<Chunk>, from: nat, to: nat)
    decreases |cs|
  {
    if cs == [] then from == to
    else cs[0].start == from && cs[0].count > 0 && Tiles(cs[1..], from + cs[0].count, to)
  }

  /** The plan tiles `[k, length)` exactly once, in order, with `size` samples
      in every chunk but the last, which holds the rest; there are
      `ceil((length - k) / size)` of them. */
  lemma {:induction false} PlanTiles(length: nat, size: nat, k: nat)
    requires size > 0 && k <= length
    ensures Tiles(Plan(length, size, k), k, length)
    ensures forall i :: 0 <= i < |Plan(length, size, k)| ==> 0 < Plan(length, size, k)[i].count <= size
    ensures forall i :: 0 <= i < |Plan(length, size, k)| - 1 ==> Plan(length, size, k)[i].count == size
    ensures |Plan(length, size, k)| == (length - k + size - 1) / size
    decreases length - k
  {
    if k < length {
      var count := if k + size > length then length - k else size;
      PlanTiles(length, size, k + count);
      var rest := Plan(length, size, k + count);
      assert Plan(length, size, k)[1..] == rest;
      if k + size > length {
        assert rest == [];
        CeilOne(length - k, size);
      } else {
        CeilStep(length - k, size);
      }
    }
  }

  lemma CeilOne(n: nat, size: nat)
    requires 0 < n <= size
    ensures (n + size - 1) / size == 1
  {
  }

  lemma CeilStep(n: nat, size: nat)
    requires 0 < size <= n
    ensures (n + size - 1) / size == (n - size + size - 1) / size + 1
  {
    var m := n - 1;
    assert n + size - 1 == (m - size + 1 + size - 1) + size;
    DivPlusDivisor(n - size + size - 1, size);
  }

  lemma DivPlusDivisor(m: nat, d: nat)
    requires d > 0
    ensures (m + d) / d == m / d + 1
  {
    DivModUnique(m + d, d, m / d + 1, m % d);
  }

  /**
   * `main`'s chunk loop over a table that fits in `unsigned`: each pass clamps
   * the chunk to what is left, generates it into the buffer and writes it out.
   * The output routine's text format is not modelled: what it writes is the
   * samples. `k + count` is taken without wrap-around (see ChunkWrapsAsWritten).
   */
  method WriteTable(g: Generator, spec: SignalSpec, buf: array<int>) returns (chunks: seq<Chunk>, output: seq<int>)
    requires IsU32(spec.length) && buf.Length == ChunkSize(spec.dtype)
    modifies buf
    ensures chunks == Plan(spec.length, ChunkSize(spec.dtype), 0)
    ensures output == Table(g, spec.dtype, spec.length)
  {
    var size := ChunkSize(spec.dtype);
    var table := Table(g, spec.dtype, spec.length);
    chunks, output := [], [];
    var k := 0;
    var count := 0;
    while k < spec.length
      invariant k <= spec.length
      invariant chunks + Plan(spec.length, size, k) == Plan(spec.length, size, 0)
      invariant output == table[..k]
      decreases spec.length - k
    {
      count := BUFSIZE / SampleBytes(spec.dtype);
      if k + count > spec.length {
        count := spec.length - k;
      }
      Generate(g, spec, k, count, buf);
      assert Plan(spec.length, size, k) == [Chunk(k, count)] + Plan(spec.length, size, k + count);
      chunks := chunks + [Chunk(k, count)];
      assert table[..k + count] == table[..k] + table[k..k + count];
      output := output + buf[..count];
      k := k + count;
    }
    assert table[..k] == table;
  }

  /** One pass of the chunk loop as written, in 32-bit `unsigned`: the clamp
      compares the wrapped `k + count`, and `k` wraps too. */
  function ChunkStepAsWritten(length: nat, size: nat, k: nat): (next: Chunk)
    requires IsU32(length) && IsU32(k) && k < length
  {
    var count := if U32(k + size) > length then length - k else size;
    Chunk(U32(k + count), count)
  }

  /**
   * For a table of UINT_MAX S16 samples, the last chunk starts at 4294965248;
   * the wrapped `k + 2048` is 0, so the clamp does not trigger: a full chunk of
   * 2048 is generated, whose last sample (index UINT_MAX) lies past the table,
   * and `k` wraps to 0, so the loop starts over and never ends. The plan
   * instead ends with a chunk of 2047.
   */
  lemma ChunkWrapsAsWritten()
    ensures ChunkStepAsWritten(UINT_MAX, 2048, 4294965248) == Chunk(0, 2048)
    ensures Plan(UINT_MAX, 2048, 4294965248) == [Chunk(4294965248, 2047)]
  {
    assert Plan(UINT_MAX, 2048, UINT_MAX) == [];
  }

  /** The names of `g_types`, in order. */
  const WAVE_NAMES: seq<string> := ["square", "sine", "triangle", "sawtooth"]

  /** The position of the first name equal to `name`. */
  function FindName(names: seq<string>, name: string): (r: Option<nat>)
    ensures r.Some? ==> r.value < |names| && names[r.value] == name
    ensures r.Some? ==> forall j :: 0 <= j < r.value ==> names[j] != name
    ensures r.None? <==> name !in names
  {
    if names == [] then None
    else if names[0] == name then Some(0)
    else match FindName(names[1..], name)
      case None => None
      case Some(i) => Some(i + 1)
  }

  /** The format argument: "S16" or "S32" exactly. */
  function ParseFormat(arg: string): (r: Option<DataType>)
    ensures r == Some(S16) <==> arg == "S16"
    ensures r == Some(S32) <==> arg == "S32"
    ensures r.None? <==> arg != "S16" && arg != "S32"
  {
    if arg == "S16" then Some(S16) else if arg == "S32" then Some(S32) else None
  }

  /** What the arguments ask for, once they pass the checks. */
  datatype Job = Job(wave: nat, spec: SignalSpec)

  /**
   * The checks of lines 314-347 on `wave_type`, `length` (read with `atol`) and
   * `format`: an unknown wave type, a length below 8 or above UINT_MAX, or a
   * format other than S16 and S32 is refused.
   */
  function ParseJob(wave: string, length: string, format: string): (r: Option<Job>)
    ensures r.Some? <==> wave in WAVE_NAMES && 8 <= Atoi(length) <= UINT_MAX && ParseFormat(format).Some?
    ensures r.Some? ==> r.value.wave < |WAVE_NAMES| && WAVE_NAMES[r.value.wave] == wave
    ensures r.Some? ==> r.value.spec.length == Atoi(length) && IsU32(r.value.spec.length)
    ensures r.Some? ==> Some(r.value.spec.dtype) == ParseFormat(format)
  {
    match FindName(WAVE_NAMES, wave)
    case None => None
    case Some(i) =>
      var n := Atoi(length);
      if n < 8 || n > UINT_MAX then None
      else match ParseFormat(format)
        case None => None
        case Some(t) => Some(Job(i, SignalSpec(t, n)))
  }

  /** The generator for entry `i` of `g_types`: the square rule, or one of the
      rules given for the floating-point generators. */
  function GeneratorOf(i: nat, sine: Generator, triangle: Generator, sawtooth: Generator): Generator {
    if i == 0 then Square else if i == 1 then sine else if i == 2 then triangle else sawtooth
  }

  /**
   * `main`: usage and 0 with fewer than three arguments; 1 for a refused
   * argument; otherwise the whole table in chunks, and 0. `sine`, `triangle`
   * and `sawtooth` stand for the floating-point generators.
   */
  method GenerateMain(argv: seq<string>, sine: Generator, triangle: Generator, sawtooth: Generator)
    returns (r: int, chunks: seq<Chunk>, output: seq<int>)
    ensures |argv| < 4 ==> r == 0 && chunks == [] && output == []
    ensures |argv| >= 4 && ParseJob(argv[1], argv[2], argv[3]).None? ==> r == 1 && chunks == [] && output == []
    ensures |argv| >= 4 && ParseJob(argv[1], argv[2], argv[3]).Some? ==>
      var job := ParseJob(argv[1], argv[2], argv[3]).value;
      r == 0 && chunks == Plan(job.spec.length, ChunkSize(job.spec.dtype), 0)
      && output == Table(GeneratorOf(job.wave, sine, triangle, sawtooth), job.spec.dtype, job.spec.length)
  {
    if |argv| < 4 {
      return 0, [], [];
    }
    var job := ParseJob(argv[1], argv[2], argv[3]);
    if job.None? {
      return 1, [], [];
    }
    var spec := job.value.spec;
    var buf := new int[ChunkSize(spec.dtype)];
    chunks, output := WriteTable(GeneratorOf(job.value.wave, sine, triangle, sawtooth), spec, buf);
    return 0, chunks, output;
  }
}
