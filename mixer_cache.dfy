/**
 * The mixer control cache of mixer_cache.h and mixer_cache.c: a count plus an
 * array of exactly that many control descriptors, filled from a mixer, written
 * back to it, searched by name, and carrying one "touched" flag per entry for
 * audits of full-list passes.
 *
 * The C functions take a pointer that may be NULL; here they are module-level
 * methods over `Cache?`. Storage that is absent (a NULL `ctrls`) is an empty array.
 */
module MixerCache {
  import opened Options
  import opened CInt
  import opened Errno
  import opened Tinyalsa

  /** MAX_NUM_VALUES: the most values a cached control holds. */
  const MAX_NUM_VALUES: nat := 8
  /** AUDIO_TOOL_MIX_CTL_NAME_MAX: size of the name buffer, terminator included. */
  const NAME_MAX: nat := 128
  /** Size of one `enumerated` label buffer, terminator included. */
  const ENUM_LABEL_MAX: nat := 64
  /** Slots of each union member: `long integer[128]`, `int64_t integer64[64]`,
      `char enumerated[8][64]`, `unsigned char byte[512]`. */
  const INTEGER_SLOTS: nat := 128
  const INTEGER64_SLOTS: nat := 64
  const BYTE_SLOTS: nat := 512

  /**
   * The `value` union of a descriptor, tagged by the member last written.
   * Each member keeps its first MAX_NUM_VALUES slots, the only ones the code
   * reads or writes; `Zeroed` is storage zero-filled by `calloc` and never written.
   */
  datatype ValueUnion =
    | Zeroed
    | IntegerMember(integer: seq<int>)
    | EnumeratedMember(enumerated: seq<string>)
    | ByteMember(byte: seq<int>)
    | Integer64Member(integer64: seq<int>)

  predicate ValueFits(u: ValueUnion) {
    match u
    case Zeroed => true
    case IntegerMember(s) => |s| == MAX_NUM_VALUES
    case EnumeratedMember(s) => |s| == MAX_NUM_VALUES && forall k :: 0 <= k < |s| ==> |s[k]| < ENUM_LABEL_MAX
    case ByteMember(s) => |s| == MAX_NUM_VALUES && forall k :: 0 <= k < |s| ==> IsU8(s[k])
    case Integer64Member(s) => |s| == MAX_NUM_VALUES
  }

  /** The member a control of type `t` is read and written through. */
  predicate MemberOf(t: CtlType, u: ValueUnion) {
    u.Zeroed? ||
    match t
    case Bool => u.IntegerMember?
    case Int => u.IntegerMember?
    case Enum => u.EnumeratedMember?
    case Byte => u.ByteMember?
    case Int64 => u.Integer64Member?
    case _ => false
  }

  /** The types `populate` and `apply` have a case for. */
  predicate Handled(t: CtlType) {
    t.Bool? || t.Int? || t.Enum? || t.Byte? || t.Int64?
  }

  function IntegerSlot(u: ValueUnion, k: nat): int
    requires ValueFits(u) && k < MAX_NUM_VALUES
  {
    if u.IntegerMember? then u.integer[k] else 0
  }

  function EnumSlot(u: ValueUnion, k: nat): string
    requires ValueFits(u) && k < MAX_NUM_VALUES
  {
    if u.EnumeratedMember? then u.enumerated[k] else ""
  }

  function ByteSlot(u: ValueUnion, k: nat): int
    requires ValueFits(u) && k < MAX_NUM_VALUES
  {
    if u.ByteMember? then u.byte[k] else 0
  }

  function Integer64Slot(u: ValueUnion, k: nat): int
    requires ValueFits(u) && k < MAX_NUM_VALUES
  {
    if u.Integer64Member? then u.integer64[k] else 0
  }

  /** `struct audio_tool_mixer_control_info`; `id` is the C `unsigned` value. */
  datatype ControlInfo = ControlInfo(id: int, name: string, ctype: CtlType, numValues: nat, value: ValueUnion, touch: bool)

  /** What every descriptor the code builds satisfies: an unsigned id, a name
      that fits its buffer, at most MAX_NUM_VALUES values, the member of its type. */
  predicate EntryFits(e: ControlInfo) {
    && IsU32(e.id)
    && |e.name| < NAME_MAX
    && e.numValues <= MAX_NUM_VALUES
    && ValueFits(e.value)
    && MemberOf(e.ctype, e.value)
  }

  /** A descriptor as `calloc` leaves it: every byte zero, so type 0, which is BOOL. */
  const ZeroInfo: ControlInfo := ControlInfo(0, "", Bool, 0, Zeroed, false)

  /** `struct audio_tool_mixer_cache`. */
  class Cache {
    var count: nat
    var ctrls: array<ControlInfo>

    /** A count plus an array of exactly `count` well-formed descriptors. */
    ghost predicate Valid()
      reads this, ctrls
    {
      ctrls.Length == count && forall i :: 0 <= i < ctrls.Length ==> EntryFits(ctrls[i])
    }

    function Entries(): seq<ControlInfo>
      reads this, ctrls
    {
      ctrls[..]
    }

    /** A cache over static storage, as `g_card_mix_defaults` is set up. */
    constructor FromTable(entries: seq<ControlInfo>)
      requires forall i :: 0 <= i < |entries| ==> EntryFits(entries[i])
      ensures Valid() && fresh(ctrls)
      ensures Entries() == entries && count == |entries|
    {
      count := |entries|;
      ctrls := new ControlInfo[|entries|](i requires 0 <= i < |entries| => entries[i]);
    }
  }

  // ---------------------------------------------------------------------------
  // mixer_cache_init

  /** `mixer_cache_init`: EINVAL for NULL, otherwise an empty cache without storage and 0. */
  method Init(cache: Cache?) returns (r: int)
    modifies cache
    ensures cache == null ==> r == EINVAL
    ensures cache != null ==> r == 0 && cache.Valid() && cache.count == 0 && cache.Entries() == []
  {
    if cache == null {
      return EINVAL;
    }
    cache.count := 0;
    cache.ctrls := new ControlInfo[0];
    return 0;
  }

  // ---------------------------------------------------------------------------
  // mixer_cache_populate

  /** What the code needs of hardware names and labels: they fit the descriptor's buffers. */
  predicate FitsCache(c: Control) {
    && WellFormed(c)
    && (c.name.Some? ==> |c.name.value| < NAME_MAX)
    && (c.ctype == Enum ==> forall k :: 0 <= k < |c.enumNames| ==> |c.enumNames[k]| < ENUM_LABEL_MAX)
  }

  predicate MixerFitsCache(m: Mixer) {
    forall n :: 0 <= n < |m.ctls| ==> m.ctls[n].Some? ==> FitsCache(m.ctls[n].value)
  }

  /** A control that `populate` can read: `mixer_get_ctl` and `mixer_ctl_get_name` are not NULL. */
  predicate Readable(c: Option<Control>) {
    c.Some? && c.value.name.Some?
  }

  /** `num_values` after the cap. */
  function CappedCount(c: Control): (nv: nat)
    ensures nv <= MAX_NUM_VALUES && nv <= |c.values|
    ensures nv == |c.values| || nv == MAX_NUM_VALUES
  {
    if |c.values| > MAX_NUM_VALUES then MAX_NUM_VALUES else |c.values|
  }

  /** The union after `populate` reads the first `CappedCount(c)` slots through the member of `c`'s type. */
  function CapturedValue(c: Control): (u: ValueUnion)
    requires FitsCache(c)
    ensures ValueFits(u) && MemberOf(c.ctype, u)
  {
    var nv := CappedCount(c);
    match c.ctype
    case Bool => IntegerMember(seq(MAX_NUM_VALUES, k requires 0 <= k < MAX_NUM_VALUES => if k < nv then c.values[k] else 0))
    case Int => IntegerMember(seq(MAX_NUM_VALUES, k requires 0 <= k < MAX_NUM_VALUES => if k < nv then c.values[k] else 0))
    case Enum => EnumeratedMember(seq(MAX_NUM_VALUES, k requires 0 <= k < MAX_NUM_VALUES => if k < nv then c.enumNames[c.values[k]] else ""))
    case Byte => ByteMember(seq(MAX_NUM_VALUES, k requires 0 <= k < MAX_NUM_VALUES => if k < nv then U8(c.values[k]) else 0))
    case Int64 => Integer64Member(seq(MAX_NUM_VALUES, k requires 0 <= k < MAX_NUM_VALUES => if k < nv then c.values[k] else 0))
    case _ => Zeroed
  }

  /** Descriptor `n` as `populate` fills it from control `n`. */
  function Captured(n: nat, c: Control): (e: ControlInfo)
    requires c.name.Some? && FitsCache(c)
    ensures EntryFits(e)
  {
    ControlInfo(U32(n), c.name.value, c.ctype, CappedCount(c), CapturedValue(c), false)
  }

  /** The whole cache after a successful `populate` of a mixer whose controls are all readable. */
  function Snapshot(m: Mixer): (s: seq<ControlInfo>)
    requires MixerFitsCache(m)
    requires forall n :: 0 <= n < |m.ctls| ==> Readable(m.ctls[n])
    ensures |s| == |m.ctls|
  {
    seq(|m.ctls|, n requires 0 <= n < |m.ctls| && Readable(m.ctls[n]) && FitsCache(m.ctls[n].value) => Captured(n, m.ctls[n].value))
  }

  /** The first unreadable control, if any. */
  function FirstUnreadable(m: Mixer): (r: Option<nat>)
    ensures r.Some? ==> r.value < |m.ctls| && !Readable(m.ctls[r.value])
    ensures r.Some? ==> forall j :: 0 <= j < r.value ==> Readable(m.ctls[j])
    ensures r.None? ==> forall j :: 0 <= j < |m.ctls| ==> Readable(m.ctls[j])
  {
    FirstUnreadableFrom(m, 0)
  }

  function FirstUnreadableFrom(m: Mixer, from: nat): (r: Option<nat>)
    requires from <= |m.ctls|
    requires forall j :: 0 <= j < from ==> Readable(m.ctls[j])
    ensures r.Some? ==> from <= r.value < |m.ctls| && !Readable(m.ctls[r.value])
    ensures r.Some? ==> forall j :: 0 <= j < r.value ==> Readable(m.ctls[j])
    ensures r.None? ==> forall j :: 0 <= j < |m.ctls| ==> Readable(m.ctls[j])
    decreases |m.ctls| - from
  {
    if from == |m.ctls| then None
    else if !Readable(m.ctls[from]) then Some(from)
    else FirstUnreadableFrom(m, from + 1)
  }

  /**
   * `mixer_cache_populate`. `allocOk` is whether `calloc` succeeds. The old
   * storage is released first; `count` is set before allocation, so after
   * -ENOMEM the cache holds a count but no storage. After ENODEV at control n,
   * entries before n are filled and the rest are as `calloc` left them.
   */
  method Populate(cache: Cache?, mixer: Option<Mixer>, allocOk: bool) returns (r: int)
    requires mixer.Some? ==> MixerFitsCache(mixer.value)
    modifies cache
    ensures cache == null || mixer.None? ==> r == EINVAL
    ensures cache != null && mixer.Some? ==>
      var m := mixer.value;
      && cache.count == |m.ctls|
      && (|m.ctls| > 0 && !allocOk ==> r == -ENOMEM && cache.ctrls.Length == 0)
      && (|m.ctls| == 0 || allocOk ==>
            && fresh(cache.ctrls) && cache.ctrls.Length == |m.ctls|
            && match FirstUnreadable(m)
               case None =>
                 r == 0 && cache.Valid() && cache.Entries() == Snapshot(m)
               case Some(n) =>
                 && r == ENODEV
                 && (forall i :: 0 <= i < n ==> cache.ctrls[i] == Captured(i, m.ctls[i].value))
                 && (forall i :: n <= i < |m.ctls| ==> cache.ctrls[i] == ZeroInfo))
  {
    if cache == null {
      return EINVAL;
    }
    if mixer.None? {
      return EINVAL;
    }
    var m := mixer.value;
    cache.ctrls := new ControlInfo[0];
    var count := NumCtls(m);
    cache.count := count;
    if count > 0 {
      if !allocOk {
        return -ENOMEM;
      }
      cache.ctrls := new ControlInfo[count](_ => ZeroInfo);
    }
    var n := 0;
    while n < count
      invariant 0 <= n <= count && cache.ctrls.Length == count && cache.count == count
      invariant fresh(cache.ctrls)
      invariant forall j :: 0 <= j < n ==> Readable(m.ctls[j])
      invariant forall i :: 0 <= i < n ==> cache.ctrls[i] == Captured(i, m.ctls[i].value)
      invariant forall i :: n <= i < count ==> cache.ctrls[i] == ZeroInfo
    {
      var ctl := GetCtl(m, n);
      if ctl.None? {
        return ENODEV;
      }
      if ctl.value.name.None? {
        return ENODEV;
      }
      var c := ctl.value;
      var nv := |c.values|;
      if nv > MAX_NUM_VALUES {
        nv := MAX_NUM_VALUES;
      }
      var u := ReadValues(c, nv);
      cache.ctrls[n] := ControlInfo(U32(n), c.name.value, c.ctype, nv, u, false);
      n := n + 1;
    }
    assert cache.Entries() == Snapshot(m);
    return 0;
  }

  /** What the inner loop of `populate` stores in numeric slot k. */
  function NumberRead(c: Control, k: nat): int
    requires FitsCache(c) && k < CappedCount(c)
  {
    match c.ctype
    case Byte => U8(c.values[k])
    case Enum => 0
    case Iec958 => 0
    case Unknown => 0
    case _ => c.values[k]
  }

  /** What the inner loop of `populate` stores in label slot k. */
  function LabelRead(c: Control, k: nat): string
    requires FitsCache(c) && k < CappedCount(c)
  {
    if c.ctype == Enum then c.enumNames[c.values[k]] else ""
  }

  /** The inner loop of `populate`: slot by slot through the member of the control's type. */
  method ReadValues(c: Control, nv: nat) returns (u: ValueUnion)
    requires FitsCache(c) && nv == CappedCount(c)
    ensures u == CapturedValue(c)
  {
    var ints: seq<int> := seq(MAX_NUM_VALUES, _ => 0);
    var labels: seq<string> := seq(MAX_NUM_VALUES, _ => "");
    var v := 0;
    while v < nv
      invariant 0 <= v <= nv && |ints| == MAX_NUM_VALUES && |labels| == MAX_NUM_VALUES
      invariant forall k :: 0 <= k < MAX_NUM_VALUES ==> ints[k] == (if k < v then NumberRead(c, k) else 0)
      invariant forall k :: 0 <= k < MAX_NUM_VALUES ==> labels[k] == (if k < v then LabelRead(c, k) else "")
    {
      match c.ctype {
        case Bool => ints := ints[v := c.values[v]];
        case Int => ints := ints[v := c.values[v]];
        case Enum => labels := labels[v := c.enumNames[c.values[v]]];
        case Byte => ints := ints[v := U8(c.values[v])];
        case Int64 => ints := ints[v := c.values[v]];
        case _ =>
      }
      v := v + 1;
    }
    u := match c.ctype
      case Bool => IntegerMember(ints)
      case Int => IntegerMember(ints)
      case Enum => EnumeratedMember(labels)
      case Byte => ByteMember(ints)
      case Int64 => Integer64Member(ints)
      case _ => Zeroed;
  }

  /** After a successful populate: one entry per control, entry n has id n and
      the name and type of control n, and holds at most MAX_NUM_VALUES values. */
  lemma SnapshotShape(m: Mixer, n: nat)
    requires MixerFitsCache(m)
    requires forall j :: 0 <= j < |m.ctls| ==> Readable(m.ctls[j])
    requires n < |m.ctls| < U32_MOD
    ensures |Snapshot(m)| == NumCtls(m)
    ensures Snapshot(m)[n].id == n
    ensures Snapshot(m)[n].name == m.ctls[n].value.name.value
    ensures Snapshot(m)[n].ctype == m.ctls[n].value.ctype
    ensures Snapshot(m)[n].numValues <= MAX_NUM_VALUES
    ensures !Snapshot(m)[n].touch
  {
  }

  // ---------------------------------------------------------------------------
  // mixer_cache_apply

  /** The set call `apply` makes for slot k of entry n (a type it handles). */
  function SlotWrite(n: nat, e: ControlInfo, k: nat): Write
    requires EntryFits(e) && Handled(e.ctype) && k < MAX_NUM_VALUES
  {
    match e.ctype
    case Enum => SetEnumByString(n, EnumSlot(e.value, k))
    case Byte => SetValue(n, k, ByteSlot(e.value, k))
    case Int64 => SetValue(n, k, Integer64Slot(e.value, k))
    case _ => SetValue(n, k, IntegerSlot(e.value, k))
  }

  /** The calls for entry n, slots 0 .. numValues-1 in order; none for an unhandled type. */
  function EntryWrites(n: nat, e: ControlInfo): (ws: seq<Write>)
    requires EntryFits(e)
    ensures |ws| == if Handled(e.ctype) then e.numValues else 0
  {
    if Handled(e.ctype) then seq(e.numValues, k requires 0 <= k < e.numValues => SlotWrite(n, e, k)) else []
  }

  /** The calls for all entries, entry by entry in index order. */
  function AllWrites(es: seq<ControlInfo>): seq<Write>
    requires forall i :: 0 <= i < |es| ==> EntryFits(es[i])
  {
    if es == [] then [] else AllWrites(es[..|es| - 1]) + EntryWrites(|es| - 1, es[|es| - 1])
  }

  /** Some entry has a type `apply` cannot write and at least one value to write. */
  predicate AnyUnhandled(es: seq<ControlInfo>) {
    exists i :: 0 <= i < |es| && !Handled(es[i].ctype) && es[i].numValues > 0
  }

  /**
   * `mixer_cache_apply`: writes the `num_values` slots of each entry to the
   * hardware control at the same position, and returns 1 when some slot had a
   * type it cannot write, having still processed every other entry.
   */
  method Apply(cache: Cache) returns (r: int, writes: seq<Write>)
    requires cache.Valid()
    ensures writes == AllWrites(cache.Entries())
    ensures r == (if AnyUnhandled(cache.Entries()) then 1 else 0)
  {
    r := 0;
    writes := [];
    ghost var es := cache.Entries();
    var n := 0;
    while n < cache.count
      invariant 0 <= n <= cache.count
      invariant writes == AllWrites(es[..n])
      invariant r == (if AnyUnhandled(es[..n]) then 1 else 0)
    {
      var cur := cache.ctrls[n];
      assert cur == es[n];
      var k := 0;
      ghost var before := writes;
      while k < cur.numValues
        invariant 0 <= k <= cur.numValues
        invariant writes == before + (if Handled(cur.ctype) then EntryWrites(n, cur)[..k] else [])
        invariant r == (if AnyUnhandled(es[..n]) || (!Handled(cur.ctype) && k > 0) then 1 else 0)
      {
        if Handled(cur.ctype) {
          EntryWritesNext(n, cur, k);
          writes := writes + [SlotWrite(n, cur, k)];
        } else {
          r := 1;
        }
        k := k + 1;
      }
      AllWritesNext(es, n);
      n := n + 1;
    }
    assert es[..n] == es;
  }

  /** One more slot of an entry's calls. */
  lemma EntryWritesNext(n: nat, e: ControlInfo, k: nat)
    requires EntryFits(e) && Handled(e.ctype) && k < e.numValues
    ensures EntryWrites(n, e)[..k + 1] == EntryWrites(n, e)[..k] + [SlotWrite(n, e, k)]
  {
  }

  /** One more entry of the calls for all entries, and of the unhandled check. */
  lemma AllWritesNext(es: seq<ControlInfo>, n: nat)
    requires n < |es| && forall i :: 0 <= i < |es| ==> EntryFits(es[i])
    ensures Handled(es[n].ctype) ==> EntryWrites(n, es[n])[..es[n].numValues] == EntryWrites(n, es[n])
    ensures AllWrites(es[..n + 1]) == AllWrites(es[..n]) + EntryWrites(n, es[n])
    ensures AnyUnhandled(es[..n + 1]) <==> AnyUnhandled(es[..n]) || (!Handled(es[n].ctype) && es[n].numValues > 0)
  {
    assert es[..n + 1][..n] == es[..n];
    assert es[..n + 1][n] == es[n];
  }

  /** The writes that put back every control's current value, slot for slot, up
      to MAX_NUM_VALUES slots; a BYTE value goes back reduced to 8 bits. */
  function RestoreWrites(m: Mixer): seq<Write>
    requires forall n :: 0 <= n < |m.ctls| ==> m.ctls[n].Some?
    requires forall n :: 0 <= n < |m.ctls| ==> WellFormed(m.ctls[n].value)
    decreases |m.ctls|
  {
    if m.ctls == [] then []
    else
      var n := |m.ctls| - 1;
      RestoreWrites(Mixer(m.ctls[..n])) + ControlRestore(n, m.ctls[n].value)
  }

  /** The calls that put back control n: none for a type without a set call. */
  function ControlRestore(n: nat, c: Control): seq<Write>
    requires WellFormed(c)
  {
    if Handled(c.ctype) then seq(CappedCount(c), k requires 0 <= k < CappedCount(c) => RestoreSlot(n, c, k)) else []
  }

  /** The call that puts back slot k of control n. */
  function RestoreSlot(n: nat, c: Control, k: nat): Write
    requires WellFormed(c) && k < CappedCount(c)
  {
    match c.ctype
    case Enum => SetEnumByString(n, c.enumNames[c.values[k]])
    case Byte => SetValue(n, k, U8(c.values[k]))
    case _ => SetValue(n, k, c.values[k])
  }

  /** One entry of a fresh snapshot writes back its control's current values. */
  lemma EntryRestores(n: nat, c: Control)
    requires c.name.Some? && FitsCache(c)
    ensures EntryWrites(n, Captured(n, c)) == ControlRestore(n, c)
  {
    var e := Captured(n, c);
    if Handled(c.ctype) {
      forall k | 0 <= k < CappedCount(c)
        ensures SlotWrite(n, e, k) == RestoreSlot(n, c, k)
      {
      }
    }
  }

  /** Applying a fresh snapshot writes back exactly what was read. */
  lemma {:induction false} ApplySnapshotRestores(m: Mixer)
    requires MixerFitsCache(m)
    requires forall n :: 0 <= n < |m.ctls| ==> Readable(m.ctls[n])
    ensures AllWrites(Snapshot(m)) == RestoreWrites(m)
    decreases |m.ctls|
  {
    if m.ctls != [] {
      var n := |m.ctls| - 1;
      var m' := Mixer(m.ctls[..n]);
      var s := Snapshot(m);
      ApplySnapshotRestores(m');
      assert s[..n] == Snapshot(m');
      EntryRestores(n, m.ctls[n].value);
      assert s[n] == Captured(n, m.ctls[n].value);
      assert AllWrites(s) == AllWrites(s[..n]) + EntryWrites(n, s[n]);
    }
  }

  // ---------------------------------------------------------------------------
  // mixer_cache_get_id_by_name

  /** Index of the first entry whose name equals `name` exactly. */
  function FirstNamed(es: seq<ControlInfo>, name: string): (r: Option<nat>)
    ensures r.Some? ==> r.value < |es| && es[r.value].name == name
    ensures r.Some? ==> forall j :: 0 <= j < r.value ==> es[j].name != name
    ensures r.None? ==> forall j :: 0 <= j < |es| ==> es[j].name != name
  {
    if es == [] then None
    else if es[0].name == name then Some(0)
    else match FirstNamed(es[1..], name)
      case None => None
      case Some(i) => Some(i + 1)
  }

  /**
   * `mixer_cache_get_id_by_name`: -EINVAL for a NULL cache or name, otherwise
   * the id (read as `int`) of the first entry with exactly that name, or -ENODEV.
   */
  method GetIdByName(cache: Cache?, name: Option<string>) returns (r: int)
    requires cache != null ==> cache.Valid()
    ensures cache == null || name.None? ==> r == -EINVAL
    ensures cache != null && name.Some? ==>
      match FirstNamed(cache.Entries(), name.value)
      case None => r == -ENODEV
      case Some(i) => r == S32OfU32(cache.Entries()[i].id)
  {
    if cache == null || name.None? {
      return -EINVAL;
    }
    var i := 0;
    while i < cache.count
      invariant 0 <= i <= cache.count
      invariant forall j :: 0 <= j < i ==> cache.ctrls[j].name != name.value
    {
      if cache.ctrls[i].name == name.value {
        FirstNamedIs(cache.Entries(), name.value, i);
        return S32OfU32(cache.ctrls[i].id);
      }
      i := i + 1;
    }
    return -ENODEV;
  }

  lemma FirstNamedIs(es: seq<ControlInfo>, name: string, i: nat)
    requires i < |es| && es[i].name == name
    requires forall j :: 0 <= j < i ==> es[j].name != name
    ensures FirstNamed(es, name) == Some(i)
  {
  }

  /** Ids equal positions, as `populate` leaves them. */
  predicate IdsArePositions(es: seq<ControlInfo>) {
    forall i :: 0 <= i < |es| ==> es[i].id == i
  }

  /** With ids equal to positions and fewer than 2^31 entries, a lookup yields
      the position of the first entry with the name (>= 0), or a negative errno. */
  lemma LookupYieldsPosition(es: seq<ControlInfo>, name: string)
    requires IdsArePositions(es) && |es| <= INT32_MAX
    ensures match FirstNamed(es, name)
      case None => -ENODEV < 0
      case Some(i) => S32OfU32(es[i].id) == i >= 0
  {
  }

  // ---------------------------------------------------------------------------
  // mixer_cache_reset_touch, mixer_cache_touch

  function ClearedTouch(es: seq<ControlInfo>): (r: seq<ControlInfo>)
    ensures |r| == |es|
    ensures forall i :: 0 <= i < |es| ==> r[i] == es[i].(touch := false)
  {
    seq(|es|, i requires 0 <= i < |es| => es[i].(touch := false))
  }

  /** `mixer_cache_reset_touch`: clears every flag and changes nothing else. */
  method ResetTouch(cache: Cache?)
    requires cache != null ==> cache.Valid()
    modifies if cache == null then {} else {cache.ctrls}
    ensures cache != null ==> cache.Valid() && cache.Entries() == ClearedTouch(old(cache.Entries()))
  {
    if cache == null {
      return;
    }
    var i := 0;
    while i < cache.count
      invariant 0 <= i <= cache.count
      invariant forall j :: 0 <= j < i ==> cache.ctrls[j] == old(cache.ctrls[j]).(touch := false)
      invariant forall j :: i <= j < cache.count ==> cache.ctrls[j] == old(cache.ctrls[j])
    {
      cache.ctrls[i] := cache.ctrls[i].(touch := false);
      i := i + 1;
    }
  }

  /**
   * The guard of `mixer_cache_touch` as written: it refuses `id < 0` and
   * `id > count`, so `id == count` gets through to `ctrls[count]`.
   */
  predicate TouchGuardAsWritten(id: int, count: int) {
    !(id < 0) && !(id > count)
  }

  /** The written guard admits the index one past the last entry. */
  lemma TouchGuardAdmitsEnd(count: nat)
    ensures TouchGuardAsWritten(count, count)
    ensures !(0 <= count < count)
  {
  }

  /** The entries with the flag of entry `id` set, or unchanged when there is no such entry. */
  function TouchedAt(es: seq<ControlInfo>, id: int): (r: seq<ControlInfo>)
    ensures |r| == |es|
    ensures forall i :: 0 <= i < |es| ==> r[i] == if i == id then es[i].(touch := true) else es[i]
  {
    if 0 <= id < |es| then es[id := es[id].(touch := true)] else es
  }

  /**
   * `mixer_cache_touch` with the guard it evidently intends (`id >= count`
   * refused): sets exactly one flag, ignores ids outside the array and NULL.
   */
  method Touch(cache: Cache?, id: int)
    requires cache != null ==> cache.Valid()
    modifies if cache == null then {} else {cache.ctrls}
    ensures cache != null ==> cache.Valid()
    ensures cache != null ==> cache.Entries() == TouchedAt(old(cache.Entries()), id)
  {
    if cache == null {
      return;
    }
    if id < 0 || id >= cache.count {
      return;
    }
    cache.ctrls[id] := cache.ctrls[id].(touch := true);
  }

  /** Where both guards agree: every id except `count` itself. */
  lemma TouchGuardsAgree(id: int, count: nat)
    requires id != count
    ensures TouchGuardAsWritten(id, count) <==> 0 <= id < count
  {
  }

  // ---------------------------------------------------------------------------
  // mixer_cache_audit_touch

  predicate AllTouched(es: seq<ControlInfo>) {
    forall i :: 0 <= i < |es| ==> es[i].touch
  }

  /** The id (as printed with %d) and name of every untouched entry, in order. */
  function Untouched(es: seq<ControlInfo>): (r: seq<(int, string)>)
    requires forall i :: 0 <= i < |es| ==> IsU32(es[i].id)
    ensures |r| == 0 <==> AllTouched(es)
  {
    if es == [] then []
    else
      var rest := Untouched(es[1..]);
      assert AllTouched(es) <==> es[0].touch && AllTouched(es[1..]) by {
        assert forall i :: 1 <= i < |es| ==> es[i] == es[1..][i - 1];
      }
      if es[0].touch then rest else [(S32OfU32(es[0].id), es[0].name)] + rest
  }

  /**
   * `mixer_cache_audit_touch`: EINVAL for NULL; otherwise 0 when every entry
   * is touched and 1 when some is not; when `verbose`, the untouched entries
   * it reports. It reads the cache only.
   */
  method AuditTouch(cache: Cache?, verbose: bool) returns (r: int, report: seq<(int, string)>)
    requires cache != null ==> cache.Valid()
    ensures cache == null ==> r == EINVAL && report == []
    ensures cache != null ==> (r == 0 <==> AllTouched(cache.Entries())) && (r == 0 || r == 1)
    ensures cache != null ==> report == if verbose then Untouched(cache.Entries()) else []
  {
    report := [];
    if cache == null {
      return EINVAL, [];
    }
    r := 0;
    var i := cache.count;
    // The walk is front to back; the report is built from the back so that each
    // step prepends, and the flag does not depend on the order.
    while i > 0
      invariant 0 <= i <= cache.count
      invariant r == 0 <==> AllTouched(cache.ctrls[i..])
      invariant r == 0 || r == 1
      invariant report == if verbose then Untouched(cache.ctrls[i..]) else []
    {
      i := i - 1;
      var cur := cache.ctrls[i];
      assert cache.ctrls[i..][1..] == cache.ctrls[i + 1..];
      if !cur.touch {
        r := 1;
        if verbose {
          report := [(S32OfU32(cur.id), cur.name)] + report;
        }
      }
      assert AllTouched(cache.ctrls[i..]) <==> cur.touch && AllTouched(cache.ctrls[i + 1..]) by {
        assert forall j :: i < j < cache.count ==> cache.ctrls[i..][j - i] == cache.ctrls[j];
      }
    }
    assert cache.ctrls[0..] == cache.Entries();
  }

  /** A reset followed by an audit reports incomplete coverage whenever there is an entry. */
  lemma ResetThenAuditIncomplete(es: seq<ControlInfo>)
    requires |es| > 0
    ensures !AllTouched(ClearedTouch(es))
  {
    assert !ClearedTouch(es)[0].touch;
  }
}
