/**
 * The `save` command of save.c: a header line, then one line per control with
 * its name, type, value count and values separated by tabs. The file written
 * is returned as text.
 */
module Save {
  import opened Options
  import opened CInt
  import opened Text
  import opened Tinyalsa

  /** The header line: "# Format: CTL_NAME<tab>CTL_TYPE<tab>NUM_VALS<tab>VAL1<tab>VAL2...",
      its text spelling out "<tab>" (held in pieces so each can be read off). */
  const HEADER: string := HEADER_0 + HEADER_1 + HEADER_2 + HEADER_3
  const HEADER_0: string := "# Format: CTL_NAME"
  const HEADER_1: string := "<tab>CTL_TYPE<tab>"
  const HEADER_2: string := "NUM_VALS<tab>VAL1"
  const HEADER_3: string := "<tab>VAL2..."

  /** A control `save_main` can print: present, named, as the kernel reports it,
      with an `unsigned` value count. */
  predicate Savable(c: Option<Control>) {
    c.Some? && c.value.name.Some? && WellFormed(c.value) && IsU32(|c.value.values|)
  }

  predicate MixerSavable(m: Mixer) {
    IsU32(|m.ctls|) && forall n :: 0 <= n < |m.ctls| ==> Savable(m.ctls[n])
  }

  /**
   * The token for value slot `k`: INT, BOOL and BYTE print the value with `%u`
   * (as `unsigned`), ENUM prints the label of the value, any other type "#N/A".
   */
  function ValueToken(c: Control, k: nat): (t: string)
    requires WellFormed(c) && k < |c.values|
    ensures c.ctype in {Int, Bool, Byte} ==> t == Decimal(U32(c.values[k]))
    ensures c.ctype == Enum ==> t == c.enumNames[c.values[k]]
    ensures c.ctype !in {Int, Bool, Byte, Enum} ==> t == "#N/A"
  {
    match c.ctype
    case Int => Decimal(U32(c.values[k]))
    case Bool => Decimal(U32(c.values[k]))
    case Byte => Decimal(U32(c.values[k]))
    case Enum => c.enumNames[c.values[k]]
    case _ => "#N/A"
  }

  /** The value tokens of a control, one per slot. */
  function Tokens(c: Control): (ts: seq<string>)
    requires WellFormed(c)
    ensures |ts| == |c.values|
    ensures forall k :: 0 <= k < |ts| ==> ts[k] == ValueToken(c, k)
  {
    seq(|c.values|, k requires 0 <= k < |c.values| => ValueToken(c, k))
  }

  /** The fields of a control's line: name, type string, count, then the values. */
  function LineFields(c: Control): (fs: seq<string>)
    requires c.name.Some? && WellFormed(c)
    ensures |fs| == 3 + |c.values|
    ensures fs[0] == c.name.value && fs[1] == TypeString(c.ctype) && fs[2] == Decimal(|c.values|)
    ensures fs[3..] == Tokens(c)
  {
    [c.name.value, TypeString(c.ctype), Decimal(|c.values|)] + Tokens(c)
  }

  /** The line printed for one control, without its newline. */
  function DumpLine(c: Control): string
    requires c.name.Some? && WellFormed(c)
  {
    JoinTabs(LineFields(c))
  }

  /** Lines each followed by a newline. */
  function Unlines(ls: seq<string>): string
    decreases |ls|
  {
    if ls == [] then "" else ls[0] + "\n" + Unlines(ls[1..])
  }

  lemma {:induction false} UnlinesSnoc(ls: seq<string>, l: string)
    ensures Unlines(ls + [l]) == Unlines(ls) + l + "\n"
    decreases |ls|
  {
    if ls == [] {
      assert ([l])[1..] == [];
    } else {
      assert (ls + [l])[1..] == ls[1..] + [l];
      UnlinesSnoc(ls[1..], l);
    }
  }

  /** The control lines, in control order. */
  function DumpLines(m: Mixer): (ls: seq<string>)
    requires MixerSavable(m)
    ensures |ls| == |m.ctls|
    ensures forall n :: 0 <= n < |ls| ==> ls[n] == DumpLine(m.ctls[n].value)
  {
    seq(|m.ctls|, n requires 0 <= n < |m.ctls| && Savable(m.ctls[n]) => DumpLine(m.ctls[n].value))
  }

  /** The whole file: the header, then a line per control. */
  function Dump(m: Mixer): string
    requires MixerSavable(m)
  {
    Unlines([HEADER] + DumpLines(m))
  }

  /**
   * `save_main`. `mixer` stands for `mixer_open` (None when it fails) and
   * `fileOk` for whether `fopen` succeeds. On success the text written is the
   * dump of the mixer.
   */
  method SaveMain(argv: seq<string>, mixer: Option<Mixer>, fileOk: bool) returns (r: int, text: string)
    requires mixer.Some? ==> MixerSavable(mixer.value)
    ensures |argv| != 2 || mixer.None? || !fileOk ==> r == 1 && text == ""
    ensures |argv| == 2 && mixer.Some? && fileOk ==> r == 0 && text == Dump(mixer.value)
  {
    if |argv| != 2 {
      return 1, "";
    }
    if mixer.None? {
      return 1, "";
    }
    var m := mixer.value;
    if !fileOk {
      return 1, "";
    }
    text := HEADER + "\n";
    assert text == Unlines([HEADER] + DumpLines(m)[..0]);
    var count := NumCtls(m);
    var n := 0;
    while n < count
      invariant 0 <= n <= count
      invariant text == Unlines([HEADER] + DumpLines(m)[..n])
    {
      var ctl := GetCtl(m, n).value;
      var line := ctl.name.value + "\t" + TypeString(ctl.ctype) + "\t" + Decimal(|ctl.values|);
      assert line == JoinTabs(LineFields(ctl)[..3]) by {
        var fs := LineFields(ctl)[..3];
        assert fs[1..][1..] == [Decimal(|ctl.values|)];
        assert JoinTabs(fs[1..]) == TypeString(ctl.ctype) + "\t" + Decimal(|ctl.values|);
      }
      var numVals := |ctl.values|;
      var k := 0;
      while k < numVals
        invariant 0 <= k <= numVals
        invariant line == JoinTabs(LineFields(ctl)[..3 + k])
      {
        JoinSnoc(LineFields(ctl)[..3 + k], ValueToken(ctl, k));
        assert LineFields(ctl)[..3 + k + 1] == LineFields(ctl)[..3 + k] + [ValueToken(ctl, k)];
        line := line + "\t" + ValueToken(ctl, k);
        k := k + 1;
      }
      assert LineFields(ctl)[..3 + k] == LineFields(ctl);
      UnlinesSnoc([HEADER] + DumpLines(m)[..n], line);
      assert [HEADER] + DumpLines(m)[..n + 1] == [HEADER] + DumpLines(m)[..n] + [line];
      text := text + line + "\n";
      n := n + 1;
    }
    assert DumpLines(m)[..n] == DumpLines(m);
    return 0, text;
  }
}
