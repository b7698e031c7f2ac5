/**
 * What save.c and restore.c promise together: restoring the file `save` wrote,
 * on the same card, sets every INT, BOOL and BYTE slot back to its value and
 * every ENUM slot back to its label, in control and slot order, touches every
 * control, and so ends with the audit reporting nothing missing.
 */
module SaveRestore {
  import opened Options
  import opened CInt
  import opened Text
  import opened Tinyalsa
  import opened Restore
  import opened Save

  /** Text a tab-separated line can carry back unchanged. */
  predicate PlainText(s: string) {
    s != [] && NoChar(s, '\t') && NoChar(s, '\n') && NoChar(s, '\0')
  }

  /** A control whose line reads back: a plain name not starting like a comment,
      plain ENUM labels other than "#N/A", and a line that fits the buffer. */
  predicate RestorableControl(c: Control)
    requires c.name.Some? && WellFormed(c)
  {
    && PlainText(c.name.value) && c.name.value[0] != '#'
    && (c.ctype == Enum ==> forall k :: 0 <= k < |c.enumNames| ==> PlainText(c.enumNames[k]) && c.enumNames[k] != "#N/A")
    && |DumpLine(c)| < BUFSIZE
  }

  /** A mixer whose dump restores: every control printable and restorable, the
      names distinct, and fewer controls than the id that means "none". */
  predicate Restorable(m: Mixer) {
    && MixerSavable(m) && DbReadable(m)
    && |m.ctls| < NO_CONTROL
    && (forall n :: 0 <= n < |m.ctls| ==> RestorableControl(m.ctls[n].value))
    && (forall i, j :: 0 <= i < j < |m.ctls| ==> m.ctls[i].value.name != m.ctls[j].value.name)
  }

  // ---------------------------------------------------------------------------
  // The set calls a restore of a saved file should make

  /** The call that sets slot k of control n back to its saved value. */
  function SlotWrites(n: nat, c: Control, k: nat): seq<Write>
    requires WellFormed(c) && k < |c.values|
  {
    match c.ctype
    case Int => [SetValue(n, k, c.values[k])]
    case Bool => [SetValue(n, k, c.values[k])]
    case Byte => [SetValue(n, k, c.values[k])]
    case Enum => [SetEnumByString(n, c.enumNames[c.values[k]])]
    case _ => []
  }

  /** The calls for slots `from` onwards of control n. */
  function ControlWrites(n: nat, c: Control, from: nat): seq<Write>
    requires WellFormed(c)
    decreases |c.values| - from
  {
    if from >= |c.values| then [] else SlotWrites(n, c, from) + ControlWrites(n, c, from + 1)
  }

  /** The calls for controls `from` onwards, in order. */
  function MixerWrites(m: Mixer, from: nat): seq<Write>
    requires MixerSavable(m)
    decreases |m.ctls| - from
  {
    if from >= |m.ctls| then [] else ControlWrites(from, m.ctls[from].value, 0) + MixerWrites(m, from + 1)
  }

  /** The list with the first `i` controls touched. */
  function Touched(m: Mixer, i: nat): (r: seq<DbInfo>)
    requires DbReadable(m)
    ensures |r| == |m.ctls|
    ensures forall j :: 0 <= j < |r| ==> r[j] == DbOf(m)[j].(touch := j < i)
  {
    seq(|m.ctls|, j requires 0 <= j < |m.ctls| => DbOf(m)[j].(touch := j < i))
  }

  // ---------------------------------------------------------------------------
  // Reading the file back into lines and fields

  lemma {:induction false} LinesOfUnlines(ls: seq<string>, max: nat)
    requires 0 < max
    requires forall i :: 0 <= i < |ls| ==> ls[i] != [] && NoChar(ls[i], '\n') && NoChar(ls[i], '\0') && |ls[i]| < max
    ensures Lines(Unlines(ls), max) == ls
    decreases |ls|
  {
    var s := Unlines(ls);
    if ls == [] {
      assert CopyCount(s, max) == 0;
    } else {
      var l := ls[0];
      var rest := Unlines(ls[1..]);
      assert s == l + "\n" + rest;
      assert s[..|l|] == l;
      NewlineIndexIs(s, |l|);
      assert CopyCount(s, max) == |l| && Consumed(s, max) == |l| + 1;
      assert s[|l| + 1..] == rest;
      CStrWhole(l);
      assert LineText(s, max) == l;
      LinesOfUnlines(ls[1..], max);
    }
  }

  /** For newline-terminated lines that fit the buffer, the read loop's last
      call is at the end of the text. */
  lemma {:induction false} FinalCursorOfUnlines(ls: seq<string>, max: nat)
    requires 0 < max
    requires forall i :: 0 <= i < |ls| ==> ls[i] != [] && NoChar(ls[i], '\n') && |ls[i]| < max
    ensures FinalCursor(Unlines(ls), max) == |Unlines(ls)|
    decreases |ls|
  {
    var s := Unlines(ls);
    if ls == [] {
      assert CopyCount(s, max) == 0;
    } else {
      var l := ls[0];
      var rest := Unlines(ls[1..]);
      assert s == l + "\n" + rest;
      assert s[..|l|] == l;
      NewlineIndexIs(s, |l|);
      assert CopyCount(s, max) == |l| && Consumed(s, max) == |l| + 1;
      assert s[|l| + 1..] == rest;
      FinalCursorOfUnlines(ls[1..], max);
    }
  }

  /** Restoring any file that `save` wrote ends with a `read_line` call at the
      end of the file, whose loop test as written reads one character past the
      end of the mapping. */
  lemma SavedFileReadPastEnd(m: Mixer)
    requires Restorable(m)
    ensures FinalCursor(Dump(m), BUFSIZE) == |Dump(m)|
    ensures ReadsPastEndAsWritten(Dump(m), |Dump(m)|, BUFSIZE)
  {
    var ls := [HEADER] + DumpLines(m);
    HeaderShape();
    forall i | 0 <= i < |ls|
      ensures ls[i] != [] && NoChar(ls[i], '\n') && |ls[i]| < BUFSIZE
    {
      if i > 0 {
        DumpLineShape(m.ctls[i - 1].value);
      }
    }
    FinalCursorOfUnlines(ls, BUFSIZE);
    assert Dump(m)[|Dump(m)|..] == [];
  }

  /** Every value token of a restorable control is plain text. */
  lemma TokensPlain(c: Control)
    requires c.name.Some? && WellFormed(c) && RestorableControl(c)
    ensures forall k :: 0 <= k < |c.values| ==> PlainText(Tokens(c)[k])
  {
    forall k | 0 <= k < |c.values|
      ensures PlainText(Tokens(c)[k])
    {
      var t := ValueToken(c, k);
      if c.ctype == Enum {
        assert PlainText(c.enumNames[c.values[k]]);
      }
    }
  }

  /** Every field of a restorable control's line is plain text. */
  lemma FieldsPlain(c: Control)
    requires c.name.Some? && WellFormed(c) && RestorableControl(c)
    ensures forall k :: 0 <= k < |LineFields(c)| ==> PlainText(LineFields(c)[k])
  {
    var fs := LineFields(c);
    TokensPlain(c);
    forall k | 0 <= k < |fs|
      ensures PlainText(fs[k])
    {
      if k >= 3 {
        assert fs[k] == Tokens(c)[k - 3];
      }
    }
  }

  lemma DumpLineShape(c: Control)
    requires c.name.Some? && WellFormed(c) && RestorableControl(c)
    ensures TabFields(DumpLine(c)) == LineFields(c)
    ensures DumpLine(c) != [] && DumpLine(c)[0] != '#'
    ensures NoChar(DumpLine(c), '\n') && NoChar(DumpLine(c), '\0') && |DumpLine(c)| < BUFSIZE
  {
    var fs := LineFields(c);
    FieldsPlain(c);
    SplitJoin(fs);
    JoinHead(fs);
    JoinNoChar(fs, '\n');
    JoinNoChar(fs, '\0');
  }

  lemma HeaderShape()
    ensures HEADER != [] && HEADER[0] == '#' && |HEADER| < BUFSIZE
    ensures NoChar(HEADER, '\n') && NoChar(HEADER, '\0')
  {
    var c := [HEADER_0, HEADER_1, HEADER_2, HEADER_3];
    forall k | 0 <= k < 4
      ensures NoChar(c[k], '\n') && NoChar(c[k], '\0')
    {
    }
    NoCharConcat(HEADER_0, HEADER_1, '\n');
    NoCharConcat(HEADER_0 + HEADER_1, HEADER_2, '\n');
    NoCharConcat(HEADER_0 + HEADER_1 + HEADER_2, HEADER_3, '\n');
    NoCharConcat(HEADER_0, HEADER_1, '\0');
    NoCharConcat(HEADER_0 + HEADER_1, HEADER_2, '\0');
    NoCharConcat(HEADER_0 + HEADER_1 + HEADER_2, HEADER_3, '\0');
  }

  /** The lines `restore` reads from a dump: the header, then one per control. */
  lemma DumpLinesRead(m: Mixer)
    requires Restorable(m)
    ensures Lines(Dump(m), BUFSIZE) == [HEADER] + DumpLines(m)
  {
    var ls := [HEADER] + DumpLines(m);
    HeaderShape();
    forall i | 0 <= i < |ls|
      ensures ls[i] != [] && NoChar(ls[i], '\n') && NoChar(ls[i], '\0') && |ls[i]| < BUFSIZE
    {
      if i > 0 {
        DumpLineShape(m.ctls[i - 1].value);
      }
    }
    LinesOfUnlines(ls, BUFSIZE);
  }

  // ---------------------------------------------------------------------------
  // One line

  /** The state once the count field of control n's line is read, before value k. */
  function ValuesState(n: nat, c: Control, k: nat): LineState {
    LineState(FVals, n, Some(c), TypeString(c.ctype), k)
  }

  /** The value fields from k on set slots k onwards. */
  lemma {:induction false} ValuesRestore(n: nat, c: Control, k: nat, nodes: seq<DbInfo>, m: Mixer)
    requires c.name.Some? && WellFormed(c) && RestorableControl(c) && k <= |c.values|
    ensures Run(ValuesState(n, c, k), Tokens(c)[k..], nodes, m) == Outcome(ValuesState(n, c, |c.values|), ControlWrites(n, c, k))
    decreases |c.values| - k
  {
    if k < |c.values| {
      var t := ValueToken(c, k);
      ValueRestores(n, c, k, nodes, m);
      assert Tokens(c)[k..] == [t] + Tokens(c)[k + 1..];
      RunFirst(ValuesState(n, c, k), t, Tokens(c)[k + 1..], nodes, m);
      ValuesRestore(n, c, k + 1, nodes, m);
    } else {
      assert Tokens(c)[k..] == [];
    }
  }

  /** Value field k sets slot k as saved and moves to slot k + 1. */
  lemma ValueRestores(n: nat, c: Control, k: nat, nodes: seq<DbInfo>, m: Mixer)
    requires c.name.Some? && WellFormed(c) && RestorableControl(c) && k < |c.values|
    ensures Step(ValuesState(n, c, k), ValueToken(c, k), nodes, m).state == ValuesState(n, c, k + 1)
    ensures Step(ValuesState(n, c, k), ValueToken(c, k), nodes, m).writes == SlotWrites(n, c, k)
  {
    if c.ctype in {Int, Bool, Byte} {
      NumberRestores(n, c, k, nodes, m);
    } else if c.ctype == Enum {
      assert PlainText(c.enumNames[c.values[k]]);
    }
  }

  /** A number printed with `%u` and read back through `atoi` sets the value saved. */
  lemma NumberRestores(n: nat, c: Control, k: nat, nodes: seq<DbInfo>, m: Mixer)
    requires WellFormed(c) && k < |c.values| && c.ctype in {Int, Bool, Byte}
    ensures Step(ValuesState(n, c, k), ValueToken(c, k), nodes, m).writes == SlotWrites(n, c, k)
  {
    var v := c.values[k];
    var t := ValueToken(c, k);
    assert t == Decimal(U32(v));
    NumberReadsBack(v);
    assert t != "#N/A" by {
      assert t[0] != '#';
    }
    assert TypeString(c.ctype) != "ENUM";
    assert Step(ValuesState(n, c, k), t, nodes, m).writes == [SetValue(n, k, v)];
  }

  /** `atoi` of the `%u` text of an `int`, passed back as `int`, is the `int`. */
  lemma NumberReadsBack(v: int)
    requires IsS32(v)
    ensures S32OfU32(U32(Atoi(Decimal(U32(v))))) == v
  {
    AtoiDecimal(U32(v));
    S32ThroughU32(v);
  }

  /** Control n's line, read with the first i controls touched, sets its slots
      and touches control n. */
  lemma LineRestore(m: Mixer, n: nat, i: nat)
    requires Restorable(m) && n < |m.ctls|
    ensures LineEffect(DumpLine(m.ctls[n].value), Touched(m, i), m) ==
      LineResult(TouchFirst(Touched(m, i), n), ControlWrites(n, m.ctls[n].value, 0))
  {
    var c := m.ctls[n].value;
    var nodes := Touched(m, i);
    DumpLineShape(c);
    NameFieldFinds(m, n, i);
    HeadFields(n, c, nodes, m);
    assert Tokens(c)[0..] == Tokens(c);
    ValuesRestore(n, c, 0, nodes, m);
  }

  /** The name, type and count fields of control n's line find the control, set
      nothing and lead to its first value field. */
  lemma HeadFields(n: nat, c: Control, nodes: seq<DbInfo>, m: Mixer)
    requires c.name.Some? && WellFormed(c) && |c.values| < U32_MOD
    requires Step(START, c.name.value, nodes, m) == StepOutcome(LineState(FType, n, Some(c), "", 0), [], false)
    ensures Run(START, LineFields(c), nodes, m) == Run(ValuesState(n, c, 0), Tokens(c), nodes, m)
  {
    var fs := LineFields(c);
    assert fs == [fs[0]] + ([fs[1]] + ([fs[2]] + Tokens(c)));
    var named := LineState(FType, n, Some(c), "", 0);
    var typed := LineState(FCount, n, Some(c), TypeString(c.ctype), 0);
    TypeFieldMatches(n, c, nodes, m);
    CountFieldMatches(n, c, nodes, m);
    QuietField(typed, fs[2], Tokens(c), nodes, m, ValuesState(n, c, 0));
    QuietField(named, fs[1], [fs[2]] + Tokens(c), nodes, m, typed);
    QuietField(START, fs[0], [fs[1]] + ([fs[2]] + Tokens(c)), nodes, m, named);
  }

  /** A field that sets nothing only hands its state on to the rest of the line. */
  lemma QuietField(st: LineState, text: string, fields: seq<string>, nodes: seq<DbInfo>, m: Mixer, next: LineState)
    requires Step(st, text, nodes, m) == StepOutcome(next, [], false)
    ensures Run(st, [text] + fields, nodes, m) == Run(next, fields, nodes, m)
  {
    RunFirst(st, text, fields, nodes, m);
    var rest := Run(next, fields, nodes, m);
    assert [] + rest.writes == rest.writes;
  }

  /** The name field finds control n among the first controls. */
  lemma NameFieldFinds(m: Mixer, n: nat, i: nat)
    requires Restorable(m) && n < |m.ctls|
    ensures Step(START, m.ctls[n].value.name.value, Touched(m, i), m)
      == StepOutcome(LineState(FType, n, Some(m.ctls[n].value), "", 0), [], false)
  {
    FirstDbNamedIs(Touched(m, i), m.ctls[n].value.name.value, n);
  }

  /** The type field matches the control it names. */
  lemma TypeFieldMatches(n: nat, c: Control, nodes: seq<DbInfo>, m: Mixer)
    ensures Step(LineState(FType, n, Some(c), "", 0), TypeString(c.ctype), nodes, m)
      == StepOutcome(LineState(FCount, n, Some(c), TypeString(c.ctype), 0), [], false)
  {
  }

  /** The count field, printed with `%u`, matches the control's value count. */
  lemma CountFieldMatches(n: nat, c: Control, nodes: seq<DbInfo>, m: Mixer)
    requires |c.values| < U32_MOD
    ensures Step(LineState(FCount, n, Some(c), TypeString(c.ctype), 0), Decimal(|c.values|), nodes, m)
      == StepOutcome(ValuesState(n, c, 0), [], false)
  {
    var v := |c.values|;
    AtoiDecimal(v);
    assert U32(Atoi(Decimal(v))) == v;
    assert CtlNumValues(Some(c)) == v;
  }

  /** Touching control i after the first i touches the first i + 1. */
  lemma TouchNext(m: Mixer, i: nat)
    requires DbReadable(m) && i < |m.ctls| && |m.ctls| < NO_CONTROL
    ensures TouchFirst(Touched(m, i), i) == Touched(m, i + 1)
  {
    FirstWithIdIs(Touched(m, i), i, i);
  }

  /** The control lines from control i on, read with the first i touched. */
  lemma {:induction false} LinesRestore(m: Mixer, i: nat)
    requires Restorable(m) && i <= |m.ctls|
    ensures RestoreLines(DumpLines(m)[i..], Touched(m, i), m) == LineResult(Touched(m, |m.ctls|), MixerWrites(m, i))
    decreases |m.ctls| - i
  {
    var ls := DumpLines(m)[i..];
    if i < |m.ctls| {
      LineRestore(m, i, i);
      TouchNext(m, i);
      assert ls[1..] == DumpLines(m)[i + 1..];
      LinesRestore(m, i + 1);
    } else {
      assert ls == [];
    }
  }

  /**
   * The round trip: restoring what `save` wrote, with a freshly reset list,
   * sets every saved slot back (the calls `MixerWrites` lists), touches every
   * control, and so the audit returns 0.
   */
  lemma SaveRestoreRoundTrip(m: Mixer)
    requires Restorable(m)
    ensures
      var res := RestoreLines(Lines(Dump(m), BUFSIZE), Cleared(DbOf(m)), m);
      && res.writes == MixerWrites(m, 0)
      && AllTouched(res.nodes)
      && Audit(res.nodes) == 0
  {
    DumpLinesRead(m);
    assert Cleared(DbOf(m)) == Touched(m, 0);
    HeaderShape();
    assert LineEffect(HEADER, Touched(m, 0), m) == LineResult(Touched(m, 0), []);
    assert ([HEADER] + DumpLines(m))[1..] == DumpLines(m)[0..];
    LinesRestore(m, 0);
  }
}
