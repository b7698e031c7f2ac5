/**
 * The `restore` command of restore.c: a list of the card's controls (the
 * "mixer_db") is built, every line of the dump file is parsed field by field
 * into set calls, each line touches the control it names, and the command
 * fails when some control was never touched. The file contents are a
 * parameter; the set calls made are returned as `Write`s. Messages are not
 * modelled.
 */
module Restore {
  import opened Options
  import opened CInt
  import opened Text
  import opened Tinyalsa

  /** BUFSIZE, the line buffer: 1 << 15. */
  const BUFSIZE: nat := 32768
  /** CTL_NAME_MAX_LEN, the name buffer of a node, NUL included. */
  const CTL_NAME_MAX_LEN: nat := 256
  /** The id a failed name lookup returns: -1 as `unsigned`. */
  const NO_CONTROL: int := UINT_MAX

  // ---------------------------------------------------------------------------
  // The mixer_db list

  /** `struct mixer_control_info`. */
  datatype DbInfo = DbInfo(name: string, id: int, ctype: CtlType, touch: bool)

  /** `struct mixer_db`, the list held as the sequence of its nodes' data. */
  class MixerDb {
    var nodes: seq<DbInfo>

    constructor ()
      ensures nodes == []
    {
      nodes := [];
    }

    /** `mixer_db_push_back`: the node goes after the last one. */
    method PushBack(node: DbInfo)
      modifies this
      ensures nodes == old(nodes) + [node]
    {
      nodes := nodes + [node];
    }

    /** `mixer_db_reset_touch`: every node untouched, nothing else changed. */
    method ResetTouch()
      modifies this
      ensures nodes == Cleared(old(nodes))
    {
      var i := 0;
      while i < |nodes|
        invariant 0 <= i <= |nodes| == |old(nodes)|
        invariant forall k :: 0 <= k < i ==> nodes[k] == old(nodes)[k].(touch := false)
        invariant forall k :: i <= k < |nodes| ==> nodes[k] == old(nodes)[k]
      {
        nodes := nodes[i := nodes[i].(touch := false)];
        i := i + 1;
      }
    }

    /** `mixer_db_touch`: the first node with the id is touched; an id no node
        has changes nothing. */
    method Touch(id: int)
      modifies this
      ensures nodes == TouchFirst(old(nodes), id)
    {
      var i := 0;
      while i < |nodes|
        invariant 0 <= i <= |nodes|
        invariant nodes == old(nodes)
        invariant forall k :: 0 <= k < i ==> nodes[k].id != id
      {
        if nodes[i].id == id {
          FirstWithIdIs(nodes, id, i);
          nodes := nodes[i := nodes[i].(touch := true)];
          return;
        }
        i := i + 1;
      }
    }

    /** `mixer_db_get_control_id_by_name`: the id of the first node with exactly
        that name, or -1 as `unsigned`. */
    method GetControlIdByName(name: string) returns (id: int)
      ensures id == DbIdByName(nodes, name)
    {
      var i := 0;
      while i < |nodes|
        invariant 0 <= i <= |nodes|
        invariant forall k :: 0 <= k < i ==> nodes[k].name != name
      {
        if nodes[i].name == name {
          FirstDbNamedIs(nodes, name, i);
          return nodes[i].id;
        }
        i := i + 1;
      }
      return NO_CONTROL;
    }

    /** `mixer_db_audit_touch`: 1 when some node is untouched, 0 otherwise. */
    method AuditTouch() returns (r: int)
      ensures r == 0 <==> AllTouched(nodes)
      ensures r == 0 || r == 1
    {
      r := 0;
      var i := 0;
      while i < |nodes|
        invariant 0 <= i <= |nodes|
        invariant r == 0 || r == 1
        invariant r == 0 <==> forall k :: 0 <= k < i ==> nodes[k].touch
      {
        if !nodes[i].touch {
          r := 1;
        }
        i := i + 1;
      }
    }
  }

  /** The nodes with every touch flag cleared. */
  function Cleared(nodes: seq<DbInfo>): (r: seq<DbInfo>)
    ensures |r| == |nodes|
    ensures forall k :: 0 <= k < |r| ==> r[k] == nodes[k].(touch := false)
  {
    seq(|nodes|, k requires 0 <= k < |nodes| => nodes[k].(touch := false))
  }

  predicate AllTouched(nodes: seq<DbInfo>) {
    forall k :: 0 <= k < |nodes| ==> nodes[k].touch
  }

  /** The position of the first node with the id. */
  function FirstWithId(nodes: seq<DbInfo>, id: int): (r: Option<nat>)
    ensures r.Some? ==> r.value < |nodes| && nodes[r.value].id == id
    ensures r.Some? ==> forall j :: 0 <= j < r.value ==> nodes[j].id != id
    ensures r.None? ==> forall j :: 0 <= j < |nodes| ==> nodes[j].id != id
  {
    if nodes == [] then None
    else if nodes[0].id == id then Some(0)
    else match FirstWithId(nodes[1..], id)
      case None => None
      case Some(i) => Some(i + 1)
  }

  lemma FirstWithIdIs(nodes: seq<DbInfo>, id: int, i: nat)
    requires i < |nodes| && nodes[i].id == id
    requires forall j :: 0 <= j < i ==> nodes[j].id != id
    ensures FirstWithId(nodes, id) == Some(i)
  {
  }

  /** The nodes after touching `id`: the first node with it has its flag set. */
  function TouchFirst(nodes: seq<DbInfo>, id: int): (r: seq<DbInfo>)
    ensures |r| == |nodes|
  {
    match FirstWithId(nodes, id)
    case None => nodes
    case Some(i) => nodes[i := nodes[i].(touch := true)]
  }

  /** A touch keeps every name, id and type, and sets exactly the flag of the
      first node with the id, if any. */
  lemma TouchFirstKeeps(nodes: seq<DbInfo>, id: int)
    ensures forall k :: 0 <= k < |nodes| ==>
      var r := TouchFirst(nodes, id)[k];
      r.name == nodes[k].name && r.id == nodes[k].id && r.ctype == nodes[k].ctype
    ensures forall k :: 0 <= k < |nodes| ==> TouchFirst(nodes, id)[k].touch == (nodes[k].touch || FirstWithId(nodes, id) == Some(k))
  {
  }

  /** The position of the first node with the name. */
  function FirstDbNamed(nodes: seq<DbInfo>, name: string): (r: Option<nat>)
    ensures r.Some? ==> r.value < |nodes| && nodes[r.value].name == name
    ensures r.Some? ==> forall j :: 0 <= j < r.value ==> nodes[j].name != name
    ensures r.None? ==> forall j :: 0 <= j < |nodes| ==> nodes[j].name != name
  {
    if nodes == [] then None
    else if nodes[0].name == name then Some(0)
    else match FirstDbNamed(nodes[1..], name)
      case None => None
      case Some(i) => Some(i + 1)
  }

  lemma FirstDbNamedIs(nodes: seq<DbInfo>, name: string, i: nat)
    requires i < |nodes| && nodes[i].name == name
    requires forall j :: 0 <= j < i ==> nodes[j].name != name
    ensures FirstDbNamed(nodes, name) == Some(i)
  {
  }

  /** What the name lookup returns. */
  function DbIdByName(nodes: seq<DbInfo>, name: string): int {
    match FirstDbNamed(nodes, name)
    case None => NO_CONTROL
    case Some(i) => nodes[i].id
  }

  // ---------------------------------------------------------------------------
  // mixer_db_create

  /** A control `mixer_db_create` can copy: present, named, the name fitting
      the node's buffer. */
  predicate NodeReadable(c: Option<Control>) {
    c.Some? && c.value.name.Some? && |c.value.name.value| < CTL_NAME_MAX_LEN && NoChar(c.value.name.value, '\0')
  }

  predicate DbReadable(m: Mixer) {
    forall n :: 0 <= n < |m.ctls| ==> NodeReadable(m.ctls[n])
  }

  /** The list `mixer_db_create` builds: one node per control, in order, its id
      the control's index, untouched. */
  function DbOf(m: Mixer): (r: seq<DbInfo>)
    requires DbReadable(m)
    ensures |r| == NumCtls(m)
    ensures forall n :: 0 <= n < |r| ==>
      r[n] == DbInfo(m.ctls[n].value.name.value, U32(n), m.ctls[n].value.ctype, false)
  {
    seq(|m.ctls|, n requires 0 <= n < |m.ctls| && NodeReadable(m.ctls[n]) =>
      DbInfo(m.ctls[n].value.name.value, U32(n), m.ctls[n].value.ctype, false))
  }

  /** `mixer_db_create`: 1 for a mixer without controls, otherwise 0 and the list. */
  method CreateDb(m: Mixer) returns (r: int, db: MixerDb)
    requires DbReadable(m)
    ensures fresh(db)
    ensures r == 0 || r == 1
    ensures r == 1 <==> NumCtls(m) == 0
    ensures db.nodes == DbOf(m)
  {
    db := new MixerDb();
    var count := NumCtls(m);
    if count == 0 {
      return 1, db;
    }
    var n := 0;
    while n < count
      invariant 0 <= n <= count
      invariant db.nodes == DbOf(m)[..n]
    {
      var ctl := GetCtl(m, n).value;
      db.PushBack(DbInfo(ctl.name.value, U32(n), ctl.ctype, false));
      assert DbOf(m)[..n + 1] == DbOf(m)[..n] + [DbOf(m)[n]];
      n := n + 1;
    }
    assert DbOf(m)[..n] == DbOf(m);
    return 0, db;
  }

  /** With distinct names, looking up a control's name gives its index. */
  lemma DbLookupIsIndex(m: Mixer, n: nat)
    requires DbReadable(m) && n < NumCtls(m)
    requires forall i, j :: 0 <= i < j < |m.ctls| ==> m.ctls[i].value.name != m.ctls[j].value.name
    ensures DbIdByName(DbOf(m), m.ctls[n].value.name.value) == U32(n)
  {
    FirstDbNamedIs(DbOf(m), m.ctls[n].value.name.value, n);
  }

  // ---------------------------------------------------------------------------
  // read_line

  /** Index of the first newline of `s`, or `|s|`. */
  function NewlineIndex(s: string): (i: nat)
    ensures i <= |s|
    ensures i < |s| ==> s[i] == '\n'
    ensures NoChar(s[..i], '\n')
  {
    if s == [] || s[0] == '\n' then 0 else 1 + NewlineIndex(s[1..])
  }

  lemma {:induction false} NewlineIndexIs(s: string, i: nat)
    requires i <= |s| && NoChar(s[..i], '\n') && (i < |s| ==> s[i] == '\n')
    ensures NewlineIndex(s) == i
  {
    if s != [] && s[0] != '\n' {
      assert s[1..][..i - 1] == s[1..i];
      NewlineIndexIs(s[1..], i - 1);
    }
  }

  /** How many characters `read_line` copies from the front of `s` (its result):
      up to the newline, at most `max`. */
  function CopyCount(s: string, max: nat): (n: nat)
    ensures n <= max && n <= |s|
  {
    if NewlineIndex(s) < max then NewlineIndex(s) else max
  }

  /** Where the terminating NUL goes: after the copy, or over its last
      character when the copy filled the buffer. */
  function Filled(n: nat, max: nat): nat
    requires 0 < max && n <= max
  {
    if n < max then n else max - 1
  }

  /** How far the cursor moves: the copied characters and one newline after them. */
  function Consumed(s: string, max: nat): (k: nat)
    ensures CopyCount(s, max) <= k <= |s|
  {
    var n := CopyCount(s, max);
    if n < |s| && s[n] == '\n' then n + 1 else n
  }

  /** The line `process_line` then sees: the buffer up to its first NUL. */
  function LineText(s: string, max: nat): (l: string)
    requires 0 < max
    ensures NoChar(l, '\0') && |l| < max
  {
    CStr(s[..Filled(CopyCount(s, max), max)])
  }

  /** The lines `restore_main` hands to `process_line`, for a buffer of `max`:
      it stops at the first read that copies nothing, so an empty line ends the
      file, and a longer run than `max` is cut into pieces. */
  function Lines(s: string, max: nat): seq<string>
    requires 0 < max
    decreases |s|
  {
    if CopyCount(s, max) == 0 then [] else [LineText(s, max)] + Lines(s[Consumed(s, max)..], max)
  }

  /** Where `restore_main`'s read loop makes its last `read_line` call, the one
      that copies nothing and ends the loop. */
  function FinalCursor(s: string, max: nat): (k: nat)
    requires 0 < max
    ensures k <= |s| && CopyCount(s[k..], max) == 0
    decreases |s|
  {
    if CopyCount(s, max) == 0 then 0
    else
      var c := Consumed(s, max);
      var k := FinalCursor(s[c..], max);
      assert s[c..][k..] == s[c + k..];
      c + k
  }

  /**
   * The loop test of `read_line` as written reads `src[*offset]` before it
   * compares `*offset` with `size`. A test made with `n < max` at the end of
   * the file therefore reads one character past the end of `src`: that is
   * the last test of a call that copies the rest of the file and stops
   * short of `max`.
   */
  predicate ReadsPastEndAsWritten(src: string, offset: nat, max: nat)
    requires offset <= |src|
  {
    CopyCount(src[offset..], max) < max && offset + CopyCount(src[offset..], max) == |src|
  }

  /**
   * `read_line`: copies from `src` at `offset` into `dest` up to a newline, the
   * end of `src` or `max` characters, NUL-terminates in the buffer, consumes one
   * newline, and returns the count copied and the new offset. The loop here
   * compares the cursor with the end of `src` before it reads `src`, the
   * corrected order (see ReadsPastEndAsWritten).
   */
  method ReadLine(dest: array<char>, max: nat, src: string, offset: nat) returns (n: nat, next: nat)
    requires 0 < max <= dest.Length && offset <= |src|
    modifies dest
    ensures n == CopyCount(src[offset..], max)
    ensures next == offset + Consumed(src[offset..], max)
    ensures CStr(dest[..]) == LineText(src[offset..], max)
  {
    ghost var s := src[offset..];
    n := 0;
    next := offset;
    while n < max && next < |src| && src[next] != '\n'
      invariant 0 <= n <= max && next == offset + n <= |src|
      invariant dest[..n] == s[..n]
      invariant NoChar(s[..n], '\n')
    {
      dest[n] := src[next];
      assert s[..n + 1] == s[..n] + [s[n]];
      n := n + 1;
      next := next + 1;
    }
    if n < max {
      NewlineIndexIs(s, n);
    }
    assert n == CopyCount(s, max);
    var f := Filled(n, max);
    dest[f] := '\0';
    assert dest[..f] == s[..f];
    CStrStops(dest[..], f);
    if next < |src| && src[next] == '\n' {
      next := next + 1;
    }
  }

  /** `strlen` of a buffer with its text before a NUL at `f`. */
  lemma {:induction false} CStrStops(b: string, f: nat)
    requires f < |b| && b[f] == '\0'
    ensures CStr(b) == CStr(b[..f])
  {
    if f > 0 && b[0] != '\0' {
      assert b[1..][..f - 1] == b[..f][1..];
      CStrStops(b[1..], f - 1);
    }
  }

  // ---------------------------------------------------------------------------
  // process_line

  /** `enum field_t`. */
  datatype Field = FName | FType | FCount | FVals

  /** The locals `process_line` carries from field to field. */
  datatype LineState = LineState(field: Field, controlId: int, ctl: Option<Control>, ctlType: string, valNo: nat)

  /** The state a line starts in: `control_id` -1, no values yet. */
  const START: LineState := LineState(FName, NO_CONTROL, None, "", 0)

  /** The result of one field: the new state, the set calls, and whether the
      field asked to skip the rest of the line (`pos = length`). */
  datatype StepOutcome = StepOutcome(state: LineState, writes: seq<Write>, exit: bool)

  datatype Outcome = Outcome(state: LineState, writes: seq<Write>)

  /** `mixer_ctl_get_type_string`, "" for NULL. */
  function CtlTypeString(ctl: Option<Control>): (s: string)
    ensures s == "ENUM" <==> ctl.Some? && ctl.value.ctype == Enum
  {
    if ctl.None? then "" else TypeString(ctl.value.ctype)
  }

  /** `mixer_ctl_get_num_values`, 0 for NULL. */
  function CtlNumValues(ctl: Option<Control>): nat {
    if ctl.None? then 0 else |ctl.value.values|
  }

  function NextField(f: Field): Field {
    match f
    case FName => FType
    case FType => FCount
    case FCount => FVals
    case FVals => FVals
  }

  /**
   * One field of a line. A value field sets slot `val_no` from its number (read
   * as `unsigned`, passed on as `int`) or, for an ENUM control, sets the label it
   * spells; "#N/A" sets nothing. Calls on a NULL control have no effect, so none
   * is recorded.
   */
  function Step(st: LineState, text: string, nodes: seq<DbInfo>, m: Mixer): StepOutcome {
    match st.field
    case FName =>
      var id := DbIdByName(nodes, text);
      StepOutcome(st.(field := FType, controlId := id, ctl := GetCtl(m, id)), [], id == NO_CONTROL)
    case FType =>
      var t := CtlTypeString(st.ctl);
      StepOutcome(st.(field := FCount, ctlType := t), [], t != text)
    case FCount =>
      StepOutcome(st.(field := FVals), [], CtlNumValues(st.ctl) != U32(Atoi(text)))
    case FVals =>
      var ws :=
        if text == "#N/A" || st.ctl.None? then []
        else if st.ctlType == "ENUM" then [SetEnumByString(st.controlId, text)]
        else [SetValue(st.controlId, st.valNo, S32OfU32(U32(Atoi(text))))];
      StepOutcome(st.(valNo := st.valNo + 1), ws, text == "#N/A")
  }

  /** The fields of a line as written: every skip request is overwritten by the
      move to the next field, so every field is processed. */
  function Run(st: LineState, fields: seq<string>, nodes: seq<DbInfo>, m: Mixer): Outcome
    decreases |fields|
  {
    if fields == [] then Outcome(st, [])
    else
      var s := Step(st, fields[0], nodes, m);
      var rest := Run(s.state, fields[1..], nodes, m);
      Outcome(rest.state, s.writes + rest.writes)
  }

  /** The fields of a line as evidently intended: a skip request ends the line. */
  function RunStopping(st: LineState, fields: seq<string>, nodes: seq<DbInfo>, m: Mixer): Outcome
    decreases |fields|
  {
    if fields == [] then Outcome(st, [])
    else
      var s := Step(st, fields[0], nodes, m);
      if s.exit then Outcome(s.state, s.writes)
      else
        var rest := RunStopping(s.state, fields[1..], nodes, m);
        Outcome(rest.state, s.writes + rest.writes)
  }

  /** A line's effect: its set calls and the list after the touch. */
  datatype LineResult = LineResult(nodes: seq<DbInfo>, writes: seq<Write>)

  /** `process_line` as written: an empty or comment line does nothing; any other
      line runs all its fields and touches the control its name field found. */
  function LineEffect(line: string, nodes: seq<DbInfo>, m: Mixer): LineResult {
    if line == [] || line[0] == '#' then LineResult(nodes, [])
    else
      var o := Run(START, TabFields(line), nodes, m);
      LineResult(TouchFirst(nodes, o.state.controlId), o.writes)
  }

  /** `process_line` with every skip request honoured. */
  function LineEffectStopping(line: string, nodes: seq<DbInfo>, m: Mixer): LineResult {
    if line == [] || line[0] == '#' then LineResult(nodes, [])
    else
      var o := RunStopping(START, TabFields(line), nodes, m);
      LineResult(TouchFirst(nodes, o.state.controlId), o.writes)
  }

  /** The fields from position `pos` on; none once `pos` is past the end. */
  function Remaining(line: string, pos: nat): seq<string> {
    if pos <= |line| then TabFields(line[pos..]) else []
  }

  lemma FieldAt(line: string, pos: nat)
    requires pos < |line|
    ensures pos + TabIndex(line[pos..]) <= |line|
    ensures Remaining(line, pos) ==
      [line[pos..pos + TabIndex(line[pos..])]] + Remaining(line, pos + TabIndex(line[pos..]) + 1)
  {
    var s := line[pos..];
    var i := TabIndex(s);
    assert s[..i] == line[pos..pos + i];
    assert TabFields(s) == if i == |s| then [s] else [s[..i]] + TabFields(s[i + 1..]);
    if i < |s| {
      assert s[i + 1..] == line[pos + i + 1..];
    } else {
      assert line[pos..pos + i] == s;
    }
  }

  /** The field at `pos`, ending at `sep`, taken off the front of the run over the rest of a line. */
  lemma RunAdvance(line: string, pos: nat, sep: nat, text: string, st: LineState, nodes: seq<DbInfo>, m: Mixer,
                   done: seq<Write>, o: StepOutcome)
    requires pos < |line| && sep == pos + TabIndex(line[pos..]) && sep <= |line| && text == line[pos..sep]
    requires o == Step(st, text, nodes, m)
    ensures After(done, Run(st, Remaining(line, pos), nodes, m)) ==
      After(done + o.writes, Run(o.state, Remaining(line, sep + 1), nodes, m))
  {
    FieldAt(line, pos);
    var fields := Remaining(line, sep + 1);
    assert Remaining(line, pos) == [text] + fields;
    RunFirst(st, text, fields, nodes, m);
    var rest := Run(o.state, fields, nodes, m);
    assert done + (o.writes + rest.writes) == (done + o.writes) + rest.writes;
  }

  /** A run's outcome behind set calls already made. */
  function After(done: seq<Write>, o: Outcome): Outcome {
    Outcome(o.state, done + o.writes)
  }

  /** The `switch` of `process_line` for one field: the locals after it, the set
      calls it makes and whether it asks to skip the rest of the line. */
  method HandleField(db: MixerDb, m: Mixer, st: LineState, text: string) returns (next: LineState, ws: seq<Write>, skip: bool)
    ensures StepOutcome(next, ws, skip) == Step(st, text, db.nodes, m)
  {
    next, ws, skip := st, [], false;
    match st.field {
      case FName =>
        var controlId := db.GetControlIdByName(text);
        if controlId == NO_CONTROL {
          skip := true;
        }
        next := st.(controlId := controlId, ctl := GetCtl(m, controlId));
      case FType =>
        var ctlType := CtlTypeString(st.ctl);
        if ctlType != text {
          skip := true;
        }
        next := st.(ctlType := ctlType);
      case FCount =>
        var ctlCount := CtlNumValues(st.ctl);
        var fileCount := U32(Atoi(text));
        if ctlCount != fileCount {
          skip := true;
        }
      case FVals =>
        if text == "#N/A" {
          skip := true;
        } else if st.ctlType == "ENUM" {
          if st.ctl.Some? {
            ws := [SetEnumByString(st.controlId, text)];
          }
        } else {
          var val := U32(Atoi(text));
          if st.ctl.Some? {
            ws := [SetValue(st.controlId, st.valNo, S32OfU32(val))];
          }
        }
        next := next.(valNo := st.valNo + 1);
    }
    if st.field != FVals {
      next := next.(field := NextField(st.field));
    }
  }

  /**
   * `process_line`: the line is cut at each tab, each field is handled by its
   * kind, and the control named is touched. A field's request to skip the rest
   * (`pos = length`) is overwritten by `pos = sep + 1`, so it has no effect.
   */
  method ProcessLine(line: string, db: MixerDb, m: Mixer) returns (writes: seq<Write>)
    requires NoChar(line, '\0')
    modifies db
    ensures LineResult(db.nodes, writes) == LineEffect(line, old(db.nodes), m)
  {
    var length := |line|;
    if length == 0 {
      return [];
    }
    if line[0] == '#' {
      return [];
    }
    ghost var nodes := db.nodes;
    ghost var total := Run(START, TabFields(line), nodes, m);
    var st := START;
    var pos := 0;
    writes := [];
    assert line[0..] == line;
    while pos < length
      invariant 0 <= pos <= length + 1
      invariant db.nodes == nodes
      invariant total == After(writes, Run(st, Remaining(line, pos), nodes, m))
      decreases length + 1 - pos
    {
      var sep := pos + TabIndex(line[pos..]);
      var text := line[pos..sep];
      var next, ws, skip := HandleField(db, m, st, text);
      RunAdvance(line, pos, sep, text, st, nodes, m, writes, StepOutcome(next, ws, skip));
      if skip {
        pos := length;
      }
      st := next;
      writes := writes + ws;
      pos := sep + 1;
    }
    assert Remaining(line, pos) == [];
    assert total == Outcome(st, writes);
    db.Touch(st.controlId);
  }

  /** The file's lines in order, each touching the list the previous one left. */
  function RestoreLines(lines: seq<string>, nodes: seq<DbInfo>, m: Mixer): LineResult
    decreases |lines|
  {
    if lines == [] then LineResult(nodes, [])
    else
      var first := LineEffect(lines[0], nodes, m);
      var rest := RestoreLines(lines[1..], first.nodes, m);
      LineResult(rest.nodes, first.writes + rest.writes)
  }

  /** A run over lines behind set calls already made. */
  function Then(done: seq<Write>, res: LineResult): LineResult {
    LineResult(res.nodes, done + res.writes)
  }

  lemma RestoreLinesCons(line: string, lines: seq<string>, nodes: seq<DbInfo>, m: Mixer, done: seq<Write>)
    ensures
      var first := LineEffect(line, nodes, m);
      Then(done, RestoreLines([line] + lines, nodes, m)) == Then(done + first.writes, RestoreLines(lines, first.nodes, m))
  {
    assert ([line] + lines)[1..] == lines;
  }

  /** One line of the file applied: the run over the remaining lines moves on. */
  lemma RestoreAdvance(src: string, cursor: nat, line: string, before: seq<DbInfo>, after: seq<DbInfo>, m: Mixer,
                       done: seq<Write>, ws: seq<Write>, total: LineResult)
    requires cursor <= |src| && CopyCount(src[cursor..], BUFSIZE) != 0
    requires line == LineText(src[cursor..], BUFSIZE)
    requires LineResult(after, ws) == LineEffect(line, before, m)
    requires total == Then(done, RestoreLines(Lines(src[cursor..], BUFSIZE), before, m))
    ensures cursor + Consumed(src[cursor..], BUFSIZE) <= |src|
    ensures total == Then(done + ws, RestoreLines(Lines(src[cursor + Consumed(src[cursor..], BUFSIZE)..], BUFSIZE), after, m))
  {
    LinesAdvance(src, cursor, BUFSIZE);
    RestoreLinesCons(line, Lines(src[cursor + Consumed(src[cursor..], BUFSIZE)..], BUFSIZE), before, m, done);
  }

  /** A read that copies something yields the next line and leaves the rest. */
  lemma LinesAdvance(src: string, cursor: nat, max: nat)
    requires 0 < max && cursor <= |src| && CopyCount(src[cursor..], max) != 0
    ensures cursor + Consumed(src[cursor..], max) <= |src|
    ensures Lines(src[cursor..], max) == [LineText(src[cursor..], max)] + Lines(src[cursor + Consumed(src[cursor..], max)..], max)
  {
    var s := src[cursor..];
    assert s[Consumed(s, max)..] == src[cursor + Consumed(s, max)..];
  }

  /** The result `mixer_db_audit_touch` gives for a list. */
  function Audit(nodes: seq<DbInfo>): (r: int)
    ensures r == 0 <==> AllTouched(nodes)
  {
    if AllTouched(nodes) then 0 else 1
  }

  /**
   * `restore_main`. `mixer` stands for `mixer_open` (None when it fails) and
   * `file` for the bytes `open`, `fstat` and `mmap` map (None when one fails).
   * All failures return 1 before any control is set; otherwise the lines are
   * applied in order and the result is the audit of the touches.
   */
  method RestoreMain(argv: seq<string>, mixer: Option<Mixer>, file: Option<string>) returns (r: int, writes: seq<Write>)
    requires mixer.Some? ==> DbReadable(mixer.value)
    ensures |argv| != 2 || mixer.None? || file.None? ==> r == 1 && writes == []
    ensures |argv| == 2 && mixer.Some? && file.Some? && NumCtls(mixer.value) == 0 ==> r == 1 && writes == []
    ensures |argv| == 2 && mixer.Some? && file.Some? && NumCtls(mixer.value) > 0 ==>
      var res := RestoreLines(Lines(file.value, BUFSIZE), Cleared(DbOf(mixer.value)), mixer.value);
      writes == res.writes && r == Audit(res.nodes)
  {
    if |argv| != 2 {
      return 1, [];
    }
    if mixer.None? {
      return 1, [];
    }
    var m := mixer.value;
    if file.None? {
      return 1, [];
    }
    var src := file.value;
    var failed, db := CreateDb(m);
    if failed != 0 {
      return 1, [];
    }
    db.ResetTouch();
    var buf := new char[BUFSIZE];
    var cursor := 0;
    writes := [];
    ghost var total := RestoreLines(Lines(src, BUFSIZE), db.nodes, m);
    assert src[0..] == src;
    while true
      invariant cursor <= |src|
      invariant total == Then(writes, RestoreLines(Lines(src[cursor..], BUFSIZE), db.nodes, m))
      decreases |src| - cursor
    {
      var n, next := ReadLine(buf, BUFSIZE, src, cursor);
      if n == 0 {
        break;
      }
      var line := CStr(buf[..]);
      ghost var before := db.nodes;
      var ws := ProcessLine(line, db, m);
      RestoreAdvance(src, cursor, line, before, db.nodes, m, writes, ws, total);
      writes := writes + ws;
      cursor := next;
    }
    assert Lines(src[cursor..], BUFSIZE) == [];
    r := db.AuditTouch();
  }

  // ---------------------------------------------------------------------------
  // The overwritten skip requests

  /** A one-control mixer: BOOL control "X" with one value. */
  function BoolMixer(): Mixer {
    Mixer([Some(Control(Some("X"), Bool, [0], []))])
  }

  /** As written, a line whose type field does not match the control still sets
      its values: "X\tINT\t1\t5" against the BOOL control X sets slot 0 to 5,
      where honouring the mismatch sets nothing. */
  lemma TypeMismatchStillWrites()
    ensures DbReadable(BoolMixer())
    ensures LineEffect("X\tINT\t1\t5", DbOf(BoolMixer()), BoolMixer()).writes == [SetValue(0, 0, 5)]
    ensures LineEffectStopping("X\tINT\t1\t5", DbOf(BoolMixer()), BoolMixer()).writes == []
  {
    var m := BoolMixer();
    var nodes := DbOf(m);
    var fs := ["X"] + (["INT"] + (["1"] + ["5"]));
    MismatchFields();
    MismatchSteps();
    var s0 := Step(START, "X", nodes, m);
    var s1 := Step(s0.state, "INT", nodes, m);
    var s2 := Step(s1.state, "1", nodes, m);
    RunFirst(s2.state, "5", [], nodes, m);
    RunFirst(s1.state, "1", ["5"], nodes, m);
    RunFirst(s0.state, "INT", ["1"] + ["5"], nodes, m);
    RunFirst(START, "X", ["INT"] + (["1"] + ["5"]), nodes, m);
    assert RunStopping(START, fs, nodes, m).writes == [] by {
      assert fs[1..] == ["INT"] + (["1"] + ["5"]);
    }
  }

  /** The list for the one-control mixer. */
  lemma BoolDb()
    ensures DbReadable(BoolMixer())
    ensures DbOf(BoolMixer()) == [DbInfo("X", 0, Bool, false)]
  {
    var m := BoolMixer();
    assert DbReadable(m);
    assert |DbOf(m)| == 1 && DbOf(m)[0] == DbInfo("X", 0, Bool, false);
  }

  /** Field by field: the name is found at index 0, the type check fails, the
      count check passes, and the value sets slot 0. */
  lemma MismatchSteps()
    ensures DbReadable(BoolMixer())
    ensures
      var m := BoolMixer();
      var nodes := DbOf(m);
      var c := m.ctls[0];
      var s0 := Step(START, "X", nodes, m);
      var s1 := Step(s0.state, "INT", nodes, m);
      var s2 := Step(s1.state, "1", nodes, m);
      && s0 == StepOutcome(LineState(FType, 0, c, "", 0), [], false)
      && s1 == StepOutcome(LineState(FCount, 0, c, "BOOL", 0), [], true)
      && s2 == StepOutcome(LineState(FVals, 0, c, "BOOL", 0), [], false)
      && Step(s2.state, "5", nodes, m).writes == [SetValue(0, 0, 5)]
  {
    BoolDb();
    var m := BoolMixer();
    var nodes := [DbInfo("X", 0, Bool, false)];
    var c := m.ctls[0];
    FirstDbNamedIs(nodes, "X", 0);
    assert Step(START, "X", nodes, m) == StepOutcome(LineState(FType, 0, c, "", 0), [], false);
    CountStep(c);
    ValueStep(c);
  }

  lemma CountStep(c: Option<Control>)
    requires c == BoolMixer().ctls[0]
    ensures Step(LineState(FCount, 0, c, "BOOL", 0), "1", [DbInfo("X", 0, Bool, false)], BoolMixer()) ==
      StepOutcome(LineState(FVals, 0, c, "BOOL", 0), [], false)
  {
    var o := Step(LineState(FCount, 0, c, "BOOL", 0), "1", [DbInfo("X", 0, Bool, false)], BoolMixer());
    assert o.state == LineState(FVals, 0, c, "BOOL", 0) && o.writes == [];
    assert !o.exit by {
      SmallNumbers();
    }
  }

  lemma ValueStep(c: Option<Control>)
    requires c == BoolMixer().ctls[0]
    ensures Step(LineState(FVals, 0, c, "BOOL", 0), "5", [DbInfo("X", 0, Bool, false)], BoolMixer()).writes == [SetValue(0, 0, 5)]
  {
    SmallNumbers();
  }

  /** The fields of the line. */
  lemma MismatchFields()
    ensures TabFields("X\tINT\t1\t5") == ["X"] + (["INT"] + (["1"] + ["5"]))
  {
    var fs := ["X", "INT", "1", "5"];
    assert JoinTabs(fs[3..]) == "5";
    assert JoinTabs(fs[2..]) == "1\t5";
    assert JoinTabs(fs[1..]) == "INT\t1\t5";
    assert JoinTabs(fs) == "X\tINT\t1\t5";
    SplitJoin(fs);
  }

  lemma SmallNumbers()
    ensures Atoi("1") == 1 && Atoi("5") == 5
  {
    assert Decimal(1) == "1" && Decimal(5) == "5";
    AtoiDecimal(1);
    AtoiDecimal(5);
  }

  lemma RunFirst(st: LineState, text: string, fields: seq<string>, nodes: seq<DbInfo>, m: Mixer)
    ensures Run(st, [text] + fields, nodes, m) == After(Step(st, text, nodes, m).writes, Run(Step(st, text, nodes, m).state, fields, nodes, m))
  {
    assert ([text] + fields)[1..] == fields;
  }

  /** Honouring the skip requests, a line sets a value only when its name was
      found and its type and value count match the control. */
  lemma StoppingWritesOnlyMatched(line: string, nodes: seq<DbInfo>, m: Mixer)
    requires LineEffectStopping(line, nodes, m).writes != []
    ensures |TabFields(line)| >= 4
    ensures
      var fs := TabFields(line);
      var id := DbIdByName(nodes, fs[0]);
      && id != NO_CONTROL
      && CtlTypeString(GetCtl(m, id)) == fs[1]
      && CtlNumValues(GetCtl(m, id)) == U32(Atoi(fs[2]))
  {
    var fs := TabFields(line);
    assert fs != [];
    var s0 := Step(START, fs[0], nodes, m);
    assert RunStopping(START, fs, nodes, m).writes ==
      if s0.exit then [] else RunStopping(s0.state, fs[1..], nodes, m).writes;
    assert !s0.exit && |fs| > 1;
    var s1 := Step(s0.state, fs[1], nodes, m);
    assert RunStopping(s0.state, fs[1..], nodes, m).writes ==
      if s1.exit then [] else RunStopping(s1.state, fs[2..], nodes, m).writes by {
      assert fs[1..][0] == fs[1] && fs[1..][1..] == fs[2..];
    }
    assert !s1.exit && |fs| > 2;
    var s2 := Step(s1.state, fs[2], nodes, m);
    assert RunStopping(s1.state, fs[2..], nodes, m).writes ==
      if s2.exit then [] else RunStopping(s2.state, fs[3..], nodes, m).writes by {
      assert fs[2..][0] == fs[2] && fs[2..][1..] == fs[3..];
    }
    assert !s2.exit && |fs| > 3;
  }
}
