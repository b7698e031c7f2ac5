/**
 * The part of the tinyalsa mixer interface the core uses, as plain data: a mixer
 * is the sequence of its controls (an absent element stands for a NULL
 * `mixer_get_ctl`), and every set call the core makes is recorded as a `Write`
 * rather than played against hardware.
 */
module Tinyalsa {
  import opened Options
  import opened CInt
  import opened Text

  /** `enum mixer_ctl_type`, in declaration order (BOOL is 0). */
  datatype CtlType = Bool | Int | Enum | Byte | Iec958 | Int64 | Unknown

  /** `mixer_ctl_get_type_string`. */
  function TypeString(t: CtlType): (s: string)
    ensures s != [] && s[0] != '#' && s != "#N/A"
    ensures NoChar(s, '\t') && NoChar(s, '\n') && NoChar(s, '\0')
    ensures s == "ENUM" <==> t == Enum
  {
    match t
    case Bool => "BOOL"
    case Int => "INT"
    case Enum => "ENUM"
    case Byte => "BYTE"
    case Iec958 => "IEC958"
    case Int64 => "INT64"
    case Unknown => "Unknown"
  }

  lemma TypeStringInjective(s: CtlType, t: CtlType)
    ensures TypeString(s) == TypeString(t) <==> s == t
  {
    if s != t {
      var a, b := TypeString(s), TypeString(t);
      assert |a| != |b| || a[0] != b[0] || a[1] != b[1];
    }
  }

  /**
   * One control: `mixer_ctl_get_name` (None for NULL), `mixer_ctl_get_type`,
   * the current `mixer_ctl_get_value` of each of its `mixer_ctl_get_num_values`
   * slots, and the labels `mixer_ctl_get_enum_string` gives for an ENUM index.
   */
  datatype Control = Control(name: Option<string>, ctype: CtlType, values: seq<int>, enumNames: seq<string>)

  datatype Mixer = Mixer(ctls: seq<Option<Control>>)

  /** `mixer_get_num_ctls`. */
  function NumCtls(m: Mixer): nat { |m.ctls| }

  /** `mixer_get_ctl(mixer, id)`: NULL past the last control. */
  function GetCtl(m: Mixer, id: int): Option<Control> {
    if 0 <= id < |m.ctls| then m.ctls[id] else None
  }

  /** What the kernel promises of a control: int-sized values, ENUM values that index a label. */
  predicate WellFormed(c: Control) {
    && (forall k :: 0 <= k < |c.values| ==> IsS32(c.values[k]))
    && (c.ctype == Enum ==> forall k :: 0 <= k < |c.values| ==> 0 <= c.values[k] < |c.enumNames|)
  }

  /** A set call: `mixer_ctl_set_value(ctl, slot, value)` or `mixer_ctl_set_enum_by_string(ctl, name)`,
      `ctl` being the index the control was fetched with. */
  datatype Write = SetValue(ctl: int, slot: int, value: int) | SetEnumByString(ctl: int, enumName: string)
}
