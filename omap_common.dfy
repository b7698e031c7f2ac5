/**
 * Code shared by the SDP4430 and OMAP4/5 card modules (card-omap-common-4-5.h):
 * the 79-entry `g_defaults` table, the cache `g_card_mix_defaults` over it, and
 * `get_mixer_defaults`, which overwrites a cache of the live mixer with the
 * defaults of the same name and type and audits that both sides were covered.
 */
module OmapCommon {
  import opened Options
  import opened CInt
  import opened Errno
  import opened Tinyalsa
  import opened MixerCache

  /** `.id = -1` as the `unsigned id` field holds it. */
  const ID_AS_WRITTEN: int := U32(-1)

  /** An `integer` initialiser: the listed values, then zeros. */
  function Numbers(xs: seq<int>): (u: ValueUnion)
    requires |xs| <= MAX_NUM_VALUES
    ensures u.IntegerMember? && ValueFits(u)
    ensures forall k :: 0 <= k < MAX_NUM_VALUES ==> IntegerSlot(u, k) == if k < |xs| then xs[k] else 0
  {
    IntegerMember(xs + seq(MAX_NUM_VALUES - |xs|, _ => 0))
  }

  /** An `enumerated` initialiser: the listed labels, then empty strings. */
  function Labels(ls: seq<string>): (u: ValueUnion)
    requires |ls| <= MAX_NUM_VALUES && forall k :: 0 <= k < |ls| ==> |ls[k]| < ENUM_LABEL_MAX
    ensures u.EnumeratedMember? && ValueFits(u)
    ensures forall k :: 0 <= k < MAX_NUM_VALUES ==> EnumSlot(u, k) == if k < |ls| then ls[k] else ""
  {
    EnumeratedMember(ls + seq(MAX_NUM_VALUES - |ls|, _ => ""))
  }

  /** One initialiser of `g_defaults`, with the id it is written with. */
  function Default(name: string, t: CtlType, nv: nat, u: ValueUnion): ControlInfo {
    ControlInfo(ID_AS_WRITTEN, name, t, nv, u, false)
  }

  /** What every initialiser of `g_defaults` is: a well-formed descriptor of
      type BOOL, INT or ENUM with one or two values and the id -1. */
  predicate DefaultShape(e: ControlInfo) {
    && EntryFits(e)
    && (e.ctype == Bool || e.ctype == Int || e.ctype == Enum)
    && 1 <= e.numValues <= 2
    && e.id == ID_AS_WRITTEN
  }

  type DefaultEntry = e: ControlInfo | DefaultShape(e) witness Default("", Bool, 1, Numbers([0]))

  /** `g_defaults`, in source order, written as chunks of ten initialisers. */
  const G_DEFAULTS: seq<DefaultEntry> :=
    DEFAULTS_0 + DEFAULTS_1 + DEFAULTS_2 + DEFAULTS_3 + DEFAULTS_4 + DEFAULTS_5 + DEFAULTS_6 + DEFAULTS_7

  const DEFAULTS_0: seq<DefaultEntry> := [
      Default("DL1 Equalizer", Enum, 1, Labels(["Flat response", "", "", ""])),
      Default("DL2 Left Equalizer", Enum, 1, Labels(["High-pass 0dB", "", "", ""])),
      Default("DL2 Right Equalizer", Enum, 1, Labels(["High-pass 0dB", "", "", ""])),
      Default("Sidetone Equalizer", Enum, 1, Labels(["Flat response", "", "", ""])),
      Default("AMIC Equalizer", Enum, 1, Labels(["High-pass 0dB", "", "", ""])),
      Default("DMIC Equalizer", Enum, 1, Labels(["High-pass 0dB", "", "", ""])),
      Default("DL1 Media Playback Volume", Int, 1, Numbers([118])),
      Default("DL1 Tones Playback Volume", Int, 1, Numbers([0])),
      Default("DL1 Voice Playback Volume", Int, 1, Numbers([120])),
      Default("DL1 Capture Playback Volume", Int, 1, Numbers([0]))
  ]

  const DEFAULTS_1: seq<DefaultEntry> := [
      Default("DL2 Media Playback Volume", Int, 1, Numbers([118])),
      Default("DL2 Tones Playback Volume", Int, 1, Numbers([0])),
      Default("DL2 Voice Playback Volume", Int, 1, Numbers([120])),
      Default("DL2 Capture Playback Volume", Int, 1, Numbers([0])),
      Default("VXREC Media Volume", Int, 1, Numbers([0])),
      Default("VXREC Tones Volume", Int, 1, Numbers([0])),
      Default("VXREC Voice DL Volume", Int, 1, Numbers([0])),
      Default("VXREC Voice UL Volume", Int, 1, Numbers([0])),
      Default("AUDUL Media Volume", Int, 1, Numbers([0])),
      Default("AUDUL Tones Volume", Int, 1, Numbers([0]))
  ]

  const DEFAULTS_2: seq<DefaultEntry> := [
      Default("AUDUL Voice UL Volume", Int, 1, Numbers([120])),
      Default("AUDUL Voice DL Volume", Int, 1, Numbers([0])),
      Default("SDT UL Volume", Int, 1, Numbers([101])),
      Default("SDT DL Volume", Int, 1, Numbers([120])),
      Default("DMIC1 UL Volume", Int, 2, Numbers([120, 120])),
      Default("DMIC2 UL Volume", Int, 2, Numbers([120, 120])),
      Default("DMIC3 UL Volume", Int, 2, Numbers([120, 120])),
      Default("AMIC UL Volume", Int, 2, Numbers([120, 120])),
      Default("BT UL Volume", Int, 2, Numbers([120, 120])),
      Default("DL1 Mono Mixer", Bool, 1, Numbers([0]))
  ]

  const DEFAULTS_3: seq<DefaultEntry> := [
      Default("DL2 Mono Mixer", Bool, 1, Numbers([0])),
      Default("AUDUL Mono Mixer", Bool, 1, Numbers([0])),
      Default("DL1 MM_EXT Switch", Bool, 1, Numbers([0])),
      Default("DL1 BT_VX Switch", Bool, 1, Numbers([0])),
      Default("DL1 PDM Switch", Bool, 1, Numbers([0])),
      Default("Sidetone Mixer Capture", Bool, 1, Numbers([0])),
      Default("Sidetone Mixer Playback", Bool, 1, Numbers([1])),
      Default("Capture Mixer Tones", Bool, 1, Numbers([0])),
      Default("Capture Mixer Voice Playback", Bool, 1, Numbers([0])),
      Default("Capture Mixer Voice Capture", Bool, 1, Numbers([0]))
  ]

  const DEFAULTS_4: seq<DefaultEntry> := [
      Default("Capture Mixer Media Playback", Bool, 1, Numbers([0])),
      Default("Voice Capture Mixer Tones Playback", Bool, 1, Numbers([0])),
      Default("Voice Capture Mixer Media Playback", Bool, 1, Numbers([0])),
      Default("Voice Capture Mixer Capture", Bool, 1, Numbers([0])),
      Default("DL2 Mixer Tones", Bool, 1, Numbers([0])),
      Default("DL2 Mixer Voice", Bool, 1, Numbers([0])),
      Default("DL2 Mixer Capture", Bool, 1, Numbers([0])),
      Default("DL2 Mixer Multimedia", Bool, 1, Numbers([1])),
      Default("DL1 Mixer Tones", Bool, 1, Numbers([0])),
      Default("DL1 Mixer Voice", Bool, 1, Numbers([0]))
  ]

  const DEFAULTS_5: seq<DefaultEntry> := [
      Default("DL1 Mixer Capture", Bool, 1, Numbers([0])),
      Default("DL1 Mixer Multimedia", Bool, 1, Numbers([0])),
      Default("MUX_VX1", Enum, 1, Labels(["None", "", "", ""])),
      Default("MUX_VX0", Enum, 1, Labels(["None", "", "", ""])),
      Default("MUX_UL11", Enum, 1, Labels(["None", "", "", ""])),
      Default("MUX_UL10", Enum, 1, Labels(["None", "", "", ""])),
      Default("MUX_UL07", Enum, 1, Labels(["None", "", "", ""])),
      Default("MUX_UL06", Enum, 1, Labels(["None", "", "", ""])),
      Default("MUX_UL05", Enum, 1, Labels(["None", "", "", ""])),
      Default("MUX_UL04", Enum, 1, Labels(["None", "", "", ""]))
  ]

  const DEFAULTS_6: seq<DefaultEntry> := [
      Default("MUX_UL03", Enum, 1, Labels(["None", "", "", ""])),
      Default("MUX_UL02", Enum, 1, Labels(["None", "", "", ""])),
      Default("MUX_UL01", Enum, 1, Labels(["None", "", "", ""])),
      Default("MUX_UL00", Enum, 1, Labels(["None", "", "", ""])),
      Default("Capture Preamplifier Volume", Int, 2, Numbers([1, 1])),
      Default("Capture Volume", Int, 2, Numbers([4, 4])),
      Default("Aux FM Volume", Int, 2, Numbers([3, 3])),
      Default("Headset Playback Volume", Int, 2, Numbers([15, 15])),
      Default("Handsfree Playback Volume", Int, 2, Numbers([26, 26])),
      Default("Earphone Playback Volume", Int, 1, Numbers([14]))
  ]

  const DEFAULTS_7: seq<DefaultEntry> := [
      Default("Headset Power Mode", Enum, 1, Labels(["Low-Power", "", "", ""])),
      Default("Earphone Playback Switch", Bool, 1, Numbers([0])),
      Default("Headset Right Playback", Enum, 1, Labels(["Off", "", "", ""])),
      Default("Headset Left Playback", Enum, 1, Labels(["Off", "", "", ""])),
      Default("Handsfree Right Playback", Enum, 1, Labels(["HF DAC", "", "", ""])),
      Default("Handsfree Left Playback", Enum, 1, Labels(["HF DAC", "", "", ""])),
      Default("Analog Right Capture Route", Enum, 1, Labels(["Off", "", "", ""])),
      Default("Analog Left Capture Route", Enum, 1, Labels(["Off", "", "", ""])),
      Default("TWL6040 Power Mode", Enum, 1, Labels(["Low-Power", "", "", ""]))
  ]

  /** The table has 79 entries, every one of the shape above. */
  lemma DefaultsShape()
    ensures |G_DEFAULTS| == 79
    ensures forall i :: 0 <= i < |G_DEFAULTS| ==> DefaultShape(G_DEFAULTS[i])
  {
  }

  // ---------------------------------------------------------------------------
  // The names of the table are pairwise distinct

  /** The position of each name in `g_defaults`, decided by length first. */
  function PositionOfName(s: string): int {
    if |s| == 7 then
      if s == "MUX_VX1" then 52
      else if s == "MUX_VX0" then 53
      else -1
    else if |s| == 8 then
      if s == "MUX_UL11" then 54
      else if s == "MUX_UL10" then 55
      else if s == "MUX_UL07" then 56
      else if s == "MUX_UL06" then 57
      else if s == "MUX_UL05" then 58
      else if s == "MUX_UL04" then 59
      else if s == "MUX_UL03" then 60
      else if s == "MUX_UL02" then 61
      else if s == "MUX_UL01" then 62
      else if s == "MUX_UL00" then 63
      else -1
    else if |s| == 12 then
      if s == "BT UL Volume" then 28
      else -1
    else if |s| == 13 then
      if s == "DL1 Equalizer" then 0
      else if s == "SDT UL Volume" then 22
      else if s == "SDT DL Volume" then 23
      else if s == "Aux FM Volume" then 66
      else -1
    else if |s| == 14 then
      if s == "AMIC Equalizer" then 4
      else if s == "DMIC Equalizer" then 5
      else if s == "AMIC UL Volume" then 27
      else if s == "DL1 Mono Mixer" then 29
      else if s == "DL2 Mono Mixer" then 30
      else if s == "DL1 PDM Switch" then 34
      else if s == "Capture Volume" then 65
      else -1
    else if |s| == 15 then
      if s == "DMIC1 UL Volume" then 24
      else if s == "DMIC2 UL Volume" then 25
      else if s == "DMIC3 UL Volume" then 26
      else if s == "DL2 Mixer Tones" then 44
      else if s == "DL2 Mixer Voice" then 45
      else if s == "DL1 Mixer Tones" then 48
      else if s == "DL1 Mixer Voice" then 49
      else -1
    else if |s| == 16 then
      if s == "AUDUL Mono Mixer" then 31
      else if s == "DL1 BT_VX Switch" then 33
      else -1
    else if |s| == 17 then
      if s == "DL1 MM_EXT Switch" then 32
      else if s == "DL2 Mixer Capture" then 46
      else if s == "DL1 Mixer Capture" then 50
      else -1
    else if |s| == 18 then
      if s == "DL2 Left Equalizer" then 1
      else if s == "Sidetone Equalizer" then 3
      else if s == "VXREC Media Volume" then 14
      else if s == "VXREC Tones Volume" then 15
      else if s == "AUDUL Media Volume" then 18
      else if s == "AUDUL Tones Volume" then 19
      else if s == "Headset Power Mode" then 70
      else if s == "TWL6040 Power Mode" then 78
      else -1
    else if |s| == 19 then
      if s == "DL2 Right Equalizer" then 2
      else if s == "Capture Mixer Tones" then 37
      else -1
    else if |s| == 20 then
      if s == "DL2 Mixer Multimedia" then 47
      else if s == "DL1 Mixer Multimedia" then 51
      else -1
    else if |s| == 21 then
      if s == "VXREC Voice DL Volume" then 16
      else if s == "VXREC Voice UL Volume" then 17
      else if s == "AUDUL Voice UL Volume" then 20
      else if s == "AUDUL Voice DL Volume" then 21
      else if s == "Headset Left Playback" then 73
      else -1
    else if |s| == 22 then
      if s == "Sidetone Mixer Capture" then 35
      else if s == "Headset Right Playback" then 72
      else -1
    else if |s| == 23 then
      if s == "Sidetone Mixer Playback" then 36
      else if s == "Headset Playback Volume" then 67
      else if s == "Handsfree Left Playback" then 75
      else -1
    else if |s| == 24 then
      if s == "Earphone Playback Volume" then 69
      else if s == "Earphone Playback Switch" then 71
      else if s == "Handsfree Right Playback" then 74
      else -1
    else if |s| == 25 then
      if s == "DL1 Media Playback Volume" then 6
      else if s == "DL1 Tones Playback Volume" then 7
      else if s == "DL1 Voice Playback Volume" then 8
      else if s == "DL2 Media Playback Volume" then 10
      else if s == "DL2 Tones Playback Volume" then 11
      else if s == "DL2 Voice Playback Volume" then 12
      else if s == "Handsfree Playback Volume" then 68
      else if s == "Analog Left Capture Route" then 77
      else -1
    else if |s| == 26 then
      if s == "Analog Right Capture Route" then 76
      else -1
    else if |s| == 27 then
      if s == "DL1 Capture Playback Volume" then 9
      else if s == "DL2 Capture Playback Volume" then 13
      else if s == "Capture Mixer Voice Capture" then 39
      else if s == "Voice Capture Mixer Capture" then 43
      else if s == "Capture Preamplifier Volume" then 64
      else -1
    else if |s| == 28 then
      if s == "Capture Mixer Voice Playback" then 38
      else if s == "Capture Mixer Media Playback" then 40
      else -1
    else if |s| == 34 then
      if s == "Voice Capture Mixer Tones Playback" then 41
      else if s == "Voice Capture Mixer Media Playback" then 42
      else -1
    else -1
  }

  lemma Positions0a()
    ensures forall k :: 0 <= k < 5 ==> PositionOfName(DEFAULTS_0[k].name) == 0 + k
  {
    assert PositionOfName("DL1 Equalizer") == 0;
    assert PositionOfName("DL2 Left Equalizer") == 1;
    assert PositionOfName("DL2 Right Equalizer") == 2;
    assert PositionOfName("Sidetone Equalizer") == 3;
    assert PositionOfName("AMIC Equalizer") == 4;
    forall k | 0 <= k < 5
      ensures PositionOfName(DEFAULTS_0[k].name) == 0 + k
    {
      assert k == 0 || k == 1 || k == 2 || k == 3 || k == 4;
    }
  }

  lemma Positions0b()
    ensures forall k :: 5 <= k < 10 ==> PositionOfName(DEFAULTS_0[k].name) == 0 + k
  {
    assert PositionOfName("DMIC Equalizer") == 5;
    assert PositionOfName("DL1 Media Playback Volume") == 6;
    assert PositionOfName("DL1 Tones Playback Volume") == 7;
    assert PositionOfName("DL1 Voice Playback Volume") == 8;
    assert PositionOfName("DL1 Capture Playback Volume") == 9;
    forall k | 5 <= k < 10
      ensures PositionOfName(DEFAULTS_0[k].name) == 0 + k
    {
      assert k == 5 || k == 6 || k == 7 || k == 8 || k == 9;
    }
  }

  lemma Positions1a()
    ensures forall k :: 0 <= k < 5 ==> PositionOfName(DEFAULTS_1[k].name) == 10 + k
  {
    assert PositionOfName("DL2 Media Playback Volume") == 10;
    assert PositionOfName("DL2 Tones Playback Volume") == 11;
    assert PositionOfName("DL2 Voice Playback Volume") == 12;
    assert PositionOfName("DL2 Capture Playback Volume") == 13;
    assert PositionOfName("VXREC Media Volume") == 14;
    forall k | 0 <= k < 5
      ensures PositionOfName(DEFAULTS_1[k].name) == 10 + k
    {
      assert k == 0 || k == 1 || k == 2 || k == 3 || k == 4;
    }
  }

  lemma Positions1b()
    ensures forall k :: 5 <= k < 10 ==> PositionOfName(DEFAULTS_1[k].name) == 10 + k
  {
    assert PositionOfName("VXREC Tones Volume") == 15;
    assert PositionOfName("VXREC Voice DL Volume") == 16;
    assert PositionOfName("VXREC Voice UL Volume") == 17;
    assert PositionOfName("AUDUL Media Volume") == 18;
    assert PositionOfName("AUDUL Tones Volume") == 19;
    forall k | 5 <= k < 10
      ensures PositionOfName(DEFAULTS_1[k].name) == 10 + k
    {
      assert k == 5 || k == 6 || k == 7 || k == 8 || k == 9;
    }
  }

  lemma Positions2a()
    ensures forall k :: 0 <= k < 5 ==> PositionOfName(DEFAULTS_2[k].name) == 20 + k
  {
    assert PositionOfName("AUDUL Voice UL Volume") == 20;
    assert PositionOfName("AUDUL Voice DL Volume") == 21;
    assert PositionOfName("SDT UL Volume") == 22;
    assert PositionOfName("SDT DL Volume") == 23;
    assert PositionOfName("DMIC1 UL Volume") == 24;
    forall k | 0 <= k < 5
      ensures PositionOfName(DEFAULTS_2[k].name) == 20 + k
    {
      assert k == 0 || k == 1 || k == 2 || k == 3 || k == 4;
    }
  }

  lemma Positions2b()
    ensures forall k :: 5 <= k < 10 ==> PositionOfName(DEFAULTS_2[k].name) == 20 + k
  {
    assert PositionOfName("DMIC2 UL Volume") == 25;
    assert PositionOfName("DMIC3 UL Volume") == 26;
    assert PositionOfName("AMIC UL Volume") == 27;
    assert PositionOfName("BT UL Volume") == 28;
    assert PositionOfName("DL1 Mono Mixer") == 29;
    forall k | 5 <= k < 10
      ensures PositionOfName(DEFAULTS_2[k].name) == 20 + k
    {
      assert k == 5 || k == 6 || k == 7 || k == 8 || k == 9;
    }
  }

  lemma Positions3a()
    ensures forall k :: 0 <= k < 5 ==> PositionOfName(DEFAULTS_3[k].name) == 30 + k
  {
    assert PositionOfName("DL2 Mono Mixer") == 30;
    assert PositionOfName("AUDUL Mono Mixer") == 31;
    assert PositionOfName("DL1 MM_EXT Switch") == 32;
    assert PositionOfName("DL1 BT_VX Switch") == 33;
    assert PositionOfName("DL1 PDM Switch") == 34;
    forall k | 0 <= k < 5
      ensures PositionOfName(DEFAULTS_3[k].name) == 30 + k
    {
      assert k == 0 || k == 1 || k == 2 || k == 3 || k == 4;
    }
  }

  lemma Positions3b()
    ensures forall k :: 5 <= k < 10 ==> PositionOfName(DEFAULTS_3[k].name) == 30 + k
  {
    assert PositionOfName("Sidetone Mixer Capture") == 35;
    assert PositionOfName("Sidetone Mixer Playback") == 36;
    assert PositionOfName("Capture Mixer Tones") == 37;
    assert PositionOfName("Capture Mixer Voice Playback") == 38;
    assert PositionOfName("Capture Mixer Voice Capture") == 39;
    forall k | 5 <= k < 10
      ensures PositionOfName(DEFAULTS_3[k].name) == 30 + k
    {
      assert k == 5 || k == 6 || k == 7 || k == 8 || k == 9;
    }
  }

  lemma Positions4a()
    ensures forall k :: 0 <= k < 5 ==> PositionOfName(DEFAULTS_4[k].name) == 40 + k
  {
    assert PositionOfName("Capture Mixer Media Playback") == 40;
    assert PositionOfName("Voice Capture Mixer Tones Playback") == 41;
    assert PositionOfName("Voice Capture Mixer Media Playback") == 42;
    assert PositionOfName("Voice Capture Mixer Capture") == 43;
    assert PositionOfName("DL2 Mixer Tones") == 44;
    forall k | 0 <= k < 5
      ensures PositionOfName(DEFAULTS_4[k].name) == 40 + k
    {
      assert k == 0 || k == 1 || k == 2 || k == 3 || k == 4;
    }
  }

  lemma Positions4b()
    ensures forall k :: 5 <= k < 10 ==> PositionOfName(DEFAULTS_4[k].name) == 40 + k
  {
    assert PositionOfName("DL2 Mixer Voice") == 45;
    assert PositionOfName("DL2 Mixer Capture") == 46;
    assert PositionOfName("DL2 Mixer Multimedia") == 47;
    assert PositionOfName("DL1 Mixer Tones") == 48;
    assert PositionOfName("DL1 Mixer Voice") == 49;
    forall k | 5 <= k < 10
      ensures PositionOfName(DEFAULTS_4[k].name) == 40 + k
    {
      assert k == 5 || k == 6 || k == 7 || k == 8 || k == 9;
    }
  }

  lemma Positions5a()
    ensures forall k :: 0 <= k < 5 ==> PositionOfName(DEFAULTS_5[k].name) == 50 + k
  {
    assert PositionOfName("DL1 Mixer Capture") == 50;
    assert PositionOfName("DL1 Mixer Multimedia") == 51;
    assert PositionOfName("MUX_VX1") == 52;
    assert PositionOfName("MUX_VX0") == 53;
    assert PositionOfName("MUX_UL11") == 54;
    forall k | 0 <= k < 5
      ensures PositionOfName(DEFAULTS_5[k].name) == 50 + k
    {
      assert k == 0 || k == 1 || k == 2 || k == 3 || k == 4;
    }
  }

  lemma Positions5b()
    ensures forall k :: 5 <= k < 10 ==> PositionOfName(DEFAULTS_5[k].name) == 50 + k
  {
    assert PositionOfName("MUX_UL10") == 55;
    assert PositionOfName("MUX_UL07") == 56;
    assert PositionOfName("MUX_UL06") == 57;
    assert PositionOfName("MUX_UL05") == 58;
    assert PositionOfName("MUX_UL04") == 59;
    forall k | 5 <= k < 10
      ensures PositionOfName(DEFAULTS_5[k].name) == 50 + k
    {
      assert k == 5 || k == 6 || k == 7 || k == 8 || k == 9;
    }
  }

  lemma Positions6a()
    ensures forall k :: 0 <= k < 5 ==> PositionOfName(DEFAULTS_6[k].name) == 60 + k
  {
    Names6a1();
    Names6a2();
    Names6a3();
    forall k | 0 <= k < 5
      ensures PositionOfName(DEFAULTS_6[k].name) == 60 + k
    {
      assert k == 0 || k == 1 || k == 2 || k == 3 || k == 4;
    }
  }

  lemma Positions6b()
    ensures forall k :: 5 <= k < 10 ==> PositionOfName(DEFAULTS_6[k].name) == 60 + k
  {
    Names6b1();
    Names6b2();
    Names6b3();
    forall k | 5 <= k < 10
      ensures PositionOfName(DEFAULTS_6[k].name) == 60 + k
    {
      assert k == 5 || k == 6 || k == 7 || k == 8 || k == 9;
    }
  }

  lemma Positions7a()
    ensures forall k :: 0 <= k < 5 ==> PositionOfName(DEFAULTS_7[k].name) == 70 + k
  {
    Names7a1();
    Names7a2();
    Names7a3();
    forall k | 0 <= k < 5
      ensures PositionOfName(DEFAULTS_7[k].name) == 70 + k
    {
      assert k == 0 || k == 1 || k == 2 || k == 3 || k == 4;
    }
  }

  lemma Positions7b()
    ensures forall k :: 5 <= k < 9 ==> PositionOfName(DEFAULTS_7[k].name) == 70 + k
  {
    Names7b1();
    Names7b2();
    forall k | 5 <= k < 9
      ensures PositionOfName(DEFAULTS_7[k].name) == 70 + k
    {
      assert k == 5 || k == 6 || k == 7 || k == 8;
    }
  }

  lemma Names6a1()
    ensures PositionOfName("MUX_UL03") == 60 && PositionOfName("MUX_UL02") == 61
  {
  }

  lemma Names6a2()
    ensures PositionOfName("MUX_UL01") == 62 && PositionOfName("MUX_UL00") == 63
  {
  }

  lemma Names6a3()
    ensures PositionOfName("Capture Preamplifier Volume") == 64
  {
  }

  lemma Names6b1()
    ensures PositionOfName("Capture Volume") == 65 && PositionOfName("Aux FM Volume") == 66
  {
  }

  lemma Names6b2()
    ensures PositionOfName("Headset Playback Volume") == 67 && PositionOfName("Handsfree Playback Volume") == 68
  {
  }

  lemma Names6b3()
    ensures PositionOfName("Earphone Playback Volume") == 69
  {
  }

  lemma Names7a1()
    ensures PositionOfName("Headset Power Mode") == 70 && PositionOfName("Earphone Playback Switch") == 71
  {
  }

  lemma Names7a2()
    ensures PositionOfName("Headset Right Playback") == 72 && PositionOfName("Headset Left Playback") == 73
  {
  }

  lemma Names7a3()
    ensures PositionOfName("Handsfree Right Playback") == 74
  {
  }

  lemma Names7b1()
    ensures PositionOfName("Handsfree Left Playback") == 75 && PositionOfName("Analog Right Capture Route") == 76
  {
  }

  lemma Names7b2()
    ensures PositionOfName("Analog Left Capture Route") == 77 && PositionOfName("TWL6040 Power Mode") == 78
  {
  }

  /** Each entry's name sits at that entry's position. */
  lemma DefaultPositions()
    ensures forall i :: 0 <= i < |G_DEFAULTS| ==> PositionOfName(G_DEFAULTS[i].name) == i
  {
    Positions0a();
    Positions0b();
    Positions1a();
    Positions1b();
    Positions2a();
    Positions2b();
    Positions3a();
    Positions3b();
    Positions4a();
    Positions4b();
    Positions5a();
    Positions5b();
    Positions6a();
    Positions6b();
    Positions7a();
    Positions7b();
  }

  /** No two entries of `g_defaults` share a name. */
  lemma DefaultNamesDistinct()
    ensures forall i, j :: 0 <= i < j < |G_DEFAULTS| ==> G_DEFAULTS[i].name != G_DEFAULTS[j].name
  {
    DefaultPositions();
  }

  /** Hence a lookup by an entry's name finds that very entry. */
  lemma DefaultFoundByName(i: nat)
    requires i < |G_DEFAULTS|
    ensures FirstNamed(G_DEFAULTS, G_DEFAULTS[i].name) == Some(i)
  {
    DefaultNamesDistinct();
    FirstNamedIs(G_DEFAULTS, G_DEFAULTS[i].name, i);
  }

  // ---------------------------------------------------------------------------
  // The ids of the table

  /** A lookup in the table as written yields -1 for every name it holds: the
      id of each entry, read back as `int`. */
  lemma LookupAsWrittenIsMinusOne(name: string)
    requires FirstNamed(G_DEFAULTS, name).Some?
    ensures S32OfU32(G_DEFAULTS[FirstNamed(G_DEFAULTS, name).value].id) == -1
  {
    DefaultsShape();
  }

  /** `get_mixer_defaults` stores that result in a `size_t`: every hit and every
      miss becomes an index far past the end of the 79 entries. */
  lemma AsWrittenIndexOutOfRange()
    ensures SizeT(-1) >= |G_DEFAULTS| && SizeT(-ENODEV) >= |G_DEFAULTS|
    ensures !(SizeT(-1) < 0) && !(SizeT(-ENODEV) < 0)
  {
    DefaultsShape();
  }

  /** The table with ids equal to positions, as `populate` would number it. */
  function Numbered(es: seq<ControlInfo>): (r: seq<ControlInfo>)
    ensures |r| == |es| && IdsArePositions(r)
    ensures forall i :: 0 <= i < |es| ==> r[i] == es[i].(id := i)
  {
    seq(|es|, i requires 0 <= i < |es| => es[i].(id := i))
  }

  /** Numbering keeps every descriptor well-formed when there are fewer than 2^32. */
  lemma NumberedFits(es: seq<ControlInfo>)
    requires |es| < U32_MOD && forall i :: 0 <= i < |es| ==> EntryFits(es[i])
    ensures forall i :: 0 <= i < |es| ==> EntryFits(Numbered(es)[i])
  {
  }

  /** The defaults cache `get_mixer_defaults` evidently intends: `g_defaults`
      with ids 0 .. 78, so that a lookup returns the position of the entry found. */
  const CARD_MIX_DEFAULTS: seq<ControlInfo> := Numbered(G_DEFAULTS)

  /** The intended defaults cache is a valid cache over the table's 79 entries. */
  lemma CardMixDefaultsShape()
    ensures |CARD_MIX_DEFAULTS| == 79 && IdsArePositions(CARD_MIX_DEFAULTS)
    ensures forall i :: 0 <= i < |CARD_MIX_DEFAULTS| ==> EntryFits(CARD_MIX_DEFAULTS[i])
    ensures forall i :: 0 <= i < |CARD_MIX_DEFAULTS| ==>
      CARD_MIX_DEFAULTS[i] == G_DEFAULTS[i].(id := i)
  {
    DefaultsShape();
    NumberedFits(G_DEFAULTS);
  }

  /** Every hit in the numbered table is the position of the entry found.  */
  lemma NumberedLookupIsPosition(name: string)
    ensures match FirstNamed(CARD_MIX_DEFAULTS, name)
      case None => true
      case Some(i) => S32OfU32(CARD_MIX_DEFAULTS[i].id) == i
  {
    CardMixDefaultsShape();
  }

  // ---------------------------------------------------------------------------
  // get_mixer_defaults

  /** The default live entry `e` takes: the first with its name, if its type agrees. */
  function MatchOf(e: ControlInfo, defs: seq<ControlInfo>): (r: Option<nat>)
    ensures r.Some? ==> r.value < |defs| && defs[r.value].name == e.name && defs[r.value].ctype == e.ctype
    ensures r.Some? ==> forall j :: 0 <= j < r.value ==> defs[j].name != e.name
    ensures r.None? ==> forall j :: 0 <= j < |defs| && defs[j].name == e.name ==>
      exists i :: 0 <= i <= j && defs[i].name == e.name && defs[i].ctype != e.ctype
  {
    match FirstNamed(defs, e.name)
    case None => None
    case Some(i) => if defs[i].ctype == e.ctype then Some(i) else None
  }

  /** A live entry after the pass: the default's value and touched when it has a
      match, otherwise unchanged apart from its cleared flag. */
  function Reconciled(e: ControlInfo, defs: seq<ControlInfo>): ControlInfo {
    match MatchOf(e, defs)
    case None => e.(touch := false)
    case Some(i) => e.(value := defs[i].value, touch := true)
  }

  function ReconciledLive(es: seq<ControlInfo>, defs: seq<ControlInfo>): (r: seq<ControlInfo>)
    ensures |r| == |es|
    ensures forall m :: 0 <= m < |es| ==> r[m] == Reconciled(es[m], defs)
  {
    seq(|es|, m requires 0 <= m < |es| => Reconciled(es[m], defs))
  }

  /** Default i is the match of some live entry among the first `upTo`. */
  predicate ClaimedBefore(es: seq<ControlInfo>, defs: seq<ControlInfo>, i: nat, upTo: nat)
    requires upTo <= |es|
  {
    exists m :: 0 <= m < upTo && MatchOf(es[m], defs) == Some(i)
  }

  /** The defaults after the pass: unchanged apart from the flags, which mark
      exactly the defaults some live entry matched. */
  function ReconciledDefaults(es: seq<ControlInfo>, defs: seq<ControlInfo>): (r: seq<ControlInfo>)
    ensures |r| == |defs|
    ensures forall i :: 0 <= i < |defs| ==> r[i] == defs[i].(touch := ClaimedBefore(es, defs, i, |es|))
  {
    seq(|defs|, i requires 0 <= i < |defs| => defs[i].(touch := ClaimedBefore(es, defs, i, |es|)))
  }

  /** Some live entry among the first `upTo` has no default of its name and type. */
  predicate UnmatchedBefore(es: seq<ControlInfo>, defs: seq<ControlInfo>, upTo: nat)
    requires upTo <= |es|
  {
    exists m :: 0 <= m < upTo && MatchOf(es[m], defs).None?
  }

  /** What `mixer_cache_audit_touch` returns on a non-NULL cache. */
  function AuditResult(es: seq<ControlInfo>): (r: int)
    ensures r == 0 <==> AllTouched(es)
    ensures r == 0 || r == 1
  {
    if AllTouched(es) then 0 else 1
  }

  /**
   * The combination at the end of `get_mixer_defaults` as written: each audit
   * that finds every entry touched forces 1, and one that finds an untouched
   * entry keeps the loop's flag.
   */
  function VerdictAsWritten(unmatched: bool, liveAudit: int, defsAudit: int): int {
    var r0 := if unmatched then 1 else 0;
    var r1 := if liveAudit != 0 then r0 else 1;
    if defsAudit != 0 then r1 else 1
  }

  /** The verdict the function evidently intends: 0 only when every live entry
      found its default and every default was used. */
  function IntendedVerdict(unmatched: bool, liveAudit: int, defsAudit: int): (r: int)
    ensures r == 0 <==> !unmatched && liveAudit == 0 && defsAudit == 0
  {
    if unmatched || liveAudit != 0 || defsAudit != 0 then 1 else 0
  }

  /** As written, full coverage on either side yields 1, and when both sides
      miss something the result ignores the audits. */
  lemma VerdictAsWrittenInverted(unmatched: bool, liveAudit: int, defsAudit: int)
    ensures liveAudit == 0 || defsAudit == 0 ==> VerdictAsWritten(unmatched, liveAudit, defsAudit) == 1
    ensures liveAudit != 0 && defsAudit != 0 ==> VerdictAsWritten(unmatched, liveAudit, defsAudit) == (if unmatched then 1 else 0)
  {
  }

  /** A perfect reconciliation: one live control and its one default. As written
      the pass returns 1; the intended verdict is 0. */
  lemma PerfectMatchReportedAsFailure()
    ensures var es := [ControlInfo(0, "A", Int, 1, Numbers([5]), false)];
            var ds := [ControlInfo(0, "A", Int, 1, Numbers([0]), false)];
            var live := ReconciledLive(es, ds);
            var defs := ReconciledDefaults(es, ds);
            && !UnmatchedBefore(es, ds, |es|)
            && VerdictAsWritten(false, AuditResult(live), AuditResult(defs)) == 1
            && IntendedVerdict(false, AuditResult(live), AuditResult(defs)) == 0
  {
    var es := [ControlInfo(0, "A", Int, 1, Numbers([5]), false)];
    var ds := [ControlInfo(0, "A", Int, 1, Numbers([0]), false)];
    assert MatchOf(es[0], ds) == Some(0);
    assert ClaimedBefore(es, ds, 0, 1);
  }

  /**
   * `get_mixer_defaults` on a live cache and a defaults cache whose ids are
   * their positions (see `CARD_MIX_DEFAULTS`), with the `n < 0` test made on the
   * signed lookup result it evidently intends. Both flag sets are cleared; each
   * live entry whose first same-named default has the same type takes that
   * default's value (not its count), and both are touched; the rest are left
   * alone. The result is the written verdict over the loop's flag and the audits.
   */
  method GetMixerDefaults(cache: Cache, defs: Cache) returns (r: int)
    requires cache.Valid() && defs.Valid() && cache.ctrls != defs.ctrls
    requires IdsArePositions(defs.Entries()) && defs.count <= INT32_MAX
    modifies cache.ctrls, defs.ctrls
    ensures cache.Valid() && defs.Valid()
    ensures cache.Entries() == ReconciledLive(old(cache.Entries()), old(defs.Entries()))
    ensures defs.Entries() == ReconciledDefaults(old(cache.Entries()), old(defs.Entries()))
    ensures r == VerdictAsWritten(UnmatchedBefore(old(cache.Entries()), old(defs.Entries()), cache.count),
                                  AuditResult(cache.Entries()), AuditResult(defs.Entries()))
  {
    ghost var es := cache.Entries();
    ghost var ds := defs.Entries();
    ResetTouch(defs);
    ResetTouch(cache);
    r := ReconcileAll(cache, defs, es, ds);
    var liveAudit, _ := AuditTouch(cache, true);
    r := if liveAudit != 0 then r else 1;
    var defsAudit, _ := AuditTouch(defs, true);
    r := if defsAudit != 0 then r else 1;
  }

  /** The loop of `get_mixer_defaults` over cleared flags: 1 when some live entry found no default. */
  method ReconcileAll(cache: Cache, defs: Cache, ghost es: seq<ControlInfo>, ghost ds: seq<ControlInfo>) returns (r: int)
    requires cache.Valid() && defs.Valid() && cache.ctrls != defs.ctrls
    requires IdsArePositions(ds) && defs.count <= INT32_MAX
    requires cache.Entries() == ClearedTouch(es) && defs.Entries() == ClearedTouch(ds)
    modifies cache.ctrls, defs.ctrls
    ensures cache.Valid() && defs.Valid()
    ensures cache.Entries() == ReconciledLive(es, ds)
    ensures defs.Entries() == ReconciledDefaults(es, ds)
    ensures r == if UnmatchedBefore(es, ds, |es|) then 1 else 0
  {
    r := 0;
    var m := 0;
    while m < cache.count
      invariant 0 <= m <= cache.count == |es|
      invariant cache.Valid() && defs.Valid()
      invariant LiveDoneBefore(es, ds, cache.Entries(), m)
      invariant DefaultsClaimedBefore(es, ds, defs.Entries(), m)
      invariant r == if UnmatchedBefore(es, ds, m) then 1 else 0
    {
      ghost var live0, defs0 := cache.Entries(), defs.Entries();
      EntryReady(es, ds, live0, defs0, m);
      var matched := ReconcileEntry(cache, defs, m, es[m], ds);
      if !matched {
        r := 1;
      }
      EntryDone(es, ds, m, live0, cache.Entries(), defs0, defs.Entries());
      m := m + 1;
    }
    assert cache.Entries() == ReconciledLive(es, ds);
    assert defs.Entries() == ReconciledDefaults(es, ds);
  }

  /** The live entries before m are reconciled; the rest are as cleared. */
  predicate LiveDoneBefore(es: seq<ControlInfo>, ds: seq<ControlInfo>, live: seq<ControlInfo>, m: nat) {
    && |live| == |es| && m <= |es|
    && (forall k :: 0 <= k < m ==> live[k] == Reconciled(es[k], ds))
    && (forall k :: m <= k < |live| ==> live[k] == es[k].(touch := false))
  }

  /** The defaults are as given, flagged exactly where a live entry before m claimed them. */
  predicate DefaultsClaimedBefore(es: seq<ControlInfo>, ds: seq<ControlInfo>, defs: seq<ControlInfo>, m: nat)
    requires m <= |es|
  {
    |defs| == |ds| && forall i :: 0 <= i < |defs| ==> defs[i] == ds[i].(touch := ClaimedBefore(es, ds, i, m))
  }

  /** Before pass m, entry m is still cleared and the defaults differ from the
      given ones in their flags only. */
  lemma EntryReady(es: seq<ControlInfo>, ds: seq<ControlInfo>, live: seq<ControlInfo>, defs: seq<ControlInfo>, m: nat)
    requires m < |es| && LiveDoneBefore(es, ds, live, m) && DefaultsClaimedBefore(es, ds, defs, m)
    ensures live[m] == es[m].(touch := false)
    ensures |defs| == |ds| && forall i :: 0 <= i < |ds| ==> defs[i] == ds[i].(touch := defs[i].touch)
  {
  }

  /** Pass m, which reconciles entry m and flags its match, extends both loop
      invariants to m + 1. */
  lemma EntryDone(es: seq<ControlInfo>, ds: seq<ControlInfo>, m: nat,
                  live0: seq<ControlInfo>, live1: seq<ControlInfo>, defs0: seq<ControlInfo>, defs1: seq<ControlInfo>)
    requires m < |es| && LiveDoneBefore(es, ds, live0, m) && DefaultsClaimedBefore(es, ds, defs0, m)
    requires |live1| == |live0| && forall k :: 0 <= k < |live1| ==> live1[k] == if k == m then Reconciled(es[m], ds) else live0[k]
    requires |defs1| == |defs0| && forall i :: 0 <= i < |defs1| ==>
      defs1[i] == if MatchOf(es[m], ds) == Some(i) then defs0[i].(touch := true) else defs0[i]
    ensures LiveDoneBefore(es, ds, live1, m + 1) && DefaultsClaimedBefore(es, ds, defs1, m + 1)
    ensures UnmatchedBefore(es, ds, m + 1) == (UnmatchedBefore(es, ds, m) || MatchOf(es[m], ds).None?)
  {
    StepFlags(es, ds, m);
  }

  /** One pass of the loop of `get_mixer_defaults`, on live entry m. */
  method ReconcileEntry(cache: Cache, defs: Cache, m: nat, ghost e: ControlInfo, ghost ds: seq<ControlInfo>) returns (matched: bool)
    requires cache.Valid() && defs.Valid() && cache.ctrls != defs.ctrls
    requires IdsArePositions(ds) && defs.count <= INT32_MAX
    requires m < cache.count && cache.ctrls[m] == e.(touch := false)
    requires |ds| == defs.count && forall i :: 0 <= i < |ds| ==> defs.ctrls[i] == ds[i].(touch := defs.ctrls[i].touch)
    modifies cache.ctrls, defs.ctrls
    ensures cache.Valid() && defs.Valid()
    ensures matched <==> MatchOf(e, ds).Some?
    ensures forall k :: 0 <= k < cache.count ==> cache.ctrls[k] == if k == m then Reconciled(e, ds) else old(cache.ctrls[k])
    ensures forall i :: 0 <= i < defs.count ==>
      defs.ctrls[i] == if MatchOf(e, ds) == Some(i) then old(defs.ctrls[i]).(touch := true) else old(defs.ctrls[i])
  {
    SameNamesSameLookup(defs.Entries(), ds, e.name);
    assert IdsArePositions(defs.Entries());
    var n := GetIdByName(defs, Some(cache.ctrls[m].name));
    if n < 0 {
      return false;
    }
    if cache.ctrls[m].ctype != defs.ctrls[n].ctype {
      return false;
    }
    cache.ctrls[m] := cache.ctrls[m].(value := defs.ctrls[n].value);
    Touch(cache, m);
    Touch(defs, n);
    return true;
  }

  /** What one more live entry adds to the loop's flag and to the defaults claimed. */
  lemma StepFlags(es: seq<ControlInfo>, ds: seq<ControlInfo>, m: nat)
    requires m < |es|
    ensures UnmatchedBefore(es, ds, m + 1) == (UnmatchedBefore(es, ds, m) || MatchOf(es[m], ds).None?)
    ensures forall i :: 0 <= i < |ds| ==>
      ClaimedBefore(es, ds, i, m + 1) == (ClaimedBefore(es, ds, i, m) || MatchOf(es[m], ds) == Some(i))
  {
  }

  /** A lookup by name sees names only. */
  lemma SameNamesSameLookup(a: seq<ControlInfo>, b: seq<ControlInfo>, name: string)
    requires |a| == |b| && forall i :: 0 <= i < |a| ==> a[i].name == b[i].name
    ensures FirstNamed(a, name) == FirstNamed(b, name)
  {
    match FirstNamed(b, name)
    case None =>
    case Some(i) => FirstNamedIs(a, name, i);
  }

  /** Running the pass a second time changes neither cache and gives the same
      verdict. */
  lemma ReconcileIdempotent(es: seq<ControlInfo>, ds: seq<ControlInfo>)
    ensures var live := ReconciledLive(es, ds);
            var defs := ReconciledDefaults(es, ds);
            ReconciledLive(live, defs) == live && ReconciledDefaults(live, defs) == defs
    ensures var live := ReconciledLive(es, ds);
            var defs := ReconciledDefaults(es, ds);
            UnmatchedBefore(live, defs, |live|) == UnmatchedBefore(es, ds, |es|)
    ensures var live := ReconciledLive(es, ds);
            var defs := ReconciledDefaults(es, ds);
            VerdictAsWritten(UnmatchedBefore(live, defs, |live|),
                             AuditResult(ReconciledLive(live, defs)), AuditResult(ReconciledDefaults(live, defs)))
              == VerdictAsWritten(UnmatchedBefore(es, ds, |es|), AuditResult(live), AuditResult(defs))
  {
    var live := ReconciledLive(es, ds);
    var defs := ReconciledDefaults(es, ds);
    forall m | 0 <= m < |es|
      ensures MatchOf(live[m], defs) == MatchOf(es[m], ds)
    {
      SameNamesSameLookup(defs, ds, es[m].name);
    }
    forall i | 0 <= i < |ds|
      ensures ClaimedBefore(live, defs, i, |live|) == ClaimedBefore(es, ds, i, |es|)
    {
      if ClaimedBefore(es, ds, i, |es|) {
        var m :| 0 <= m < |es| && MatchOf(es[m], ds) == Some(i);
        assert MatchOf(live[m], defs) == Some(i);
      }
    }
  }
}
