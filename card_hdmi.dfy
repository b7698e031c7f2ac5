/**
 * The HDMI card profile of card-hdmi.c. HDMI on OMAP has no mixer controls,
 * so there are no defaults and no routes: the module only recognises the card.
 */
module CardHdmi {
  import opened Options
  import opened Errno
  import opened MixerCache
  import opened ModuleRegistry

  /** CARD_HDMI_CARD_NAME. */
  const CARD_HDMI_CARD_NAME: string := "HDMI"

  /**
   * `ah_card_find_by_name` from alsa-control.c, over the names of the sound cards
   * present (their `id` strings, in card order): the index of the first card with
   * exactly that name, or -ENODEV. Reading the names from the kernel is not modelled.
   */
  function FindCardByName(cards: seq<string>, name: string): (r: int)
    ensures 0 <= r ==> r < |cards| && cards[r] == name && forall k :: 0 <= k < r ==> cards[k] != name
    ensures r < 0 ==> r == -ENODEV && name !in cards
  {
    if cards == [] then -ENODEV
    else if cards[0] == name then 0
    else
      var r := FindCardByName(cards[1..], name);
      if r < 0 then r else r + 1
  }

  /** `probe`: 0 when a card named "HDMI" is present, ENODEV when none is. */
  function Probe(cards: seq<string>): (r: int)
    ensures r == 0 <==> CARD_HDMI_CARD_NAME in cards
    ensures r == 0 || r == ENODEV
  {
    if FindCardByName(cards, CARD_HDMI_CARD_NAME) >= 0 then 0 else ENODEV
  }

  /** `get_mixer_defaults`: 1 when the cache holds any control (none has a
      default), 0 for an empty cache. It reads the count and nothing else. */
  function GetMixerDefaults(cache: Cache): (r: int)
    reads cache
    ensures r == 0 <==> cache.count == 0
    ensures r == 0 || r == 1
  {
    if cache.count != 0 then 1 else 0
  }

  /** `get_fe_be_names`: no routes on this card. */
  function GetFeBeNames(direction: Direction): (r: FeBeNames)
    ensures r.ret == ENODEV
  {
    FeBeNames(ENODEV, [], [])
  }

  /** `config`: no routes on this card. */
  function Config(direction: Direction, fe: string, be: string, enable: int): (r: int)
    ensures r == ENODEV
  {
    ENODEV
  }

  /** `g_hdmi_mod`, for the cards present when it probes. */
  function HdmiModule(cards: seq<string>): (m: Module)
    ensures m.mtype == MOD_TYPE_CARD && m.name == CARD_HDMI_CARD_NAME
    ensures m.probe() == 0 <==> CARD_HDMI_CARD_NAME in cards
    ensures forall d :: m.getFeBeNames(d).ret == ENODEV
    ensures forall d, fe, be, en :: m.config(d, fe, be, en) == ENODEV
  {
    Module(MOD_TYPE_CARD, CARD_HDMI_CARD_NAME, () => Probe(cards), GetFeBeNames, Config)
  }

  /** Once registered, the HDMI module answers a card lookup by the name "HDMI"
      unless a card module of that name registered before it; a lookup by probe
      reaches it only when the card is present. */
  lemma HdmiFoundByName(mods: seq<Module>, cards: seq<string>)
    ensures Lookup(mods + [HdmiModule(cards)], MOD_TYPE_CARD, Some(CARD_HDMI_CARD_NAME)).Some?
    ensures CARD_HDMI_CARD_NAME !in cards ==>
      Lookup(mods + [HdmiModule(cards)], MOD_TYPE_CARD, None) == Lookup(mods, MOD_TYPE_CARD, None)
  {
    LookupAfterRegister(mods, HdmiModule(cards), MOD_TYPE_CARD, Some(CARD_HDMI_CARD_NAME));
    LookupAfterRegister(mods, HdmiModule(cards), MOD_TYPE_CARD, None);
  }
}
