/**
 * The `config` command of config_cmd.c: it checks a route request (direction,
 * frontend, backend, enable), and only a request whose frontend and backend are
 * exact members of the card module's lists reaches the mixer and the module's
 * `config`. Usage text and messages are not modelled.
 */
module ConfigCmd {
  import opened Options
  import opened Errno
  import opened ModuleRegistry

  /** The calls into the card module and the mixer library, in order. */
  datatype Call =
    | GetFeBeNamesCall(direction: Direction)
    | MixerOpen(card: int)
    | ConfigCall(direction: Direction, fe: string, be: string, enable: int)

  /** The direction argument: "play" or "cap" exactly. */
  function ParseDirection(arg: string): (r: Option<Direction>)
    ensures r == Some(Playback) <==> arg == "play"
    ensures r == Some(Capture) <==> arg == "cap"
    ensures r.None? <==> arg != "play" && arg != "cap"
  {
    if arg == "play" then Some(Playback)
    else if arg == "cap" then Some(Capture)
    else None
  }

  /** The enable argument: "1" or "enable" is 1, "0" or "disable" is 0. */
  function ParseEnable(arg: string): (r: Option<int>)
    ensures r == Some(1) <==> arg == "1" || arg == "enable"
    ensures r == Some(0) <==> arg == "0" || arg == "disable"
    ensures r.None? <==> arg !in {"1", "enable", "0", "disable"}
  {
    if arg == "1" || arg == "enable" then Some(1)
    else if arg == "0" || arg == "disable" then Some(0)
    else None
  }

  /** The cursor walk over a NULL-terminated name list: found exactly when some
      listed name equals `arg`. */
  method FindName(names: seq<string>, arg: string) returns (found: bool)
    ensures found <==> arg in names
  {
    var i := 0;
    while i < |names|
      invariant 0 <= i <= |names|
      invariant arg !in names[..i]
    {
      if names[i] == arg {
        return true;
      }
      assert names[..i + 1] == names[..i] + [names[i]];
      i := i + 1;
    }
    assert names[..i] == names;
    return false;
  }

  /**
   * What `config_cmd_main` returns and calls, for card `card`. `argv` holds the
   * arguments, the command name first. `nameRet` and `cardName` stand for
   * `ah_card_get_name` (0 or a negative errno, and the name it copies),
   * `modules` for the registered modules, and `mixerOk` for whether
   * `mixer_open` succeeds. `fixed` selects the result when no card module has
   * the card's name: as written it is `ret`, which the successful name lookup
   * has just set to 0; the evident intent is an error, ENODEV.
   */
  function ConfigOutcome(card: int, argv: seq<string>, nameRet: int, cardName: string, modules: seq<Module>,
                         mixerOk: bool, fixed: bool): (int, seq<Call>)
  {
    if |argv| < 5 then (0, [])
    else if ParseDirection(argv[1]).None? || ParseEnable(argv[4]).None? then (1, [])
    else if nameRet != 0 then (nameRet, [])
    else
      var d := ParseDirection(argv[1]).value;
      var en := ParseEnable(argv[4]).value;
      var fe, be := argv[2], argv[3];
      match Lookup(modules, MOD_TYPE_CARD, Some(cardName))
      case None => (if fixed then ENODEV else nameRet, [])
      case Some(i) =>
        var m := modules[i];
        var names := m.getFeBeNames(d);
        if names.ret != 0 then (names.ret, [GetFeBeNamesCall(d)])
        else if fe !in names.fes || be !in names.bes then (1, [GetFeBeNamesCall(d)])
        else if !mixerOk then (1, [GetFeBeNamesCall(d), MixerOpen(card)])
        else (m.config(d, fe, be, en), [GetFeBeNamesCall(d), MixerOpen(card), ConfigCall(d, fe, be, en)])
  }

  /** The path of config_cmd.c:173-179: a valid request whose card name was
      read, but no card module has that name. */
  predicate MissingModulePath(argv: seq<string>, nameRet: int, cardName: string, modules: seq<Module>) {
    && |argv| >= 5 && ParseDirection(argv[1]).Some? && ParseEnable(argv[4]).Some?
    && nameRet == 0 && Lookup(modules, MOD_TYPE_CARD, Some(cardName)).None?
  }

  /** On the missing-module path the command as written reports success without
      configuring anything; the fixed command reports ENODEV. */
  lemma MissingModuleReportedAsSuccess(card: int, argv: seq<string>, nameRet: int, cardName: string,
                                       modules: seq<Module>, mixerOk: bool)
    requires MissingModulePath(argv, nameRet, cardName, modules)
    ensures ConfigOutcome(card, argv, nameRet, cardName, modules, mixerOk, false) == (0, [])
    ensures ConfigOutcome(card, argv, nameRet, cardName, modules, mixerOk, true) == (ENODEV, [])
  {
  }

  /** The fix changes nothing off the missing-module path. */
  lemma FixOnlyChangesMissingModule(card: int, argv: seq<string>, nameRet: int, cardName: string,
                                    modules: seq<Module>, mixerOk: bool)
    ensures !MissingModulePath(argv, nameRet, cardName, modules) ==>
      ConfigOutcome(card, argv, nameRet, cardName, modules, mixerOk, true)
        == ConfigOutcome(card, argv, nameRet, cardName, modules, mixerOk, false)
  {
  }

  /** With the fix, a request that reports success has configured the route:
      the module's names were queried, the mixer opened, and `config` called
      with the request. */
  lemma FixedSuccessConfigures(card: int, argv: seq<string>, nameRet: int, cardName: string,
                               modules: seq<Module>, mixerOk: bool)
    ensures var (r, calls) := ConfigOutcome(card, argv, nameRet, cardName, modules, mixerOk, true);
      |argv| >= 5 && r == 0 ==>
        && ParseDirection(argv[1]).Some? && ParseEnable(argv[4]).Some?
        && var d, en := ParseDirection(argv[1]).value, ParseEnable(argv[4]).value;
           calls == [GetFeBeNamesCall(d), MixerOpen(card), ConfigCall(d, argv[2], argv[3], en)]
  {
  }

  /** As written, the same cannot be said: a card without a module reports
      success and nothing is called. */
  lemma AsWrittenSuccessWithoutConfig()
    ensures var argv := ["config", "play", "fe", "be", "1"];
      ConfigOutcome(0, argv, 0, "none", [], true, false) == (0, [])
  {
  }

  /** `config_cmd_main` as written, over the registered modules of `registry`;
      the parameters are those of ConfigOutcome. */
  method ConfigCmdMain(card: int, argv: seq<string>, nameRet: int, cardName: string, registry: Registry, mixerOk: bool)
    returns (r: int, calls: seq<Call>)
    ensures (r, calls) == ConfigOutcome(card, argv, nameRet, cardName, registry.modules, mixerOk, false)
    ensures |argv| < 5 ==> r == 0 && calls == []
    ensures |argv| >= 5 && (ParseDirection(argv[1]).None? || ParseEnable(argv[4]).None?) ==> r == 1 && calls == []
    ensures |argv| >= 5 && ParseDirection(argv[1]).Some? && ParseEnable(argv[4]).Some? ==>
      var d := ParseDirection(argv[1]).value;
      var en := ParseEnable(argv[4]).value;
      var fe := argv[2];
      var be := argv[3];
      if nameRet != 0 then r == nameRet && calls == []
      else match Lookup(registry.modules, MOD_TYPE_CARD, Some(cardName))
        case None => r == 0 && calls == []
        case Some(i) =>
          var m := registry.modules[i];
          var names := m.getFeBeNames(d);
          if names.ret != 0 then r == names.ret && calls == [GetFeBeNamesCall(d)]
          else if fe !in names.fes || be !in names.bes then r == 1 && calls == [GetFeBeNamesCall(d)]
          else if !mixerOk then r == 1 && calls == [GetFeBeNamesCall(d), MixerOpen(card)]
          else r == m.config(d, fe, be, en) && calls == [GetFeBeNamesCall(d), MixerOpen(card), ConfigCall(d, fe, be, en)]
  {
    calls := [];
    if |argv| < 5 {
      return 0, [];
    }
    var dirArg, feArg, beArg, enableArg := argv[1], argv[2], argv[3], argv[4];
    var direction := ParseDirection(dirArg);
    if direction.None? {
      return 1, [];
    }
    var enable := ParseEnable(enableArg);
    if enable.None? {
      return 1, [];
    }
    r := nameRet;
    if r != 0 {
      return r, [];
    }
    var mod := registry.GetModule(MOD_TYPE_CARD, Some(cardName));
    if mod.None? {
      return r, [];
    }
    var m := mod.value;
    var names := m.getFeBeNames(direction.value);
    calls := [GetFeBeNamesCall(direction.value)];
    r := names.ret;
    if r != 0 {
      return r, calls;
    }
    var feFound := FindName(names.fes, feArg);
    if !feFound {
      return 1, calls;
    }
    var beFound := FindName(names.bes, beArg);
    if !beFound {
      return 1, calls;
    }
    calls := [GetFeBeNamesCall(direction.value), MixerOpen(card)];
    if !mixerOk {
      return 1, calls;
    }
    r := m.config(direction.value, feArg, beArg, enable.value);
    calls := [GetFeBeNamesCall(direction.value), MixerOpen(card), ConfigCall(direction.value, feArg, beArg, enable.value)];
  }
}
