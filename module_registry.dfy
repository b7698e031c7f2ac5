/**
 * The module registry of module.h and module.c: card modules register
 * themselves into one global list, in order, and are looked up by type plus
 * either an exact name or the first probe that reports support.
 */
module ModuleRegistry {
  import opened Options
  import opened Errno

  /** AUDIO_TOOL_MOD_TYPE_CARD, the only module type. */
  const MOD_TYPE_CARD: int := 1
  /** AUDIO_TOOL_MOD_TYPE_MAX. */
  const MOD_TYPE_MAX: int := MOD_TYPE_CARD

  /** The two stream directions a route is configured for. */
  datatype Direction = Playback | Capture

  /** What `get_fe_be_names` hands back: its result and, on success, the frontend
      and backend names before each list's NULL terminator. */
  datatype FeBeNames = FeBeNames(ret: int, fes: seq<string>, bes: seq<string>)

  /**
   * A registered module: `type`, `name` and `probe`, the leading fields shared
   * by `audio_tool_module` and `audio_tool_card_module`, plus the two card
   * operations that config_cmd.c calls. `probe` returns 0 when the module
   * supports the current device. The mixer that `config` receives and the port
   * it reports are not modelled.
   */
  datatype Module = Module(
    mtype: int,
    name: string,
    probe: () -> int,
    getFeBeNames: Direction -> FeBeNames,
    config: (Direction, string, string, int) -> int)

  /** Module `m` is what `audio_tool_get_module` stops at for this type and name. */
  predicate Selects(m: Module, mtype: int, name: Option<string>) {
    m.mtype == mtype && if name.Some? then m.name == name.value else m.probe() == 0
  }

  /** The types the lookup walks the list for. */
  predicate ValidType(mtype: int) {
    !(mtype == 0 || mtype > MOD_TYPE_MAX)
  }

  /** The position of the first module the lookup stops at; none for a type it refuses. */
  function Lookup(mods: seq<Module>, mtype: int, name: Option<string>): (r: Option<nat>)
    ensures r.Some? ==> ValidType(mtype) && r.value < |mods| && Selects(mods[r.value], mtype, name)
    ensures r.Some? ==> forall j :: 0 <= j < r.value ==> !Selects(mods[j], mtype, name)
    ensures r.None? && ValidType(mtype) ==> forall j :: 0 <= j < |mods| ==> !Selects(mods[j], mtype, name)
  {
    if !ValidType(mtype) then None else FirstSelected(mods, mtype, name)
  }

  function FirstSelected(mods: seq<Module>, mtype: int, name: Option<string>): (r: Option<nat>)
    ensures r.Some? ==> r.value < |mods| && Selects(mods[r.value], mtype, name)
    ensures r.Some? ==> forall j :: 0 <= j < r.value ==> !Selects(mods[j], mtype, name)
    ensures r.None? ==> forall j :: 0 <= j < |mods| ==> !Selects(mods[j], mtype, name)
  {
    if mods == [] then None
    else if Selects(mods[0], mtype, name) then Some(0)
    else match FirstSelected(mods[1..], mtype, name)
      case None => None
      case Some(i) => Some(i + 1)
  }

  /** `g_module_list`: the registered modules in registration order. */
  class Registry {
    var modules: seq<Module>

    /** The empty list before any module registers. */
    constructor ()
      ensures modules == []
    {
      modules := [];
    }

    /**
     * `audio_tool_module_register`. `allocOk` is whether the node allocation
     * succeeds. The module goes at the tail; duplicates are not refused.
     */
    method Register(mod: Option<Module>, allocOk: bool) returns (r: int)
      modifies this
      ensures mod.None? ==> r == EINVAL && modules == old(modules)
      ensures mod.Some? && !allocOk ==> r == ENOMEM && modules == old(modules)
      ensures mod.Some? && allocOk ==> r == 0 && modules == old(modules) + [mod.value]
    {
      if mod.None? {
        return EINVAL;
      }
      if !allocOk {
        return ENOMEM;
      }
      if modules == [] {
        modules := [mod.value];
      } else {
        modules := PushBack(modules, mod.value);
      }
      return 0;
    }

    /**
     * `audio_tool_get_module`: nothing for type 0 or a type above
     * AUDIO_TOOL_MOD_TYPE_MAX, without walking the list; otherwise the first
     * module of the type with exactly the given name or, without a name, the
     * first whose probe returns 0. The list is left as it is.
     */
    method GetModule(mtype: int, name: Option<string>) returns (r: Option<Module>)
      ensures match Lookup(modules, mtype, name)
        case None => r.None?
        case Some(i) => r == Some(modules[i])
    {
      if mtype == 0 || mtype > MOD_TYPE_MAX {
        return None;
      }
      var i := 0;
      while i < |modules|
        invariant 0 <= i <= |modules|
        invariant forall j :: 0 <= j < i ==> !Selects(modules[j], mtype, name)
      {
        var m := modules[i];
        if m.mtype == mtype {
          if name.Some? {
            if m.name == name.value {
              FirstSelectedIs(modules, mtype, name, i);
              return Some(m);
            }
          } else {
            if m.probe() == 0 {
              FirstSelectedIs(modules, mtype, name, i);
              return Some(m);
            }
          }
        }
        i := i + 1;
      }
      return None;
    }
  }

  /**
   * `module_list_push_back`: a NULL list is left alone; otherwise the cursor
   * follows `next` from the head until the node without one, and the new node
   * is linked behind it. Node `i`'s `next` is node `i + 1`.
   */
  method PushBack(list: seq<Module>, node: Module) returns (r: seq<Module>)
    ensures list == [] ==> r == []
    ensures list != [] ==> |r| == |list| + 1 && r[..|list|] == list && r[|list|] == node
  {
    if list == [] {
      return list;
    }
    var cur := 0;
    while cur + 1 < |list|
      invariant cur < |list|
      decreases |list| - cur
    {
      cur := cur + 1;
    }
    r := list[..cur + 1] + [node];
  }

  lemma FirstSelectedIs(mods: seq<Module>, mtype: int, name: Option<string>, i: nat)
    requires i < |mods| && Selects(mods[i], mtype, name)
    requires forall j :: 0 <= j < i ==> !Selects(mods[j], mtype, name)
    ensures FirstSelected(mods, mtype, name) == Some(i)
  {
  }

  /** Registering one more module never changes an existing answer; it can only
      answer a lookup that found nothing before. */
  lemma {:induction false} LookupAfterRegister(mods: seq<Module>, m: Module, mtype: int, name: Option<string>)
    ensures Lookup(mods + [m], mtype, name) ==
      match Lookup(mods, mtype, name)
      case Some(i) => Some(i)
      case None => if ValidType(mtype) && Selects(m, mtype, name) then Some(|mods|) else None
  {
    var all := mods + [m];
    if ValidType(mtype) {
      match Lookup(mods, mtype, name)
      case Some(i) =>
        FirstSelectedIs(all, mtype, name, i);
      case None =>
        if Selects(m, mtype, name) {
          FirstSelectedIs(all, mtype, name, |mods|);
        } else {
          assert forall j :: 0 <= j < |all| ==> !Selects(all[j], mtype, name) by {
            assert forall j :: 0 <= j < |mods| ==> all[j] == mods[j];
          }
          NoneSelected(all, mtype, name);
        }
    }
  }

  lemma {:induction false} NoneSelected(mods: seq<Module>, mtype: int, name: Option<string>)
    requires forall j :: 0 <= j < |mods| ==> !Selects(mods[j], mtype, name)
    ensures FirstSelected(mods, mtype, name).None?
    decreases |mods|
  {
    if mods != [] {
      NoneSelected(mods[1..], mtype, name);
    }
  }

  /** A name lookup of a registered module's own name and type finds a module of
      that name and type, the earliest one registered. */
  lemma LookupByOwnName(mods: seq<Module>, i: nat)
    requires i < |mods| && ValidType(mods[i].mtype)
    ensures Lookup(mods, mods[i].mtype, Some(mods[i].name)).Some?
    ensures Lookup(mods, mods[i].mtype, Some(mods[i].name)).value <= i
  {
  }
}
