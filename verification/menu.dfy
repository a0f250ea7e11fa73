/** The apply menu of macOS/UXTU4Unix.py (`preset_menu`): how each choice
    reaches `apply_smu`, and the settings it forces and restores around the
    call. */
module Menu {
  import opened Results
  import opened Strings
  import opened PyInt
  import opened Controller

  /** The preset catalogue: mode names with their tool arguments, in the
      catalogue's order. */
  type Catalogue = seq<(string, string)>

  /** `catalogue[name]`, `None` where the dictionary raises `KeyError`. */
  function Lookup(presets: Catalogue, name: string): (r: Option<string>)
    ensures r.Some? <==> exists i :: 0 <= i < |presets| && presets[i].0 == name
    ensures r.Some? ==> exists i :: 0 <= i < |presets| && presets[i] == (name, r.value)
    decreases |presets|
  {
    if |presets| == 0 then None
    else if presets[0].0 == name then Some(presets[0].1)
    else
      var r := Lookup(presets[1..], name);
      assert forall i :: 1 <= i < |presets| ==> presets[i] == presets[1..][i - 1];
      r
  }

  /** What the user types: the menu choice, the preset number (read only
      for choice `2`) and the custom argument text (read only for `C`). */
  datatype MenuInput = MenuInput(choice: string, number: string, customArgs: string)

  /** The environment of an `apply_smu` call. */
  datatype Env = Env(tool: string, probe: Probe, ticks: nat, trace: seq<Cycle>)

  /** How the menu ends. `Ran` carries the `apply_smu` outcome with the
      settings as they are after the menu's own restores. */
  datatype MenuEnd =
    | Back
    | InvalidChoice
    | InvalidConfig
    | NotANumber
    | OutOfRange
    | Ran(outcome: Outcome)

  /** Why the menu raises: a read without fallback, or a catalogue without
      `Balance`. */
  datatype MenuError = Config(error: ConfigError) | NoBalancePreset

  function Apply(cfg: Cfg, env: Env, args: string, userMode: string, save: bool): Result<Outcome, ConfigError> {
    ApplySmu(cfg, env.tool, args, userMode, save, env.probe, env.ticks, env.trace)
  }

  /** Sets `key` back to `value` once `apply_smu` has returned; a loop that
      is still running never returns, so nothing is restored. */
  function Restore(o: Outcome, key: Key, value: string): (o': Outcome)
    ensures o'.status == o.status && o'.applied == o.applied && o'.elapsed == o.elapsed
    ensures o.status != StillRunning ==> key in o'.cfg && o'.cfg[key] == value
    ensures SameOutside(o.cfg, o'.cfg, {key})
    ensures o.status == StillRunning ==> o'.cfg == o.cfg
  {
    if o.status == StillRunning then o else o.(cfg := o.cfg[key := value])
  }

  /** Choice `1`: the mode saved in the configuration. */
  function LoadSaved(cfg: Cfg, presets: Catalogue, env: Env): (r: Result<MenuEnd, MenuError>)
    ensures r.Failure? ==> r.error.Config?
    ensures r.Success? && r.value.Ran? && |r.value.outcome.applied| > 0 ==> Gated(cfg, env.probe)
    ensures var mode := Get(cfg, ModeKey, "");
      r == Success(InvalidConfig) <==> mode != "Custom" && Lookup(presets, mode).None?
    ensures var mode := Get(cfg, ModeKey, "");
      mode == "Custom" ==>
        && (r.Failure? <==> TypeKey !in cfg)
        && (r.Success? ==> r == Success(Ran(Apply(cfg, env, "Custom", Get(cfg, CustomArgsKey, ""), true).value)))
    ensures var mode := Get(cfg, ModeKey, "");
      mode != "Custom" && Lookup(presets, mode).Some? ==>
        && (r.Failure? <==> TypeKey !in cfg)
        && (r.Success? ==> r == Success(Ran(Apply(cfg, env, Lookup(presets, mode).value, mode, true).value)))
  {
    var userMode := Get(cfg, ModeKey, "");
    if userMode == "Custom" then
      match Apply(cfg, env, "Custom", Get(cfg, CustomArgsKey, ""), true)
      case Failure(e) => Failure(Config(e))
      case Success(o) => Success(Ran(o))
    else
      match Lookup(presets, userMode)
      case None => Success(InvalidConfig)
      case Some(args) =>
        match Apply(cfg, env, args, userMode, true)
        case Failure(e) => Failure(Config(e))
        case Success(o) => Success(Ran(o))
  }

  /** Choice `2`: the text typed is read as a preset number. */
  function LoadPremade(cfg: Cfg, presets: Catalogue, number: string, env: Env): (r: Result<MenuEnd, MenuError>)
    ensures r.Failure? ==> r.error.Config? && TypeKey !in cfg
    ensures ParseInt(Strip(number)).None? ==> r == Success(NotANumber)
    ensures r.Success? && r.value.Ran? && |r.value.outcome.applied| > 0 ==> Gated(cfg, env.probe)
  {
    match ParseInt(Strip(number))
    case None => Success(NotANumber)
    case Some(n) => RunPremade(cfg, presets, n, env)
  }

  /** A premade preset by its 1-based number, run with dynamic mode forced
      off and then restored. */
  function RunPremade(cfg: Cfg, presets: Catalogue, n: int, env: Env): (r: Result<MenuEnd, MenuError>)
    ensures r.Failure? ==> r.error.Config?
    ensures r.Failure? <==> 1 <= n <= |presets| && TypeKey !in cfg
    ensures !(1 <= n <= |presets|) ==> r == Success(OutOfRange)
    ensures r.Success? && r.value.Ran? && |r.value.outcome.applied| > 0 ==> Gated(cfg, env.probe)
  {
    if 1 <= n <= |presets| then
      var (mode, args) := presets[n - 1];
      var lastMode := Get(cfg, DynamicModeKey, "0");
      match Apply(cfg[DynamicModeKey := "0"], env, args, mode, true)
      case Failure(e) => Failure(Config(e))
      case Success(o) => Success(Ran(Restore(o, DynamicModeKey, lastMode)))
    else Success(OutOfRange)
  }

  /** Choice `D`: the `Balance` preset with dynamic mode and reapply forced
      on, both restored afterwards. */
  function LoadDynamic(cfg: Cfg, presets: Catalogue, env: Env): (r: Result<MenuEnd, MenuError>)
    ensures r.Failure? && r.error == NoBalancePreset <==> Lookup(presets, "Balance").None?
    ensures Lookup(presets, "Balance").Some? ==> (r.Failure? <==> TypeKey !in cfg)
    ensures r.Success? && r.value.Ran? && |r.value.outcome.applied| > 0 ==> Gated(cfg, env.probe)
  {
    var lastMode := Get(cfg, DynamicModeKey, "0");
    var lastApply := Get(cfg, ReApplyKey, "0");
    var forced := cfg[DynamicModeKey := "1"][ReApplyKey := "1"];
    match Lookup(presets, "Balance")
    case None => Failure(NoBalancePreset)
    case Some(args) =>
      match Apply(forced, env, args, "Balance", true)
      case Failure(e) => Failure(Config(e))
      case Success(o) => Success(Ran(Restore(Restore(o, DynamicModeKey, lastMode), ReApplyKey, lastApply)))
  }

  /** Choice `C`: custom arguments typed in, run without saving. */
  function LoadCustom(cfg: Cfg, customArgs: string, env: Env): (r: Result<MenuEnd, MenuError>)
    ensures r.Failure? <==> TypeKey !in cfg
    ensures r.Failure? ==> r.error.Config?
    ensures r.Success? && r.value.Ran? && |r.value.outcome.applied| > 0 ==> Gated(cfg, env.probe)
    ensures r.Success? ==> r == Success(Ran(Apply(cfg, env, "Custom", customArgs, false).value))
  {
    match Apply(cfg, env, "Custom", customArgs, false)
    case Failure(e) => Failure(Config(e))
    case Success(o) => Success(Ran(o))
  }

  /** The menu choices; `1` and `2` must match exactly after stripping,
      the letters in either case. */
  datatype Choice = LoadSavedChoice | PremadeChoice | DynamicChoice | CustomChoice | BackChoice | OtherChoice

  function ChoiceOf(text: string): Choice {
    var choice := Strip(text);
    if choice == "1" then LoadSavedChoice
    else if choice == "2" then PremadeChoice
    else if Lower(choice) == "d" then DynamicChoice
    else if Lower(choice) == "c" then CustomChoice
    else if Lower(choice) == "b" then BackChoice
    else OtherChoice
  }

  /** `preset_menu`. */
  function PresetMenu(cfg: Cfg, presets: Catalogue, input: MenuInput, env: Env): Result<MenuEnd, MenuError> {
    match ChoiceOf(input.choice)
    case LoadSavedChoice => LoadSaved(cfg, presets, env)
    case PremadeChoice => LoadPremade(cfg, presets, input.number, env)
    case DynamicChoice => LoadDynamic(cfg, presets, env)
    case CustomChoice => LoadCustom(cfg, input.customArgs, env)
    case BackChoice => Success(Back)
    case OtherChoice => Success(InvalidChoice)
  }

  /** Whatever is typed, the menu runs the tool only for a processor that
      is not Intel on a ready machine, and raises for a missing `Balance`
      preset only when dynamic mode is chosen. */
  lemma MenuGated(cfg: Cfg, presets: Catalogue, input: MenuInput, env: Env)
    ensures var r := PresetMenu(cfg, presets, input, env);
      r.Success? && r.value.Ran? && |r.value.outcome.applied| > 0 ==> Gated(cfg, env.probe)
    ensures var r := PresetMenu(cfg, presets, input, env);
      r.Failure? && r.error == NoBalancePreset <==>
        ChoiceOf(input.choice) == DynamicChoice && Lookup(presets, "Balance").None?
  {
    match ChoiceOf(input.choice)
    case LoadSavedChoice =>
    case PremadeChoice =>
    case DynamicChoice =>
    case CustomChoice =>
    case BackChoice =>
    case OtherChoice =>
  }

  /** After dynamic mode returns, `DynamicMode` and `ReApply` read as they
      did before (a missing option now reads `0` explicitly), and nothing
      else has changed. */
  lemma DynamicRestores(cfg: Cfg, presets: Catalogue, env: Env)
    ensures var r := LoadDynamic(cfg, presets, env);
      r.Success? && r.value.Ran? && r.value.outcome.status != StillRunning ==>
      var c := r.value.outcome.cfg;
      && Get(c, DynamicModeKey, "0") == Get(cfg, DynamicModeKey, "0")
      && Get(c, ReApplyKey, "0") == Get(cfg, ReApplyKey, "0")
      && SameOutside(cfg, c, {DynamicModeKey, ReApplyKey})
  {
  }

  /** Dynamic mode always enters the reapply loop once the gates pass, and
      every cycle runs the `Balance` arguments whatever the power reading. */
  lemma DynamicRunsBalance(cfg: Cfg, presets: Catalogue, env: Env, balance: string)
    requires Lookup(presets, "Balance") == Some(balance) && balance != "Custom"
    requires TypeKey in cfg
    ensures LoadDynamic(cfg, presets, env).Success? && LoadDynamic(cfg, presets, env).value.Ran?
    ensures var o := LoadDynamic(cfg, presets, env).value.outcome;
      && o.status != AppliedOnce
      && forall i :: 0 <= i < |o.applied| ==>
           o.applied[i].command == ["sudo", "-S", env.tool] + SplitWs(balance)
           && o.applied[i].shown == DynamicLabel(env.trace[i].power)
  {
    var forced := cfg[DynamicModeKey := "1"][ReApplyKey := "1"];
    assert Get(forced, DynamicModeKey, "0") == "1";
    AppliedOnceIff(forced, env.tool, balance, "Balance", true, env.probe, env.ticks, env.trace);
    DynamicKeepsArgs(forced, env.tool, balance, "Balance", true, env.probe, env.ticks, env.trace);
  }

  /** After a premade preset returns, `DynamicMode` and `ReApply` read as
      they did before. */
  lemma PremadeRestores(cfg: Cfg, presets: Catalogue, n: int, env: Env)
    ensures var r := RunPremade(cfg, presets, n, env);
      r.Success? && r.value.Ran? && r.value.outcome.status != StillRunning ==>
      var c := r.value.outcome.cfg;
      && Get(c, DynamicModeKey, "0") == Get(cfg, DynamicModeKey, "0")
      && Get(c, ReApplyKey, "0") == Get(cfg, ReApplyKey, "0")
  {
  }

  /** A premade preset never runs in dynamic mode: every run shows the
      preset's own name and runs its arguments. */
  lemma PremadeNotDynamic(cfg: Cfg, presets: Catalogue, n: int, env: Env)
    requires 1 <= n <= |presets| && presets[n - 1].1 != "Custom"
    requires TypeKey in cfg
    ensures RunPremade(cfg, presets, n, env).Success? && RunPremade(cfg, presets, n, env).value.Ran?
    ensures var o := RunPremade(cfg, presets, n, env).value.outcome;
      forall i :: 0 <= i < |o.applied| ==>
        o.applied[i] == Applied(presets[n - 1].0, ["sudo", "-S", env.tool] + SplitWs(presets[n - 1].1))
  {
    var (mode, args) := presets[n - 1];
    var c0 := cfg[DynamicModeKey := "0"];
    assert Get(c0, DynamicModeKey, "0") == "0";
    if Gated(c0, env.probe) {
      var prepared := Prepare(c0, args, mode, true);
      ApplySmuGated(c0, env.tool, args, mode, true, env.probe, env.ticks, env.trace);
      if Get(prepared, ReApplyKey, "0") == "1" {
        ReapplyRuns(ContextOf(c0, env.tool, args, mode, env.ticks), env.trace, prepared, Get(c0, ReApplyKey, "0"));
      }
    }
  }

  /** A saved preset name runs that preset's own arguments, shown under
      its own name, when dynamic mode is off. */
  lemma SavedPresetRuns(cfg: Cfg, presets: Catalogue, env: Env, args: string)
    requires Get(cfg, ModeKey, "") != "Custom" && Lookup(presets, Get(cfg, ModeKey, "")) == Some(args)
    requires args != "Custom" && Get(cfg, DynamicModeKey, "0") != "1"
    requires TypeKey in cfg
    ensures LoadSaved(cfg, presets, env).Success? && LoadSaved(cfg, presets, env).value.Ran?
    ensures var o := LoadSaved(cfg, presets, env).value.outcome;
      forall i :: 0 <= i < |o.applied| ==>
        o.applied[i] == Applied(Get(cfg, ModeKey, ""), ["sudo", "-S", env.tool] + SplitWs(args))
  {
    var mode := Get(cfg, ModeKey, "");
    if Gated(cfg, env.probe) {
      var prepared := Prepare(cfg, args, mode, true);
      ApplySmuGated(cfg, env.tool, args, mode, true, env.probe, env.ticks, env.trace);
      if Get(prepared, ReApplyKey, "0") == "1" {
        ReapplyRuns(ContextOf(cfg, env.tool, args, mode, env.ticks), env.trace, prepared, Get(cfg, ReApplyKey, "0"));
      }
    }
  }

  /** Custom arguments typed at the menu are run but never saved: `Mode`
      and `CustomArgs` read as before, whatever was typed. */
  lemma TypedCustomNotSaved(cfg: Cfg, customArgs: string, env: Env)
    requires TypeKey in cfg
    ensures var r := LoadCustom(cfg, customArgs, env);
      && r.Success? && r.value.Ran?
      && Get(r.value.outcome.cfg, ModeKey, "") == Get(cfg, ModeKey, "")
      && Get(r.value.outcome.cfg, CustomArgsKey, "") == Get(cfg, CustomArgsKey, "")
  {
    if Gated(cfg, env.probe) {
      CustomSave(cfg, env.tool, "Custom", customArgs, false, env.probe, env.ticks, env.trace);
    }
  }

  /** The number shown before a preset selects that preset: typing the
      decimal text of `n` runs the `n`-th catalogue entry. */
  lemma PremadeByNumber(cfg: Cfg, presets: Catalogue, n: int, env: Env)
    ensures LoadPremade(cfg, presets, IntToText(n), env) == RunPremade(cfg, presets, n, env)
  {
    NoSpaceStrip(IntToText(n));
    ParseIntToText(n);
  }

  /** A saved `Custom` mode runs the saved custom arguments, split on
      whitespace, and saves nothing. */
  lemma SavedCustomRuns(cfg: Cfg, presets: Catalogue, env: Env)
    requires Get(cfg, ModeKey, "") == "Custom" && Get(cfg, DynamicModeKey, "0") != "1"
    requires LoadSaved(cfg, presets, env).Success?
    ensures LoadSaved(cfg, presets, env).value.Ran?
    ensures var o := LoadSaved(cfg, presets, env).value.outcome;
      forall i :: 0 <= i < |o.applied| ==>
        o.applied[i].command == ["sudo", "-S", env.tool] + SplitWs(Get(cfg, CustomArgsKey, ""))
  {
    CustomRunsUserMode(cfg, env.tool, Get(cfg, CustomArgsKey, ""), true, env.probe, env.ticks, env.trace);
  }
}
