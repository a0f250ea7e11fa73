/** The apply controller of macOS/UXTU4Unix.py (`apply_smu`): the Intel and
    readiness gates, the dynamic-mode label, the tuning command and the
    reapply loop with its per-second cancellation, over a finite trace of
    observations. */
module Controller {
  import opened Results
  import opened Strings
  import Readiness

  /** The options of the configuration file that the controller and the
      preset menu read or write. */
  datatype Key = TypeKey | SipKey | DynamicModeKey | ReApplyKey | ModeKey | CustomArgsKey

  /** The (section, option) pair each key stands for. */
  function Name(k: Key): (string, string) {
    match k
    case TypeKey => ("Info", "Type")
    case SipKey => ("Settings", "SIP")
    case DynamicModeKey => ("Settings", "DynamicMode")
    case ReApplyKey => ("Settings", "ReApply")
    case ModeKey => ("User", "Mode")
    case CustomArgsKey => ("User", "CustomArgs")
  }

  /** The settings as the configuration parser holds them; a key absent
      from the map is an option the file lacks. */
  type Cfg = map<Key, string>

  /** `cfg.get(section, option, fallback=...)`. */
  function Get(cfg: Cfg, key: Key, fallback: string): (v: string)
    ensures key in cfg ==> v == cfg[key]
    ensures key !in cfg ==> v == fallback
  {
    if key in cfg then cfg[key] else fallback
  }

  /** `cfg` and `cfg'` agree on every key outside `keys`. */
  ghost predicate SameOutside(cfg: Cfg, cfg': Cfg, keys: set<Key>) {
    forall k :: k !in keys ==> (k in cfg <==> k in cfg') && (k in cfg ==> cfg[k] == cfg'[k])
  }

  // ---------------------------------------------------------------------
  // Dynamic label and command vector

  /** The preset label dynamic mode picks from a `pmset -g batt` reading:
      mains power wins, then battery power, and an unrecognised reading
      counts as mains power. */
  function DynamicLabel(reading: string): (name: string)
    ensures name == "Extreme" || name == "Eco"
    ensures name == "Eco" <==> !Contains(reading, "AC Power") && Contains(reading, "Battery Power")
  {
    if Contains(reading, "AC Power") then "Extreme"
    else if Contains(reading, "Battery Power") then "Eco"
    else "Extreme"
  }

  /** The argument vector handed to the tuning tool: `args` split on
      whitespace, except that for `args == "Custom"` the label itself is
      split. */
  function Command(tool: string, args: string, shown: string): (cmd: seq<string>)
    ensures |cmd| >= 3 && cmd[0] == "sudo" && cmd[1] == "-S" && cmd[2] == tool
    ensures forall i :: 3 <= i < |cmd| ==> |cmd[i]| > 0 && NoSpace(cmd[i])
    ensures args != "Custom" ==> cmd[3..] == SplitWs(args)
    ensures args == "Custom" ==> cmd[3..] == SplitWs(shown)
  {
    ["sudo", "-S", tool] + SplitWs(if args == "Custom" then shown else args)
  }

  /** Whitespace-separated arguments come back as the words they were
      joined from. */
  lemma CommandWords(tool: string, ws: seq<string>, shown: string)
    requires forall i :: 0 <= i < |ws| ==> |ws[i]| > 0 && NoSpace(ws[i])
    requires Join(ws, " ") != "Custom"
    ensures Command(tool, Join(ws, " "), shown) == ["sudo", "-S", tool] + ws
  {
    SplitWsJoin(ws);
  }

  // ---------------------------------------------------------------------
  // The reapply loop

  /** What one cycle of the loop observes: the power reading (consulted only
      in dynamic mode) and, per one-second tick, the stdin line available at
      that tick, if any. Ticks past the end of `input` see no line. */
  datatype Cycle = Cycle(power: string, input: seq<Option<string>>)

  /** Only whitespace. */
  predicate Blank(s: string) {
    |s| == 0 || (IsSpace(s[0]) && Blank(s[1..]))
  }

  /** A line that asks to go back: whitespace, one `b` or `B`, whitespace.
      `BackIsLowerStrip` shows this is `line.lower().strip() == "b"`. */
  predicate IsBack(line: string) {
    |line| > 0
    && if IsSpace(line[0]) then IsBack(line[1..]) else (line[0] == 'b' || line[0] == 'B') && Blank(line[1..])
  }

  lemma {:induction false} BlankAll(s: string)
    ensures Blank(s) <==> forall i :: 0 <= i < |s| ==> IsSpace(s[i])
    decreases |s|
  {
    if |s| > 0 {
      BlankAll(s[1..]);
      assert forall i :: 1 <= i < |s| ==> s[i] == s[1..][i - 1];
    }
  }

  /** A string that starts with a non-space character strips on the right
      to that character alone exactly when the rest is whitespace. */
  lemma StripRightSingle(t: string)
    requires |t| > 0 && !IsSpace(t[0])
    ensures StripRight(t) == [t[0]] <==> forall i :: 1 <= i < |t| ==> IsSpace(t[i])
  {
    var r := StripRight(t);
    if forall i :: 1 <= i < |t| ==> IsSpace(t[i]) {
      assert |r| > 0 && r[0] == t[0];
    }
  }

  /** Lower-casing and stripping skip a leading whitespace character. */
  lemma LowerStripSkip(line: string)
    requires |line| > 0 && IsSpace(line[0])
    ensures Strip(Lower(line)) == Strip(Lower(line[1..]))
  {
    var l := Lower(line);
    assert l[0] == LowerChar(line[0]);
    assert l[1..] == Lower(line[1..]);
    assert StripLeft(l) == StripLeft(l[1..]);
  }

  /** From a non-space first character, lower-casing and stripping give
      `b` exactly when that character is `b` or `B` and the rest is blank. */
  lemma LowerStripFirst(line: string)
    requires |line| > 0 && !IsSpace(line[0])
    ensures Strip(Lower(line)) == "b" <==> (line[0] == 'b' || line[0] == 'B') && Blank(line[1..])
  {
    var l := Lower(line);
    assert l[0] == LowerChar(line[0]);
    assert StripLeft(l) == l;
    StripRightSingle(l);
    BlankAll(line[1..]);
    assert forall i :: 1 <= i < |l| ==> l[i] == LowerChar(line[1..][i - 1]);
  }

  /** The back request is Python's `line.lower().strip() == "b"`. */
  lemma {:induction false} BackIsLowerStrip(line: string)
    ensures IsBack(line) <==> Strip(Lower(line)) == "b"
    decreases |line|
  {
    if |line| == 0 {
      assert Strip(Lower(line)) == [];
    } else if IsSpace(line[0]) {
      BackIsLowerStrip(line[1..]);
      LowerStripSkip(line);
    } else {
      LowerStripFirst(line);
    }
  }

  predicate Backs(line: Option<string>) {
    line.Some? && IsBack(line.value)
  }

  /** The tick at which the first back request of a cycle is read, among
      the first `ticks` ticks. */
  function FirstBack(input: seq<Option<string>>, ticks: nat): (r: Option<nat>)
    ensures r.Some? ==> r.value < ticks && r.value < |input| && Backs(input[r.value])
    ensures r.Some? ==> forall t :: 0 <= t < r.value ==> !Backs(input[t])
    ensures r.None? ==> forall t :: 0 <= t < ticks && t < |input| ==> !Backs(input[t])
    decreases |input|
  {
    if |input| == 0 || ticks == 0 then None
    else if Backs(input[0]) then Some(0)
    else
      var r := FirstBack(input[1..], ticks - 1);
      assert forall t :: 1 <= t < |input| ==> input[t] == input[1..][t - 1];
      if r.None? then None else Some(r.value + 1)
  }

  /** The fixed parameters of a loop: the tool path, `args`, `user_mode`,
      whether dynamic mode is on, and `int(float(Time))` as a tick count. */
  datatype LoopCtx = LoopCtx(tool: string, args: string, userMode: string, dynamic: bool, ticks: nat)

  /** One run of the tuning tool: the label shown and the command. */
  datatype Applied = Applied(shown: string, command: seq<string>)

  /** The label of a cycle. */
  function CycleLabel(ctx: LoopCtx, c: Cycle): string {
    if ctx.dynamic then DynamicLabel(c.power) else ctx.userMode
  }

  function RunOf(ctx: LoopCtx, c: Cycle): Applied {
    var l := CycleLabel(ctx, c);
    Applied(l, Command(ctx.tool, ctx.args, l))
  }

  predicate Cancels(ctx: LoopCtx, c: Cycle) {
    FirstBack(c.input, ctx.ticks).Some?
  }

  lemma MulStep(a: nat, n: nat)
    ensures a * (n + 1) == a * n + a
  {
  }

  /** The end of the loop over a finite trace: how many cycles ran the
      tool, whether a back request ended the loop, and the ticks slept. */
  datatype LoopEnd = LoopEnd(cycles: nat, cancelled: bool, elapsed: nat)

  /** Per cycle, the tick of its first back request, if any. */
  function Stops(ctx: LoopCtx, trace: seq<Cycle>): (stops: seq<Option<nat>>)
    ensures |stops| == |trace|
    ensures forall i :: 0 <= i < |trace| ==> stops[i] == FirstBack(trace[i].input, ctx.ticks)
  {
    seq(|trace|, i requires 0 <= i < |trace| => FirstBack(trace[i].input, ctx.ticks))
  }

  /** The loop over the per-cycle stop ticks: each cycle runs the tool
      once, then sleeps `ticks` seconds unless it stops early. */
  function LoopOver(ticks: nat, stops: seq<Option<nat>>): (r: LoopEnd)
    ensures r.cycles <= |stops|
    ensures r.cancelled <==> exists i :: 0 <= i < |stops| && stops[i].Some?
    ensures r.cancelled ==>
      r.cycles > 0
      && stops[r.cycles - 1].Some?
      && (forall i :: 0 <= i < r.cycles - 1 ==> stops[i].None?)
    ensures !r.cancelled ==> r.cycles == |stops|
    decreases |stops|
  {
    if |stops| == 0 then LoopEnd(0, false, 0)
    else
      match stops[0]
      case Some(k) => LoopEnd(1, true, k + 1)
      case None =>
        var rest := LoopOver(ticks, stops[1..]);
        assert forall i :: 1 <= i < |stops| ==> stops[i] == stops[1..][i - 1];
        LoopEnd(rest.cycles + 1, rest.cancelled, ticks + rest.elapsed)
  }

  /** The reapply loop: each cycle runs the tool once, then sleeps up to
      `ticks` seconds, returning at the first back request. A trace that
      ends without one leaves the loop still running. */
  function Loop(ctx: LoopCtx, trace: seq<Cycle>): (r: LoopEnd)
    ensures r.cycles <= |trace|
    ensures r.cancelled <==> exists i :: 0 <= i < |trace| && Cancels(ctx, trace[i])
    ensures r.cancelled ==>
      r.cycles > 0
      && Cancels(ctx, trace[r.cycles - 1])
      && (forall i :: 0 <= i < r.cycles - 1 ==> !Cancels(ctx, trace[i]))
    ensures !r.cancelled ==> r.cycles == |trace|
  {
    LoopOver(ctx.ticks, Stops(ctx, trace))
  }

  /** Time spent over the stop ticks: `ticks` for every cycle that runs to
      the end, and the stop tick plus one for the cycle that stops. */
  lemma {:induction false} LoopOverElapsed(ticks: nat, stops: seq<Option<nat>>)
    ensures var r := LoopOver(ticks, stops);
      !r.cancelled ==> r.elapsed == ticks * |stops|
    ensures var r := LoopOver(ticks, stops);
      r.cancelled ==> r.elapsed == ticks * (r.cycles - 1) + stops[r.cycles - 1].value + 1
    decreases |stops|
  {
    if |stops| > 0 && stops[0].None? {
      var rest := LoopOver(ticks, stops[1..]);
      LoopOverElapsed(ticks, stops[1..]);
      if rest.cancelled {
        assert stops[1..][rest.cycles - 1] == stops[rest.cycles];
        MulStep(ticks, rest.cycles - 1);
      } else {
        MulStep(ticks, |stops| - 1);
      }
    }
  }

  /** The time spent in the loop: a full `ticks` seconds for every cycle
      that is not cancelled, and up to and including the tick of the back
      request in the cycle that is. */
  lemma LoopElapsed(ctx: LoopCtx, trace: seq<Cycle>)
    ensures !Loop(ctx, trace).cancelled ==> Loop(ctx, trace).elapsed == ctx.ticks * |trace|
    ensures Loop(ctx, trace).cancelled ==>
      var n := Loop(ctx, trace).cycles;
      Loop(ctx, trace).elapsed == ctx.ticks * (n - 1) + FirstBack(trace[n - 1].input, ctx.ticks).value + 1
  {
    LoopOverElapsed(ctx.ticks, Stops(ctx, trace));
  }

  /** The tool runs of the first `n` cycles. */
  function Runs(ctx: LoopCtx, trace: seq<Cycle>, n: nat): (runs: seq<Applied>)
    requires n <= |trace|
    ensures |runs| == n
    ensures forall i :: 0 <= i < n ==> runs[i] == RunOf(ctx, trace[i])
  {
    seq(n, i requires 0 <= i < n => RunOf(ctx, trace[i]))
  }

  // ---------------------------------------------------------------------
  // apply_smu

  /** The outputs of `nvram boot-args` and `nvram csr-active-config`;
      `None` where the query fails. */
  datatype Probe = Probe(bootArgs: Option<string>, csr: Option<string>)

  /** `check_run` with the SIP setting read from the configuration. */
  function CheckRun(cfg: Cfg, probe: Probe): bool {
    Readiness.Ready(probe.bootArgs, probe.csr, Get(cfg, SipKey, Readiness.DefaultSip))
  }

  /** How `apply_smu` ended: refused for Intel, refused as not ready, ran
      the tool once, left the reapply loop on a back request, or was still
      looping when the trace ended. */
  datatype Status = Unsupported | NotReady | AppliedOnce | Cancelled | StillRunning

  datatype Outcome = Outcome(status: Status, applied: seq<Applied>, cfg: Cfg, elapsed: nat)

  /** A read without fallback of an option the configuration lacks. */
  datatype ConfigError = MissingOption(section: string, option: string)

  /** Changing a key inside `keys` keeps agreement outside `keys`. */
  lemma SameOutsideUpdate(cfg: Cfg, c: Cfg, keys: set<Key>, k: Key, v: string)
    requires SameOutside(cfg, c, keys) && k in keys
    ensures SameOutside(cfg, c[k := v], keys)
  {
  }

  /** The settings `apply_smu` writes before it runs the tool: `ReApply`
      is forced on in dynamic mode, and a custom save records `Mode` and
      `CustomArgs`. */
  function Prepare(cfg: Cfg, args: string, userMode: string, saveToConfig: bool): (c: Cfg)
    ensures Get(c, ReApplyKey, "0") ==
      if Get(cfg, DynamicModeKey, "0") == "1" then "1" else Get(cfg, ReApplyKey, "0")
    ensures saveToConfig && userMode == "Custom" ==>
      Get(c, ModeKey, "") == "Custom" && Get(c, CustomArgsKey, "") == args
    ensures !(saveToConfig && userMode == "Custom") ==>
      Get(c, ModeKey, "") == Get(cfg, ModeKey, "") && Get(c, CustomArgsKey, "") == Get(cfg, CustomArgsKey, "")
    ensures SameOutside(cfg, c, {ReApplyKey, ModeKey, CustomArgsKey})
  {
    var c1 := if Get(cfg, DynamicModeKey, "0") == "1" then cfg[ReApplyKey := "1"] else cfg;
    if saveToConfig && userMode == "Custom" then c1[ModeKey := "Custom"][CustomArgsKey := args] else c1
  }

  /** The reapply branch: the runs of the cycles the loop got through, and
      `ReApply` restored to its earlier value when a back request ends the
      loop. */
  function Reapply(ctx: LoopCtx, trace: seq<Cycle>, saved: Cfg, lastApply: string): (o: Outcome)
    ensures o.status == Cancelled || o.status == StillRunning
    ensures o.status == Cancelled <==> Loop(ctx, trace).cancelled
    ensures o.applied == Runs(ctx, trace, Loop(ctx, trace).cycles)
    ensures o.status == Cancelled ==> o.cfg == saved[ReApplyKey := lastApply]
    ensures o.status == StillRunning ==> o.cfg == saved
  {
    var l := Loop(ctx, trace);
    if l.cancelled then Outcome(Cancelled, Runs(ctx, trace, l.cycles), saved[ReApplyKey := lastApply], l.elapsed)
    else Outcome(StillRunning, Runs(ctx, trace, l.cycles), saved, l.elapsed)
  }

  /** The loop context `apply_smu` sets up. */
  function ContextOf(cfg: Cfg, tool: string, args: string, userMode: string, ticks: nat): LoopCtx {
    LoopCtx(tool, args, userMode, Get(cfg, DynamicModeKey, "0") == "1", ticks)
  }

  /** `apply_smu(args, user_mode, save_to_config)`. `ticks` is
      `int(float(Time))`, `trace` the observations of the reapply loop. */
  function ApplySmu(cfg: Cfg, tool: string, args: string, userMode: string, saveToConfig: bool,
                    probe: Probe, ticks: nat, trace: seq<Cycle>): (r: Result<Outcome, ConfigError>)
    ensures r.Failure? <==> TypeKey !in cfg
    ensures r.Success? && cfg[TypeKey] == "Intel" ==> r.value.status == Unsupported
    ensures r.Success? && cfg[TypeKey] != "Intel" && !CheckRun(cfg, probe) ==> r.value.status == NotReady
    ensures r.Success? && |r.value.applied| > 0 ==> cfg[TypeKey] != "Intel" && CheckRun(cfg, probe)
    ensures r.Success? && r.value.status in {Unsupported, NotReady} ==>
      r.value.applied == [] && r.value.cfg == cfg && r.value.elapsed == 0
    ensures r.Success? && r.value.status != StillRunning ==>
      Get(r.value.cfg, ReApplyKey, "0") == Get(cfg, ReApplyKey, "0")
    ensures r.Success? && r.value.status == StillRunning ==> Get(r.value.cfg, ReApplyKey, "0") == "1"
    ensures r.Success? ==> SameOutside(cfg, r.value.cfg, {ReApplyKey, ModeKey, CustomArgsKey})
    ensures r.Success? && r.value.status == AppliedOnce ==>
      r.value.applied == [Applied(userMode, Command(tool, args, userMode))]
  {
    if TypeKey !in cfg then Failure(MissingOption("Info", "Type"))
    else if cfg[TypeKey] == "Intel" then Success(Outcome(Unsupported, [], cfg, 0))
    else if !CheckRun(cfg, probe) then Success(Outcome(NotReady, [], cfg, 0))
    else
      var lastApply := Get(cfg, ReApplyKey, "0");
      var prepared := Prepare(cfg, args, userMode, saveToConfig);
      if Get(prepared, ReApplyKey, "0") == "1" then
        var o := Reapply(ContextOf(cfg, tool, args, userMode, ticks), trace, prepared, lastApply);
        SameOutsideUpdate(cfg, prepared, {ReApplyKey, ModeKey, CustomArgsKey}, ReApplyKey, lastApply);
        Success(o)
      else
        Success(Outcome(AppliedOnce, [Applied(userMode, Command(tool, args, userMode))], prepared, 0))
  }

  /** The gates passed: the type is known and not Intel, and the machine is
      ready. */
  predicate Gated(cfg: Cfg, probe: Probe) {
    TypeKey in cfg && cfg[TypeKey] != "Intel" && CheckRun(cfg, probe)
  }

  /** Past the gates, `apply_smu` either enters the reapply loop with the
      prepared settings or runs the tool once with them. */
  lemma ApplySmuGated(cfg: Cfg, tool: string, args: string, userMode: string, saveToConfig: bool,
                      probe: Probe, ticks: nat, trace: seq<Cycle>)
    requires Gated(cfg, probe)
    ensures var prepared := Prepare(cfg, args, userMode, saveToConfig);
      ApplySmu(cfg, tool, args, userMode, saveToConfig, probe, ticks, trace) ==
        if Get(prepared, ReApplyKey, "0") == "1" then
          Success(Reapply(ContextOf(cfg, tool, args, userMode, ticks), trace, prepared, Get(cfg, ReApplyKey, "0")))
        else
          Success(Outcome(AppliedOnce, [Applied(userMode, Command(tool, args, userMode))], prepared, 0))
  {
  }

  /** The tool runs once, without looping, exactly when the gates pass and
      neither dynamic mode nor reapply is on. */
  lemma AppliedOnceIff(cfg: Cfg, tool: string, args: string, userMode: string, saveToConfig: bool,
                       probe: Probe, ticks: nat, trace: seq<Cycle>)
    ensures var r := ApplySmu(cfg, tool, args, userMode, saveToConfig, probe, ticks, trace);
      r.Success? && r.value.status == AppliedOnce <==>
        Gated(cfg, probe) && Get(cfg, DynamicModeKey, "0") != "1" && Get(cfg, ReApplyKey, "0") != "1"
  {
  }

  /** The runs of the reapply branch are the loop's cycles, each with its
      own label and command; the branch ends cancelled exactly when some
      cycle reads a back request, and the last run is that cycle's. */
  lemma ReapplyRuns(ctx: LoopCtx, trace: seq<Cycle>, saved: Cfg, lastApply: string)
    ensures var o := Reapply(ctx, trace, saved, lastApply);
      && |o.applied| <= |trace|
      && (forall i :: 0 <= i < |o.applied| ==> o.applied[i] == RunOf(ctx, trace[i]))
      && (o.status == Cancelled <==> exists i :: 0 <= i < |trace| && Cancels(ctx, trace[i]))
      && (o.status == StillRunning ==> |o.applied| == |trace|)
      && (o.status == Cancelled ==>
            |o.applied| > 0
            && Cancels(ctx, trace[|o.applied| - 1])
            && forall i :: 0 <= i < |o.applied| - 1 ==> !Cancels(ctx, trace[i]))
  {
  }

  /** Once looping, `apply_smu` ends as the reapply branch does, with the
      runs and ending of `ReapplyRuns`. */
  lemma LoopedRuns(cfg: Cfg, tool: string, args: string, userMode: string, saveToConfig: bool,
                   probe: Probe, ticks: nat, trace: seq<Cycle>)
    ensures var r := ApplySmu(cfg, tool, args, userMode, saveToConfig, probe, ticks, trace);
      r.Success? && r.value.status in {Cancelled, StillRunning} ==>
        Gated(cfg, probe)
        && r == Success(Reapply(ContextOf(cfg, tool, args, userMode, ticks), trace,
                                Prepare(cfg, args, userMode, saveToConfig), Get(cfg, ReApplyKey, "0")))
  {
    if Gated(cfg, probe) {
      ApplySmuGated(cfg, tool, args, userMode, saveToConfig, probe, ticks, trace);
    }
  }

  /** The commands of a run list. */
  function Commands(runs: seq<Applied>): (cmds: seq<seq<string>>)
    ensures |cmds| == |runs|
    ensures forall i :: 0 <= i < |runs| ==> cmds[i] == runs[i].command
  {
    seq(|runs|, i requires 0 <= i < |runs| => runs[i].command)
  }

  /** In dynamic mode with preset arguments, every cycle runs the same
      command, `args` split on whitespace, whatever the power reading; only
      the label shown follows the reading. */
  lemma DynamicKeepsArgs(cfg: Cfg, tool: string, args: string, userMode: string, saveToConfig: bool,
                         probe: Probe, ticks: nat, trace: seq<Cycle>)
    requires Get(cfg, DynamicModeKey, "0") == "1" && args != "Custom"
    requires TypeKey in cfg
    ensures var r := ApplySmu(cfg, tool, args, userMode, saveToConfig, probe, ticks, trace).value;
      forall i :: 0 <= i < |r.applied| ==>
        r.applied[i].command == ["sudo", "-S", tool] + SplitWs(args)
        && r.applied[i].shown == DynamicLabel(trace[i].power)
  {
    if Gated(cfg, probe) {
      var prepared := Prepare(cfg, args, userMode, saveToConfig);
      assert Get(prepared, ReApplyKey, "0") == "1";
      ApplySmuGated(cfg, tool, args, userMode, saveToConfig, probe, ticks, trace);
      ReapplyRuns(ContextOf(cfg, tool, args, userMode, ticks), trace, prepared, Get(cfg, ReApplyKey, "0"));
    }
  }

  /** Two traces that differ only in their power readings give the same
      commands and the same ending when the arguments are not `Custom`. */
  lemma PowerReadingIrrelevant(cfg: Cfg, tool: string, args: string, userMode: string, saveToConfig: bool,
                               probe: Probe, ticks: nat, t1: seq<Cycle>, t2: seq<Cycle>)
    requires args != "Custom"
    requires |t1| == |t2| && forall i :: 0 <= i < |t1| ==> t1[i].input == t2[i].input
    ensures var r1 := ApplySmu(cfg, tool, args, userMode, saveToConfig, probe, ticks, t1);
      var r2 := ApplySmu(cfg, tool, args, userMode, saveToConfig, probe, ticks, t2);
      r1.Success? == r2.Success?
      && (r1.Success? ==> r1.value.status == r2.value.status && Commands(r1.value.applied) == Commands(r2.value.applied))
  {
    var ctx := ContextOf(cfg, tool, args, userMode, ticks);
    LoopSameInputs(ctx, t1, t2);
    if Gated(cfg, probe) {
      var prepared := Prepare(cfg, args, userMode, saveToConfig);
      var last := Get(cfg, ReApplyKey, "0");
      ApplySmuGated(cfg, tool, args, userMode, saveToConfig, probe, ticks, t1);
      ApplySmuGated(cfg, tool, args, userMode, saveToConfig, probe, ticks, t2);
      if Get(prepared, ReApplyKey, "0") == "1" {
        RunsSameCommands(ctx, t1, t2, Loop(ctx, t1).cycles);
      }
    }
  }

  /** Without `Custom` arguments the command of a run does not depend on
      the cycle it ran in. */
  lemma RunsSameCommands(ctx: LoopCtx, t1: seq<Cycle>, t2: seq<Cycle>, n: nat)
    requires ctx.args != "Custom" && n <= |t1| && n <= |t2|
    ensures Commands(Runs(ctx, t1, n)) == Commands(Runs(ctx, t2, n))
  {
    var c1 := Commands(Runs(ctx, t1, n));
    var c2 := Commands(Runs(ctx, t2, n));
    forall i | 0 <= i < n
      ensures c1[i] == c2[i]
    {
      assert c1[i] == Command(ctx.tool, ctx.args, CycleLabel(ctx, t1[i]));
      assert c2[i] == Command(ctx.tool, ctx.args, CycleLabel(ctx, t2[i]));
    }
  }

  /** The loop's control depends on the stdin lines alone. */
  lemma LoopSameInputs(ctx: LoopCtx, t1: seq<Cycle>, t2: seq<Cycle>)
    requires |t1| == |t2| && forall i :: 0 <= i < |t1| ==> t1[i].input == t2[i].input
    ensures Loop(ctx, t1) == Loop(ctx, t2)
  {
    assert Stops(ctx, t1) == Stops(ctx, t2);
  }

  /** The Custom settings are saved only when `user_mode` is literally
      `Custom`, and then `CustomArgs` receives `args`. A call
      `apply_smu("Custom", text)` therefore saves nothing unless `text` is
      itself `Custom`. */
  lemma CustomSave(cfg: Cfg, tool: string, args: string, userMode: string, saveToConfig: bool,
                   probe: Probe, ticks: nat, trace: seq<Cycle>)
    requires Gated(cfg, probe)
    ensures var r := ApplySmu(cfg, tool, args, userMode, saveToConfig, probe, ticks, trace).value;
      if saveToConfig && userMode == "Custom" then
        Get(r.cfg, ModeKey, "") == "Custom" && Get(r.cfg, CustomArgsKey, "") == args
      else
        Get(r.cfg, ModeKey, "") == Get(cfg, ModeKey, "")
        && Get(r.cfg, CustomArgsKey, "") == Get(cfg, CustomArgsKey, "")
  {
    var prepared := Prepare(cfg, args, userMode, saveToConfig);
    var r := ApplySmu(cfg, tool, args, userMode, saveToConfig, probe, ticks, trace).value;
    ApplySmuGated(cfg, tool, args, userMode, saveToConfig, probe, ticks, trace);
    if Get(prepared, ReApplyKey, "0") == "1" {
      var o := Reapply(ContextOf(cfg, tool, args, userMode, ticks), trace, prepared, Get(cfg, ReApplyKey, "0"));
      assert r == o;
      ReapplyKeepsUser(ContextOf(cfg, tool, args, userMode, ticks), trace, prepared, Get(cfg, ReApplyKey, "0"));
    } else {
      assert r.cfg == prepared;
    }
  }

  /** Leaving the loop restores `ReApply` alone. */
  lemma ReapplyKeepsUser(ctx: LoopCtx, trace: seq<Cycle>, saved: Cfg, lastApply: string)
    ensures var o := Reapply(ctx, trace, saved, lastApply);
      Get(o.cfg, ModeKey, "") == Get(saved, ModeKey, "")
      && Get(o.cfg, CustomArgsKey, "") == Get(saved, CustomArgsKey, "")
  {
  }

  /** With `args == "Custom"` and dynamic mode off, the command is the
      whitespace split of `user_mode`, the custom argument text. */
  lemma CustomRunsUserMode(cfg: Cfg, tool: string, userMode: string, saveToConfig: bool,
                           probe: Probe, ticks: nat, trace: seq<Cycle>)
    requires Get(cfg, DynamicModeKey, "0") != "1"
    requires TypeKey in cfg
    ensures var r := ApplySmu(cfg, tool, "Custom", userMode, saveToConfig, probe, ticks, trace).value;
      forall i :: 0 <= i < |r.applied| ==>
        r.applied[i].command == ["sudo", "-S", tool] + SplitWs(userMode) && r.applied[i].shown == userMode
  {
    if Gated(cfg, probe) {
      var prepared := Prepare(cfg, "Custom", userMode, saveToConfig);
      ApplySmuGated(cfg, tool, "Custom", userMode, saveToConfig, probe, ticks, trace);
      if Get(prepared, ReApplyKey, "0") == "1" {
        ReapplyRuns(ContextOf(cfg, tool, "Custom", userMode, ticks), trace, prepared, Get(cfg, ReApplyKey, "0"));
      }
    }
  }
}
