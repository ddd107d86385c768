/** The exec target: a buildable unit whose work is a set of named shell
    scripts. Configuration becomes one target carrying one registered script
    per name, the implicit `build` script always among them; each script's
    pre, run and post hooks lower a list of commands to one `sh -c` line. */
module Exec {
  import opened Wrappers
  import opened ShellLine
  import opened Targets

  /** The reserved script name that the top-level build command always defines. */
  const BuildScript: string := "build"

  const CmdErrorPrefix: string := "interpolating cmd: "
  const NoCommandsPrefix: string := "no commands provided for "

  /** Labels the hooks hand to the subprocess runner. */
  const PreLabel: string := "pre"
  const RunLabel: string := "executing"
  const PostLabel: string := "post"

  /** The status line the run hook sets for a target with qualified name `qn`. */
  function ExecutingStatus(qn: string): (s: string)
    ensures |s| == |qn| + 10 && s[..10] == "Executing " && s[10..] == qn
  {
    "Executing " + qn
  }

  /** One configured script. `None` is a nil list: a pre or post list that is
      present but empty is not the same as one that is absent. */
  datatype ExecScript = ExecScript(
    pre: Option<seq<string>>,
    command: seq<string>,
    post: Option<seq<string>>,
    deps: seq<string>)

  /** The configuration's script map. A Go map is shared by reference, so the
      construction step writes the `build` entry into the caller's own map. */
  class ScriptMap {
    var entries: map<string, ExecScript>

    constructor (entries: map<string, ExecScript>)
      ensures this.entries == entries
    {
      this.entries := entries;
    }
  }

  /** The fields of the exec configuration that the construction step reads.
      `scriptCommands` is `None` for a nil map. */
  datatype ExecConfig = ExecConfig(
    buildCommand: seq<string>,
    scriptCommands: Option<ScriptMap>,
    externalPath: Option<string>,
    name: string,
    deps: seq<string>)

  // ---------------------------------------------------------------------------
  // Lowering a command list to one shell invocation
  // ---------------------------------------------------------------------------

  /** Command `i` is the first whose interpolation fails. */
  ghost predicate FailsFirstAt(cmds: seq<string>, interp: string -> Interpolation, i: int)
  {
    && 0 <= i < |cmds|
    && interp(cmds[i]).err.Some?
    && forall j :: 0 <= j < i ==> interp(cmds[j]).err.None?
  }

  /** Interpolates every command in order, stopping at the first failure,
      whose error comes back wrapped as `interpolating cmd: <error>`. */
  function InterpolateAll(cmds: seq<string>, interp: string -> Interpolation): (r: Result<seq<string>>)
    ensures r.Ok? <==> forall i :: 0 <= i < |cmds| ==> interp(cmds[i]).err.None?
    ensures r.Ok? ==> |r.value| == |cmds|
    ensures r.Ok? ==> forall i :: 0 <= i < |cmds| ==> r.value[i] == interp(cmds[i]).text
    ensures r.Err? ==> exists i :: FailsFirstAt(cmds, interp, i) && r.msg == CmdErrorPrefix + interp(cmds[i]).err.value
  {
    if cmds == [] then Ok([])
    else
      var head := interp(cmds[0]);
      if head.err.Some? then
        assert FailsFirstAt(cmds, interp, 0);
        Err(CmdErrorPrefix + head.err.value)
      else
        match InterpolateAll(cmds[1..], interp)
        case Ok(rest) => Ok([head.text] + rest)
        case Err(m) =>
          ghost var i :| FailsFirstAt(cmds[1..], interp, i) && m == CmdErrorPrefix + interp(cmds[1..][i]).err.value;
          assert FailsFirstAt(cmds, interp, i + 1);
          Err(m)
  }

  /** The argument vector `getCmd` produces: `sh -c` and the interpolated commands joined by ` && `. */
  function ShellCommand(cmds: seq<string>, interp: string -> Interpolation): (r: Result<seq<string>>)
    ensures r.Ok? ==> |r.value| == 3 && r.value[0] == "sh" && r.value[1] == "-c"
  {
    match InterpolateAll(cmds, interp)
    case Ok(args) => Ok(["sh", "-c", Join(args, AndSeparator)])
    case Err(m) => Err(m)
  }

  /** `getCmd`: builds the interpolated commands by appending, one command at a time. */
  method GetCmd(cmds: seq<string>, t: Target) returns (r: Result<seq<string>>)
    ensures r == ShellCommand(cmds, t.interpolate)
  {
    var args: seq<string> := [];
    var i := 0;
    while i < |cmds|
      invariant 0 <= i <= |cmds|
      invariant |args| == i
      invariant forall j :: 0 <= j < i ==> t.interpolate(cmds[j]).err.None? && args[j] == t.interpolate(cmds[j]).text
    {
      var interpolated := t.interpolate(cmds[i]);
      if interpolated.err.Some? {
        assert FailsFirstAt(cmds, t.interpolate, i);
        return Err(CmdErrorPrefix + interpolated.err.value);
      }
      args := args + [interpolated.text];
      i := i + 1;
    }
    assert InterpolateAll(cmds, t.interpolate).value == args;
    return Ok(["sh", "-c", Join(args, AndSeparator)]);
  }

  /** The whole contract of `getCmd`, stated against the interpolator alone:
      it succeeds exactly when every command interpolates, and then runs the
      interpolated commands joined in their original order; otherwise it
      reports the first failure, wrapped. */
  lemma ShellCommandMeaning(cmds: seq<string>, interp: string -> Interpolation)
    ensures var r := ShellCommand(cmds, interp);
      && (r.Ok? <==> forall i :: 0 <= i < |cmds| ==> interp(cmds[i]).err.None?)
      && (r.Ok? ==> r.value == ["sh", "-c", Join(seq(|cmds|, i requires 0 <= i < |cmds| => interp(cmds[i]).text), AndSeparator)])
      && (r.Err? ==> exists i :: FailsFirstAt(cmds, interp, i) && r.msg == CmdErrorPrefix + interp(cmds[i]).err.value)
  {
    var all := InterpolateAll(cmds, interp);
    if all.Ok? {
      assert all.value == seq(|cmds|, i requires 0 <= i < |cmds| => interp(cmds[i]).text);
    }
  }

  /** An empty command list still yields a full vector, with an empty line. */
  lemma ShellCommandEmpty(interp: string -> Interpolation)
    ensures ShellCommand([], interp) == Ok(["sh", "-c", ""])
  {
  }

  /** Commands after the first failing one are never consulted: two interpolators
      that agree up to and including a failing command give the same outcome. */
  lemma ShellCommandStopsAtFailure(
    cmds: seq<string>, f: string -> Interpolation, g: string -> Interpolation, i: nat)
    requires i < |cmds| && f(cmds[i]).err.Some?
    requires forall j :: 0 <= j <= i ==> f(cmds[j]) == g(cmds[j])
    ensures ShellCommand(cmds, f) == ShellCommand(cmds, g)
  {
    // InterpolateAll's contract fixes its outcome from the interpolations up to the first failure
  }

  // ---------------------------------------------------------------------------
  // The hooks of one registered script
  // ---------------------------------------------------------------------------

  /** What an optional phase (pre or post) does: the subprocesses it starts and the error it returns. */
  datatype PhaseEffect = PhaseEffect(execs: seq<Invocation>, err: Option<string>)

  /** A pre or post list runs only when it is present; its subprocess outcome is
      never part of the result, only an interpolation failure is. */
  function OptionalPhase(cmds: Option<seq<string>>, tag: string, interp: string -> Interpolation): (e: PhaseEffect)
    ensures |e.execs| <= 1
    ensures e.execs != [] <==> cmds.Some? && ShellCommand(cmds.value, interp).Ok?
    ensures e.execs != [] ==> e.execs[0] == Invocation(ShellCommand(cmds.value, interp).value, tag)
    ensures e.err.Some? <==> cmds.Some? && ShellCommand(cmds.value, interp).Err?
    ensures e.err.Some? ==> e.err.value == ShellCommand(cmds.value, interp).msg
  {
    if cmds.None? then PhaseEffect([], None)
    else
      match ShellCommand(cmds.value, interp)
      case Ok(argv) => PhaseEffect([Invocation(argv, tag)], None)
      case Err(m) => PhaseEffect([], Some(m))
  }

  /** What the pre hook does: its subprocesses, the debug value it stores (if it
      gets that far) and the error it returns. */
  datatype PreEffect = PreEffect(execs: seq<Invocation>, debug: Option<string>, err: Option<string>)

  function PrePhase(s: ExecScript, interp: string -> Interpolation): (e: PreEffect)
    // the pre list runs as an optional phase; a failure there stops the hook
    ensures e.execs == OptionalPhase(s.pre, PreLabel, interp).execs
    // the debug key is written as soon as the main commands lower, even if rendering it fails
    ensures e.debug.Some? <==> OptionalPhase(s.pre, PreLabel, interp).err.None? && ShellCommand(s.command, interp).Ok?
    ensures e.debug.Some? ==> e.debug.value == interp(DebugLine(ShellCommand(s.command, interp).value[2])).text
    // the only errors are interpolation errors, of pre, command or debug rendering
    ensures e.err.None? <==>
      && OptionalPhase(s.pre, PreLabel, interp).err.None?
      && ShellCommand(s.command, interp).Ok?
      && interp(DebugLine(ShellCommand(s.command, interp).value[2])).err.None?
    // which error: the pre list's wrapped error, else the main commands' wrapped
    // error, else the rendering's interpolation error as it is, unwrapped
    ensures OptionalPhase(s.pre, PreLabel, interp).err.Some? ==> e.err == OptionalPhase(s.pre, PreLabel, interp).err
    ensures OptionalPhase(s.pre, PreLabel, interp).err.None? && ShellCommand(s.command, interp).Err? ==>
      e.err == Some(ShellCommand(s.command, interp).msg)
    ensures e.debug.Some? ==> e.err == interp(DebugLine(ShellCommand(s.command, interp).value[2])).err
  {
    var pre := OptionalPhase(s.pre, PreLabel, interp);
    if pre.err.Some? then PreEffect([], None, pre.err)
    else
      match ShellCommand(s.command, interp)
      case Err(m) => PreEffect(pre.execs, None, Some(m))
      case Ok(cmd) =>
        var debug := interp(DebugLine(cmd[2]));
        PreEffect(pre.execs, Some(debug.text), debug.err)
  }

  /** The pre hook: run the pre list if there is one, ignoring how it exits;
      lower the main commands; store their debug rendering under the debug key. */
  method Pre(s: ExecScript, t: Target) returns (err: Option<string>)
    modifies t
    ensures var e := PrePhase(s, t.interpolate);
      && t.execLog == old(t.execLog) + e.execs
      && t.env == (if e.debug.Some? then old(t.env)[DebugKey := e.debug.value] else old(t.env))
      && err == e.err
    ensures t.status == old(t.status)
  {
    if s.pre.Some? {
      var pre := GetCmd(s.pre.value, t);
      if pre.Err? {
        return Some(pre.msg);
      }
      var ignored := t.Exec(pre.value, PreLabel);
    }
    var cmd := GetCmd(s.command, t);
    if cmd.Err? {
      return Some(cmd.msg);
    }
    var debug := t.interpolate(DebugLine(cmd.value[2]));
    t.env := t.env[DebugKey := debug.text];
    err := debug.err;
  }

  /** The run hook: announce the target, then run the line cut out of the stored
      debug rendering. The slice panics below eight characters (a missing key reads as ""). */
  method Run(t: Target) returns (err: Option<string>)
    requires DebugKey in t.env && |t.env[DebugKey]| >= 8
    modifies t
    ensures t.status == ExecutingStatus(t.qn)
    ensures t.execLog == old(t.execLog) + [Invocation(["sh", "-c", Unwrap(old(t.env[DebugKey]))], RunLabel)]
    ensures err == t.execOracle(["sh", "-c", Unwrap(old(t.env[DebugKey]))], RunLabel)
    ensures t.env == old(t.env)
  {
    t.SetStatus(ExecutingStatus(t.qn));
    var stored := t.env[DebugKey];
    err := t.Exec(["sh", "-c", stored[7..|stored| - 1]], RunLabel);
  }

  /** The post hook: run the post list if there is one, ignoring how it exits. */
  method Post(s: ExecScript, t: Target) returns (err: Option<string>)
    modifies t
    ensures t.execLog == old(t.execLog) + OptionalPhase(s.post, PostLabel, t.interpolate).execs
    ensures err == OptionalPhase(s.post, PostLabel, t.interpolate).err
    ensures t.env == old(t.env) && t.status == old(t.status)
  {
    if s.post.Some? {
      var post := GetCmd(s.post.value, t);
      if post.Err? {
        return Some(post.msg);
      }
      var ignored := t.Exec(post.value, PostLabel);
    }
    return None;
  }

  /** The interpolator leaves `s` as it is. */
  predicate KeepsUnchanged(interp: string -> Interpolation, s: string)
  {
    interp(s) == Interpolation(s, None)
  }

  /** The debug round trip at the level of values: when the pre hook succeeds and
      interpolation leaves the debug rendering as it is, the stored value is long
      enough for the run hook's slice and the slice gives back the line that
      `getCmd` produced. */
  lemma DebugRoundTrip(s: ExecScript, interp: string -> Interpolation)
    requires PrePhase(s, interp).err.None?
    requires KeepsUnchanged(interp, DebugLine(ShellCommand(s.command, interp).value[2]))
    ensures var stored := PrePhase(s, interp).debug;
      && stored.Some? && |stored.value| >= 8
      && ["sh", "-c", Unwrap(stored.value)] == ShellCommand(s.command, interp).value
  {
  }

  /** The pre hook followed by the run hook on one target: the run hook executes
      exactly the argument vector the pre hook lowered, its outcome is the run's
      error, and the pre list's outcome never stops it. */
  method PreThenRun(s: ExecScript, t: Target) returns (err: Option<string>)
    requires ShellCommand(s.command, t.interpolate).Ok? ==>
      KeepsUnchanged(t.interpolate, DebugLine(ShellCommand(s.command, t.interpolate).value[2]))
    modifies t
    // the environment is left as the pre hook leaves it; the run hook does not touch it
    ensures var e := PrePhase(s, t.interpolate);
      t.env == (if e.debug.Some? then old(t.env)[DebugKey := e.debug.value] else old(t.env))
    // a failing pre hook: its error, its subprocesses only, no run and no status change
    ensures PrePhase(s, t.interpolate).err.Some? ==>
      && err == PrePhase(s, t.interpolate).err
      && t.execLog == old(t.execLog) + PrePhase(s, t.interpolate).execs
      && t.status == old(t.status)
    // a successful pre hook: the run hook announces the target and runs the lowered vector
    ensures PrePhase(s, t.interpolate).err.None? ==>
      var cmd := ShellCommand(s.command, t.interpolate).value;
      && t.execLog == old(t.execLog) + PrePhase(s, t.interpolate).execs + [Invocation(cmd, RunLabel)]
      && err == t.execOracle(cmd, RunLabel)
      && t.status == ExecutingStatus(t.qn)
  {
    err := Pre(s, t);
    if err.None? {
      DebugRoundTrip(s, t.interpolate);
      err := Run(t);
    }
  }

  // ---------------------------------------------------------------------------
  // Building the target from the configuration
  // ---------------------------------------------------------------------------

  /** A registered script: its dependencies and the entry its pre, run and post hooks are bound to. */
  datatype TargetScript = TargetScript(deps: seq<string>, hooks: ExecScript)

  /** The target options this step contributes (the forwarded ones are not modelled). */
  datatype TargetOption =
    | WithExternalPath(path: string)
    | WithTargetScript(name: string, script: TargetScript)

  /** A target to be created: its name and its options, in the order they were added. */
  datatype TargetDecl = TargetDecl(name: string, opts: seq<TargetOption>)

  /** The script map after the `build` entry is written: `build` holds the top-level
      build command and dependencies with no pre or post, whatever the user put
      there, and every other entry is kept. */
  function WithBuildScript(scripts: map<string, ExecScript>, buildCommand: seq<string>, deps: seq<string>)
    : (r: map<string, ExecScript>)
    ensures r.Keys == scripts.Keys + {BuildScript}
    ensures r[BuildScript] == ExecScript(None, buildCommand, None, deps)
    ensures forall k :: k in scripts && k != BuildScript ==> r[k] == scripts[k]
  {
    scripts[BuildScript := ExecScript(None, buildCommand, None, deps)]
  }

  /** The check applied to each entry: its main command list is not empty. */
  predicate HasCommands(s: ExecScript)
  {
    |s.command| != 0
  }

  /** Every entry passes the check; when one does not, there is an entry to name in the error. */
  function AllHaveCommands(table: map<string, ExecScript>): (ok: bool)
    ensures !ok <==> exists k :: k in table && !HasCommands(table[k])
  {
    forall k :: k in table ==> HasCommands(table[k])
  }

  /** The implicit `build` entry is validated like any other: an empty build
      command makes every configuration fail. */
  lemma EmptyBuildCommandRejected(scripts: map<string, ExecScript>, deps: seq<string>)
    ensures !AllHaveCommands(WithBuildScript(scripts, [], deps))
  {
  }

  /** The options from the optional external path, which is interpolated first. */
  function ExternalPathOpts(path: Option<string>, interpolateConfig: string -> Interpolation)
    : (r: Result<seq<TargetOption>>)
    ensures r.Err? <==> path.Some? && interpolateConfig(path.value).err.Some?
    ensures r.Err? ==> r.msg == "interpolating external path (" + path.value + "): " + interpolateConfig(path.value).err.value
    ensures r.Ok? ==> r.value == if path.Some? then [WithExternalPath(interpolateConfig(path.value).text)] else []
  {
    if path.None? then Ok([])
    else
      var interpolated := interpolateConfig(path.value);
      if interpolated.err.Some? then
        Err("interpolating external path (" + path.value + "): " + interpolated.err.value)
      else Ok([WithExternalPath(interpolated.text)])
  }

  /** `regs` registers each name in `names` exactly once, each bound to its own
      entry of `table` and carrying that entry's dependencies, and nothing else. */
  ghost predicate RegistersExactly(regs: seq<TargetOption>, table: map<string, ExecScript>, names: set<string>)
  {
    && (forall i :: 0 <= i < |regs| ==>
          && regs[i].WithTargetScript?
          && regs[i].name in names && regs[i].name in table
          && regs[i].script == TargetScript(table[regs[i].name].deps, table[regs[i].name]))
    && (forall i, j :: 0 <= i < j < |regs| && regs[i].WithTargetScript? && regs[j].WithTargetScript? ==>
          regs[i].name != regs[j].name)
    && (forall k :: k in names ==> exists i :: 0 <= i < |regs| && regs[i].WithTargetScript? && regs[i].name == k)
  }

  /** Registering one more, not yet registered, entry keeps the registrations exact. */
  lemma RegistersOneMore(regs: seq<TargetOption>, table: map<string, ExecScript>, names: set<string>, name: string)
    requires RegistersExactly(regs, table, names) && |regs| == |names|
    requires name in table && name !in names
    ensures var more := regs + [WithTargetScript(name, TargetScript(table[name].deps, table[name]))];
      RegistersExactly(more, table, names + {name}) && |more| == |names + {name}|
  {
    var more := regs + [WithTargetScript(name, TargetScript(table[name].deps, table[name]))];
    forall k | k in names + {name}
      ensures exists i :: 0 <= i < |more| && more[i].WithTargetScript? && more[i].name == k
    {
      if k == name {
        assert more[|regs|].name == k;
      } else {
        var i :| 0 <= i < |regs| && regs[i].WithTargetScript? && regs[i].name == k;
        assert more[i] == regs[i];
      }
    }
  }

  /** The loop over the script map: visits the entries in an unspecified order,
      stops at the first one met that has no main command, and otherwise
      registers every entry once, bound to its own entry. */
  method RegisterScripts(table: map<string, ExecScript>) returns (r: Result<seq<TargetOption>>)
    ensures !AllHaveCommands(table) ==>
      r.Err? && exists k :: k in table && !HasCommands(table[k]) && r.msg == NoCommandsPrefix + k
    ensures AllHaveCommands(table) ==>
      r.Ok? && |r.value| == |table| && RegistersExactly(r.value, table, table.Keys)
  {
    var regs: seq<TargetOption> := [];
    var pending := table.Keys;
    ghost var done: set<string> := {};
    while pending != {}
      invariant done + pending == table.Keys && done !! pending
      invariant |regs| == |done|
      invariant RegistersExactly(regs, table, done)
      invariant forall k :: k in done ==> HasCommands(table[k])
      decreases pending
    {
      var name :| name in pending;
      var execCmd := table[name];
      if !HasCommands(execCmd) {
        return Err(NoCommandsPrefix + name);
      }
      RegistersOneMore(regs, table, done, name);
      regs := regs + [WithTargetScript(name, TargetScript(execCmd.deps, execCmd))];
      done := done + {name};
      pending := pending - {name};
    }
    return Ok(regs);
  }

  function Footprint(m: Option<ScriptMap>): set<ScriptMap>
  {
    if m.Some? then {m.value} else {}
  }

  /** The entries of a possibly nil script map. */
  function Entries(m: Option<ScriptMap>): map<string, ExecScript>
    reads Footprint(m)
  {
    if m.Some? then m.value.entries else map[]
  }

  /** `GetTargets`: interpolate the external path, write the `build` entry into the
      script map, reject the first entry met (in unspecified map order) that has no
      main command, and otherwise return one target that registers every entry. */
  method GetTargets(ec: ExecConfig, interpolateConfig: string -> Interpolation)
    returns (r: Result<seq<TargetDecl>>)
    modifies Footprint(ec.scriptCommands)
    // a failing external path is reported before the script map is touched
    ensures var ext := ExternalPathOpts(ec.externalPath, interpolateConfig);
      ext.Err? ==> r == Err(ext.msg) && Entries(ec.scriptCommands) == old(Entries(ec.scriptCommands))
    ensures var ext := ExternalPathOpts(ec.externalPath, interpolateConfig);
      var table := WithBuildScript(old(Entries(ec.scriptCommands)), ec.buildCommand, ec.deps);
      ext.Ok? ==>
        // the caller's map, when there is one, now holds the synthesised build entry
        && (ec.scriptCommands.Some? ==> ec.scriptCommands.value.entries == table)
        // some entry without commands: an error naming one such entry, no target
        && (!AllHaveCommands(table) ==>
              r.Err? && exists k :: k in table && !HasCommands(table[k]) && r.msg == NoCommandsPrefix + k)
        // otherwise: one target, the external path option, then one registration per entry
        && (AllHaveCommands(table) ==>
              && r.Ok? && |r.value| == 1 && r.value[0].name == ec.name
              && |r.value[0].opts| == |ext.value| + |table|
              && r.value[0].opts[..|ext.value|] == ext.value
              && RegistersExactly(r.value[0].opts[|ext.value|..], table, table.Keys))
  {
    var opts: seq<TargetOption> := [];
    if ec.externalPath.Some? {
      var interpolated := interpolateConfig(ec.externalPath.value);
      if interpolated.err.Some? {
        return Err("interpolating external path (" + ec.externalPath.value + "): " + interpolated.err.value);
      }
      opts := opts + [WithExternalPath(interpolated.text)];
    }
    ghost var ext := opts;

    var scripts: ScriptMap;
    if ec.scriptCommands.None? {
      scripts := new ScriptMap(map[]);
    } else {
      scripts := ec.scriptCommands.value;
    }
    scripts.entries := scripts.entries[BuildScript := ExecScript(None, ec.buildCommand, None, ec.deps)];
    ghost var table := scripts.entries;
    assert table == WithBuildScript(old(Entries(ec.scriptCommands)), ec.buildCommand, ec.deps);

    var registered := RegisterScripts(scripts.entries);
    if registered.Err? {
      return Err(registered.msg);
    }
    opts := opts + registered.value;
    assert opts[..|ext|] == ext && opts[|ext|..] == registered.value;
    return Ok([TargetDecl(ec.name, opts)]);
  }
}
