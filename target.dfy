/** The part of the host's target object that the script hooks touch: its
    qualified name, its environment map, its status line, its placeholder
    interpolation and its subprocess runner. Interpolation and execution are
    host code, so they are oracles fixed when the target is made; every call
    to the runner is recorded, so that what ran, in which order and with which
    label is part of the target's state. */
module Targets {
  import opened Wrappers

  /** What `Interpolate` returns: Go's `(string, error)` pair. On failure the
      string is still returned, and some callers store it anyway. */
  datatype Interpolation = Interpolation(text: string, err: Option<string>)

  /** One call of the subprocess runner: the argument vector and the phase label. */
  datatype Invocation = Invocation(argv: seq<string>, tag: string)

  /** The environment key under which the pre hook leaves the debug rendering for the run hook. */
  const DebugKey: string := "ZEN_DEBUG_CMD"

  class Target {
    /** The target's qualified name. */
    const qn: string
    /** Placeholder resolution against this target's context. */
    const interpolate: string -> Interpolation
    /** What the subprocess runner reports for an argument vector and label: nil or an error. */
    const execOracle: (seq<string>, string) -> Option<string>

    var env: map<string, string>
    var status: string
    /** Every subprocess invocation so far, oldest first. */
    var execLog: seq<Invocation>

    constructor (qn: string, interpolate: string -> Interpolation,
                 execOracle: (seq<string>, string) -> Option<string>, env: map<string, string>)
      ensures this.qn == qn && this.interpolate == interpolate && this.execOracle == execOracle
      ensures this.env == env && status == "" && execLog == []
    {
      this.qn := qn;
      this.interpolate := interpolate;
      this.execOracle := execOracle;
      this.env := env;
      status := "";
      execLog := [];
    }

    /** Runs `argv` as a subprocess: recorded, and answered by the oracle. */
    method Exec(argv: seq<string>, tag: string) returns (err: Option<string>)
      modifies this
      ensures execLog == old(execLog) + [Invocation(argv, tag)]
      ensures err == execOracle(argv, tag)
      ensures env == old(env) && status == old(status)
    {
      execLog := execLog + [Invocation(argv, tag)];
      err := execOracle(argv, tag);
    }

    method SetStatus(line: string)
      modifies this
      ensures status == line
      ensures env == old(env) && execLog == old(execLog)
    {
      status := line;
    }
  }
}
