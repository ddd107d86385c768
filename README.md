# Exec target scripts, modelled in Dafny

This project models the script-assembly core of the `exec` target type of a
build orchestrator (the Go file `exec.go`). An exec configuration names a
top-level build command, its dependencies, an optional external path and a
map of named scripts, each with optional `pre` and `post` command lists, a
main `command` list and its own dependencies. The construction step
(`GetTargets`) turns it into one target that registers one script per name,
with the `build` script always synthesised from the top-level fields. Each
registered script has three hooks:

- **pre** runs the pre list (if there is one), lowers the main commands and
  stores a `sh -c '...'` debug rendering under `ZEN_DEBUG_CMD`;
- **run** cuts the command line back out of that rendering and runs it;
- **post** runs the post list (if there is one).

Every command list is lowered by `getCmd`. It interpolates each command in
order, joins the results with ` && ` and wraps them as `["sh", "-c", line]`.

Files and modules:

- `wrappers.dfy` (`Wrappers`): `Option` (Go's nil) and `Result` (a value or an
  error message).
- `shell_line.dfy` (`ShellLine`): `strings.Join`, the debug rendering and the
  slice that undoes it.
- `target.dfy` (`Targets`): the parts of the host's target object the hooks
  touch. These are the qualified name, the environment map, the status line,
  and the interpolation and subprocess oracles. Every subprocess call is
  appended to `execLog`.
- `exec.dfy` (`Exec`): the configuration data, `getCmd`, the three hooks and
  the construction step.

Interpolation is an oracle returning Go's `(string, error)` pair
(`Interpolation`). The pair matters because the pre hook stores the returned
string even when the error is set (exec.go:92). Subprocess execution is an
oracle from argument vector and phase tag to a nil-or-error result. The
`ScriptMap` class stands for the configuration's Go map. A map is shared by
reference, so the construction step's write of the `build` entry is visible to
the caller even though `GetTargets` has a value receiver. `GetTargets` states
this in its contract.

Behaviour of `exec.go` worth noting, all of it modelled as written:

- A failing pre or post subprocess does not stop the script. Both hooks
  discard the `Exec` result (exec.go:83, 108) and return only interpolation
  errors (`Exec.OptionalPhase`, `Exec.PrePhase`).
- The pre and post lists run when they are non-nil, not when they are
  non-empty. A present but empty list runs `sh -c ""`.
- The synthesised `build` entry is validated like every other entry. An empty
  top-level build command therefore always fails (`Exec.EmptyBuildCommandRejected`).
- The run hook executes the line cut out of the stored debug rendering. That
  line equals the one `getCmd` produced only when the second interpolation
  leaves the rendering unchanged (`Exec.DebugRoundTrip`, `Exec.PreThenRun`).
- Scripts carry no environment overlay. `ExecScript` has no such field.

## Model

| member | source | states |
|---|---|---|
| `ShellLine.Join` | exec.go:136 | `strings.Join`: no parts give the empty line and one part gives that part unchanged |
| `ShellLine.JoinAppend` | exec.go:136 | joining two non-empty runs of parts equals joining each and putting exactly one separator between them (order kept, nothing added or lost) |
| `ShellLine.DebugLine` | exec.go:92 | the rendering is eight characters longer than the line, starts with `sh -c '` and ends with `'` |
| `ShellLine.Unwrap` | exec.go:101 | the slice `[7 : len-1]` needs at least eight characters and returns the middle, the first seven and the last character framing it |
| `ShellLine.UnwrapDebugLine` | exec.go:92-101 | slicing the rendering of any line gives back that line, quotes included |
| `ShellLine.DebugLineUnwrap` | exec.go:101 | every string shaped like a rendering is the rendering of its slice, so the slice inverts the rendering exactly on such strings |
| `Exec.ExecutingStatus` | exec.go:100 | the run hook's status line is exactly `Executing ` followed by the target's qualified name |
| `Exec.InterpolateAll` | exec.go:127-134 | succeeds iff every command interpolates, then holds the interpolated commands in order; otherwise fails with `interpolating cmd: ` and the error of the first failing command |
| `Exec.ShellCommand` | exec.go:136 | a successful lowering is always a three-element vector starting `sh`, `-c` |
| `Exec.GetCmd` | exec.go:126-137 | the appending loop of `getCmd` returns exactly `ShellCommand` of its input |
| `Exec.ShellCommandMeaning` | exec.go:126-137 | `getCmd` succeeds iff every command interpolates and then yields `sh -c` with the interpolated commands joined by ` && ` in input order; otherwise it yields the wrapped error of the first failure and no vector |
| `Exec.ShellCommandEmpty` | exec.go:127-136 | an empty command list gives `["sh", "-c", ""]` |
| `Exec.ShellCommandStopsAtFailure` | exec.go:128-132 | commands after the first failing one never affect the outcome: interpolators that agree up to a failing command give the same result |
| `Exec.OptionalPhase` | exec.go:79-85 | a pre or post list starts a subprocess iff it is non-nil and lowers; it returns an error iff it is non-nil and fails to lower, never because of the subprocess |
| `Exec.PrePhase` | exec.go:78-98 | the pre hook runs the pre list as an optional phase; it stores the debug value iff the pre list and the main commands lower (even if the rendering's interpolation fails); it errs iff one of the three interpolations fails, returning the first failure in hook order: the pre list's or the main commands' `getCmd` error (wrapped as `interpolating cmd: ...`), or else the rendering's interpolation error unwrapped |
| `Exec.Pre` | exec.go:78-98 | the pre hook's log, environment and result are exactly those `PrePhase` describes; the status is untouched |
| `Exec.Run` | exec.go:99-102 | the run hook needs a stored value of at least eight characters, sets the `Executing` status and runs `sh -c` on the slice of the stored value, returning the runner's error |
| `Exec.Post` | exec.go:103-112 | the post hook runs the post list as an optional phase and leaves environment and status untouched |
| `Exec.DebugRoundTrip` | exec.go:92-101 | when the pre hook succeeds and interpolation keeps the rendering unchanged, the stored value is long enough to slice and the slice rebuilds exactly `getCmd`'s vector |
| `Exec.PreThenRun` | exec.go:78-102 | when interpolation keeps the rendering unchanged, pre followed by run executes exactly the vector `getCmd` lowered for the main commands, after the pre list's subprocess and whatever that subprocess reported, and ends with the pre hook's environment and the `Executing` status; when the pre hook errs, its error is returned, only its subprocesses ran and the status is untouched |
| `Exec.WithBuildScript` | exec.go:61-70 | after the write, `build` holds the top-level build command and dependencies with nil pre and post whatever the user supplied, and every other entry is kept |
| `Exec.AllHaveCommands` | exec.go:71-74 | the map passes validation iff every entry has a non-empty command list; when it fails there is an entry without commands to name in the error |
| `Exec.EmptyBuildCommandRejected` | exec.go:65-74 | with an empty top-level build command, validation always fails |
| `Exec.ExternalPathOpts` | exec.go:53-59 | the external path fails iff it is present and its interpolation fails, with `interpolating external path (<path>): <error>`; otherwise it contributes one option iff present |
| `Exec.RegisterScripts` | exec.go:71-116 | if some entry has no main command, the result is an error naming such an entry; otherwise one registration per entry, each bound to its own entry and carrying its dependencies |
| `Exec.GetTargets` | exec.go:38-124 | a failing external path errs before the map is touched; otherwise the caller's map gets the `build` entry, and the call either errs naming an entry without commands or returns exactly one target named after the configuration whose options are the external path option and one registration per entry |

## Left out

- The options that `GetTargets` builds from configuration fields other than the
  script map, the build command, the dependencies, the name and the external
  path. Outs, Visibility, Env, Tools, PassEnv and Environments are forwarded as
  they are (exec.go:41-46). Srcs is forwarded wrapped as a one-entry map under
  `_srcs` (exec.go:40). The no-interpolation option is appended only when
  NoInterpolation is set (exec.go:49-51). None of these options is in the
  modelled option list. MappedSrcs, Description, Labels and SecretEnv are not
  read by `GetTargets` at all.
- Interpolation grammar and subprocess spawning are host code. Both are
  oracles: `Target.interpolate`, the configuration interpolator passed to
  `GetTargets`, and `Target.execOracle`.
- Interpolation is modelled as independent of the target's state: each target
  carries one fixed function (`Target.interpolate`). In the host it is a method
  of the target, so the debug value the pre hook writes into the environment
  could affect later interpolations, such as the post hook's.
- The host's driver, which calls pre, run and post in order, lives in the host
  library and is not part of this model. Only the pre-to-run hand-off through
  `ZEN_DEBUG_CMD` is modelled (`Exec.PreThenRun`).
- Exec.GetTargets: when several entries lack commands, Go's map order decides
  which one the error names. The model promises only that the named entry is
  one of them.
- Closure capture of the loop variable under pre-1.22 Go is not modelled. Each
  registered script's hooks are bound to their own entry.
- Exec.Run: strings are sequences of characters, not UTF-8 bytes. The slice
  agrees with Go's byte slice whenever the first seven characters and the last
  one are single-byte, as in every rendering `DebugLine` produces.
- Exec.Pre: the target's environment is always a map. Writing to a nil
  environment map would panic in Go.
- Target construction by the host, hashing, caching and base64 build labels
  have no code in the modelled file.
