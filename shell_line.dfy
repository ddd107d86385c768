/** The string manipulations behind one shell invocation: joining a phase's
    commands into one line, rendering that line as a quoted `sh -c '...'`
    debug string, and cutting the line back out of that rendering. */
module ShellLine {

  /** The operator that chains a phase's commands so that the first failing one stops the rest. */
  const AndSeparator: string := " && "

  /** What precedes the command line in its debug rendering. */
  const DebugPrefix: string := "sh -c '"

  /** `strings.Join`: the parts in order, with `sep` between neighbours and nowhere else. */
  function Join(parts: seq<string>, sep: string): (r: string)
    ensures parts == [] ==> r == ""
    ensures |parts| == 1 ==> r == parts[0]
  {
    if parts == [] then ""
    else if |parts| == 1 then parts[0]
    else parts[0] + sep + Join(parts[1..], sep)
  }

  /** Joining two non-empty runs of parts is joining each run and putting one separator
      between them: the parts keep their order and no separator is lost or added. */
  lemma {:induction false} JoinAppend(a: seq<string>, b: seq<string>, sep: string)
    requires a != [] && b != []
    ensures Join(a + b, sep) == Join(a, sep) + sep + Join(b, sep)
  {
    if |a| == 1 {
      assert a + b == [a[0]] + b;
      assert (a + b)[1..] == b;
    } else {
      assert (a + b)[1..] == a[1..] + b;
      JoinAppend(a[1..], b, sep);
    }
  }

  /** The debug rendering `sh -c '<line>'` of a command line. */
  function DebugLine(line: string): (r: string)
    ensures |r| == |line| + 8
    ensures r[..7] == DebugPrefix && r[|r| - 1] == '\''
  {
    DebugPrefix + line + "'"
  }

  /** A string starts with the debug prefix and ends with the closing quote. */
  predicate IsDebugLine(s: string)
  {
    |s| >= 8 && s[..7] == DebugPrefix && s[|s| - 1] == '\''
  }

  /** The slice `s[7 : len(s)-1]`: what lies between the first seven characters and the last one. */
  function Unwrap(s: string): (r: string)
    requires |s| >= 8
    ensures |r| == |s| - 8
    ensures s == s[..7] + r + [s[|s| - 1]]
  {
    s[7..|s| - 1]
  }

  /** Cutting the rendering of a line gives back that line, whatever it contains
      (quotes included): the slice is positional, not a shell parse. */
  lemma UnwrapDebugLine(line: string)
    ensures Unwrap(DebugLine(line)) == line
  {
  }

  /** Conversely, a string shaped like a rendering is the rendering of what the slice cuts out;
      so `Unwrap` inverts `DebugLine` exactly on the strings `IsDebugLine` accepts. */
  lemma DebugLineUnwrap(s: string)
    requires IsDebugLine(s)
    ensures DebugLine(Unwrap(s)) == s
  {
  }
}
