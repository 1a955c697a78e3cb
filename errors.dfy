/** How the program ends on an error: a line on standard error and exit status 1. */
module Errors {
  import opened Wrappers
  import opened Numerals

  /** The end of the process: its exit status and what it wrote to standard error. */
  datatype Exit = Exit(status: int, stderr: string)

  /** `_error(msg)`: writes `Error: <msg>` and a newline, then exits with status 1. */
  function ErrorExit(msg: string): (e: Exit)
    ensures e.status == 1
    ensures |e.stderr| == |msg| + 8 && e.stderr[..7] == "Error: " && e.stderr[|e.stderr| - 1] == '\n'
    ensures e.stderr[7..|e.stderr| - 1] == msg
  {
    Exit(1, "Error: " + msg + "\n")
  }

  /** The diagnostic for an external tool that returned a non-zero `code`. */
  function ToolFailed(tool: string, code: int): (e: Exit)
    ensures e.status == 1
    ensures |e.stderr| == |tool| + |IntToString(code)| + 18 && e.stderr[|e.stderr| - 1] == '\n'
  {
    ErrorExit(tool + " returned " + IntToString(code))
  }

  /**
   * A failing tool ends the process with status 1 and the line
   * `Error: <tool> returned <code>`, from which the exit code reads back.
   */
  lemma {:induction false} ToolFailedReportsCode(tool: string, code: int)
    ensures var e := ToolFailed(tool, code);
            var p := |"Error: " + tool + " returned "|;
            e.status == 1 && p < |e.stderr| && e.stderr[..p] == "Error: " + tool + " returned " &&
            ParseInt(e.stderr[p..|e.stderr| - 1]) == Some(code)
  {
    var d := IntToString(code);
    var prefix := "Error: " + tool + " returned ";
    var line := ToolFailed(tool, code).stderr;
    assert line == prefix + d + "\n";
    assert line[|prefix|..|line| - 1] == d;
    ParseIntToString(code);
  }
}
