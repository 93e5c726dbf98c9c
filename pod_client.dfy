/**
 * The default `executeAndWait` of the pod client: the shell script piped into a container
 * and the decision taken once the exec listener stops waiting.
 */
module PodClient {
  import opened Wrappers
  import opened Text

  const EXIT_LINE: string := "exit 0\n"
  const TIMEOUT_MESSAGE: string := "Command did not meet the wait condition within 20 seconds: "

  /** How the wait on the exec listener ended. */
  datatype WaitOutcome = Completed(failed: bool) | Interrupted

  /** Why `executeAndWait` gave up. */
  datatype ExecError = ConditionNotMet(message: string) | WaitInterrupted

  /** The script: every command on its own line, then a line that exits with status 0. */
  function Script(commands: seq<string>): (r: string)
    ensures |r| >= |EXIT_LINE| && r[|r| - |EXIT_LINE|..] == EXIT_LINE
  {
    Lines(commands) + EXIT_LINE
  }

  /** Builds the script line by line, as the string builder does. */
  method BuildScript(commands: seq<string>) returns (script: string)
    ensures script == Script(commands)
  {
    var sb := "";
    var i := 0;
    while i < |commands|
      invariant 0 <= i <= |commands|
      invariant sb == Lines(commands[..i])
    {
      assert commands[..i + 1] == commands[..i] + [commands[i]];
      LinesSnoc(commands[..i], commands[i]);
      sb := sb + commands[i];
      sb := sb + "\n";
      i := i + 1;
    }
    assert commands[..i] == commands;
    script := sb + EXIT_LINE;
  }

  /**
   * The decision after the wait: a failed listener or an interrupted wait is an error, the
   * former quoting the whole script; otherwise the exec handle is returned.
   */
  function AfterWait<W>(outcome: WaitOutcome, exec: W, script: string): (r: Result<W, ExecError>)
    ensures r.Success? <==> outcome == Completed(false)
    ensures r.Success? ==> r.value == exec
    ensures outcome == Completed(true) ==> r == Failure(ConditionNotMet(TIMEOUT_MESSAGE + script))
    ensures outcome == Interrupted ==> r == Failure(WaitInterrupted)
  {
    match outcome
    case Interrupted => Failure(WaitInterrupted)
    case Completed(failed) => if failed then Failure(ConditionNotMet(TIMEOUT_MESSAGE + script)) else Success(exec)
  }

  /**
   * Runs `commands` in a container through `exec`; the container session itself and the
   * polling of the listener are outside this model, so the handle and the outcome of the
   * wait come in as parameters.
   */
  method ExecuteAndWait<W>(commands: seq<string>, exec: W, outcome: WaitOutcome)
    returns (r: Result<W, ExecError>, input: string)
    ensures input == Script(commands)
    ensures r == AfterWait(outcome, exec, Script(commands))
  {
    input := BuildScript(commands);
    r := AfterWait(outcome, exec, input);
  }

  /** The script is one byte longer than each command, plus the exit line. */
  lemma ScriptLength(commands: seq<string>)
    ensures |Script(commands)| == TerminatedLength(commands) + 7
  {
    LinesLength(commands);
  }

  /** With no command the container only receives the exit line. */
  lemma ScriptOfEmpty()
    ensures Script([]) == "exit 0\n"
  {
  }

  /**
   * Reading the script back line by line gives the commands, in order, then the exit
   * command and the empty rest after the final newline, provided no command spans lines.
   */
  lemma ScriptLines(commands: seq<string>)
    requires NoneContains(commands, '\n')
    ensures Split(Script(commands), '\n') == commands + ["exit 0", ""]
  {
    LinesSnoc(commands, "exit 0");
    assert Script(commands) == Lines(commands + ["exit 0"]) + "";
    LinesJoin(commands + ["exit 0"], "");
    assert commands + ["exit 0"] + [""] == commands + ["exit 0", ""];
    assert NoneContains(commands + ["exit 0", ""], '\n') by {
      forall i | 0 <= i < |commands + ["exit 0", ""]|
        ensures '\n' !in (commands + ["exit 0", ""])[i]
      {
        if i < |commands| {
          assert (commands + ["exit 0", ""])[i] == commands[i];
        }
      }
    }
    SplitJoin(commands + ["exit 0", ""], '\n');
  }
}
