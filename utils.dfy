/**
 * internal/utils/exec.go: running an external command and turning how it
 * ended into the text (or lines) and error its callers see.
 *
 * Spawning the process and filling the two capture buffers is the operating
 * system's work; it is a `Runner` parameter here, a function from the
 * command line to how the process ended and what it wrote.
 */
module Utils {
  import opened Wrappers
  import opened GoStrings

  /** A non-nil Go error; `text` is what err.Error() returns. */
  datatype Error = Error(text: string)

  /** A program name and its argument vector. */
  datatype Invocation = Invocation(program: string, args: seq<string>)

  /** How cmd.Run() ended, with everything captured from each stream. */
  datatype Run =
      /** the process exited with status zero */
    | Exited(stdout: string, stderr: string)
      /** the process exited non-zero, or could not be started, with cmd.Run's error */
    | Failed(stdout: string, stderr: string, err: Error)

  type Runner = Invocation -> Run

  /** A Go function's (value, error) result pair; a nil error is None. */
  datatype Outcome<T> = Outcome(value: T, err: Option<Error>)

  /**
   * RunCommand(name, args...). A failed run gives back the captured stderr
   * with cmd.Run's error; a successful one the captured stdout, untrimmed,
   * with a nil error.
   */
  function RunCommand(run: Runner, name: string, args: seq<string>): (r: Outcome<string>)
    ensures r.err.None? <==> run(Invocation(name, args)).Exited?
    ensures run(Invocation(name, args)).Failed? ==>
      r.value == run(Invocation(name, args)).stderr && r.err == Some(run(Invocation(name, args)).err)
    ensures run(Invocation(name, args)).Exited? ==> r.value == run(Invocation(name, args)).stdout
  {
    match run(Invocation(name, args))
    case Failed(_, stderr, err) => Outcome(stderr, Some(err))
    case Exited(stdout, _) => Outcome(stdout, None)
  }

  /**
   * The two streams are captured separately: what RunCommand returns after a
   * success does not depend on what the process wrote to stderr, and after a
   * failure it does not depend on what it wrote to stdout.
   */
  lemma StreamsAreSeparate(run1: Runner, run2: Runner, name: string, args: seq<string>)
    requires var o1, o2 := run1(Invocation(name, args)), run2(Invocation(name, args));
      || (o1.Exited? && o2.Exited? && o1.stdout == o2.stdout)
      || (o1.Failed? && o2.Failed? && o1.stderr == o2.stderr && o1.err == o2.err)
    ensures RunCommand(run1, name, args) == RunCommand(run2, name, args)
  {
  }

  /**
   * RunCommandLines(name, args...). On failure no lines (a nil slice) and
   * RunCommand's error unchanged; on success the trimmed stdout cut at every
   * newline: at least one line, none holding a newline, and joined back with
   * newlines they are the trimmed stdout.
   */
  function RunCommandLines(run: Runner, name: string, args: seq<string>): (r: Outcome<seq<string>>)
    ensures r.err == RunCommand(run, name, args).err
    ensures r.err.Some? ==> r.value == []
    ensures r.err.None? ==>
      && |r.value| >= 1
      && (forall i :: 0 <= i < |r.value| ==> '\n' !in r.value[i])
      && Join(r.value, '\n') == TrimSpace(RunCommand(run, name, args).value)
  {
    var out := RunCommand(run, name, args);
    if out.err.Some? then Outcome([], out.err)
    else
      JoinSplit(TrimSpace(out.value), '\n');
      Outcome(Split(TrimSpace(out.value), '\n'), None)
  }

  /**
   * After a successful run the lines are trimmed as a whole: stdout of white
   * space alone gives the single empty line, and any other stdout gives a
   * first line that is not empty and has no leading white space and a last
   * line that is not empty and has no trailing white space, so there is no
   * empty line at either end.
   */
  lemma LinesAreTrimmed(run: Runner, name: string, args: seq<string>)
    requires run(Invocation(name, args)).Exited?
    ensures var lines, out := RunCommandLines(run, name, args).value, run(Invocation(name, args)).stdout;
      && |lines| >= 1
      && (lines == [""] <==> AllSpace(out))
      && (!AllSpace(out) ==>
            && lines[0] != [] && !IsSpace(lines[0][0])
            && lines[|lines| - 1] != [] && !IsSpace(lines[|lines| - 1][|lines[|lines| - 1]| - 1]))
  {
    TrimmedLines(run(Invocation(name, args)).stdout);
  }

  /** A successful run whose trimmed stdout holds n newlines gives exactly n + 1 lines. */
  lemma LineCount(run: Runner, name: string, args: seq<string>)
    requires run(Invocation(name, args)).Exited?
    ensures |RunCommandLines(run, name, args).value| ==
      Occurrences(TrimSpace(run(Invocation(name, args)).stdout), '\n') + 1
  {
  }
}
