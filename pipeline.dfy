/**
 * The build goal of CompileMojo: configure with CMake, then make twice,
 * stopping at the first step that fails, and replaying captured process
 * output to the log as warnings by fixed rules.
 *
 * A process run is abstracted into what the goal observes of it; the
 * output threads' captured lines are given, not computed.
 */
module Pipeline {

  import opened Wrappers
  import opened Errors
  import opened Text
  import opened Commands
  import opened Guards

  /**
   * What one process run yields to the goal. LaunchFailed: starting the
   * process threw, so no output thread exists. Interrupted: the wait was
   * interrupted after the output threads started. Exited: the process
   * ended with the code. For the configure step stderr is merged into
   * stdout, so only `stdout` is read there.
   */
  datatype RunOutcome =
    | LaunchFailed
    | Interrupted(stdout: seq<string>, stderr: seq<string>)
    | Exited(code: int, stdout: seq<string>, stderr: seq<string>)

  /** retCode as the finally block sees it: -1 unless the wait returned. */
  function ReturnCode(o: RunOutcome): (code: int)
  {
    if o.Exited? then o.code else -1
  }

  /** What a step throws, or Success. */
  function StepResult(tool: Tool, o: RunOutcome): (r: Outcome)
  {
    match o
    case LaunchFailed => Failure(CannotExecute(tool))
    case Interrupted(_, _) => Failure(WaitInterrupted(tool))
    case Exited(code, _, _) => if code != 0 then Failure(NonZeroExit(tool, code)) else Success
  }

  /** Lines runCMake replays: the merged output, when the thread exists and retCode is not 0. */
  function ConfigureReplay(o: RunOutcome): (lines: seq<string>)
  {
    if o.LaunchFailed? || ReturnCode(o) == 0 then [] else o.stdout
  }

  /** Lines runMake replays: stdout when retCode is not 0, then stderr always, when the threads exist. */
  function MakeReplay(o: RunOutcome): (lines: seq<string>)
  {
    if o.LaunchFailed? then [] else (if ReturnCode(o) != 0 then o.stdout else []) + o.stderr
  }

  /**
   * A line of the goal's log. Running(c) is the info line "Running c";
   * Warn(l) a replayed output line; Finished the success message (its
   * elapsed time is not modelled).
   */
  datatype LogEntry = Running(command: string) | Warn(line: string) | Finished

  /** The warning entries replaying the lines, in order. */
  function WarnAll(lines: seq<string>): (entries: seq<LogEntry>)
  {
    seq(|lines|, i requires 0 <= i < |lines| => Warn(lines[i]))
  }

  lemma WarnAllAppend(a: seq<string>, b: seq<string>)
    ensures WarnAll(a + b) == WarnAll(a) + WarnAll(b)
  {
  }

  /** The goal's inputs; paths are the strings the file system calls return. */
  datatype Params = Params(
    osName: string,
    canonicalSource: Option<string>,
    canonicalOutput: Option<string>,
    sourcePath: string,
    vars: seq<Var>,
    jobs: nat,
    target: Option<string>)

  /** What a step, or the whole goal, returns and the log lines it writes. */
  datatype Report = Report(outcome: Outcome, log: seq<LogEntry>)

  /** The configure command line and the make command line as logged. */
  function CMakeLine(p: Params): (line: string) { Join(CMakeCommand(p.sourcePath, p.vars)) }
  function MakeLine(p: Params): (line: string) { Join(MakeCommand(p.jobs, p.target)) }

  /** Both checks of runCMake pass. */
  predicate ChecksPass(p: Params)
  {
    ValidatePlatform(p.osName).Success? && ValidateSourceParams(p.canonicalSource, p.canonicalOutput).Success?
  }

  /**
   * runCMake: both checks, then one CMake run. It succeeds exactly when
   * both checks pass and CMake exits with 0; it logs nothing when a check
   * fails, otherwise the command line first, and never the success message.
   */
  function Configure(p: Params, o: RunOutcome): (r: Report)
    ensures r.outcome.Success? <==> ChecksPass(p) && o.Exited? && o.code == 0
    ensures r.log == [] <==> !ChecksPass(p)
    ensures ChecksPass(p) ==> r.log[0] == Running(CMakeLine(p))
  {
    var platform := ValidatePlatform(p.osName);
    var paths := ValidateSourceParams(p.canonicalSource, p.canonicalOutput);
    if platform.Failure? then Report(platform, [])
    else if paths.Failure? then Report(paths, [])
    else Report(StepResult(CMake, o), [Running(CMakeLine(p))] + WarnAll(ConfigureReplay(o)))
  }

  /**
   * runMake: one make run. It succeeds exactly when make exits with 0; it
   * logs the command line first, and never the success message.
   */
  function Compile(p: Params, o: RunOutcome): (r: Report)
    ensures r.outcome.Success? <==> o.Exited? && o.code == 0
    ensures |r.log| >= 1 && r.log[0] == Running(MakeLine(p))
  {
    Report(StepResult(Make, o), [Running(MakeLine(p))] + WarnAll(MakeReplay(o)))
  }

  /** A step followed by the rest: the rest runs only when the step succeeded. */
  function Then(step: Report, rest: Report): (r: Report)
  {
    if step.outcome.Failure? then step else Report(rest.outcome, step.log + rest.log)
  }

  /** The success message, logged once every step has returned. */
  const Done := Report(Success, [Finished])

  /**
   * execute: the platform check, then configure, make, make, each only if
   * all before it succeeded. The goal succeeds exactly when its log ends
   * with the success message, and a failed goal never logs it.
   */
  function Build(p: Params, configure: RunOutcome, compile1: RunOutcome, compile2: RunOutcome): (r: Report)
    ensures r.outcome.Success? <==>
      ChecksPass(p) &&
      configure.Exited? && configure.code == 0 &&
      compile1.Exited? && compile1.code == 0 &&
      compile2.Exited? && compile2.code == 0
  {
    var platform := ValidatePlatform(p.osName);
    if platform.Failure? then Report(platform, [])
    else Then(Configure(p, configure), Then(Compile(p, compile1), Then(Compile(p, compile2), Done)))
  }

  // ---------------------------------------------------------------------
  // Properties of the goal

  /** A failed check runs nothing, logs nothing and is what the goal throws. */
  lemma FailedCheckRunsNothing(p: Params, configure: RunOutcome, compile1: RunOutcome, compile2: RunOutcome)
    requires !ChecksPass(p)
    ensures var r := Build(p, configure, compile1, compile2);
      r.log == [] &&
      r.outcome == (if ValidatePlatform(p.osName).Failure? then Failure(UnsupportedPlatform)
                    else ValidateSourceParams(p.canonicalSource, p.canonicalOutput))
  {
  }

  /**
   * A failed configure stops the goal: make never runs (the report does
   * not depend on the make runs), and the log is the configure command
   * followed by every line CMake wrote, once and in order, unless it never
   * started. An interrupted wait counts as a failure.
   */
  lemma ConfigureFailureStops(p: Params, configure: RunOutcome,
                              compile1: RunOutcome, compile2: RunOutcome,
                              other1: RunOutcome, other2: RunOutcome)
    requires ChecksPass(p)
    requires !(configure.Exited? && configure.code == 0)
    ensures var r := Build(p, configure, compile1, compile2);
      r.outcome.Failure? && r.outcome == StepResult(CMake, configure) &&
      r.log == [Running(CMakeLine(p))] + WarnAll(if configure.LaunchFailed? then [] else configure.stdout) &&
      r == Build(p, configure, other1, other2)
  {
  }

  /**
   * After a successful configure, a failed first make stops the goal: the
   * second make never runs, configure replays nothing, and the failing
   * make replays its stdout and then its stderr, unless it never started.
   */
  lemma FirstCompileFailureStops(p: Params, configure: RunOutcome,
                                 compile1: RunOutcome, compile2: RunOutcome, other2: RunOutcome)
    requires ChecksPass(p)
    requires configure.Exited? && configure.code == 0
    requires !(compile1.Exited? && compile1.code == 0)
    ensures var r := Build(p, configure, compile1, compile2);
      r.outcome.Failure? && r.outcome == StepResult(Make, compile1) &&
      r.log == [Running(CMakeLine(p)), Running(MakeLine(p))] +
               WarnAll(if compile1.LaunchFailed? then [] else compile1.stdout + compile1.stderr) &&
      r == Build(p, configure, compile1, other2)
  {
    var m1 := Compile(p, compile1);
    assert Configure(p, configure).log == [Running(CMakeLine(p))] by {
      assert WarnAll([]) == [];
    }
    assert Build(p, configure, compile1, compile2) == Report(m1.outcome, [Running(CMakeLine(p))] + m1.log);
  }

  /**
   * After a successful configure and first make, a failed second make
   * fails the goal without the success message; the first make's stderr
   * is replayed, and the failing one's stdout before its stderr.
   */
  lemma SecondCompileFailure(p: Params, configure: RunOutcome, compile1: RunOutcome, compile2: RunOutcome)
    requires ChecksPass(p)
    requires configure.Exited? && configure.code == 0
    requires compile1.Exited? && compile1.code == 0
    requires !(compile2.Exited? && compile2.code == 0)
    ensures var r := Build(p, configure, compile1, compile2);
      r.outcome.Failure? && r.outcome == StepResult(Make, compile2) &&
      r.log == [Running(CMakeLine(p)), Running(MakeLine(p))] + WarnAll(compile1.stderr) +
               [Running(MakeLine(p))] + WarnAll(if compile2.LaunchFailed? then [] else compile2.stdout + compile2.stderr)
  {
    var c := [Running(CMakeLine(p))];
    var m1 := [Running(MakeLine(p))] + WarnAll(compile1.stderr);
    var m2 := Compile(p, compile2);
    assert m2.log == [Running(MakeLine(p))] +
                     WarnAll(if compile2.LaunchFailed? then [] else compile2.stdout + compile2.stderr) by {
      assert MakeReplay(compile2) == if compile2.LaunchFailed? then [] else compile2.stdout + compile2.stderr;
    }
    assert Configure(p, configure) == Report(Success, c) by {
      assert WarnAll([]) == [];
    }
    assert Compile(p, compile1) == Report(Success, m1) by {
      assert MakeReplay(compile1) == compile1.stderr;
    }
    assert Then(m2, Done) == m2;
    assert Then(Compile(p, compile1), m2) == Report(m2.outcome, m1 + m2.log);
    assert Build(p, configure, compile1, compile2) == Report(m2.outcome, c + (m1 + m2.log));
    assert c + (m1 + m2.log) == c + m1 + m2.log;
  }

  /**
   * When all three runs exit with 0 the goal succeeds: it runs configure,
   * make, make, replays the stderr of both makes (compiler warnings) and
   * nothing else, and ends with the success message.
   */
  lemma FullSuccess(p: Params, configure: RunOutcome, compile1: RunOutcome, compile2: RunOutcome)
    requires ChecksPass(p)
    requires configure.Exited? && configure.code == 0
    requires compile1.Exited? && compile1.code == 0
    requires compile2.Exited? && compile2.code == 0
    ensures var r := Build(p, configure, compile1, compile2);
      r.outcome == Success &&
      r.log == [Running(CMakeLine(p)), Running(MakeLine(p))] + WarnAll(compile1.stderr) +
               [Running(MakeLine(p))] + WarnAll(compile2.stderr) + [Finished]
  {
    var c := [Running(CMakeLine(p))];
    var m1 := [Running(MakeLine(p))] + WarnAll(compile1.stderr);
    var m2 := [Running(MakeLine(p))] + WarnAll(compile2.stderr);
    assert Configure(p, configure).log == c by {
      assert WarnAll([]) == [];
    }
    assert Compile(p, compile1).log == m1 by {
      assert MakeReplay(compile1) == compile1.stderr;
    }
    assert Compile(p, compile2).log == m2 by {
      assert MakeReplay(compile2) == compile2.stderr;
    }
    assert Build(p, configure, compile1, compile2) == Report(Success, c + (m1 + (m2 + [Finished])));
    assert c + (m1 + (m2 + [Finished])) == c + m1 + m2 + [Finished];
  }

  /**
   * The success message is logged exactly when the goal succeeds, and
   * then it is the last line of the log.
   */
  lemma SuccessMessageIff(p: Params, configure: RunOutcome, compile1: RunOutcome, compile2: RunOutcome)
    ensures var r := Build(p, configure, compile1, compile2);
      (Finished in r.log <==> r.outcome == Success) &&
      (r.outcome == Success ==> r.log[|r.log| - 1] == Finished)
  {
  }

  // ---------------------------------------------------------------------
  // The goal as it runs, writing to its log

  /** The goal's log, to which lines are only ever appended. */
  class Log {
    var entries: seq<LogEntry>

    constructor ()
      ensures entries == []
    {
      entries := [];
    }

    method Add(e: LogEntry)
      modifies this
      ensures entries == old(entries) + [e]
    {
      entries := entries + [e];
    }
  }

  /** The replay loop of a finally block: one warning per line, in order. */
  method Replay(log: Log, lines: seq<string>)
    modifies log
    ensures log.entries == old(log.entries) + WarnAll(lines)
  {
    for i := 0 to |lines|
      invariant log.entries == old(log.entries) + WarnAll(lines[..i])
    {
      assert WarnAll(lines[..i + 1]) == WarnAll(lines[..i]) + [Warn(lines[i])];
      log.Add(Warn(lines[i]));
    }
    assert lines[..|lines|] == lines;
  }

  method RunCMake(log: Log, p: Params, o: RunOutcome) returns (r: Outcome)
    modifies log
    ensures r == Configure(p, o).outcome
    ensures log.entries == old(log.entries) + Configure(p, o).log
  {
    r := ValidatePlatform(p.osName);
    if r.Failure? {
      return;
    }
    r := ValidateSourceParams(p.canonicalSource, p.canonicalOutput);
    if r.Failure? {
      return;
    }
    var cmd := BuildCMakeCommand(p.sourcePath, p.vars);
    var line := JoinWithSpaces(cmd);
    log.Add(Running(line));
    var retCode := -1;
    match o {
      case LaunchFailed =>
        r := Failure(CannotExecute(CMake));
      case Interrupted(_, _) =>
        r := Failure(WaitInterrupted(CMake));
      case Exited(code, _, _) =>
        retCode := code;
        r := if retCode != 0 then Failure(NonZeroExit(CMake, retCode)) else Success;
    }
    // finally: the output thread exists once the process started
    if !o.LaunchFailed? {
      if retCode != 0 {
        Replay(log, o.stdout);
      }
    }
  }

  method RunMake(log: Log, p: Params, o: RunOutcome) returns (r: Outcome)
    modifies log
    ensures r == Compile(p, o).outcome
    ensures log.entries == old(log.entries) + Compile(p, o).log
  {
    ghost var start := log.entries;
    var cmd := MakeCommand(p.jobs, p.target);
    var line := JoinWithSpaces(cmd);
    log.Add(Running(line));
    var retCode := -1;
    match o {
      case LaunchFailed =>
        r := Failure(CannotExecute(Make));
      case Interrupted(_, _) =>
        r := Failure(WaitInterrupted(Make));
      case Exited(code, _, _) =>
        retCode := code;
        r := if retCode != 0 then Failure(NonZeroExit(Make, retCode)) else Success;
    }
    // finally: the output threads exist once the process started
    assert r == StepResult(Make, o);
    if !o.LaunchFailed? {
      ghost var replayed := if retCode != 0 then o.stdout else [];
      if retCode != 0 {
        Replay(log, o.stdout);
      }
      assert log.entries == start + [Running(line)] + WarnAll(replayed);
      Replay(log, o.stderr);
      WarnAllAppend(replayed, o.stderr);
      assert log.entries == start + ([Running(line)] + WarnAll(replayed + o.stderr));
    }
  }

  /** The two make runs of execute and the success message after them. */
  method RunMakes(log: Log, p: Params, compile1: RunOutcome, compile2: RunOutcome) returns (r: Outcome)
    modifies log
    ensures r == Then(Compile(p, compile1), Then(Compile(p, compile2), Done)).outcome
    ensures log.entries == old(log.entries) + Then(Compile(p, compile1), Then(Compile(p, compile2), Done)).log
  {
    ghost var start := log.entries;
    ghost var first, second := Compile(p, compile1), Compile(p, compile2);
    r := RunMake(log, p, compile1);
    if r.Failure? {
      return;
    }
    // the second make works around a dependency quirk of old CMake versions
    r := RunMake(log, p, compile2);
    assert log.entries == start + (first.log + second.log);
    if r.Failure? {
      return;
    }
    log.Add(Finished);
    assert log.entries == start + (first.log + (second.log + [Finished]));
  }

  method Execute(log: Log, p: Params, configure: RunOutcome, compile1: RunOutcome, compile2: RunOutcome)
    returns (r: Outcome)
    modifies log
    ensures r == Build(p, configure, compile1, compile2).outcome
    ensures log.entries == old(log.entries) + Build(p, configure, compile1, compile2).log
  {
    r := ValidatePlatform(p.osName);
    if r.Failure? {
      return;
    }
    ghost var start := log.entries;
    ghost var c := Configure(p, configure);
    ghost var rest := Then(Compile(p, compile1), Then(Compile(p, compile2), Done));
    assert Build(p, configure, compile1, compile2) == Then(c, rest);
    r := RunCMake(log, p, configure);
    if r.Failure? {
      return;
    }
    r := RunMakes(log, p, compile1, compile2);
    assert log.entries == start + c.log + rest.log;
    assert start + c.log + rest.log == start + (c.log + rest.log);
  }
}
