# CMake build goal of the Hadoop Maven plugins, modelled in Dafny

This project models the decision core of the `cmake-compile` goal
(`CompileMojo`) of the Hadoop Maven plugins. The goal builds native sources in
three steps: it runs `cmake` to configure an output directory, then runs
`make`, then runs `make` a second time (a workaround for old CMake
versions). It stops at the first step that fails, and it replays the output
it captured from each process to the Maven log as warnings, by fixed rules.

The model has six modules:

- `Wrappers` (wrappers.dfy): `Option`, which stands for Java's nullable values.
- `Errors` (errors.dfy): the exceptions the goal throws, as an `Error` datatype,
  and `Outcome` (normal return or failure).
- `Text` (text.dfy): how a command is rendered for the log. `Join` is the
  specification and `JoinWithSpaces` is the StringBuilder loop proved against
  it. `Split` reads a line back, and `DecimalString` renders the job count.
- `Commands` (commands.dfy): the `cmake` and `make` token lists. The `cmake`
  list is built by a loop over the cache variables (`BuildCMakeCommand`).
- `Guards` (guards.dfy): the platform check and the source/output path check.
- `Pipeline` (pipeline.dfy): the run outcomes, the replay rules and the log.
  `Configure`, `Compile` and `Build` are the specification functions. The
  methods `RunCMake`, `RunMake` and `Execute` append to a `Log` object in the
  order the source does, and are proved equal to those functions.

Each process run is reduced to what the goal observes of it:

- `LaunchFailed`: starting the process threw, so no output thread exists.
- `Interrupted(stdout, stderr)`: the wait was interrupted, so `retCode` stays -1.
- `Exited(code, stdout, stderr)`: the process ended with that exit code.

The captured lines are inputs. For the configure step, stderr is merged into
stdout, so only `stdout` is read there. The canonical and absolute paths, the
OS name and the processor count are inputs too. A canonical path is `None`
when computing it threw.

The path check is textual. An output path `/a/b` refuses a source
`/a/bc` even though that source is a sibling directory
(`Guards.SourceParamsExamples`). The source says this check is best-effort, and
the model keeps it textual.

The logged configure line can never be split back into its tokens, because the
generator name `Unix Makefiles` contains a space
(`Commands.CMakeLogLineAmbiguous`). The logged make line can be split back
whenever the target has no space (`Commands.MakeLogLineRecoverable`).

`runMake` passes `-j` and the job count as two separate tokens
(CompileMojo.java:205-206), and the model does the same.

## Model

| member | source | states |
|---|---|---|
| Commands.CMakeCommand | hadoop-maven-plugins/src/main/java/org/apache/hadoop/maven/plugin/cmakebuilder/CompileMojo.java:142-149 | the configure token list: "cmake", the absolute source path, one -Dkey=value token per entry with a non-null, non-empty value in entry order, then "-G", "Unix Makefiles" (its shape is stated by `Commands.CMakeCommandShape`) |
| Commands.MakeCommand | hadoop-maven-plugins/src/main/java/org/apache/hadoop/maven/plugin/cmakebuilder/CompileMojo.java:203-210 | the compile token list: "make", "-j", the processor count in decimal, "VERBOSE=1", then the target when it is non-null (its shape is stated by `Commands.MakeCommandShape`) |
| Text.JoinWithSpaces | hadoop-maven-plugins/src/main/java/org/apache/hadoop/maven/plugin/cmakebuilder/CompileMojo.java:152-157 | the StringBuilder loop returns the tokens in order, with nothing before the first token and one space before each later token (`Join`) |
| Text.JoinAppend | hadoop-maven-plugins/src/main/java/org/apache/hadoop/maven/plugin/cmakebuilder/CompileMojo.java:211-216 | appending a token to a non-empty list extends the rendered line by one space and that token |
| Text.SplitJoin | hadoop-maven-plugins/src/main/java/org/apache/hadoop/maven/plugin/cmakebuilder/CompileMojo.java:152-157 | splitting the rendered line at single spaces gives the tokens back whenever no token contains a space: exactly one space between neighbours, none at either end |
| Text.DecimalString | hadoop-maven-plugins/src/main/java/org/apache/hadoop/maven/plugin/cmakebuilder/CompileMojo.java:206 | the rendered job count is at least one digit, digits only, and starts with 0 only for the count 0 |
| Text.DecimalRoundTrip | hadoop-maven-plugins/src/main/java/org/apache/hadoop/maven/plugin/cmakebuilder/CompileMojo.java:206 | reading the rendered job count back as decimal gives the count |
| Commands.KeptVars | hadoop-maven-plugins/src/main/java/org/apache/hadoop/maven/plugin/cmakebuilder/CompileMojo.java:145-149 | every entry that yields a -D token has a non-null, non-empty value |
| Commands.KeptVarsAppend | hadoop-maven-plugins/src/main/java/org/apache/hadoop/maven/plugin/cmakebuilder/CompileMojo.java:145-149 | filtering the entries commutes with concatenation, so the -D tokens follow entry order |
| Commands.KeptVarsCount | hadoop-maven-plugins/src/main/java/org/apache/hadoop/maven/plugin/cmakebuilder/CompileMojo.java:145-149 | a kept entry is kept as many times as it occurs, and an entry with a null or empty value never is |
| Commands.BuildCMakeCommand | hadoop-maven-plugins/src/main/java/org/apache/hadoop/maven/plugin/cmakebuilder/CompileMojo.java:142-151 | the list the loop builds is "cmake", the source path, one -D token per kept entry in entry order, then "-G", "Unix Makefiles" |
| Commands.CMakeCommandShape | hadoop-maven-plugins/src/main/java/org/apache/hadoop/maven/plugin/cmakebuilder/CompileMojo.java:142-151 | the cmake list has 4 + (number of kept entries) tokens: it starts with "cmake" and the source path, ends with "-G", "Unix Makefiles", and has -Dk=v for the i-th kept entry at position 2 + i |
| Commands.MakeCommandShape | hadoop-maven-plugins/src/main/java/org/apache/hadoop/maven/plugin/cmakebuilder/CompileMojo.java:203-210 | the make list is "make", "-j", the count, "VERBOSE=1", plus a fifth token (the target) exactly when a target is set; the third token reads back as the count |
| Commands.MakeLogLineRecoverable | hadoop-maven-plugins/src/main/java/org/apache/hadoop/maven/plugin/cmakebuilder/CompileMojo.java:211-217 | the logged make line splits back into the make list when the target has no space |
| Commands.CMakeLogLineAmbiguous | hadoop-maven-plugins/src/main/java/org/apache/hadoop/maven/plugin/cmakebuilder/CompileMojo.java:150-158 | the logged cmake line never splits back into the cmake list |
| Guards.ValidatePlatform | hadoop-maven-plugins/src/main/java/org/apache/hadoop/maven/plugin/cmakebuilder/CompileMojo.java:85-91 | the only result besides success is UnsupportedPlatform, and it is the result exactly when the first seven characters of the OS name lower-case to "windows" |
| Guards.ValidateSourceParams | hadoop-maven-plugins/src/main/java/org/apache/hadoop/maven/plugin/cmakebuilder/CompileMojo.java:108-132 | an unresolved output path fails with OutputPathUnresolved whatever the source; a resolved output and unresolved source fail with SourcePathUnresolved; a pass implies both paths resolved and different; every failure is one of the three path errors |
| Guards.PlatformRefusedIff | hadoop-maven-plugins/src/main/java/org/apache/hadoop/maven/plugin/cmakebuilder/CompileMojo.java:86-92 | the platform is refused exactly when the OS name starts with "windows" in any mix of ASCII letter case, and the error is UnsupportedPlatform |
| Guards.PlatformIgnoresCase | hadoop-maven-plugins/src/main/java/org/apache/hadoop/maven/plugin/cmakebuilder/CompileMojo.java:87-88 | lower-casing the OS name first does not change the verdict |
| Guards.PlatformExamples | hadoop-maven-plugins/src/main/java/org/apache/hadoop/maven/plugin/cmakebuilder/CompileMojo.java:86-92 | "Windows 10" and "WINDOWS XP" are refused; "Linux", "Mac OS X" and "Darwin" are admitted |
| Guards.SourceInsideOutputIff | hadoop-maven-plugins/src/main/java/org/apache/hadoop/maven/plugin/cmakebuilder/CompileMojo.java:110-133 | with both canonical paths known, the check fails exactly when the source path is the output path followed by any text, and passes otherwise |
| Guards.SourceParamsExamples | hadoop-maven-plugins/src/main/java/org/apache/hadoop/maven/plugin/cmakebuilder/CompileMojo.java:112-132 | /a/b with output /a, equal paths, and /a/bc with output /a/b are refused; /a/b with output /c, and /a with output /a/b, pass; an unresolved output path is reported before an unresolved source path |
| Pipeline.Configure | hadoop-maven-plugins/src/main/java/org/apache/hadoop/maven/plugin/cmakebuilder/CompileMojo.java:134-200 | runCMake: succeeds exactly when both checks pass and CMake exits with 0; logs nothing when a check fails, and otherwise starts its log with the cmake line |
| Pipeline.Compile | hadoop-maven-plugins/src/main/java/org/apache/hadoop/maven/plugin/cmakebuilder/CompileMojo.java:202-267 | runMake: succeeds exactly when make exits with 0, and starts its log with the make line |
| Pipeline.Build | hadoop-maven-plugins/src/main/java/org/apache/hadoop/maven/plugin/cmakebuilder/CompileMojo.java:93-105 | execute: the goal succeeds exactly when both checks pass and all three runs exit with 0 |
| Pipeline.Replay | hadoop-maven-plugins/src/main/java/org/apache/hadoop/maven/plugin/cmakebuilder/CompileMojo.java:193-197 | the replay loop appends one warning per captured line, in order, and changes nothing else in the log |
| Pipeline.RunCMake | hadoop-maven-plugins/src/main/java/org/apache/hadoop/maven/plugin/cmakebuilder/CompileMojo.java:135-200 | after both checks, logs the cmake line, then replays the merged output only if the process started and retCode is not 0; the result is what the step throws (`Configure`) |
| Pipeline.RunMake | hadoop-maven-plugins/src/main/java/org/apache/hadoop/maven/plugin/cmakebuilder/CompileMojo.java:202-267 | logs the make line, then, if the process started, replays stdout when retCode is not 0 and stderr always, stdout first (`Compile`) |
| Pipeline.RunMakes | hadoop-maven-plugins/src/main/java/org/apache/hadoop/maven/plugin/cmakebuilder/CompileMojo.java:98-104 | the two make runs: the second runs only after the first succeeded, and the success message is logged only after both succeeded |
| Pipeline.Execute | hadoop-maven-plugins/src/main/java/org/apache/hadoop/maven/plugin/cmakebuilder/CompileMojo.java:94-105 | the goal's result and the lines it appends to the log are those of `Build`: platform check, configure, make, make, each only after all before it succeeded |
| Pipeline.FailedCheckRunsNothing | hadoop-maven-plugins/src/main/java/org/apache/hadoop/maven/plugin/cmakebuilder/CompileMojo.java:135-137 | a failed platform or path check starts no process, logs nothing, and is the error the goal throws |
| Pipeline.ConfigureFailureStops | hadoop-maven-plugins/src/main/java/org/apache/hadoop/maven/plugin/cmakebuilder/CompileMojo.java:166-199 | a configure that fails (including an interrupted wait, where retCode stays -1) fails the goal; make never runs, and the report does not depend on the make runs; the log is the cmake line followed by every captured line once, in order, or by nothing when the launch failed |
| Pipeline.FirstCompileFailureStops | hadoop-maven-plugins/src/main/java/org/apache/hadoop/maven/plugin/cmakebuilder/CompileMojo.java:229-262 | after a successful configure, which replays nothing, a failing first make fails the goal; the second make never runs; the log holds the failing make's stdout and then its stderr, or nothing when its launch failed |
| Pipeline.SecondCompileFailure | hadoop-maven-plugins/src/main/java/org/apache/hadoop/maven/plugin/cmakebuilder/CompileMojo.java:238-262 | a failing second make fails the goal without the success message; the first make's stderr is still replayed, then the second make's stdout and stderr |
| Pipeline.FullSuccess | hadoop-maven-plugins/src/main/java/org/apache/hadoop/maven/plugin/cmakebuilder/CompileMojo.java:94-105 | when all three runs exit with 0, the goal succeeds; the log is cmake line, make line, first make's stderr, make line, second make's stderr, success message |
| Pipeline.SuccessMessageIff | hadoop-maven-plugins/src/main/java/org/apache/hadoop/maven/plugin/cmakebuilder/CompileMojo.java:93-105 | the success message is logged exactly when the goal succeeds, and then it is the last line of the log |

## Left out

- Process execution (`ProcessBuilder.start`, `waitFor`, `destroy`): an operating-system effect. Each run is an input `RunOutcome`, so the guarantee that no child process is left running is not modelled.
- The output-draining threads (`OutputBufferThread`, `interrupt`, `join`): concurrency. The captured lines are given as sequences, and the "Interrupted while joining" error log lines are not modelled. `Exec.OutputBufferThread` is not part of this model.
- The info line "with extra environment variables ...", and applying the environment to the process: `Exec.envToString` and `Exec.addEnvironment` are not part of this model. The environment map is never passed to make.
- `getCanonicalPath`, `getAbsolutePath` and `mkdirs`, with its "mkdirs" info line: file-system effects. Their results are inputs.
- The elapsed time in the success message: a clock read. `Finished` stands for the message.
- The exception messages: each exception is an `Error` constructor.
- The NullPointerException when no cache variables are configured: the map is modelled as a possibly empty sequence of entries, in its iteration order.
- `availableProcessors` as static state: it is the `jobs` parameter, a natural number.
- Guards.ValidatePlatform: lower-cases ASCII letters only; Java's `toLowerCase(Locale.ENGLISH)` also lower-cases other letters, which the model leaves unchanged.
