/**
 * The two command lines CompileMojo starts: the CMake configure command of
 * runCMake and the make command of runMake.
 */
module Commands {

  import opened Wrappers
  import opened Text

  /**
   * One entry of the map of CMake cache variables, in the map's iteration
   * order; a null value is None.
   */
  datatype Var = Var(key: string, value: Option<string>)

  /** An entry yields a -D token only when its value is non-null and non-empty. */
  predicate Kept(v: Var)
  {
    v.value.Some? && v.value.value != ""
  }

  /** The cache-variable token of a kept entry. */
  function Define(v: Var): (token: string)
    requires Kept(v)
  {
    "-D" + v.key + "=" + v.value.value
  }

  /** The entries that yield -D tokens, in entry order. */
  function KeptVars(vars: seq<Var>): (kept: seq<Var>)
    ensures forall i :: 0 <= i < |kept| ==> Kept(kept[i])
  {
    if |vars| == 0 then []
    else KeptVars(vars[..|vars| - 1]) + (if Kept(vars[|vars| - 1]) then [vars[|vars| - 1]] else [])
  }

  /** The -D tokens, one per kept entry. */
  function Defines(vars: seq<Var>): (tokens: seq<string>)
  {
    var kept := KeptVars(vars);
    seq(|kept|, i requires 0 <= i < |kept| => Define(kept[i]))
  }

  /** The configure command: cmake, the source path, the -D tokens, the generator. */
  function CMakeCommand(source: string, vars: seq<Var>): (cmd: seq<string>)
  {
    ["cmake", source] + Defines(vars) + ["-G", "Unix Makefiles"]
  }

  /** The compile command; the target is appended only when it is set. */
  function MakeCommand(jobs: nat, target: Option<string>): (cmd: seq<string>)
  {
    ["make", "-j", DecimalString(jobs), "VERBOSE=1"] + (if target.Some? then [target.value] else [])
  }

  /** Filtering the entries distributes over concatenation: entry order is kept. */
  lemma {:induction false} KeptVarsAppend(a: seq<Var>, b: seq<Var>)
    ensures KeptVars(a + b) == KeptVars(a) + KeptVars(b)
  {
    if |b| == 0 {
      assert a + b == a;
    } else {
      var init := b[..|b| - 1];
      assert (a + b)[..|a + b| - 1] == a + init;
      assert b == init + [b[|b| - 1]];
      KeptVarsAppend(a, init);
    }
  }

  /** Every kept entry appears as often as in the map, every other entry never. */
  lemma {:induction false} KeptVarsCount(vars: seq<Var>, v: Var)
    ensures multiset(KeptVars(vars))[v] == if Kept(v) then multiset(vars)[v] else 0
  {
    if |vars| > 0 {
      var init := vars[..|vars| - 1];
      KeptVarsCount(init, v);
      assert vars == init + [vars[|vars| - 1]];
    }
  }

  /** One more entry adds its -D token at the end, if it is kept. */
  lemma DefinesAppendOne(vars: seq<Var>, v: Var)
    ensures Defines(vars + [v]) == Defines(vars) + (if Kept(v) then [Define(v)] else [])
  {
    assert (vars + [v])[..|vars|] == vars;
  }

  /**
   * The token-list loop of runCMake: the command grows one kept -D token at
   * a time in entry order, between the fixed head and the generator pair.
   */
  method BuildCMakeCommand(source: string, vars: seq<Var>) returns (cmd: seq<string>)
    ensures cmd == CMakeCommand(source, vars)
  {
    cmd := ["cmake", source];
    for i := 0 to |vars|
      invariant cmd == ["cmake", source] + Defines(vars[..i])
    {
      assert vars[..i + 1] == vars[..i] + [vars[i]];
      DefinesAppendOne(vars[..i], vars[i]);
      if Kept(vars[i]) {
        cmd := cmd + [Define(vars[i])];
      }
    }
    assert vars[..|vars|] == vars;
    cmd := cmd + ["-G", "Unix Makefiles"];
  }

  /**
   * The shape of the configure command: four fixed tokens around one -D
   * token per kept entry, in entry order.
   */
  lemma CMakeCommandShape(source: string, vars: seq<Var>)
    ensures var cmd := CMakeCommand(source, vars);
      var kept := KeptVars(vars);
      |cmd| == 4 + |kept| &&
      cmd[0] == "cmake" && cmd[1] == source &&
      cmd[|cmd| - 2] == "-G" && cmd[|cmd| - 1] == "Unix Makefiles" &&
      forall i :: 0 <= i < |kept| ==> cmd[2 + i] == Define(kept[i])
  {
  }

  /**
   * The shape of the make command: four fixed tokens, the fifth present
   * exactly when a target is set, and the job count readable from the third.
   */
  lemma MakeCommandShape(jobs: nat, target: Option<string>)
    ensures var cmd := MakeCommand(jobs, target);
      (|cmd| == 5 <==> target.Some?) && (|cmd| == 4 <==> target.None?) &&
      cmd[0] == "make" && cmd[1] == "-j" && cmd[3] == "VERBOSE=1" &&
      (target.Some? ==> cmd[4] == target.value) &&
      IsDigits(cmd[2]) && DecimalValue(cmd[2]) == jobs
  {
    DecimalRoundTrip(jobs);
  }

  /** The logged make line splits back into the command when the target has no space. */
  lemma MakeLogLineRecoverable(jobs: nat, target: Option<string>)
    requires target.Some? ==> ' ' !in target.value
    ensures Split(Join(MakeCommand(jobs, target))) == MakeCommand(jobs, target)
  {
    DecimalHasNoSpace(jobs);
    SplitJoin(MakeCommand(jobs, target));
  }

  /**
   * The logged configure line never splits back into the command: the
   * generator name "Unix Makefiles" holds a space and reads as two fields.
   */
  lemma CMakeLogLineAmbiguous(source: string, vars: seq<Var>)
    ensures Split(Join(CMakeCommand(source, vars))) != CMakeCommand(source, vars)
  {
    var cmd := CMakeCommand(source, vars);
    var init := cmd[..|cmd| - 1];
    assert cmd == init + ["Unix Makefiles"];
    JoinAppend(init, "Unix Makefiles");
    assert Join(cmd) == (Join(init) + " Unix") + " " + "Makefiles";
    SplitConcat(Join(init) + " Unix", "Makefiles");
    SplitWithoutSpace("Makefiles");
    var fields := Split(Join(cmd));
    assert fields[|fields| - 1] == "Makefiles";
  }
}
