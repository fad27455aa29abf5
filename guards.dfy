/**
 * The two checks CompileMojo makes before it starts CMake: the platform
 * check of validatePlatform and the path check of validateSourceParams.
 */
module Guards {

  import opened Wrappers
  import opened Errors

  /** Lower-casing of one character, restricted to ASCII letters. */
  function LowerChar(c: char): (l: char)
  {
    if 'A' <= c <= 'Z' then (c as int - 'A' as int + 'a' as int) as char else c
  }

  function Lower(s: string): (r: string)
    ensures |r| == |s|
  {
    seq(|s|, i requires 0 <= i < |s| => LowerChar(s[i]))
  }

  /** Java's String.startsWith. */
  predicate StartsWith(s: string, prefix: string)
  {
    |prefix| <= |s| && s[..|prefix|] == prefix
  }

  /**
   * The build is refused when the lower-cased OS name starts with
   * "windows": exactly when its first seven characters lower-case to it.
   */
  function ValidatePlatform(osName: string): (r: Outcome)
    ensures r == Success || r == Failure(UnsupportedPlatform)
    ensures r.Failure? <==> |osName| >= 7 && Lower(osName[..7]) == "windows"
  {
    assert |osName| >= 7 ==> Lower(osName)[..7] == Lower(osName[..7]);

    if StartsWith(Lower(osName), "windows") then Failure(UnsupportedPlatform) else Success
  }

  /**
   * The path check on the canonical output and source paths (None when
   * computing the canonical path failed; the output path is computed
   * first). It is textual: an output path that is a string prefix of the
   * source path is refused, whether or not it ends at a separator.
   */
  function ValidateSourceParams(canonicalSource: Option<string>, canonicalOutput: Option<string>): (r: Outcome)
    ensures canonicalOutput.None? ==> r == Failure(OutputPathUnresolved)
    ensures canonicalOutput.Some? && canonicalSource.None? ==> r == Failure(SourcePathUnresolved)
    ensures r.Success? ==>
      canonicalOutput.Some? && canonicalSource.Some? && canonicalSource.value != canonicalOutput.value
    ensures r.Failure? ==> r.error in {OutputPathUnresolved, SourcePathUnresolved, SourceInsideOutput}
  {
    if canonicalOutput.None? then Failure(OutputPathUnresolved)
    else if canonicalSource.None? then Failure(SourcePathUnresolved)
    else if StartsWith(canonicalSource.value, canonicalOutput.value) then Failure(SourceInsideOutput)
    else Success
  }

  /**
   * The platform is refused exactly when the name is some word spelling
   * "windows" in any mix of letter case, followed by anything.
   */
  lemma PlatformRefusedIff(osName: string)
    ensures ValidatePlatform(osName).Failure? <==>
      exists word, rest :: osName == word + rest && Lower(word) == "windows"
    ensures ValidatePlatform(osName).Failure? ==> ValidatePlatform(osName) == Failure(UnsupportedPlatform)
  {
    if ValidatePlatform(osName).Failure? {
      var word, rest := osName[..7], osName[7..];
      assert osName == word + rest;
      assert Lower(word) == Lower(osName)[..7];
    }
    if exists word, rest :: osName == word + rest && Lower(word) == "windows" {
      var word, rest :| osName == word + rest && Lower(word) == "windows";
      assert Lower(osName)[..7] == Lower(word);
    }
  }

  /** Letter case in the OS name does not matter to the check. */
  lemma PlatformIgnoresCase(osName: string)
    ensures ValidatePlatform(Lower(osName)) == ValidatePlatform(osName)
  {
  }

  /** Host names the check refuses and admits. */
  lemma PlatformExamples()
    ensures ValidatePlatform("Windows 10") == Failure(UnsupportedPlatform)
    ensures ValidatePlatform("WINDOWS XP") == Failure(UnsupportedPlatform)
    ensures ValidatePlatform("Linux") == Success
    ensures ValidatePlatform("Mac OS X") == Success
    ensures ValidatePlatform("Darwin") == Success
  {
    assert Lower("Windows 10")[..7] == "windows";
    assert Lower("WINDOWS XP")[..7] == "windows";
    assert Lower("Mac OS X")[..7] != "windows" by { assert Lower("Mac OS X")[0] == 'm'; }
  }

  /**
   * With both canonical paths known, the check fails exactly when the
   * source path is the output path followed by any text, and passes
   * otherwise.
   */
  lemma SourceInsideOutputIff(canonicalSource: string, canonicalOutput: string)
    ensures var r := ValidateSourceParams(Some(canonicalSource), Some(canonicalOutput));
      (r == Failure(SourceInsideOutput) <==> exists rest :: canonicalSource == canonicalOutput + rest) &&
      (r != Failure(SourceInsideOutput) ==> r == Success)
  {
    if StartsWith(canonicalSource, canonicalOutput) {
      var rest := canonicalSource[|canonicalOutput|..];
      assert canonicalSource == canonicalOutput + rest;
    }
    if exists rest :: canonicalSource == canonicalOutput + rest {
      var rest :| canonicalSource == canonicalOutput + rest;
      assert canonicalSource[..|canonicalOutput|] == canonicalOutput;
    }
  }

  /**
   * Path pairs the check refuses and admits, among them the textual false
   * positive of a sibling directory whose name extends the output's.
   */
  lemma SourceParamsExamples()
    ensures ValidateSourceParams(Some("/a/b"), Some("/a")) == Failure(SourceInsideOutput)
    ensures ValidateSourceParams(Some("/a/b"), Some("/a/b")) == Failure(SourceInsideOutput)
    ensures ValidateSourceParams(Some("/a/bc"), Some("/a/b")) == Failure(SourceInsideOutput)
    ensures ValidateSourceParams(Some("/a/b"), Some("/c")) == Success
    ensures ValidateSourceParams(Some("/a"), Some("/a/b")) == Success
    ensures ValidateSourceParams(None, None) == Failure(OutputPathUnresolved)
    ensures ValidateSourceParams(None, Some("/a")) == Failure(SourcePathUnresolved)
  {
  }
}
