/**
 * Small value-level helpers of the test runner: the parser of the
 * `--runs_per_test` flag (with the part of Python's `int()` it relies on),
 * the docker architecture suffix, the split of a `--update_submodules`
 * entry, the build-step environment and the platform ceiling on parallel
 * tests.
 */
module Flags {
  import opened Base
  import opened Text

  predicate IsDigit(c: char) {
    '0' <= c <= '9'
  }

  /**
   * A decimal literal as Python 3's `int()` accepts it in base 10: digits,
   * with single underscores allowed between two digits.
   */
  predicate DecimalLiteral(t: string) {
    |t| > 0 && IsDigit(t[0]) && IsDigit(t[|t| - 1]) &&
    (forall i :: 0 <= i < |t| ==> IsDigit(t[i]) || t[i] == '_') &&
    (forall i :: 0 <= i < |t| - 1 ==> t[i] == '_' ==> t[i + 1] != '_')
  }

  /** The value of the digits of `t` read left to right, underscores skipped. */
  function DigitsValue(t: string): nat {
    if t == [] then 0
    else if t[|t| - 1] == '_' then DigitsValue(t[..|t| - 1])
    else DigitsValue(t[..|t| - 1]) * 10 + DigitValue(t[|t| - 1])
  }

  function DigitValue(c: char): nat {
    if IsDigit(c) then c as int - '0' as int else 0
  }

  /** A decimal literal with an optional leading sign. */
  predicate IntegerLiteral(t: string) {
    DecimalLiteral(t) || (t != [] && (t[0] == '-' || t[0] == '+') && DecimalLiteral(t[1..]))
  }

  /**
   * Python's `int(s)` on a string: the whitespace `int()` skips (`IsIntSpace`)
   * is ignored around the literal, then one optional sign and a decimal
   * literal; anything else raises ValueError (here `None`).
   */
  function PyInt(s: string): (r: Option<int>)
    ensures r.Some? <==> IntegerLiteral(Strip(s, IsIntSpace))
  {
    var t := Strip(s, IsIntSpace);
    if t != [] && (t[0] == '-' || t[0] == '+') then
      if DecimalLiteral(t[1..]) then
        var v: int := DigitsValue(t[1..]);
        Some(if t[0] == '-' then -v else v)
      else None
    else if DecimalLiteral(t) then Some(DigitsValue(t))
    else None
  }

  /** The message `runs_per_test_type` raises for a bad flag value. */
  function RunsPerTestMessage(s: string): string {
    "'" + s + "' is not a positive integer or 'inf'"
  }

  /**
   * `runs_per_test_type`: "inf" gives 0 (run forever), a positive integer
   * gives itself, and everything else is rejected with an error message.
   */
  function RunsPerTestType(s: string): (r: Result<nat, string>)
    ensures r == Ok(0) <==> s == "inf"
    ensures r.Ok? && r.value > 0 <==> s != "inf" && PyInt(s).Some? && PyInt(s).value > 0
    ensures r.Ok? && r.value > 0 ==> PyInt(s) == Some(r.value as int)
    ensures r.Err? ==> r.error == RunsPerTestMessage(s)
  {
    if s == "inf" then Ok(0)
    else
      match PyInt(s)
      case Some(n) => if n <= 0 then Err(RunsPerTestMessage(s)) else Ok(n)
      case None => Err(RunsPerTestMessage(s))
  }

  /** The decimal rendering of a natural number, without leading zeros. */
  function DecimalString(n: nat): (t: string)
    ensures |t| > 0 && IsDigit(t[0]) && IsDigit(t[|t| - 1])
    ensures forall i :: 0 <= i < |t| ==> IsDigit(t[i])
  {
    if n < 10 then [Digit(n)] else DecimalString(n / 10) + [Digit(n % 10)]
  }

  function Digit(d: nat): (c: char)
    requires d < 10
    ensures IsDigit(c) && DigitValue(c) == d
  {
    ('0' as int + d) as char
  }

  lemma {:induction false} DecimalStringValue(n: nat)
    ensures DecimalLiteral(DecimalString(n))
    ensures DigitsValue(DecimalString(n)) == n
  {
    var t := DecimalString(n);
    if n >= 10 {
      DecimalStringValue(n / 10);
      assert t[..|t| - 1] == DecimalString(n / 10);
    }
  }

  /** Every positive count written in decimal is accepted as itself. */
  lemma RunsPerTestDecimal(n: nat)
    requires n > 0
    ensures RunsPerTestType(DecimalString(n)) == Ok(n)
  {
    var t := DecimalString(n);
    DecimalStringValue(n);
    StripTrimmed(t, IsIntSpace);
    assert t != "inf" by { assert IsDigit(t[0]); }
    assert !(t[0] == '-' || t[0] == '+');
  }

  /**
   * A text that starts with one of the separators \x1c to \x1f is no
   * integer, although `str.isspace()` accepts them: `int()` does not skip
   * them, so the flag value is refused.
   */
  lemma SeparatorNotSkipped(c: char, d: string)
    requires 0x1C <= c as int <= 0x1F
    ensures PyInt([c] + d) == None
    ensures RunsPerTestType([c] + d) == Err(RunsPerTestMessage([c] + d))
  {
    var s := [c] + d;
    assert LeadingSpaces(s, IsIntSpace) == 0;
    TrailingSpacesAre(s, IsIntSpace);
    var t := Strip(s, IsIntSpace);
    assert t == s[..|s| - TrailingSpaces(s, IsIntSpace)];
    assert t != [] && t[0] == c;
  }

  /** A negative count is refused. */
  lemma RunsPerTestRejectsNegative(n: nat)
    ensures RunsPerTestType("-" + DecimalString(n)).Err?
  {
    var d := DecimalString(n);
    DecimalStringValue(n);
    NegatedLiteral(d);
  }

  lemma NegatedLiteral(d: string)
    requires DecimalLiteral(d)
    ensures PyInt("-" + d) == Some(-(DigitsValue(d) as int))
  {
    var t := "-" + d;
    assert t[1..] == d;
    assert t[|t| - 1] == d[|d| - 1];
    StripTrimmed(t, IsIntSpace);
  }

  /**
   * `int()` ignores whitespace around the literal and reads an optional sign:
   * a decimal literal, signed and padded, is read as its value or its
   * negation (`DecimalStringValue` gives the literal of every number).
   */
  lemma PyIntPadded(front: string, sign: string, d: string, back: string)
    requires AllSpace(front, IsIntSpace) && AllSpace(back, IsIntSpace)
    requires sign == "" || sign == "+" || sign == "-"
    requires DecimalLiteral(d)
    ensures PyInt(front + sign + d + back) ==
      Some(if sign == "-" then -(DigitsValue(d) as int) else DigitsValue(d))
  {
    SignedLiteralTrimmed(sign, d);
    var s := front + sign + d + back;
    assert s == front + (sign + d) + back;
    StripPadded(front, sign + d, back, IsIntSpace);
    SignedLiteralValue(s, sign, d);
  }

  lemma SignedLiteralTrimmed(sign: string, d: string)
    requires DecimalLiteral(d)
    requires sign == "" || sign == "+" || sign == "-"
    ensures var t := sign + d; t != [] && !IsIntSpace(t[0]) && !IsIntSpace(t[|t| - 1])
  {
    var t := sign + d;
    assert t[|t| - 1] == d[|d| - 1];
    if sign == "" {
      assert t[0] == d[0];
    } else {
      assert t[0] == sign[0];
    }
  }

  /** `int()` of a text whose stripped form is a signed decimal literal. */
  lemma SignedLiteralValue(s: string, sign: string, d: string)
    requires DecimalLiteral(d)
    requires sign == "" || sign == "+" || sign == "-"
    requires Strip(s, IsIntSpace) == sign + d
    ensures PyInt(s) == Some(if sign == "-" then -(DigitsValue(d) as int) else DigitsValue(d))
  {
    var t := sign + d;
    if sign != "" {
      assert t[1..] == d;
    } else {
      assert t == d;
    }
  }

  /**
   * `_docker_arch_suffix`: "default" and "x64" use the x64 images, "x86" the
   * x86 ones; any other architecture ends the program (here `None`).
   */
  function DockerArchSuffix(arch: string): (r: Option<string>)
    ensures r.Some? <==> arch in {"default", "x64", "x86"}
    ensures arch in {"default", "x64"} ==> r == Some("x64")
    ensures arch == "x86" ==> r == Some("x86")
  {
    if arch == "default" || arch == "x64" then Some("x64")
    else if arch == "x86" then Some("x86")
    else None
  }

  /**
   * An entry of `--update_submodules`, `submodule[:branch]`, split at its
   * first colon; without a colon the branch is "master".
   */
  function SplitSubmoduleSpec(spec: string): (r: (string, string))
    ensures ':' !in r.0
    ensures ':' !in spec ==> r == (spec, "master")
    ensures ':' in spec ==> spec == r.0 + ":" + r.1
  {
    var i := Find(spec, ':');
    if i < 0 then (spec, "master") else (spec[..i], spec[i + 1..])
  }

  /** Writing a submodule and a branch as `submodule:branch` and splitting it gives them back. */
  lemma SplitSubmoduleRoundTrip(submodule: string, branch: string)
    requires ':' !in submodule
    ensures SplitSubmoduleSpec(submodule + ":" + branch) == (submodule, branch)
  {
    var spec := submodule + ":" + branch;
    FindAfter(submodule, ':', branch);
    assert spec[..|submodule|] == submodule;
    assert spec[|submodule| + 1..] == branch;
  }

  /** `_MSBUILD_CONFIG`: the msbuild configuration name of a build config. */
  function MsbuildConfig(cfg: string): Option<string> {
    if cfg == "dbg" || cfg == "gcov" then Some("Debug")
    else if cfg == "opt" then Some("Release")
    else None
  }

  /**
   * `build_step_environ`: CONFIG is always set, MSBUILD_CONFIG exactly for
   * the build configs msbuild knows.
   */
  function BuildStepEnviron(cfg: string): (env: map<string, string>)
    ensures "CONFIG" in env && env["CONFIG"] == cfg
    ensures "MSBUILD_CONFIG" in env <==> MsbuildConfig(cfg).Some?
    ensures "MSBUILD_CONFIG" in env ==> env["MSBUILD_CONFIG"] == MsbuildConfig(cfg).value
    ensures env.Keys <= {"CONFIG", "MSBUILD_CONFIG"}
  {
    var environ := map["CONFIG" := cfg];
    match MsbuildConfig(cfg)
    case Some(m) => environ["MSBUILD_CONFIG" := m]
    case None => environ
  }

  /** `max_parallel_tests_for_current_platform`: the cap on concurrent test jobs. */
  function MaxParallelTests(platform: string): nat {
    if platform == "windows" then 64 else 1024
  }
}
