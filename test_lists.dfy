/**
 * Splitting a C/C++ test binary into one job per test case: the parsers of
 * `--gtest_list_tests` and `--benchmark_list_tests` output in
 * `CLanguage.test_specs`, and the filtered job each listed test becomes.
 */
module TestLists {
  import opened Base
  import opened Text
  import Jobset
  import JobConfig

  /** The two ways the gtest parser's assertions stop it. */
  datatype ListFailure =
    | AssertionError  // an indented line before any suite, or indented by one space only
    | IndexError      // a line that is a single space: `line[1]` does not exist

  /** The text of a listing line before any `#` comment. */
  function DropComment(line: string): (r: string)
    ensures '#' !in r
    ensures '#' !in line ==> r == line
    ensures r <= line && (|r| < |line| ==> line[|r|] == '#')
  {
    var i := Find(line, '#');
    if i >= 0 then line[..i] else line
  }

  /** A line that names a test (indented), as opposed to a suite header. */
  predicate IsTestLine(line: string) {
    var l := DropComment(line);
    l != [] && l[0] == ' '
  }

  /**
   * What the gtest loop produces from the remaining `lines` when the
   * current suite is `base`: the test filters in order, or the failure that
   * stops it.
   */
  function GtestFrom(lines: seq<string>, base: Option<string>): Result<seq<string>, ListFailure>
    decreases |lines|
  {
    if lines == [] then Ok([])
    else
      var line := DropComment(lines[0]);
      if line == [] then GtestFrom(lines[1..], base)
      else if line[0] != ' ' then GtestFrom(lines[1..], Some(Strip(line, IsSpace)))
      else if base.None? then Err(AssertionError)
      else if |line| < 2 then Err(IndexError)
      else if line[1] != ' ' then Err(AssertionError)
      else Prepend([base.value + Strip(line, IsSpace)], GtestFrom(lines[1..], base))
  }

  function Prepend(out: seq<string>, r: Result<seq<string>, ListFailure>): Result<seq<string>, ListFailure> {
    if r.Ok? then Ok(out + r.value) else r
  }

  /**
   * The gtest loop: one filter `suite + test` per indented line, comments
   * dropped, blank lines skipped, a new suite at every unindented line.
   */
  method GtestFilters(output: string) returns (r: Result<seq<string>, ListFailure>)
    ensures r == GtestFrom(Split(output, '\n'), None)
  {
    var lines := Split(output, '\n');
    var base: Option<string> := None;
    var out: seq<string> := [];
    var n := 0;
    assert lines[0..] == lines;
    PrependEmpty(GtestFrom(lines, None));
    while n < |lines|
      invariant 0 <= n <= |lines|
      invariant GtestFrom(lines, None) == Prepend(out, GtestFrom(lines[n..], base))
    {
      var line := lines[n];
      assert lines[n..][1..] == lines[n + 1..];
      var i := Find(line, '#');
      if i >= 0 {
        line := line[..i];
      }
      if line == [] {
      } else if line[0] != ' ' {
        base := Some(Strip(line, IsSpace));
      } else {
        if base.None? {
          return Err(AssertionError);
        }
        if |line| < 2 {
          return Err(IndexError);
        }
        if line[1] != ' ' {
          return Err(AssertionError);
        }
        var test := base.value + Strip(line, IsSpace);
        assert out + [test] + [] == out + [test];
        PrependTwice(out, [test], GtestFrom(lines[n + 1..], base));
        out := out + [test];
      }
      n := n + 1;
    }
    assert GtestFrom(lines[n..], base) == Ok([]);
    assert out + [] == out;
    r := Ok(out);
  }

  lemma PrependEmpty(r: Result<seq<string>, ListFailure>)
    ensures Prepend([], r) == r
  {
    if r.Ok? {
      assert [] + r.value == r.value;
    }
  }

  lemma PrependTwice(a: seq<string>, b: seq<string>, r: Result<seq<string>, ListFailure>)
    ensures Prepend(a, Prepend(b, r)) == Prepend(a + b, r)
  {
    if r.Ok? {
      assert a + (b + r.value) == a + b + r.value;
    }
  }

  /** The number of test lines among `lines`. */
  function CountTestLines(lines: seq<string>): nat {
    if lines == [] then 0 else (if IsTestLine(lines[0]) then 1 else 0) + CountTestLines(lines[1..])
  }

  /** A successful parse yields exactly one filter per test line. */
  lemma {:induction false} GtestOnePerTestLine(lines: seq<string>, base: Option<string>)
    requires GtestFrom(lines, base).Ok?
    ensures |GtestFrom(lines, base).value| == CountTestLines(lines)
    decreases |lines|
  {
    if lines != [] {
      var line := DropComment(lines[0]);
      if line == [] {
        GtestOnePerTestLine(lines[1..], base);
      } else if line[0] != ' ' {
        GtestOnePerTestLine(lines[1..], Some(Strip(line, IsSpace)));
      } else {
        GtestOnePerTestLine(lines[1..], base);
      }
    }
  }

  /** A test line before the first suite header stops the parse. */
  lemma {:induction false} GtestTestBeforeSuite(lines: seq<string>, k: nat)
    requires k < |lines| && IsTestLine(lines[k])
    requires forall j :: 0 <= j < k ==> DropComment(lines[j]) == []
    ensures GtestFrom(lines, None) == Err(AssertionError)
    decreases k
  {
    if k > 0 {
      GtestTestBeforeSuite(lines[1..], k - 1);
    }
  }

  /**
   * Under a suite header, a test line indented by one space only stops the
   * parse: `line[1]` is missing when the line is a single space, and the
   * assertion that it is a space fails otherwise.
   */
  lemma GtestShallowIndent(suite: string, line: string, rest: seq<string>)
    requires PlainName(suite)
    requires DropComment(line) != [] && DropComment(line)[0] == ' '
    requires |DropComment(line)| < 2 || DropComment(line)[1] != ' '
    ensures GtestFrom([suite, line] + rest, None) ==
      Err(if |DropComment(line)| < 2 then IndexError else AssertionError)
  {
    var lines := [suite, line] + rest;
    assert lines[0] == suite && lines[1..] == [line] + rest;
    assert ([line] + rest)[0] == line;
    StripTrimmed(suite, IsSpace);
  }

  /** A suite as `--gtest_list_tests` prints it: a header and its test names. */
  datatype Suite = Suite(name: string, tests: seq<string>)

  /** A name the listing can carry: non-empty, no whitespace, no `#`. */
  predicate PlainName(s: string) {
    s != [] && NoSpace(s) && '#' !in s
  }

  predicate PlainSuite(s: Suite) {
    PlainName(s.name) && forall k :: 0 <= k < |s.tests| ==> PlainName(s.tests[k])
  }

  function Indented(tests: seq<string>): seq<string> {
    if tests == [] then [] else ["  " + tests[0]] + Indented(tests[1..])
  }

  /** The listing lines of `suites`, each header followed by its indented tests. */
  function Listing(suites: seq<Suite>): seq<string> {
    if suites == [] then [] else [suites[0].name] + Indented(suites[0].tests) + Listing(suites[1..])
  }

  function Qualified(name: string, tests: seq<string>): seq<string> {
    if tests == [] then [] else [name + tests[0]] + Qualified(name, tests[1..])
  }

  /** The gtest filters of `suites`: suite name then test name. */
  function Filters(suites: seq<Suite>): seq<string> {
    if suites == [] then [] else Qualified(suites[0].name, suites[0].tests) + Filters(suites[1..])
  }

  lemma {:induction false} GtestIndented(name: string, tests: seq<string>, tail: seq<string>)
    requires forall k :: 0 <= k < |tests| ==> PlainName(tests[k])
    ensures GtestFrom(Indented(tests) + tail, Some(name)) ==
      Prepend(Qualified(name, tests), GtestFrom(tail, Some(name)))
    decreases |tests|
  {
    if tests == [] {
      assert Indented(tests) + tail == tail;
      PrependTwice([], [], GtestFrom(tail, Some(name)));
      assert Prepend([], GtestFrom(tail, Some(name))) == GtestFrom(tail, Some(name)) by {
        if GtestFrom(tail, Some(name)).Ok? {
          assert [] + GtestFrom(tail, Some(name)).value == GtestFrom(tail, Some(name)).value;
        }
      }
    } else {
      var t := tests[0];
      var line := "  " + t;
      var lines := Indented(tests) + tail;
      assert lines == [line] + (Indented(tests[1..]) + tail);
      assert lines[1..] == Indented(tests[1..]) + tail;
      assert '#' !in line by {
        assert forall i :: 0 <= i < |line| ==> line[i] == (if i < 2 then ' ' else t[i - 2]);
      }
      assert line[0] == ' ' && line[1] == ' ';
      StripIndented("  ", t, IsSpace);
      assert Strip(line, IsSpace) == t;
      GtestIndented(name, tests[1..], tail);
      PrependTwice([name + t], Qualified(name, tests[1..]), GtestFrom(tail, Some(name)));
    }
  }

  /**
   * Round trip: parsing the listing of well-formed suites, with the blank
   * last line the listing ends in, gives every suite's filters in order.
   */
  lemma {:induction false} GtestListingRoundTrip(suites: seq<Suite>, base: Option<string>)
    requires forall k :: 0 <= k < |suites| ==> PlainSuite(suites[k])
    ensures GtestFrom(Listing(suites) + [""], base) == Ok(Filters(suites))
    decreases |suites|
  {
    if suites == [] {
      assert Listing(suites) + [""] == [""];
      assert DropComment("") == "";
      assert [""][1..] == [];
    } else {
      var s := suites[0];
      var tail := Listing(suites[1..]) + [""];
      var lines := Listing(suites) + [""];
      assert lines == [s.name] + (Indented(s.tests) + tail);
      assert PlainSuite(s);
      assert s.name[0] != ' ';
      StripTrimmed(s.name, IsSpace);
      GtestIndented(s.name, s.tests, tail);
      GtestListingRoundTrip(suites[1..], Some(s.name));
    }
  }

  lemma {:induction false} IndentedLinesPlain(tests: seq<string>)
    requires forall k :: 0 <= k < |tests| ==> PlainName(tests[k])
    ensures forall k :: 0 <= k < |Indented(tests)| ==> '\n' !in Indented(tests)[k]
    ensures |Indented(tests)| == |tests|
    decreases |tests|
  {
    if tests != [] {
      IndentedLinesPlain(tests[1..]);
      var line := "  " + tests[0];
      assert forall i :: 0 <= i < |line| ==> line[i] == (if i < 2 then ' ' else tests[0][i - 2]);
      assert IsSpace('\n') && PlainName(tests[0]);
    }
  }

  lemma {:induction false} ListingLinesPlain(suites: seq<Suite>)
    requires forall k :: 0 <= k < |suites| ==> PlainSuite(suites[k])
    ensures forall k :: 0 <= k < |Listing(suites)| ==> '\n' !in Listing(suites)[k]
    decreases |suites|
  {
    if suites != [] {
      assert PlainSuite(suites[0]);
      IndentedLinesPlain(suites[0].tests);
      ListingLinesPlain(suites[1..]);
      var head := [suites[0].name] + Indented(suites[0].tests);
      assert Listing(suites) == head + Listing(suites[1..]);
      assert '\n' !in suites[0].name by { assert IsSpace('\n'); }
    }
  }

  /**
   * The same round trip on the text itself: the lines of the listing joined
   * by newlines, ending in a newline, are what the gtest loop is given.
   */
  lemma GtestListingTextRoundTrip(suites: seq<Suite>)
    requires forall k :: 0 <= k < |suites| ==> PlainSuite(suites[k])
    ensures GtestFrom(Split(Join(Listing(suites) + [""], '\n'), '\n'), None) == Ok(Filters(suites))
  {
    ListingLinesPlain(suites);
    SplitJoin(Listing(suites) + [""], '\n');
    GtestListingRoundTrip(suites, None);
  }

  /**
   * What the benchmark loop keeps of the listing: every line stripped,
   * empty ones skipped. Comments are not special here.
   */
  function BenchmarkNames(lines: seq<string>): seq<string> {
    if lines == [] then []
    else
      var test := Strip(lines[0], IsSpace);
      (if test == [] then [] else [test]) + BenchmarkNames(lines[1..])
  }

  /** The benchmark loop over the lines of the listing. */
  method BenchmarkFilters(output: string) returns (names: seq<string>)
    ensures names == BenchmarkNames(Split(output, '\n'))
  {
    names := StrippedNames(Split(output, '\n'));
  }

  /** Every line stripped, empty ones skipped. */
  method StrippedNames(lines: seq<string>) returns (names: seq<string>)
    ensures names == BenchmarkNames(lines)
  {
    names := [];
    var n := 0;
    assert lines[0..] == lines && [] + BenchmarkNames(lines) == BenchmarkNames(lines);
    while n < |lines|
      invariant 0 <= n <= |lines|
      invariant BenchmarkNames(lines) == names + BenchmarkNames(lines[n..])
    {
      var test := Strip(lines[n], IsSpace);
      BenchmarkNamesStep(lines, n, names);
      if test != [] {
        names := names + [test];
      }
      n := n + 1;
    }
    assert lines[n..] == [];
  }

  lemma BenchmarkNamesStep(lines: seq<string>, n: nat, names: seq<string>)
    requires n < |lines|
    ensures names + BenchmarkNames(lines[n..]) ==
      (if Strip(lines[n], IsSpace) == [] then names else names + [Strip(lines[n], IsSpace)]) + BenchmarkNames(lines[n + 1..])
  {
    var test := Strip(lines[n], IsSpace);
    var rest := BenchmarkNames(lines[n + 1..]);
    assert lines[n..][0] == lines[n] && lines[n..][1..] == lines[n + 1..];
    assert BenchmarkNames(lines[n..]) == (if test == [] then [] else [test]) + rest;
    if test != [] {
      assert names + ([test] + rest) == (names + [test]) + rest;
    } else {
      assert [] + rest == rest;
    }
  }

  /** Listing names without whitespace, one per line, gives them back. */
  lemma {:induction false} BenchmarkRoundTrip(names: seq<string>)
    requires forall k :: 0 <= k < |names| ==> names[k] != [] && NoSpace(names[k])
    ensures BenchmarkNames(names) == names
  {
    if names != [] {
      StripTrimmed(names[0], IsSpace);
      BenchmarkRoundTrip(names[1..]);
    }
  }

  /** The command line of the job that runs one listed test. */
  function FilterCommand(binary: string, flag: string, test: string, suffix: string, args: seq<string>): seq<string> {
    [binary, flag + test + suffix] + args
  }

  /**
   * `job` is the job for the command line `cmd`: `job_spec` with the command
   * named by its space-joined words and the shortname extension, the
   * target's CPU cost, its timeout and its environment.
   */
  predicate FilteredJob(cfg: JobConfig.Config, job: Jobset.JobSpec, cmd: seq<string>, shortnameExt: string,
                        cpuCost: real, timeoutSeconds: real, env: map<string, string>,
                        policy: JobConfig.FlakePolicy)
    reads cfg
  {
    cfg.Describes(job, cmd, Some(timeoutSeconds), Some(Join(cmd, ' ') + " " + shortnameExt), env, cpuCost,
                  false, policy)
  }

  /**
   * One job per listed test: the binary with its filter flag and the
   * target's arguments, named by that command line and the shortname
   * extension, with the target's CPU cost, timeout and environment.
   */
  method FilteredJobs(cfg: JobConfig.Config, binary: string, flag: string, suffix: string,
                      tests: seq<string>, args: seq<string>, shortnameExt: string,
                      cpuCost: real, timeoutSeconds: real, env: map<string, string>,
                      policy: JobConfig.FlakePolicy)
    returns (jobs: seq<Jobset.JobSpec>)
    ensures |jobs| == |tests|
    ensures forall k :: 0 <= k < |jobs| ==>
      FilteredJob(cfg, jobs[k], FilterCommand(binary, flag, tests[k], suffix, args), shortnameExt,
                  cpuCost, timeoutSeconds, env, policy)
  {
    jobs := [];
    for n := 0 to |tests|
      invariant |jobs| == n
      invariant forall k :: 0 <= k < n ==>
        FilteredJob(cfg, jobs[k], FilterCommand(binary, flag, tests[k], suffix, args), shortnameExt,
                    cpuCost, timeoutSeconds, env, policy)
    {
      var cmdline := FilterCommand(binary, flag, tests[n], suffix, args);
      var job := cfg.JobSpec(cmdline, shortname := Some(Join(cmdline, ' ') + " " + shortnameExt),
                             cpuCost := cpuCost, timeoutSeconds := Some(timeoutSeconds),
                             environ := env, policy := policy);
      jobs := jobs + [job];
    }
  }

  /** The gtest branch: parse the listing, then one `--gtest_filter` job per test. */
  method GtestJobs(cfg: JobConfig.Config, binary: string, output: string, args: seq<string>,
                   shortnameExt: string, cpuCost: real, timeoutSeconds: real,
                   env: map<string, string>, policy: JobConfig.FlakePolicy)
    returns (r: Result<seq<Jobset.JobSpec>, ListFailure>)
    ensures GtestFrom(Split(output, '\n'), None).Err? ==> r == Err(GtestFrom(Split(output, '\n'), None).error)
    ensures GtestFrom(Split(output, '\n'), None).Ok? ==>
      r.Ok? &&
      (var tests := GtestFrom(Split(output, '\n'), None).value;
       |r.value| == |tests| &&
       forall k :: 0 <= k < |tests| ==>
         FilteredJob(cfg, r.value[k], FilterCommand(binary, "--gtest_filter=", tests[k], "", args), shortnameExt,
                     cpuCost, timeoutSeconds, env, policy))
  {
    var filters := GtestFilters(output);
    if filters.Err? {
      return Err(filters.error);
    }
    var jobs := FilteredJobs(cfg, binary, "--gtest_filter=", "", filters.value, args, shortnameExt,
                             cpuCost, timeoutSeconds, env, policy);
    r := Ok(jobs);
  }

  /** The benchmark branch: one `--benchmark_filter=<name>$` job per listed benchmark. */
  method BenchmarkJobs(cfg: JobConfig.Config, binary: string, output: string, args: seq<string>,
                       shortnameExt: string, cpuCost: real, timeoutSeconds: real,
                       env: map<string, string>, policy: JobConfig.FlakePolicy)
    returns (jobs: seq<Jobset.JobSpec>)
    ensures var names := BenchmarkNames(Split(output, '\n'));
      |jobs| == |names| &&
      forall k :: 0 <= k < |names| ==>
        FilteredJob(cfg, jobs[k], FilterCommand(binary, "--benchmark_filter=", names[k], "$", args), shortnameExt,
                    cpuCost, timeoutSeconds, env, policy)
  {
    var names := BenchmarkFilters(output);
    jobs := FilteredJobs(cfg, binary, "--benchmark_filter=", "$", names, args, shortnameExt,
                         cpuCost, timeoutSeconds, env, policy);
  }
}
