/**
 * One pass of the test runner (`_build_and_run`): the build steps, then the
 * test jobs, then the post-test steps, each handed to the job scheduler,
 * and the process exit code computed from what failed.
 */
module Phases {
  import opened Base
  import opened Jobset
  import opened RunPlan
  import Aggregation
  import Flags

  datatype Phase = Build | Test | PostTest

  /**
   * One call of the scheduler (`jobset.run`): which phase it serves, the
   * jobs, the concurrency cap, the cap that ignores CPU cost (none: the
   * scheduler's default), whether the first failure stops it, the
   * wall-clock budget in seconds (none: the scheduler's default) and
   * whether it is handed the pass's cancellation check. The budget and
   * the cancellation check both stop it admitting jobs, so they shape the
   * result set it returns.
   */
  datatype Request = Request(phase: Phase, jobs: JobStream, maxjobs: nat, maxjobsCpuAgnostic: Option<nat>,
                             stopOnFailure: bool, maxTime: Option<int>, checksCancelled: bool)

  /** What the scheduler hands back: the count of failed jobs and the result set. */
  datatype Reply = Reply(numFailures: nat, resultset: ResultSet)

  /** The members of `BuildAndRunError`. */
  datatype BuildAndRunError = BuildFailed | TestFailed | PostTestFailed

  /**
   * A pass either completes with the list of phases that failed, or is
   * aborted by a configuration error of the test phase (an assertion that
   * propagates out of the pass).
   */
  datatype PassOutcome = Completed(errors: seq<BuildAndRunError>) | Aborted(error: PlanError)

  /** The command-line settings a pass consults. */
  datatype Settings = Settings(
    buildOnly: bool,
    travis: bool,
    maxTime: int,
    jobs: nat,
    stopOnFailure: bool,
    runsPerTest: nat,
    fullSample: bool,
    platform: string)

  function BuildRequest(buildSteps: seq<JobSpec>): Request {
    Request(Build, Finite(buildSteps), 1, None, true, None, false)
  }

  /**
   * The test phase runs at the user's concurrency under the platform's
   * ceiling, with the user's stop-on-failure and time budget, and polls
   * the pass's cancellation check.
   */
  function TestRequest(jobs: JobStream, settings: Settings): Request {
    Request(Test, jobs, settings.jobs, Some(Flags.MaxParallelTests(settings.platform)), settings.stopOnFailure,
            Some(settings.maxTime), true)
  }

  function PostTestRequest(postSteps: seq<JobSpec>): Request {
    Request(PostTest, Finite(postSteps), 1, None, false, None, false)
  }

  /**
   * `_build_and_run`. The scheduler is the function `run`; `calls` records
   * every request made to it, in order, so which phases ran is part of the
   * result. `selected` and `sample` are the filtered test jobs and the
   * random sample drawn from them. `reported` is the per-test FAILED/FLAKE
   * verdict printed after the test phase.
   */
  method BuildAndRun(buildSteps: seq<JobSpec>, postSteps: seq<JobSpec>, selected: seq<JobSpec>,
                     sample: seq<JobSpec>, settings: Settings, run: Request -> Reply)
    returns (outcome: PassOutcome, calls: seq<Request>, reported: map<string, Aggregation.Verdict>)
    requires multiset(sample) <= multiset(selected)
    requires settings.fullSample ==> multiset(sample) == multiset(selected)
    ensures |calls| >= 1 && calls[0] == BuildRequest(buildSteps)
    ensures run(calls[0]).numFailures > 0 ==> outcome == Completed([BuildFailed]) && |calls| == 1
    ensures run(calls[0]).numFailures == 0 && settings.buildOnly ==> outcome == Completed([]) && |calls| == 1
    ensures outcome.Aborted? <==>
      run(calls[0]).numFailures == 0 && !settings.buildOnly &&
      ExpandRuns(selected, settings.runsPerTest, settings.travis, settings.maxTime,
                 settings.fullSample, sample).Err?
    ensures outcome.Aborted? ==>
      |calls| == 1 &&
      outcome.error == ExpandRuns(selected, settings.runsPerTest, settings.travis, settings.maxTime,
                                  settings.fullSample, sample).error
    ensures |calls| > 1 <==>
      run(calls[0]).numFailures == 0 && !settings.buildOnly &&
      ExpandRuns(selected, settings.runsPerTest, settings.travis, settings.maxTime,
                 settings.fullSample, sample).Ok?
    ensures |calls| > 1 ==>
      |calls| == 3 && run(calls[0]).numFailures == 0 && !settings.buildOnly &&
      Ok(calls[1].jobs) == ExpandRuns(selected, settings.runsPerTest, settings.travis, settings.maxTime,
                                      settings.fullSample, sample) &&
      calls[1] == TestRequest(calls[1].jobs, settings) &&
      calls[2] == PostTestRequest(postSteps) &&
      outcome.Completed? &&
      (PostTestFailed in outcome.errors <==> run(calls[2]).numFailures > 0) &&
      (TestFailed in outcome.errors <==> run(calls[1]).numFailures > 0) &&
      BuildFailed !in outcome.errors && |outcome.errors| <= 2
    ensures |calls| > 1 ==>
      forall k :: k in reported <==>
        k in run(calls[1]).resultset && Aggregation.TotalFailures(run(calls[1]).resultset[k]) > 0
    ensures |calls| > 1 ==>
      forall k :: k in reported ==>
        reported[k] == Aggregation.Classify(Aggregation.TotalRuns(run(calls[1]).resultset[k]),
                                            Aggregation.TotalFailures(run(calls[1]).resultset[k]))
    ensures |calls| == 1 ==> reported == map[]
  {
    reported := map[];
    var buildRequest := BuildRequest(buildSteps);
    calls := [buildRequest];
    var build := run(buildRequest);
    if build.numFailures != 0 {
      return Completed([BuildFailed]), calls, reported;
    }
    if settings.buildOnly {
      return Completed([]), calls, reported;
    }
    var stream := ExpandRuns(selected, settings.runsPerTest, settings.travis, settings.maxTime,
                             settings.fullSample, sample);
    if stream.Err? {
      return Aborted(stream.error), calls, reported;
    }
    var testRequest := TestRequest(stream.value, settings);
    calls := calls + [testRequest];
    var tests := run(testRequest);
    reported := Aggregation.ReportVerdicts(tests.resultset);
    var postRequest := PostTestRequest(postSteps);
    calls := calls + [postRequest];
    var post := run(postRequest);
    var out := [];
    if post.numFailures != 0 {
      out := out + [PostTestFailed];
    }
    if tests.numFailures != 0 {
      out := out + [TestFailed];
    }
    outcome := Completed(out);
  }

  /** The closing message of a pass that completed. */
  datatype Summary = AllTestsPassed | SomeTestsFailed

  /**
   * The exit status of a run that is not in watch mode: bit 1 for a
   * failed build, bit 2 for failed tests, bit 4 for failed post-test
   * steps, built with `|=`.
   */
  method ExitCode(errors: seq<BuildAndRunError>) returns (summary: Summary, code: int)
    ensures 0 <= code <= 7
    ensures code % 2 == 1 <==> BuildFailed in errors
    ensures (code / 2) % 2 == 1 <==> TestFailed in errors
    ensures code / 4 == 1 <==> PostTestFailed in errors
    ensures code == 0 <==> errors == []
    ensures summary == AllTestsPassed <==> errors == []
  {
    summary := if errors == [] then AllTestsPassed else SomeTestsFailed;
    var exitCode: bv8 := 0;
    if BuildFailed in errors {
      exitCode := exitCode | 1;
    }
    if TestFailed in errors {
      exitCode := exitCode | 2;
    }
    if PostTestFailed in errors {
      exitCode := exitCode | 4;
    }
    code := exitCode as int;
    if errors != [] {
      assert errors[0] in errors;
      assert code != 0 by {
        match errors[0]
        case BuildFailed => assert code % 2 == 1;
        case TestFailed => assert (code / 2) % 2 == 1;
        case PostTestFailed => assert code / 4 == 1;
      }
    }
  }
}
