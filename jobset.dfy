/**
 * The data that crosses the boundary between the test runner and its job
 * scheduler (`python_utils/jobset.py`, which is not part of this model):
 * job descriptors going in, per-submission results coming out.
 */
module Jobset {
  import opened Base

  /**
   * One executable unit of work (`jobset.JobSpec`): the command line, the
   * name repeated runs are grouped by, the environment overlay, the resource
   * weight, the optional timeout and the two retry budgets.
   */
  datatype JobSpec = JobSpec(
    cmdline: seq<string>,
    shortname: Option<string>,
    environ: map<string, string>,
    cpuCost: real,
    timeoutSeconds: Option<real>,
    flakeRetries: nat,
    timeoutRetries: nat)

  datatype State = Passed | Failed | TimedOut

  /**
   * The folded result of one submission of a job (`jobset.JobResult`):
   * `retries` counts the extra attempts it consumed and `numFailures` the
   * attempts that failed. Both are plain integers here because the runner
   * only adds them up when they are positive.
   */
  datatype JobResult = JobResult(state: State, retries: int, numFailures: int)

  /** Results keyed by shortname, one entry per submission. */
  type ResultSet = map<string, seq<JobResult>>
}
