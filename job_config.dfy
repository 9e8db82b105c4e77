/**
 * A build configuration of the test runner (`Config`) and the way it turns
 * a test command into a job descriptor (`Config.job_spec`): the tool prefix,
 * the environment overlay, the flakiness policy and the timeout scaling.
 */
module JobConfig {
  import opened Base
  import Jobset

  /** The seconds a test may take when its target does not say. */
  const DefaultTimeoutSeconds: real := 300.0

  /**
   * The global inputs `job_spec` consults besides its arguments: the tests
   * known to be flaky, per-test CPU cost overrides, and `--allow_flakes`.
   */
  datatype FlakePolicy = FlakePolicy(
    flakyTests: set<string>,
    shortnameToCpu: map<string, real>,
    allowFlakes: bool)

  /** Python truthiness of an optional shortname: present and non-empty. */
  predicate Truthy(shortname: Option<string>) {
    shortname.Some? && shortname.value != ""
  }

  /** A job is flaky when marked so by its caller or listed as a flaky test. */
  predicate IsFlaky(flaky: bool, shortname: Option<string>, policy: FlakePolicy) {
    flaky || (Truthy(shortname) && shortname.value in policy.flakyTests)
  }

  /** Python truthiness of an optional timeout: present and non-zero. */
  predicate HasTimeout(timeoutSeconds: Option<real>) {
    timeoutSeconds.Some? && timeoutSeconds.value != 0.0
  }

  class Config {
    var buildConfig: string
    var environ: map<string, string>
    var toolPrefix: seq<string>
    var timeoutMultiplier: real
    var iomgrPlatform: string

    /**
     * `Config(config, environ, timeout_multiplier, tool_prefix,
     * iomgr_platform)`: the environment always names the build config.
     */
    constructor (config: string, environ: Option<map<string, string>> := None,
                 timeoutMultiplier: real := 1.0, toolPrefix: seq<string> := [],
                 iomgrPlatform: string := "native")
      ensures this.buildConfig == config
      ensures this.environ == (if environ.Some? then environ.value else map[])["CONFIG" := config]
      ensures this.toolPrefix == toolPrefix
      ensures this.timeoutMultiplier == timeoutMultiplier
      ensures this.iomgrPlatform == iomgrPlatform
    {
      var env := if environ.Some? then environ.value else map[];
      buildConfig := config;
      this.environ := env["CONFIG" := config];
      this.toolPrefix := toolPrefix;
      this.timeoutMultiplier := timeoutMultiplier;
      this.iomgrPlatform := iomgrPlatform;
    }

    /**
     * `spec` is the job `job_spec` describes for these arguments: the command
     * behind the tool prefix, the given shortname, the config's environment
     * overlaid by the job's own entries, the CPU cost unless a shortname
     * override replaces it, the timeout scaled by the multiplier (none for a
     * missing or zero timeout), and 4 flake retries and 1 timeout retry for a
     * flaky job or under `--allow_flakes`, none otherwise.
     */
    predicate Describes(spec: Jobset.JobSpec, cmdline: seq<string>, timeoutSeconds: Option<real>,
                        shortname: Option<string>, environ: map<string, string>, cpuCost: real,
                        flaky: bool, policy: FlakePolicy)
      reads this
    {
      spec.cmdline == toolPrefix + cmdline &&
      spec.shortname == shortname &&
      spec.environ.Keys == this.environ.Keys + environ.Keys &&
      (forall k :: k in environ ==> spec.environ[k] == environ[k]) &&
      (forall k :: k in this.environ && k !in environ ==> spec.environ[k] == this.environ[k]) &&
      spec.cpuCost ==
        (if shortname.Some? && shortname.value in policy.shortnameToCpu
         then policy.shortnameToCpu[shortname.value] else cpuCost) &&
      (HasTimeout(timeoutSeconds) ==> spec.timeoutSeconds == Some(timeoutMultiplier * timeoutSeconds.value)) &&
      (!HasTimeout(timeoutSeconds) ==> spec.timeoutSeconds == None) &&
      spec.flakeRetries == (if IsFlaky(flaky, shortname, policy) || policy.allowFlakes then 4 else 0) &&
      spec.timeoutRetries == (if IsFlaky(flaky, shortname, policy) || policy.allowFlakes then 1 else 0)
    }

    /**
     * `job_spec`: the command runs behind the tool prefix, the job's own
     * environment entries win over the config's, flaky jobs (or all jobs
     * under `--allow_flakes`) get 4 flake retries and 1 timeout retry, a CPU
     * cost override by shortname wins, and a missing or zero timeout means
     * none. The config itself is left as it was.
     */
    method JobSpec(cmdline: seq<string>, timeoutSeconds: Option<real> := Some(DefaultTimeoutSeconds),
                   shortname: Option<string> := None, environ: map<string, string> := map[],
                   cpuCost: real := 1.0, flaky: bool := false, policy: FlakePolicy := FlakePolicy({}, map[], false))
      returns (spec: Jobset.JobSpec)
      ensures Describes(spec, cmdline, timeoutSeconds, shortname, environ, cpuCost, flaky, policy)
    {
      var actualEnviron := this.environ;
      var pending := environ.Keys;
      while pending != {}
        invariant pending <= environ.Keys
        invariant forall k :: k in actualEnviron <==> k in this.environ || (k in environ && k !in pending)
        invariant forall k :: k in environ && k !in pending ==> actualEnviron[k] == environ[k]
        invariant forall k :: k in this.environ && (k !in environ || k in pending) ==>
          actualEnviron[k] == this.environ[k]
        decreases pending
      {
        var k :| k in pending;
        actualEnviron := actualEnviron[k := environ[k]];
        pending := pending - {k};
      }
      var isFlaky := flaky;
      if !isFlaky && shortname.Some? && shortname.value != "" && shortname.value in policy.flakyTests {
        isFlaky := true;
      }
      var cost := cpuCost;
      if shortname.Some? && shortname.value in policy.shortnameToCpu {
        cost := policy.shortnameToCpu[shortname.value];
      }
      var retry := isFlaky || policy.allowFlakes;
      assert retry == (IsFlaky(flaky, shortname, policy) || policy.allowFlakes);
      spec := Jobset.JobSpec(
        toolPrefix + cmdline,
        shortname,
        actualEnviron,
        cost,
        if timeoutSeconds.Some? && timeoutSeconds.value != 0.0
        then Some(timeoutMultiplier * timeoutSeconds.value) else None,
        if retry then 4 else 0,
        if retry then 1 else 0);
    }
  }
}
