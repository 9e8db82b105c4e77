/**
 * How the test phase's job stream is formed from the selected test jobs:
 * the deterministic order used on CI (ascending CPU cost), the random
 * sample used elsewhere, and the repetition for `--runs_per_test`.
 */
module RunPlan {
  import opened Base
  import opened Jobset

  predicate SortedByCost(s: seq<JobSpec>) {
    forall i, j :: 0 <= i < j < |s| ==> s[i].cpuCost <= s[j].cpuCost
  }

  /** `x` placed into the cost-sorted `s` after every job that costs no more. */
  function InsertByCost(x: JobSpec, s: seq<JobSpec>): (r: seq<JobSpec>)
    requires SortedByCost(s)
    ensures SortedByCost(r)
    ensures multiset(r) == multiset(s) + multiset{x}
    ensures |r| == |s| + 1 && (r[0] == x || (s != [] && r[0] == s[0]))
  {
    if s == [] then [x]
    else if x.cpuCost < s[0].cpuCost then [x] + s
    else
      var rest := InsertByCost(x, s[1..]);
      assert s == [s[0]] + s[1..];
      assert s[0].cpuCost <= rest[0].cpuCost;
      [s[0]] + rest
  }

  /**
   * Python's `sorted(jobs, key=lambda x: x.cpu_cost)`: a stable sort by
   * ascending CPU cost, so the result is ordered and holds exactly the
   * same jobs, and jobs of equal cost keep their order (`SortByCostStable`).
   */
  function SortByCost(s: seq<JobSpec>): (r: seq<JobSpec>)
    ensures SortedByCost(r)
    ensures multiset(r) == multiset(s)
  {
    if s == [] then []
    else
      assert s == s[..|s| - 1] + [s[|s| - 1]];
      InsertByCost(s[|s| - 1], SortByCost(s[..|s| - 1]))
  }

  /** The jobs of `s` that cost exactly `cost`, in their order in `s`. */
  function WithCost(s: seq<JobSpec>, cost: real): (r: seq<JobSpec>)
    ensures |r| <= |s|
  {
    if s == [] then []
    else (if s[0].cpuCost == cost then [s[0]] else []) + WithCost(s[1..], cost)
  }

  lemma {:induction false} WithCostAppend(a: seq<JobSpec>, b: seq<JobSpec>, cost: real)
    ensures WithCost(a + b, cost) == WithCost(a, cost) + WithCost(b, cost)
  {
    if a != [] {
      WithCostAppend(a[1..], b, cost);
      assert (a + b)[1..] == a[1..] + b;
    } else {
      assert a + b == b;
    }
  }

  /** A cost-sorted list whose first job costs more than `cost` has no job of that cost. */
  lemma {:induction false} WithCostAbove(s: seq<JobSpec>, cost: real)
    requires SortedByCost(s)
    requires s != [] ==> cost < s[0].cpuCost
    ensures WithCost(s, cost) == []
  {
    if |s| > 1 {
      assert s[0].cpuCost <= s[1].cpuCost;
      WithCostAbove(s[1..], cost);
    }
  }

  /** The inserted job comes after every job of the same cost. */
  lemma {:induction false} InsertByCostStable(x: JobSpec, s: seq<JobSpec>, cost: real)
    requires SortedByCost(s)
    ensures WithCost(InsertByCost(x, s), cost) ==
      WithCost(s, cost) + (if x.cpuCost == cost then [x] else [])
    decreases |s|
  {
    if s == [] || x.cpuCost < s[0].cpuCost {
      InsertFrontStable(x, s, cost);
    } else {
      InsertByCostStable(x, s[1..], cost);
      InsertLaterStable(x, s, cost);
    }
  }

  lemma InsertFrontStable(x: JobSpec, s: seq<JobSpec>, cost: real)
    requires SortedByCost(s)
    requires s == [] || x.cpuCost < s[0].cpuCost
    ensures WithCost(InsertByCost(x, s), cost) ==
      WithCost(s, cost) + (if x.cpuCost == cost then [x] else [])
  {
    InsertByCostStep(x, s);
    WithCostCons(x, s, cost);
    if x.cpuCost == cost {
      WithCostAbove(s, cost);
    }
  }

  lemma InsertLaterStable(x: JobSpec, s: seq<JobSpec>, cost: real)
    requires SortedByCost(s)
    requires s != [] && s[0].cpuCost <= x.cpuCost
    requires WithCost(InsertByCost(x, s[1..]), cost) ==
      WithCost(s[1..], cost) + (if x.cpuCost == cost then [x] else [])
    ensures WithCost(InsertByCost(x, s), cost) ==
      WithCost(s, cost) + (if x.cpuCost == cost then [x] else [])
  {
    InsertByCostStep(x, s);
    WithCostConsBoth(s[0], InsertByCost(x, s[1..]), s[1..], if x.cpuCost == cost then [x] else [], cost);
    assert [s[0]] + s[1..] == s;
  }

  /** A job put in front of two lists whose `cost` jobs differ by a suffix. */
  lemma WithCostConsBoth(y: JobSpec, a: seq<JobSpec>, b: seq<JobSpec>, t: seq<JobSpec>, cost: real)
    requires WithCost(a, cost) == WithCost(b, cost) + t
    ensures WithCost([y] + a, cost) == WithCost([y] + b, cost) + t
  {
    var head := if y.cpuCost == cost then [y] else [];
    WithCostCons(y, a, cost);
    WithCostCons(y, b, cost);
    assert head + (WithCost(b, cost) + t) == (head + WithCost(b, cost)) + t;
  }

  lemma InsertByCostStep(x: JobSpec, s: seq<JobSpec>)
    requires SortedByCost(s)
    ensures s == [] ==> InsertByCost(x, s) == [x]
    ensures s != [] && x.cpuCost < s[0].cpuCost ==> InsertByCost(x, s) == [x] + s
    ensures s != [] && s[0].cpuCost <= x.cpuCost ==> InsertByCost(x, s) == [s[0]] + InsertByCost(x, s[1..])
  {
  }

  lemma WithCostCons(y: JobSpec, t: seq<JobSpec>, cost: real)
    ensures WithCost([y] + t, cost) == (if y.cpuCost == cost then [y] else []) + WithCost(t, cost)
  {
    assert ([y] + t)[1..] == t;
  }

  /**
   * `sorted` is stable: for every cost, the jobs of that cost appear in the
   * result in the order they had in the input.
   */
  lemma {:induction false} SortByCostStable(s: seq<JobSpec>, cost: real)
    ensures WithCost(SortByCost(s), cost) == WithCost(s, cost)
  {
    if s != [] {
      var init, last := s[..|s| - 1], s[|s| - 1];
      SortByCostStable(init, cost);
      SortByCostLast(s);
      InsertByCostStable(last, SortByCost(init), cost);
      WithCostLast(s, cost);
    }
  }

  lemma SortByCostLast(s: seq<JobSpec>)
    requires s != []
    ensures SortByCost(s) == InsertByCost(s[|s| - 1], SortByCost(s[..|s| - 1]))
  {
  }

  lemma WithCostLast(s: seq<JobSpec>, cost: real)
    requires s != []
    ensures WithCost(s, cost) ==
      WithCost(s[..|s| - 1], cost) + (if s[|s| - 1].cpuCost == cost then [s[|s| - 1]] else [])
  {
    var init, last := s[..|s| - 1], s[|s| - 1];
    assert s == init + [last];
    WithCostAppend(init, [last], cost);
    assert [last][1..] == [];
  }

  /** `s` concatenated `n` times (`itertools.repeat(s, n)` flattened). */
  function Repeat(s: seq<JobSpec>, n: nat): (r: seq<JobSpec>)
    ensures |r| == n * |s|
  {
    if n == 0 then [] else s + Repeat(s, n - 1)
  }

  /** Position `i` of the repeated stream is position `i mod |s|` of one run. */
  lemma {:induction false} RepeatAt(s: seq<JobSpec>, n: nat, i: nat)
    requires i < |Repeat(s, n)|
    ensures |s| > 0 && Repeat(s, n)[i] == s[i % |s|]
  {
    assert n > 0 && |s| > 0;
    var rest := Repeat(s, n - 1);
    assert Repeat(s, n) == s + rest;
    if i < |s| {
      assert i % |s| == i;
    } else {
      ModShift(i - |s|, |s|);
      RepeatAt(s, n - 1, i - |s|);
    }
  }

  lemma ModShift(k: nat, m: nat)
    requires m > 0
    ensures (k + m) % m == k % m
  {
    var q, r := k / m, k % m;
    assert k == q * m + r && 0 <= r < m;
    assert k + m == (q + 1) * m + r;
    var q', r' := (k + m) / m, (k + m) % m;
    assert k + m == q' * m + r' && 0 <= r' < m;
    assert (q + 1 - q') * m == r' - r;
    if q + 1 - q' > 0 {
      MulAtLeast(q + 1 - q', m);
    } else if q + 1 - q' < 0 {
      assert (q' - q - 1) * m == r - r';
      MulAtLeast(q' - q - 1, m);
    }
  }

  lemma MulAtLeast(d: int, m: int)
    requires d >= 1 && m > 0
    ensures d * m >= m
  {
    assert d * m == (d - 1) * m + m;
    assert (d - 1) * m >= 0;
  }

  /** Every repetition holds every job of the run once more. */
  lemma {:induction false} RepeatMultiset(s: seq<JobSpec>, n: nat, x: JobSpec)
    ensures multiset(Repeat(s, n))[x] == n * multiset(s)[x]
  {
    if n > 0 {
      RepeatMultiset(s, n - 1, x);
      assert multiset(Repeat(s, n)) == multiset(s) + multiset(Repeat(s, n - 1));
      assert n * multiset(s)[x] == multiset(s)[x] + (n - 1) * multiset(s)[x];
    }
  }

  /**
   * The test phase's job stream: finitely many jobs, or one run repeated
   * for ever (`--runs_per_test inf`).
   */
  datatype JobStream = Finite(jobs: seq<JobSpec>) | Forever(cycle: seq<JobSpec>)

  /** The two configuration errors that abort the pass before any test runs. */
  datatype PlanError =
    | SamplingOverRuns       // "Can't do sampling (-p) over multiple runs (-n)."
    | NoTestsForInfiniteRun  // "Must have at least one test for a -n inf run"

  /** The deterministic order is used on CI when no time budget is set. */
  predicate Deterministic(travis: bool, maxTime: int) {
    travis && maxTime <= 0
  }

  /**
   * One run of the selected jobs: sorted by cost in the deterministic
   * mode, otherwise the random sample the caller drew.
   */
  function OneRun(selected: seq<JobSpec>, travis: bool, maxTime: int, sample: seq<JobSpec>): (r: seq<JobSpec>)
    ensures Deterministic(travis, maxTime) ==> SortedByCost(r) && multiset(r) == multiset(selected)
    ensures !Deterministic(travis, maxTime) ==> r == sample
  {
    if Deterministic(travis, maxTime) then SortByCost(selected) else sample
  }

  /**
   * The job stream of the test phase. `selected` is the set of test jobs
   * left after name filtering, in the set's iteration order. `sample` is
   * what `random.sample` drew from them and `fullSample` says whether the
   * sample percentage is 100; both matter only outside the deterministic
   * mode. `runsPerTest` is 0 for `inf`.
   */
  function ExpandRuns(selected: seq<JobSpec>, runsPerTest: nat, travis: bool, maxTime: int,
                      fullSample: bool, sample: seq<JobSpec>): (r: Result<JobStream, PlanError>)
    requires multiset(sample) <= multiset(selected)
    requires fullSample ==> multiset(sample) == multiset(selected)
    ensures r == Err(SamplingOverRuns) <==>
      !Deterministic(travis, maxTime) && !fullSample && runsPerTest != 1
    ensures r == Err(NoTestsForInfiniteRun) <==>
      (Deterministic(travis, maxTime) || fullSample || runsPerTest == 1) &&
      runsPerTest == 0 && |OneRun(selected, travis, maxTime, sample)| == 0
    ensures r.Ok? && r.value.Finite? ==>
      runsPerTest > 0 && r.value.jobs == Repeat(OneRun(selected, travis, maxTime, sample), runsPerTest)
    ensures r.Ok? && r.value.Forever? ==>
      runsPerTest == 0 && |r.value.cycle| > 0 && r.value.cycle == OneRun(selected, travis, maxTime, sample)
    ensures r.Ok? && runsPerTest > 0 ==> r.value.Finite?
  {
    var oneRun := OneRun(selected, travis, maxTime, sample);
    if !Deterministic(travis, maxTime) && !fullSample && runsPerTest != 1 then Err(SamplingOverRuns)
    else if runsPerTest == 0 then
      if |oneRun| > 0 then Ok(Forever(oneRun)) else Err(NoTestsForInfiniteRun)
    else Ok(Finite(Repeat(oneRun, runsPerTest)))
  }

  /**
   * One run holds exactly the selected jobs whenever nothing is sampled
   * away, and in the deterministic mode it is also ordered by cost.
   */
  lemma OneRunIsPermutation(selected: seq<JobSpec>, travis: bool, maxTime: int,
                            fullSample: bool, sample: seq<JobSpec>)
    requires fullSample ==> multiset(sample) == multiset(selected)
    requires Deterministic(travis, maxTime) || fullSample
    ensures multiset(OneRun(selected, travis, maxTime, sample)) == multiset(selected)
    ensures Deterministic(travis, maxTime) ==> SortedByCost(OneRun(selected, travis, maxTime, sample))
  {
  }

  /**
   * With `n` finite runs and nothing sampled away, the stream holds
   * `n * |selected|` jobs and each selected job `n` times.
   */
  lemma FiniteRunsCount(selected: seq<JobSpec>, runsPerTest: nat, travis: bool, maxTime: int,
                        fullSample: bool, sample: seq<JobSpec>, x: JobSpec)
    requires multiset(sample) <= multiset(selected)
    requires fullSample ==> multiset(sample) == multiset(selected)
    requires Deterministic(travis, maxTime) || fullSample
    requires runsPerTest > 0
    ensures ExpandRuns(selected, runsPerTest, travis, maxTime, fullSample, sample).Ok?
    ensures var jobs := ExpandRuns(selected, runsPerTest, travis, maxTime, fullSample, sample).value.jobs;
      |jobs| == runsPerTest * |selected| && multiset(jobs)[x] == runsPerTest * multiset(selected)[x]
  {
    var oneRun := OneRun(selected, travis, maxTime, sample);
    OneRunIsPermutation(selected, travis, maxTime, fullSample, sample);
    assert |oneRun| == |multiset(oneRun)| == |multiset(selected)| == |selected|;
    RepeatMultiset(oneRun, runsPerTest, x);
  }
}
