/**
 * Folding the results of repeated submissions of one test into run and
 * failure totals, and the per-test verdict the runner prints after the test
 * phase.
 */
module Aggregation {
  import opened Jobset

  /** Attempts beyond the first that a result stands for (negative counts ignored). */
  function ExtraRuns(r: JobResult): int {
    if r.retries > 0 then r.retries else 0
  }

  /** Failed attempts a result stands for (negative counts ignored). */
  function CountedFailures(r: JobResult): int {
    if r.numFailures > 0 then r.numFailures else 0
  }

  /** The sum of `f` over `rs`, taken from the left. */
  function Sum(rs: seq<JobResult>, f: JobResult -> int): int {
    if rs == [] then 0 else Sum(rs[..|rs| - 1], f) + f(rs[|rs| - 1])
  }

  /** Total attempts: one per submission plus its positive retries. */
  function TotalRuns(rs: seq<JobResult>): int {
    |rs| + Sum(rs, ExtraRuns)
  }

  /** Total failed attempts: the positive failure counts added up. */
  function TotalFailures(rs: seq<JobResult>): int {
    Sum(rs, CountedFailures)
  }

  /**
   * `_calculate_num_runs_failures`: one pass over the results of a test,
   * accumulating its runs and failures.
   */
  method CalculateNumRunsFailures(results: seq<JobResult>) returns (numRuns: int, numFailures: int)
    ensures numRuns == TotalRuns(results)
    ensures numFailures == TotalFailures(results)
    ensures numRuns >= |results| && numFailures >= 0
  {
    numRuns := |results|;
    numFailures := 0;
    for i := 0 to |results|
      invariant numRuns == |results| + Sum(results[..i], ExtraRuns)
      invariant numFailures == Sum(results[..i], CountedFailures)
    {
      assert results[..i + 1][..i] == results[..i];
      var jobresult := results[i];
      if jobresult.retries > 0 {
        numRuns := numRuns + jobresult.retries;
      }
      if jobresult.numFailures > 0 {
        numFailures := numFailures + jobresult.numFailures;
      }
    }
    assert results[..|results|] == results;
    SumNonNegative(results, ExtraRuns);
    SumNonNegative(results, CountedFailures);
  }

  lemma {:induction false} SumNonNegative(rs: seq<JobResult>, f: JobResult -> int)
    requires forall r :: f(r) >= 0
    ensures Sum(rs, f) >= 0
  {
    if rs != [] {
      SumNonNegative(rs[..|rs| - 1], f);
    }
  }

  lemma {:induction false} SumConcat(a: seq<JobResult>, b: seq<JobResult>, f: JobResult -> int)
    ensures Sum(a + b, f) == Sum(a, f) + Sum(b, f)
    decreases |b|
  {
    if b == [] {
      assert a + b == a;
    } else {
      assert (a + b)[..|a + b| - 1] == a + b[..|b| - 1];
      SumConcat(a, b[..|b| - 1], f);
    }
  }

  /** A sum does not depend on the order of its terms. */
  lemma {:induction false} SumPermutation(a: seq<JobResult>, b: seq<JobResult>, f: JobResult -> int)
    requires multiset(a) == multiset(b)
    ensures Sum(a, f) == Sum(b, f)
    decreases |a|
  {
    if a != [] {
      var x := a[|a| - 1];
      var a' := a[..|a| - 1];
      assert a == a' + [x];
      assert x in multiset(b);
      var j :| 0 <= j < |b| && b[j] == x;
      var b' := b[..j] + b[j + 1..];
      assert b == b[..j] + [x] + b[j + 1..];
      assert multiset(b) == multiset(b[..j]) + multiset{x} + multiset(b[j + 1..]);
      assert multiset(b') == multiset(b[..j]) + multiset(b[j + 1..]);
      assert multiset(a) == multiset(a') + multiset{x};
      assert multiset(a') == multiset(a) - multiset{x};
      assert multiset(b') == multiset(b) - multiset{x};
      SumPermutation(a', b', f);
      SumConcat(b[..j] + [x], b[j + 1..], f);
      SumConcat(b[..j], [x], f);
      SumConcat(b[..j], b[j + 1..], f);
      assert Sum([x], f) == f(x) by {
        assert [x][..0] == [];
      }
    }
  }

  /**
   * Both totals of a test are the same whatever order its results came back
   * in, so its verdict is too.
   */
  lemma TotalsPermutation(a: seq<JobResult>, b: seq<JobResult>)
    requires multiset(a) == multiset(b)
    ensures TotalRuns(a) == TotalRuns(b) && TotalFailures(a) == TotalFailures(b)
    ensures Classify(TotalRuns(a), TotalFailures(a)) == Classify(TotalRuns(b), TotalFailures(b))
  {
    assert |a| == |multiset(a)| == |multiset(b)| == |b|;
    SumPermutation(a, b, ExtraRuns);
    SumPermutation(a, b, CountedFailures);
  }

  /**
   * A result is consistent when it counts no more failed attempts than it
   * made: `0 <= numFailures <= 1 + retries`.
   */
  predicate Consistent(r: JobResult) {
    0 <= r.numFailures <= 1 + ExtraRuns(r)
  }

  lemma {:induction false} FailuresAtMostRuns(rs: seq<JobResult>)
    requires forall k :: 0 <= k < |rs| ==> Consistent(rs[k])
    ensures 0 <= TotalFailures(rs) <= TotalRuns(rs)
  {
    if rs != [] {
      FailuresAtMostRuns(rs[..|rs| - 1]);
      assert Consistent(rs[|rs| - 1]);
    }
  }

  /**
   * What the runner says about one test after the test phase: nothing when
   * no attempt failed, FAILED when every attempt failed, and otherwise
   * FLAKE with the failure and run counts.
   */
  datatype Verdict = Pass | Fail | Flake(failures: int, runs: int)

  function Classify(numRuns: int, numFailures: int): (v: Verdict)
    ensures v == Pass <==> numFailures <= 0
    ensures v == Fail <==> numFailures > 0 && numFailures == numRuns
    ensures v.Flake? ==> v == Flake(numFailures, numRuns)
  {
    if numFailures > 0 then
      if numFailures == numRuns then Fail else Flake(numFailures, numRuns)
    else Pass
  }

  /**
   * For consistent results a FLAKE verdict means that some attempts failed
   * and some attempts passed.
   */
  lemma FlakeMeansMixed(rs: seq<JobResult>)
    requires forall k :: 0 <= k < |rs| ==> Consistent(rs[k])
    requires Classify(TotalRuns(rs), TotalFailures(rs)).Flake?
    ensures 0 < TotalFailures(rs) < TotalRuns(rs)
  {
    FailuresAtMostRuns(rs);
  }

  /**
   * The message loop after the test phase: for every shortname of the
   * result set, its totals and, when it had any failure, its FAILED or FLAKE
   * verdict. The map holds exactly the tests a message is printed for.
   */
  method ReportVerdicts(resultset: ResultSet) returns (reported: map<string, Verdict>)
    ensures forall k :: k in reported <==> k in resultset && TotalFailures(resultset[k]) > 0
    ensures forall k :: k in reported ==>
      reported[k] == Classify(TotalRuns(resultset[k]), TotalFailures(resultset[k]))
    ensures forall k :: k in reported ==> reported[k] != Pass
  {
    reported := map[];
    var pending := resultset.Keys;
    while pending != {}
      invariant pending <= resultset.Keys
      invariant forall k :: k in reported <==>
        k in resultset && k !in pending && TotalFailures(resultset[k]) > 0
      invariant forall k :: k in reported ==>
        reported[k] == Classify(TotalRuns(resultset[k]), TotalFailures(resultset[k]))
      decreases pending
    {
      var k :| k in pending;
      var numRuns, numFailures := CalculateNumRunsFailures(resultset[k]);
      if numFailures > 0 {
        if numFailures == numRuns {
          reported := reported[k := Fail];
        } else {
          reported := reported[k := Flake(numFailures, numRuns)];
        }
      }
      pending := pending - {k};
    }
  }
}
