/**
 * Watch mode (`--forever`): the runner repeats a pass whenever the source
 * tree changes and is meant to announce when a failing tree starts passing
 * again. `outs[i]` is the failure list returned by the i-th pass; the
 * result says, pass by pass, whether the SUCCESS notice is printed.
 */
module Watch {
  import opened Phases

  /**
   * The test `_build_and_run(...) == 0` as written: it compares the returned
   * list with the integer 0, which in Python is never equal.
   */
  function ListEqualsZero(out: seq<BuildAndRunError>): bool {
    false
  }

  /** The watch loop as written: `success` starts true and is never updated. */
  method WatchAsWritten(outs: seq<seq<BuildAndRunError>>) returns (notices: seq<bool>)
    ensures |notices| == |outs|
    ensures forall i :: 0 <= i < |outs| ==> !notices[i]
  {
    var success := true;
    notices := [];
    var i := 0;
    while i < |outs|
      invariant 0 <= i <= |outs|
      invariant |notices| == i
      invariant success
      invariant forall j :: 0 <= j < i ==> !notices[j]
    {
      var previousSuccess := success;
      var errors := ListEqualsZero(outs[i]);
      notices := notices + [!previousSuccess && !errors];
      i := i + 1;
    }
  }

  /** The notice the loop is meant to give: this pass passed and the one before did not. */
  predicate Recovered(outs: seq<seq<BuildAndRunError>>, i: nat)
    requires i < |outs|
  {
    i > 0 && outs[i] == [] && outs[i - 1] != []
  }

  /**
   * The watch loop as intended: `success` records whether the latest pass
   * returned no failures, and the notice is printed on the first passing
   * pass after a failing one.
   */
  method Watch(outs: seq<seq<BuildAndRunError>>) returns (notices: seq<bool>)
    ensures |notices| == |outs|
    ensures forall i :: 0 <= i < |outs| ==> (notices[i] <==> Recovered(outs, i))
  {
    var success := true;
    notices := [];
    var i := 0;
    while i < |outs|
      invariant 0 <= i <= |outs|
      invariant |notices| == i
      invariant success <==> i == 0 || outs[i - 1] == []
      invariant forall j :: 0 <= j < i ==> (notices[j] <==> Recovered(outs, j))
    {
      var previousSuccess := success;
      var errors := outs[i];
      success := errors == [];
      notices := notices + [!previousSuccess && success];
      i := i + 1;
    }
  }
}
