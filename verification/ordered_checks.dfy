/** An ordered list of checks that reports the first failing one and never
    accumulates errors: the shape shared by the merchant-payload validator
    and the SDK-configuration check. */
module OrderedChecks {
  import opened Wrappers

  /** One check: whether it holds, and the error reported when it does not. */
  datatype Check<+E> = Check(holds: bool, error: E)

  /** `i` is the position of the first check that does not hold. */
  ghost predicate IsFirstFailure<E>(checks: seq<Check<E>>, i: int) {
    && 0 <= i < |checks|
    && !checks[i].holds
    && forall j :: 0 <= j < i ==> checks[j].holds
  }

  /** Runs the checks in order and stops at the first failure. */
  function FirstFailure<E>(checks: seq<Check<E>>): (r: Outcome<E>)
    ensures r.Pass? <==> forall i :: 0 <= i < |checks| ==> checks[i].holds
    ensures r.Fail? ==> exists i :: IsFirstFailure(checks, i) && checks[i].error == r.error
  {
    if checks == [] then Pass
    else if !checks[0].holds then
      assert IsFirstFailure(checks, 0);
      Fail(checks[0].error)
    else
      var rest := FirstFailure(checks[1..]);
      assert rest.Fail? ==> exists i :: IsFirstFailure(checks[1..], i) && checks[1..][i].error == rest.error;
      assert forall i :: IsFirstFailure(checks[1..], i) ==> IsFirstFailure(checks, i + 1);
      rest
  }
}
