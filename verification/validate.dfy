/**
  The source's `Validate(plugins)`: walk the list in order, call `Validate()`
  on each plugin that is a `Validator`, and return the first non-nil error at
  once; return nil when no validator fails. Validation reads the plugins and
  returns only an outcome, so it cannot change any of them.
*/
module Validation {
  import opened Wrappers
  import opened Plugins

  /** Plugin `k` is the first plugin of the list whose validator fails. */
  ghost predicate FirstFailure<C, P, A, R, G>(plugins: seq<Plugin<C, P, A, R, G>>, k: int) {
    && 0 <= k < |plugins|
    && Fails(plugins[k])
    && forall j :: 0 <= j < k ==> !Fails(plugins[j])
  }

  /** `Validate()` is called on plugin `k`: it is a `Validator` and no
      plugin before it failed. */
  ghost predicate Invoked<C, P, A, R, G>(plugins: seq<Plugin<C, P, A, R, G>>, k: int) {
    && 0 <= k < |plugins|
    && IsValidator(plugins[k])
    && forall j :: 0 <= j < k ==> !Fails(plugins[j])
  }

  /** The outcome of `Validate(plugins)`: `Pass` exactly when no validator
      fails, and otherwise the error of the first failing plugin. */
  function Validate<C, P, A, R, G>(plugins: seq<Plugin<C, P, A, R, G>>): (r: Outcome<string>)
    ensures r.Pass? <==> forall k :: 0 <= k < |plugins| ==> !Fails(plugins[k])
    ensures forall k :: FirstFailure(plugins, k) ==> r == plugins[k].validator.value
    decreases |plugins|
  {
    if plugins == [] then Pass
    else
      match plugins[0].validator
      case Some(Fail(e)) => Fail(e)
      case _ =>
        var r := Validate(plugins[1..]);
        assert forall k :: FirstFailure(plugins, k) ==> FirstFailure(plugins[1..], k - 1);
        r
  }

  /** The source's loop. Besides the error it returns the indices of the
      plugins whose `Validate()` it called, in call order. */
  method ValidateChain<C, P, A, R, G>(
      plugins: seq<Plugin<C, P, A, R, G>>
  ) returns (err: Outcome<string>, calls: seq<nat>)
    ensures err == Validate(plugins)
    ensures forall k :: 0 <= k < |plugins| ==> (k in calls <==> Invoked(plugins, k))
    ensures forall a :: 0 <= a < |calls| ==> calls[a] < |plugins|
    ensures forall a, b :: 0 <= a < b < |calls| ==> calls[a] < calls[b]
    ensures err.Fail? ==> |calls| > 0 && FirstFailure(plugins, calls[|calls| - 1])
  {
    calls := [];
    var k := 0;
    while k < |plugins|
      invariant 0 <= k <= |plugins|
      invariant forall j :: 0 <= j < k ==> !Fails(plugins[j])
      invariant forall j :: 0 <= j < |plugins| ==>
        (j in calls <==> j < k && IsValidator(plugins[j]))
      invariant forall a, b :: 0 <= a < b < |calls| ==> calls[a] < calls[b]
      invariant forall a :: 0 <= a < |calls| ==> calls[a] < k
      decreases |plugins| - k
    {
      match plugins[k].validator {
        case Some(outcome) =>
          calls := calls + [k];
          if outcome.Fail? {
            assert FirstFailure(plugins, k);
            return outcome, calls;
          }
        case None =>
      }
      k := k + 1;
    }
    err := Pass;
  }

  /** Fail-fast composition: validating `a + b` is validating `a`, and only
      when `a` passes, validating `b`. */
  lemma {:induction false} ValidateAppend<C, P, A, R, G>(
      a: seq<Plugin<C, P, A, R, G>>, b: seq<Plugin<C, P, A, R, G>>
  )
    ensures Validate(a + b) == if Validate(a).Fail? then Validate(a) else Validate(b)
    decreases |a|
  {
    if a == [] {
      assert a + b == b;
    } else {
      assert (a + b)[1..] == a[1..] + b;
      ValidateAppend(a[1..], b);
    }
  }

  /** Validation depends on the validators alone: two lists of the same
      length whose plugins have the same validators validate alike,
      whatever collaborators they hold. */
  lemma {:induction false} ValidateReadsOnlyValidators<C, P, A, R, G>(
      a: seq<Plugin<C, P, A, R, G>>, b: seq<Plugin<C, P, A, R, G>>
  )
    requires |a| == |b|
    requires forall k :: 0 <= k < |a| ==> a[k].validator == b[k].validator
    ensures Validate(a) == Validate(b)
    decreases |a|
  {
    if a != [] {
      ValidateReadsOnlyValidators(a[1..], b[1..]);
    }
  }
}
