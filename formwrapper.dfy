/**
 * The generic form wrapper (src/components/form/FormWrapper.tsx): a guard
 * flag that lets only one submission through at a time. The awaited
 * `onSubmit` callback is not modelled; whether the form has one and how the
 * call ends are parameters, and `handleSubmit` is split at the `await` into
 * `BeginSubmit` and `FinishSubmit`. The `loading` property is accepted and
 * ignored, so it has no counterpart here.
 */
module FormWrapper {

  /** How the awaited callback ended. */
  datatype CallbackOutcome = Resolved | Rejected

  class FormWrapper {
    var isSubmitting: bool
    /** One entry per call of the callback: the value of `isSubmitting` when it was made. */
    var invocations: seq<bool>
    /** How many callback errors were caught and logged. */
    var loggedErrors: nat

    constructor ()
      ensures !isSubmitting && invocations == [] && loggedErrors == 0
    {
      isSubmitting := false;
      invocations := [];
      loggedErrors := 0;
    }

    /**
     * `handleSubmit` up to the `await`: a submit while one is in flight, or
     * on a form without a callback, does nothing; otherwise the flag is set
     * and then the callback is called, once.
     */
    method BeginSubmit(hasHandler: bool) returns (accepted: bool)
      modifies this
      ensures accepted <==> !old(isSubmitting) && hasHandler
      ensures loggedErrors == old(loggedErrors)
      ensures !accepted ==> isSubmitting == old(isSubmitting) && invocations == old(invocations)
      ensures accepted ==> isSubmitting && invocations == old(invocations) + [true]
    {
      if isSubmitting || !hasHandler {
        return false;
      }
      isSubmitting := true;
      invocations := invocations + [isSubmitting];
      accepted := true;
    }

    /**
     * `handleSubmit` after the `await`: a rejected callback is caught and
     * logged, never rethrown, and the flag is cleared either way.
     */
    method FinishSubmit(outcome: CallbackOutcome)
      modifies this
      ensures !isSubmitting && invocations == old(invocations)
      ensures loggedErrors == old(loggedErrors) + (if outcome == Rejected then 1 else 0)
    {
      if outcome == Rejected {
        loggedErrors := loggedErrors + 1;
      }
      isSubmitting := false;
    }

    /** The whole of `handleSubmit` for one submit event. */
    method HandleSubmit(hasHandler: bool, outcome: CallbackOutcome) returns (invoked: bool)
      modifies this
      ensures invoked <==> !old(isSubmitting) && hasHandler
      ensures !invoked ==>
        isSubmitting == old(isSubmitting) && invocations == old(invocations) && loggedErrors == old(loggedErrors)
      ensures invoked ==>
        && !isSubmitting
        && invocations == old(invocations) + [true]
        && loggedErrors == old(loggedErrors) + (if outcome == Rejected then 1 else 0)
    {
      invoked := BeginSubmit(hasHandler);
      if invoked {
        FinishSubmit(outcome);
      }
    }
  }

  /**
   * Two submit events, the second arriving while the first is still awaited:
   * the callback runs once, and the form is ready again once the first
   * settles.
   */
  method DoubleSubmit(form: FormWrapper, outcome: CallbackOutcome)
    requires !form.isSubmitting
    modifies form
    ensures !form.isSubmitting
    ensures form.invocations == old(form.invocations) + [true]
  {
    var first := form.BeginSubmit(true);
    var second := form.BeginSubmit(true);
    assert first && !second;
    form.FinishSubmit(outcome);
  }
}
