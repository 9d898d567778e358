/**
 * The feedback page controller (src/app/feedback/page.tsx): the form state,
 * `validateForm`, `handleChange` and the state flow of `handleSubmit`.
 *
 * `submitToGoogleSheet` is not modelled: its outcome is a parameter, either a
 * resolved `{success, message}` or a thrown error. `handleSubmit` awaits it,
 * so the handler is split at the `await` into `BeginSubmit` and
 * `FinishSubmit`; `HandleSubmit` runs the two back to back.
 */
module FeedbackPage {
  import opened Wrappers
  import opened FormRules

  /** How the submission call ended. */
  datatype SubmitOutcome = Resolved(success: bool, message: string) | Threw

  /** The banner under the form: nothing, a success message or an error message. */
  datatype StatusKind = NoStatus | SuccessStatus | ErrorStatus
  datatype SubmitStatus = SubmitStatus(kind: StatusKind, message: string)

  const SuccessMessage := "Thanks for your feedback! We appreciate your input."
  const GenericErrorMessage := "An error occurred. Please try again."

  /** The four inputs of the form; `website` is the hidden honeypot. */
  const FormFields: set<string> := {"name", "email", "comment", "website"}

  /** The form as it starts and as a successful submission leaves it. */
  function EmptyForm(): (f: map<string, string>)
    ensures f.Keys == FormFields
    ensures forall k :: k in f ==> f[k] == ""
  {
    map["name" := "", "email" := "", "comment" := "", "website" := ""]
  }

  /** The request body: the three visible fields and the form type, never the honeypot. */
  function FeedbackPayload(formData: map<string, string>): (p: map<string, string>)
    requires FormFields <= formData.Keys
    ensures p.Keys == {"name", "email", "comment", "type"}
    ensures "website" !in p && p["type"] == "feedback"
    ensures forall k :: k in p && k != "type" ==> p[k] == formData[k]
  {
    map["name" := formData["name"], "email" := formData["email"],
        "comment" := formData["comment"], "type" := "feedback"]
  }

  /** `Object.keys(m).length === 0` holds exactly for the empty map. */
  lemma NoKeysIffEmpty(m: map<string, string>)
    ensures |m| == 0 <==> m == map[]
  {
    if m != map[] {
      var k :| k in m;
      assert k in m.Keys;
    }
  }

  class Feedback {
    var formData: map<string, string>
    var errors: map<string, string>
    var isSubmitting: bool
    var submitStatus: SubmitStatus

    /** The four inputs are always present in the form data. */
    ghost predicate Valid()
      reads this
    {
      FormFields <= formData.Keys
    }

    /** The page's initial state. */
    constructor ()
      ensures Valid()
      ensures formData == EmptyForm() && errors == map[]
      ensures !isSubmitting && submitStatus == SubmitStatus(NoStatus, "")
    {
      formData := EmptyForm();
      errors := map[];
      isSubmitting := false;
      submitStatus := SubmitStatus(NoStatus, "");
    }

    /**
     * `disabled={isSubmitting}` on the submit button: it is enabled exactly
     * while no submission is in flight. It is the page's only protection
     * against a second submit (see `SubmitTwiceWhilePending`).
     */
    predicate SubmitButtonEnabled()
      reads this
    {
      !isSubmitting
    }

    /**
     * `validateForm`: a filled honeypot fails silently, leaving the errors as
     * they were; otherwise every violated rule is recorded and the form is
     * valid exactly when none was.
     */
    method ValidateForm() returns (valid: bool)
      requires Valid()
      modifies this`errors
      ensures formData["website"] != "" ==> !valid && errors == old(errors)
      ensures formData["website"] == "" ==>
        && errors == ValidationErrors(formData["name"], formData["email"], formData["comment"])
        && (valid <==> errors == map[])
    {
      var newErrors: map<string, string> := map[];
      if formData["website"] != "" {
        return false;
      }
      var name, email, comment := formData["name"], formData["email"], formData["comment"];
      var nameBlank, emailBlank, emailValid, commentBlank :=
        IsBlank(name), IsBlank(email), IsValidEmail(email), IsBlank(comment);
      if nameBlank {
        newErrors := newErrors["name" := NameRequired];
      }
      if emailBlank {
        newErrors := newErrors["email" := EmailRequired];
      } else if !emailValid {
        newErrors := newErrors["email" := EmailInvalid];
      }
      if commentBlank {
        newErrors := newErrors["comment" := FeedbackRequired];
      }
      assert newErrors == ErrorsFor(nameBlank, emailBlank, emailValid, commentBlank);
      errors := newErrors;
      valid := |newErrors| == 0;
      NoKeysIffEmpty(newErrors);
    }

    /**
     * `handleChange`: stores the new value under the input's name and clears
     * that input's error, but only when it had a non-empty one.
     */
    method HandleChange(name: string, value: string)
      requires Valid()
      modifies this`formData, this`errors
      ensures Valid()
      ensures formData == old(formData)[name := value]
      ensures errors == if name in old(errors) && old(errors)[name] != ""
                        then old(errors)[name := ""] else old(errors)
    {
      formData := formData[name := value];
      if name in errors && errors[name] != "" {
        errors := errors[name := ""];
      }
    }

    /**
     * `handleSubmit` up to the `await`: when the form validates, marks the
     * submission in flight, clears the banner and returns the payload handed
     * to the submission call; otherwise nothing is sent and only the errors
     * may change.
     */
    method BeginSubmit() returns (payload: Option<map<string, string>>)
      requires Valid()
      modifies this`errors, this`isSubmitting, this`submitStatus
      ensures Valid() && formData == old(formData)
      ensures formData["website"] != "" ==> errors == old(errors)
      ensures formData["website"] == "" ==>
        errors == ValidationErrors(formData["name"], formData["email"], formData["comment"])
      ensures payload.Some? <==> formData["website"] == "" && errors == map[]
      ensures payload.None? ==> isSubmitting == old(isSubmitting) && submitStatus == old(submitStatus)
      ensures payload.Some? ==>
        && payload.value == FeedbackPayload(formData)
        && isSubmitting && submitStatus == SubmitStatus(NoStatus, "")
    {
      var valid := ValidateForm();
      if !valid {
        return None;
      }
      isSubmitting := true;
      submitStatus := SubmitStatus(NoStatus, "");
      payload := Some(FeedbackPayload(formData));
    }

    /**
     * `handleSubmit` after the `await`: success clears the form and shows the
     * thank-you banner; a failed result keeps the form and shows its message;
     * a thrown error keeps the form and shows the generic message. The
     * submission is no longer in flight in every case.
     */
    method FinishSubmit(outcome: SubmitOutcome)
      requires Valid()
      modifies this`formData, this`isSubmitting, this`submitStatus
      ensures Valid() && !isSubmitting
      ensures outcome.Resolved? && outcome.success ==>
        formData == EmptyForm() && submitStatus == SubmitStatus(SuccessStatus, SuccessMessage)
      ensures outcome.Resolved? && !outcome.success ==>
        formData == old(formData) && submitStatus == SubmitStatus(ErrorStatus, outcome.message)
      ensures outcome.Threw? ==>
        formData == old(formData) && submitStatus == SubmitStatus(ErrorStatus, GenericErrorMessage)
    {
      match outcome {
        case Resolved(success, message) =>
          if success {
            submitStatus := SubmitStatus(SuccessStatus, SuccessMessage);
            formData := EmptyForm();
          } else {
            submitStatus := SubmitStatus(ErrorStatus, message);
          }
        case Threw =>
          submitStatus := SubmitStatus(ErrorStatus, GenericErrorMessage);
      }
      isSubmitting := false;
    }

    /**
     * The whole of `handleSubmit`, with `outcome` standing for what the
     * submission call does if it is made.
     */
    method HandleSubmit(outcome: SubmitOutcome) returns (payload: Option<map<string, string>>)
      requires Valid()
      modifies this`formData, this`errors, this`isSubmitting, this`submitStatus
      ensures Valid()
      ensures old(formData)["website"] != "" ==> errors == old(errors)
      ensures old(formData)["website"] == "" ==>
        errors == ValidationErrors(old(formData)["name"], old(formData)["email"], old(formData)["comment"])
      ensures payload.Some? <==> old(formData)["website"] == "" && errors == map[]
      ensures payload.None? ==>
        && formData == old(formData)
        && isSubmitting == old(isSubmitting) && submitStatus == old(submitStatus)
      ensures payload.Some? ==>
        && payload.value == FeedbackPayload(old(formData))
        && "website" !in payload.value
        && !isSubmitting
      ensures payload.Some? && outcome.Resolved? && outcome.success ==>
        formData == EmptyForm() && submitStatus == SubmitStatus(SuccessStatus, SuccessMessage)
      ensures payload.Some? && outcome.Resolved? && !outcome.success ==>
        formData == old(formData) && submitStatus == SubmitStatus(ErrorStatus, outcome.message)
      ensures payload.Some? && outcome.Threw? ==>
        formData == old(formData) && submitStatus == SubmitStatus(ErrorStatus, GenericErrorMessage)
    {
      payload := BeginSubmit();
      if payload.Some? {
        FinishSubmit(outcome);
      }
    }
  }

  /**
   * Two submit events, the second arriving while the first call is still
   * awaited. `handleSubmit` has no guard of its own, so both pass validation
   * and both send the same payload; only the disabled button, switched off by
   * the first submit, keeps a visitor from doing this.
   */
  method SubmitTwiceWhilePending(page: Feedback)
    returns (first: Option<map<string, string>>, enabledBetween: bool, second: Option<map<string, string>>)
    requires page.Valid() && page.formData["website"] == ""
    requires ValidationErrors(page.formData["name"], page.formData["email"], page.formData["comment"]) == map[]
    modifies page
    ensures first.Some? && second.Some? && first == second
    ensures !enabledBetween
    ensures page.isSubmitting
  {
    first := page.BeginSubmit();
    enabledBetween := page.SubmitButtonEnabled();
    second := page.BeginSubmit();
  }

  /**
   * A visitor fills in name, email and feedback that pass the rules and
   * submits, and the call succeeds: exactly those three fields and the form type are sent, the
   * form is cleared and the thank-you banner shows.
   */
  method SubmitFeedback(name: string, email: string, comment: string)
    returns (page: Feedback, payload: Option<map<string, string>>)
    requires ValidationErrors(name, email, comment) == map[]
    ensures payload == Some(map["name" := name, "email" := email,
                                "comment" := comment, "type" := "feedback"])
    ensures page.formData == EmptyForm() && !page.isSubmitting
    ensures page.submitStatus == SubmitStatus(SuccessStatus, SuccessMessage)
  {
    page := new Feedback();
    page.HandleChange("name", name);
    page.HandleChange("email", email);
    page.HandleChange("comment", comment);
    ghost var filled := page.formData;
    assert filled["name"] == name && filled["email"] == email;
    assert filled["comment"] == comment && filled["website"] == "";
    payload := page.HandleSubmit(Resolved(true, "Form submitted successfully"));
  }
}
