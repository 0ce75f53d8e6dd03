/**
 * The sign-up page: its ordered form checks, the registration request and sign-in that
 * follow, and the message shown when either fails.
 *
 * Submission is split at its one wait: `HandleSubmit` runs the checks and sends the
 * registration request; `SubmitSettled` receives how the request and the sign-in ended.
 */
module SignUp {
  import opened Wrappers
  import opened Strings
  import opened RequestErrors

  datatype Form = Form(name: string, username: string, email: string, password: string,
                       confirmPassword: string, agreeToTerms: bool)

  const EmptyForm := Form("", "", "", "", "", false)

  const FillAllFields := "Please fill in all fields."
  const PasswordsDiffer := "Passwords do not match."
  const PasswordTooShort := "Password must be at least 8 characters long."
  const MustAgree := "You must agree to the terms and conditions."
  const RegistrationFailed := "An error occurred during registration."

  /** Only the empty string is missing: a field of spaces counts as filled. */
  predicate AllFilled(f: Form)
  {
    f.name != "" && f.username != "" && f.email != "" && f.password != "" && f.confirmPassword != ""
  }

  /** The checks of `handleSubmit` in order; the first that fails decides the message. */
  function Validate(f: Form): (r: Option<string>)
    ensures r.None? <==> AllFilled(f) && f.password == f.confirmPassword && |f.password| >= 8 && f.agreeToTerms
    ensures !AllFilled(f) ==> r == Some(FillAllFields)
    ensures AllFilled(f) && f.password != f.confirmPassword ==> r == Some(PasswordsDiffer)
    ensures AllFilled(f) && f.password == f.confirmPassword && |f.password| < 8 ==> r == Some(PasswordTooShort)
    ensures AllFilled(f) && f.password == f.confirmPassword && |f.password| >= 8 && !f.agreeToTerms ==> r == Some(MustAgree)
  {
    if !AllFilled(f) then Some(FillAllFields)
    else if f.password != f.confirmPassword then Some(PasswordsDiffer)
    else if |f.password| < 8 then Some(PasswordTooShort)
    else if !f.agreeToTerms then Some(MustAgree)
    else None
  }

  /** The earlier check wins: a short, mismatched password reports the mismatch, and an
      empty field hides every other problem. */
  lemma EarlierCheckWins(f: Form)
    ensures !AllFilled(f) ==> Validate(f) == Some(FillAllFields)
    ensures AllFilled(f) && f.password != f.confirmPassword && |f.password| < 8 ==> Validate(f) == Some(PasswordsDiffer)
  {
  }

  /** A name made of spaces passes the "fill in all fields" check. */
  lemma BlankNameCountsAsFilled(f: Form)
    requires f.username != "" && f.email != "" && f.password != "" && f.confirmPassword != ""
    ensures Validate(f.(name := " ")) != Some(FillAllFields)
  {
  }

  /** Every message the checks produce is distinct, so the message names the check. */
  lemma CheckMessagesDistinct()
    ensures |{FillAllFields, PasswordsDiffer, PasswordTooShort, MustAgree}| == 4
  {
    assert FillAllFields[1] == 'l' && PasswordsDiffer[1] == 'a';
    assert PasswordTooShort[8] == ' ' && PasswordsDiffer[8] == 's';
  }

  datatype RegisterRequest = RegisterRequest(name: string, username: string, email: string, password: string)

  datatype TextField = Name | Username | Email | Password | ConfirmPassword

  function SetText(f: Form, field: TextField, value: string): Form
  {
    match field
    case Name => f.(name := value)
    case Username => f.(username := value)
    case Email => f.(email := value)
    case Password => f.(password := value)
    case ConfirmPassword => f.(confirmPassword := value)
  }

  class SignUpPage {
    var form: Form
    var error: Option<string>
    var isLoading: bool
    /** The registration requests sent, in order. */
    var requests: seq<RegisterRequest>
    /** The routes navigated to. */
    var navigations: seq<string>

    /** A shown message is never empty, and a pending submission has sent its request. */
    predicate Valid()
      reads this
    {
      (error.Some? ==> error.value != "") && (isLoading ==> requests != [])
    }

    constructor ()
      ensures Valid() && form == EmptyForm && error == None && !isLoading
      ensures requests == [] && navigations == []
    {
      form, error, isLoading, requests, navigations := EmptyForm, None, false, [], [];
    }

    /** `handleSubmit` up to its wait: a failed check shows its message and sends nothing;
        otherwise the error is cleared, loading starts and one registration request is sent
        with the form's name, username, email and password. */
    method HandleSubmit()
      requires Valid()
      modifies this`error, this`isLoading, this`requests
      ensures Valid()
      ensures Validate(form).Some? ==>
        error == Validate(form) && isLoading == old(isLoading) && requests == old(requests)
      ensures Validate(form).None? ==>
        error == None && isLoading
        && requests == old(requests) + [RegisterRequest(form.name, form.username, form.email, form.password)]
    {
      error := None;
      var problem := Validate(form);
      if problem.Some? {
        error := problem;
        return;
      }
      isLoading := true;
      requests := requests + [RegisterRequest(form.name, form.username, form.email, form.password)];
    }

    /** The rest of `handleSubmit`: `registered` is `None` when the registration succeeded,
        else how it failed; `signInError` is the sign-in result's error. A failed sign-in
        shows its error, a successful one goes to the dashboard, and loading ends
        either way. */
    method SubmitSettled(registered: Option<Failure>, signInError: Option<string>)
      requires Valid() && isLoading
      modifies this`error, this`isLoading, this`navigations
      ensures Valid() && !isLoading
      ensures registered.Some? ==>
        error == Some(SelectError(registered.value, RegistrationFailed)) && navigations == old(navigations)
      ensures registered.None? && Truthy(signInError) ==>
        error == signInError && navigations == old(navigations)
      ensures registered.None? && !Truthy(signInError) ==>
        error == old(error) && navigations == old(navigations) + ["/dashboard"]
    {
      if registered.Some? {
        SelectedErrorNonEmpty(registered.value, RegistrationFailed);
        error := Some(SelectError(registered.value, RegistrationFailed));
      } else if Truthy(signInError) {
        error := signInError;
      } else {
        navigations := navigations + ["/dashboard"];
      }
      isLoading := false;
    }

    /** `handleInputChange` for a text field: that field changes, and a shown message is
        cleared. */
    method HandleTextChange(field: TextField, value: string)
      requires Valid()
      modifies this`form, this`error
      ensures Valid() && form == SetText(old(form), field, value) && error == None
    {
      form := SetText(form, field, value);
      if Truthy(error) {
        error := None;
      }
    }

    /** `handleInputChange` for the terms checkbox. */
    method HandleAgreeChange(value: bool)
      requires Valid()
      modifies this`form, this`error
      ensures Valid() && form == old(form).(agreeToTerms := value) && error == None
    {
      form := form.(agreeToTerms := value);
      if Truthy(error) {
        error := None;
      }
    }
  }
}
