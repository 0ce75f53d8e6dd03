/**
 * The page that completes a social sign-in by choosing a username: its ordered checks,
 * the availability state that can block submission, the submit button's disable rule and
 * the message shown when the update request fails.
 *
 * The availability check the page schedules does nothing, so availability never leaves
 * its initial value; `Valid` records that, and `NeverBlockedByAvailability` shows what it
 * means for the button.
 */
module CompleteCredentials {
  import opened Wrappers
  import opened Strings
  import opened RequestErrors

  datatype Availability = Availability(checking: bool, available: Option<bool>, message: string)

  const Unchecked := Availability(false, None, "")

  const ChooseUsername := "Please choose a username."
  const UsernameTooShort := "Username must be at least 3 characters long."
  const StillChecking := "Please wait while we check username availability."
  const NotAvailable := "Username is not available. Please choose another one."
  const CompletionFailed := "An error occurred while completing your registration."

  /** The checks of `handleSubmit` in order; the first that fails decides the message. An
      unknown availability (`None`) blocks nothing: only a definite `false` does. */
  function ValidateUsername(username: string, a: Availability): (r: Option<string>)
    ensures r.None? <==> |username| >= 3 && !a.checking && a.available != Some(false)
    ensures username == "" ==> r == Some(ChooseUsername)
    ensures 0 < |username| < 3 ==> r == Some(UsernameTooShort)
    ensures |username| >= 3 && a.checking ==> r == Some(StillChecking)
    ensures |username| >= 3 && !a.checking && a.available == Some(false) ==> r == Some(NotAvailable)
  {
    if username == "" then Some(ChooseUsername)
    else if |username| < 3 then Some(UsernameTooShort)
    else if a.checking then Some(StillChecking)
    else if a.available == Some(false) then Some(NotAvailable)
    else None
  }

  /** A length problem is reported before any availability problem. */
  lemma LengthBeforeAvailability(username: string, a: Availability)
    requires |username| < 3
    ensures ValidateUsername(username, a) == Some(if username == "" then ChooseUsername else UsernameTooShort)
  {
  }

  /** `disabled={isLoading || checking || available === false}`. */
  predicate SubmitDisabled(isLoading: bool, a: Availability)
  {
    isLoading || a.checking || a.available == Some(false)
  }

  /** Whenever availability would block a long-enough username, the button is already
      disabled, and the other way round when nothing is loading. */
  lemma DisabledMatchesAvailabilityChecks(username: string, isLoading: bool, a: Availability)
    requires |username| >= 3
    ensures ValidateUsername(username, a).Some? ==> SubmitDisabled(isLoading, a)
    ensures !isLoading && SubmitDisabled(isLoading, a) ==> ValidateUsername(username, a).Some?
  {
  }

  datatype UpdateRequest = UpdateRequest(email: Option<string>, username: string)

  /** How the update request ended: the username in the response, or the failure. */
  datatype Settlement = Succeeded(username: string) | Failed(failure: Failure)

  class CredentialsPage {
    /** The `email` search parameter, absent when the URL has none. */
    const email: Option<string>
    var username: string
    var error: Option<string>
    var isLoading: bool
    var availability: Availability
    var requests: seq<UpdateRequest>
    var navigations: seq<string>

    /** Availability never leaves its initial value, shown messages are never empty, and a
        pending submission has sent its request. */
    predicate Valid()
      reads this
    {
      && availability == Unchecked
      && (error.Some? ==> error.value != "")
      && (isLoading ==> requests != [])
    }

    constructor (email: Option<string>)
      ensures Valid() && this.email == email && username == "" && error == None && !isLoading
      ensures requests == [] && navigations == []
    {
      this.email := email;
      username, error, isLoading, availability := "", None, false, Unchecked;
      requests, navigations := [], [];
    }

    /** `handleSubmit` up to its wait: a failed check shows its message and sends nothing;
        otherwise loading starts and one update request with the email and username is
        sent. */
    method HandleSubmit()
      requires Valid()
      modifies this`error, this`isLoading, this`requests
      ensures Valid()
      ensures ValidateUsername(username, availability).Some? ==>
        error == ValidateUsername(username, availability) && isLoading == old(isLoading) && requests == old(requests)
      ensures ValidateUsername(username, availability).None? ==>
        error == None && isLoading && requests == old(requests) + [UpdateRequest(email, username)]
    {
      error := None;
      var problem := ValidateUsername(username, availability);
      if problem.Some? {
        error := problem;
        return;
      }
      isLoading := true;
      requests := requests + [UpdateRequest(email, username)];
    }

    /** The rest of `handleSubmit`: a success goes to the new username's dashboard and
        leaves loading on; a failure ends loading and shows the selected message. */
    method SubmitSettled(outcome: Settlement)
      requires Valid() && isLoading
      modifies this`error, this`isLoading, this`navigations
      ensures Valid()
      ensures outcome.Succeeded? ==>
        isLoading && error == old(error) && navigations == old(navigations) + ["/dashboard/" + outcome.username]
      ensures outcome.Failed? ==>
        !isLoading && error == Some(SelectError(outcome.failure, CompletionFailed)) && navigations == old(navigations)
    {
      match outcome
      case Succeeded(name) =>
        navigations := navigations + ["/dashboard/" + name];
      case Failed(failure) =>
        isLoading := false;
        SelectedErrorNonEmpty(failure, CompletionFailed);
        error := Some(SelectError(failure, CompletionFailed));
    }

    /** `handleInputChange` for the username: the field changes and a shown message is
        cleared. */
    method HandleInputChange(value: string)
      requires Valid()
      modifies this`username, this`error
      ensures Valid() && username == value && error == None
    {
      username := value;
      if Truthy(error) {
        error := None;
      }
    }

    /** The debounce timer firing for `value`: a long-enough value calls the availability
        check, which changes nothing; a shorter one resets availability. */
    method DebounceFired(value: string)
      requires Valid()
      modifies this`availability
      ensures Valid() && availability == old(availability)
    {
      if |value| < 3 {
        availability := Unchecked;
      }
    }

    /** In every state the page reaches, the button is disabled exactly while loading. */
    method IsSubmitDisabled() returns (disabled: bool)
      requires Valid()
      ensures disabled == SubmitDisabled(isLoading, availability)
      ensures disabled <==> isLoading
    {
      disabled := isLoading || availability.checking || availability.available == Some(false);
    }
  }

  /** Availability never blocks: in any state the page reaches, a username of three or more
      characters passes every check. */
  lemma NeverBlockedByAvailability(username: string)
    requires |username| >= 3
    ensures ValidateUsername(username, Unchecked) == None
  {
  }
}
