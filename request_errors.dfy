/**
 * How the sign-up and credential pages turn a failed request into the message they show:
 * the response body's `error`, else its `message`, else the page's own generic text; a
 * failure that is not an HTTP error gives a fixed text.
 */
module RequestErrors {
  import opened Wrappers
  import opened Strings

  /** The JSON body of an error response, as far as the pages read it. */
  datatype ErrorBody = ErrorBody(error: Option<string>, message: Option<string>)

  /** A rejected request: an HTTP client error (its response body, if any) or any other
      exception. */
  datatype Failure = HttpError(body: Option<ErrorBody>) | OtherError

  const Unexpected := "An unexpected error occurred."

  function SelectError(f: Failure, generic: string): (m: string)
    ensures f.OtherError? ==> m == Unexpected
    ensures f.HttpError? && f.body.Some? && Truthy(f.body.value.error) ==> m == f.body.value.error.value
    ensures f.HttpError? && f.body.Some? && !Truthy(f.body.value.error) && Truthy(f.body.value.message) ==>
      m == f.body.value.message.value
    ensures f.HttpError? && (f.body.None? || (!Truthy(f.body.value.error) && !Truthy(f.body.value.message))) ==>
      m == generic
  {
    match f
    case OtherError => Unexpected
    case HttpError(body) =>
      if body.Some? && Truthy(body.value.error) then body.value.error.value
      else if body.Some? && Truthy(body.value.message) then body.value.message.value
      else generic
  }

  /** The message shown is never empty when the generic text is not. */
  lemma SelectedErrorNonEmpty(f: Failure, generic: string)
    requires generic != ""
    ensures SelectError(f, generic) != ""
  {
  }
}
