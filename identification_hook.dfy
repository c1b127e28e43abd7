/**
 * The identification hook: posts an image to the identify route, classifies
 * the response, and keeps `loading` and `error` state for its caller.
 */
module IdentificationHook {
  import opened Wrappers
  import opened Values
  import opened Api

  const DefaultFailureMessage := "Failed to identify insect. Please try again."
  const NoInsectsMessage := "No insects found in the image. Please try another photo."
  const UnknownErrorMessage := "An unknown error occurred"

  /** What a successful identification resolves to. */
  datatype IdentificationData = IdentificationData(results: seq<Candidate>, accessToken: Option<string>)

  /**
   * How `identify` settles for a given response: it resolves with the data,
   * or rejects with the value it rethrows.
   */
  function Settled(response: FetchOutcome): (r: Result<IdentificationData, Thrown>)
    // success exactly for an OK response whose body decodes and holds a results array
    ensures r.Success? <==>
              response.Responded? && response.ok && response.json.Resolved?
              && response.json.value.results.Some?
    // results and token are handed on unchanged (an empty array is a success)
    ensures r.Success? ==>
              r.value.results == response.json.value.results.value
              && r.value.accessToken == response.json.value.accessToken
    // a failing fetch or body decoding rethrows what was thrown
    ensures response.NetworkFailure? ==> r == Failure(response.thrown)
    ensures response.Responded? && response.json.Rejected? ==> r == Failure(response.json.thrown)
    // a non-OK response fails with the body's error, or the default when that is falsy
    ensures response.Responded? && !response.ok && response.json.Resolved? ==>
              r == Failure(ErrorValue(OrElse(response.json.value.error, DefaultFailureMessage)))
    // an OK response without a results array fails with the "no insects" message
    ensures (response.Responded? && response.ok && response.json.Resolved?
             && response.json.value.results.None?) ==> r == Failure(ErrorValue(NoInsectsMessage))
  {
    match response
    case NetworkFailure(thrown) => Failure(thrown)
    case Responded(ok, json) =>
      match json
      case Rejected(thrown) => Failure(thrown)
      case Resolved(data) =>
        if !ok then Failure(ErrorValue(OrElse(data.error, DefaultFailureMessage)))
        else if data.results.None? then Failure(ErrorValue(NoInsectsMessage))
        else Success(IdentificationData(data.results.value, data.accessToken))
  }

  /** The `error` state an outcome leaves behind. */
  function ErrorAfter(outcome: Result<IdentificationData, Thrown>): (e: Option<string>)
    ensures outcome.Success? ==> e == None
    ensures outcome.Failure? ==> e == Some(MessageOr(outcome.error, UnknownErrorMessage))
  {
    match outcome
    case Success(_) => None
    case Failure(thrown) => Some(MessageOr(thrown, UnknownErrorMessage))
  }

  /** The hook's state. */
  class HookState {
    var loading: bool
    var error: Option<string>

    constructor ()
      ensures !loading && error == None
    {
      loading := false;
      error := None;
    }

    /** The first step of `identify`, before the request is sent. */
    method Begin()
      modifies this
      ensures loading && error == None
    {
      loading := true;
      error := None;
    }

    /** `identify(file)`, with `response` the settled fetch to the identify route. */
    method Identify(response: FetchOutcome) returns (outcome: Result<IdentificationData, Thrown>)
      modifies this
      ensures outcome == Settled(response)
      ensures !loading
      ensures error == ErrorAfter(outcome)
    {
      Begin();
      // try
      match response {
        case NetworkFailure(thrown) =>
          outcome := Failure(thrown);
        case Responded(ok, json) =>
          match json {
            case Rejected(thrown) =>
              outcome := Failure(thrown);
            case Resolved(data) =>
              if !ok {
                var message := if Truthy(data.error) then data.error.value else DefaultFailureMessage;
                outcome := Failure(ErrorValue(message));
              } else if data.results.None? {
                outcome := Failure(ErrorValue(NoInsectsMessage));
              } else {
                outcome := Success(IdentificationData(data.results.value, data.accessToken));
              }
          }
      }
      // catch
      if outcome.Failure? {
        error := Some(if outcome.error.ErrorValue? then outcome.error.message else UnknownErrorMessage);
      }
      // finally
      loading := false;
    }

    /** `clearError()` */
    method ClearError()
      modifies this`error
      ensures error == None
    {
      error := None;
    }
  }
}
