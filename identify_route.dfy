/**
 * `POST /api/identify`: validates the uploaded form, then uploads the image
 * to the remote service and fetches the identification with details, and
 * answers with the flat list of suggestions.
 */
module IdentifyRoute {
  import opened Wrappers
  import opened Values
  import opened Api

  const NoImageMessage := "No image provided"
  const KeyMissingMessage :=
    "API key not configured. Please set INSECT_ID_API_KEY in environment variables."
  const DefaultFailureMessage := "Failed to identify insect"
  /** The `details` query string the route requests. */
  const DetailFields := "common_names,url,description,image"

  /** The outcome of `await request.formData()` and its `image` field. */
  datatype FormData = Unreadable(thrown: Thrown) | Form(image: Option<File>)

  /** The remote identification object, down to the nested suggestion list. */
  datatype Classification = Classification(suggestions: Option<seq<Candidate>>)
  datatype IdentificationResult = IdentificationResult(classification: Option<Classification>)
  datatype Identification = Identification(result: Option<IdentificationResult>)

  /** `identification.result?.classification?.suggestions || []` */
  function Suggestions(identification: Identification): (r: seq<Candidate>)
    ensures (identification.result.Some?
             && identification.result.value.classification.Some?
             && identification.result.value.classification.value.suggestions.Some?)
            ==> r == identification.result.value.classification.value.suggestions.value
    ensures !(identification.result.Some?
              && identification.result.value.classification.Some?
              && identification.result.value.classification.value.suggestions.Some?)
            ==> r == []
  {
    match identification.result
    case None => []
    case Some(res) =>
      match res.classification
      case None => []
      case Some(c) => c.suggestions.GetOr([])
  }

  /** A 500 response for a value thrown inside the handler's `try` block. */
  function ServerError(thrown: Thrown): Response {
    Response(500, ErrorBody(MessageOr(thrown, DefaultFailureMessage)))
  }

  /**
   * The handler. `apiKey` is the configured credential; `upload` and
   * `details` are how the two remote calls settle, consulted only when the
   * handler reaches them.
   */
  function Post(form: FormData, apiKey: Option<string>,
                upload: Awaited<string>, details: Awaited<Identification>): (h: Handled)
    // validation comes first: no remote call unless an image is present and the key is set
    ensures h.calls != [] <==> form.Form? && form.image.Some? && Truthy(apiKey)
    // a missing image is reported whatever the configuration
    ensures form.Form? && form.image.None? ==> h.response == Response(400, ErrorBody(NoImageMessage))
    ensures form.Form? && form.image.Some? && !Truthy(apiKey)
            ==> h.response == Response(500, ErrorBody(KeyMissingMessage))
    // the upload comes first, then the details request with the token the upload returned
    ensures h.calls != [] ==> h.calls[0] == UploadImage(form.image.value)
    ensures |h.calls| <= 2
    ensures |h.calls| == 2 <==> h.calls != [] && upload.Resolved?
    ensures |h.calls| == 2 ==> h.calls[1] == GetIdentification(upload.value, DetailFields)
    // success exactly when both remote calls resolve
    ensures h.response.status == 200 <==> |h.calls| == 2 && details.Resolved?
    ensures h.response.status == 200
            ==> h.response.body == IdentifyOk(upload.value, Suggestions(details.value))
    // every failure after validation is a 500 carrying the thrown value's message
    ensures form.Unreadable? ==> h.response == ServerError(form.thrown)
    ensures |h.calls| == 1 ==> h.response == ServerError(upload.thrown)
    ensures |h.calls| == 2 && details.Rejected? ==> h.response == ServerError(details.thrown)
    ensures h.response.status in {200, 400, 500}
  {
    match form
    case Unreadable(thrown) => Handled(ServerError(thrown), [])
    case Form(image) =>
      if image.None? then
        Handled(Response(400, ErrorBody(NoImageMessage)), [])
      else if !Truthy(apiKey) then
        Handled(Response(500, ErrorBody(KeyMissingMessage)), [])
      else
        var uploaded := [UploadImage(image.value)];
        match upload
        case Rejected(thrown) => Handled(ServerError(thrown), uploaded)
        case Resolved(accessToken) =>
          var calls := uploaded + [GetIdentification(accessToken, DetailFields)];
          match details
          case Rejected(thrown) => Handled(ServerError(thrown), calls)
          case Resolved(identification) =>
            Handled(Response(200, IdentifyOk(accessToken, Suggestions(identification))), calls)
  }

  /**
   * The error message of a failed call is the thrown Error's own message,
   * even when that message is empty; only a non-Error gets the default.
   */
  lemma ErrorMessageMapping(thrown: Thrown)
    ensures ServerError(thrown).status == 500
    ensures thrown == ErrorValue("") ==> ServerError(thrown).body == ErrorBody("")
    ensures thrown == OtherValue ==> ServerError(thrown).body == ErrorBody(DefaultFailureMessage)
  {
  }
}
