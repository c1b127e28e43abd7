/**
 * The upload page: reads the chosen image, posts it to the identify route
 * and hands the outcome to the application shell, showing a preview, a
 * spinner and errors along the way.
 */
module UploadPage {
  import opened Wrappers
  import opened Values
  import opened Api

  const IdentifyFailedMessage := "Failed to identify insect"
  const AnalyzeFailedMessage := "Failed to analyze image"

  /** The arguments `onImageSelected` receives. */
  datatype Selection = Selection(
    image: string,
    file: File,
    results: Option<seq<Candidate>>,
    accessToken: Option<string>)

  /**
   * How the analysis of the image read as `dataUrl` ends: the selection
   * handed over, or the error message shown.
   */
  function Analysis(dataUrl: string, file: File, response: FetchOutcome): (r: Result<Selection, string>)
    // success exactly for an OK response whose body decodes
    ensures r.Success? <==> response.Responded? && response.ok && response.json.Resolved?
    ensures r.Success? ==>
              r.value == Selection(dataUrl, file, response.json.value.results, response.json.value.accessToken)
    // a non-OK response is reported with the fixed message, whatever its body
    ensures response.Responded? && !response.ok ==> r == Failure(IdentifyFailedMessage)
    // anything else thrown is reported with its message
    ensures response.NetworkFailure? ==> r == Failure(MessageOr(response.thrown, AnalyzeFailedMessage))
    ensures response.Responded? && response.ok && response.json.Rejected? ==>
              r == Failure(MessageOr(response.json.thrown, AnalyzeFailedMessage))
  {
    match response
    case NetworkFailure(thrown) => Failure(MessageOr(thrown, AnalyzeFailedMessage))
    case Responded(ok, json) =>
      if !ok then Failure(IdentifyFailedMessage)
      else
        match json
        case Rejected(thrown) => Failure(MessageOr(thrown, AnalyzeFailedMessage))
        case Resolved(data) => Success(Selection(dataUrl, file, data.results, data.accessToken))
  }

  /** The page's state. */
  class UploadView {
    var preview: Option<string>
    var isAnalyzing: bool
    var error: Option<string>

    /**
     * An error is only ever set beside a preview, and a preview, being a
     * data URL, is never the empty string.
     */
    predicate Valid()
      reads this
    {
      && (preview.None? ==> error.None?)
      && (preview.Some? ==> preview.value != "")
    }

    constructor ()
      ensures preview == None && !isAnalyzing && error == None && Valid()
    {
      preview := None;
      isAnalyzing := false;
      error := None;
    }

    /** The camera and file inputs are rendered only while the preview is falsy (`if (preview)`). */
    predicate ShowsInputs()
      reads this
    {
      !Truthy(preview)
    }

    /** The spinner overlays the preview while analyzing. */
    predicate ShowsSpinner()
      reads this
    {
      Truthy(preview) && isAnalyzing
    }

    /**
     * The error message and its retry button: rendered beside the preview,
     * only while not analyzing and only for a truthy (non-empty) error.
     */
    function ShowsError(): (shown: bool)
      reads this
      ensures shown ==> preview.Some? && !isAnalyzing && error.Some? && error.value != ""
    {
      Truthy(preview) && !isAnalyzing && Truthy(error)
    }

    /** The bare "Try Another" button shown after an analysis that left no truthy error. */
    function ShowsRetryOnly(): (shown: bool)
      reads this
      ensures shown ==> !ShowsError()
    {
      Truthy(preview) && !isAnalyzing && !Truthy(error)
    }

    /**
     * The reader's `onload`: the image is read as a data URL, which always
     * begins with `data:` and so is never empty.
     */
    method ImageRead(dataUrl: string)
      requires Valid() && dataUrl != ""
      modifies this
      ensures Valid()
      ensures preview == Some(dataUrl) && isAnalyzing && error == old(error)
      ensures ShowsSpinner() && !ShowsInputs()
    {
      preview := Some(dataUrl);
      isAnalyzing := true;
    }

    /** The rest of `onload`: post the image and settle. */
    method Analyze(file: File, response: FetchOutcome) returns (selected: Option<Selection>)
      requires Valid() && preview.Some?
      modifies this
      ensures Valid() && !isAnalyzing && preview == old(preview)
      ensures var outcome := Analysis(old(preview).value, file, response);
              && (outcome.Success? ==> selected == Some(outcome.value) && error == old(error))
              && (outcome.Failure? ==> selected == None && error == Some(outcome.error))
      // the message shows exactly for a failure with a non-empty message
      ensures var outcome := Analysis(old(preview).value, file, response);
              && (outcome.Failure? && outcome.error != "" ==> ShowsError())
              && (outcome.Failure? && outcome.error == "" ==> ShowsRetryOnly())
              && (outcome.Success? && old(error).None? ==> !ShowsError())
      ensures !ShowsSpinner()
    {
      var image := preview.value;
      match response {
        case NetworkFailure(thrown) =>
          isAnalyzing := false;
          error := Some(if thrown.ErrorValue? then thrown.message else AnalyzeFailedMessage);
          selected := None;
        case Responded(ok, json) =>
          if !ok {
            isAnalyzing := false;
            error := Some(IdentifyFailedMessage);
            selected := None;
          } else {
            match json {
              case Rejected(thrown) =>
                isAnalyzing := false;
                error := Some(if thrown.ErrorValue? then thrown.message else AnalyzeFailedMessage);
                selected := None;
              case Resolved(data) =>
                isAnalyzing := false;
                selected := Some(Selection(image, file, data.results, data.accessToken));
            }
          }
      }
    }

    /**
     * `handleInputChange`: `chosen` is the first selected file, if any,
     * `dataUrl` what reading it yields and `response` the settled request.
     * The inputs that fire it exist only while no preview is shown; a data
     * URL is never empty.
     */
    method InputChange(chosen: Option<File>, dataUrl: string, response: FetchOutcome)
      returns (selected: Option<Selection>)
      requires Valid() && ShowsInputs() && dataUrl != ""
      modifies this
      ensures Valid()
      ensures chosen.None? ==> selected == None
                               && preview == old(preview) && isAnalyzing == old(isAnalyzing)
                               && error == old(error)
      ensures chosen.Some? ==> preview == Some(dataUrl) && !isAnalyzing
      ensures chosen.Some? ==>
                var outcome := Analysis(dataUrl, chosen.value, response);
                && (outcome.Success? ==> selected == Some(outcome.value) && error == None && !ShowsError())
                && (outcome.Failure? ==> selected == None && error == Some(outcome.error))
                && (outcome.Failure? ==> (ShowsError() <==> outcome.error != ""))
    {
      selected := None;
      if chosen.Some? {
        ImageRead(dataUrl);
        selected := Analyze(chosen.value, response);
      }
    }

    /** `clearPreview()`, the "Try Another" button. */
    method ClearPreview()
      modifies this`preview, this`error
      ensures preview == None && error == None
      ensures Valid() && ShowsInputs()
    {
      preview := None;
      error := None;
    }
  }
}
