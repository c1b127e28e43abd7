/**
 * How the pieces fit together: the identify route's answers as the two
 * client flows read them, and the path from a candidate to a saved record.
 */
module Flow {
  import opened Wrappers
  import opened Values
  import opened Api
  import IdentifyRoute
  import IdentificationHook
  import UploadPage
  import ResultsPage
  import Home

  /** A route response as client code receives it: `ok` is a 2xx status. */
  function ClientView(response: Response): (f: FetchOutcome)
    ensures f.Responded? && f.json.Resolved?
    ensures f.ok <==> 200 <= response.status < 300
  {
    var data := match response.body
      case IdentifyOk(token, results) => ClientBody(None, Some(results), Some(token))
      case SearchOk(results) => ClientBody(None, Some(results), None)
      case ErrorBody(error) => ClientBody(Some(error), None, None);
    Responded(200 <= response.status < 300, Resolved(data))
  }

  /**
   * The hook accepts exactly the route's successful answers, with the
   * suggestions and the upload's token; any other answer fails with the
   * route's message, or the hook's default when that message is empty.
   */
  lemma HookReadsRouteAnswers(form: IdentifyRoute.FormData, apiKey: Option<string>,
                              upload: Awaited<string>, details: Awaited<IdentifyRoute.Identification>)
    ensures var h := IdentifyRoute.Post(form, apiKey, upload, details);
            var r := IdentificationHook.Settled(ClientView(h.response));
            && (r.Success? <==> h.response.status == 200)
            && (r.Success? ==> r.value == IdentificationHook.IdentificationData(
                                  IdentifyRoute.Suggestions(details.value), Some(upload.value)))
            && (r.Failure? ==> r.error == ErrorValue(OrElse(Some(h.response.body.error),
                                                           IdentificationHook.DefaultFailureMessage)))
  {
  }

  /**
   * The upload page hands over exactly the route's successful answers, and
   * reports every other answer with its fixed message.
   */
  lemma UploadPageReadsRouteAnswers(dataUrl: string, file: File,
                                    form: IdentifyRoute.FormData, apiKey: Option<string>,
                                    upload: Awaited<string>, details: Awaited<IdentifyRoute.Identification>)
    ensures var h := IdentifyRoute.Post(form, apiKey, upload, details);
            var r := UploadPage.Analysis(dataUrl, file, ClientView(h.response));
            && (r.Success? <==> h.response.status == 200)
            && (r.Success? ==> r.value == UploadPage.Selection(
                                  dataUrl, file, Some(IdentifyRoute.Suggestions(details.value)), Some(upload.value)))
            && (r.Failure? ==> r.error == UploadPage.IdentifyFailedMessage)
  {
  }

  /** Worked values of the confidence rounding. */
  lemma ConfidenceExamples(c: Candidate)
    ensures c.probability == Some(0.944) ==> ResultsPage.Confidence(c) == 94
    ensures c.probability == Some(0.0) ==> ResultsPage.Confidence(c) == 0
    ensures c.probability == Some(1.0) ==> ResultsPage.Confidence(c) == 100
    ensures c.probability == Some(0.005) ==> ResultsPage.Confidence(c) == 1
  {
  }

  /** Every listed entry, saved at any time, survives a reload of the snapshot. */
  lemma SavedEntriesReload(results: Option<seq<Candidate>>, k: nat, xs: seq<Home.SavedInsect>,
                           image: string, now: nat, savedAt: string, initial: seq<Home.SavedInsect>)
    requires k < |ResultsPage.Displayed(results)|
    requires forall i :: 0 <= i < |xs| ==> Home.Loadable(xs[i])
    ensures var ys := xs + [Home.NewRecord(ResultsPage.Displayed(results)[k], image, now, savedAt)];
            Home.Loaded(Home.Entries(ys), initial) == ys
  {
    var entry := ResultsPage.Displayed(results)[k];
    var ys := xs + [Home.NewRecord(entry, image, now, savedAt)];
    assert entry.commonName != "";
    Home.SavedRecordLoadable(entry, image, now, savedAt);
    Home.ReloadRestores(ys, initial);
  }

  /**
   * The worked scenario: a single suggestion for "Papilio polytes" is listed
   * as "Common Mormon" at 94%, and saving it gives a one-record collection.
   */
  method Scenario(file: File, now: nat, savedAt: string)
  {
    var candidate := Candidate(Some("x"), Some("Papilio polytes"), Some(["Common Mormon"]),
                               Some(0.94), None, None);
    var app := new Home.App(Home.NoSnapshot);
    app.GetStarted();
    app.ImageSelected("data:image/jpeg;base64,AAAA", file, Some([candidate]), Some("token"));
    assert app.ShowsResults();
    var entries := ResultsPage.Displayed(app.identificationResults);
    assert |entries| == 1;
    assert entries[0].commonName == "Common Mormon";
    assert entries[0].confidence == 94;
    var view := new ResultsPage.ResultsView();
    view.Select(entries, 0);
    app.SaveInsect(view.selected.value, "data:image/jpeg;base64,AAAA", now, savedAt, true);
    view.Close();
    assert |app.savedInsects| == 1 && app.savedInsects[0].commonName == "Common Mormon";
    assert app.Persisted() && !view.DialogOpen();
  }
}
