# AnimalInsight core, modelled in Dafny

AnimalInsight is a small web front end over a remote insect-identification
service. The user photographs or uploads an image, the server route forwards it
to the service in two steps (upload, then fetch the identification with
details), the results page lists the candidate species with a rounded
confidence percentage, and the user can save candidates into a collection that
is persisted in the browser's local storage.

This project models the logic underneath that flow:

- `identify_route.dfy` (module `IdentifyRoute`): `POST /api/identify` as a
  function from the decoded form, the configured API key and the two remote
  outcomes to the response and the trace of remote calls made.
- `search_route.dfy` (`SearchRoute`): `GET /api/search` in the same style.
- `results_page.dfy` (`ResultsPage`): the candidate-to-entry transform with its
  fallback chains, `Math.round` on rationals, the illustrative fallback list, and
  the selected-entry state of the detail dialog (class `ResultsView`).
- `home.dfy` (`Home`): the application shell of `app/page.tsx` as class `App`
  (current page, handed-over upload, saved list, persisted snapshot, save
  notification) with the pure store functions it uses: record creation, delete
  as a filter, and the load filter.
- `identification_hook.dfy` (`IdentificationHook`): the `identify`/`clearError`
  hook as class `HookState`, proved against the function `Settled`.
- `upload_page.dfy` (`UploadPage`): the upload page's `preview`/`isAnalyzing`/
  `error` state machine as class `UploadView`, proved against `Analysis`.
- `flow.dfy` (`Flow`): how the two client flows read the route's answers, and
  the path from a candidate to a saved record that survives a reload.
- Support modules: `Wrappers` (Option, Result), `Values` (JavaScript truthiness,
  `||`, thrown values and `instanceof Error`, awaited outcomes, opaque file
  handles), `Text` (decimal numerals of timestamps and indices, injective),
  `Seqs` (`filter` on sequences and its laws), `Api` (the JSON shapes).

Conventions. JavaScript `undefined`/`null` is `None`. An absent text field and
an empty string are both falsy; records of the saved collection store both as
`""`. Remote calls, `fetch`, the file reader, the clock (`Date.now()` as a
natural number of milliseconds, `toISOString()` as a string) and local storage
are parameters or fields: nothing is called. Probabilities are rationals.

Notes on the code's behaviour:

- The identify route reads only `result.classification.suggestions` and
  defaults to the empty list; it does not fall back to a flat `results` field.
- A thrown `Error` is reported with its own message even when that message is
  empty; only a thrown non-`Error` gets the route's default message.
- Record ids are `<candidate id>-<timestamp>`; they are distinct for distinct
  timestamps (proved), but the code does not enforce uniqueness within the
  collection (two saves in the same millisecond collide).

## Model

| member | source | states |
|---|---|---|
| `IdentifyRoute.Suggestions` | app/api/identify/route.ts:48 | the nested suggestion list when every level is present, otherwise the empty list |
| `IdentifyRoute.Post` | app/api/identify/route.ts:3-70 | no remote call unless the image is present and the key is truthy; a missing image is 400 "No image provided" whatever the key; a missing key is 500 with the configuration message; the upload is called first, with the file, then the details request with exactly the upload's token and `common_names,url,description,image`; status 200 exactly when both calls resolve, with the upload's token and the suggestions; each failure is a 500 with the thrown value's message |
| `IdentifyRoute.ErrorMessageMapping` | app/api/identify/route.ts:61-69 | an Error with an empty message yields an empty error text; a non-Error yields "Failed to identify insect" |
| `SearchRoute.Get` | app/api/search/route.ts:3-33 | a missing or empty `q` is 400 "Search query required" with no remote call; otherwise the only call is the name search with `q` unchanged; 200 exactly when it resolves, with its results unchanged; a rejection is 500 with its message or "Failed to search insects" |
| `ResultsPage.RoundIsNearest` | components/results-page.tsx:78 | `Math.round(x)` is the one integer n with n - 1/2 <= x < n + 1/2 |
| `ResultsPage.Confidence` | components/results-page.tsx:78 | a missing probability gives 0; otherwise the result is the percentage rounded half up |
| `ResultsPage.ConfidenceInRange` | components/results-page.tsx:78 | a probability in [0, 1] gives a confidence in [0, 100] |
| `ResultsPage.PositionalIdsDistinct` | components/results-page.tsx:75 | two positions never share a fallback id `insect-<i>` |
| `ResultsPage.ToInsect` | components/results-page.tsx:74-81 | id: candidate id or positional id; name: name or "Unknown Species"; commonName: first common name, else name, else "Unknown"; image: `image`, else `images[0].url`, else the placeholder; class "Insecta"; every text field non-empty |
| `ResultsPage.Displayed` | components/results-page.tsx:26-82 | no list at all gives exactly the four illustrative entries; a list (even empty) gives one entry per candidate, same length and order |
| `ResultsPage.AnonymousEntriesHaveDistinctIds` | components/results-page.tsx:73-75 | listed entries whose candidates lack ids get pairwise distinct ids |
| `ResultsPage.ResultsView.constructor` | components/results-page.tsx:69 | no entry is selected at first |
| `ResultsPage.ResultsView.Select` | components/results-page.tsx:124 | clicking entry k selects exactly that entry and opens the dialog |
| `ResultsPage.ResultsView.Close` | components/results-page.tsx:191 | closing resets the selection to none |
| `Text.NatToStringInjective` | app/page.tsx:50 | distinct timestamps render to distinct numerals |
| `Home.RecordId` | app/page.tsx:50 | the id starts with the candidate id followed by `-` |
| `Home.NewRecord` | app/page.tsx:49-58 | id `<candidate id>-<now>`; name, commonName, confidence, image, class and uploaded image copied from the inputs; `savedAt` is the save time |
| `Home.RecordIdInjective` | app/page.tsx:50 | a record id determines both the candidate id and the save time |
| `Home.TwoSavesDistinct` | app/page.tsx:50-60 | saving one entry at two different times adds two records, earlier ones unchanged, with distinct ids |
| `Home.Loaded` | app/page.tsx:30-45 | a missing or undecodable snapshot leaves the initial list; a decoded list keeps only entries with a truthy id and commonName |
| `Home.LoadCounts` | app/page.tsx:40 | loading keeps every copy of each loadable entry and nothing else |
| `Home.ReloadRestores` | app/page.tsx:40-63 | a snapshot of loadable records reloads to exactly that list, in order |
| `Home.SavedRecordLoadable` | app/page.tsx:49-58 | a record saved from an entry with a common name survives a reload |
| `Home.Deleted` | app/page.tsx:69 | no remaining record carries the deleted id |
| `Home.DeleteCounts` | app/page.tsx:69 | every record with the id is removed; every other record keeps all its copies |
| `Home.DeleteDistributes` | app/page.tsx:69 | deletion distributes over concatenation, so relative order is kept |
| `Home.DeleteMissingIsIdentity` | app/page.tsx:69 | deleting an id no record carries leaves the list unchanged |
| `Home.DeleteMatchingIsEmpty` | app/page.tsx:69 | deleting the id every record carries leaves nothing |
| `Home.DeleteUniqueRemovesOne` | app/page.tsx:69 | with unique ids, deleting the id at position k removes exactly that record and keeps the others in order |
| `Home.App.constructor` | app/page.tsx:25-31 | first render: landing page, nothing handed over, empty list, notification hidden |
| `Home.App.LoadSaved` | app/page.tsx:34-45 | the list becomes what loading the stored snapshot yields; nothing else changes |
| `Home.App.SaveInsect` | app/page.tsx:48-66 | appends exactly the new record at the end; when the storage write succeeds the snapshot is rewritten to the whole list and the notification shows, otherwise snapshot and notification are unchanged; nothing else changes |
| `Home.App.HideSaveNotification` | app/page.tsx:65 | the timer hides the notification |
| `Home.App.DeleteInsect` | app/page.tsx:68-72 | the list becomes the filtered list; when the storage write succeeds the snapshot is rewritten to it, otherwise it is unchanged; nothing else changes |
| `Home.App.ConfirmDelete` | components/saved-collection-page.tsx:108-115 | deletes only when confirmed; otherwise list and snapshot are unchanged |
| `Home.App.GoHome` | app/page.tsx:99-106 | the landing page, without "Back to Home" (also the title button at 88, and the back buttons at 137 and 162) |
| `Home.App.OpenCollection` | app/page.tsx:108-117 | the collection page, without "Back to Home" |
| `Home.App.GetStarted` | app/page.tsx:124-126 | the upload page, with "Back to Home" shown (lines 99-106) |
| `Home.App.ImageSelected` | app/page.tsx:130-136 | image, file and results are taken as handed over (absent results stay absent); the token is kept when truthy and becomes null when absent or empty; the results page is current, with "Back to Home" shown, and renders exactly when the image is non-empty |
| `Home.App.BackFromResults` | app/page.tsx:141-153 | back to the upload page with image, file, results and token cleared, so the results page is not rendered |
| `IdentificationHook.Settled` | hooks/use-insect-identification.ts:25-57 | success exactly for an OK response whose body holds a results array (an empty one included), handing results and token on unchanged; a non-OK response fails with the body's error or "Failed to identify insect. Please try again."; a missing or non-array results fails with "No insects found in the image. Please try another photo."; a failing fetch or body read rethrows its value |
| `IdentificationHook.ErrorAfter` | hooks/use-insect-identification.ts:53-57 | success leaves no error; failure leaves the thrown Error's message or "An unknown error occurred" |
| `IdentificationHook.HookState.constructor` | hooks/use-insect-identification.ts:18-19 | not loading, no error |
| `IdentificationHook.HookState.Begin` | hooks/use-insect-identification.ts:22-23 | loading, error cleared |
| `IdentificationHook.HookState.Identify` | hooks/use-insect-identification.ts:21-61 | settles as `Settled` says, is not loading afterwards whatever the outcome, and leaves `ErrorAfter` of the outcome |
| `IdentificationHook.HookState.ClearError` | hooks/use-insect-identification.ts:63-65 | clears the error and changes nothing else |
| `UploadPage.Analysis` | components/upload-page.tsx:31-57 | success exactly for an OK response whose body decodes, handing over preview, file, results and token; a non-OK response fails with "Failed to identify insect"; other failures carry the thrown message or "Failed to analyze image" |
| `UploadPage.UploadView.constructor` | components/upload-page.tsx:21-23 | no preview, not analyzing, no error |
| `UploadPage.UploadView.ImageRead` | components/upload-page.tsx:27-30 | the preview is the (non-empty) data URL and analysis is shown; the inputs, rendered only while the preview is falsy, are no longer rendered |
| `UploadPage.UploadView.Analyze` | components/upload-page.tsx:31-57 | analysis ends and the spinner goes; the selection or the error is as `Analysis` says; the preview stays; the error message shows exactly for a failure with a non-empty message, and a failure with an empty message shows only the bare retry button |
| `UploadPage.UploadView.ShowsError` | components/upload-page.tsx:113-123 | the error and its retry button show only beside a preview, when not analyzing and the error is a non-empty string |
| `UploadPage.UploadView.ShowsRetryOnly` | components/upload-page.tsx:125-134 | the bare "Try Another" block never shows together with the error block |
| `UploadPage.UploadView.InputChange` | components/upload-page.tsx:62-67 | no file changes nothing; a file ends with its preview shown, not analyzing, and the selection or error of `Analysis`; the error block shows exactly when that error is non-empty |
| `UploadPage.UploadView.ClearPreview` | components/upload-page.tsx:69-78 | preview and error cleared, inputs rendered again |
| `Flow.ClientView` | hooks/use-insect-identification.ts:37-44 | a route response reaches the client as a decoded body with `ok` exactly for a 2xx status |
| `Flow.HookReadsRouteAnswers` | hooks/use-insect-identification.ts:34-52 | the hook succeeds exactly on the route's 200, with its suggestions and the upload's token; otherwise it fails with the route's message, or its default when that is empty |
| `Flow.UploadPageReadsRouteAnswers` | components/upload-page.tsx:41-50 | the upload page hands over exactly the route's 200 answers, otherwise shows "Failed to identify insect" |
| `Flow.ConfidenceExamples` | components/results-page.tsx:78 | 0.944 gives 94, 0 gives 0, 1 gives 100, 0.005 gives 1 |
| `Flow.SavedEntriesReload` | app/page.tsx:40-63 | any listed entry saved into a loadable collection survives a reload of the snapshot |

## Left out

- `lib/insect-api.ts` (the HTTP requests to the remote service, the credential header, URL building) is not part of this model: each remote call is an outcome parameter (a token, an identification object, a result list, or a thrown value).
- `app/api/usage/route.ts` is not part of this model: it is a passthrough whose only logic is the same error-to-500 mapping as the search route.
- Rendering markup, the landing page, the detail dialog's layout, and locale date formatting of `savedAt`.
- `IdentifyRoute.Post`: an upload answer without `access_token` (whose `substring` call at line 34 throws a runtime TypeError, reported as a 500 with the runtime's message) is not modelled; the upload resolves with a token string. A form field `image` holding text rather than a file is not modelled.
- `ResultsPage.Confidence`: probabilities are exact rationals; IEEE double rounding, `NaN` and non-numeric probabilities are not modelled.
- `Home.Loaded`: entries of a decoded list are records; a list containing `null` (whose `.id` access throws inside the `try` and leaves the list empty) or non-object values is not modelled, and "text that decodes to something other than a list" is folded into `Undecodable`, which the code also recovers from by leaving the list empty.
- `Home.App.SaveInsect`, `Home.App.DeleteInsect`: `written` stands for whether `localStorage.setItem` succeeds; when it throws (a full quota is likely, since each record carries the uploaded image as a data URL) the in-memory list has still changed while the snapshot is stale, and the exception escaping `saveInsect` (which also keeps the detail dialog from closing) is not modelled further.
- `Home.App.SaveInsect`: the uploaded `File` argument is not a parameter, because the source never stores it in the record; the three-second delay before `HideSaveNotification` runs is not modelled.
- `UploadPage.UploadView.InputChange`: a `results` field that is present but is not an array is treated as absent (the identify route never sends one).
- `IdentificationHook.HookState.Identify`: the state during the request (loading, no error) is stated by `Begin`, which `Identify` runs first; React's asynchronous scheduling, stale closures and render batching are not modelled: each handler is one sequential step.
- The hook's and the page's `fetch`, `FormData` and `FileReader` are parameters: the settled response and the data URL read.
- `UploadPage.UploadView.ImageRead`, `UploadPage.UploadView.InputChange`: require a non-empty data URL, because `FileReader.readAsDataURL` always yields one beginning with `data:`; the view predicates still test the preview's truthiness as `if (preview)` does, and `Valid` records that a set preview is never empty.
- Console logging.
