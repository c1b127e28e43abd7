/**
 * The JSON shapes that travel between the remote identification service,
 * the application's two server routes and its client code.
 */
module Api {
  import opened Wrappers
  import opened Values

  /** One entry of a candidate's `images` list. */
  datatype ImageRef = ImageRef(url: Option<string>)

  /**
   * One identification candidate, as the routes pass it through and the
   * results page reads it. Every field may be absent from the JSON.
   * A probability is a rational number; the service sends values in [0, 1].
   */
  datatype Candidate = Candidate(
    id: Option<string>,
    name: Option<string>,
    commonNames: Option<seq<string>>,
    probability: Option<real>,
    image: Option<string>,
    images: Option<seq<ImageRef>>)

  /** The body a route sends; `success: true` is implied by the two OK shapes. */
  datatype Body =
    | IdentifyOk(accessToken: string, results: seq<Candidate>)
    | SearchOk(results: seq<Candidate>)
    | ErrorBody(error: string)

  /** `Response.json(body, { status })`; the status is 200 when none is given. */
  datatype Response = Response(status: int, body: Body)

  /** A call from a route to the remote identification service. */
  datatype RemoteCall =
    | UploadImage(file: File)
    | GetIdentification(accessToken: string, details: string)
    | SearchByName(term: string)

  /** What a route handler answers, together with the remote calls it made, in order. */
  datatype Handled = Handled(response: Response, calls: seq<RemoteCall>)

  /**
   * A JSON body as client code reads it. `results` is `None` when the field
   * is absent or is not an array (`Array.isArray` fails).
   */
  datatype ClientBody = ClientBody(
    error: Option<string>,
    results: Option<seq<Candidate>>,
    accessToken: Option<string>)

  /**
   * The settled `fetch('/api/identify', ...)` call as client code sees it:
   * either `fetch` itself rejects, or a response arrives with its `ok` flag
   * and the outcome of `await response.json()`.
   */
  datatype FetchOutcome =
    | NetworkFailure(thrown: Thrown)
    | Responded(ok: bool, json: Awaited<ClientBody>)
}
