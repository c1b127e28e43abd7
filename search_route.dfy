/** `GET /api/search?q=<term>`: a name search passed through to the remote service. */
module SearchRoute {
  import opened Wrappers
  import opened Values
  import opened Api

  const QueryRequiredMessage := "Search query required"
  const DefaultFailureMessage := "Failed to search insects"

  /**
   * The handler. `q` is the query parameter (`None` when absent); `search`
   * is how the remote name search settles, consulted only when reached.
   */
  function Get(q: Option<string>, search: Awaited<seq<Candidate>>): (h: Handled)
    // a missing or empty query is refused before any remote call
    ensures !Truthy(q) ==> h == Handled(Response(400, ErrorBody(QueryRequiredMessage)), [])
    // a present query goes unchanged to the name search, which is the only call
    ensures Truthy(q) ==> h.calls == [SearchByName(q.value)]
    // its results pass through unchanged
    ensures h.response.status == 200 <==> Truthy(q) && search.Resolved?
    ensures h.response.status == 200 ==> h.response.body == SearchOk(search.value)
    // a thrown value becomes a 500 with its message, or the default for a non-Error
    ensures Truthy(q) && search.Rejected?
            ==> h.response == Response(500, ErrorBody(MessageOr(search.thrown, DefaultFailureMessage)))
  {
    if !Truthy(q) then
      Handled(Response(400, ErrorBody(QueryRequiredMessage)), [])
    else
      var calls := [SearchByName(q.value)];
      match search
      case Resolved(results) => Handled(Response(200, SearchOk(results)), calls)
      case Rejected(thrown) =>
        Handled(Response(500, ErrorBody(MessageOr(thrown, DefaultFailureMessage))), calls)
  }
}
