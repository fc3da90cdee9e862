/**
 * The search window talking to the completion endpoint: how a reply of the
 * gateway looks to the window's `fetch`, and what ends up in the result list
 * for each way the upstream service can answer.
 */
module Pipeline {
  import opened Wrappers
  import Text
  import Gateway
  import Search

  /**
   * The window's view of a gateway reply. `fetch` resolves whatever the HTTP
   * status is, and the error body `{ error }` parses to an object whose
   * `aiResponse` is undefined; so a gateway reply never reaches the `catch`.
   */
  function Received(resp: Gateway.Response): (outcome: Search.FetchOutcome)
    ensures outcome.Success?
    ensures outcome.aiResponse.Some? <==> resp.body.Answer?
    ensures resp.body.Answer? ==> outcome.aiResponse.value == resp.body.aiResponse
  {
    match resp.body
    case Answer(aiResponse) => Search.Success(Some(aiResponse))
    case ErrorBody(_) => Search.Success(None)
  }

  /**
   * An upstream failure does not surface as the window's error message: the
   * gateway answers 500, the window reads no `aiResponse`, appends the
   * placeholder result and clears the error.
   */
  lemma UpstreamFailureShowsPlaceholder(w: Search.Window, q: string, upstream: Gateway.Upstream)
    requires exists i :: 0 <= i < |q| && !Text.IsWhitespace(q[i])
    requires upstream.Rejected? || upstream.completion.choices.None?
    ensures Search.AfterSearch(w, q, Received(Gateway.Respond(q, _ => upstream))).results
              == w.results + [Search.SearchResult(Search.AiResponseId, q, Search.NoValidResponse)]
    ensures Search.AfterSearch(w, q, Received(Gateway.Respond(q, _ => upstream))).error == ""
  {
    Text.BlankIffAllWhitespace(q);
    Search.SearchEffect(w, q, Received(Gateway.Respond(q, _ => upstream)));
  }

  /**
   * When the upstream service completes, the window's new result carries the
   * gateway's answer: the first choice's text, or "No content found." when it
   * has none; the window's own placeholder never appears.
   */
  lemma AnswerReachesResults(w: Search.Window, q: string, choices: seq<Gateway.Choice>)
    requires exists i :: 0 <= i < |q| && !Text.IsWhitespace(q[i])
    ensures var upstream := Gateway.Resolved(Gateway.Completion(Some(choices)));
            Search.AfterSearch(w, q, Received(Gateway.Respond(q, _ => upstream))).results
              == w.results + [Search.SearchResult(Search.AiResponseId, q, Gateway.FirstContent(choices))]
    ensures var upstream := Gateway.Resolved(Gateway.Completion(Some(choices)));
            !Gateway.HasContent(choices) ==>
              Search.AfterSearch(w, q, Received(Gateway.Respond(q, _ => upstream))).results[|w.results|].description
                == Gateway.NoContent
    ensures var upstream := Gateway.Resolved(Gateway.Completion(Some(choices)));
            Search.AfterSearch(w, q, Received(Gateway.Respond(q, _ => upstream))).error == ""
  {
    var upstream := Gateway.Resolved(Gateway.Completion(Some(choices)));
    Text.BlankIffAllWhitespace(q);
    Search.SearchEffect(w, q, Received(Gateway.Respond(q, _ => upstream)));
  }
}
