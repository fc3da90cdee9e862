/**
 * The completion endpoint of the proxy server: `POST /api/groq` with a JSON body
 * `{ query }`. It asks the upstream chat-completion service for an answer under a
 * fixed dental-expert instruction and shapes the reply. The upstream call is a
 * parameter (`create`), standing for `groq.chat.completions.create`.
 */
module Gateway {
  import opened Wrappers

  const SystemPrompt := "You are a highly specialized dental expert. Provide concise and accurate information on dental context asked. Avoid mentioning that you are an AI or a bot, and answer in a professional tone, go direct to the answer of what you have been asked."
  const ModelName := "mixtral-8x7b-32768"
  const NoContent := "No content found."
  const FailureMessage := "Failed to fetch AI response"

  datatype Role = System | User
  datatype Message = Message(role: Role, content: string)
  datatype ChatRequest = ChatRequest(messages: seq<Message>, model: string)

  /** `choices[i].message`, whose `content` may be absent, null or a string. */
  datatype ChoiceMessage = ChoiceMessage(content: Option<string>)
  /** One element of `choices`, whose `message` may be absent. */
  datatype Choice = Choice(message: Option<ChoiceMessage>)
  /** The resolved completion; `choices` may be missing, which makes `choices[0]` throw. */
  datatype Completion = Completion(choices: Option<seq<Choice>>)
  /** What awaiting the upstream call gives: a completion, or a thrown error with its detail. */
  datatype Upstream = Resolved(completion: Completion) | Rejected(detail: string)

  /** The JSON body sent back: `{ aiResponse }` on success, `{ error }` on failure. */
  datatype Body = Answer(aiResponse: string) | ErrorBody(error: string)
  datatype Response = Response(status: int, body: Body)

  /** The request handed to the upstream service: the system instruction, then the user's query verbatim. */
  function BuildRequest(query: string): (req: ChatRequest)
    ensures |req.messages| == 2
    ensures req.messages[0].role == System && req.messages[1].role == User
    ensures req.messages[0].content == SystemPrompt
    ensures req.messages[1].content == query
    ensures req.model == ModelName
  {
    ChatRequest([Message(System, SystemPrompt), Message(User, query)], ModelName)
  }

  /** Reads back the user's query from a request shaped like those the handler sends. */
  function UserQuery(req: ChatRequest): (q: Option<string>)
    ensures q.Some? ==> |req.messages| == 2 && req.messages[1] == Message(User, q.value)
  {
    if |req.messages| == 2 && req.messages[0] == Message(System, SystemPrompt) && req.messages[1].role == User
    then Some(req.messages[1].content)
    else None
  }

  /** The query travels to the upstream service unchanged, and nothing else varies with it. */
  lemma BuildRequestRoundTrip(query: string)
    ensures UserQuery(BuildRequest(query)) == Some(query)
  {
  }

  /** The system message and the model are the same whatever the query. */
  lemma SystemMessageIsFixed(q1: string, q2: string)
    ensures BuildRequest(q1).messages[0] == BuildRequest(q2).messages[0]
    ensures BuildRequest(q1).model == BuildRequest(q2).model
    ensures BuildRequest(q1) == BuildRequest(q2) <==> q1 == q2
  {
    if BuildRequest(q1) == BuildRequest(q2) {
      assert BuildRequest(q1).messages[1].content == BuildRequest(q2).messages[1].content;
    }
  }

  /** The first choice carries a non-empty message text (the truthy case of `||`). */
  predicate HasContent(choices: seq<Choice>)
  {
    |choices| > 0 && choices[0].message.Some? &&
    choices[0].message.value.content.Some? && choices[0].message.value.content.value != ""
  }

  /** `choices[0]?.message?.content || "No content found."` */
  function FirstContent(choices: seq<Choice>): (answer: string)
    ensures answer != ""
    ensures HasContent(choices) ==> answer == choices[0].message.value.content.value
    ensures !HasContent(choices) ==> answer == NoContent
  {
    if |choices| == 0 then NoContent
    else match choices[0].message
      case None => NoContent
      case Some(m) =>
        match m.content
        case None => NoContent
        case Some(text) => if text == "" then NoContent else text
  }

  /** The whole handler body: upstream call inside `try`, any throw mapped to 500. */
  function Respond(query: string, create: ChatRequest -> Upstream): (resp: Response)
    ensures resp.status == 200 || resp.status == 500
    ensures resp.status == 200 <==> resp.body.Answer?
    ensures resp.status == 500 ==> resp.body == ErrorBody(FailureMessage)
    ensures resp.status == 200 <==>
              (create(BuildRequest(query)).Resolved? && create(BuildRequest(query)).completion.choices.Some?)
    ensures resp.status == 200 ==>
              resp.body.aiResponse == FirstContent(create(BuildRequest(query)).completion.choices.value)
  {
    match create(BuildRequest(query))
    case Rejected(_) => Response(500, ErrorBody(FailureMessage))
    case Resolved(completion) =>
      match completion.choices
      case None => Response(500, ErrorBody(FailureMessage))
      case Some(choices) => Response(200, Answer(FirstContent(choices)))
  }

  /** A successful reply never reports an empty answer: missing text becomes the fixed placeholder. */
  lemma SuccessAnswerNonEmpty(query: string, create: ChatRequest -> Upstream)
    ensures Respond(query, create).body.Answer? ==> Respond(query, create).body.aiResponse != ""
    ensures Respond(query, create).body.Answer? && Respond(query, create).body.aiResponse != NoContent ==>
              HasContent(create(BuildRequest(query)).completion.choices.value)
  {
  }

  /** The failure reply carries nothing from the upstream error: two different errors give the same reply. */
  lemma FailureHidesUpstreamDetail(query: string, c1: ChatRequest -> Upstream, c2: ChatRequest -> Upstream)
    requires c1(BuildRequest(query)).Rejected? && c2(BuildRequest(query)).Rejected?
    ensures Respond(query, c1) == Respond(query, c2) == Response(500, ErrorBody(FailureMessage))
  {
  }
}
