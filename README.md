# Dental search window, modelled in Dafny

The system lets a user ask a dental question by typing or speaking. The browser
page sends the question to a small proxy server. The server asks a chat-completion
service for an answer under a fixed dental-expert instruction. The page appends
the answer to a growing result list. Clicking a result opens a detail view that
can read the answer aloud.

This project models the three stateful or decision-making parts of that system:

- `Search` (search.dfy): the search window component. Its state is the query,
  the result list, the loading and error flags, the listening flag and the
  detail-view fields. Its handlers are the validation gate, the fetch to the
  completion endpoint, the speech-recognition callbacks, the Enter key, and
  opening and closing the detail view. The class `SearchWindow` updates these
  fields in place. Each event handler (`SetQuery`, `StartListening`,
  `OnResult`, `OnSpeechEnd`, `OnError`, `HandleKeyDown`, `OpenModal`,
  `CloseModal`) is proved to perform one step of the pure function
  `Search.Step` on the snapshot `State()`. The helpers perform its pieces:
  `HandleSearch` performs `AfterSearch`, `FetchFromGroqBackend` performs
  `AfterPost` then `AfterReply`, `PostQuery` performs `AfterPost`,
  `ReceiveReply` performs `AfterReply`, and `CheckQuery` sets only the error. Lemmas about `Run`
  (a sequence of events) state what holds over a whole session.
- `Playback` (playback.dfy): the read-aloud toggle of the detail view, a
  two-state machine on `isReading`. The speech-synthesis engine is a log of
  `Speak(utterance)` and `Cancel` calls. The class `Modal` is tied to
  `Playback.Step` the same way.
- `Gateway` (gateway.dfy): the `POST /api/groq` handler of the server, as pure
  functions. The upstream completion call is a function parameter
  `create: ChatRequest -> Upstream`. It either resolves with a completion or
  rejects with an error detail.
- `Pipeline` (pipeline.dfy) connects the two sides: how the page's `fetch`
  reads a gateway reply, and what lands in the result list for each upstream
  behaviour.
- `Text` (text.dfy) is `String.prototype.trim`, which the validation gate uses.
  It strips the ECMAScript white-space and line-terminator code points.

Inputs from outside the model are parameters. The outcome of a page fetch is a
`FetchOutcome`: `Success(aiResponse)`, with the field possibly missing, or
`Failure` when the promise rejects. Speech-recognition results and errors,
and utterance end and error, are methods the engine calls.

Points where the code behaves differently from what one might expect:

- A failure of the upstream service does not set the page's error message.
  The server answers 500 with `{ error }`. `fetch` still resolves, and the body
  has no `aiResponse`. So the page appends a result whose description is
  "No valid response from AI." and clears the error
  (`Pipeline.UpstreamFailureShowsPlaceholder`). Only a transport failure or an
  unparsable body produces "Error fetching AI response, please try again later."
- Closing the detail view does not cancel speech, and `isReading` survives it.
  `closeModal` touches only the three detail-view fields, and a closed modal
  renders nothing without touching the engine.
- The endpoint is `/api/groq`. The messages are the code's own constants:
  "Please enter a valid dental search term" and "No content found.", with its full stop.
- A recognition result does not itself clear the listening flag. Listening
  ends only through the speech-end or error callback, and then stays off until
  the mic is clicked again (`Search.CaptureEndsIdle`);
  the result callback sets the query and searches it (`Search.SearchWindow.OnResult`).
- Every result has the id "ai-response". Repeated queries give repeated entries.

## Model

| member | source | states |
|---|---|---|
| Text.TrimStart | src/components/SearchWindow.jsx:55 | the result is the suffix of the input after its leading white space, and starts with a non-white character when non-empty |
| Text.TrimEnd | src/components/SearchWindow.jsx:55 | the result is the prefix of the input before its trailing white space, and ends with a non-white character when non-empty |
| Text.Trim | src/components/SearchWindow.jsx:55 | the result is the input minus exactly its leading and trailing white space: it sits in the input at some offset with only white space before and after it, and neither starts nor ends with white space |
| Text.IsWhitespace | src/components/SearchWindow.jsx:55 | the code points `trim` removes: the ECMAScript white-space and line-terminator characters (tab, line feed, vertical tab, form feed, carriage return, space, no-break space, the Unicode space separators, line and paragraph separators, byte order mark) |
| Text.IsBlank | src/components/SearchWindow.jsx:55 | the gate's test `searchQuery.trim() === ""` |
| Text.BlankIffAllWhitespace | src/components/SearchWindow.jsx:55 | `s.trim() === ""` holds exactly when every character of `s` is white space |
| Text.TrimIdempotent | src/components/SearchWindow.jsx:55 | trimming an already trimmed string changes nothing |
| Gateway.BuildRequest | server.js:19-31 | the upstream request has exactly two messages, system then user; the system content is the fixed dental prompt, the user content is the query, and the model is "mixtral-8x7b-32768" |
| Gateway.UserQuery | server.js:25-28 | a query read back from a request is the content of its second message, which has the user role |
| Gateway.BuildRequestRoundTrip | server.js:27 | the query is passed verbatim: reading it back from the built request gives it unchanged |
| Gateway.SystemMessageIsFixed | server.js:21-24 | the system message and the model are the same for every query; two requests are equal only for equal queries |
| Gateway.FirstContent | server.js:34 | the answer is the first choice's message text when it is present and non-empty; in every other case (no choice, no message, no content, empty text) it is "No content found."; it is never empty |
| Gateway.Respond | server.js:14-39 | status is 200 or 500; 200 exactly when the upstream call resolves with a `choices` field, and then the body is only `aiResponse`, equal to the extracted answer; 500 otherwise, with body `{ error: "Failed to fetch AI response" }` and no answer |
| Gateway.SuccessAnswerNonEmpty | server.js:34-35 | a success reply never carries an empty answer; an answer other than the placeholder comes from real content |
| Gateway.FailureHidesUpstreamDetail | server.js:36-38 | two different upstream errors yield the same 500 reply: no upstream detail reaches the client |
| Search.Describe | src/components/SearchWindow.jsx:78 | the description is the returned `aiResponse` when present and non-empty, otherwise "No valid response from AI."; it is never empty |
| Search.ResultFor | src/components/SearchWindow.jsx:75-79 | the `aiResult` object: id "ai-response", the query as title, the described answer; for a non-blank query it is well-formed (shared id, non-blank title, non-empty description) |
| Search.SearchEffect | src/components/SearchWindow.jsx:54-88 | `handleSearch` appends a result only for a non-blank query whose fetch resolved, posts exactly when the query is non-blank, leaves loading false after a post, sets the matching error message, and changes no other field |
| Search.AfterPost | src/components/SearchWindow.jsx:64-72 | the state while the request is outstanding: loading raised and one POST of the query to the endpoint added |
| Search.AfterReply | src/components/SearchWindow.jsx:74-87 | the state after the reply: one result appended and the error cleared on a resolved fetch, the fixed fetch error on a rejection, loading lowered in both cases |
| Search.AfterSearch | src/components/SearchWindow.jsx:54-61 | `handleSearch`: a blank query sets only the invalid-query error; any other clears the error, then posts and settles |
| Search.Step | src/components/SearchWindow.jsx:33-106 | one handler per event: typing, Enter, mic click, recognition result, speech-end, recognition error, opening and closing the detail view |
| Search.WhitespaceQueryRejected | src/components/SearchWindow.jsx:54-58 | a query made only of white space sets "Please enter a valid dental search term" and changes nothing else: no request, same results, same loading flag |
| Search.VisibleQueryAnswered | src/components/SearchWindow.jsx:59-82 | a query with a visible character posts once and, when the answer is non-empty, appends exactly `{ _id: "ai-response", title: query, description: answer }`; the error ends empty and loading ends false |
| Search.VisibleQueryFailed | src/components/SearchWindow.jsx:83-87 | a rejected fetch posts once, keeps the results, sets "Error fetching AI response, please try again later." and leaves loading false |
| Search.StepEffect | src/components/SearchWindow.jsx:37-94 | each event appends to the results exactly the answer of the query it submits, appends the POST it issues, never adds a result without a POST, and clears loading exactly when it posts |
| Search.StepFlags | src/components/SearchWindow.jsx:33-61 | a submitting event leaves the submission's error message and other events keep the error; the mic click sets listening, speech-end and recognition error clear it, and every other event (including a recognition result) leaves it |
| Search.RunAppendsInOrder | src/components/SearchWindow.jsx:81 | over any run of events the result list is the old list followed by the run's answers, in order: entries are only appended, never removed or changed |
| Search.RunPostsInOrder | src/components/SearchWindow.jsx:63-72 | over any run the requests sent are the old ones followed by one POST per non-blank submission, in order |
| Search.AnswersNeedPosts | src/components/SearchWindow.jsx:63-87 | a run adds at most as many results as it sends requests |
| Search.RunKeepsResultsWellFormed | src/components/SearchWindow.jsx:75-81 | every result ever in the list has id "ai-response", a non-blank title and a non-empty description |
| Search.RunNeverLeavesLoading | src/components/SearchWindow.jsx:63-88 | starting not loading, the window is not loading once every handler of a run has finished, because each handler lowers the flag after its fetch settles |
| Search.ListeningStaysOff | src/components/SearchWindow.jsx:33-51 | once not listening, the window stays not listening through any events other than a mic click |
| Search.CaptureEndsIdle | src/components/SearchWindow.jsx:43-51 | no stuck listening: after a speech-end or a recognition error, whatever came before, the window is not listening until the mic is clicked again |
| Search.SearchWindow.constructor | src/components/SearchWindow.jsx:16-23 | the initial state: empty query, no results, not loading, no error, not listening, detail view closed and empty |
| Search.SearchWindow.SetQuery | src/components/SearchWindow.jsx:115 | typing replaces the query and nothing else |
| Search.SearchWindow.StartListening | src/components/SearchWindow.jsx:33-35 | sets listening and makes one `start` call on the recognizer; nothing else changes |
| Search.SearchWindow.OnResult | src/components/SearchWindow.jsx:37-41 | the transcript becomes the query and is searched as by `handleSearch`; the listening flag is unchanged |
| Search.SearchWindow.OnSpeechEnd | src/components/SearchWindow.jsx:43-46 | clears listening and makes one `stop` call; nothing else changes |
| Search.SearchWindow.OnError | src/components/SearchWindow.jsx:48-51 | clears listening; nothing else changes |
| Search.SearchWindow.CheckQuery | src/components/SearchWindow.jsx:55-59 | the query is accepted exactly when it is not blank; the error becomes "" if accepted, else the fixed invalid-query message; nothing else changes |
| Search.SearchWindow.HandleSearch | src/components/SearchWindow.jsx:54-61 | a blank query only sets the invalid-query error; otherwise exactly one POST, then one appended result on success with the error cleared, or unchanged results and the fetch error on failure, with loading false after either |
| Search.SearchWindow.FetchFromGroqBackend | src/components/SearchWindow.jsx:63-88 | posts the query once and settles it; loading is false afterwards |
| Search.SearchWindow.PostQuery | src/components/SearchWindow.jsx:64-72 | while the request is outstanding, loading is true and exactly one POST of the query has been added; the error and results are untouched, so the error is still the "" the gate set |
| Search.SearchWindow.ReceiveReply | src/components/SearchWindow.jsx:74-87 | on success one result for the query is appended after the old ones and the error is cleared; on failure the results are kept and the fixed fetch error is set; loading ends false |
| Search.SearchWindow.HandleKeyDown | src/components/SearchWindow.jsx:90-94 | Enter searches the current query; any other key changes nothing |
| Search.SearchWindow.OpenModal | src/components/SearchWindow.jsx:96-100 | sets title and content and opens the detail view; nothing else changes |
| Search.SearchWindow.CloseModal | src/components/SearchWindow.jsx:102-106 | closes the detail view and empties its title and content; nothing else changes |
| Playback.UtteranceText | src/components/Modal.jsx:15-19 | the utterance text is the title, then ". ", then the content, and it is configured with lang "en-US", volume 1, rate 1 and pitch 1 |
| Playback.UtteranceFor | src/components/Modal.jsx:15-19 | the utterance built for a title and content, configured with lang "en-US" and unit volume, rate and pitch |
| Playback.Step | src/components/Modal.jsx:10-33 | the toggle (cancel when reading, speak otherwise) and the two callbacks that force not reading |
| Playback.ToggleFlips | src/components/Modal.jsx:10-23 | a toggle flips `isReading` and makes exactly one engine call: a cancel when reading, a speak of the view's utterance when not |
| Playback.ToggleTwice | src/components/Modal.jsx:10-35 | two toggles from not reading, with no callback between, end not reading after one speak followed by one cancel |
| Playback.StepCoherent | src/components/Modal.jsx:10-33 | every event keeps the control coherent: while reading the last call was a speak, each cancel directly follows a speak, every utterance is configured alike |
| Playback.RunCoherent | src/components/Modal.jsx:10-33 | the same coherence holds after any run of toggles and callbacks |
| Playback.RunLogsCalls | src/components/Modal.jsx:10-33 | the engine calls of a run are exactly those of its toggles, in order; the callbacks call nothing |
| Playback.ReadingStaysOff | src/components/Modal.jsx:10-33 | once not reading, the control stays not reading through any callbacks until the next toggle |
| Playback.CallbackEndsReading | src/components/Modal.jsx:26-33 | after `onend` or `onerror`, from either state, the control is not reading until the button is toggled again |
| Playback.IdleCoherent | src/components/Modal.jsx:6 | the initial state, not reading with no engine calls, is coherent |
| Playback.Modal.constructor | src/components/Modal.jsx:6 | starts not reading, with no engine calls, and coherent |
| Playback.Modal.ToggleSpeech | src/components/Modal.jsx:10-35 | when reading: one cancel and not reading; otherwise one speak of `${title}. ${content}` and reading; keeps the control coherent |
| Playback.Modal.OnEnd | src/components/Modal.jsx:26-28 | not reading afterwards, from either state; no engine call; keeps the control coherent |
| Playback.Modal.OnError | src/components/Modal.jsx:30-33 | not reading afterwards, from either state; no engine call; keeps the control coherent |
| Playback.Modal.Render | src/components/Modal.jsx:37 | closed renders nothing; open shows the title, the content and the stop icon exactly when reading; rendering changes no state and calls no engine |
| Pipeline.Received | src/components/SearchWindow.jsx:66-78 | every gateway reply resolves the page's fetch; the page sees an `aiResponse` exactly when the reply body is an answer, and then sees that answer |
| Pipeline.UpstreamFailureShowsPlaceholder | server.js:36-38 | when the upstream call throws or gives no `choices`, a non-blank search appends the "No valid response from AI." result and leaves the error empty |
| Pipeline.AnswerReachesResults | server.js:34-35 | when the upstream call completes, a non-blank search appends a result carrying the gateway's answer, which is "No content found." when the first choice has no text; the error ends empty |

## Left out

- The `fetch` transport, JSON encoding and parsing, and the host "http://localhost:5000": a page fetch is its outcome, passed in.
- The Groq SDK call: it is the parameter `create`.
- Express routing, CORS, `express.json`, `dotenv`, `app.listen` and the port default: server set-up with no decisions in it.
- The request body's `query` is modelled as a string; a missing or non-string `query` is passed to the upstream service as it is, and the model does not represent it.
- A non-string truthy `content` in the upstream reply: the model's content is a string or absent.
- The Sanity client: it is configured and never used.
- The page bootstrap in src/index.js, the JSX markup, styling, icons and Markdown rendering; `Playback.Modal.Render` keeps only whether anything is shown and which toggle icon.
- The search button's click handler: it passes the click event, not a string, to `handleSearch`, and fails on `.trim()`.
- The browser speech engines' internals: recognition is its `start`/`stop` calls and the callbacks it delivers; synthesis is its `speak`/`cancel` calls. There is no guard for a browser without speech recognition, and the recognizer object is created again on every render; neither is modelled.
- `console.error` logging in the error callbacks and the fetch `catch`.
- A fetch that never settles: the request has no timeout, so in the program `loading` stays true for good and the spinner keeps turning. `FetchOutcome` has no such case; only `Search.SearchWindow.PostQuery` without a following `ReceiveReply` represents it, and `Search.RunNeverLeavesLoading` holds only because every handler in the model finishes.
- Interleaving of several in-flight searches and React's batching of state updates: each handler is one atomic step, so results appear in submission order in the model.
- Strings are sequences of Unicode scalar values, not UTF-16 code units; every white-space code point `trim` removes is a single unit in both.
