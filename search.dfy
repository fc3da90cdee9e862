/**
 * The search window: the page's one stateful component. It owns the query text,
 * the growing list of answers, the loading and error flags, the voice-capture
 * flag and the fields of the detail view. The `fetch` to the completion
 * endpoint and the browser's speech recognizer are outside the model: a fetch
 * is represented by its outcome, passed in, and the recognizer by the events it
 * delivers and a log of the `start`/`stop` calls made on it.
 *
 * `Step` is the specification of every handler, one event at a time; the class
 * `SearchWindow` updates its fields in place and each method is proved to
 * perform the matching step on `State()`.
 */
module Search {
  import opened Wrappers
  import Text

  const Endpoint := "http://localhost:5000/api/groq"
  const InvalidQueryMessage := "Please enter a valid dental search term"
  const FetchErrorMessage := "Error fetching AI response, please try again later."
  const NoValidResponse := "No valid response from AI."
  const AiResponseId := "ai-response"

  /** One entry of the result list: `{ _id, title, description }`. */
  datatype SearchResult = SearchResult(id: string, title: string, description: string)

  /**
   * What awaiting `fetch(...)` and `response.json()` gives: a parsed body, whose
   * `aiResponse` field may be missing, or a rejection (network failure, unparsable body).
   */
  datatype FetchOutcome = Success(aiResponse: Option<string>) | Failure

  /** A `POST` issued by the window, with the `query` field of its JSON body. */
  datatype Request = Post(url: string, query: string)

  /** Calls made on the speech recognizer. */
  datatype RecognitionCall = Start | Stop

  /** A snapshot of the window's state. */
  datatype Window = Window(
    query: string,
    results: seq<SearchResult>,
    loading: bool,
    error: string,
    isListening: bool,
    isModalOpen: bool,
    modalTitle: string,
    modalContent: string,
    requests: seq<Request>,
    recognition: seq<RecognitionCall>)

  /** The state right after mounting. */
  const Initial := Window("", [], false, "", false, false, "", "", [], [])

  /** `data.aiResponse || "No valid response from AI."` */
  function Describe(aiResponse: Option<string>): (d: string)
    ensures d != ""
    ensures aiResponse.Some? && aiResponse.value != "" ==> d == aiResponse.value
    ensures aiResponse.None? || aiResponse == Some("") ==> d == NoValidResponse
  {
    match aiResponse
    case Some(text) => if text == "" then NoValidResponse else text
    case None => NoValidResponse
  }

  /** The result built from an answer to `searchQuery`; every result has the same id. */
  function ResultFor(searchQuery: string, aiResponse: Option<string>): (r: SearchResult)
    ensures !Text.IsBlank(searchQuery) ==> WellFormed(r)
  {
    SearchResult(AiResponseId, searchQuery, Describe(aiResponse))
  }

  /** What every entry of the result list looks like. */
  predicate WellFormed(r: SearchResult)
  {
    r.id == AiResponseId && !Text.IsBlank(r.title) && r.description != ""
  }

  predicate AllWellFormed(results: seq<SearchResult>)
  {
    forall i :: 0 <= i < |results| ==> WellFormed(results[i])
  }

  // ---------------------------------------------------------------------------
  // The handlers, as functions of the state

  /** The part of `fetchFromGroqBackend` before the `await`: loading is raised and the POST goes out. */
  function AfterPost(w: Window, searchQuery: string): Window
  {
    w.(loading := true, requests := w.requests + [Post(Endpoint, searchQuery)])
  }

  /** The part of `fetchFromGroqBackend` after the `await`. */
  function AfterReply(w: Window, searchQuery: string, outcome: FetchOutcome): Window
  {
    match outcome
    case Success(aiResponse) =>
      w.(results := w.results + [ResultFor(searchQuery, aiResponse)], error := "", loading := false)
    case Failure =>
      w.(error := FetchErrorMessage, loading := false)
  }

  /** `handleSearch(searchQuery)`: the validation gate, then the fetch. */
  function AfterSearch(w: Window, searchQuery: string, outcome: FetchOutcome): Window
  {
    if Text.IsBlank(searchQuery) then w.(error := InvalidQueryMessage)
    else AfterReply(AfterPost(w.(error := ""), searchQuery), searchQuery, outcome)
  }

  /** The events the window reacts to; a search-triggering event carries the outcome of its fetch. */
  datatype Event =
    | Typed(value: string)                              // onChange of the input
    | KeyDown(key: string, outcome: FetchOutcome)       // handleKeyDown
    | MicClicked                                        // startListening
    | Recognized(transcript: string, outcome: FetchOutcome)  // recognition.onresult
    | SpeechEnded                                       // recognition.onspeechend
    | RecognitionFailed                                 // recognition.onerror
    | Opened(title: string, content: string)            // openModal
    | Closed                                            // closeModal

  function Step(w: Window, e: Event): Window
  {
    match e
    case Typed(value) => w.(query := value)
    case KeyDown(key, outcome) => if key == "Enter" then AfterSearch(w, w.query, outcome) else w
    case MicClicked => w.(isListening := true, recognition := w.recognition + [Start])
    case Recognized(transcript, outcome) => AfterSearch(w.(query := transcript), transcript, outcome)
    case SpeechEnded => w.(isListening := false, recognition := w.recognition + [Stop])
    case RecognitionFailed => w.(isListening := false)
    case Opened(title, content) => w.(modalTitle := title, modalContent := content, isModalOpen := true)
    case Closed => w.(isModalOpen := false, modalContent := "", modalTitle := "")
  }

  function Run(w: Window, es: seq<Event>): Window
    decreases |es|
  {
    if es == [] then w else Run(Step(w, es[0]), es[1..])
  }

  // ---------------------------------------------------------------------------
  // An independent account of what an event submits

  /** The text an event hands to `handleSearch`, with the outcome of the fetch it would make. */
  function Submission(w: Window, e: Event): Option<(string, FetchOutcome)>
  {
    match e
    case KeyDown(key, outcome) => if key == "Enter" then Some((w.query, outcome)) else None
    case Recognized(transcript, outcome) => Some((transcript, outcome))
    case _ => None
  }

  /** The POST a submission of `s` issues: one exactly when `s` is not blank. */
  function PostsFor(s: string): seq<Request>
  {
    if Text.IsBlank(s) then [] else [Post(Endpoint, s)]
  }

  /** The result a submission of `s` adds: one exactly when `s` is not blank and the fetch resolved. */
  function ResultsFor(s: string, outcome: FetchOutcome): seq<SearchResult>
  {
    if Text.IsBlank(s) || outcome.Failure? then [] else [ResultFor(s, outcome.aiResponse)]
  }

  /** The error message a submission of `s` leaves. */
  function ErrorAfter(s: string, outcome: FetchOutcome): string
  {
    if Text.IsBlank(s) then InvalidQueryMessage
    else if outcome.Failure? then FetchErrorMessage
    else ""
  }

  /** What `handleSearch` does, stated through what the submission issues and adds. */
  lemma SearchEffect(w: Window, s: string, outcome: FetchOutcome)
    ensures AfterSearch(w, s, outcome).results == w.results + ResultsFor(s, outcome)
    ensures AfterSearch(w, s, outcome).requests == w.requests + PostsFor(s)
    ensures AfterSearch(w, s, outcome).loading == (w.loading && Text.IsBlank(s))
    ensures AfterSearch(w, s, outcome).error == ErrorAfter(s, outcome)
    ensures AfterSearch(w, s, outcome).(results := w.results, requests := w.requests, loading := w.loading, error := w.error) == w
  {
    if !Text.IsBlank(s) {
      match outcome
      case Success(_) =>
      case Failure =>
    }
  }

  /** A query made only of white space is rejected: the error is set and nothing else moves, no request included. */
  lemma WhitespaceQueryRejected(w: Window, s: string, outcome: FetchOutcome)
    requires forall i :: 0 <= i < |s| ==> Text.IsWhitespace(s[i])
    ensures AfterSearch(w, s, outcome) == w.(error := InvalidQueryMessage)
  {
    Text.BlankIffAllWhitespace(s);
  }

  /** A query with any visible character is sent, and a resolved fetch appends exactly its answer. */
  lemma VisibleQueryAnswered(w: Window, s: string, answer: string)
    requires exists i :: 0 <= i < |s| && !Text.IsWhitespace(s[i])
    requires answer != ""
    ensures AfterSearch(w, s, Success(Some(answer))).results == w.results + [SearchResult(AiResponseId, s, answer)]
    ensures AfterSearch(w, s, Success(Some(answer))).requests == w.requests + [Post(Endpoint, s)]
    ensures AfterSearch(w, s, Success(Some(answer))).error == ""
    ensures !AfterSearch(w, s, Success(Some(answer))).loading
  {
    Text.BlankIffAllWhitespace(s);
  }

  /** A query with any visible character whose fetch is rejected leaves the results and sets the fixed error. */
  lemma VisibleQueryFailed(w: Window, s: string)
    requires exists i :: 0 <= i < |s| && !Text.IsWhitespace(s[i])
    ensures AfterSearch(w, s, Failure).results == w.results
    ensures AfterSearch(w, s, Failure).requests == w.requests + [Post(Endpoint, s)]
    ensures AfterSearch(w, s, Failure).error == FetchErrorMessage
    ensures !AfterSearch(w, s, Failure).loading
  {
    Text.BlankIffAllWhitespace(s);
  }

  function Posted(w: Window, e: Event): seq<Request>
  {
    match Submission(w, e)
    case Some((s, _)) => PostsFor(s)
    case None => []
  }

  function Produced(w: Window, e: Event): seq<SearchResult>
  {
    match Submission(w, e)
    case Some((s, outcome)) => ResultsFor(s, outcome)
    case None => []
  }

  /** What one event adds to the result list and to the requests sent. */
  lemma StepEffect(w: Window, e: Event)
    ensures Step(w, e).results == w.results + Produced(w, e)
    ensures Step(w, e).requests == w.requests + Posted(w, e)
    ensures |Produced(w, e)| <= |Posted(w, e)|
    ensures Step(w, e).loading == (w.loading && Posted(w, e) == [])
  {
    match e
    case KeyDown(key, outcome) =>
      if key == "Enter" {
        SearchEffect(w, w.query, outcome);
      }
    case Recognized(transcript, outcome) =>
      SearchEffect(w.(query := transcript), transcript, outcome);
    case _ =>
  }

  /** What one event does to the error message and the listening flag. */
  lemma StepFlags(w: Window, e: Event)
    ensures Submission(w, e).Some? ==>
              Step(w, e).error == ErrorAfter(Submission(w, e).value.0, Submission(w, e).value.1)
    ensures Submission(w, e).None? ==> Step(w, e).error == w.error
    ensures e.MicClicked? ==> Step(w, e).isListening
    ensures e.SpeechEnded? || e.RecognitionFailed? ==> !Step(w, e).isListening
    ensures !(e.MicClicked? || e.SpeechEnded? || e.RecognitionFailed?) ==> Step(w, e).isListening == w.isListening
  {
    match e
    case KeyDown(key, outcome) =>
      if key == "Enter" {
        SearchEffect(w, w.query, outcome);
      }
    case Recognized(transcript, outcome) =>
      SearchEffect(w.(query := transcript), transcript, outcome);
    case _ =>
  }

  /** Answers accumulated over a run of events, in the order the fetches resolved. */
  function Answers(w: Window, es: seq<Event>): seq<SearchResult>
    decreases |es|
  {
    if es == [] then [] else Produced(w, es[0]) + Answers(Step(w, es[0]), es[1..])
  }

  /** Requests issued over a run of events, in order. */
  function Posts(w: Window, es: seq<Event>): seq<Request>
    decreases |es|
  {
    if es == [] then [] else Posted(w, es[0]) + Posts(Step(w, es[0]), es[1..])
  }

  /** The result list only grows: a run appends its answers, in order, after the results already there. */
  lemma {:induction false} RunAppendsInOrder(w: Window, es: seq<Event>)
    ensures Run(w, es).results == w.results + Answers(w, es)
    decreases |es|
  {
    if es != [] {
      var w1 := Step(w, es[0]);
      StepEffect(w, es[0]);
      RunAppendsInOrder(w1, es[1..]);
      AppendAssoc(w.results, Produced(w, es[0]), Answers(w1, es[1..]));
    }
  }

  /** The requests a run sends are appended, in order, to those sent before. */
  lemma {:induction false} RunPostsInOrder(w: Window, es: seq<Event>)
    ensures Run(w, es).requests == w.requests + Posts(w, es)
    decreases |es|
  {
    if es != [] {
      var w1 := Step(w, es[0]);
      StepEffect(w, es[0]);
      RunPostsInOrder(w1, es[1..]);
      AppendAssoc(w.requests, Posted(w, es[0]), Posts(w1, es[1..]));
    }
  }

  lemma AppendAssoc<T>(a: seq<T>, b: seq<T>, c: seq<T>)
    ensures a + b + c == a + (b + c)
  {
  }

  /** No result without a request: a run adds at most as many results as it sends POSTs. */
  lemma {:induction false} AnswersNeedPosts(w: Window, es: seq<Event>)
    ensures |Answers(w, es)| <= |Posts(w, es)|
    decreases |es|
  {
    if es != [] {
      StepEffect(w, es[0]);
      AnswersNeedPosts(Step(w, es[0]), es[1..]);
    }
  }

  /** Every result in the list has the shared id, a non-blank title and a non-empty description. */
  lemma {:induction false} RunKeepsResultsWellFormed(w: Window, es: seq<Event>)
    requires AllWellFormed(w.results)
    ensures AllWellFormed(Run(w, es).results)
    decreases |es|
  {
    if es != [] {
      StepEffect(w, es[0]);
      assert AllWellFormed(Step(w, es[0]).results);
      RunKeepsResultsWellFormed(Step(w, es[0]), es[1..]);
    }
  }

  /**
   * Once every handler has finished, the window is not loading: each handler that raises
   * the flag lowers it after its fetch settles. A fetch that never settles is not an outcome here.
   */
  lemma {:induction false} RunNeverLeavesLoading(w: Window, es: seq<Event>)
    requires !w.loading
    ensures !Run(w, es).loading
    decreases |es|
  {
    if es != [] {
      StepEffect(w, es[0]);
      RunNeverLeavesLoading(Step(w, es[0]), es[1..]);
    }
  }

  /** A run is its first `k` events followed by the rest, continuing from where the first part left off. */
  lemma {:induction false} RunSplit(w: Window, es: seq<Event>, k: nat)
    requires k <= |es|
    ensures Run(w, es) == Run(Run(w, es[..k]), es[k..])
    decreases k
  {
    if k > 0 {
      assert es[..k][1..] == es[1..][..k - 1];
      assert es[k..] == es[1..][k - 1..];
      RunSplit(Step(w, es[0]), es[1..], k - 1);
    }
  }

  /** Once not listening, the window stays so until the mic is clicked. */
  lemma {:induction false} ListeningStaysOff(w: Window, es: seq<Event>)
    requires !w.isListening
    requires forall i :: 0 <= i < |es| ==> !es[i].MicClicked?
    ensures !Run(w, es).isListening
    decreases |es|
  {
    if es != [] {
      StepFlags(w, es[0]);
      ListeningStaysOff(Step(w, es[0]), es[1..]);
    }
  }

  /**
   * No stuck listening: after a speech-end or a recognition error, whatever
   * came before, the window is not listening until the mic is clicked again.
   */
  lemma CaptureEndsIdle(w: Window, es: seq<Event>, k: nat)
    requires k < |es| && (es[k].SpeechEnded? || es[k].RecognitionFailed?)
    requires forall i :: k < i < |es| ==> !es[i].MicClicked?
    ensures !Run(w, es).isListening
  {
    var head := es[..k + 1];
    RunSplit(w, es, k + 1);
    RunSplit(w, head, k);
    assert head[..k] == es[..k] && head[k..] == [es[k]];
    var before := Run(w, es[..k]);
    assert Run(before, [es[k]]) == Run(Step(before, es[k]), []);
    StepFlags(before, es[k]);
    ListeningStaysOff(Run(w, head), es[k + 1..]);
  }

  // ---------------------------------------------------------------------------
  // The component, updating its fields in place

  class SearchWindow {
    var query: string
    var results: seq<SearchResult>
    var loading: bool
    var error: string
    var isListening: bool
    var isModalOpen: bool
    var modalTitle: string
    var modalContent: string
    /** The POSTs sent to the completion endpoint, oldest first. */
    var requests: seq<Request>
    /** The `start`/`stop` calls made on the speech recognizer, oldest first. */
    var recognition: seq<RecognitionCall>

    ghost function State(): Window
      reads this
    {
      Window(query, results, loading, error, isListening, isModalOpen, modalTitle, modalContent, requests, recognition)
    }

    constructor ()
      ensures State() == Initial
    {
      query, results, loading, error := "", [], false, "";
      isListening, isModalOpen, modalTitle, modalContent := false, false, "", "";
      requests, recognition := [], [];
    }

    /** The input's `onChange`. */
    method SetQuery(value: string)
      modifies this
      ensures State() == old(State()).(query := value)
      ensures State() == Step(old(State()), Typed(value))
    {
      query := value;
    }

    /** `startListening`: raise the flag and start the recognizer. */
    method StartListening()
      modifies this
      ensures isListening && recognition == old(recognition) + [Start]
      ensures State() == old(State()).(isListening := true, recognition := old(recognition) + [Start])
      ensures State() == Step(old(State()), MicClicked)
    {
      isListening := true;
      recognition := recognition + [Start];
    }

    /** `recognition.onresult`: the transcript becomes the query and is searched; the listening flag is left alone. */
    method OnResult(transcript: string, outcome: FetchOutcome)
      modifies this
      ensures query == transcript && isListening == old(isListening)
      ensures State() == AfterSearch(old(State()).(query := transcript), transcript, outcome)
      ensures State() == Step(old(State()), Recognized(transcript, outcome))
    {
      query := transcript;
      ghost var heard := State();
      assert heard == old(State()).(query := transcript);
      HandleSearch(transcript, outcome);
      assert State() == AfterSearch(heard, transcript, outcome);
    }

    /** `recognition.onspeechend`: lower the flag and stop the recognizer. */
    method OnSpeechEnd()
      modifies this
      ensures !isListening && recognition == old(recognition) + [Stop]
      ensures State() == old(State()).(isListening := false, recognition := old(recognition) + [Stop])
      ensures State() == Step(old(State()), SpeechEnded)
    {
      isListening := false;
      recognition := recognition + [Stop];
    }

    /** `recognition.onerror`: lower the flag; the error itself is only logged to the console. */
    method OnError()
      modifies this
      ensures !isListening
      ensures State() == old(State()).(isListening := false)
      ensures State() == Step(old(State()), RecognitionFailed)
    {
      isListening := false;
    }

    /** The validation gate at the head of `handleSearch`: a blank query sets the fixed message, any other clears the error. */
    method CheckQuery(searchQuery: string) returns (valid: bool)
      modifies this
      ensures valid <==> !Text.IsBlank(searchQuery)
      ensures State() == old(State()).(error := if valid then "" else InvalidQueryMessage)
    {
      if Text.Trim(searchQuery) == "" {
        error := InvalidQueryMessage;
        return false;
      }
      error := "";
      return true;
    }

    /** `handleSearch(searchQuery)` */
    method HandleSearch(searchQuery: string, outcome: FetchOutcome)
      modifies this
      ensures Text.IsBlank(searchQuery) ==> State() == old(State()).(error := InvalidQueryMessage)
      ensures !Text.IsBlank(searchQuery) ==> requests == old(requests) + [Post(Endpoint, searchQuery)] && !loading
      ensures !Text.IsBlank(searchQuery) && outcome.Success? ==>
                results == old(results) + [ResultFor(searchQuery, outcome.aiResponse)] && error == ""
      ensures !Text.IsBlank(searchQuery) && outcome.Failure? ==>
                results == old(results) && error == FetchErrorMessage
      ensures State() == AfterSearch(old(State()), searchQuery, outcome)
    {
      var valid := CheckQuery(searchQuery);
      if !valid {
        return;
      }
      FetchFromGroqBackend(searchQuery, outcome);
    }

    /** `fetchFromGroqBackend(searchQuery)`: the request, then its settlement. */
    method FetchFromGroqBackend(searchQuery: string, outcome: FetchOutcome)
      modifies this
      ensures requests == old(requests) + [Post(Endpoint, searchQuery)] && !loading
      ensures State() == AfterReply(AfterPost(old(State()), searchQuery), searchQuery, outcome)
    {
      PostQuery(searchQuery);
      ReceiveReply(searchQuery, outcome);
    }

    /** Up to the `await`: loading is raised and exactly one POST goes out; nothing else moves. */
    method PostQuery(searchQuery: string)
      modifies this
      ensures loading && requests == old(requests) + [Post(Endpoint, searchQuery)]
      ensures State() == AfterPost(old(State()), searchQuery)
    {
      loading := true;
      requests := requests + [Post(Endpoint, searchQuery)];
    }

    /** After the `await`: append one result or set the fetch error, then lower loading. */
    method ReceiveReply(searchQuery: string, outcome: FetchOutcome)
      modifies this
      ensures !loading && requests == old(requests)
      ensures outcome.Success? ==>
                results == old(results) + [ResultFor(searchQuery, outcome.aiResponse)] && error == ""
      ensures outcome.Failure? ==> results == old(results) && error == FetchErrorMessage
      ensures State() == AfterReply(old(State()), searchQuery, outcome)
    {
      match outcome {
        case Success(aiResponse) =>
          results := results + [ResultFor(searchQuery, aiResponse)];
          error := "";
        case Failure =>
          error := FetchErrorMessage;
      }
      loading := false;
    }

    /** `handleKeyDown`: Enter searches the current query; any other key does nothing. */
    method HandleKeyDown(key: string, outcome: FetchOutcome)
      modifies this
      ensures key != "Enter" ==> State() == old(State())
      ensures key == "Enter" ==> State() == AfterSearch(old(State()), old(query), outcome)
      ensures State() == Step(old(State()), KeyDown(key, outcome))
    {
      if key == "Enter" {
        HandleSearch(query, outcome);
      }
    }

    /** `openModal(title, content)` */
    method OpenModal(title: string, content: string)
      modifies this
      ensures isModalOpen && modalTitle == title && modalContent == content
      ensures State() == old(State()).(modalTitle := title, modalContent := content, isModalOpen := true)
      ensures State() == Step(old(State()), Opened(title, content))
    {
      modalTitle := title;
      modalContent := content;
      isModalOpen := true;
    }

    /** `closeModal()`: clears the detail view and touches nothing else (in particular not speech playback). */
    method CloseModal()
      modifies this
      ensures !isModalOpen && modalContent == "" && modalTitle == ""
      ensures State() == old(State()).(isModalOpen := false, modalContent := "", modalTitle := "")
      ensures State() == Step(old(State()), Closed)
    {
      isModalOpen := false;
      modalContent := "";
      modalTitle := "";
    }
  }
}
