/** The HTTP service (server.py): the `/chat` handler answers one question
    from the three best-matching chunks and the history the caller sends,
    and keeps nothing between requests; the `/upload` handler reports the
    indexing of an uploaded file. Any exception becomes an HTTP 500 error
    carrying the exception's text.

    The vector store and the language model are parameters: `search` gives
    the store's ranking of its chunks for a query, or the text of the
    exception connecting or searching raised; `generate` the outcome of one
    generation request for a prompt. */
module Server {
  import opened Text
  import opened RagTypes

  /** How many chunks a chat request retrieves (`k=3`). */
  const SearchWidth: nat := 3

  /** The status of every error reply. */
  const InternalServerError: nat := 500

  /** A `/chat` request body: the question and the caller's history, each
      turn a dictionary expected to hold "role" and "content". */
  datatype ChatRequest = ChatRequest(message: string, history: seq<map<string, string>>)

  /** A handler's reply: the JSON body's one text field, or an HTTP error. */
  datatype Reply = Ok(body: string) | HttpError(status: nat, detail: string)

  /** The request as the body's fields make it; an absent history is the
      empty list. */
  function NewChatRequest(message: string, history: Option<seq<map<string, string>>>): (r: ChatRequest)
    ensures r.message == message
    ensures history.None? ==> r.history == []
    ensures history.Some? ==> r.history == history.value
  {
    ChatRequest(message, match history case Some(h) => h case None => [])
  }

  // ----- retrieval -----

  /** `similarity_search(query, k)`: the store's k best matches, best first,
      taken from its ranking. */
  function SimilaritySearch(ranking: seq<Record>, k: nat): (results: seq<Record>)
    ensures |results| == if |ranking| < k then |ranking| else k
    ensures results == ranking[..|results|]
  {
    if |ranking| <= k then ranking else ranking[..k]
  }

  /** One retrieved chunk as the context shows it, the source defaulted
      when the metadata lacks it. */
  function SourceEntry(r: Record): string
  {
    "Content: " + r.pageContent + "\nSource: " + Get(r.metadata, "source", "Unknown")
  }

  /** The entry of every retrieved chunk, in retrieval order. */
  function SourceEntries(results: seq<Record>): seq<string>
  {
    seq(|results|, i requires 0 <= i < |results| => SourceEntry(results[i]))
  }

  /** The context text: the entries joined by blank lines. */
  function ContextText(results: seq<Record>): string
  {
    Join(SourceEntries(results), "\n\n")
  }

  /** The context holds one entry per chunk, in retrieval order: entry i
      follows the context of the earlier chunks and a blank line, and
      precedes a blank line and the context of the later ones. A missing
      source reads `Unknown`. */
  lemma ContextTextEntry(results: seq<Record>, i: nat)
    requires i < |results|
    ensures var r := results[i];
            ContextText(results) ==
              (if i == 0 then "" else ContextText(results[..i]) + "\n\n")
              + ("Content: " + r.pageContent
                 + "\nSource: " + (if "source" in r.metadata then r.metadata["source"] else "Unknown"))
              + (if i + 1 == |results| then "" else "\n\n" + ContextText(results[i + 1..]))
  {
    var entries := SourceEntries(results);
    JoinAround(entries, "\n\n", i);
    assert entries[..i] == SourceEntries(results[..i]);
    assert entries[i + 1..] == SourceEntries(results[i + 1..]);
  }

  /** A chat request's context shows the store's best chunks, at most three
      of them, best first: it is the context of the first three of the
      ranking, or of the whole ranking when that is shorter. */
  lemma ChatContextIsTopThree(ranking: seq<Record>)
    ensures var results := SimilaritySearch(ranking, SearchWidth);
            && |SourceEntries(results)| <= SearchWidth
            && (|ranking| <= SearchWidth ==> results == ranking)
            && (|ranking| > SearchWidth ==> results == ranking[..SearchWidth])
            && forall i :: 0 <= i < |results| ==> SourceEntries(results)[i] == SourceEntry(ranking[i])
  {
  }

  // ----- the caller's history -----

  /** A history turn the handler can render. */
  predicate HasKeys(turn: map<string, string>)
  {
    "role" in turn && "content" in turn
  }

  /** The text of the KeyError that reading a turn without both keys
      raises: the missing key, quoted; "role" is read first. */
  function MissingKey(turn: map<string, string>): string
  {
    if "role" !in turn then "'role'" else "'content'"
  }

  /** One turn as a prompt line, `role: content`, or the KeyError text. */
  function TurnLine(turn: map<string, string>): Result<string, string>
  {
    if !HasKeys(turn) then Failure(MissingKey(turn))
    else Success(turn["role"] + ": " + turn["content"])
  }

  /** The lines of the history in request order, or the error of the
      first turn that cannot be read. */
  function HistoryLines(history: seq<map<string, string>>): Result<seq<string>, string>
    decreases |history|
  {
    if history == [] then Success([])
    else
      match TurnLine(history[0])
      case Failure(e) => Failure(e)
      case Success(line) =>
        match HistoryLines(history[1..])
        case Failure(e) => Failure(e)
        case Success(rest) => Success([line] + rest)
  }

  /** The reference rendering of a history whose turns all have both keys. */
  function RoleLines(history: seq<map<string, string>>): (lines: seq<string>)
    requires forall i :: 0 <= i < |history| ==> HasKeys(history[i])
    ensures |lines| == |history|
  {
    seq(|history|, i requires 0 <= i < |history| && HasKeys(history[i]) =>
                     history[i]["role"] + ": " + history[i]["content"])
  }

  /** The history renders exactly when every turn has both keys, and then as
      the reference lines; otherwise the error names the key missing from
      the first turn that lacks one. */
  lemma {:induction false} HistoryLinesCorrect(history: seq<map<string, string>>)
    ensures HistoryLines(history).Success? <==> forall i :: 0 <= i < |history| ==> HasKeys(history[i])
    ensures HistoryLines(history).Success? ==> HistoryLines(history).value == RoleLines(history)
    ensures HistoryLines(history).Failure? ==>
              exists i :: 0 <= i < |history| && !HasKeys(history[i]) &&
                (forall j :: 0 <= j < i ==> HasKeys(history[j])) &&
                HistoryLines(history).error == MissingKey(history[i])
    decreases |history|
  {
    if history != [] {
      var tail := history[1..];
      HistoryLinesCorrect(tail);
      if !HasKeys(history[0]) {
        assert HistoryLines(history).error == MissingKey(history[0]);
      } else if HistoryLines(tail).Failure? {
        var k :| 0 <= k < |tail| && !HasKeys(tail[k]) &&
                 (forall j :: 0 <= j < k ==> HasKeys(tail[j])) &&
                 HistoryLines(tail).error == MissingKey(tail[k]);
        assert history[k + 1] == tail[k];
        forall j | 0 <= j < k + 1
          ensures HasKeys(history[j])
        {
          if j > 0 {
            assert history[j] == tail[j - 1];
          }
        }
      } else {
        forall i | 0 <= i < |history|
          ensures HasKeys(history[i])
        {
          if i > 0 {
            assert history[i] == tail[i - 1];
          }
        }
        assert HistoryLines(history).value == RoleLines(history);
      }
    }
  }

  /** The history text: the lines joined by newlines. */
  function HistoryText(history: seq<map<string, string>>): Result<string, string>
  {
    match HistoryLines(history)
    case Failure(e) => Failure(e)
    case Success(lines) => Success(Join(lines, "\n"))
  }

  /** A request without history renders the empty history text. */
  lemma OmittedHistoryIsEmpty(message: string)
    ensures HistoryText(NewChatRequest(message, None).history) == Success("")
  {
  }

  // ----- the prompt -----

  const ChatHead: string :=
    "You are a helpful AI assistant.\n"
    + "Use the provided context to answer the user's question.\n"
    + "If the answer is not in the context, you can use your internal knowledge.\n"
    + "Always prioritize the provided context.\n\n"
    + "CONTEXT FROM UPLOADED DOCUMENTS:\n"
  const ChatHistoryHeading: string := "\n\nCHAT HISTORY:\n"
  const ChatQuestionHeading: string := "\n\nCURRENT USER QUESTION:\n"
  const ChatTail: string := "\n"

  /** The prompt of one request: the fixed template filled with the context,
      the history text and the question. */
  function ChatPrompt(contextText: string, historyText: string, message: string): string
  {
    ChatHead + contextText + ChatHistoryHeading + historyText + ChatQuestionHeading + message + ChatTail
  }

  /** The prompt shows the context, then the history, then the question, at
      strictly increasing positions, inside the fixed template. */
  lemma ChatPromptOrder(contextText: string, historyText: string, message: string)
    ensures var p := ChatPrompt(contextText, historyText, message);
            var i := |ChatHead|;
            var j := i + |contextText| + |ChatHistoryHeading|;
            var k := j + |historyText| + |ChatQuestionHeading|;
            && i + |contextText| < j && j + |historyText| < k
            && k + |message| + |ChatTail| == |p|
            && p[..i] == ChatHead
            && p[i..i + |contextText|] == contextText
            && p[j..j + |historyText|] == historyText
            && p[k..k + |message|] == message
            && p[k + |message|..] == ChatTail
  {
    Sections(ChatHead, contextText, ChatHistoryHeading, historyText, ChatQuestionHeading, message, ChatTail);
  }

  // ----- the handlers -----

  /** `POST /chat`. */
  function Chat(request: ChatRequest, search: string -> Result<seq<Record>, string>,
                generate: string -> Generation): Reply
  {
    match search(request.message)
    case Failure(e) => HttpError(InternalServerError, e)
    case Success(ranking) =>
      var contextText := ContextText(SimilaritySearch(ranking, SearchWidth));
      match HistoryText(request.history)
      case Failure(e) => HttpError(InternalServerError, e)
      case Success(historyText) =>
        match generate(ChatPrompt(contextText, historyText, request.message))
        case Generated(text) => Ok(text)
        case Raised(e) => HttpError(InternalServerError, e)
  }

  /** The prompt a request with a readable history is answered from. */
  function RequestPrompt(request: ChatRequest, ranking: seq<Record>): string
    requires forall i :: 0 <= i < |request.history| ==> HasKeys(request.history[i])
  {
    ChatPrompt(ContextText(SimilaritySearch(ranking, SearchWidth)),
               Join(RoleLines(request.history), "\n"),
               request.message)
  }

  /** A request is answered exactly when the store answers, every history
      turn has both keys and the model answers the prompt built from the top
      three chunks, the history and the question; the reply is then the
      model's text. */
  lemma ChatAnswered(request: ChatRequest, search: string -> Result<seq<Record>, string>,
                     generate: string -> Generation)
    ensures Chat(request, search, generate).Ok? <==>
              && search(request.message).Success?
              && (forall i :: 0 <= i < |request.history| ==> HasKeys(request.history[i]))
              && generate(RequestPrompt(request, search(request.message).value)).Generated?
    ensures Chat(request, search, generate).Ok? ==>
              Chat(request, search, generate).body ==
              generate(RequestPrompt(request, search(request.message).value)).text
  {
    HistoryLinesCorrect(request.history);
  }

  /** Every failure is an HTTP 500 whose detail is the text of the first
      exception raised: the store's, then the history's KeyError, then the
      model's. */
  lemma ChatFailures(request: ChatRequest, search: string -> Result<seq<Record>, string>,
                     generate: string -> Generation)
    ensures var reply := Chat(request, search, generate);
            && (reply.HttpError? ==> reply.status == InternalServerError)
            && (search(request.message).Failure? ==>
                  reply == HttpError(InternalServerError, search(request.message).error))
            && (search(request.message).Success? &&
                !(forall i :: 0 <= i < |request.history| ==> HasKeys(request.history[i])) ==>
                  reply.HttpError? &&
                  exists i :: 0 <= i < |request.history| && !HasKeys(request.history[i]) &&
                    (forall j :: 0 <= j < i ==> HasKeys(request.history[j])) &&
                    reply.detail == MissingKey(request.history[i]))
            && (search(request.message).Success? &&
                (forall i :: 0 <= i < |request.history| ==> HasKeys(request.history[i])) &&
                generate(RequestPrompt(request, search(request.message).value)).Raised? ==>
                  reply == HttpError(InternalServerError,
                                     generate(RequestPrompt(request, search(request.message).value)).error))
  {
    HistoryLinesCorrect(request.history);
  }

  /** What indexing an uploaded file ended with. */
  datatype Indexing = Indexed | IndexingRaised(error: string)

  /** `POST /upload`, after the file is saved, split and stored. */
  function Upload(filename: string, indexing: Indexing): (reply: Reply)
    ensures reply.Ok? <==> indexing.Indexed?
    ensures reply.Ok? ==> reply.body == "Successfully processed " + filename
    ensures indexing.IndexingRaised? ==> reply == HttpError(InternalServerError, indexing.error)
  {
    match indexing
    case Indexed => Ok("Successfully processed " + filename)
    case IndexingRaised(e) => HttpError(InternalServerError, e)
  }
}
