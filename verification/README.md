# RAG PDF chatbot: chat turns and prompt assembly

This project models, in Dafny, the part of the retrieval-augmented PDF
chatbot that the repository decides for itself: how a chat turn is handled
and how the grounded prompt is put together around the calls to the vector
store and the language model. It covers both surfaces.

- **Command-line session** (`retrieve.py`, `chat_loop`), module `Retrieve`.
  Each input line is handled in one of three ways:
  - A line whose lower-case form is `exit`, `quit` or `q` ends the loop.
  - A whitespace-only line is skipped.
  - Any other line is a question. The store's results for the line become
    a context block (`Page Content / Page Number / File Location`, with the
    defaults `N/A` and `Unknown`). The history becomes `role: content`
    lines. A prompt is filled in the order context, history, question.

  On a successful generation, a `User` entry and then an `AI` entry are
  appended, and the history is cut back to its last ten entries. On a
  failed generation the history is kept as it was and the loop goes on.
  The search runs before the `try` that guards generation, so a search
  exception is not caught: the session ends there (outcome `Crashed`).
  The HTTP service, by contrast, answers a store failure with a 500 error
  and keeps serving.
  - The loop's state is the class `ChatSession`, whose field `history`
    holds the list. The two in-place `append` calls become two
    reassignments of a sequence value, followed by the slice that Python
    also assigns. Nothing else refers to the list, so no aliasing is lost.
  - `Step` and the loop method `ChatLoop` are proved against the pure
    specification functions `Turn` and `Run`.
  - The properties are proved about those functions: the exit test, blank
    skipping, the history invariant and the eviction of the oldest
    exchange.
- **HTTP service** (`server.py`, `chat` and `upload_file`), module `Server`.
  The chat handler is a pure function of the request and the outcomes of
  the remote calls.
  - It retrieves the store's three best chunks, each rendered as
    `Content / Source` with the default source `Unknown`.
  - It renders the caller's history, which defaults to the empty list, as
    `role: content` lines.
  - It fills a fixed template with the context, the history and the
    question, in that order.
  - It replies with the model's text. Any exception becomes an HTTP 500
    error whose detail is the exception's text. A history turn without a
    `role` or `content` key raises `KeyError`, whose text is the quoted key.
  - Nothing is stored between requests: `Chat` is a function, and the
    request's history is only read.

The remote collaborators are parameters of the model:
- `search` gives the store's results for a query (on the server, its
  ranking), or the text of the exception that connecting or searching
  raised.
- `generate` gives `Generated(text)` or `Raised(error)` for a prompt.

In the command-line session, both are asked afresh on every line: the
line at position n is searched with `search(n)` and its prompt generated
with `generate(n)`. The same query or prompt may therefore fare
differently from one line to the next, as a non-deterministic model or a
store rebuilt by an upload would make it. A server request makes each
call once.

Module `Text` holds the Python string operations the prompts are built
with: `sep.join` and `dict.get`, which both surfaces use, and
`str.strip` (with Python's whitespace set) and `str.lower`, which only the
command-line session uses. Module `RagTypes` holds the shared values: a retrieved
`Record` (page content and metadata), a `Generation` outcome, `Option` and
`Result`.

Three details of the command-line session:
- The history roles are `User` and `AI`.
- The sentinel test runs before the blank test.
- No retrieval width is passed, so the search results are taken as they
  come.

## Model

| member | source | states |
|---|---|---|
| Text.Join | retrieve.py:55-56 | `sep.join(parts)`: the parts in order with the separator between neighbours; what it promises is stated by `Text.JoinAround` |
| Text.JoinAround | retrieve.py:55-56 | `sep.join(parts)` is every part in order: part i stands after the joined earlier parts and one separator, and before one separator and the joined later parts |
| Text.Strip | retrieve.py:47 | `str.strip()`: `rstrip` after `lstrip` over Python's whitespace set; its meaning is stated by the two lemmas below and `Text.BlankIffAllSpace` |
| Text.StripLeadingDropsSpacePrefix | retrieve.py:47 | left stripping removes exactly the longest whitespace prefix: what it drops is whitespace, and what it keeps is empty or starts with a non-space |
| Text.StripTrailingDropsSpaceSuffix | retrieve.py:47 | right stripping removes exactly the longest whitespace suffix |
| Text.BlankIffAllSpace | retrieve.py:47-48 | `not line.strip()` holds exactly when every character is Python whitespace, the empty line included |
| Text.IsBlank | retrieve.py:47 | `not s.strip()`; characterised by `Text.BlankIffAllSpace` |
| Text.Lower | retrieve.py:43 | `str.lower()` on ASCII capitals, character by character; what the exit test makes of it is `Retrieve.ExitIffSentinel` |
| Retrieve.IsExitCommand | retrieve.py:43 | `user_query.lower() in ['exit', 'quit', 'q']`, with no stripping; characterised by `Retrieve.ExitIffSentinel` |
| Retrieve.ExitIffSentinel | retrieve.py:43-45 | a line ends the session exactly when it spells `exit`, `quit` or `q` in any mix of case, with nothing stripped around it |
| Text.Get | retrieve.py:55 | `m.get(key, default)` on a metadata dictionary; its defaults are spelled out in `Retrieve.ContextEntry` and `Server.ContextTextEntry` |
| Retrieve.Context | retrieve.py:55-56 | the context block built from the search results; its layout is stated by `Retrieve.ContextEntry` |
| Retrieve.ContextEntry | retrieve.py:55-56 | the context block has one entry per result, in result order, separated by blank lines; each entry reads `Page Content / Page Number / File Location`, with a missing page label shown as `N/A` and a missing source as `Unknown` |
| Retrieve.ContextOfNothing | retrieve.py:55-56 | no search results give an empty context block |
| Retrieve.HistoryText | retrieve.py:62 | the history as `role: content` lines; its layout is stated by `Retrieve.HistoryTextLine` |
| Retrieve.HistoryTextLine | retrieve.py:62 | the history text is the `role: content` line of each entry, in history order, separated by newlines |
| Retrieve.HistoryTextOfNothing | retrieve.py:62 | an empty history gives the empty history text |
| Retrieve.Prompt | retrieve.py:64-82 | the prompt template, character for character, filled with context, history text and question; the order is stated by `Retrieve.PromptOrder` |
| Retrieve.PromptOrder | retrieve.py:64-82 | the prompt holds the context, the history text and the question at strictly increasing positions after the fixed head, and ends with the instructions |
| Retrieve.Window | retrieve.py:107-108 | the cut history is the newest `min(n, 10)` entries of the history, a suffix of it |
| Retrieve.Turn | retrieve.py:41-111 | one iteration of the loop: the exit test, the blank test, the search (whose exception is not caught), the prompt, and the guarded generation with the history update; stated by the lemmas below |
| Retrieve.TurnKinds | retrieve.py:43-53 | a turn exits exactly on a sentinel spelling; it is skipped exactly when the line is not a sentinel and is all whitespace; any other line crashes the session exactly when its search raises, with that exception's text; only an answered turn changes the history |
| Retrieve.PaddedSentinelIsAQuestion | retrieve.py:43-48 | a sentinel with a space before or after it is not stripped: it is searched for like any question |
| Retrieve.AnsweredTurn | retrieve.py:53-108 | when the search returns and generation succeeds, the prompt is built from the search results for the line as typed and from the history before the turn. The history gains the question and then the answer as its last two entries and keeps at most ten. It is the plain append while that fits, and otherwise the last ten entries of the append |
| Retrieve.FailedTurn | retrieve.py:84-111 | when the search returns and generation raises, the turn reports the exception's text and the history is exactly as before |
| Retrieve.RecordKeepsWellFormed | retrieve.py:103-108 | appending an exchange to a well-formed history and cutting it keeps the history well formed: at most ten entries, even length, `User`/`AI` alternating from `User` |
| Retrieve.TurnKeepsWellFormed | retrieve.py:39-111 | every turn, whatever the line and the remote outcomes, keeps the history well formed |
| Retrieve.FullHistoryEvictsOldestExchange | retrieve.py:103-108 | with five exchanges held, the next answered turn drops exactly the oldest exchange (a `User` entry and the `AI` entry after it) and appends the new one |
| Retrieve.RunTurns | retrieve.py:39-111 | the `while True` loop for a given loop body, which receives each line's position: lines are handled in order until a turn ends the session or the input runs out; stated by `Retrieve.RunStopsAtEnd` |
| Retrieve.TurnAt | retrieve.py:41-111 | the loop body of `chat_loop`: line n is handled by `Retrieve.Turn` with the services as they answer at iteration n |
| Retrieve.Run | retrieve.py:33-111 | the chat session: the loop with `Retrieve.TurnAt` as its body; stated by the lemmas below and implemented by `Retrieve.ChatLoop` |
| Retrieve.RunTurnsKeepsWellFormed | retrieve.py:39-111 | a loop whose every turn keeps the history well formed keeps it well formed over any input |
| Retrieve.RunKeepsWellFormed | retrieve.py:39-111 | a whole chat session keeps a well-formed history well formed, whatever the store and the model answer at each iteration |
| Retrieve.SessionHistoryBounded | retrieve.py:33-108 | from the empty history, whatever the store and the model answer at each iteration, the history never exceeds ten entries, has even length and alternates `User`/`AI` starting with `User` |
| Retrieve.RunStopsAtEnd | retrieve.py:39-53 | for any loop body, the loop handles lines until the first turn that ends the session (for `Turn`, a sentinel or a search exception), which is its last outcome, or until the input ends; no such turn comes earlier, and lines after it are never read |
| Retrieve.RetriedQuestionCanBeAnswered | retrieve.py:84-111 | a question whose turn failed with the history untouched (as a failed `Turn` does), typed again, gives a failure then an answer when the next iteration's services answer, and the session ends with that answer's history |
| Retrieve.RetriedChatQuestionIsAnswered | retrieve.py:84-111 | in the chat session, a question whose generation raised at one line and is answered at the next, typed twice, gives the failure with its error text and then the answer, and the history ends as that answer records it: no answer is fixed for the whole session |
| Retrieve.SearchFailureEndsSession | retrieve.py:53 | a question whose search raises ends the session at once, with the history unchanged and no later line read |
| Retrieve.ChatSession.constructor | retrieve.py:33 | a session starts with the empty history, which is well formed |
| Retrieve.ChatSession.Step | retrieve.py:41-111 | one loop iteration, with the in-place appends and the slice, yields the outcome and new history that `Turn` specifies, and keeps the history well formed |
| Retrieve.ChatLoop | retrieve.py:27-111 | the loop over the input lines, stopping at a sentinel or a search exception, calling the services afresh on each line, produces exactly the outcomes and final history that `Run` specifies from the empty history |
| Server.NewChatRequest | server.py:46-48 | a request without a history field gets the empty history; a given history is kept as sent |
| Server.SimilaritySearch | server.py:100 | a search of width k returns the first `min(k, n)` chunks of the store's ranking, best first |
| Server.ChatContextIsTopThree | server.py:100-104 | a chat context has at most three entries, and entry i renders chunk i of the store's ranking |
| Server.ContextText | server.py:101-104 | the context text built from the retrieved chunks; its layout is stated by `Server.ContextTextEntry` |
| Server.ContextTextEntry | server.py:101-104 | the context has one `Content / Source` entry per chunk in retrieval order, separated by blank lines, with a missing source shown as `Unknown` |
| Server.HistoryLines | server.py:112 | the caller's turns rendered one by one, failing with a KeyError text at the first turn missing a key; stated by `Server.HistoryLinesCorrect` |
| Server.HistoryText | server.py:112 | those lines joined by newlines, or the KeyError text |
| Server.HistoryLinesCorrect | server.py:112 | the caller's history renders exactly when every turn has both keys, and then as the `role: content` lines in request order; otherwise the error is the KeyError text of the key missing from the first bad turn |
| Server.OmittedHistoryIsEmpty | server.py:48 | a request sent without history renders the empty history text |
| Server.ChatPrompt | server.py:114-127 | the service's prompt template, character for character; the order is stated by `Server.ChatPromptOrder` |
| Server.ChatPromptOrder | server.py:114-127 | the prompt holds the context, the history text and the question at strictly increasing positions inside the fixed template |
| Server.Chat | server.py:89-144 | the chat handler: search, context, history, prompt and generation, with every exception mapped to a 500 error; stated by `Server.ChatAnswered` and `Server.ChatFailures` |
| Server.ChatAnswered | server.py:89-140 | a request is answered exactly when the store answers, every history turn has both keys and the model answers the prompt built from the top three chunks, the history and the question; the reply is the model's text |
| Server.ChatFailures | server.py:142-144 | every error reply has status 500. Its detail is the text of the first exception: the store's, then the history's KeyError for the first bad turn, then the model's |
| Server.Upload | server.py:84-87 | an upload is acknowledged with `Successfully processed <filename>` exactly when indexing succeeds; an indexing exception becomes a 500 error carrying its text |

## Left out

- Vector store: connecting, embedding the query and nearest-neighbour search are remote. The model takes their results, or the text of their exception, as the `search` parameter.
- Retrieval width on the command line: `retrieve.py` passes none, and the library default is not part of this model. Any number of results is allowed there.
- Server.SimilaritySearch: takes on trust that the store honours `k=3`, returning the best chunks of its ranking first. The store's ranking itself is an input.
- Language model: generation, the Google Search tool and the temperature setting are remote. The model takes the outcome as the `generate` parameter.
- `response.text` being `None` is not modelled. A generated answer is always a string.
- Metadata and history values are taken as already-rendered strings. Python renders other types, such as an integer page label, with `str()`.
- `str.lower` lowers only ASCII capitals. For the exit test this matches Python on every line: no non-ASCII character lowers to a single one of the letters of `exit`, `quit` or `q`.
- Retrieve.Turn: a search exception is modelled as the outcome `Crashed` that ends the session. The traceback Python prints then is not modelled.
- Console I/O: the banner, the prompts, the "Searching documents..." line and the printed answers and errors are left out. Each `Turn` outcome carries what would be printed.
- End of input: Python's `input()` raises an uncaught `EOFError` there, and the program stops with a traceback. `Run` and `ChatLoop` simply stop when the lines run out.
- Upload handler: saving the file, PDF loading, splitting (chunk size 1000, overlap 400) and the `force_recreate` store write are I/O or library code. Only their outcome reaches `Server.Upload`, as a parameter.
- The server's two store calls, connecting and searching, are merged into one failure-or-ranking parameter. Both raise into the same 500 mapping.
- FastAPI request validation (a missing `message`, a non-list history), the JSON shape of error bodies, CORS, uvicorn and environment loading are framework or configuration.
- `Index.py` and the React front end are not part of this model.
