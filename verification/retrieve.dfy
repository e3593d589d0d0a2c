/** The command-line chat session (`chat_loop` in retrieve.py): one input
    line at a time, it either ends the session, skips a blank line, or runs
    a turn that searches the document store, builds a grounded prompt from
    the results and the chat history, asks the language model, and on
    success records the exchange in a history kept to its last ten entries.

    The vector store and the language model are parameters: `search` gives
    the store's results for a query or the text of the exception it raised,
    `generate` the outcome of one generation request for a prompt. A search
    exception is not caught: it ends the session. */
module Retrieve {
  import opened Text
  import opened RagTypes

  /** The history keeps at most this many entries (five exchanges). */
  const MaxHistory: nat := 10

  const UserRole: string := "User"
  const AiRole: string := "AI"

  /** One history entry, the `{"role": …, "content": …}` dictionary. */
  datatype Message = Message(role: string, content: string)

  /** The two entries a successful turn records, the question first. */
  function Exchange(query: string, answer: string): seq<Message>
  {
    [Message(UserRole, query), Message(AiRole, answer)]
  }

  // ----- the exit sentinel -----

  const Sentinels: seq<string> := ["exit", "quit", "q"]

  /** `user_query.lower() in ['exit', 'quit', 'q']`: no stripping first. */
  predicate IsExitCommand(line: string)
  {
    Lower(line) in Sentinels
  }

  /** `line` spells the lower-case `word` letter by letter, each letter
      either as written or as its ASCII capital. */
  predicate SpellsIgnoringCase(line: string, word: string)
  {
    |line| == |word| &&
    forall i :: 0 <= i < |line| ==> line[i] == word[i] || line[i] as int + 32 == word[i] as int
  }

  lemma LowerMatches(line: string, word: string)
    requires forall i :: 0 <= i < |word| ==> 'a' <= word[i] <= 'z'
    ensures Lower(line) == word <==> SpellsIgnoringCase(line, word)
  {
    if SpellsIgnoringCase(line, word) {
      forall i | 0 <= i < |line|
        ensures Lower(line)[i] == word[i]
      {
      }
    }
  }

  /** A line ends the session exactly when it is one of the sentinels in
      any mix of upper and lower case, with nothing around it. */
  lemma ExitIffSentinel(line: string)
    ensures IsExitCommand(line) <==>
              SpellsIgnoringCase(line, "exit") ||
              SpellsIgnoringCase(line, "quit") ||
              SpellsIgnoringCase(line, "q")
  {
    LowerMatches(line, "exit");
    LowerMatches(line, "quit");
    LowerMatches(line, "q");
  }

  // ----- context and history text -----

  /** One search result as the context block shows it, with the page label
      and the source defaulted when the metadata lacks them. */
  function PageEntry(r: Record): string
  {
    "Page Content: " + r.pageContent
    + "\nPage Number: " + Get(r.metadata, "page_label", "N/A")
    + "\nFile Location: " + Get(r.metadata, "source", "Unknown")
  }

  /** The page entry of every search result, in result order. */
  function PageEntries(results: seq<Record>): seq<string>
  {
    seq(|results|, i requires 0 <= i < |results| => PageEntry(results[i]))
  }

  /** The context block: the page entries joined by blank lines. */
  function Context(results: seq<Record>): string
  {
    Join(PageEntries(results), "\n\n")
  }

  /** The context block holds one entry per search result, in result order:
      entry i follows the block of the earlier results and a blank line, and
      precedes a blank line and the block of the later results. A missing
      page label reads `N/A`, a missing source `Unknown`. */
  lemma ContextEntry(results: seq<Record>, i: nat)
    requires i < |results|
    ensures var r := results[i];
            Context(results) ==
              (if i == 0 then "" else Context(results[..i]) + "\n\n")
              + ("Page Content: " + r.pageContent
                 + "\nPage Number: " + (if "page_label" in r.metadata then r.metadata["page_label"] else "N/A")
                 + "\nFile Location: " + (if "source" in r.metadata then r.metadata["source"] else "Unknown"))
              + (if i + 1 == |results| then "" else "\n\n" + Context(results[i + 1..]))
  {
    var entries := PageEntries(results);
    JoinAround(entries, "\n\n", i);
    assert entries[..i] == PageEntries(results[..i]);
    assert entries[i + 1..] == PageEntries(results[i + 1..]);
  }

  /** The context block of no results is empty. */
  lemma ContextOfNothing()
    ensures Context([]) == ""
  {
  }

  /** One history entry as a prompt line, `role: content`. */
  function HistoryLine(m: Message): string
  {
    m.role + ": " + m.content
  }

  /** The line of every history entry, in history order. */
  function HistoryLines(h: seq<Message>): seq<string>
  {
    seq(|h|, i requires 0 <= i < |h| => HistoryLine(h[i]))
  }

  /** The history text: one line per entry, joined by newlines. */
  function HistoryText(h: seq<Message>): string
  {
    Join(HistoryLines(h), "\n")
  }

  /** Entry i of the history is line i of the history text, in history
      order: it follows the text of the earlier entries and a newline, and
      precedes a newline and the text of the later entries. */
  lemma HistoryTextLine(h: seq<Message>, i: nat)
    requires i < |h|
    ensures HistoryText(h) ==
              (if i == 0 then "" else HistoryText(h[..i]) + "\n")
              + (h[i].role + ": " + h[i].content)
              + (if i + 1 == |h| then "" else "\n" + HistoryText(h[i + 1..]))
  {
    var lines := HistoryLines(h);
    JoinAround(lines, "\n", i);
    assert lines[..i] == HistoryLines(h[..i]);
    assert lines[i + 1..] == HistoryLines(h[i + 1..]);
  }

  /** An empty history gives the empty text. */
  lemma HistoryTextOfNothing()
    ensures HistoryText([]) == ""
  {
  }

  // ----- the prompt -----

  const PromptHead: string :=
    "You are a helpful AI assistant.\n        \nCONTEXT FROM DOCUMENTS:\n"
  const HistoryHeading: string := "\n\nCHAT HISTORY:\n"
  const QuestionHeading: string := "\n\nCURRENT USER QUESTION:\n"
  const Instructions: string :=
    "\n\nINSTRUCTIONS:\n"
    + "1. First, check the \"CONTEXT FROM DOCUMENTS\". If the answer is there, use it.\n"
    + "1.1 If the answer is not clear, ask clarifying questions based on the context.\n"
    + "1.2 Also add a reference to the source (file name and page number) in separate line every time you use the context.\n"
    + "2. If the answer is NOT in the documents, check the \"CHAT HISTORY\" to see if this is a follow-up.\n"
    + "3. If you still cannot answer, you are allowed to use Google Search to find the answer.\n"
    + "4. If you use Google Search, explicitly mention that you found the information online.\n"

  /** The prompt of one turn: the fixed template filled with the context
      block, the history text and the question. */
  function Prompt(context: string, historyText: string, query: string): string
  {
    PromptHead + context + HistoryHeading + historyText + QuestionHeading + query + Instructions
  }

  /** The prompt shows the context, then the history, then the question, at
      strictly increasing positions, and ends with the instructions. */
  lemma PromptOrder(context: string, historyText: string, query: string)
    ensures var p := Prompt(context, historyText, query);
            var i := |PromptHead|;
            var j := i + |context| + |HistoryHeading|;
            var k := j + |historyText| + |QuestionHeading|;
            && i + |context| < j && j + |historyText| < k
            && k + |query| + |Instructions| == |p|
            && p[..i] == PromptHead
            && p[i..i + |context|] == context
            && p[j..j + |historyText|] == historyText
            && p[k..k + |query|] == query
            && p[k + |query|..] == Instructions
  {
    Sections(PromptHead, context, HistoryHeading, historyText, QuestionHeading, query, Instructions);
  }

  // ----- one turn -----

  /** What handling one input line leads to. */
  datatype Outcome =
    | Exit
    | Skipped
    | Answered(prompt: string, answer: string)
    | Failed(prompt: string, error: string)
    | Crashed(error: string)
  {
    /** The outcomes after which no further line is read: the sentinel, and
        a search exception, which nothing in the loop catches. */
    predicate Ends()
    {
      Exit? || Crashed?
    }
  }

  datatype TurnResult = TurnResult(outcome: Outcome, history: seq<Message>)

  /** `chat_history[-10:]` when the history is longer than ten entries:
      the newest entries, at most ten of them. */
  function Window(h: seq<Message>): (w: seq<Message>)
    ensures |w| == if |h| > MaxHistory then MaxHistory else |h|
    ensures w == h[|h| - |w|..]
  {
    if |h| > MaxHistory then h[|h| - MaxHistory..] else h
  }

  /** The prompt a non-blank, non-sentinel line is answered from: the
      results of searching for the line exactly as typed, and the history
      as it stood before the turn. */
  function TurnPrompt(h: seq<Message>, line: string, results: seq<Record>): string
  {
    Prompt(Context(results), HistoryText(h), line)
  }

  /** The effect of one input line on a session whose history is `h`. The
      search runs outside the `try`, so its exception ends the session; a
      generation exception is caught and the session goes on. */
  function Turn(h: seq<Message>, line: string, search: string -> Result<seq<Record>, string>,
                generate: string -> Generation): TurnResult
  {
    if IsExitCommand(line) then TurnResult(Exit, h)
    else if IsBlank(line) then TurnResult(Skipped, h)
    else
      match search(line)
      case Failure(error) => TurnResult(Crashed(error), h)
      case Success(results) =>
        var prompt := TurnPrompt(h, line, results);
        match generate(prompt)
        case Generated(answer) => TurnResult(Answered(prompt, answer), Window(h + Exchange(line, answer)))
        case Raised(error) => TurnResult(Failed(prompt, error), h)
  }

  /** A line ends the session exactly when it spells a sentinel; it is
      skipped exactly when it is not one and is all whitespace; any other
      line is searched for, and crashes the session exactly when the search
      raises; only an answered turn changes the history. */
  lemma TurnKinds(h: seq<Message>, line: string, search: string -> Result<seq<Record>, string>,
                  generate: string -> Generation)
    ensures var t := Turn(h, line, search, generate);
            && (t.outcome == Exit <==>
                  SpellsIgnoringCase(line, "exit") || SpellsIgnoringCase(line, "quit") ||
                  SpellsIgnoringCase(line, "q"))
            && (t.outcome == Skipped <==>
                  !IsExitCommand(line) && forall i :: 0 <= i < |line| ==> IsSpace(line[i]))
            && (t.outcome.Crashed? <==>
                  !IsExitCommand(line) && !IsBlank(line) && search(line).Failure?)
            && (t.outcome.Crashed? ==> t.outcome.error == search(line).error)
            && (!t.outcome.Answered? ==> t.history == h)
  {
    ExitIffSentinel(line);
    BlankIffAllSpace(line);
  }

  /** A sentinel with a space before or after it is not stripped: it is
      sent to the store like any other question. */
  lemma PaddedSentinelIsAQuestion(h: seq<Message>, word: string, search: string -> Result<seq<Record>, string>,
                                  generate: string -> Generation)
    requires word in Sentinels
    ensures var o := Turn(h, " " + word, search, generate).outcome;
            o.Answered? || o.Failed? || o.Crashed?
    ensures var o := Turn(h, word + " ", search, generate).outcome;
            o.Answered? || o.Failed? || o.Crashed?
  {
    var l1 := " " + word;
    var l2 := word + " ";
    ExitIffSentinel(l1);
    ExitIffSentinel(l2);
    assert l1[1] == word[0] && !IsSpace(l1[1]);
    assert l2[0] == word[0] && !IsSpace(l2[0]);
    BlankIffAllSpace(l1);
    BlankIffAllSpace(l2);
  }

  /** A successful generation records the question and then the answer,
      keeping the newest ten entries; the prompt was built from the history
      before the turn. */
  lemma AnsweredTurn(h: seq<Message>, line: string, search: string -> Result<seq<Record>, string>,
                     generate: string -> Generation)
    requires !IsExitCommand(line) && !IsBlank(line) && search(line).Success?
    requires generate(TurnPrompt(h, line, search(line).value)).Generated?
    ensures var answer := generate(TurnPrompt(h, line, search(line).value)).text;
            var t := Turn(h, line, search, generate);
            var appended := h + Exchange(line, answer);
            && t.outcome == Answered(Prompt(Context(search(line).value), HistoryText(h), line), answer)
            && 2 <= |t.history| <= MaxHistory
            && t.history[|t.history| - 2] == Message(UserRole, line)
            && t.history[|t.history| - 1] == Message(AiRole, answer)
            && (|appended| <= MaxHistory ==> t.history == appended)
            && (|appended| > MaxHistory ==> t.history == appended[|appended| - MaxHistory..])
  {
    var answer := generate(TurnPrompt(h, line, search(line).value)).text;
    var appended := h + Exchange(line, answer);
    var w := Window(appended);
    assert w[|w| - 2] == appended[|appended| - 2];
    assert w[|w| - 1] == appended[|appended| - 1];
  }

  /** A failed generation leaves the history exactly as it was and reports
      the exception's text. */
  lemma FailedTurn(h: seq<Message>, line: string, search: string -> Result<seq<Record>, string>,
                   generate: string -> Generation)
    requires !IsExitCommand(line) && !IsBlank(line) && search(line).Success?
    requires generate(TurnPrompt(h, line, search(line).value)).Raised?
    ensures var prompt := TurnPrompt(h, line, search(line).value);
            Turn(h, line, search, generate) == TurnResult(Failed(prompt, generate(prompt).error), h)
  {
  }

  // ----- the history invariant -----

  /** Roles alternate User, AI, User, … from the first entry. */
  predicate Alternates(a: seq<Message>)
  {
    forall i :: 0 <= i < |a| ==> a[i].role == (if i % 2 == 0 then UserRole else AiRole)
  }

  /** The shape every history of a session has: at most ten entries, an
      even number of them, alternating User and AI starting with User. */
  predicate WellFormed(h: seq<Message>)
  {
    && |h| <= MaxHistory
    && |h| % 2 == 0
    && Alternates(h)
  }

  /** Recording an exchange after an alternating history of even length
      keeps it alternating. */
  lemma AppendKeepsAlternation(h: seq<Message>, query: string, answer: string)
    requires |h| % 2 == 0 && Alternates(h)
    ensures Alternates(h + Exchange(query, answer))
  {
    var a := h + Exchange(query, answer);
    forall i | 0 <= i < |a|
      ensures a[i].role == (if i % 2 == 0 then UserRole else AiRole)
    {
      if i >= |h| {
        assert i == |h| || i == |h| + 1;
      }
    }
  }

  /** Dropping an even number of the oldest entries keeps the alternation. */
  lemma DropPairsKeepsAlternation(a: seq<Message>, k: nat)
    requires Alternates(a) && k % 2 == 0 && k <= |a|
    ensures Alternates(a[k..])
  {
    forall i | 0 <= i < |a| - k
      ensures a[k..][i].role == (if i % 2 == 0 then UserRole else AiRole)
    {
      assert a[k..][i] == a[i + k];
      assert (i + k) % 2 == i % 2;
    }
  }

  /** Recording an exchange and cutting the history back to its window
      keeps it well formed. */
  lemma RecordKeepsWellFormed(h: seq<Message>, query: string, answer: string)
    requires WellFormed(h)
    ensures WellFormed(Window(h + Exchange(query, answer)))
  {
    var a := h + Exchange(query, answer);
    AppendKeepsAlternation(h, query, answer);
    if |a| > MaxHistory {
      DropPairsKeepsAlternation(a, |a| - MaxHistory);
    }
  }

  /** Every turn keeps the history well formed. */
  lemma TurnKeepsWellFormed(h: seq<Message>, line: string,
                            search: string -> Result<seq<Record>, string>,
                            generate: string -> Generation)
    requires WellFormed(h)
    ensures WellFormed(Turn(h, line, search, generate).history)
  {
    var t := Turn(h, line, search, generate);
    if t.outcome.Answered? {
      RecordKeepsWellFormed(h, line, t.outcome.answer);
    }
  }

  /** Once five exchanges are held, the next answered turn evicts exactly
      the oldest exchange, a User entry and the AI entry after it. */
  lemma FullHistoryEvictsOldestExchange(h: seq<Message>, line: string,
                                        search: string -> Result<seq<Record>, string>,
                                        generate: string -> Generation)
    requires WellFormed(h) && |h| == MaxHistory
    requires Turn(h, line, search, generate).outcome.Answered?
    ensures h[0].role == UserRole && h[1].role == AiRole
    ensures Turn(h, line, search, generate).history ==
            h[2..] + Exchange(line, Turn(h, line, search, generate).outcome.answer)
  {
    var t := Turn(h, line, search, generate);
    var answer := t.outcome.answer;
    var a := h + Exchange(line, answer);
    assert t.history == Window(a);
    assert a[2..] == h[2..] + Exchange(line, answer);
  }

  // ----- the loop over input lines -----

  /** What a session did with its input: one outcome per line read, and
      the history it ended with. */
  datatype Session = Session(outcomes: seq<Outcome>, history: seq<Message>)

  /** The store and the model as a session meets them: the line read at
      position n is searched with `search(n)` and its prompt generated with
      `generate(n)`. Each iteration calls the services afresh, so the same
      query or prompt may fare differently from one line to the next. */
  type Searches = nat -> string -> Result<seq<Record>, string>
  type Generations = nat -> string -> Generation

  /** The session over `lines`, the first of which is the input's line `n`,
      starting from history `h`, for any way `turn` of handling one line:
      every line is handled in turn until a turn that ends the session, and
      a failed turn goes on with the next line. */
  function RunTurns(n: nat, h: seq<Message>, lines: seq<string>,
                    turn: (nat, seq<Message>, string) -> TurnResult): Session
    decreases |lines|
  {
    if lines == [] then Session([], h)
    else
      var t := turn(n, h, lines[0]);
      if t.outcome.Ends() then Session([t.outcome], h)
      else
        var rest := RunTurns(n + 1, t.history, lines[1..], turn);
        Session([t.outcome] + rest.outcomes, rest.history)
  }

  /** The loop body of `chat_loop`: line n is handled by `Turn` with the
      services' answers at that iteration. */
  function TurnAt(search: Searches, generate: Generations): (nat, seq<Message>, string) -> TurnResult
  {
    (n: nat, h: seq<Message>, line: string) => Turn(h, line, search(n), generate(n))
  }

  /** The chat session: the loop of `chat_loop` with `Turn` as its body. */
  function Run(h: seq<Message>, lines: seq<string>, search: Searches, generate: Generations): Session
  {
    RunTurns(0, h, lines, TurnAt(search, generate))
  }

  /** A loop whose every turn keeps the history well formed keeps it well
      formed over the whole input. */
  lemma {:induction false} RunTurnsKeepsWellFormed(n: nat, h: seq<Message>, lines: seq<string>,
                                                   turn: (nat, seq<Message>, string) -> TurnResult)
    requires WellFormed(h)
    requires forall k, h', line :: WellFormed(h') ==> WellFormed(turn(k, h', line).history)
    ensures WellFormed(RunTurns(n, h, lines, turn).history)
    decreases |lines|
  {
    if lines != [] && !turn(n, h, lines[0]).outcome.Ends() {
      RunTurnsKeepsWellFormed(n + 1, turn(n, h, lines[0]).history, lines[1..], turn);
    }
  }

  /** A session keeps a well-formed history well formed, whatever its input
      and whatever the store and the model answer at each iteration. */
  lemma RunKeepsWellFormed(h: seq<Message>, lines: seq<string>, search: Searches, generate: Generations)
    requires WellFormed(h)
    ensures WellFormed(Run(h, lines, search, generate).history)
  {
    var turn := TurnAt(search, generate);
    forall k, h', line | WellFormed(h')
      ensures WellFormed(turn(k, h', line).history)
    {
      TurnKeepsWellFormed(h', line, search(k), generate(k));
    }
    RunTurnsKeepsWellFormed(0, h, lines, turn);
  }

  /** From the empty history, the history never exceeds ten entries, has
      even length and alternates User and AI starting with User. */
  lemma SessionHistoryBounded(lines: seq<string>, search: Searches, generate: Generations)
    ensures var h := Run([], lines, search, generate).history;
            && |h| <= MaxHistory && |h| % 2 == 0
            && forall i :: 0 <= i < |h| ==> h[i].role == (if i % 2 == 0 then UserRole else AiRole)
  {
    RunKeepsWellFormed([], lines, search, generate);
  }

  /** A session reads lines until the first turn that ends it, which is
      its last outcome, or until the input ends; lines after that turn are
      never read. */
  lemma {:induction false} RunStopsAtEnd(n: nat, h: seq<Message>, lines: seq<string>, more: seq<string>,
                                         turn: (nat, seq<Message>, string) -> TurnResult)
    ensures var s := RunTurns(n, h, lines, turn);
            && |s.outcomes| <= |lines|
            && (forall i :: 0 <= i < |s.outcomes| - 1 ==> !s.outcomes[i].Ends())
            && (|s.outcomes| == |lines| || s.outcomes[|s.outcomes| - 1].Ends())
            && (|s.outcomes| > 0 && s.outcomes[|s.outcomes| - 1].Ends() ==>
                  RunTurns(n, h, lines + more, turn) == s)
    decreases |lines|
  {
    if lines != [] {
      var t := turn(n, h, lines[0]);
      assert (lines + more)[0] == lines[0];
      if !t.outcome.Ends() {
        assert (lines + more)[1..] == lines[1..] + more;
        RunStopsAtEnd(n + 1, t.history, lines[1..], more, turn);
      }
    }
  }

  /** A question whose search raises ends the chat session on the spot,
      with the history as it was; no later line is read. */
  lemma SearchFailureEndsSession(h: seq<Message>, line: string, more: seq<string>,
                                 search: Searches, generate: Generations)
    requires !IsExitCommand(line) && !IsBlank(line) && search(0)(line).Failure?
    ensures Run(h, [line] + more, search, generate) == Session([Crashed(search(0)(line).error)], h)
  {
    var t := Turn(h, line, search(0), generate(0));
    assert t == TurnResult(Crashed(search(0)(line).error), h);
    assert TurnAt(search, generate)(0, h, line) == t;
    assert ([line] + more)[0] == line;
  }

  /** Two lines, neither of which ends the session, give their two
      outcomes in order and the second turn's history. */
  lemma RunTwoTurns(n: nat, h: seq<Message>, first: string, second: string,
                    turn: (nat, seq<Message>, string) -> TurnResult)
    requires !turn(n, h, first).outcome.Ends()
    requires !turn(n + 1, turn(n, h, first).history, second).outcome.Ends()
    ensures var t1 := turn(n, h, first);
            var t2 := turn(n + 1, t1.history, second);
            RunTurns(n, h, [first, second], turn) == Session([t1.outcome, t2.outcome], t2.history)
  {
    var t1 := turn(n, h, first);
    var t2 := turn(n + 1, t1.history, second);
    assert [first, second][1..] == [second];
    assert [second][1..] == [];
    assert RunTurns(n + 2, t2.history, [], turn) == Session([], t2.history);
    assert RunTurns(n + 1, t1.history, [second], turn) == Session([t2.outcome], t2.history);
  }

  /** The loop body is asked afresh on every line: a question whose turn
      failed without touching the history, typed again, is answered when
      the body answers it at the next iteration. With `TurnAt`, iteration
      n asks `search(n)` and `generate(n)`, and a failed `Turn` leaves the
      history as it was (`TurnKinds`). */
  lemma RetriedQuestionCanBeAnswered(n: nat, h: seq<Message>, line: string,
                                     turn: (nat, seq<Message>, string) -> TurnResult)
    requires turn(n, h, line).outcome.Failed? && turn(n, h, line).history == h
    requires turn(n + 1, h, line).outcome.Answered?
    ensures RunTurns(n, h, [line, line], turn) ==
            Session([turn(n, h, line).outcome, turn(n + 1, h, line).outcome], turn(n + 1, h, line).history)
  {
    RunTwoTurns(n, h, line, line, turn);
  }

  /** The chat session asks the services afresh on every line: a question
      whose generation raised is answered when typed again, if the model
      answers the second time. */
  lemma RetriedChatQuestionIsAnswered(n: nat, h: seq<Message>, line: string,
                                      search: Searches, generate: Generations)
    requires !IsExitCommand(line) && !IsBlank(line)
    requires search(n)(line).Success? && search(n + 1)(line).Success?
    requires generate(n)(TurnPrompt(h, line, search(n)(line).value)).Raised?
    requires generate(n + 1)(TurnPrompt(h, line, search(n + 1)(line).value)).Generated?
    ensures var s := RunTurns(n, h, [line, line], TurnAt(search, generate));
            var prompt1 := TurnPrompt(h, line, search(n)(line).value);
            var prompt2 := TurnPrompt(h, line, search(n + 1)(line).value);
            var answer := generate(n + 1)(prompt2).text;
            && s.outcomes == [Failed(prompt1, generate(n)(prompt1).error), Answered(prompt2, answer)]
            && s.history == Window(h + Exchange(line, answer))
  {
    var turn := TurnAt(search, generate);
    var first := Turn(h, line, search(n), generate(n));
    var second := Turn(h, line, search(n + 1), generate(n + 1));
    assert first.outcome.Failed? && first.history == h;
    assert second.outcome.Answered?;
    assert turn(n, h, line) == first;
    assert turn(n + 1, h, line) == second;
    RetriedQuestionCanBeAnswered(n, h, line, turn);
  }

  /** Prefixes the outcomes of the lines already handled. */
  function After(done: seq<Outcome>, rest: Session): Session
  {
    Session(done + rest.outcomes, rest.history)
  }

  lemma AfterAfter(done: seq<Outcome>, o: Outcome, rest: Session)
    ensures After(done, After([o], rest)) == After(done + [o], rest)
  {
    assert done + ([o] + rest.outcomes) == (done + [o]) + rest.outcomes;
  }

  /** One iteration of the loop, in terms of the session still to run:
      the line at position i is handled by `turn`, and either ends the
      session or leaves the rest of the lines to the new history. */
  lemma LoopStep(i: nat, lines: seq<string>, before: seq<Message>, done: seq<Outcome>,
                 turn: (nat, seq<Message>, string) -> TurnResult, t: TurnResult)
    requires i < |lines| && t == turn(i, before, lines[i])
    ensures t.outcome.Ends() ==>
              After(done, RunTurns(i, before, lines[i..], turn)) == Session(done + [t.outcome], before)
    ensures !t.outcome.Ends() ==>
              After(done, RunTurns(i, before, lines[i..], turn)) ==
              After(done + [t.outcome], RunTurns(i + 1, t.history, lines[i + 1..], turn))
  {
    assert lines[i..][0] == lines[i];
    assert lines[i..][1..] == lines[i + 1..];
    if !t.outcome.Ends() {
      AfterAfter(done, t.outcome, RunTurns(i + 1, t.history, lines[i + 1..], turn));
    }
  }

  /** The session's state: its chat history. */
  class ChatSession {
    var history: seq<Message>

    ghost predicate Valid()
      reads this
    {
      WellFormed(history)
    }

    /** `chat_history = []` */
    constructor ()
      ensures Valid() && history == []
    {
      history := [];
    }

    /** Handles one input line: the body of one iteration of the loop. */
    method Step(line: string, search: string -> Result<seq<Record>, string>, generate: string -> Generation)
      returns (outcome: Outcome)
      requires Valid()
      modifies this
      ensures Valid()
      ensures TurnResult(outcome, history) == Turn(old(history), line, search, generate)
    {
      if IsExitCommand(line) {
        outcome := Exit;
      } else if IsBlank(line) {
        outcome := Skipped;
      } else {
        match search(line)
        case Failure(error) =>
          outcome := Crashed(error);
        case Success(results) =>
          var context := Context(results);
          var historyText := HistoryText(history);
          var prompt := Prompt(context, historyText, line);
          assert prompt == TurnPrompt(old(history), line, results);
          match generate(prompt)
          case Generated(answer) =>
            ghost var appended := old(history) + Exchange(line, answer);
            history := history + [Message(UserRole, line)];
            history := history + [Message(AiRole, answer)];
            assert history == appended;
            if |history| > MaxHistory {
              history := history[|history| - MaxHistory..];
            }
            RecordKeepsWellFormed(old(history), line, answer);
            outcome := Answered(prompt, answer);
            assert Turn(old(history), line, search, generate) == TurnResult(outcome, Window(appended));
          case Raised(error) =>
            outcome := Failed(prompt, error);
            assert Turn(old(history), line, search, generate) == TurnResult(outcome, history);
      }
    }
  }

  /** `chat_loop`: a fresh session reads the input lines one by one until a
      sentinel, a search exception or the end of the input. */
  method ChatLoop(lines: seq<string>, search: Searches, generate: Generations)
    returns (outcomes: seq<Outcome>, history: seq<Message>)
    ensures Session(outcomes, history) == Run([], lines, search, generate)
  {
    var session := new ChatSession();
    outcomes := [];
    var i := 0;
    var ended := false;
    ghost var turn := TurnAt(search, generate);
    assert lines[0..] == lines;
    while i < |lines| && !ended
      invariant 0 <= i <= |lines|
      invariant session.Valid()
      invariant !ended ==> Run([], lines, search, generate) ==
                           After(outcomes, RunTurns(i, session.history, lines[i..], turn))
      invariant ended ==> Run([], lines, search, generate) == Session(outcomes, session.history)
    {
      ghost var before := session.history;
      assert turn(i, before, lines[i]) == Turn(before, lines[i], search(i), generate(i));
      var outcome := session.Step(lines[i], search(i), generate(i));
      LoopStep(i, lines, before, outcomes, turn, TurnResult(outcome, session.history));
      outcomes := outcomes + [outcome];
      i := i + 1;
      if outcome.Ends() {
        ended := true;
      }
    }
    if !ended {
      assert lines[i..] == [];
      assert outcomes + [] == outcomes;
    }
    history := session.history;
  }
}
