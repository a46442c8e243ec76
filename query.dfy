/** The agentic answer pipeline (ai-engine/src/query.ts). The query embedding,
    the vector search, the leave-balance back end and the generation call are
    parameters: each is the outcome the external service gives. */
module Query {
  import opened Common
  import opened Tools

  datatype Role = User | Assistant | System

  /** A conversation turn (`ChatMessage`); its optional timestamp and metadata
      are never read by the pipeline. */
  datatype ChatMessage = ChatMessage(role: Role, content: string)

  /** One result of the vector search, after the `$project` stage. */
  datatype SearchHit = SearchHit(content: string, score: real)

  datatype Source = Source(content: string, score: real)

  datatype ConversationContext = ConversationContext(messageCount: nat, hasHistory: bool)

  /** `metadata` of a response; `processingTime` reads the clock and is left out. */
  datatype ResponseMetadata = ResponseMetadata(model: string, embeddingModel: string, fallbackMode: bool)

  datatype AgentResponse = AgentResponse(
    answer: string,
    sources: seq<Source>,
    toolsCalled: seq<ToolCall>,
    conversationContext: ConversationContext,
    metadata: ResponseMetadata)

  const GenerationModel := "gemini-pro"
  const QueryEmbeddingModel := "text-embedding-004"
  const SearchLimit := 3
  const SearchCandidates := 100

  const NoResultsAnswer := "I couldn't find any relevant information in the uploaded documents."
  const ContextSeparator := "\n\n---\n\n"
  const HistoryHeader := "\n\nPREVIOUS CONVERSATION:\n"
  const HistoryWindow := 5
  const ToolHeader := "\n\nAVAILABLE TOOL DATA:\n"
  /** The notice that opens every fallback answer. */
  const QuotaNotice := "(\U{26A0}\U{FE0F} Note: AI Daily Quota Reached - Showing Raw Database Result)\n\nHere is the relevant policy I found:\n\n"
  const ToolDataLabel := "\n\nTool Data:\n"

  // ------------------------------------------------------------ tool trigger

  /** The lower-case ASCII word `w` matches `q` case-insensitively at `i`. */
  predicate MatchesAt(w: string, q: string, i: int) {
    0 <= i && i + |w| <= |q| && forall k | 0 <= k < |w| :: LowerAscii(q[i + k]) == w[k]
  }

  predicate FoundAnywhere(w: string, q: string) {
    exists i | 0 <= i <= |q| - |w| :: MatchesAt(w, q, i)
  }

  /** The characters `.` does not match. */
  predicate IsLineTerminator(c: char) {
    c == '\n' || c == '\r' || c == '\U{2028}' || c == '\U{2029}'
  }

  /** `/balance|remaining|left|how many.*leave/i.test(q)`. */
  predicate NeedsLeaveBalance(q: string) {
    FoundAnywhere("balance", q) || FoundAnywhere("remaining", q) || FoundAnywhere("left", q)
    || exists i, j | 0 <= i && i + 8 <= j <= |q| - 5 :: HowManyThenLeave(q, i, j)
  }

  /** `how many` at `i`, then `leave` at `j` with no line terminator between. */
  predicate HowManyThenLeave(q: string, i: int, j: int) {
    0 <= i && i + 8 <= j <= |q| - 5
    && MatchesAt("how many", q, i) && MatchesAt("leave", q, j)
    && forall k | i + 8 <= k < j :: !IsLineTerminator(q[k])
  }

  /** The tool scenario question triggers the leave tool. */
  lemma TriggerOnBalance()
    ensures NeedsLeaveBalance("What is my leave balance?")
  {
    assert MatchesAt("balance", "What is my leave balance?", 17);
  }

  /** The test ignores ASCII letter case: a question triggers the leave tool
      exactly when its lower-cased form does. */
  lemma CaseFolded(q: string)
    ensures NeedsLeaveBalance(q) <==> NeedsLeaveBalance(LowerAsciiString(q))
  {
    var f := LowerAsciiString(q);
    forall w: string, i: int
      ensures MatchesAt(w, q, i) <==> MatchesAt(w, f, i)
    {
      MatchesFolded(w, q, i);
    }
    forall k | 0 <= k < |q|
      ensures IsLineTerminator(q[k]) <==> IsLineTerminator(f[k])
    {
    }
    assert FoundAnywhere("balance", q) <==> FoundAnywhere("balance", f);
    assert FoundAnywhere("remaining", q) <==> FoundAnywhere("remaining", f);
    assert FoundAnywhere("left", q) <==> FoundAnywhere("left", f);
    forall i, j
      ensures HowManyThenLeave(q, i, j) <==> HowManyThenLeave(f, i, j)
    {
    }
  }

  /** A word matches at `i` whether or not the question is lower-cased first. */
  lemma MatchesFolded(w: string, q: string, i: int)
    ensures MatchesAt(w, q, i) <==> MatchesAt(w, LowerAsciiString(q), i)
  {
    var f := LowerAsciiString(q);
    if 0 <= i && i + |w| <= |q| {
      forall k | i <= k < i + |w|
        ensures LowerAscii(f[k]) == LowerAscii(q[k])
      {
        LowerAsciiIdempotent(q[k]);
      }
    }
  }

  /** `how many ... leave` in mixed letter case triggers it. */
  lemma TriggerOnHowManyLeave()
    ensures NeedsLeaveBalance(HowManyQuestion)
  {
    HowManyLeaveExample();
  }

  lemma HowManyLeaveExample()
    ensures HowManyThenLeave(HowManyQuestion, 0, 17)
  {
    HowManyAtStart();
    LeaveAtSeventeen();
    NoTerminatorBetween();
  }

  /** A leave question in mixed letter case. */
  const HowManyQuestion := "How MANY days of LEAVE do I have?"

  lemma HowManyAtStart()
    ensures MatchesAt("how many", HowManyQuestion, 0)
  {
    assert HowManyQuestion[..8] == "How MANY";
  }

  lemma LeaveAtSeventeen()
    ensures MatchesAt("leave", HowManyQuestion, 17)
  {
    assert HowManyQuestion[17..22] == "LEAVE";
  }

  lemma NoTerminatorBetween()
    ensures forall k | 8 <= k < 17 :: !IsLineTerminator(HowManyQuestion[k])
  {
    var q := HowManyQuestion;
    assert q[8] == ' ' && q[9] == 'd' && q[10] == 'a' && q[11] == 'y' && q[12] == 's';
    assert q[13] == ' ' && q[14] == 'o' && q[15] == 'f' && q[16] == ' ';
  }

  /** The single call `askAgenticAI` makes, when it succeeds. */
  function LeaveToolCall(userId: string): ToolCall {
    ToolCall(CheckLeaveBalanceName, [("userId", userId)], Some(CheckLeaveBalance(userId)))
  }

  // ------------------------------------------------------- string builders

  function Contents(hits: seq<SearchHit>): (cs: seq<string>)
    ensures |cs| == |hits|
    ensures forall i | 0 <= i < |hits| :: cs[i] == hits[i].content
  {
    if |hits| == 0 then [] else [hits[0].content] + Contents(hits[1..])
  }

  /** The documents context: the hit contents, in search order, joined by the separator. */
  function DocumentContext(hits: seq<SearchHit>): string {
    Join(Contents(hits), ContextSeparator)
  }

  function SourcesOf(hits: seq<SearchHit>): (ss: seq<Source>)
    ensures |ss| == |hits|
    ensures forall i | 0 <= i < |hits| :: ss[i] == Source(hits[i].content, hits[i].score)
  {
    if |hits| == 0 then [] else [Source(hits[0].content, hits[0].score)] + SourcesOf(hits[1..])
  }

  function RoleLabel(r: Role): string {
    match r
    case User => "USER"
    case Assistant => "ASSISTANT"
    case System => "SYSTEM"
  }

  function TurnLine(m: ChatMessage): string {
    RoleLabel(m.role) + ": " + m.content + "\n"
  }

  /** The turn lines of `ms`, oldest first. */
  function TurnLines(ms: seq<ChatMessage>): string
    decreases |ms|
  {
    if |ms| == 0 then "" else TurnLines(ms[..|ms| - 1]) + TurnLine(ms[|ms| - 1])
  }

  /** `history.slice(-5)`. */
  function RecentTurns(history: seq<ChatMessage>): (r: seq<ChatMessage>)
    ensures |r| == if |history| < HistoryWindow then |history| else HistoryWindow
    ensures r == history[|history| - |r|..]
  {
    if |history| < HistoryWindow then history else history[|history| - HistoryWindow..]
  }

  /** The conversation block of the prompt. */
  function HistoryBlock(history: seq<ChatMessage>): string {
    if |history| == 0 then "" else HistoryHeader + TurnLines(RecentTurns(history))
  }

  function ToolNameLine(c: ToolCall): string {
    "Tool: " + c.toolName + "\n"
  }

  function ResultLine(c: ToolCall): string {
    "Result: " + ResultJson(c.result) + "\n"
  }

  /** The two lines a tool contributes to the tool-data block. */
  function ToolLine(c: ToolCall): string {
    ToolNameLine(c) + ResultLine(c)
  }

  /** `JSON.stringify(result, null, 2)` inside a template literal; an absent
      result stringifies to `undefined`, which prints as `undefined`. */
  function ResultJson(r: Option<BalanceData>): string {
    match r
    case None => "undefined"
    case Some(d) => BalanceDataJson(d)
  }

  function ToolLines(cs: seq<ToolCall>): string
    decreases |cs|
  {
    if |cs| == 0 then "" else ToolLines(cs[..|cs| - 1]) + ToolLine(cs[|cs| - 1])
  }

  /** The tool-data block of the prompt. */
  function ToolBlock(calls: seq<ToolCall>): string {
    if |calls| == 0 then "" else ToolHeader + ToolLines(calls)
  }

  const PromptOpening := "You are a helpful AI assistant with access to company documents and tools.\n\nCONTEXT FROM DOCUMENTS:\n"
  const PromptInstructions :=
    "\n\nInstructions:\n- Answer based on the CONTEXT and any tool data provided\n- If tool data is available, incorporate it into your answer\n- Be conversational and refer to previous messages if relevant\n- If you don't know something, say so clearly"

  /** The generation prompt. */
  function Prompt(context: string, toolContext: string, conversation: string, question: string): string {
    PromptOpening + context + "\n" + toolContext + "\n" + conversation
    + "\n\nCURRENT QUESTION: " + question + PromptInstructions
  }

  /** The answer given when generation fails: the notice, the raw context and,
      when a tool ran, the first tool's result. */
  function FallbackAnswer(context: string, calls: seq<ToolCall>): string {
    NoticeThen(QuotaNotice, context, calls)
  }

  /** The fallback layout after any opening notice; the properties below are
      proved for an arbitrary notice and then read for the quota notice. */
  function NoticeThen(notice: string, context: string, calls: seq<ToolCall>): string {
    if |calls| > 0 then notice + context + ToolDataLabel + ResultJson(calls[0].result)
    else notice + context
  }

  // --------------------------------------------------------- the decision

  /** The tools run for a question: the leave tool when the question asks for
      it and the call does not throw. */
  function ToolsFor(question: string, userId: string, toolFault: Option<Thrown>): seq<ToolCall> {
    if NeedsLeaveBalance(question) && toolFault.None? then [LeaveToolCall(userId)] else []
  }

  function Metadata(fallback: bool): ResponseMetadata {
    ResponseMetadata(GenerationModel, QueryEmbeddingModel, fallback)
  }

  /** The prompt sent for a question over non-empty search results. */
  function PromptFor(question: string, history: seq<ChatMessage>, userId: string,
                     hits: seq<SearchHit>, toolFault: Option<Thrown>): string {
    Prompt(DocumentContext(hits), ToolBlock(ToolsFor(question, userId, toolFault)), HistoryBlock(history), question)
  }

  /** The response for search results `hits`: the empty-results answer, the
      generated answer, or the fallback answer. */
  function Respond(question: string, history: seq<ChatMessage>, userId: string, hits: seq<SearchHit>,
                   toolFault: Option<Thrown>, generate: string -> Result<string, Thrown>): (r: AgentResponse)
    ensures r.conversationContext.messageCount == |history|
    ensures r.conversationContext.hasHistory <==> |history| > 0
    ensures r.metadata.model == GenerationModel && r.metadata.embeddingModel == QueryEmbeddingModel
    ensures |hits| == 0 ==> r.answer == NoResultsAnswer && r.sources == [] && r.toolsCalled == [] && !r.metadata.fallbackMode
    ensures |r.toolsCalled| <= 1
    ensures |r.toolsCalled| == 1 <==> |hits| > 0 && NeedsLeaveBalance(question) && toolFault.None?
    ensures |r.toolsCalled| == 1 ==> r.toolsCalled[0] == LeaveToolCall(userId)
    ensures |hits| > 0 ==> |r.sources| == |hits|
    ensures |hits| > 0 ==> forall i | 0 <= i < |hits| :: r.sources[i] == Source(hits[i].content, hits[i].score)
    ensures r.metadata.fallbackMode <==> |hits| > 0 && generate(PromptFor(question, history, userId, hits, toolFault)).Err?
  {
    var ctx := ConversationContext(|history|, |history| > 0);
    if |hits| == 0 then
      AgentResponse(NoResultsAnswer, [], [], ctx, Metadata(false))
    else
      var calls := ToolsFor(question, userId, toolFault);
      match generate(PromptFor(question, history, userId, hits, toolFault))
      case Ok(text) => AgentResponse(text, SourcesOf(hits), calls, ctx, Metadata(false))
      case Err(_) => AgentResponse(FallbackAnswer(DocumentContext(hits), calls), SourcesOf(hits), calls, ctx, Metadata(true))
  }

  /** `askAgenticAI`: an embedding or search failure propagates; every other
      outcome is a response. */
  function Answer(question: string, history: seq<ChatMessage>, userId: string,
                  embed: string -> Result<seq<real>, Thrown>,
                  search: seq<real> -> Result<seq<SearchHit>, Thrown>,
                  toolFault: Option<Thrown>,
                  generate: string -> Result<string, Thrown>): (r: Result<AgentResponse, Thrown>)
    ensures embed(question).Err? ==> r == Err(embed(question).error)
    ensures embed(question).Ok? && search(embed(question).value).Err? ==> r == Err(search(embed(question).value).error)
    ensures r.Ok? <==> embed(question).Ok? && search(embed(question).value).Ok?
  {
    match embed(question)
    case Err(e) => Err(e)
    case Ok(vector) =>
      match search(vector)
      case Err(e) => Err(e)
      case Ok(hits) => Ok(Respond(question, history, userId, hits, toolFault, generate))
  }

  // ------------------------------------------------------------ properties

  /** The context holds each hit's content verbatim, at its offset, in search order. */
  lemma ContextKeepsHits(hits: seq<SearchHit>, i: nat)
    requires i < |hits|
    ensures OccursAt(hits[i].content, DocumentContext(hits), JoinOffset(Contents(hits), ContextSeparator, i))
    ensures i + 1 < |hits| ==>
      JoinOffset(Contents(hits), ContextSeparator, i) + |hits[i].content| + |ContextSeparator|
        == JoinOffset(Contents(hits), ContextSeparator, i + 1)
  {
    JoinKeepsParts(Contents(hits), ContextSeparator, i);
  }

  /** A successful generation is returned as it is, with the sources and tools. */
  lemma GeneratedAnswerReturned(question: string, history: seq<ChatMessage>, userId: string, hits: seq<SearchHit>,
                                toolFault: Option<Thrown>, generate: string -> Result<string, Thrown>)
    requires |hits| > 0
    requires generate(PromptFor(question, history, userId, hits, toolFault)).Ok?
    ensures var r := Respond(question, history, userId, hits, toolFault, generate);
      && r.answer == generate(PromptFor(question, history, userId, hits, toolFault)).value
      && r.toolsCalled == ToolsFor(question, userId, toolFault)
      && !r.metadata.fallbackMode
  {
  }

  /** The fallback text is the notice, the context verbatim, and the first
      tool's result only when there is one. */
  lemma FallbackAnswerLayout(context: string, calls: seq<ToolCall>)
    ensures StartsWith(FallbackAnswer(context, calls), QuotaNotice)
    ensures OccursAt(context, FallbackAnswer(context, calls), |QuotaNotice|)
    ensures |calls| == 0 ==> |FallbackAnswer(context, calls)| == |QuotaNotice| + |context|
    ensures |calls| > 0 ==>
      FallbackAnswer(context, calls)[|QuotaNotice| + |context|..] == ToolDataLabel + ResultJson(calls[0].result)
  {
    NoticeLayout(QuotaNotice, context, calls);
  }

  lemma NoticeLayout(notice: string, context: string, calls: seq<ToolCall>)
    ensures StartsWith(NoticeThen(notice, context, calls), notice)
    ensures OccursAt(context, NoticeThen(notice, context, calls), |notice|)
    ensures |calls| == 0 ==> |NoticeThen(notice, context, calls)| == |notice| + |context|
    ensures |calls| > 0 ==>
      NoticeThen(notice, context, calls)[|notice| + |context|..] == ToolDataLabel + ResultJson(calls[0].result)
  {
    var tail := if |calls| > 0 then ToolDataLabel + ResultJson(calls[0].result) else "";
    if |calls| > 0 {
      ConcatAssoc(notice + context, ToolDataLabel, ResultJson(calls[0].result));
    } else {
      assert notice + context + tail == notice + context;
    }
    ConcatSlices(notice, context, tail);
  }

  /** Any failure of the generation call, whatever its error, selects the
      fallback answer and marks the response as a fallback. */
  lemma FallbackAnswerUsed(question: string, history: seq<ChatMessage>, userId: string, hits: seq<SearchHit>,
                           toolFault: Option<Thrown>, generate: string -> Result<string, Thrown>)
    requires |hits| > 0
    requires generate(PromptFor(question, history, userId, hits, toolFault)).Err?
    ensures Respond(question, history, userId, hits, toolFault, generate).answer
      == FallbackAnswer(DocumentContext(hits), ToolsFor(question, userId, toolFault))
    ensures Respond(question, history, userId, hits, toolFault, generate).toolsCalled
      == ToolsFor(question, userId, toolFault)
    ensures Respond(question, history, userId, hits, toolFault, generate).metadata.fallbackMode
  {
  }

  /** The fallback answer holds every retrieved chunk verbatim, after the
      notice, at the chunk's offset in the context. */
  lemma FallbackShowsRawContext(hits: seq<SearchHit>, calls: seq<ToolCall>, i: nat)
    requires i < |hits|
    ensures OccursAt(hits[i].content, FallbackAnswer(DocumentContext(hits), calls),
                     |QuotaNotice| + JoinOffset(Contents(hits), ContextSeparator, i))
  {
    var ctx := DocumentContext(hits);
    assert FallbackAnswer(ctx, calls) == NoticeThen(QuotaNotice, ctx, calls);
    JoinKeepsParts(Contents(hits), ContextSeparator, i);
    NoticeKeepsContext(QuotaNotice, DocumentContext(hits), calls, hits[i].content, JoinOffset(Contents(hits), ContextSeparator, i));
  }

  /** Whatever occurs in the context occurs in the fallback answer, shifted by the notice. */
  lemma NoticeKeepsContext(notice: string, context: string, calls: seq<ToolCall>, w: string, o: int)
    requires OccursAt(w, context, o)
    ensures OccursAt(w, NoticeThen(notice, context, calls), |notice| + o)
  {
    NoticeLayout(notice, context, calls);
    OccursWithin(w, context, NoticeThen(notice, context, calls), o, |notice|);
  }

  /** Appending a turn appends its line. */
  lemma {:induction false} TurnLinesAppend(a: seq<ChatMessage>, b: seq<ChatMessage>)
    ensures TurnLines(a + b) == TurnLines(a) + TurnLines(b)
    decreases |b|
  {
    if |b| > 0 {
      var b', ab := b[..|b| - 1], a + b;
      assert ab[..|ab| - 1] == a + b';
      assert ab[|ab| - 1] == b[|b| - 1];
      TurnLinesAppend(a, b');
      ConcatAssoc(TurnLines(a), TurnLines(b'), TurnLine(b[|b| - 1]));
    } else {
      assert a + b == a;
    }
  }

  /** The history block is empty exactly when there is no history, and it
      starts with the header otherwise. */
  lemma HistoryBlockEmpty(history: seq<ChatMessage>)
    ensures HistoryBlock(history) == "" <==> |history| == 0
    ensures |history| > 0 ==> StartsWith(HistoryBlock(history), HistoryHeader)
  {
    if |history| > 0 {
      assert HistoryBlock(history)[..|HistoryHeader|] == HistoryHeader;
    }
  }

  /** Turns older than the last five do not reach the prompt. */
  lemma HistoryUsesLastFive(older: seq<ChatMessage>, recent: seq<ChatMessage>)
    requires |recent| >= HistoryWindow
    ensures HistoryBlock(older + recent) == HistoryBlock(recent)
  {
    var h := older + recent;
    var a, b := RecentTurns(h), RecentTurns(recent);
    assert a == h[|h| - HistoryWindow..];
    assert b == recent[|recent| - HistoryWindow..];
    assert forall k | 0 <= k < HistoryWindow :: a[k] == b[k] by {
      forall k | 0 <= k < HistoryWindow ensures a[k] == b[k] {
        assert h[|h| - HistoryWindow + k] == recent[|recent| - HistoryWindow + k];
      }
    }
    assert a == b;
  }

  /** While the history is shorter than five turns, each new turn adds its
      `ROLE: content` line after the older ones. */
  lemma HistoryGrowsOldestFirst(history: seq<ChatMessage>, m: ChatMessage)
    requires 0 < |history| < HistoryWindow
    ensures HistoryBlock(history + [m]) == HistoryBlock(history) + TurnLine(m)
  {
    var h := history + [m];
    assert h[|h| - |h|..] == h;
    assert RecentTurns(h) == h;
    assert h[..|h| - 1] == history;
    ConcatAssoc(HistoryHeader, TurnLines(history), TurnLine(m));
  }

  // --------------------------------------------------- imperative builders

  lemma TurnLinesSnoc(ms: seq<ChatMessage>, i: nat)
    requires i < |ms|
    ensures TurnLines(ms[..i + 1]) == TurnLines(ms[..i]) + TurnLine(ms[i])
  {
    assert ms[..i + 1][..i] == ms[..i];
  }

  lemma ToolLinesSnoc(cs: seq<ToolCall>, i: nat)
    requires i < |cs|
    ensures ToolLines(cs[..i + 1]) == ToolLines(cs[..i]) + ToolLine(cs[i])
  {
    assert cs[..i + 1][..i] == cs[..i];
  }

  /** The `forEach` over the last five turns, appending to the block. */
  method BuildConversationHistory(history: seq<ChatMessage>) returns (block: string)
    ensures block == HistoryBlock(history)
  {
    block := "";
    if |history| > 0 {
      block := HistoryHeader;
      var recent := RecentTurns(history);
      var i := 0;
      while i < |recent|
        invariant 0 <= i <= |recent|
        invariant block == HistoryHeader + TurnLines(recent[..i])
      {
        TurnLinesSnoc(recent, i);
        ConcatAssoc(HistoryHeader, TurnLines(recent[..i]), TurnLine(recent[i]));
        block := block + (RoleLabel(recent[i].role) + ": " + recent[i].content + "\n");
        i := i + 1;
      }
      assert recent[..|recent|] == recent;
    }
  }

  /** The `forEach` over the tools called, appending to the block. */
  method BuildToolContext(calls: seq<ToolCall>) returns (block: string)
    ensures block == ToolBlock(calls)
  {
    block := "";
    if |calls| > 0 {
      block := ToolHeader;
      var i := 0;
      while i < |calls|
        invariant 0 <= i <= |calls|
        invariant block == ToolHeader + ToolLines(calls[..i])
      {
        ToolLinesSnoc(calls, i);
        ConcatAssoc(ToolHeader, ToolLines(calls[..i]), ToolLine(calls[i]));
        ConcatAssoc(block, ToolNameLine(calls[i]), ResultLine(calls[i]));
        block := block + ToolNameLine(calls[i]);
        block := block + ResultLine(calls[i]);
        i := i + 1;
      }
      assert calls[..|calls|] == calls;
    }
  }

  /** `askAgenticAI({question, history, userId})`. */
  method AskAgenticAI(question: string, history: seq<ChatMessage>, userId: string,
                      embed: string -> Result<seq<real>, Thrown>,
                      search: seq<real> -> Result<seq<SearchHit>, Thrown>,
                      toolFault: Option<Thrown>,
                      generate: string -> Result<string, Thrown>) returns (r: Result<AgentResponse, Thrown>)
    ensures r == Answer(question, history, userId, embed, search, toolFault, generate)
  {
    var embedding := embed(question);
    if embedding.Err? {
      return Err(embedding.error);
    }
    var results := search(embedding.value);
    if results.Err? {
      return Err(results.error);
    }
    var hits := results.value;
    if |hits| == 0 {
      var ctx := ConversationContext(|history|, |history| > 0);
      return Ok(AgentResponse(NoResultsAnswer, [], [], ctx, Metadata(false)));
    }
    var response := RespondToHits(question, history, userId, hits, toolFault, generate);
    r := Ok(response);
  }

  /** The part of `askAgenticAI` after a non-empty search: the tool call, the
      three prompt blocks, the generation call and the answer it selects. */
  method RespondToHits(question: string, history: seq<ChatMessage>, userId: string, hits: seq<SearchHit>,
                       toolFault: Option<Thrown>, generate: string -> Result<string, Thrown>) returns (resp: AgentResponse)
    requires |hits| > 0
    ensures resp == Respond(question, history, userId, hits, toolFault, generate)
  {
    var toolsCalled: seq<ToolCall> := [];
    var sources := SourcesOf(hits);
    var ctx := ConversationContext(|history|, |history| > 0);
    if NeedsLeaveBalance(question) {
      if toolFault.None? {
        toolsCalled := toolsCalled + [LeaveToolCall(userId)];
      }
    }
    assert toolsCalled == ToolsFor(question, userId, toolFault);
    var context := DocumentContext(hits);
    var conversationHistory := BuildConversationHistory(history);
    var toolContext := BuildToolContext(toolsCalled);
    var prompt := Prompt(context, toolContext, conversationHistory, question);
    assert prompt == PromptFor(question, history, userId, hits, toolFault);
    var generated := generate(prompt);
    if generated.Ok? {
      resp := AgentResponse(generated.value, sources, toolsCalled, ctx, Metadata(false));
    } else {
      var fallbackAnswer := if |toolsCalled| > 0
        then QuotaNotice + context + ToolDataLabel + ResultJson(toolsCalled[0].result)
        else QuotaNotice + context;
      assert fallbackAnswer == FallbackAnswer(context, toolsCalled);
      resp := AgentResponse(fallbackAnswer, sources, toolsCalled, ctx, Metadata(true));
    }
  }

  /** `askAI(question)`: the answer text of `askAgenticAI` with no history and
      the `default` user. */
  method AskAI(question: string,
               embed: string -> Result<seq<real>, Thrown>,
               search: seq<real> -> Result<seq<SearchHit>, Thrown>,
               toolFault: Option<Thrown>,
               generate: string -> Result<string, Thrown>) returns (r: Result<string, Thrown>)
    ensures var a := Answer(question, [], DefaultUser, embed, search, toolFault, generate);
      && (r.Ok? <==> a.Ok?)
      && (r.Ok? ==> r.value == a.value.answer)
      && (r.Err? ==> r.error == a.error)
  {
    var response := AskAgenticAI(question, [], DefaultUser, embed, search, toolFault, generate);
    match response
    case Ok(resp) => r := Ok(resp.answer);
    case Err(e) => r := Err(e);
  }
}
