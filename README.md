# opsmind-ai, modelled in Dafny

opsmind-ai is a document assistant for company policies. PDFs are uploaded to an
Express server, which queues them on a BullMQ queue. A worker splits and embeds
each PDF into MongoDB. Questions are answered by a retrieval-augmented agent:
vector search over the chunks, a mock leave-balance tool, then Gemini
generation, with a raw-text fallback when generation fails. A Next.js client
streams answers as server-sent events and keeps a local chat history.

This project models the sequential logic around those hosted services. Every
external call becomes a parameter, namely the outcome the service gives:
- the embedding, search and generation calls;
- the database;
- Redis;
- the clock and `Math.random`;
- the network's reply.

The modules follow the source files:

| module | file | what it models |
|---|---|---|
| `Common` | | optional and fallible results, JavaScript truthiness of fields, thrown values, `join`, `trim`, decimal numerals |
| `Tools` | ai-engine/src/tools.ts | the mock leave table, the tool registry and `executeTool` |
| `Query` | ai-engine/src/query.ts | `askAgenticAI` and `askAI` |
| `Frames` | | the `StreamChunk` value, its `JSON.stringify` text, the `data: …\n\n` event framing, and the reading of that text back |
| `StreamRoute` | client/src/Chat/route.ts | the streaming endpoint, with the stream controller as a class |
| `ChatStream` | client/src/Hooks/UseChatSSE.ts | `sendMessage`, with the hook state as a class |
| `History` | client/src/Hooks/UseHistory.ts | the saved-chat list, as a class |
| `ChatErrors` | server/src/routes/chat.ts | the `/chat` handler and its quota-error mapping |
| `Ingest` | ai-engine/src/ingest.ts | the ingestion script, as a trace of effects |
| `IngestionQueue` | server/src/queue/ingestionQueue.ts | the job queue, its retry policy and the worker handler, as a class |
| `Upload` | server/src/index.ts | multer's PDF filter and filenames, `POST /upload`, `GET /health` |
| `Paths` | | Node's posix `path.basename` and `path.extname` |

The `Frames` module follows the event-stream format of section 9.2 of the
WHATWG HTML Living Standard (server-sent events), restricted to `data:` lines.
The `Retry-After` header carries delay-seconds, as in section 10.2.3 of RFC 9110.

## Model

| member | source | states |
|---|---|---|
| Tools.CheckLeaveBalance | ai-engine/src/tools.ts:18-38 | `user123` and `user456` get their own records; an id that is a key the object literal inherits from `Object.prototype` (`constructor`, `toString`, `__proto__`, …) gets that inherited member, exactly for those keys; every other id gets the `default` record; every record returned is non-negative |
| Tools.MockBalancesNonNegative | ai-engine/src/tools.ts:31-35 | every record of the mock table is non-negative; the `default` record is sick 10, vacation 15, personal 5, used 25 |
| Tools.BalanceJson | ai-engine/src/query.ts:136 | defines `JSON.stringify(balance, null, 2)`: the four fields in declaration order, two-space indented, one per line |
| Tools.BalanceDataJson | ai-engine/src/query.ts:136 | defines how the tool result prints in a template: a record as its JSON, `Object.prototype` as `{}`, an inherited function as `undefined` |
| Tools.RegistryMatchesDefinitions | ai-engine/src/tools.ts:44-63 | the registry's own keys equal the set of names in `TOOL_DEFINITIONS`, which is the single name `checkLeaveBalance`, and there is exactly one definition |
| Tools.ArgumentValues | ai-engine/src/tools.ts:79 | `Object.values` keeps every argument value, in order |
| Tools.Apply | ai-engine/src/tools.ts:78-84 | defines the call `tool(...Object.values(arguments))`: the registered tool on the first value, or the exception it raises; ExecuteTool states the outcome |
| Tools.ExecuteTool | ai-engine/src/tools.ts:71-85 | "not found", with the message `Tool '<name>' not found`, exactly for a name that is neither registered nor inherited from `Object.prototype`; `__proto__` finds a non-callable object, so the call throws `tool is not a function`; any other inherited name is called with the argument values; for `checkLeaveBalance` a throwing tool is rethrown unchanged, otherwise the result is the tool's on the first argument value, or on `undefined` when there is none |
| Query.NeedsLeaveBalance | ai-engine/src/query.ts:100 | defines `/balance\|remaining\|left\|how many.*leave/i.test`: one of the three words anywhere in any ASCII letter case, or `how many` followed later on the same line by `leave`; the lemmas below exercise both branches and show that letter case does not matter |
| Query.TriggerOnBalance | ai-engine/src/query.ts:100 | the tool scenario question "What is my leave balance?" matches the trigger pattern |
| Query.TriggerOnHowManyLeave | ai-engine/src/query.ts:100 | the `how many.*leave` branch matches the mixed-case question "How MANY days of LEAVE do I have?" |
| Query.CaseFolded | ai-engine/src/query.ts:100 | the `i` flag: every question triggers the tool exactly when its ASCII lower-cased form does |
| Query.MatchesFolded | ai-engine/src/query.ts:100 | a word matches at a position of a question exactly when it matches there in the lower-cased question |
| Query.HowManyLeaveExample | ai-engine/src/query.ts:100 | `how many` and then `leave`, with no line terminator between them, are found in a mixed-case question |
| Query.Contents | ai-engine/src/query.ts:119 | the mapped contents are the hits' contents, one per hit, in search order |
| Query.SourcesOf | ai-engine/src/query.ts:76-79 | the sources are the hits' content and score, one per hit, in search order |
| Query.RecentTurns | ai-engine/src/query.ts:125 | `slice(-5)` is the last min(5, n) turns, in their order |
| Query.HistoryBlock | ai-engine/src/query.ts:122-128 | defines the conversation block: empty for an empty history, else the header and one line per turn of the last five; HistoryBlockEmpty, HistoryUsesLastFive and HistoryGrowsOldestFirst state its properties |
| Query.ResultJson | ai-engine/src/query.ts:136 | defines `JSON.stringify(tool.result, null, 2)` inside a template: an absent result prints `undefined` |
| Query.ToolBlock | ai-engine/src/query.ts:131-138 | defines the tool-data block: empty without calls, else the header and, per call, its `Tool:` and `Result:` lines in order; ToolLinesSnoc and BuildToolContext state its growth |
| Query.Prompt | ai-engine/src/query.ts:143-156 | defines the generation prompt: the opening, the context, the tool block, the conversation block, the question and the instructions, in that order |
| Query.FallbackAnswer | ai-engine/src/query.ts:182-184 | defines the fallback text; FallbackAnswerLayout, FallbackShowsRawContext and NoticeKeepsContext state its layout |
| Query.ToolsFor | ai-engine/src/query.ts:102-116 | defines the calls recorded: the leave tool's, with its `userId` argument and result, when the question triggers it and the tool does not throw; none otherwise, since a throwing tool is logged and skipped; Respond states the count |
| Query.Respond | ai-engine/src/query.ts:81-201 | on every path, `messageCount` is the history's length and `hasHistory` holds exactly when the history is non-empty; the model names are `gemini-pro` and `text-embedding-004`; with no hits the answer is the fixed text, with no sources, no tools and no fallback; the tool list has at most one call, and it has one exactly when the question matches and the tool does not throw; the sources are the hits in order; fallback mode holds exactly when the generation call fails |
| Query.Answer | ai-engine/src/query.ts:30-206 | an embedding error and a search error are passed to the caller unchanged; every other outcome is a response |
| Common.JoinKeepsParts | ai-engine/src/query.ts:119 | each part of a `join` appears verbatim at its offset; consecutive parts are one separator apart |
| Query.ContextKeepsHits | ai-engine/src/query.ts:119 | the context holds each hit's content verbatim, in search order, with one `\n\n---\n\n` between neighbours |
| Query.GeneratedAnswerReturned | ai-engine/src/query.ts:158-175 | a successful generation is the answer as it is, with the tools called and fallback mode off |
| Query.FallbackAnswerLayout | ai-engine/src/query.ts:182-184 | the fallback answer starts with the quota notice and then the context verbatim; with no tool it ends there; with a tool, `Tool Data:` and the first tool's result follow |
| Query.NoticeLayout | ai-engine/src/query.ts:182-184 | the same layout for any opening notice |
| Query.FallbackAnswerUsed | ai-engine/src/query.ts:177-200 | any failure of the generation call, whatever its error, gives the fallback answer over the context and the tools called, and sets fallback mode |
| Query.FallbackShowsRawContext | ai-engine/src/query.ts:119-184 | every retrieved chunk appears verbatim in the fallback answer, after the notice, at its offset in the context |
| Query.NoticeKeepsContext | ai-engine/src/query.ts:182-184 | whatever occurs in the context occurs in the fallback, shifted by the notice's length |
| Query.TurnLinesAppend | ai-engine/src/query.ts:125-127 | the turn lines of two runs of turns are the lines of the first, then those of the second |
| Query.HistoryBlockEmpty | ai-engine/src/query.ts:122-128 | the history block is empty exactly when there is no history; otherwise it starts with `PREVIOUS CONVERSATION:` |
| Query.HistoryUsesLastFive | ai-engine/src/query.ts:125 | turns before the last five never reach the prompt |
| Query.HistoryGrowsOldestFirst | ai-engine/src/query.ts:122-128 | below five turns, a new turn adds its `ROLE: content` line after the older lines |
| Query.TurnLinesSnoc | ai-engine/src/query.ts:125-127 | each step of the `forEach` adds the turn's line at the end |
| Query.ToolLinesSnoc | ai-engine/src/query.ts:134-137 | each step of the `forEach` adds the tool's two lines at the end |
| Query.BuildConversationHistory | ai-engine/src/query.ts:122-128 | the loop builds exactly the history block |
| Query.BuildToolContext | ai-engine/src/query.ts:131-138 | the loop builds exactly the tool-data block |
| Query.RespondToHits | ai-engine/src/query.ts:99-201 | the statements after a non-empty search produce the response `Respond` specifies |
| Query.AskAgenticAI | ai-engine/src/query.ts:30-206 | the statements of `askAgenticAI` produce the outcome `Answer` specifies |
| Query.AskAI | ai-engine/src/query.ts:17-20 | `askAI(q)` fails exactly when `askAgenticAI` fails, with the same error, for empty history and the `default` user; otherwise it is that call's answer text |
| Frames.ChunkJson | client/src/Chat/route.ts:38 | defines `JSON.stringify(chunk)`: `type`, then `data` when present, then `sources` when present, compact; DecodeChunkJson and ChunkJsonInjective state its round trip and injectivity |
| Frames.Frame | client/src/Chat/route.ts:38 | defines the event text `data: <json>\n\n`; FrameLines states that it reads back as one line carrying its chunk |
| Frames.DecodeChunk | client/src/Hooks/UseChatSSE.ts:71 | defines `JSON.parse` of a frame payload, with `None` for text the `catch` skips; DecodeChunkJson states that it inverts ChunkJson |
| Frames.DecodeChunkJson | client/src/Hooks/UseChatSSE.ts:71 | decoding a chunk's `JSON.stringify` text gives the chunk back |
| Frames.ChunkJsonInjective | client/src/Chat/route.ts:38 | distinct chunks have distinct texts |
| Frames.ParseEscaped | client/src/Hooks/UseChatSSE.ts:71 | the escaped text of a string, then the closing quote, reads back as the string |
| Frames.ParseQuote | client/src/Hooks/UseChatSSE.ts:71 | a quoted string reads back as itself and leaves the rest untouched |
| Frames.ParseSourceJson | client/src/Hooks/UseChatSSE.ts:71 | a source object reads back as its title and reference |
| Frames.ParseItems | client/src/Hooks/UseChatSSE.ts:71 | a non-empty array of sources reads back as the same sources, in order |
| Frames.ParseSourcesJson | client/src/Hooks/UseChatSSE.ts:71 | a sources array, empty or not, reads back as itself |
| Frames.ParseData | client/src/Hooks/UseChatSSE.ts:71 | an optional `data` member reads back as written, present or absent |
| Frames.ParseSourcesField | client/src/Hooks/UseChatSSE.ts:71 | an optional `sources` member reads back as written, present or absent |
| Frames.ChunkJsonOneLine | client/src/Chat/route.ts:38 | a chunk's JSON text holds no line feed, since every control character is escaped |
| Frames.EscapeChar | client/src/Chat/route.ts:38 | every escape is non-empty and holds no line feed |
| Frames.SplitLines | client/src/Hooks/UseChatSSE.ts:66 | defines `split('\n')`, with at least one piece; SplitAtNewline and SplitNoNewline state how it splits |
| Frames.SplitAtNewline | client/src/Hooks/UseChatSSE.ts:66 | `split('\n')` of `a\nb` is the lines of `a`, then those of `b` |
| Frames.SplitNoNewline | client/src/Hooks/UseChatSSE.ts:66 | a text without a line feed splits into itself alone |
| Frames.NonBlank | client/src/Hooks/UseChatSSE.ts:66 | the filter keeps only lines that are not blank once trimmed, keeps every line that is not blank, and invents none |
| Frames.NonBlankAppend | client/src/Hooks/UseChatSSE.ts:66 | the filter keeps order: filtering two runs of lines is filtering each and concatenating |
| Frames.FrameLines | client/src/Hooks/UseChatSSE.ts:66-71 | a frame read on its own is one non-blank line, and that line decodes to the chunk |
| StreamRoute.StreamChunks | client/src/Chat/route.ts:31-67 | defines the chunks `start` sends: one content chunk per character, the sources chunk, the done chunk; StreamOrder and StreamCarriesText state their order and content |
| StreamRoute.ContentChunkAt | client/src/Chat/route.ts:31-35 | content chunk `i` carries character `i` of the text |
| StreamRoute.ContentChunksSnoc | client/src/Chat/route.ts:31-43 | each turn of the loop adds one content chunk, for the next character |
| StreamRoute.ContentPrefix | client/src/Chat/route.ts:31-43 | the chunks of a prefix of the text are a prefix of the chunks |
| StreamRoute.ContentChunksCarryText | client/src/Chat/route.ts:31-40 | the content payloads, joined, are the text exactly |
| StreamRoute.StreamCarriesText | client/src/Chat/route.ts:31-67 | the sources and done chunks carry no content, so all the stream's content is the text |
| StreamRoute.StreamOrder | client/src/Chat/route.ts:31-67 | one content chunk per character comes first, in order; exactly one sources chunk, with the two sample sources, follows; exactly one done chunk is last |
| StreamRoute.FrameTextsPush | client/src/Chat/route.ts:36-66 | each enqueue adds its frame after the earlier ones |
| StreamRoute.FrameTextsAt | client/src/Chat/route.ts:36-66 | frame `i` is the frame of chunk `i` |
| StreamRoute.FramesAreEvents | client/src/Chat/route.ts:36-66 | every frame is `data: `, then the chunk's JSON, then a blank line |
| StreamRoute.StreamController.Enqueue | client/src/Chat/route.ts:36-39 | an enqueue on a readable stream appends the frame to what the stream accepted and to its queue; on a closed or errored stream it throws and changes nothing |
| StreamRoute.StreamController.Close | client/src/Chat/route.ts:69 | closing a readable stream keeps its frames and ends it; on any other stream it throws and changes nothing |
| StreamRoute.StreamController.Error | client/src/Chat/route.ts:72 | an error makes a readable stream errored and drops its unread frames; on a closed or errored stream it does nothing |
| StreamRoute.StreamController.Cancel | client/src/Chat/route.ts:42 | the reader's cancel, which can reach `start` only during a wait: a readable stream becomes closed and its unread frames are dropped; any other stream is unchanged |
| StreamRoute.EndOf | client/src/Chat/route.ts:24-74 | `start` always ends with the stream closed, never errored; what it accepted is a prefix of the frames; without a cancel, every frame was accepted and is queued; with a cancel after `k` frames, exactly `k` were accepted and the queue is empty |
| StreamRoute.FrameTextsPrefix | client/src/Chat/route.ts:36-66 | the frames of a prefix of the chunks are a prefix of the frames |
| StreamRoute.CancelledBeforeSources | client/src/Chat/route.ts:31-61 | a cancel leaves only the first `k` content frames accepted: neither the sources nor the done frame is written |
| StreamRoute.EmitContent | client/src/Chat/route.ts:31-43 | the loop offers the content frames in order; without a cancel all are accepted and queued on a readable stream; after a cancel following frame `k`, the next enqueue throws, `controller.error` then does nothing, and the stream is left closed with `k` frames accepted and an empty queue |
| StreamRoute.Turn | client/src/Chat/route.ts:32-42 | one turn offers the next character's frame and then waits; the offer throws exactly when the previous wait saw a cancel, and leaves the stream unchanged |
| StreamRoute.EmitTail | client/src/Chat/route.ts:45-73 | on a readable stream, the sources frame, the done frame and `close` follow the content frames and none of them throws; on a cancelled stream the sources enqueue throws and `controller.error` leaves the stream as the cancel left it |
| StreamRoute.Start | client/src/Chat/route.ts:24-74 | `start` leaves the stream in the state `EndOf` specifies for the reply's chunks |
| StreamRoute.StreamResponse | client/src/Chat/route.ts:12-90 | a body that does not parse gives 500 `Internal server error`; a falsy `message` gives 400 `Message is required` and no stream; otherwise an event stream with the `text/event-stream`, `no-cache` and `keep-alive` headers and the stream as `start` leaves it |
| ChatStream.ApplyChunk | client/src/Hooks/UseChatSSE.ts:73-106 | defines one decoded chunk's effect: non-empty content is appended and written; sources are stored and written; done writes both and ends streaming; anything else changes nothing; ContentAccumulates and FinishedAt state these |
| ChatStream.ApplyLines | client/src/Hooks/UseChatSSE.ts:68-111 | defines the effect of a read's lines in order, skipping lines that are not well-formed frames; LinesAreChunks states that |
| ChatStream.SendResult | client/src/Hooks/UseChatSSE.ts:17-129 | defines the message list after a non-blank send; SendShape, FailureShowsNotice, DeliveredReply and StreamRoundTrip state its properties |
| ChatStream.Patched | client/src/Hooks/UseChatSSE.ts:76-123 | a spread update keeps the message's id and role |
| ChatStream.UpdateMessage | client/src/Hooks/UseChatSSE.ts:76-81 | the `map` patches exactly the messages with that id, keeps every other message, and keeps the order and length |
| ChatStream.ChatSession.ConsumeLines | client/src/Hooks/UseChatSSE.ts:68-111 | the `for` loop over one read's lines folds each line into the running text, sources and message list |
| ChatStream.ChatSession.SendMessage | client/src/Hooks/UseChatSSE.ts:17-129 | blank text changes nothing; otherwise the message list is the one `SendResult` specifies, loading stays on through every read (a loop invariant) and is off afterwards |
| ChatStream.ApplyChunksAppend | client/src/Hooks/UseChatSSE.ts:61-112 | folding two runs of chunks is folding the first, then the second |
| ChatStream.LinesAreChunks | client/src/Hooks/UseChatSSE.ts:66-111 | folding the lines is folding the chunks they carry: lines that are not `data: ` frames, or that do not parse, have no effect |
| ChatStream.ReadsAreChunks | client/src/Hooks/UseChatSSE.ts:61-112 | folding the reads is folding all their chunks, in arrival order |
| ChatStream.ContentAccumulates | client/src/Hooks/UseChatSSE.ts:73-74 | the assistant text is the old text plus the non-empty content payloads, in arrival order; no other chunk changes it |
| ChatStream.ChunksOnlyPatch | client/src/Hooks/UseChatSSE.ts:76-105 | folding chunks keeps every message's place, id and role, and never changes a message whose id is not the assistant id |
| ChatStream.OnlyPatchedUpdate | client/src/Hooks/UseChatSSE.ts:116-125 | a further update by the assistant id keeps every other message unchanged |
| ChatStream.SendShape | client/src/Hooks/UseChatSSE.ts:21-43 | a send appends exactly two messages, the user's text and then an assistant message under the assistant id; only messages with that id change; if the clock does not run backwards, the user message is kept as written |
| ChatStream.FailureShowsNotice | client/src/Hooks/UseChatSSE.ts:54-126 | a rejected fetch, a failed status, a missing body or a rejected read leaves the error notice as the assistant text, with streaming off |
| ChatStream.OneFrameChunks | client/src/Hooks/UseChatSSE.ts:65-71 | one frame read on its own yields its chunk and nothing else |
| ChatStream.FramesReadBack | client/src/Hooks/UseChatSSE.ts:61-71 | the producer's frames, read one per read, give back the producer's chunks in order |
| ChatStream.StreamedExchange | client/src/Hooks/UseChatSSE.ts:73-92 | the content chunks and then the sources chunk leave the producer's text and sources in the running state |
| ChatStream.DeliveredReply | client/src/Hooks/UseChatSSE.ts:35-112 | a reply whose reads all arrive folds their chunks into the list that holds the new placeholder |
| ChatStream.StreamFinishes | client/src/Hooks/UseChatSSE.ts:93-105 | the final done chunk writes the streamed text and the sources into the assistant message |
| ChatStream.FinishedAt | client/src/Hooks/UseChatSSE.ts:97-102 | finishing sets the message's text and sources and turns streaming off |
| ChatStream.StreamedReply | client/src/Hooks/UseChatSSE.ts:61-112 | a reply that carries the route's chunks ends with the streamed text, the route's sources and streaming off in the assistant message |
| ChatStream.StreamRoundTrip | client/src/Hooks/UseChatSSE.ts:17-129 | fed the route's frames, the assistant message ends with exactly the producer's text, the two sample sources and streaming off |
| History.FindUser | client/src/Hooks/UseHistory.ts:39 | `find` returns the first user turn, or nothing when there is none |
| History.Prefix | client/src/Hooks/UseHistory.ts:40 | `substring(0, n)` is a prefix of at most `n` characters, and the whole text when that is short enough |
| History.Title | client/src/Hooks/UseHistory.ts:39-40 | defines the title: the first user turn's text, or `New Chat` when there is none or it is empty, cut to 50 characters; TitleFromFirstUser and TitleDefault state both cases |
| History.NewItem | client/src/Hooks/UseHistory.ts:42-47 | defines the saved item: the id clock reading as text, the title, the timestamp reading and the messages; SaveChat and SavedIsFound state its use |
| History.TitleFromFirstUser | client/src/Hooks/UseHistory.ts:39-40 | the title is the first user turn's text cut to 50 characters, when that text is not empty |
| History.TitleDefault | client/src/Hooks/UseHistory.ts:39 | with no user turn, or an empty first one, the title is `New Chat` |
| History.Without | client/src/Hooks/UseHistory.ts:54 | no kept item has the id, and every kept item comes from the list |
| History.WithoutAppend | client/src/Hooks/UseHistory.ts:54 | the filter keeps the order of the items it keeps |
| History.WithoutAbsent | client/src/Hooks/UseHistory.ts:54 | deleting an id that no item has changes nothing |
| History.WithoutKeeps | client/src/Hooks/UseHistory.ts:54 | every item with another id survives the delete |
| History.DeletedIsGone | client/src/Hooks/UseHistory.ts:53-63 | after a delete, no item with that id can be found |
| History.Find | client/src/Hooks/UseHistory.ts:62 | `find` returns the first item with the id, or nothing exactly when no item has it |
| History.SavedIsFound | client/src/Hooks/UseHistory.ts:42-63 | looking up the returned id finds the item just saved, even when an older item has the same id |
| History.HistoryStore.constructor | client/src/Hooks/UseHistory.ts:13 | the history starts empty |
| History.HistoryStore.SaveChat | client/src/Hooks/UseHistory.ts:36-51 | an empty conversation changes nothing and returns nothing; otherwise the new item goes first, the old items follow in order, and its id is returned |
| History.HistoryStore.DeleteItem | client/src/Hooks/UseHistory.ts:53-55 | the history becomes its filter by the id |
| History.HistoryStore.ClearHistory | client/src/Hooks/UseHistory.ts:57-59 | the history becomes empty |
| History.HistoryStore.GetItem | client/src/Hooks/UseHistory.ts:61-63 | the item found is the first in the history with the id, as `find` returns; nothing is found exactly when no item has the id |
| ChatErrors.IsQuota | server/src/routes/chat.ts:17 | defines the quota test: a truthy error whose `status` is 429 or whose `errorDetails` is an array; HandleChat states the replies on both sides |
| ChatErrors.DelaySeconds | server/src/routes/chat.ts:25-26 | defines `parseInt` of the first `\d+` match, or nothing without a digit; DelayOfNumeral and NoDigitNoDelay state its value |
| ChatErrors.DetailDelay | server/src/routes/chat.ts:24-27 | defines what one detail contributes: the delay of a truthy `retryDelay` when the truthy `@type` contains `RetryInfo`; LaterOverwrites and NonMatchingKeeps state its use |
| ChatErrors.RetrySeconds | server/src/routes/chat.ts:19-32 | defines the seconds sent: the scanned delay, or 60 when none; NoMatchDefault and RetryAfterAgrees state it |
| ChatErrors.FirstDigitAt | server/src/routes/chat.ts:25 | the match starts at the first digit, and there is none exactly when the text has no digit |
| ChatErrors.LeadingDigits | server/src/routes/chat.ts:25 | the greedy `\d+` is the longest run of digits at the start |
| ChatErrors.BeforeThrow | server/src/routes/chat.ts:20-30 | the details scanned are the prefix before the first element whose inspection throws |
| ChatErrors.ScanRetryDelay | server/src/routes/chat.ts:21-29 | the loop leaves the delay of the last contributing detail before any throw, or nothing |
| ChatErrors.ThrowPrefix | server/src/routes/chat.ts:20-30 | the details before the first throwing element are exactly the ones the loop gets to |
| ChatErrors.HandleChat | server/src/routes/chat.ts:8-39 | success is `{answer}`; a quota error is 503 with a `Retry-After` header equal to `String(retrySeconds)` and the same `retry_after` in the body; any other error is 500 `AI Error` |
| ChatErrors.DelayOfNumeral | server/src/routes/chat.ts:25-26 | a number's decimal text between a digit-free prefix and a suffix such as `s` or `.5s` reads back as that number |
| ChatErrors.LeadingDigitsOf | server/src/routes/chat.ts:25 | a run of digits followed by a non-digit is read in full |
| ChatErrors.FirstDigitAfter | server/src/routes/chat.ts:25 | after a digit-free prefix, the match starts where the digits start |
| ChatErrors.NoDigitNoDelay | server/src/routes/chat.ts:25-26 | a delay text without a digit gives no value |
| ChatErrors.LaterOverwrites | server/src/routes/chat.ts:23-28 | a later contributing detail overwrites every earlier value |
| ChatErrors.NonMatchingKeeps | server/src/routes/chat.ts:24 | a detail that contributes nothing keeps the value found before it |
| ChatErrors.ThrowKeepsEarlier | server/src/routes/chat.ts:20-30 | an element that throws mid-scan keeps the value found before it and hides every later detail |
| ChatErrors.NoMatchDefault | server/src/routes/chat.ts:32 | with no contributing detail the delay is the 60-second default |
| ChatErrors.RetryAfterAgrees | server/src/routes/chat.ts:33-34 | the header is delay-seconds (one or more digits) and reads back as the body's `retry_after` |
| Common.ShowNat | server/src/routes/chat.ts:33 | `String(n)` of a non-negative integer is a non-empty run of digits |
| Common.ParseShowNat | server/src/routes/chat.ts:26-33 | `parseInt` of `String(n)` is `n` |
| Common.ShowNatInjective | client/src/Hooks/UseChatSSE.ts:22-31 | distinct clock readings give distinct message ids |
| Ingest.PageNumberOf | ai-engine/src/ingest.ts:67 | the page is the chunk's page when present and non-zero, and 1 otherwise |
| Ingest.RecordOf | ai-engine/src/ingest.ts:63-70 | defines one chunk's record: its text, the basename of the path, its page number and its vector; RecordFields states what it keeps |
| Ingest.StepEffectsAt | ai-engine/src/ingest.ts:58-61 | chunk `k` gets the delay and then one embedding call with its own text, at position `2k` |
| Ingest.StepEffectsKinds | ai-engine/src/ingest.ts:55-73 | the loop itself only waits and embeds |
| Ingest.FirstFailure | ai-engine/src/ingest.ts:61 | the first embedding call that fails, or nothing when all succeed |
| Ingest.BeforeFailureOk | ai-engine/src/ingest.ts:55-73 | every call before the first failure succeeds |
| Ingest.RecordsAt | ai-engine/src/ingest.ts:63-70 | record `k` is built from chunk `k` and its embedding |
| Ingest.LoopedChunks | ai-engine/src/ingest.ts:55-73 | the loop reaches a prefix of the chunks |
| Ingest.EmbedChunks | ai-engine/src/ingest.ts:55-73 | the loop waits and embeds up to the first failing call and no further; without a failure the records are one per chunk in split order, and the count is the number of chunks |
| Ingest.EmbedAndInsert | ai-engine/src/ingest.ts:55-79 | the loop, then the one bulk insert, as `AfterSplit` specifies |
| Ingest.AfterSplit | ai-engine/src/ingest.ts:55-79 | defines what follows the split: the loop's waits and calls up to the first failing call, then, when none failed, the single bulk insert; SuccessInsertsAll and FailureInsertsNothing state both cases |
| Ingest.Ingestion | ai-engine/src/ingest.ts:27-86 | defines the whole run as effects and a logged outcome; AlwaysDisconnects, EmbedsInOrder and SuccessRun state its properties |
| Ingest.IngestDocument | ai-engine/src/ingest.ts:27-86 | the statements of `ingestDocument` give the run `Ingestion` specifies |
| Ingest.RunScript | ai-engine/src/ingest.ts:90-97 | a missing environment variable stops the script; without a file argument only the usage text is printed; otherwise the ingestion runs on `argv[2]` |
| Ingest.AlwaysDisconnects | ai-engine/src/ingest.ts:27-86 | every run connects first and disconnects last, exactly once, whatever failed in between |
| Ingest.EmbedsInOrder | ai-engine/src/ingest.ts:55-61 | up to the failing chunk, or through all chunks, each chunk gets a delay and then its own embedding call, in split order |
| Ingest.SuccessRun | ai-engine/src/ingest.ts:27-86 | with every embedding successful, the run is connect, load, the loop, the bulk insert and disconnect |
| Ingest.SuccessInsertsAll | ai-engine/src/ingest.ts:55-79 | with every embedding successful, there is exactly one bulk insert, right before the disconnect, of one record per chunk in split order; the logged count is the number of chunks |
| Ingest.RecordFields | ai-engine/src/ingest.ts:63-70 | each record keeps its chunk's text, names the file by its basename, has a non-zero page and carries its embedding |
| Ingest.FailureInsertsNothing | ai-engine/src/ingest.ts:58-82 | a failing embedding call stops the loop: no later chunk is embedded, nothing is inserted, and the error is logged, not thrown |
| Ingest.FirstFailureAt | ai-engine/src/ingest.ts:61 | the failing call all of whose predecessors succeed is the first failure |
| Ingest.NoFailure | ai-engine/src/ingest.ts:61 | with every call successful there is no first failure |
| Paths.Basename | ai-engine/src/ingest.ts:66 | `path.basename` holds no slash |
| Paths.BasenameOfJoin | ai-engine/src/ingest.ts:66 | the basename of `dir/name` is `name` |
| Paths.BasenameOfName | ai-engine/src/ingest.ts:66 | a name without slashes is its own basename |
| Paths.Extname | server/src/index.ts:40-48 | `path.extname` is empty, or a dot followed by no other dot, and holds no slash |
| Paths.ExtnameOfStem | server/src/index.ts:48 | a plain stem followed by `.ext` has extension `.ext` |
| Paths.ExtnameAfterStem | server/src/index.ts:40 | appending an extension to a plain stem gives a name with that extension |
| Paths.DotfileHasNoExtname | server/src/index.ts:48 | a dotfile such as `.pdf` has no extension |
| Paths.ExtnameEndsBasename | server/src/index.ts:40 | the extension of a path is a suffix of its basename |
| IngestionQueue.BackoffDelay | server/src/queue/ingestionQueue.ts:24-27 | a retry waits at least the one-second base |
| IngestionQueue.BackoffDoubles | server/src/queue/ingestionQueue.ts:24-27 | the first backoff is 1000 ms and each later one doubles the one before |
| IngestionQueue.HandlerOutcome | server/src/queue/ingestionQueue.ts:35-53 | success exactly when `filePath` is truthy and the ingestion resolves, giving `{status: 'success', file}`; a missing `filePath` throws `Job missing filePath`; an ingestion error is rethrown unchanged |
| IngestionQueue.Handle | server/src/queue/ingestionQueue.ts:35-53 | the handler's statements settle as `HandlerOutcome` specifies |
| IngestionQueue.AfterAttempt | server/src/queue/ingestionQueue.ts:22-62 | a success removes the job and emits `completed` with its id; a failure keeps the job, counts the attempt and emits `failed` with its id and the error |
| IngestionQueue.Attempt | server/src/queue/ingestionQueue.ts:35-62 | defines one attempt: the handler's outcome fed to AfterAttempt |
| IngestionQueue.Promote | server/src/queue/ingestionQueue.ts:24-27 | the end of a backoff makes a delayed job waiting again, and changes nothing else |
| IngestionQueue.JobQueue.constructor | server/src/queue/ingestionQueue.ts:17-31 | the queue starts empty, with no events |
| IngestionQueue.JobQueue.Add | server/src/queue/ingestionQueue.ts:22-30 | a new waiting job with no attempt made goes to the back, under an id no other job has |
| IngestionQueue.JobQueue.Work | server/src/queue/ingestionQueue.ts:22-62 | an attempt on a waiting job gives the handler's result, appends its event, and removes the job on success or updates it in place on failure; every job stays one the options allow |
| IngestionQueue.JobQueue.Release | server/src/queue/ingestionQueue.ts:24-27 | the end of a job's backoff puts it back among the waiting jobs |
| IngestionQueue.RemovePreservesOrder | server/src/queue/ingestionQueue.ts:28 | removing a completed job keeps the other jobs and their order |
| IngestionQueue.StepKeepsValid | server/src/queue/ingestionQueue.ts:23 | a waiting job has fewer than three attempts, so a fourth can never start; an attempt leaves a job the options allow |
| IngestionQueue.Run | server/src/queue/ingestionQueue.ts:22-62 | defines a job's fate under successive outcomes, each backoff elapsing in between; RetryBound, AlwaysThrowingFails and CompletedIsRemoved state its properties |
| IngestionQueue.RetryBound | server/src/queue/ingestionQueue.ts:22-30 | whatever the outcomes, a job gets at most three attempts, one event per attempt, each naming the job |
| IngestionQueue.AlwaysThrowingFails | server/src/queue/ingestionQueue.ts:22-52 | a job whose handler always throws is attempted exactly three times, waits 1 s and then 2 s, emits three `failed` events, and is kept as failed with the third error |
| IngestionQueue.CompletedIsRemoved | server/src/queue/ingestionQueue.ts:28-48 | a job that succeeds on its first attempt is removed at once, with one `completed` event and a `success` result |
| IngestionQueue.MissingPathAlwaysFails | server/src/queue/ingestionQueue.ts:39-42 | a job without `filePath` fails every attempt with `Job missing filePath`, whatever the ingestion would do |
| IngestionQueue.SwallowedErrorsNeverRetry | ai-engine/src/ingest.ts:80-82 | an ingestion that always resolves makes every job with a `filePath` complete on its first attempt, so no retry ever happens |
| Upload.IsPdf | server/src/index.ts:48 | defines the PDF test the filter makes, and that the handler repeats at line 67: the mimetype is `application/pdf` or the lower-cased extension is `.pdf`; PdfByExtension and DotPdfNeedsMimetype state what it accepts |
| Upload.PartError | server/src/index.ts:47-53 | a part passes exactly when it is a PDF by the filter's test and within the size limit |
| Upload.FirstError | server/src/index.ts:47-53 | the first failing part, or nothing when all pass |
| Upload.Rejection | server/src/index.ts:47-53 | a request is rejected exactly when some part fails, and then with the filter's error or the size-limit error |
| Upload.RejectionIsFirst | server/src/index.ts:47-53 | the request fails with the error of its first failing part |
| Upload.RandomSuffix | server/src/index.ts:41 | `Math.round(Math.random() * 1e9)` is at most 1000000000 |
| Upload.StoredFilename | server/src/index.ts:39-43 | defines `<Date.now()>-<Math.round(Math.random() * 1e9)><ext>`; StoredFilenameKeepsExtension states its properties |
| Upload.Store | server/src/index.ts:35-44 | defines the stored file: the part's fields, the generated filename and the directory joined with it; QueuedPathIsTruthy and ChunksNameStoredFile state its use |
| Upload.StoreAll | server/src/index.ts:35-44 | one stored file per part, in order: the `k`-th part stored under the `k`-th clock reading and random number |
| Upload.StoredFilenameKeepsExtension | server/src/index.ts:39-43 | a stored filename is non-empty, holds no slash, and keeps the original extension |
| Upload.ChunksNameStoredFile | server/src/index.ts:71 | the chunks ingested from an upload name it by its stored filename |
| Upload.PdfByExtension | server/src/index.ts:47-51 | without the PDF mimetype, a name is accepted exactly when its extension, lower-cased, is `pdf` |
| Upload.DotPdfNeedsMimetype | server/src/index.ts:47-51 | a file named just `.pdf` is accepted only by its mimetype |
| Upload.QueuedPathIsTruthy | server/src/index.ts:71 | the stored path is never empty, so the queued `filePath` is truthy and the worker's outcome is the ingestion's, never `Job missing filePath` |
| Upload.PostUpload | server/src/index.ts:60-80 | no file gives 400 `No file uploaded or invalid file type`; only the first file is looked at; a non-PDF gives 400 `Only PDF files are allowed`; otherwise exactly one `ingest-job` is queued with the stored path before the 201 `queued` body, and a failed enqueue rejects the handler without queuing |
| Upload.HandleUpload | server/src/index.ts:35-80 | a rejected part fails the whole request, with nothing queued; the handler's own PDF test never fires after the filter; a request with accepted parts and a working queue is queued, with the first part's stored file; with a failing queue it rejects with the queue's error |
| Upload.DbState | server/src/index.ts:101-109 | readiness codes 0 to 3 map to disconnected, connected, connecting and disconnecting; any other code maps to `unknown` |
| Upload.DbStatesDistinct | server/src/index.ts:102-107 | distinct readiness codes report distinct names |
| Upload.HealthReply | server/src/index.ts:101-110 | the status is `ok` whatever the connection state; the database is reported `connected` exactly when the ready state is 1; the database field is one of the five names |

## Left out

- Time: the clock readings for ids and timestamps are parameters: `Date.now` at UseChatSSE.ts:22 and 31, UseHistory.ts:43 and 45, and index.ts:41. Two readings are not modelled at all: `processingTime` (query.ts:39, 93, 172, 197) and the tool call's `timestamp: new Date().toISOString()` (query.ts:110), so `Tools.ToolCall` has no timestamp field.
- Timers: the sleeps are not modelled (ingest.ts:60, route.ts:42, tools.ts:28). Only the 60000 ms length of the ingestion delay is recorded, as an effect.
- StreamRoute.StreamController: reads by the consumer are not modelled, so `queue` holds every accepted frame until a cancel or an error drops the unread ones. A cancel that arrives after `close`, the cancel reason and the error value are not modelled. The reader's cancel is the only event that can reach `start`, and only during one of the waits (route.ts:42): the `cancelAfter` parameter says after which content frame, if any.
- Randomness: `Math.random` is a parameter in [0, 1).
- Logging: every `console` call is left out.
- External services: Gemini embedding and generation, the Atlas `$vectorSearch` ranking and scores, and the LangChain PDF loader and splitter are parameters. The embedding vector's length, the chunk window (1000/200) and the search pipeline's `numCandidates`/`limit` are recorded as constants only.
- Query.Answer: no bound of three hits is imposed, because the search is a parameter and any list it returns is handled.
- Tools.ExecuteTool: when the name is a key `AVAILABLE_TOOLS` inherits from `Object.prototype` other than `__proto__` (`toString`, `constructor`, `hasOwnProperty`, …), the source calls that built-in with the argument values. The model gives the outcome `InheritedCalled` with the name and the values. It does not model what the built-in returns or throws.
- ChatStream.ChatSession.SendMessage: each send runs as one atomic step. App.tsx:49 wires `SearchBar` to `sendMessage` without the `disabled={loading}` guard that `ChatInput` gets at App.tsx:55. Two exchanges can therefore overlap, and their `setMessages` updaters and `loading` writes interleave. The model does not capture that interleaving.
- JSON: `JSON.stringify(result, null, 2)` of a balance is written out for the four integer fields. `JSON.parse` is modelled only on text in the layout the route writes (next line).
- Frames.DecodeChunk: it accepts only the compact, fixed-order layout `JSON.stringify` produces. Any other JSON text, which `JSON.parse` would accept, is treated as malformed and skipped. The round trip with the route is unaffected.
- Text encoding: a read is a string, so `TextEncoder`/`TextDecoder` are not modelled. Characters are Unicode scalar values rather than UTF-16 code units.
- History.Prefix: cuts at 50 characters rather than 50 UTF-16 code units, so it differs from `substring` for text with astral characters.
- Query.NeedsLeaveBalance: it folds ASCII letters only. This is exact for this pattern: without the `u` flag, `i` never maps a non-ASCII character onto an ASCII letter.
- Storage: the localStorage load and save (UseHistory.ts:16-34) are not modelled; the history starts empty.
- BullMQ and Redis: the Redis connection (ingestionQueue.ts:10-15), locking, stalled jobs and worker concurrency are not modelled. Jobs are attempted one at a time, in whatever order the caller picks.
- IngestionQueue.JobQueue.Add: ids are natural numbers counting up, while BullMQ ids are strings.
- IngestionQueue.AfterAttempt: a `failed` event is emitted after every failed attempt, which is BullMQ's behaviour.
- Express: what Express's error handling makes of a multer error or of a rejected handler is not modelled. `Forwarded` and `Rejected` carry the error, not a status.
- Upload.PostUpload: an enqueue that rejects is taken to leave the queue unchanged.
- Upload.Store: `path` joins the directory and the filename with one `/`; `path.join`'s normalisation is not modelled. Paths are posix.
- Multer: removing already-written files after an error is not modelled.
- Startup: the Mongoose connection at start-up, the health of its retries and `listen` (index.ts:84-98) are not modelled. The ingestion script's test of its environment variables is modelled in `Ingest.RunScript`, with unset variables read as empty.
- Ingest.IngestDocument: a failing disconnect is not modelled.
- ChatErrors.DelaySeconds: `parseInt` is exact here, while JavaScript loses precision past 2^53. `String` of a number that large is also not modelled.
- Data shapes only: types.ts, models/DocumentChunk.ts and Types/Chat.ts are datatypes, since they carry no behaviour. The user interface, the React components and the test and maintenance scripts are not part of this model.

## Source discrepancies

These are preserved in the model, not corrected:

- **Missing export.** server/src/queue/ingestionQueue.ts:7 imports `ingestPDF`, but ai-engine/src/ingest.ts defines only the unexported `ingestDocument` (line 27), run from `argv` (lines 90-97). `IngestionQueue.HandlerOutcome` takes the awaited call's outcome as a parameter.
- **Swallowed errors.** ai-engine/src/ingest.ts:80-82 logs every error and resolves. If the worker's call reached that function, no ingestion failure would ever be retried: see `IngestionQueue.SwallowedErrorsNeverRetry` and `Ingest.FailureInsertsNothing`.
- **Embedding models differ.** Chunks are embedded with `embedding-001` (ai-engine/src/ingest.ts:23), but questions are embedded with `text-embedding-004` (ai-engine/src/query.ts:48). See `Ingest.EmbeddingModel` and `Query.QueryEmbeddingModel`.
- **Over-broad fallback.** The fallback at ai-engine/src/query.ts:177 catches every generation error, not only a quota error: see `Query.FallbackAnswerUsed`.
- **Request field.** server/src/routes/chat.ts:10 reads `question`, while the client sends `message` (client/src/Hooks/UseChatSSE.ts:51). The route the client calls actually reads `message` (client/src/Chat/route.ts:13).
- **Delay comment.** The comment at ai-engine/src/ingest.ts:59 says 20 seconds, but the code waits 60000 ms (line 60): see `Ingest.RateLimitDelayMs`.
- **Redundant guard.** The PDF test in the upload handler (server/src/index.ts:66-68) can never fire, because multer's filter has already rejected every such file: see `Upload.HandleUpload`.
