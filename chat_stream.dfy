/** The chat hook's `sendMessage` (client/src/Hooks/UseChatSSE.ts): it appends
    the user's message and an empty assistant message, posts the text, reads
    the event stream, folds each `data: ` frame into the assistant message and,
    on any failure, replaces that message's text with an error notice. The
    clock readings that name the two messages and the network's reply are
    parameters. */
module ChatStream {
  import opened Common
  import opened Frames
  import StreamRoute

  datatype MessageRole = UserRole | AssistantRole

  /** `Message`; an absent optional property is `None`. */
  datatype Message = Message(
    id: string,
    role: MessageRole,
    content: string,
    sources: Option<seq<SourceRef>>,
    streaming: Option<bool>)

  const ErrorNotice := "Error: Failed to get response. Please try again."

  /** The spread updates `sendMessage` applies to the assistant message. */
  datatype Patch =
    | Streamed(content: string)
    | Sourced(refs: seq<SourceRef>)
    | Finished(content: string, refs: seq<SourceRef>)
    | Failed

  function Patched(m: Message, p: Patch): (r: Message)
    ensures r.id == m.id && r.role == m.role
  {
    match p
    case Streamed(c) => m.(content := c, streaming := Some(true))
    case Sourced(rs) => m.(sources := Some(rs))
    case Finished(c, rs) => m.(content := c, sources := Some(rs), streaming := Some(false))
    case Failed => m.(content := ErrorNotice, streaming := Some(false))
  }

  /** `prev.map((m) => m.id === id ? {...m, ...} : m)`: the messages with that
      id are patched, every other one is kept, and the order is kept. */
  function UpdateMessage(ms: seq<Message>, id: string, p: Patch): (r: seq<Message>)
    ensures |r| == |ms|
    ensures forall i | 0 <= i < |ms| :: r[i] == if ms[i].id == id then Patched(ms[i], p) else ms[i]
    decreases |ms|
  {
    if |ms| == 0 then []
    else [if ms[0].id == id then Patched(ms[0], p) else ms[0]] + UpdateMessage(ms[1..], id, p)
  }

  // ------------------------------------------------------------- the fold

  /** The hook's running state inside one exchange: `assistantContent`,
      `assistantSources` and the message list. */
  datatype Exchange = Exchange(content: string, sources: seq<SourceRef>, messages: seq<Message>)

  /** The effect of one decoded chunk. */
  function ApplyChunk(x: Exchange, id: string, c: StreamChunk): Exchange {
    if c.kind == "content" && c.data.Some? && c.data.value != "" then
      var content := x.content + c.data.value;
      Exchange(content, x.sources, UpdateMessage(x.messages, id, Streamed(content)))
    else if c.kind == "sources" && c.sources.Some? then
      Exchange(x.content, c.sources.value, UpdateMessage(x.messages, id, Sourced(c.sources.value)))
    else if c.kind == "done" then
      Exchange(x.content, x.sources, UpdateMessage(x.messages, id, Finished(x.content, x.sources)))
    else x
  }

  function ApplyChunks(x: Exchange, id: string, cs: seq<StreamChunk>): Exchange
    decreases |cs|
  {
    if |cs| == 0 then x else ApplyChunk(ApplyChunks(x, id, cs[..|cs| - 1]), id, cs[|cs| - 1])
  }

  /** The effect of one line: a line that is not a well-formed `data: ` frame
      changes nothing. */
  function ApplyLine(x: Exchange, id: string, line: string): Exchange {
    match LineChunk(line)
    case None => x
    case Some(c) => ApplyChunk(x, id, c)
  }

  function ApplyLines(x: Exchange, id: string, lines: seq<string>): Exchange
    decreases |lines|
  {
    if |lines| == 0 then x else ApplyLine(ApplyLines(x, id, lines[..|lines| - 1]), id, lines[|lines| - 1])
  }

  /** The effect of the reads, each decoded and split on its own. */
  function ApplyReads(x: Exchange, id: string, received: seq<string>): Exchange
    decreases |received|
  {
    if |received| == 0 then x else ApplyLines(ApplyReads(x, id, received[..|received| - 1]), id, ReadLines(received[|received| - 1]))
  }

  /** The chunks the lines carry, in order. */
  function LineChunks(lines: seq<string>): seq<StreamChunk>
    decreases |lines|
  {
    if |lines| == 0 then []
    else
      LineChunks(lines[..|lines| - 1])
      + match LineChunk(lines[|lines| - 1]) case None => [] case Some(c) => [c]
  }

  /** The chunks the reads carry, in order. */
  function ReadChunks(received: seq<string>): seq<StreamChunk>
    decreases |received|
  {
    if |received| == 0 then [] else ReadChunks(received[..|received| - 1]) + LineChunks(ReadLines(received[|received| - 1]))
  }

  // ------------------------------------------------------- the exchange

  /** The fetch and its reply: a rejected fetch, or a status and maybe a body
      whose reads are delivered in order, after which the reader either
      reports done or rejects. */
  datatype Body = Body(received: seq<string>, failsAfter: bool)
  datatype Reply = FetchRejected | Replied(ok: bool, body: Option<Body>)

  function UserMessage(text: string, now: nat): Message {
    Message(ShowNat(now), UserRole, text, None, None)
  }

  /** `(Date.now() + 1).toString()`. */
  function AssistantId(now: nat): string {
    ShowNat(now + 1)
  }

  function Placeholder(now: nat): Message {
    Message(AssistantId(now), AssistantRole, "", None, Some(true))
  }

  /** The message list after a send of non-blank `text`: `now1` and `now2`
      are the clock readings for the user message and the assistant id. */
  function SendResult(ms: seq<Message>, text: string, now1: nat, now2: nat, reply: Reply): seq<Message> {
    var id := AssistantId(now2);
    var start := ms + [UserMessage(text, now1)] + [Placeholder(now2)];
    match reply
    case FetchRejected => UpdateMessage(start, id, Failed)
    case Replied(ok, body) =>
      if !ok || body.None? then UpdateMessage(start, id, Failed)
      else
        var x := ApplyReads(Exchange("", [], start), id, body.value.received);
        if body.value.failsAfter then UpdateMessage(x.messages, id, Failed) else x.messages
  }

  /** The hook's state: the message list and the loading flag. */
  class ChatSession {
    var messages: seq<Message>
    var loading: bool

    constructor()
      ensures messages == [] && !loading
    {
      messages := [];
      loading := false;
    }

    /** The lines of one read, folded into the exchange. */
    method ConsumeLines(lines: seq<string>, id: string, content: string, sources: seq<SourceRef>)
      returns (content': string, sources': seq<SourceRef>)
      modifies this
      ensures Exchange(content', sources', messages) == ApplyLines(Exchange(content, sources, old(messages)), id, lines)
      ensures loading == old(loading)
    {
      ghost var x0 := Exchange(content, sources, messages);
      content', sources' := content, sources;
      var k := 0;
      while k < |lines|
        invariant 0 <= k <= |lines|
        invariant Exchange(content', sources', messages) == ApplyLines(x0, id, lines[..k])
        invariant loading == old(loading)
      {
        var line := lines[k];
        assert lines[..k + 1][..k] == lines[..k];
        if StartsWith(line, DataPrefix) {
          var parsed := DecodeChunk(line[|DataPrefix|..]);
          if parsed.Some? {
            var data := parsed.value;
            if data.kind == "content" && data.data.Some? && data.data.value != "" {
              content' := content' + data.data.value;
              messages := UpdateMessage(messages, id, Streamed(content'));
            } else if data.kind == "sources" && data.sources.Some? {
              sources' := data.sources.value;
              messages := UpdateMessage(messages, id, Sourced(sources'));
            } else if data.kind == "done" {
              messages := UpdateMessage(messages, id, Finished(content', sources'));
            }
          }
        }
        k := k + 1;
      }
      assert lines[..|lines|] == lines;
    }

    /** `sendMessage(text)`. */
    method SendMessage(text: string, now1: nat, now2: nat, reply: Reply)
      modifies this
      ensures IsBlank(text) ==> messages == old(messages) && loading == old(loading)
      ensures !IsBlank(text) ==> messages == SendResult(old(messages), text, now1, now2, reply) && !loading
    {
      if IsBlank(text) {
        return;
      }
      messages := messages + [UserMessage(text, now1)];
      loading := true;
      var assistantId := AssistantId(now2);
      var content := "";
      var sources: seq<SourceRef> := [];
      messages := messages + [Message(assistantId, AssistantRole, content, None, Some(true))];
      ghost var start := messages;
      if reply.FetchRejected? || !reply.ok || reply.body.None? {
        messages := UpdateMessage(messages, assistantId, Failed);
      } else {
        var received := reply.body.value.received;
        var r := 0;
        while r < |received|
          invariant 0 <= r <= |received|
          invariant Exchange(content, sources, messages) == ApplyReads(Exchange("", [], start), assistantId, received[..r])
          invariant loading
        {
          assert received[..r + 1][..r] == received[..r];
          content, sources := ConsumeLines(ReadLines(received[r]), assistantId, content, sources);
          r := r + 1;
        }
        assert received[..|received|] == received;
        if reply.body.value.failsAfter {
          messages := UpdateMessage(messages, assistantId, Failed);
        }
      }
      loading := false;
    }
  }

  // ----------------------------------------------------------- properties

  lemma ApplyChunksSnoc(x: Exchange, id: string, cs: seq<StreamChunk>, c: StreamChunk)
    ensures ApplyChunks(x, id, cs + [c]) == ApplyChunk(ApplyChunks(x, id, cs), id, c)
  {
    assert (cs + [c])[..|cs|] == cs;
  }

  lemma {:induction false} ApplyChunksAppend(x: Exchange, id: string, a: seq<StreamChunk>, b: seq<StreamChunk>)
    ensures ApplyChunks(x, id, a + b) == ApplyChunks(ApplyChunks(x, id, a), id, b)
    decreases |b|
  {
    if |b| == 0 {
      assert a + b == a;
    } else {
      var b' := b[..|b| - 1];
      assert a + b == (a + b') + [b[|b| - 1]];
      ApplyChunksSnoc(x, id, a + b', b[|b| - 1]);
      ApplyChunksAppend(x, id, a, b');
      ApplyChunksSnoc(ApplyChunks(x, id, a), id, b', b[|b| - 1]);
      assert b' + [b[|b| - 1]] == b;
    }
  }

  /** Folding the lines is folding the chunks they carry. */
  lemma {:induction false} LinesAreChunks(x: Exchange, id: string, lines: seq<string>)
    ensures ApplyLines(x, id, lines) == ApplyChunks(x, id, LineChunks(lines))
    decreases |lines|
  {
    if |lines| > 0 {
      var pre := lines[..|lines| - 1];
      LinesAreChunks(x, id, pre);
      var last := LineChunk(lines[|lines| - 1]);
      if last.Some? {
        ApplyChunksSnoc(x, id, LineChunks(pre), last.value);
      } else {
        assert LineChunks(lines) == LineChunks(pre) + [];
        assert LineChunks(pre) + [] == LineChunks(pre);
      }
    }
  }

  /** Folding the reads is folding the chunks they carry, in arrival order. */
  lemma {:induction false} ReadsAreChunks(x: Exchange, id: string, received: seq<string>)
    ensures ApplyReads(x, id, received) == ApplyChunks(x, id, ReadChunks(received))
    decreases |received|
  {
    if |received| > 0 {
      var pre := received[..|received| - 1];
      ReadsAreChunks(x, id, pre);
      var y := ApplyReads(x, id, pre);
      LinesAreChunks(y, id, ReadLines(received[|received| - 1]));
      ApplyChunksAppend(x, id, ReadChunks(pre), LineChunks(ReadLines(received[|received| - 1])));
    }
  }

  /** The assistant text is what it was plus the non-empty content payloads,
      in arrival order; no other chunk touches it. */
  lemma {:induction false} ContentAccumulates(x: Exchange, id: string, cs: seq<StreamChunk>)
    ensures ApplyChunks(x, id, cs).content == x.content + StreamRoute.ContentText(cs)
    decreases |cs|
  {
    if |cs| > 0 {
      ContentAccumulates(x, id, cs[..|cs| - 1]);
      ConcatAssoc(x.content, StreamRoute.ContentText(cs[..|cs| - 1]), if cs[|cs| - 1].kind == "content" && cs[|cs| - 1].data.Some? && cs[|cs| - 1].data.value != "" then cs[|cs| - 1].data.value else "");
    } else {
      assert x.content + "" == x.content;
    }
  }

  /** Messages keep their place, ids and roles, and one whose id is not the
      assistant id is never touched. */
  predicate OnlyPatched(before: seq<Message>, after: seq<Message>, id: string) {
    && |after| == |before|
    && forall i | 0 <= i < |before| ::
         && after[i].id == before[i].id && after[i].role == before[i].role
         && (before[i].id != id ==> after[i] == before[i])
  }

  lemma OnlyPatchedUpdate(before: seq<Message>, mid: seq<Message>, id: string, p: Patch)
    requires OnlyPatched(before, mid, id)
    ensures OnlyPatched(before, UpdateMessage(mid, id, p), id)
  {
  }

  lemma {:induction false} ChunksOnlyPatch(x: Exchange, id: string, cs: seq<StreamChunk>)
    ensures OnlyPatched(x.messages, ApplyChunks(x, id, cs).messages, id)
    decreases |cs|
  {
    if |cs| > 0 {
      ChunksOnlyPatch(x, id, cs[..|cs| - 1]);
      var y := ApplyChunks(x, id, cs[..|cs| - 1]);
      var c := cs[|cs| - 1];
      if c.kind == "content" && c.data.Some? && c.data.value != "" {
        OnlyPatchedUpdate(x.messages, y.messages, id, Streamed(y.content + c.data.value));
      } else if c.kind == "sources" && c.sources.Some? {
        OnlyPatchedUpdate(x.messages, y.messages, id, Sourced(c.sources.value));
      } else if c.kind == "done" {
        OnlyPatchedUpdate(x.messages, y.messages, id, Finished(y.content, y.sources));
      }
    }
  }

  lemma OnlyPatchedSelf(ms: seq<Message>, id: string)
    ensures OnlyPatched(ms, ms, id)
  {
  }

  /** A send appends exactly two messages, the user's text and then the
      assistant message; only messages carrying the assistant id change, and
      with a clock that does not run backwards the user message is not one
      of them. */
  lemma SendShape(ms: seq<Message>, text: string, now1: nat, now2: nat, reply: Reply)
    ensures var r := SendResult(ms, text, now1, now2, reply);
      && |r| == |ms| + 2
      && (forall i | 0 <= i < |ms| :: ms[i].id != AssistantId(now2) ==> r[i] == ms[i])
      && (now1 <= now2 ==> r[|ms|] == UserMessage(text, now1))
      && r[|ms| + 1].id == AssistantId(now2) && r[|ms| + 1].role == AssistantRole
  {
    var id := AssistantId(now2);
    var start := ms + [UserMessage(text, now1)] + [Placeholder(now2)];
    var r := SendResult(ms, text, now1, now2, reply);
    assert OnlyPatched(start, r, id) by {
      match reply
      case FetchRejected =>
        OnlyPatchedSelf(start, id);
        OnlyPatchedUpdate(start, start, id, Failed);
      case Replied(ok, body) =>
        OnlyPatchedSelf(start, id);
        if !ok || body.None? {
          OnlyPatchedUpdate(start, start, id, Failed);
        } else {
          var x := ApplyReads(Exchange("", [], start), id, body.value.received);
          ReadsAreChunks(Exchange("", [], start), id, body.value.received);
          ChunksOnlyPatch(Exchange("", [], start), id, ReadChunks(body.value.received));
          if body.value.failsAfter {
            OnlyPatchedUpdate(start, x.messages, id, Failed);
          }
        }
    }
    assert start[|ms|] == UserMessage(text, now1);
    if now1 <= now2 {
      ShowNatInjective(now1, now2 + 1);
    }
  }

  /** A rejected fetch, a failed status, a missing body or a rejected read
      leaves the error notice as the assistant text and stops streaming. */
  lemma FailureShowsNotice(ms: seq<Message>, text: string, now1: nat, now2: nat, reply: Reply)
    requires reply.FetchRejected? || !reply.ok || reply.body.None? || reply.body.value.failsAfter
    ensures var r := SendResult(ms, text, now1, now2, reply);
      |r| == |ms| + 2 && r[|ms| + 1].content == ErrorNotice && r[|ms| + 1].streaming == Some(false)
  {
    SendShape(ms, text, now1, now2, reply);
  }

  // ------------------------------------------------------------ round trip

  lemma ReadChunksSnoc(received: seq<string>, r: string)
    ensures ReadChunks(received + [r]) == ReadChunks(received) + LineChunks(ReadLines(r))
  {
    assert (received + [r])[..|received|] == received;
  }

  /** One frame read on its own yields its chunk and nothing else. */
  lemma OneFrameChunks(c: StreamChunk)
    ensures LineChunks(ReadLines(Frame(c))) == [c]
  {
    FrameLines(c);
    var line := DataPrefix + ChunkJson(c);
    assert [line][..0] == [];
    assert LineChunks([line]) == LineChunks([]) + [c];
  }

  /** The producer's frames, read one frame per read, give back its chunks. */
  lemma {:induction false} FramesReadBack(cs: seq<StreamChunk>)
    ensures ReadChunks(StreamRoute.FrameTexts(cs)) == cs
    decreases |cs|
  {
    if |cs| > 0 {
      var pre, c := cs[..|cs| - 1], cs[|cs| - 1];
      assert cs == pre + [c];
      StreamRoute.FrameTextsPush(pre, c);
      FramesReadBack(pre);
      ReadChunksSnoc(StreamRoute.FrameTexts(pre), Frame(c));
      OneFrameChunks(c);
    }
  }

  /** The content chunks and then the sources chunk leave the producer's text
      and its sources in the exchange. */
  lemma StreamedExchange(x: Exchange, id: string, t: string)
    requires x.content == ""
    ensures var y := ApplyChunks(x, id, StreamRoute.ContentChunks(t) + [StreamRoute.SourcesChunk]);
      y.content == t && y.sources == StreamRoute.SampleSources
  {
    var cc := StreamRoute.ContentChunks(t);
    ApplyChunksSnoc(x, id, cc, StreamRoute.SourcesChunk);
    ContentAccumulates(x, id, cc);
    StreamRoute.ContentChunksCarryText(t);
    assert "" + t == t;
  }

  /** A body whose reads all arrive folds the chunks they carry into the
      freshly started exchange. */
  lemma DeliveredReply(ms: seq<Message>, text: string, now1: nat, now2: nat, reply: Reply)
    requires reply.Replied? && reply.ok && reply.body.Some? && !reply.body.value.failsAfter
    ensures SendResult(ms, text, now1, now2, reply)
         == ApplyChunks(Exchange("", [], ms + [UserMessage(text, now1)] + [Placeholder(now2)]), AssistantId(now2),
                        ReadChunks(reply.body.value.received)).messages
  {
    ReadsAreChunks(Exchange("", [], ms + [UserMessage(text, now1)] + [Placeholder(now2)]), AssistantId(now2),
                   reply.body.value.received);
  }

  /** A body whose reads carry the route's chunks leaves the streamed text,
      the route's sources and streaming off in the assistant message. */
  lemma StreamedReply(ms: seq<Message>, text: string, now1: nat, now2: nat, t: string, reply: Reply)
    requires reply.Replied? && reply.ok && reply.body.Some? && !reply.body.value.failsAfter
    requires ReadChunks(reply.body.value.received) == StreamRoute.StreamChunks(t)
    ensures var r := SendResult(ms, text, now1, now2, reply);
      && |r| == |ms| + 2
      && r[|ms| + 1].content == t
      && r[|ms| + 1].sources == Some(StreamRoute.SampleSources)
      && r[|ms| + 1].streaming == Some(false)
  {
    var id := AssistantId(now2);
    var x0 := Exchange("", [], ms + [UserMessage(text, now1)] + [Placeholder(now2)]);
    var pre := StreamRoute.ContentChunks(t) + [StreamRoute.SourcesChunk];
    DeliveredReply(ms, text, now1, now2, reply);
    StreamFinishes(x0, id, t);
    ChunksOnlyPatch(x0, id, pre);
    var y := ApplyChunks(x0, id, pre);
    assert y.messages[|ms| + 1].id == id;
    FinishedAt(y.messages, id, |ms| + 1, t, StreamRoute.SampleSources);
  }

  /** The route's chunks end with `done`, which finishes the assistant
      message with the streamed text and the sources. */
  lemma StreamFinishes(x: Exchange, id: string, t: string)
    requires x.content == ""
    ensures ApplyChunks(x, id, StreamRoute.StreamChunks(t)).messages
         == UpdateMessage(ApplyChunks(x, id, StreamRoute.ContentChunks(t) + [StreamRoute.SourcesChunk]).messages,
                          id, Finished(t, StreamRoute.SampleSources))
  {
    var pre := StreamRoute.ContentChunks(t) + [StreamRoute.SourcesChunk];
    assert StreamRoute.StreamChunks(t) == pre + [StreamRoute.DoneChunk];
    ApplyChunksSnoc(x, id, pre, StreamRoute.DoneChunk);
    StreamedExchange(x, id, t);
  }

  /** Finishing the message with a given id sets its text, its sources and
      ends its streaming. */
  lemma FinishedAt(ms: seq<Message>, id: string, i: nat, t: string, rs: seq<SourceRef>)
    requires i < |ms| && ms[i].id == id
    ensures var r := UpdateMessage(ms, id, Finished(t, rs));
      && |r| == |ms| && r[i].content == t && r[i].sources == Some(rs) && r[i].streaming == Some(false)
  {
    assert UpdateMessage(ms, id, Finished(t, rs))[i] == Patched(ms[i], Finished(t, rs));
  }

  /** What the producer streams is what the consumer shows: fed the route's
      frames one per read, the assistant message ends with the streamed text
      exactly, the route's two sources, and streaming off. */
  lemma StreamRoundTrip(ms: seq<Message>, text: string, now1: nat, now2: nat, t: string, reply: Reply)
    requires reply == Replied(true, Some(Body(StreamRoute.FrameTexts(StreamRoute.StreamChunks(t)), false)))
    ensures var r := SendResult(ms, text, now1, now2, reply);
      && |r| == |ms| + 2
      && r[|ms| + 1].content == t
      && r[|ms| + 1].sources == Some(StreamRoute.SampleSources)
      && r[|ms| + 1].streaming == Some(false)
  {
    FramesReadBack(StreamRoute.StreamChunks(t));
    StreamedReply(ms, text, now1, now2, t, reply);
  }
}
