/** The chat streaming endpoint (client/src/Chat/route.ts): the 400 and 500
    answers, and the event stream it fills with one `content` frame per
    character of the canned reply, then a `sources` frame, then a `done` frame,
    before closing it. The pauses between frames are modelled only as the
    moments at which the reader may cancel the stream. */
module StreamRoute {
  import opened Common
  import opened Frames

  const ResponseText := "This is a sample response from the document assistant. It demonstrates streaming responses with real-time character-by-character updates."

  const SampleSources := [
    SourceRef("Company HR Policy", "HR Manual, Section 3.2, Page 42"),
    SourceRef("Employee Handbook", "Handbook Edition 2024, Chapter 5")
  ]

  function ContentChunk(c: char): StreamChunk {
    StreamChunk("content", Some([c]), None)
  }

  const SourcesChunk := StreamChunk("sources", None, Some(SampleSources))
  const DoneChunk := StreamChunk("done", None, None)

  /** One content chunk per character, in order. */
  function ContentChunks(text: string): (cs: seq<StreamChunk>)
    ensures |cs| == |text|
    decreases |text|
  {
    if |text| == 0 then [] else ContentChunks(text[..|text| - 1]) + [ContentChunk(text[|text| - 1])]
  }

  /** One more character, one more content chunk. */
  lemma ContentChunksSnoc(text: string, i: nat)
    requires i < |text|
    ensures ContentChunks(text[..i + 1]) == ContentChunks(text[..i]) + [ContentChunk(text[i])]
  {
    assert text[..i + 1][..i] == text[..i];
  }

  /** Chunk `i` carries character `i` of the text. */
  lemma {:induction false} ContentChunkAt(text: string, i: nat)
    requires i < |text|
    ensures ContentChunks(text)[i] == ContentChunk(text[i])
    decreases |text|
  {
    if i < |text| - 1 {
      ContentChunkAt(text[..|text| - 1], i);
      assert text[..|text| - 1][i] == text[i];
    }
  }

  /** The chunks the stream carries for `text`. */
  function StreamChunks(text: string): seq<StreamChunk> {
    ContentChunks(text) + [SourcesChunk, DoneChunk]
  }

  /** Each chunk as the text of one enqueued frame. */
  function FrameTexts(cs: seq<StreamChunk>): (fs: seq<string>)
    ensures |fs| == |cs|
    decreases |cs|
  {
    if |cs| == 0 then [] else FrameTexts(cs[..|cs| - 1]) + [Frame(cs[|cs| - 1])]
  }

  /** One more chunk, one more frame after the others. */
  lemma FrameTextsPush(pre: seq<StreamChunk>, x: StreamChunk)
    ensures FrameTexts(pre + [x]) == FrameTexts(pre) + [Frame(x)]
  {
    assert (pre + [x])[..|pre|] == pre;
  }

  /** The chunks of a prefix of the text are a prefix of its chunks. */
  lemma {:induction false} ContentPrefix(text: string, k: nat)
    requires k <= |text|
    ensures ContentChunks(text[..k]) == ContentChunks(text)[..k]
    decreases |text|
  {
    if k < |text| {
      ContentPrefix(text[..|text| - 1], k);
      assert text[..|text| - 1][..k] == text[..k];
    } else {
      assert text[..k] == text;
    }
  }

  lemma PrefixOfJoin(pre: seq<StreamChunk>, post: seq<StreamChunk>, k: nat)
    requires k <= |pre|
    ensures (pre + post)[..k] == pre[..k]
  {
  }

  /** Frame `i` carries chunk `i`. */
  lemma {:induction false} FrameTextsAt(cs: seq<StreamChunk>, i: nat)
    requires i < |cs|
    ensures FrameTexts(cs)[i] == Frame(cs[i])
    decreases |cs|
  {
    if i < |cs| - 1 {
      FrameTextsAt(cs[..|cs| - 1], i);
    }
  }

  /** The data payloads of the content chunks with non-empty data, joined. */
  function ContentText(cs: seq<StreamChunk>): string
    decreases |cs|
  {
    if |cs| == 0 then ""
    else
      var c := cs[|cs| - 1];
      ContentText(cs[..|cs| - 1])
      + (if c.kind == "content" && c.data.Some? && c.data.value != "" then c.data.value else "")
  }

  // ----------------------------------------------------------- properties

  /** The content payloads, concatenated, give back the text exactly. */
  lemma {:induction false} ContentChunksCarryText(text: string)
    ensures ContentText(ContentChunks(text)) == text
    decreases |text|
  {
    if |text| > 0 {
      var n := |text| - 1;
      var cs := ContentChunks(text);
      assert cs[..n] == ContentChunks(text[..n]);
      ContentChunksCarryText(text[..n]);
      assert text == text[..n] + [text[n]];
    }
  }

  /** Sources and done carry no content, so the stream's content is the text. */
  lemma StreamCarriesText(text: string)
    ensures ContentText(StreamChunks(text)) == text
  {
    var cs := StreamChunks(text);
    assert cs[..|cs| - 1] == ContentChunks(text) + [SourcesChunk];
    assert (ContentChunks(text) + [SourcesChunk])[..|text|] == ContentChunks(text);
    ContentChunksCarryText(text);
  }

  /** The content frames come first, one per character in order; exactly one
      sources frame follows them and exactly one done frame is last. */
  lemma StreamOrder(text: string)
    ensures |StreamChunks(text)| == |text| + 2
    ensures forall i | 0 <= i < |text| :: StreamChunks(text)[i] == ContentChunk(text[i])
    ensures forall i | 0 <= i < |StreamChunks(text)| ::
      (StreamChunks(text)[i].kind == "sources" <==> i == |text|)
      && (StreamChunks(text)[i].kind == "done" <==> i == |text| + 1)
    ensures StreamChunks(text)[|text|].sources == Some(SampleSources) && |SampleSources| == 2
  {
    forall i | 0 <= i < |text| ensures StreamChunks(text)[i] == ContentChunk(text[i]) {
      ContentChunkAt(text, i);
    }
  }

  /** Every frame is `data: ` followed by the chunk's JSON and a blank line. */
  lemma FramesAreEvents(cs: seq<StreamChunk>, i: nat)
    requires i < |cs|
    ensures StartsWith(FrameTexts(cs)[i], DataPrefix)
    ensures FrameTexts(cs)[i] == DataPrefix + ChunkJson(cs[i]) + "\n\n"
  {
    FrameTextsAt(cs, i);
    var j := ChunkJson(cs[i]);
    ConcatAssoc(DataPrefix, j, "\n\n");
    assert (DataPrefix + (j + "\n\n"))[..|DataPrefix|] == DataPrefix;
  }

  // ------------------------------------------------------ the controller

  /** The lifecycle of a `ReadableStream` as its controller sees it. `Closed`
      covers a stream whose close was requested while frames are still
      unread, and one the reader cancelled. */
  datatype StreamState = Readable | Closed | Errored

  /** The state of a stream: what it accepted, what it still holds, its lifecycle. */
  datatype StreamEnd = StreamEnd(enqueued: seq<string>, queue: seq<string>, state: StreamState)

  /** The stream's controller, following the default controller of the WHATWG
      Streams standard: every frame the stream accepted, in order; the frames
      not yet dropped from its queue (reads are not modelled, so a frame
      leaves the queue only when a cancel or an error empties it); and the
      state. A `TypeError` thrown by `enqueue` or `close` is the result
      `thrown`. */
  class StreamController {
    var enqueued: seq<string>
    var queue: seq<string>
    var state: StreamState

    /** The three parts of the stream's state, as one value. */
    function End(): StreamEnd
      reads this
    {
      StreamEnd(enqueued, queue, state)
    }

    constructor()
      ensures enqueued == [] && queue == [] && state == Readable
    {
      enqueued := [];
      queue := [];
      state := Readable;
    }

    /** `controller.enqueue(chunk)`: accepted while the stream is readable,
        a `TypeError` otherwise. */
    method Enqueue(chunk: string) returns (thrown: bool)
      modifies this
      ensures thrown <==> old(state) != Readable
      ensures !thrown ==> enqueued == old(enqueued) + [chunk] && queue == old(queue) + [chunk]
      ensures thrown ==> enqueued == old(enqueued) && queue == old(queue)
      ensures state == old(state)
    {
      thrown := state != Readable;
      if !thrown {
        enqueued := enqueued + [chunk];
        queue := queue + [chunk];
      }
    }

    /** `controller.close()`: ends a readable stream, a `TypeError` otherwise. */
    method Close() returns (thrown: bool)
      modifies this
      ensures thrown <==> old(state) != Readable
      ensures enqueued == old(enqueued) && queue == old(queue)
      ensures state == if thrown then old(state) else Closed
    {
      thrown := state != Readable;
      if !thrown {
        state := Closed;
      }
    }

    /** `controller.error(e)`: a readable stream becomes errored and its
        unread frames are dropped; on any other stream it does nothing. */
    method Error()
      modifies this
      ensures enqueued == old(enqueued)
      ensures old(state) == Readable ==> state == Errored && queue == []
      ensures old(state) != Readable ==> state == old(state) && queue == old(queue)
    {
      if state == Readable {
        state := Errored;
        queue := [];
      }
    }

    /** The reader's `cancel()`: a readable stream becomes closed and its
        unread frames are dropped; on any other stream it does nothing. */
    method Cancel()
      modifies this
      ensures enqueued == old(enqueued)
      ensures old(state) == Readable ==> state == Closed && queue == []
      ensures old(state) != Readable ==> state == old(state) && queue == old(queue)
    {
      if state == Readable {
        state := Closed;
        queue := [];
      }
    }
  }

  /** The reader cancels during the wait that follows content frame number
      `cancelAfter` (counting from 1), one of the `n` waits of the loop.
      Between the last wait and `close` nothing is awaited, so no other
      cancel reaches `start`. */
  predicate CancelledBy(cancelAfter: Option<nat>, n: nat) {
    cancelAfter.Some? && 1 <= cancelAfter.value <= n
  }

  /** What `start` leaves when it offers the frames of `cs`, the first `n`
      of them each followed by a wait: every frame, queued, and the stream
      closed; or, when the reader cancels after `k` of those frames, those
      `k` frames accepted, the queue emptied and the stream closed by the
      cancel. The next `enqueue` then throws, and `controller.error` in the
      `catch` does nothing, so the stream is never errored. */
  function EndOf(cs: seq<StreamChunk>, n: nat, cancelAfter: Option<nat>): (r: StreamEnd)
    requires n <= |cs|
    ensures r.state == Closed
    ensures |r.enqueued| <= |cs| && r.enqueued == FrameTexts(cs)[..|r.enqueued|]
    ensures CancelledBy(cancelAfter, n) ==> |r.enqueued| == cancelAfter.value && r.queue == []
    ensures !CancelledBy(cancelAfter, n) ==> r.enqueued == FrameTexts(cs) && r.queue == r.enqueued
  {
    var fs := FrameTexts(cs);
    if CancelledBy(cancelAfter, n) then
      StreamEnd(fs[..cancelAfter.value], [], Closed)
    else
      StreamEnd(fs, fs, Closed)
  }

  /** The end of the stream for the reply `text`: one wait per content frame. */
  function Outcome(text: string, cancelAfter: Option<nat>): StreamEnd {
    EndOf(StreamChunks(text), |text|, cancelAfter)
  }

  /** The frames of a prefix of the chunks are a prefix of the frames. */
  lemma {:induction false} FrameTextsPrefix(cs: seq<StreamChunk>, k: nat)
    requires k <= |cs|
    ensures FrameTexts(cs[..k]) == FrameTexts(cs)[..k]
    decreases |cs|
  {
    if k < |cs| {
      FrameTextsPrefix(cs[..|cs| - 1], k);
      assert cs[..|cs| - 1][..k] == cs[..k];
    } else {
      assert cs[..k] == cs;
    }
  }

  /** A cancel leaves only content frames accepted, the first `k` of the
      text's: neither the sources frame nor the done frame was written. */
  lemma CancelledBeforeSources(text: string, cancelAfter: Option<nat>)
    requires CancelledBy(cancelAfter, |text|)
    ensures Outcome(text, cancelAfter).enqueued == FrameTexts(ContentChunks(text)[..cancelAfter.value])
  {
    var k := cancelAfter.value;
    PrefixOfJoin(ContentChunks(text), [SourcesChunk, DoneChunk], k);
    FrameTextsPrefix(StreamChunks(text), k);
  }

  /** The stream after `i` turns of the content loop: the first `i` content
      frames accepted, and the stream either still readable with all of them
      queued or, when the reader cancelled during the last wait, closed with
      an empty queue. */
  predicate AfterTurns(e: StreamEnd, text: string, cancelAfter: Option<nat>, i: nat) {
    && i <= |text|
    && e.enqueued == FrameTexts(ContentChunks(text[..i]))
    && (!CancelledBy(cancelAfter, i) ==> e.queue == e.enqueued && e.state == Readable)
    && (CancelledBy(cancelAfter, i) ==> cancelAfter.value == i && e.queue == [] && e.state == Closed)
  }

  /** The `for` loop of `start`: one content frame per character, each
      followed by a wait during which the reader may cancel. It reports
      whether every enqueue went through; the stream may still have been
      cancelled during the last wait. */
  method EmitContent(controller: StreamController, text: string, cancelAfter: Option<nat>) returns (ok: bool)
    requires controller.enqueued == [] && controller.queue == [] && controller.state == Readable
    modifies controller
    ensures ok ==> controller.enqueued == FrameTexts(ContentChunks(text))
    ensures ok && !CancelledBy(cancelAfter, |text|) ==> controller.queue == controller.enqueued && controller.state == Readable
    ensures ok && CancelledBy(cancelAfter, |text|) ==>
      cancelAfter.value == |text| && controller.queue == [] && controller.state == Closed
    ensures !ok ==>
      && CancelledBy(cancelAfter, |text|) && cancelAfter.value < |text|
      && controller.enqueued == FrameTexts(ContentChunks(text)[..cancelAfter.value])
      && controller.queue == [] && controller.state == Closed
  {
    assert text[..0] == [];
    var i := 0;
    while i < |text|
      invariant AfterTurns(controller.End(), text, cancelAfter, i)
    {
      var thrown := Turn(controller, text, cancelAfter, i);
      if thrown {
        ContentPrefix(text, i);
        controller.Error();
        return false;
      }
      i := i + 1;
    }
    assert text[..|text|] == text;
    return true;
  }

  /** One turn of that loop: the content frame of `text[i]` is offered, and
      the reader may cancel during the wait after it. The offer throws
      exactly when the reader cancelled during the previous wait. */
  method Turn(controller: StreamController, text: string, cancelAfter: Option<nat>, i: nat) returns (thrown: bool)
    requires i < |text| && AfterTurns(controller.End(), text, cancelAfter, i)
    modifies controller
    ensures thrown <==> CancelledBy(cancelAfter, i)
    ensures thrown ==> controller.End() == old(controller.End())
    ensures !thrown ==> AfterTurns(controller.End(), text, cancelAfter, i + 1)
  {
    ContentChunksSnoc(text, i);
    FrameTextsPush(ContentChunks(text[..i]), ContentChunk(text[i]));
    thrown := controller.Enqueue(Frame(ContentChunk(text[i])));
    if !thrown && cancelAfter.Some? && cancelAfter.value == i + 1 {
      controller.Cancel();
    }
  }

  /** After the content frames `pre`: the sources frame, the done frame and
      `close`, with no wait between them; a throw goes to `controller.error`. */
  method EmitTail(controller: StreamController, pre: seq<StreamChunk>, sources: StreamChunk, done: StreamChunk)
    requires controller.enqueued == FrameTexts(pre)
    requires controller.state == Readable ==> controller.queue == controller.enqueued
    modifies controller
    ensures old(controller.state) == Readable ==>
      && controller.enqueued == FrameTexts(pre + [sources, done])
      && controller.queue == controller.enqueued && controller.state == Closed
    ensures old(controller.state) != Readable ==>
      && controller.enqueued == old(controller.enqueued)
      && controller.queue == old(controller.queue) && controller.state == old(controller.state)
  {
    FrameTextsPush(pre, sources);
    FrameTextsPush(pre + [sources], done);
    assert pre + [sources, done] == pre + [sources] + [done];
    var thrown := controller.Enqueue(Frame(sources));
    if thrown {
      controller.Error();
      return;
    }
    // With no wait in between, the stream is still readable here, so
    // neither the done frame nor `close` can throw.
    thrown := controller.Enqueue(Frame(done));
    assert !thrown;
    thrown := controller.Close();
    assert !thrown;
  }

  /** `start(controller)`: the frame loop, the sources and done frames, then
      `close`; a throw on the way is passed to `controller.error`. */
  method Start(controller: StreamController, text: string, cancelAfter: Option<nat>)
    requires controller.enqueued == [] && controller.queue == [] && controller.state == Readable
    modifies controller
    ensures controller.End() == Outcome(text, cancelAfter)
  {
    var ok := EmitContent(controller, text, cancelAfter);
    if CancelledBy(cancelAfter, |text|) {
      CancelledBeforeSources(text, cancelAfter);
    }
    if ok {
      var sources := SourcesChunk;
      var done := DoneChunk;
      assert ContentChunks(text)[..|text|] == ContentChunks(text);
      EmitTail(controller, ContentChunks(text), sources, done);
    }
  }

  // ------------------------------------------------------------- handler

  /** The request body as the handler sees it: `Unparseable` when
      `request.json()` rejects or the destructuring of `message` throws,
      which it does for the JSON text `null`; otherwise the `message`
      property it reads. */
  datatype RequestBody = Unparseable | Parsed(message: JsField)

  const EventStreamHeaders := [
    ("Content-Type", "text/event-stream"),
    ("Cache-Control", "no-cache"),
    ("Connection", "keep-alive")
  ]

  datatype RouteResponse =
    | JsonError(status: int, error: string)
    | EventStream(headers: seq<(string, string)>, stream: StreamEnd)

  /** `POST`: a body that does not parse is a 500, a falsy or missing
      `message` a 400 with no stream, anything else the event stream. */
  method StreamResponse(request: RequestBody, cancelAfter: Option<nat>) returns (r: RouteResponse)
    ensures request.Unparseable? ==> r == JsonError(500, "Internal server error")
    ensures request.Parsed? && !request.message.Truthy? ==> r == JsonError(400, "Message is required")
    ensures request.Parsed? && request.message.Truthy? ==>
      r.EventStream? && r.headers == EventStreamHeaders && r.stream == Outcome(ResponseText, cancelAfter)
  {
    if request.Unparseable? {
      return JsonError(500, "Internal server error");
    }
    if !request.message.Truthy? {
      return JsonError(400, "Message is required");
    }
    var controller := new StreamController();
    Start(controller, ResponseText, cancelAfter);
    r := EventStream(EventStreamHeaders, controller.End());
  }
}
