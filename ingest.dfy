/** The ingestion script (ai-engine/src/ingest.ts): connect to the database,
    load and split a PDF, embed every chunk one after another behind a rate
    limit delay, insert all records in one bulk write, log any error instead
    of throwing it, and always disconnect. The database, the PDF loader and
    splitter and the embedding model are parameters (the outcome each call
    has); what the script does is recorded as a trace of effects. */
module Ingest {
  import opened Common
  import Paths

  const EmbeddingModel := "embedding-001"
  const ChunkSize := 1000
  const ChunkOverlap := 200
  /** The wait before each embedding call, in milliseconds. */
  const RateLimitDelayMs := 60000

  /** An embedding, the `number[]` the model returns for a text. */
  datatype Vector = Vector(components: seq<real>)

  /** A chunk as the splitter returns it: its text and the page number its
      `metadata.loc` carries, if any. */
  datatype SplitDoc = SplitDoc(pageContent: string, pageNumber: Option<int>)

  /** A `DocumentChunk` record. */
  datatype ChunkRecord = ChunkRecord(content: string, sourceFile: string, pageNumber: int, vectorEmbedding: Vector)

  datatype Effect =
    | Connect
    | LoadAndSplit(filePath: string)
    | Wait(ms: nat)
    | EmbedQuery(text: string)
    | InsertMany(records: seq<ChunkRecord>)
    | Disconnect

  /** The effects of one run and the outcome it logs: the count of vectors
      ingested, or the error caught. */
  datatype IngestRun = IngestRun(effects: seq<Effect>, logged: Result<nat, Thrown>)

  /** `doc.metadata.loc?.pageNumber || 1`. */
  function PageNumberOf(d: SplitDoc): (n: int)
    ensures n != 0
    ensures d.pageNumber.Some? && d.pageNumber.value != 0 ==> n == d.pageNumber.value
    ensures d.pageNumber.None? ==> n == 1
  {
    if d.pageNumber.Some? && d.pageNumber.value != 0 then d.pageNumber.value else 1
  }

  function RecordOf(filePath: string, d: SplitDoc, embedding: Vector): ChunkRecord {
    ChunkRecord(d.pageContent, Paths.Basename(filePath), PageNumberOf(d), embedding)
  }

  /** The wait and the embedding call the loop makes for each chunk. */
  function StepEffects(docs: seq<SplitDoc>): (r: seq<Effect>)
    ensures |r| == 2 * |docs|
    decreases |docs|
  {
    if |docs| == 0 then []
    else StepEffects(docs[..|docs| - 1]) + [Wait(RateLimitDelayMs), EmbedQuery(docs[|docs| - 1].pageContent)]
  }

  /** One more chunk adds its wait and its call at the end. */
  lemma StepEffectsSnoc(docs: seq<SplitDoc>, i: nat)
    requires i < |docs|
    ensures StepEffects(docs[..i + 1]) == StepEffects(docs[..i]) + [Wait(RateLimitDelayMs), EmbedQuery(docs[i].pageContent)]
  {
    assert docs[..i + 1][..i] == docs[..i];
  }

  /** Chunk `k` gets the wait and then the call with its text, at `2k`. */
  lemma {:induction false} StepEffectsAt(docs: seq<SplitDoc>, k: nat)
    requires k < |docs|
    ensures StepEffects(docs)[2 * k] == Wait(RateLimitDelayMs)
    ensures StepEffects(docs)[2 * k + 1] == EmbedQuery(docs[k].pageContent)
    decreases |docs|
  {
    if k < |docs| - 1 {
      StepEffectsAt(docs[..|docs| - 1], k);
    }
  }

  /** The loop itself only waits and embeds. */
  lemma {:induction false} StepEffectsKinds(docs: seq<SplitDoc>)
    ensures forall j | 0 <= j < |StepEffects(docs)| :: StepEffects(docs)[j].Wait? || StepEffects(docs)[j].EmbedQuery?
    decreases |docs|
  {
    if |docs| > 0 {
      StepEffectsKinds(docs[..|docs| - 1]);
    }
  }

  /** The first failing reply, if any. */
  function FirstFailure(replies: seq<Result<Vector, Thrown>>): (r: Option<nat>)
    ensures r.Some? ==> r.value < |replies| && replies[r.value].Err?
    ensures r.None? ==> forall k | 0 <= k < |replies| :: replies[k].Ok?
    decreases |replies|
  {
    if |replies| == 0 then None
    else if replies[0].Err? then Some(0)
    else match FirstFailure(replies[1..]) case None => None case Some(i) => Some(i + 1)
  }

  /** Every reply before the first failure succeeds. */
  lemma {:induction false} BeforeFailureOk(replies: seq<Result<Vector, Thrown>>)
    requires FirstFailure(replies).Some?
    ensures forall k | 0 <= k < FirstFailure(replies).value :: replies[k].Ok?
    decreases |replies|
  {
    if replies[0].Ok? {
      var rest := replies[1..];
      BeforeFailureOk(rest);
      forall k | 0 < k < |replies| ensures replies[k] == rest[k - 1] {
      }
    }
  }

  /** The records of chunks whose embeddings all succeed, in split order. */
  function Records(filePath: string, docs: seq<SplitDoc>, replies: seq<Result<Vector, Thrown>>): (r: seq<ChunkRecord>)
    requires |replies| == |docs| && forall k | 0 <= k < |replies| :: replies[k].Ok?
    ensures |r| == |docs|
    decreases |docs|
  {
    if |docs| == 0 then []
    else
      var n := |docs| - 1;
      Records(filePath, docs[..n], replies[..n]) + [RecordOf(filePath, docs[n], replies[n].value)]
  }

  /** Record `k` is made from chunk `k` and reply `k`. */
  lemma {:induction false} RecordsAt(filePath: string, docs: seq<SplitDoc>, replies: seq<Result<Vector, Thrown>>, k: nat)
    requires |replies| == |docs| && forall j | 0 <= j < |replies| :: replies[j].Ok?
    requires k < |docs|
    ensures Records(filePath, docs, replies)[k] == RecordOf(filePath, docs[k], replies[k].value)
    decreases |docs|
  {
    var n := |docs| - 1;
    if k < n {
      RecordsAt(filePath, docs[..n], replies[..n], k);
    }
  }

  /** One more successful chunk adds one record at the end. */
  lemma RecordsSnoc(filePath: string, docs: seq<SplitDoc>, replies: seq<Result<Vector, Thrown>>, i: nat)
    requires |replies| == |docs| && i < |docs| && forall j | 0 <= j <= i :: replies[j].Ok?
    ensures Records(filePath, docs[..i + 1], replies[..i + 1])
         == Records(filePath, docs[..i], replies[..i]) + [RecordOf(filePath, docs[i], replies[i].value)]
  {
    assert docs[..i + 1][..i] == docs[..i];
    assert replies[..i + 1][..i] == replies[..i];
  }

  /** What happens once the chunks are in hand: the loop's waits and calls,
      then, if no call failed, the one bulk insert; and the outcome logged. */
  function AfterSplit(filePath: string, docs: seq<SplitDoc>, replies: seq<Result<Vector, Thrown>>,
                      insertFault: Option<Thrown>): IngestRun
    requires |replies| == |docs|
  {
    match FirstFailure(replies)
    case Some(i) => IngestRun(StepEffects(docs[..i + 1]), Err(replies[i].error))
    case None =>
      IngestRun(StepEffects(docs) + [InsertMany(Records(filePath, docs, replies))],
                if insertFault.Some? then Err(insertFault.value) else Ok(|docs|))
  }

  /** The chunks the loop reaches: up to and including the first whose
      embedding fails, or all of them. */
  function LoopedChunks(docs: seq<SplitDoc>, replies: seq<Result<Vector, Thrown>>): (r: seq<SplitDoc>)
    requires |replies| == |docs|
    ensures |r| <= |docs| && r == docs[..|r|]
  {
    match FirstFailure(replies) case Some(i) => docs[..i + 1] case None => docs
  }

  /** What `ingestDocument(filePath)` does, given each external call's
      outcome: `replies[k]` answers the embedding call for chunk `k`. */
  function Ingestion(filePath: string, connectFault: Option<Thrown>, loaded: Result<seq<SplitDoc>, Thrown>,
                     replies: seq<Result<Vector, Thrown>>, insertFault: Option<Thrown>): IngestRun
    requires loaded.Ok? ==> |replies| == |loaded.value|
  {
    if connectFault.Some? then IngestRun([Connect, Disconnect], Err(connectFault.value))
    else if loaded.Err? then IngestRun([Connect, LoadAndSplit(filePath), Disconnect], Err(loaded.error))
    else
      var tail := AfterSplit(filePath, loaded.value, replies, insertFault);
      IngestRun([Connect, LoadAndSplit(filePath)] + tail.effects + [Disconnect], tail.logged)
  }

  /** The `for` loop over the split chunks: wait, embed, record, count. It
      reports the waits and calls it made and, unless a call failed, the
      records and their count. */
  method EmbedChunks(filePath: string, splitDocs: seq<SplitDoc>, replies: seq<Result<Vector, Thrown>>)
    returns (steps: seq<Effect>, chunksToSave: seq<ChunkRecord>, count: nat, failure: Option<Thrown>)
    requires |replies| == |splitDocs|
    ensures match FirstFailure(replies)
      case Some(i) => steps == StepEffects(splitDocs[..i + 1]) && failure == Some(replies[i].error)
      case None => steps == StepEffects(splitDocs) && failure.None?
                   && chunksToSave == Records(filePath, splitDocs, replies) && count == |splitDocs|
  {
    steps, chunksToSave, count, failure := [], [], 0, None;
    for i := 0 to |splitDocs|
      invariant steps == StepEffects(splitDocs[..i])
      invariant forall k | 0 <= k < i :: replies[k].Ok?
      invariant chunksToSave == Records(filePath, splitDocs[..i], replies[..i]) && count == i
    {
      var doc := splitDocs[i];
      StepEffectsSnoc(splitDocs, i);
      steps := steps + [Wait(RateLimitDelayMs), EmbedQuery(doc.pageContent)];
      var embedding := replies[i];
      if embedding.Err? {
        FirstFailureAt(replies, i);
        failure := Some(embedding.error);
        return;
      }
      RecordsSnoc(filePath, splitDocs, replies, i);
      chunksToSave := chunksToSave + [RecordOf(filePath, doc, embedding.value)];
      count := count + 1;
    }
    assert splitDocs[..|splitDocs|] == splitDocs;
    assert replies[..|replies|] == replies;
    NoFailure(replies);
  }

  /** The loop and then the bulk insert inside the `try`. */
  method EmbedAndInsert(filePath: string, splitDocs: seq<SplitDoc>, replies: seq<Result<Vector, Thrown>>,
                        insertFault: Option<Thrown>)
    returns (tail: IngestRun)
    requires |replies| == |splitDocs|
    ensures tail == AfterSplit(filePath, splitDocs, replies, insertFault)
  {
    var steps, chunksToSave, count, failure := EmbedChunks(filePath, splitDocs, replies);
    if failure.Some? {
      tail := IngestRun(steps, Err(failure.value));
    } else {
      tail := IngestRun(steps + [InsertMany(chunksToSave)], if insertFault.Some? then Err(insertFault.value) else Ok(count));
    }
  }

  /** `ingestDocument(filePath)`: every caught error is logged, never thrown,
      and the `finally` disconnects. */
  method IngestDocument(filePath: string, connectFault: Option<Thrown>, loaded: Result<seq<SplitDoc>, Thrown>,
                        replies: seq<Result<Vector, Thrown>>, insertFault: Option<Thrown>)
    returns (run: IngestRun)
    requires loaded.Ok? ==> |replies| == |loaded.value|
    ensures run == Ingestion(filePath, connectFault, loaded, replies, insertFault)
  {
    var effects := [Connect];
    var logged: Result<nat, Thrown>;
    if connectFault.Some? {
      logged := Err(connectFault.value);
    } else {
      effects := effects + [LoadAndSplit(filePath)];
      if loaded.Err? {
        logged := Err(loaded.error);
      } else {
        var tail := EmbedAndInsert(filePath, loaded.value, replies, insertFault);
        assert effects == [Connect, LoadAndSplit(filePath)];
        effects := effects + tail.effects;
        logged := tail.logged;
      }
    }
    effects := effects + [Disconnect];
    run := IngestRun(effects, logged);
  }

  /** With no failing reply there is no first failure. */
  lemma {:induction false} NoFailure(replies: seq<Result<Vector, Thrown>>)
    requires forall k | 0 <= k < |replies| :: replies[k].Ok?
    ensures FirstFailure(replies).None?
    decreases |replies|
  {
    if |replies| > 0 {
      assert replies[0].Ok?;
      NoFailure(replies[1..]);
    }
  }

  /** The first failure is the failing reply all of whose predecessors
      succeed. */
  lemma {:induction false} FirstFailureAt(replies: seq<Result<Vector, Thrown>>, i: nat)
    requires i < |replies| && replies[i].Err?
    requires forall k | 0 <= k < i :: replies[k].Ok?
    ensures FirstFailure(replies) == Some(i)
    decreases i
  {
    if i > 0 {
      assert replies[0].Ok?;
      FirstFailureAt(replies[1..], i - 1);
    }
  }

  // ------------------------------------------------------------- the script

  datatype ScriptRun = MissingEnvironment | Usage | Ran(run: IngestRun)

  /** The script: the environment check when the module loads (exit code
      1), then `process.argv[2]` chooses the file; without one only the usage
      text is printed. Unset variables read as empty. */
  method RunScript(mongoUri: string, apiKey: string, argv: seq<string>,
                   connectFault: Option<Thrown>, loaded: Result<seq<SplitDoc>, Thrown>,
                   replies: seq<Result<Vector, Thrown>>, insertFault: Option<Thrown>)
    returns (r: ScriptRun)
    requires loaded.Ok? ==> |replies| == |loaded.value|
    ensures mongoUri == "" || apiKey == "" <==> r.MissingEnvironment?
    ensures r.Usage? <==> mongoUri != "" && apiKey != "" && (|argv| <= 2 || argv[2] == "")
    ensures r.Ran? ==> |argv| > 2 && r.run == Ingestion(argv[2], connectFault, loaded, replies, insertFault)
  {
    if mongoUri == "" || apiKey == "" {
      return MissingEnvironment;
    }
    if |argv| <= 2 || argv[2] == "" {
      return Usage;
    }
    var run := IngestDocument(argv[2], connectFault, loaded, replies, insertFault);
    r := Ran(run);
  }

  // ----------------------------------------------------------- properties

  /** Every run connects first and disconnects last, exactly once, whatever
      failed in between. */
  lemma AlwaysDisconnects(filePath: string, connectFault: Option<Thrown>, loaded: Result<seq<SplitDoc>, Thrown>,
                          replies: seq<Result<Vector, Thrown>>, insertFault: Option<Thrown>)
    requires loaded.Ok? ==> |replies| == |loaded.value|
    ensures var e := Ingestion(filePath, connectFault, loaded, replies, insertFault).effects;
      && |e| >= 2 && e[0] == Connect && e[|e| - 1] == Disconnect
      && forall k | 0 <= k < |e| - 1 :: e[k] != Disconnect
  {
    if connectFault.None? && loaded.Ok? {
      var docs := loaded.value;
      var tail := AfterSplit(filePath, docs, replies, insertFault).effects;
      assert forall j | 0 <= j < |tail| :: tail[j] != Disconnect by {
        match FirstFailure(replies)
        case Some(i) => StepEffectsKinds(docs[..i + 1]);
        case None => StepEffectsKinds(docs);
      }
      var e := [Connect, LoadAndSplit(filePath)] + tail + [Disconnect];
      assert forall k | 2 <= k < |e| - 1 :: e[k] == tail[k - 2];
    }
  }

  /** Before the chunk that fails, or through all chunks, the loop waits and
      then embeds each chunk's text, one call per chunk, in split order. */
  lemma EmbedsInOrder(filePath: string, docs: seq<SplitDoc>, replies: seq<Result<Vector, Thrown>>,
                      insertFault: Option<Thrown>, k: nat)
    requires |replies| == |docs| && k < |docs|
    requires FirstFailure(replies).None? || k <= FirstFailure(replies).value
    ensures var e := Ingestion(filePath, None, Ok(docs), replies, insertFault).effects;
      && e[2 + 2 * k] == Wait(RateLimitDelayMs)
      && e[3 + 2 * k] == EmbedQuery(docs[k].pageContent)
  {
    var pre := [Connect, LoadAndSplit(filePath)];
    var tail := AfterSplit(filePath, docs, replies, insertFault).effects;
    var looped := LoopedChunks(docs, replies);
    assert tail[..2 * |looped|] == StepEffects(looped);
    assert looped[k] == docs[k];
    StepEffectsAt(looped, k);
    MiddleAt(pre, tail, [Disconnect], 2 * k);
    MiddleAt(pre, tail, [Disconnect], 2 * k + 1);
  }

  lemma MiddleAt(pre: seq<Effect>, middle: seq<Effect>, post: seq<Effect>, j: nat)
    requires j < |middle|
    ensures (pre + middle + post)[|pre| + j] == middle[j]
  {
  }

  /** The run in which every embedding succeeds. */
  lemma SuccessRun(filePath: string, docs: seq<SplitDoc>, replies: seq<Result<Vector, Thrown>>,
                   insertFault: Option<Thrown>)
    requires |replies| == |docs| && forall k | 0 <= k < |replies| :: replies[k].Ok?
    ensures Ingestion(filePath, None, Ok(docs), replies, insertFault)
         == IngestRun([Connect, LoadAndSplit(filePath)] + (StepEffects(docs) + [InsertMany(Records(filePath, docs, replies))]) + [Disconnect],
                      if insertFault.Some? then Err(insertFault.value) else Ok(|docs|))
  {
    NoFailure(replies);
  }

  /** When every embedding succeeds there is exactly one bulk insert, right
      before the disconnect, of one record per chunk in split order, and the
      count logged is the number of chunks. */
  lemma SuccessInsertsAll(filePath: string, docs: seq<SplitDoc>, replies: seq<Result<Vector, Thrown>>,
                          insertFault: Option<Thrown>)
    requires |replies| == |docs| && forall k | 0 <= k < |replies| :: replies[k].Ok?
    ensures var run := Ingestion(filePath, None, Ok(docs), replies, insertFault);
      && |run.effects| == 2 * |docs| + 4
      && run.effects[2 * |docs| + 2] == InsertMany(Records(filePath, docs, replies))
      && (forall k | 0 <= k < |run.effects| && k != 2 * |docs| + 2 :: !run.effects[k].InsertMany?)
      && (insertFault.None? ==> run.logged == Ok(|docs|))
      && (insertFault.Some? ==> run.logged == Err(insertFault.value))
  {
    SuccessRun(filePath, docs, replies, insertFault);
    StepEffectsKinds(docs);
    SingleInsert([Connect, LoadAndSplit(filePath)], StepEffects(docs), InsertMany(Records(filePath, docs, replies)), [Disconnect]);
  }

  /** In `pre + steps + [x] + post` where only `x` is an insert, that is
      the one insert and it sits right after the steps. */
  lemma SingleInsert(pre: seq<Effect>, steps: seq<Effect>, x: Effect, post: seq<Effect>)
    requires forall j | 0 <= j < |pre| :: !pre[j].InsertMany?
    requires forall j | 0 <= j < |steps| :: !steps[j].InsertMany?
    requires forall j | 0 <= j < |post| :: !post[j].InsertMany?
    ensures var e := pre + (steps + [x]) + post;
      && |e| == |pre| + |steps| + 1 + |post| && e[|pre| + |steps|] == x
      && forall k | 0 <= k < |e| && k != |pre| + |steps| :: !e[k].InsertMany?
  {
    var e := pre + (steps + [x]) + post;
    forall k | 0 <= k < |e| && k != |pre| + |steps|
      ensures !e[k].InsertMany?
    {
      if k < |pre| {
        assert e[k] == pre[k];
      } else if k < |pre| + |steps| {
        assert e[k] == steps[k - |pre|];
      } else {
        assert e[k] == post[k - |pre| - |steps| - 1];
      }
    }
  }

  /** Every record names the file by its basename, keeps its chunk's text and
      never has page number zero. */
  lemma RecordFields(filePath: string, docs: seq<SplitDoc>, replies: seq<Result<Vector, Thrown>>, k: nat)
    requires |replies| == |docs| && forall j | 0 <= j < |replies| :: replies[j].Ok?
    requires k < |docs|
    ensures var r := Records(filePath, docs, replies)[k];
      && r.content == docs[k].pageContent
      && r.sourceFile == Paths.Basename(filePath)
      && r.pageNumber != 0
      && r.vectorEmbedding == replies[k].value
  {
    RecordsAt(filePath, docs, replies, k);
  }

  /** A failing embedding call stops the loop: nothing is inserted, no later
      chunk is embedded, and the error is what gets logged. */
  lemma FailureInsertsNothing(filePath: string, docs: seq<SplitDoc>, replies: seq<Result<Vector, Thrown>>,
                              insertFault: Option<Thrown>, i: nat)
    requires |replies| == |docs| && i < |docs| && replies[i].Err?
    requires forall k | 0 <= k < i :: replies[k].Ok?
    ensures var run := Ingestion(filePath, None, Ok(docs), replies, insertFault);
      && |run.effects| == 2 * i + 5
      && (forall k | 0 <= k < |run.effects| :: !run.effects[k].InsertMany?)
      && run.logged == Err(replies[i].error)
  {
    FirstFailureAt(replies, i);
    var steps := StepEffects(docs[..i + 1]);
    StepEffectsKinds(docs[..i + 1]);
    var e := [Connect, LoadAndSplit(filePath)] + steps + [Disconnect];
    assert forall k | 2 <= k < 2 + |steps| :: e[k] == steps[k - 2];
  }
}
