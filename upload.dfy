/** The HTTP server's upload side (server/src/index.ts): multer's PDF filter,
    its disk storage filenames and size limit, the `POST /upload` handler
    that queues an ingestion job, and the `GET /health` database state. The
    clock, `Math.random` and Mongoose's connection state are parameters. */
module Upload {
  import opened Common
  import opened Paths
  import IngestionQueue
  import Ingest

  const PdfMimetype := "application/pdf"
  const PdfExtension := ".pdf"
  const MaxFileSize := 50 * 1024 * 1024
  const JobName := "ingest-job"
  const NoFileMessage := "No file uploaded or invalid file type"
  const OnlyPdfMessage := "Only PDF files are allowed"
  const FileTooLargeMessage := "File too large"

  /** A file part of the multipart request, as multer sees it. */
  datatype Part = Part(originalname: string, mimetype: string, size: nat)

  /** A file multer has written to disk: `req.files[k]`. */
  datatype StoredFile = StoredFile(originalname: string, mimetype: string, filename: string, path: string, size: nat)

  /** The check both `fileFilter` and the handler make: the declared type is
      `application/pdf`, or the original name's extension is `.pdf` in any
      letter case. */
  predicate IsPdf(mimetype: string, originalname: string) {
    mimetype == PdfMimetype || LowerAsciiString(Extname(originalname)) == PdfExtension
  }

  /** `Math.round(random * 1e9)` for `random` in `[0, 1)`. */
  function RandomSuffix(random: real): (n: nat)
    requires 0.0 <= random < 1.0
    ensures n <= 1000000000
  {
    var x := (random * 1000000000.0 + 0.5).Floor;
    assert 0 <= x;
    x
  }

  /** The disk storage's `filename`: `<Date.now()>-<random><ext>`, with `ext`
      the original name's extension. */
  function StoredFilename(originalname: string, now: nat, random: real): string
    requires 0.0 <= random < 1.0
  {
    ShowNat(now) + "-" + ShowNat(RandomSuffix(random)) + Extname(originalname)
  }

  /** Storing a part in the uploads directory; `file.path` is the
      directory joined with the filename. */
  function Store(p: Part, uploadsDir: string, now: nat, random: real): StoredFile
    requires 0.0 <= random < 1.0
  {
    var name := StoredFilename(p.originalname, now, random);
    StoredFile(p.originalname, p.mimetype, name, uploadsDir + "/" + name, p.size)
  }

  predicate RandomsInRange(randoms: seq<real>) {
    forall k | 0 <= k < |randoms| :: 0.0 <= randoms[k] < 1.0
  }

  /** The error multer raises for one part: the filter's rejection, or the
      size limit's once the part is accepted. */
  function PartError(p: Part): (r: Option<Thrown>)
    ensures r.None? <==> IsPdf(p.mimetype, p.originalname) && p.size <= MaxFileSize
  {
    if !IsPdf(p.mimetype, p.originalname) then Some(FilterError())
    else if p.size > MaxFileSize then Some(LimitError())
    else None
  }

  /** The error each part would raise, in order. */
  function PartErrors(parts: seq<Part>): (r: seq<Option<Thrown>>)
    ensures |r| == |parts| && forall k | 0 <= k < |parts| :: r[k] == PartError(parts[k])
  {
    seq(|parts|, k requires 0 <= k < |parts| => PartError(parts[k]))
  }

  /** `upload.any()` goes through the parts in order and the first error
      fails the whole request; this is the position of that part, if any. */
  function FirstError(errors: seq<Option<Thrown>>): (r: Option<nat>)
    ensures r.Some? ==> r.value < |errors| && errors[r.value].Some?
                        && forall j | 0 <= j < r.value :: errors[j].None?
    ensures r.None? ==> forall k | 0 <= k < |errors| :: errors[k].None?
    decreases |errors|
  {
    if |errors| == 0 then None
    else if errors[0].Some? then Some(0)
    else match FirstError(errors[1..]) case None => None case Some(i) => Some(i + 1)
  }

  /** The error that fails a request with these parts, if any. */
  function Rejection(parts: seq<Part>): (r: Option<Thrown>)
    ensures r.None? <==> forall k | 0 <= k < |parts| :: PartError(parts[k]).None?
    ensures r.Some? ==> r.value == FilterError() || r.value == LimitError()
  {
    var errors := PartErrors(parts);
    match FirstError(errors)
    case None => None
    case Some(k) => errors[k]
  }

  /** The files multer writes when every part passed: the `k`-th part under
      clock reading `clock[k]` and random number `randoms[k]`. */
  function StoreAll(parts: seq<Part>, uploadsDir: string, clock: seq<nat>, randoms: seq<real>): (r: seq<StoredFile>)
    requires |clock| == |parts| && |randoms| == |parts| && RandomsInRange(randoms)
    ensures |r| == |parts|
    ensures forall k | 0 <= k < |parts| :: r[k] == Store(parts[k], uploadsDir, clock[k], randoms[k])
    decreases |parts|
  {
    if |parts| == 0 then []
    else
      assert forall k | 0 <= k < |randoms| - 1 :: randoms[1..][k] == randoms[k + 1];
      var rest := StoreAll(parts[1..], uploadsDir, clock[1..], randoms[1..]);
      [Store(parts[0], uploadsDir, clock[0], randoms[0])] + rest
  }

  /** `cb(new Error('Only PDF files are allowed'))`. */
  function FilterError(): Thrown {
    ErrorValue(OnlyPdfMessage, None, NoDetails)
  }

  /** multer's `LIMIT_FILE_SIZE` error. */
  function LimitError(): Thrown {
    ErrorValue(FileTooLargeMessage, None, NoDetails)
  }

  /** `String(path)` as a job field: an empty path would be falsy. */
  function PathField(path: string): JsField {
    if path == "" then Falsy else Truthy(path)
  }

  // ---------------------------------------------------------- the handler

  /** What a request to `POST /upload` ends in: a 400 with an error text, the
      201 `queued` body, an error multer passes on to Express's error
      handling, or the handler's promise rejected by a failed enqueue. */
  datatype UploadResponse =
    | BadRequest(error: string)
    | Queued(status: string, message: string, originalName: string, fileName: string, path: string)
    | Forwarded(thrown: Thrown)
    | Rejected(thrown: Thrown)

  function QueuedBody(f: StoredFile): UploadResponse {
    Queued("queued", "PDF processing started in background", f.originalname, f.filename, f.path)
  }

  /** The handler after multer: the first file only, the PDF check again,
      then `ingestionQueue.add('ingest-job', { filePath: file.path })` is
      awaited before the 201 is sent. `enqueueFault` is the error a rejected
      `add` throws; the queue is then taken as unchanged. */
  method PostUpload(q: IngestionQueue.JobQueue, files: seq<StoredFile>, enqueueFault: Option<Thrown>)
    returns (resp: UploadResponse)
    requires q.Valid()
    modifies q
    ensures q.Valid()
    ensures |files| == 0 ==> resp == BadRequest(NoFileMessage)
    ensures |files| > 0 && !IsPdf(files[0].mimetype, files[0].originalname) ==> resp == BadRequest(OnlyPdfMessage)
    ensures |files| > 0 && IsPdf(files[0].mimetype, files[0].originalname) && enqueueFault.Some? ==>
      resp == Rejected(enqueueFault.value)
    ensures |files| > 0 && IsPdf(files[0].mimetype, files[0].originalname) && enqueueFault.None? ==>
      && q.jobs == old(q.jobs) + [IngestionQueue.Job(old(q.nextId), JobName, IngestionQueue.JobData(PathField(files[0].path)), 0, IngestionQueue.Waiting)]
      && q.nextId == old(q.nextId) + 1
      && resp == QueuedBody(files[0])
    ensures !(|files| > 0 && IsPdf(files[0].mimetype, files[0].originalname) && enqueueFault.None?) ==>
      q.jobs == old(q.jobs) && q.nextId == old(q.nextId)
    ensures q.events == old(q.events)
  {
    if |files| == 0 {
      return BadRequest(NoFileMessage);
    }
    var file := files[0];
    if !IsPdf(file.mimetype, file.originalname) {
      return BadRequest(OnlyPdfMessage);
    }
    if enqueueFault.Some? {
      return Rejected(enqueueFault.value);
    }
    var _ := q.Add(JobName, IngestionQueue.JobData(PathField(file.path)));
    resp := QueuedBody(file);
  }

  /** A whole `POST /upload`: multer, then the handler when multer let the
      request through. */
  method HandleUpload(q: IngestionQueue.JobQueue, parts: seq<Part>, uploadsDir: string,
                      clock: seq<nat>, randoms: seq<real>, enqueueFault: Option<Thrown>)
    returns (resp: UploadResponse)
    requires q.Valid()
    requires |clock| == |parts| && |randoms| == |parts| && RandomsInRange(randoms)
    modifies q
    ensures q.Valid() && q.events == old(q.events)
    ensures Rejection(parts).Some? ==> resp == Forwarded(Rejection(parts).value) && q.jobs == old(q.jobs)
    ensures resp != BadRequest(OnlyPdfMessage)
    ensures |parts| == 0 ==> resp == BadRequest(NoFileMessage) && q.jobs == old(q.jobs)
    ensures resp.Queued? ==>
      && enqueueFault.None? && |parts| > 0
      && var f := Store(parts[0], uploadsDir, clock[0], randoms[0]);
      && resp == QueuedBody(f)
      && q.jobs == old(q.jobs) + [IngestionQueue.Job(old(q.nextId), JobName, IngestionQueue.JobData(Truthy(f.path)), 0, IngestionQueue.Waiting)]
    ensures !resp.Queued? ==> q.jobs == old(q.jobs)
    ensures |parts| > 0 && Rejection(parts).None? && enqueueFault.None? ==> resp.Queued?
    ensures |parts| > 0 && Rejection(parts).None? && enqueueFault.Some? ==> resp == Rejected(enqueueFault.value)
  {
    var rejected := Rejection(parts);
    if rejected.Some? {
      return Forwarded(rejected.value);
    }
    var files := StoreAll(parts, uploadsDir, clock, randoms);
    if |files| > 0 {
      assert PartError(parts[0]).None?;
    }
    resp := PostUpload(q, files, enqueueFault);
  }

  // ---------------------------------------------------------- health

  const ReadyStates := ["disconnected", "connected", "connecting", "disconnecting"]

  /** `states[state] || 'unknown'` for Mongoose's `readyState`. */
  function DbState(readyState: int): (s: string)
    ensures 0 <= readyState < 4 ==> s == ReadyStates[readyState]
    ensures s == "unknown" <==> !(0 <= readyState < 4)
  {
    if 0 <= readyState < |ReadyStates| then ReadyStates[readyState] else "unknown"
  }

  datatype Health = Health(status: string, db: string)

  /** `GET /health`. */
  function HealthReply(readyState: int): (h: Health)
    ensures h.status == "ok"
    ensures h.db == "connected" <==> readyState == 1
    ensures h.db in ReadyStates + ["unknown"]
  {
    Health("ok", DbState(readyState))
  }

  // ----------------------------------------------------------- properties

  /** A request fails with the error of its first offending part, even when
      later parts would have failed too. */
  lemma RejectionIsFirst(parts: seq<Part>, k: nat)
    requires k < |parts| && PartError(parts[k]).Some?
    requires forall j | 0 <= j < k :: PartError(parts[j]).None?
    ensures Rejection(parts) == PartError(parts[k])
  {
    var errors := PartErrors(parts);
    var i := FirstError(errors);
    assert errors[k].Some?;
    assert i == Some(k);
  }

  /** A stored path is never empty, so the job an accepted upload queues
      always carries a truthy `filePath`: the worker never fails it with
      `Job missing filePath`, and its outcome is the ingestion's. */
  lemma QueuedPathIsTruthy(p: Part, uploadsDir: string, now: nat, random: real, ingested: Result<(), Thrown>)
    requires 0.0 <= random < 1.0
    ensures var f := Store(p, uploadsDir, now, random);
      && PathField(f.path) == Truthy(f.path)
      && IngestionQueue.HandlerOutcome(IngestionQueue.JobData(PathField(f.path)), ingested)
         == match ingested
            case Ok(_) => Ok(IngestionQueue.WorkerResult("success", f.path))
            case Err(e) => Err(e)
  {
  }

  /** Distinct readiness codes are reported under distinct names. */
  lemma DbStatesDistinct(a: int, b: int)
    requires 0 <= a < 4 && 0 <= b < 4 && a != b
    ensures DbState(a) != DbState(b)
  {
  }

  /** The extension is a case-folded `.pdf` exactly when the name is
      accepted without a PDF mimetype. */
  lemma PdfByExtension(stem: string, ext: string, mimetype: string)
    requires |stem| > 0 && NoSlash(stem) && NoSlash(ext)
    requires forall j | 0 <= j < |stem| :: stem[j] != '.'
    requires forall j | 0 <= j < |ext| :: ext[j] != '.'
    requires mimetype != PdfMimetype
    ensures IsPdf(mimetype, stem + "." + ext) <==> LowerAsciiString(ext) == "pdf"
  {
    var name := stem + "." + ext;
    ExtnameOfStem(stem, ext);
    var e := Extname(name);
    assert e == "." + ext;
    LowerAsciiAfterDot(ext);
    assert LowerAsciiString(e) == "." + LowerAsciiString(ext);
    DotPdf(LowerAsciiString(ext));
  }

  lemma LowerAsciiAfterDot(s: string)
    ensures LowerAsciiString("." + s) == "." + LowerAsciiString(s)
  {
    assert ("." + s)[1..] == s;
  }

  lemma DotPdf(a: string)
    ensures "." + a == PdfExtension <==> a == "pdf"
  {
    assert PdfExtension[1..] == "pdf";
    if "." + a == PdfExtension {
      assert a == ("." + a)[1..];
    }
  }

  /** A file whose whole name is `.pdf` has no extension, so only its
      mimetype can get it accepted. */
  lemma DotPdfNeedsMimetype(mimetype: string)
    ensures IsPdf(mimetype, ".pdf") <==> mimetype == PdfMimetype
  {
    DotfileHasNoExtname("pdf");
  }

  /** A generated filename has no slash, is not empty and keeps the original
      extension, so it names a file directly in the uploads directory and a
      PDF accepted by its name is still a PDF by its stored name. */
  lemma StoredFilenameKeepsExtension(originalname: string, now: nat, random: real)
    requires 0.0 <= random < 1.0
    ensures var name := StoredFilename(originalname, now, random);
      && |name| > 0 && NoSlash(name)
      && Extname(name) == Extname(originalname)
  {
    var stem := ShowNat(now) + "-" + ShowNat(RandomSuffix(random));
    var e := Extname(originalname);
    NumeralStem(ShowNat(now), ShowNat(RandomSuffix(random)));
    NoSlashAppend(stem, e);
    ExtnameAfterStem(stem, e);
  }

  /** Two numerals joined by a dash hold no dot and no slash. */
  lemma NumeralStem(a: string, c: string)
    requires AllDigits(a) && AllDigits(c)
    ensures var stem := a + "-" + c;
      NoSlash(stem) && forall j | 0 <= j < |stem| :: stem[j] != '.'
  {
    var stem := a + "-" + c;
    forall j | 0 <= j < |stem| ensures stem[j] != '.' && stem[j] != '/' {
      if j < |a| { assert stem[j] == a[j]; }
      else if j > |a| { assert stem[j] == c[j - |a| - 1]; }
    }
  }

  lemma NoSlashAppend(a: string, b: string)
    requires NoSlash(a) && NoSlash(b)
    ensures NoSlash(a + b)
  {
    forall i | 0 <= i < |a + b| ensures (a + b)[i] != '/' {
      if i < |a| { assert (a + b)[i] == a[i]; } else { assert (a + b)[i] == b[i - |a|]; }
    }
  }

  /** The chunks ingested from an uploaded file name it by its stored
      filename: what the worker hands to the ingestion is the stored path,
      whose basename is that filename. */
  lemma ChunksNameStoredFile(p: Part, uploadsDir: string, now: nat, random: real,
                             d: Ingest.SplitDoc, v: Ingest.Vector)
    requires 0.0 <= random < 1.0
    ensures var f := Store(p, uploadsDir, now, random);
      Ingest.RecordOf(f.path, d, v).sourceFile == f.filename
  {
    StoredFilenameKeepsExtension(p.originalname, now, random);
    BasenameOfJoin(uploadsDir, StoredFilename(p.originalname, now, random));
  }
}
