/** The `pdf-ingestion` job queue and its worker
    (server/src/queue/ingestionQueue.ts). Every job gets the queue's default
    options: three attempts, exponential backoff from one second, completed
    jobs removed, failed jobs kept. The single worker runs the handler on a
    waiting job; a throw is a failed attempt, which is retried after its
    backoff delay until the attempts are spent. Redis, the clock and BullMQ's
    scheduling are not modelled: the outcome of the awaited ingestion call is
    a parameter of each attempt, and the end of a backoff delay is an
    operation of its own. */
module IngestionQueue {
  import opened Common

  const QueueName := "pdf-ingestion"
  const MaxAttempts := 3
  const BackoffBaseMs := 1000
  const MissingFilePathMessage := "Job missing filePath"

  /** A job's `data`, as far as the handler reads it: `filePath`. */
  datatype JobData = JobData(filePath: JsField)

  /** The handler's return value `{ status, file }`. */
  datatype WorkerResult = WorkerResult(status: string, file: string)

  /** Where a job is. A completed job is removed from the queue and so has
      no state of its own; a failed one stays with the reason it failed. */
  datatype JobState = Waiting | Delayed(backoffMs: nat) | Failed(reason: Thrown)

  datatype Job = Job(id: nat, name: string, data: JobData, attemptsMade: nat, state: JobState)

  /** What the worker's `completed` and `failed` listeners are given: the
      job's id and, for a failure, the error whose message they log. */
  datatype WorkerEvent = CompletedEvent(jobId: nat) | FailedEvent(jobId: nat, error: Thrown)

  function Pow2(n: nat): (r: nat)
    ensures r >= 1
  {
    if n == 0 then 1 else 2 * Pow2(n - 1)
  }

  /** The `exponential` backoff: `2^(attemptsMade - 1) * delay`, where
      `attemptsMade` counts the attempt that just failed. */
  function BackoffDelay(attemptsMade: nat): (ms: nat)
    requires attemptsMade >= 1
    ensures ms >= BackoffBaseMs
  {
    BackoffBaseMs * Pow2(attemptsMade - 1)
  }

  /** `new Error('Job missing filePath')`. */
  function MissingFilePath(): Thrown {
    ErrorValue(MissingFilePathMessage, None, NoDetails)
  }

  // ---------------------------------------------------------- the handler

  /** What the handler settles to: a falsy or absent `filePath` throws before
      any ingestion; otherwise the ingestion's rejection is rethrown as it is,
      and its success gives `{ status: 'success', file: filePath }`. */
  function HandlerOutcome(data: JobData, ingested: Result<(), Thrown>): (r: Result<WorkerResult, Thrown>)
    ensures r.Ok? <==> data.filePath.Truthy? && ingested.Ok?
    ensures r.Ok? ==> r.value == WorkerResult("success", data.filePath.text)
    ensures !data.filePath.Truthy? ==> r == Err(MissingFilePath())
    ensures data.filePath.Truthy? && ingested.Err? ==> r == Err(ingested.error)
  {
    if !data.filePath.Truthy? then Err(MissingFilePath())
    else match ingested
      case Err(e) => Err(e)
      case Ok(_) => Ok(WorkerResult("success", data.filePath.text))
  }

  /** The handler's statements: the payload check, then the awaited
      ingestion inside a `try` whose `catch` rethrows. */
  method Handle(data: JobData, ingested: Result<(), Thrown>) returns (r: Result<WorkerResult, Thrown>)
    ensures r == HandlerOutcome(data, ingested)
  {
    var filePath := data.filePath;
    if !filePath.Truthy? {
      return Err(MissingFilePath());
    }
    if ingested.Err? {
      var error := ingested.error;
      return Err(error);
    }
    r := Ok(WorkerResult("success", filePath.text));
  }

  // ---------------------------------------------------------- one attempt

  /** A job the queue's options allow: at most three attempts made; failed
      exactly when all three have failed; a backoff whose length belongs to
      the attempt that failed last. */
  predicate JobValid(j: Job) {
    && j.attemptsMade <= MaxAttempts
    && (j.state.Failed? <==> j.attemptsMade == MaxAttempts)
    && (j.state.Delayed? ==> j.attemptsMade >= 1 && j.state.backoffMs == BackoffDelay(j.attemptsMade))
  }

  /** The queue's part in one attempt, given what the handler settled to:
      the job that remains and the event the worker emits. With
      `removeOnComplete: true` a completed job is gone; with
      `removeOnFail: false` a job that failed its last attempt stays. */
  function AfterAttempt(j: Job, outcome: Result<WorkerResult, Thrown>): (r: (Option<Job>, WorkerEvent))
    ensures r.1.jobId == j.id
    ensures outcome.Ok? <==> r.1.CompletedEvent?
    ensures outcome.Ok? ==> r.0.None?
    ensures outcome.Err? ==> r.0.Some? && r.0.value.id == j.id && r.0.value.data == j.data
                             && r.0.value.attemptsMade == j.attemptsMade + 1
                             && r.1 == FailedEvent(j.id, outcome.error)
  {
    var made := j.attemptsMade + 1;
    match outcome
    case Ok(_) =>
      (None, CompletedEvent(j.id))
    case Err(e) =>
      var left :=
        if made < MaxAttempts then Some(j.(attemptsMade := made, state := Delayed(BackoffDelay(made))))
        else Some(j.(attemptsMade := made, state := Failed(e)));
      (left, FailedEvent(j.id, e))
  }

  /** One attempt of the worker on a job: the handler, then the queue. */
  function Attempt(j: Job, ingested: Result<(), Thrown>): (Option<Job>, WorkerEvent) {
    AfterAttempt(j, HandlerOutcome(j.data, ingested))
  }

  /** The end of a backoff delay puts the job back among the waiting ones. */
  function Promote(j: Job): (r: Job)
    ensures r.id == j.id && r.data == j.data && r.attemptsMade == j.attemptsMade
    ensures j.state.Delayed? ==> r.state == Waiting
    ensures !j.state.Delayed? ==> r == j
  {
    if j.state.Delayed? then j.(state := Waiting) else j
  }

  // ---------------------------------------------------------- the queue

  /** The queue in Redis and the worker's listeners: the jobs in the order
      they were added, the id the next job gets, and the events emitted. */
  class JobQueue {
    var jobs: seq<Job>
    var nextId: nat
    var events: seq<WorkerEvent>

    /** Ids are assigned in increasing order, every job is one the options
        allow, and every event is about a job that was added. */
    predicate Valid()
      reads this
    {
      && nextId >= 1
      && (forall k | 0 <= k < |jobs| :: JobValid(jobs[k]) && 1 <= jobs[k].id < nextId)
      && (forall k, l | 0 <= k < l < |jobs| :: jobs[k].id < jobs[l].id)
      && (forall k | 0 <= k < |events| :: 1 <= events[k].jobId < nextId)
    }

    constructor()
      ensures Valid() && jobs == [] && events == [] && nextId == 1
    {
      jobs, nextId, events := [], 1, [];
    }

    /** `ingestionQueue.add(name, data)`: a new waiting job with no attempt
        made, at the back of the queue, under a fresh id. */
    method Add(name: string, data: JobData) returns (id: nat)
      requires Valid()
      modifies this
      ensures Valid()
      ensures id == old(nextId) && nextId == id + 1
      ensures jobs == old(jobs) + [Job(id, name, data, 0, Waiting)] && events == old(events)
      ensures forall k | 0 <= k < |old(jobs)| :: old(jobs)[k].id != id
    {
      id := nextId;
      jobs := jobs + [Job(id, name, data, 0, Waiting)];
      nextId := nextId + 1;
    }

    /** The worker claims the waiting job at `i` and runs the handler on it,
        with `ingested` the outcome of the awaited ingestion. A completed job
        leaves the queue; a failed attempt leaves it delayed for its backoff,
        or failed and kept once it was the last attempt. */
    method Work(i: nat, ingested: Result<(), Thrown>) returns (result: Result<WorkerResult, Thrown>)
      requires Valid() && i < |jobs| && jobs[i].state.Waiting?
      modifies this
      ensures Valid() && nextId == old(nextId)
      ensures result == HandlerOutcome(old(jobs)[i].data, ingested)
      ensures var (next, event) := Attempt(old(jobs)[i], ingested);
        && events == old(events) + [event]
        && (next.None? ==> jobs == old(jobs)[..i] + old(jobs)[i + 1..])
        && (next.Some? ==> jobs == old(jobs)[i := next.value])
    {
      var job := jobs[i];
      StepKeepsValid(job, ingested);
      result := Handle(job.data, ingested);
      var next, event := AfterAttempt(job, result).0, AfterAttempt(job, result).1;
      if next.None? {
        RemovePreservesOrder(jobs, i);
        jobs := jobs[..i] + jobs[i + 1..];
      } else {
        jobs := jobs[i := next.value];
      }
      events := events + [event];
    }

    /** The backoff of the job at `i` has elapsed. */
    method Release(i: nat)
      requires Valid() && i < |jobs|
      modifies this
      ensures Valid() && nextId == old(nextId) && events == old(events)
      ensures jobs == old(jobs)[i := Promote(old(jobs)[i])]
    {
      jobs := jobs[i := Promote(jobs[i])];
    }
  }

  // ----------------------------------------------------------- properties

  /** Taking one job out keeps the ids of the others increasing. */
  lemma RemovePreservesOrder(js: seq<Job>, i: nat)
    requires i < |js| && forall k, l | 0 <= k < l < |js| :: js[k].id < js[l].id
    ensures var r := js[..i] + js[i + 1..];
      && (forall k | 0 <= k < |r| :: r[k] in js)
      && (forall k, l | 0 <= k < l < |r| :: r[k].id < r[l].id)
  {
    var r := js[..i] + js[i + 1..];
    forall k | 0 <= k < |r| ensures r[k] == js[if k < i then k else k + 1] { }
  }

  /** An attempt on a waiting job keeps it one the options allow, and only a
      waiting job can be attempted: a job with all three attempts made is
      failed, never waiting, so a fourth attempt cannot start. */
  lemma StepKeepsValid(j: Job, ingested: Result<(), Thrown>)
    requires JobValid(j) && j.state.Waiting?
    ensures j.attemptsMade < MaxAttempts
    ensures var next := Attempt(j, ingested).0; next.Some? ==> JobValid(next.value)
  {
  }

  /** Each backoff doubles the one before, from one second. */
  lemma BackoffDoubles(n: nat)
    requires n >= 1
    ensures BackoffDelay(1) == BackoffBaseMs
    ensures BackoffDelay(n + 1) == 2 * BackoffDelay(n)
  {
  }

  /** The fate of one job whose attempts meet the given ingestion outcomes
      in turn, each backoff elapsing before the next attempt: the attempts
      made, the backoff delays waited, the events emitted and the job as it
      is left (none once completed). Outcomes beyond the last attempt are
      never used. */
  datatype Fate = Fate(attempts: nat, delays: seq<nat>, events: seq<WorkerEvent>, left: Option<Job>)

  function Run(j: Job, outcomes: seq<Result<(), Thrown>>): Fate
    decreases |outcomes|
  {
    if |outcomes| == 0 || !j.state.Waiting? then Fate(0, [], [], Some(j))
    else
      var (next, event) := Attempt(j, outcomes[0]);
      match next
      case None => Fate(1, [], [event], None)
      case Some(k) =>
        if k.state.Delayed? then
          var rest := Run(Promote(k), outcomes[1..]);
          Fate(1 + rest.attempts, [k.state.backoffMs] + rest.delays, [event] + rest.events, rest.left)
        else Fate(1, [], [event], Some(k))
  }

  /** Whatever the outcomes, a job gets no more attempts than the options
      leave it, and every event it causes names it. */
  lemma {:induction false} RetryBound(j: Job, outcomes: seq<Result<(), Thrown>>)
    requires JobValid(j)
    ensures var f := Run(j, outcomes);
      && f.attempts + j.attemptsMade <= MaxAttempts
      && |f.events| == f.attempts
      && (forall k | 0 <= k < |f.events| :: f.events[k].jobId == j.id)
      && (f.left.Some? ==> JobValid(f.left.value) && f.left.value.id == j.id)
    decreases |outcomes|
  {
    if |outcomes| > 0 && j.state.Waiting? {
      StepKeepsValid(j, outcomes[0]);
      var (next, event) := Attempt(j, outcomes[0]);
      if next.Some? && next.value.state.Delayed? {
        RetryBound(Promote(next.value), outcomes[1..]);
      }
    }
  }

  /** A fresh job whose handler throws on every attempt is attempted exactly
      three times, waits one then two seconds between attempts, emits three
      `failed` events, and is left failed, with the third error, and kept. */
  lemma AlwaysThrowingFails(j: Job, outcomes: seq<Result<(), Thrown>>)
    requires j.attemptsMade == 0 && j.state.Waiting? && |outcomes| >= MaxAttempts
    requires forall k | 0 <= k < |outcomes| :: HandlerOutcome(j.data, outcomes[k]).Err?
    ensures var f := Run(j, outcomes);
      var e := HandlerOutcome(j.data, outcomes[2]).error;
      && f.attempts == MaxAttempts
      && f.delays == [BackoffBaseMs, 2 * BackoffBaseMs]
      && f.events == [FailedEvent(j.id, HandlerOutcome(j.data, outcomes[0]).error),
                      FailedEvent(j.id, HandlerOutcome(j.data, outcomes[1]).error),
                      FailedEvent(j.id, e)]
      && f.left == Some(j.(attemptsMade := MaxAttempts, state := Failed(e)))
  {
    var j1 := j.(attemptsMade := 1, state := Waiting);
    var j2 := j.(attemptsMade := 2, state := Waiting);
    assert outcomes[1..][1..][0] == outcomes[2];
    assert Run(j2, outcomes[1..][1..]) == Fate(1, [], [FailedEvent(j.id, HandlerOutcome(j.data, outcomes[2]).error)],
                                               Some(j.(attemptsMade := MaxAttempts, state := Failed(HandlerOutcome(j.data, outcomes[2]).error))));
    assert outcomes[1..][0] == outcomes[1];
    assert Run(j1, outcomes[1..]).attempts == 2;
  }

  /** A job whose handler settles on its first attempt leaves the queue at
      once with a `completed` event and a `success` result. */
  lemma CompletedIsRemoved(j: Job, outcomes: seq<Result<(), Thrown>>)
    requires j.state.Waiting? && |outcomes| > 0
    requires HandlerOutcome(j.data, outcomes[0]).Ok?
    ensures Run(j, outcomes) == Fate(1, [], [CompletedEvent(j.id)], None)
    ensures j.data.filePath.Truthy? && HandlerOutcome(j.data, outcomes[0]).value.status == "success"
  {
  }

  /** A job without a `filePath` fails every attempt with `Job missing
      filePath`, whatever the ingestion would have done. */
  lemma MissingPathAlwaysFails(j: Job, ingested: Result<(), Thrown>)
    requires !j.data.filePath.Truthy?
    ensures Attempt(j, ingested).1 == FailedEvent(j.id, MissingFilePath())
  {
  }

  /** The ingestion the handler means to await logs its errors and resolves
      in every case (ai-engine/src/ingest.ts), so when the called function is
      that one, every job with a `filePath` completes on its first attempt
      and no retry ever happens, even when the run logged an error. */
  lemma SwallowedErrorsNeverRetry(j: Job)
    requires j.state.Waiting? && j.data.filePath.Truthy?
    ensures Attempt(j, Ok(())) == (None, CompletedEvent(j.id))
    ensures Run(j, [Ok(())]).attempts == 1
  {
  }
}
