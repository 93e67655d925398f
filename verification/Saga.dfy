/** The ingestion saga as a transition system: API requests and workers that share a database.

    A step is what one committed transaction, one read, one exception or one crash does. The
    transactions of the documents module read a row, check it and write it at commit without a
    version check, under the database's default READ COMMITTED isolation, so their read and their
    commit are separate steps and any other step can come between. */
module Saga {
  import opened Documents
  import opened Jobs
  import opened Text

  // ---- State ----

  type Embedding = seq<real>

  /** The chunker and the embedding model. */
  datatype Env = Env(pieces: string -> seq<string>, embed: string -> Embedding)

  datatype DocRow = DocRow(tenant: int, collection: int, hash: ContentHash, status: DocumentStatus, version: int)

  datatype ContentRow = ContentRow(tenant: int, text: string)

  datatype ChunkRow = ChunkRow(document: int, tenant: int, collection: int, version: int,
                               ordinal: nat, text: string, embedding: Embedding)

  /** Where a worker is inside `_process` with the first job of its batch. */
  datatype Point =
    | AtStart                  // `handle` has not read anything
    | IngestingChecked         // mark_ingesting has read the document and allowed the transition
    | Marked                   // mark_ingesting has committed
    | Extracted(text: string)  // the content has been read
    | Written                  // the chunks have been committed
    | IndexedChecked           // mark_indexed has read the document and allowed the transition
    | Finished                 // mark_indexed has committed
    | Raised                   // an exception has reached `_process`
    | Buried                   // `fail` has moved the job to the dead letters
    | FailedChecked            // mark_failed has read the document and allowed the transition

  datatype Worker =
    | Idle
    | Claiming(rows: seq<IngestionJob>, readAt: int)  // rows locked by `dequeue`, not committed yet
    | Working(batch: seq<IngestionJob>, point: Point)

  datatype Request =
    | Uploading(document: int, tenant: int, collection: int, version: int, text: string)  // digest checked
    | Uploaded(document: int, tenant: int, collection: int, version: int)                 // content committed
    | Deleting(document: int)                                                              // row read

  datatype State = State(
    docs: map<int, DocRow>,
    content: map<int, ContentRow>,
    jobs: Table,
    chunks: map<int, seq<ChunkRow>>,  // the chunks of a document in the order of their ordinals
    workers: map<int, Worker>,
    requests: map<int, Request>,
    clock: int,
    claims: map<JobKey, nat>)         // history: how often each job has been claimed

  const INITIAL := State(map[], map[], map[], map[], map[], map[], 0, map[])

  // ---- What the steps compute ----

  function Found(s: State, tenant: int, document: int): bool {
    document in s.docs && s.docs[document].tenant == tenant && s.docs[document].status != Deleted
  }

  /** The read half of `DocumentLifecycleService._transition` succeeds. */
  predicate MayMark(s: State, job: IngestionJob, target: DocumentStatus) {
    Found(s, job.tenant, job.key.document) && Allowed(s.docs[job.key.document].status, target)
  }

  function ChunkSet(env: Env, document: int, tenant: int, collection: int, version: int, text: string): seq<ChunkRow> {
    var pieces := env.pieces(text);
    seq(|pieces|, i requires 0 <= i < |pieces| =>
      ChunkRow(document, tenant, collection, version, i, pieces[i], env.embed(pieces[i])))
  }

  /** `Chunk.create` accepts every piece. */
  predicate Accepted(env: Env, text: string) {
    forall i :: 0 <= i < |env.pieces(text)| ==> !Blank(env.pieces(text)[i])
  }

  function WithStatus(s: State, document: int, status: DocumentStatus): State
    requires document in s.docs
  {
    s.(docs := s.docs[document := s.docs[document].(status := status)])
  }

  function WithWorker(s: State, w: int, worker: Worker): State {
    s.(workers := s.workers[w := worker])
  }

  /** The worker goes on to the next job of its batch. */
  function NextJob(batch: seq<IngestionJob>): Worker {
    if |batch| <= 1 then Idle else Working(batch[1..], AtStart)
  }

  function LockedKeys(s: State): set<JobKey> {
    set w, i | w in s.workers && s.workers[w].Claiming? && 0 <= i < |s.workers[w].rows| :: s.workers[w].rows[i].key
  }

  function Bumped(claims: map<JobKey, nat>, keys: set<JobKey>): map<JobKey, nat> {
    map k | k in claims :: if k in keys then claims[k] + 1 else claims[k]
  }

  // ---- Steps ----

  datatype Step =
    // API
    | Register(document: int, tenant: int, collection: int, hash: ContentHash)
    | CheckUpload(request: int, document: int, tenant: int, text: string)
    | StoreContent(request: int)
    | Enqueue(request: int, maxAttempts: int)
    | CheckDelete(request: int, document: int, tenant: int)
    | CommitDelete(request: int)
    | LoseRequest(request: int)
    // workers
    | StartWorker(w: int)
    | SelectRows(w: int, limit: nat, rows: seq<IngestionJob>)
    | CommitClaim(w: int)
    | CheckIngesting(w: int)
    | CommitIngesting(w: int)
    | Extract(w: int)
    | Index(w: int)
    | CheckIndexed(w: int)
    | CommitIndexed(w: int)
    | Complete(w: int)
    | Raise(w: int)
    | Fail(w: int, error: string)
    | CheckFailed(w: int)
    | CommitFailed(w: int)
    | SwallowFailure(w: int)
    | Crash(w: int)
    // time
    | Tick(now: int)

  predicate WorkingAt(s: State, w: int, point: Point) {
    w in s.workers && s.workers[w].Working? && s.workers[w].batch != [] && s.workers[w].point == point
  }

  /** The points of `handle` and `complete`, where an exception reaches `_process`. */
  predicate InHandle(point: Point) {
    !point.Raised? && !point.Buried? && !point.FailedChecked?
  }

  function Head(s: State, w: int): IngestionJob
    requires w in s.workers && s.workers[w].Working? && s.workers[w].batch != []
  {
    s.workers[w].batch[0]
  }

  function At(s: State, w: int, point: Point): State
    requires w in s.workers && s.workers[w].Working?
  {
    WithWorker(s, w, s.workers[w].(point := point))
  }

  predicate Enabled(s: State, step: Step) {
    match step
    case Register(d, tenant, _, hash) =>
      d !in s.docs && forall e :: e in s.docs ==> !(s.docs[e].tenant == tenant && s.docs[e].hash == hash)
    case CheckUpload(r, d, tenant, text) =>
      r !in s.requests && Found(s, tenant, d) && OfText(text) == s.docs[d].hash
    case StoreContent(r) => r in s.requests && s.requests[r].Uploading?
    case Enqueue(r, maxAttempts) => r in s.requests && s.requests[r].Uploaded? && maxAttempts >= 1
    case CheckDelete(r, d, tenant) => r !in s.requests && Found(s, tenant, d)
    case CommitDelete(r) => r in s.requests && s.requests[r].Deleting? && s.requests[r].document in s.docs
    case LoseRequest(r) => r in s.requests
    case StartWorker(w) => w !in s.workers
    case SelectRows(w, limit, rows) =>
      w in s.workers && s.workers[w].Idle? && IsSelection(s.jobs, LockedKeys(s), s.clock, limit, rows)
    case CommitClaim(w) =>
      w in s.workers && s.workers[w].Claiming?
      && forall i :: 0 <= i < |s.workers[w].rows| ==> s.workers[w].rows[i].key in s.jobs
    case CheckIngesting(w) => WorkingAt(s, w, AtStart)
    case CommitIngesting(w) => WorkingAt(s, w, IngestingChecked) && Head(s, w).key.document in s.docs
    case Extract(w) => WorkingAt(s, w, Marked)
    case Index(w) => w in s.workers && s.workers[w].Working? && s.workers[w].batch != [] && s.workers[w].point.Extracted?
    case CheckIndexed(w) => WorkingAt(s, w, Written)
    case CommitIndexed(w) => WorkingAt(s, w, IndexedChecked) && Head(s, w).key.document in s.docs
    case Complete(w) => WorkingAt(s, w, Finished)
    case Raise(w) => w in s.workers && s.workers[w].Working? && s.workers[w].batch != [] && InHandle(s.workers[w].point)
    case Fail(w, _) => WorkingAt(s, w, Raised)
    case CheckFailed(w) => WorkingAt(s, w, Buried)
    case CommitFailed(w) => WorkingAt(s, w, FailedChecked) && Head(s, w).key.document in s.docs
    case SwallowFailure(w) => WorkingAt(s, w, Buried) || WorkingAt(s, w, FailedChecked)
    case Crash(w) => w in s.workers
    case Tick(now) => now >= s.clock
  }

  function Apply(env: Env, s: State, step: Step): State
    requires Enabled(s, step)
  {
    match step
    case Register(d, tenant, collection, hash) =>
      s.(docs := s.docs[d := DocRow(tenant, collection, hash, Registered, 1)])
    case CheckUpload(r, d, tenant, text) =>
      s.(requests := s.requests[r := Uploading(d, tenant, s.docs[d].collection, s.docs[d].version, text)])
    case StoreContent(r) => AfterStore(s, r)
    case Enqueue(r, maxAttempts) => AfterEnqueue(s, r, maxAttempts)
    case CheckDelete(r, d, tenant) => s.(requests := s.requests[r := Deleting(d)])
    case CommitDelete(r) => WithStatus(s, s.requests[r].document, Deleted).(requests := s.requests - {r})
    case LoseRequest(r) => s.(requests := s.requests - {r})
    case StartWorker(w) => WithWorker(s, w, Idle)
    case SelectRows(w, limit, rows) => WithWorker(s, w, Claiming(rows, s.clock))
    case CommitClaim(w) => AfterClaim(s, w)
    case CheckIngesting(w) => At(s, w, if MayMark(s, Head(s, w), Ingesting) then IngestingChecked else Raised)
    case CommitIngesting(w) => WithStatus(At(s, w, Marked), Head(s, w).key.document, Ingesting)
    case Extract(w) =>
      var job := Head(s, w);
      var d := job.key.document;
      At(s, w, if d in s.content && s.content[d].tenant == job.tenant then Extracted(s.content[d].text) else Raised)
    case Index(w) => AfterIndex(env, s, w)
    case CheckIndexed(w) => At(s, w, if MayMark(s, Head(s, w), Indexed) then IndexedChecked else Raised)
    case CommitIndexed(w) => WithStatus(At(s, w, Finished), Head(s, w).key.document, Indexed)
    case Complete(w) => AfterComplete(s, w)
    case Raise(w) => At(s, w, Raised)
    case Fail(w, error) => AfterFail(s, w, error)
    case CheckFailed(w) =>
      var batch := s.workers[w].batch;
      WithWorker(s, w, if MayMark(s, Head(s, w), Failed) then Working(batch, FailedChecked) else NextJob(batch))
    case CommitFailed(w) =>
      WithStatus(WithWorker(s, w, NextJob(s.workers[w].batch)), Head(s, w).key.document, Failed)
    case SwallowFailure(w) => WithWorker(s, w, NextJob(s.workers[w].batch))
    case Crash(w) => s.(workers := s.workers - {w})
    case Tick(now) => s.(clock := now)
  }

  /** The content upsert keeps the tenant of an existing row. */
  function AfterStore(s: State, r: int): State
    requires r in s.requests && s.requests[r].Uploading?
  {
    var Uploading(d, tenant, collection, version, text) := s.requests[r];
    var row := if d in s.content then s.content[d].(text := text) else ContentRow(tenant, text);
    s.(content := s.content[d := row], requests := s.requests[r := Uploaded(d, tenant, collection, version)])
  }

  function AfterEnqueue(s: State, r: int, maxAttempts: int): State
    requires r in s.requests && s.requests[r].Uploaded?
  {
    var Uploaded(d, tenant, collection, version) := s.requests[r];
    var key := JobKey(d, version);
    s.(jobs := WithEnqueued(s.jobs, key, tenant, collection, maxAttempts, s.clock),
       claims := if key in s.jobs then s.claims else s.claims[key := 0],
       requests := s.requests - {r})
  }

  function AfterClaim(s: State, w: int): State
    requires Enabled(s, CommitClaim(w))
  {
    var Claiming(rows, readAt) := s.workers[w];
    WithWorker(s, w, if rows == [] then Idle else Working(rows, AtStart))
      .(jobs := WithClaimed(s.jobs, rows, w, readAt), claims := Bumped(s.claims, Keys(rows)))
  }

  function AfterIndex(env: Env, s: State, w: int): State
    requires Enabled(s, Index(w))
  {
    var job, text := Head(s, w), s.workers[w].point.text;
    var d := job.key.document;
    if Accepted(env, text) then
      At(s, w, Written).(chunks := s.chunks[d := ChunkSet(env, d, job.tenant, job.collection, job.key.version, text)])
    else
      At(s, w, Raised)
  }

  function AfterComplete(s: State, w: int): State
    requires Enabled(s, Complete(w))
  {
    WithWorker(s, w, NextJob(s.workers[w].batch)).(jobs := WithCompleted(s.jobs, Head(s, w).key, s.clock))
  }

  function AfterFail(s: State, w: int, error: string): State
    requires Enabled(s, Fail(w, error))
  {
    var job := Head(s, w);
    var batch := s.workers[w].batch;
    WithWorker(s, w, if DeadLetters(job) then Working(batch, Buried) else NextJob(batch))
      .(jobs := WithFailed(s.jobs, job, error, s.clock))
  }

  /** States and steps of a run from the empty database. */
  predicate IsRun(env: Env, states: seq<State>, steps: seq<Step>) {
    && |states| == |steps| + 1
    && states[0] == INITIAL
    && forall i :: 0 <= i < |steps| ==> Enabled(states[i], steps[i]) && states[i + 1] == Apply(env, states[i], steps[i])
  }
}
