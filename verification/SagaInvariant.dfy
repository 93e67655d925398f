/** The inductive invariant of the saga, kept by every step. */
module SagaInvariant {
  import opened Documents
  import opened Jobs
  import opened Saga

  // ---- The invariant ----

  function Key(document: int): JobKey {
    JobKey(document, 1)
  }

  /** The chunks of a document are exactly the split of its stored content. */
  ghost predicate FullAt(env: Env, s: State, d: int) {
    && d in s.docs && d in s.content && d in s.chunks
    && s.chunks[d] == ChunkSet(env, d, s.docs[d].tenant, s.docs[d].collection, 1, s.content[d].text)
  }

  ghost predicate ContentOk(s: State, d: int) {
    d in s.content ==> d in s.docs && s.content[d].tenant == s.docs[d].tenant && OfText(s.content[d].text) == s.docs[d].hash
  }

  ghost predicate DocOk(env: Env, s: State, d: int)
    requires d in s.docs
  {
    var status := s.docs[d].status;
    && s.docs[d].version == 1
    && ContentOk(s, d)
    && (d in s.chunks ==> FullAt(env, s, d))
    && (status == Indexed ==> d in s.chunks)
    && (status in {Ingesting, Indexed, Failed} ==> Key(d) in s.jobs)
    && (status == Failed ==> s.jobs[Key(d)].status == DeadLetter)
  }

  /** Claims, attempts and the retry limit agree. */
  ghost predicate LedgerOk(row: JobRow, claims: nat) {
    && 0 <= row.attempts && 1 <= row.maxAttempts
    && (if row.status == DeadLetter then row.attempts == row.maxAttempts else row.attempts < row.maxAttempts)
    && claims == row.attempts + (if row.status in {Processing, Completed} then 1 else 0)
  }

  /** No attempt was made before the failures so far had been waited for. */
  ghost predicate TimesOk(row: JobRow, clock: int)
    requires row.attempts >= 0
  {
    if row.status == DeadLetter then
      row.attempts >= 1 && row.updatedAt >= row.createdAt + SECOND * TotalBackoff(row.attempts - 1)
    else
      && row.availableAt >= row.createdAt + SECOND * TotalBackoff(row.attempts)
      && (row.status != Pending ==> row.availableAt <= clock)
  }

  ghost predicate JobOk(s: State, k: JobKey)
    requires k in s.jobs
  {
    var row, d := s.jobs[k], k.document;
    && k.version == 1
    && d in s.docs && d in s.content
    && row.tenant == s.docs[d].tenant && row.collection == s.docs[d].collection
    && k in s.claims && LedgerOk(row, s.claims[k]) && TimesOk(row, s.clock)
    && (row.status == Completed ==> d in s.chunks && s.docs[d].status in {Indexed, Deleted})
  }

  /** A snapshot agrees with its row. */
  ghost predicate Faithful(s: State, job: IngestionJob) {
    job.key in s.jobs && job == Snapshot(s.jobs, job.key)
  }

  ghost predicate Locked(s: State, job: IngestionJob, readAt: int) {
    Faithful(s, job) && s.jobs[job.key].status == Pending && s.jobs[job.key].availableAt <= readAt
  }

  ghost predicate Held(s: State, job: IngestionJob) {
    Faithful(s, job) && s.jobs[job.key].status == Processing
  }

  /** What is known of the document while its job is at a point of `_process`. */
  ghost predicate PointOk(s: State, d: int, point: Point)
    requires d in s.docs
  {
    var status := s.docs[d].status;
    match point
    case AtStart => true
    case IngestingChecked => true
    case Marked => status in {Ingesting, Deleted}
    case Extracted(text) => status in {Ingesting, Deleted} && d in s.content && text == s.content[d].text
    case Written => status in {Ingesting, Deleted} && d in s.chunks
    case IndexedChecked => status in {Ingesting, Deleted} && d in s.chunks
    case Finished => status in {Indexed, Deleted} && d in s.chunks
    case Raised => true
    case Buried => true
    case FailedChecked => true
  }

  ghost predicate HeadOk(s: State, job: IngestionJob, point: Point) {
    && (if point.Buried? || point.FailedChecked? then job.key in s.jobs && s.jobs[job.key].status == DeadLetter && s.jobs[job.key].tenant == job.tenant
        else Held(s, job))
    && job.key.document in s.docs
    && PointOk(s, job.key.document, point)
  }

  ghost predicate WorkerOk(s: State, worker: Worker) {
    match worker
    case Idle => true
    case Claiming(rows, readAt) =>
      DistinctKeys(rows) && readAt <= s.clock && forall i :: 0 <= i < |rows| ==> Locked(s, rows[i], readAt)
    case Working(batch, point) =>
      batch != [] && DistinctKeys(batch) && HeadOk(s, batch[0], point)
      && forall i :: 1 <= i < |batch| ==> Held(s, batch[i])
  }

  ghost predicate RequestOk(s: State, request: Request) {
    var d := request.document;
    && d in s.docs
    && (match request
        case Uploading(_, tenant, collection, version, text) =>
          tenant == s.docs[d].tenant && collection == s.docs[d].collection && version == 1 && OfText(text) == s.docs[d].hash
        case Uploaded(_, tenant, collection, version) =>
          tenant == s.docs[d].tenant && collection == s.docs[d].collection && version == 1 && d in s.content
        case Deleting(_) => true)
  }

  /** The jobs a worker has locked, is processing or has just buried. */
  function Claims(worker: Worker): set<JobKey> {
    match worker
    case Idle => {}
    case Claiming(rows, _) => Keys(rows)
    case Working(batch, _) => Keys(batch)
  }

  ghost predicate Apart(s: State, w1: int, w2: int)
    requires w1 in s.workers && w2 in s.workers
  {
    w1 != w2 ==> Claims(s.workers[w1]) !! Claims(s.workers[w2])
  }

  ghost predicate DocsOk(env: Env, s: State) { forall d :: d in s.docs ==> DocOk(env, s, d) }
  ghost predicate ContentsOk(s: State) { forall d :: d in s.content ==> ContentOk(s, d) }
  ghost predicate ChunksOk(s: State) { forall d :: d in s.chunks ==> d in s.docs }
  ghost predicate JobsOk(s: State) { forall k :: k in s.jobs ==> JobOk(s, k) }
  ghost predicate WorkersOk(s: State) { forall w :: w in s.workers ==> WorkerOk(s, s.workers[w]) }
  ghost predicate RequestsOk(s: State) { forall r :: r in s.requests ==> RequestOk(s, s.requests[r]) }
  ghost predicate Exclusive(s: State) { forall w1, w2 :: w1 in s.workers && w2 in s.workers ==> Apart(s, w1, w2) }
  ghost predicate HashesUnique(s: State) {
    forall d, e :: d in s.docs && e in s.docs && d != e ==> !(s.docs[d].tenant == s.docs[e].tenant && s.docs[d].hash == s.docs[e].hash)
  }

  ghost predicate Inv(env: Env, s: State) {
    && DocsOk(env, s) && ContentsOk(s) && ChunksOk(s) && JobsOk(s) && WorkersOk(s) && RequestsOk(s)
    && Exclusive(s) && HashesUnique(s)
  }

  // ---- Frames: what one document's steps leave alone ----

  /** The row of a document is unchanged apart from its status. */
  ghost predicate SameIdentity(s: State, t: State, d: int) {
    d in s.docs ==> d in t.docs && t.docs[d] == s.docs[d].(status := t.docs[d].status)
  }

  /** Nothing about a document has changed, except that it may have been deleted. */
  ghost predicate Untouched(s: State, t: State, d: int) {
    && (d in s.docs <==> d in t.docs)
    && (d in s.docs ==> t.docs[d] == s.docs[d] || t.docs[d] == s.docs[d].(status := Deleted))
    && (d in s.content ==> d in t.content && t.content[d] == s.content[d])
    && (d in s.chunks <==> d in t.chunks)
    && (d in s.chunks ==> t.chunks[d] == s.chunks[d])
    && (Key(d) in s.jobs ==> Key(d) in t.jobs && t.jobs[Key(d)] == s.jobs[Key(d)])
    && (Key(d) in s.claims ==> Key(d) in t.claims && t.claims[Key(d)] == s.claims[Key(d)])
  }

  lemma {:induction false} DocFrame(env: Env, s: State, t: State, d: int)
    requires d in s.docs && DocOk(env, s, d) && Untouched(s, t, d)
    requires d in t.content ==> d in s.content
    ensures d in t.docs && DocOk(env, t, d)
  {
  }

  lemma {:induction false} JobFrame(s: State, t: State, k: JobKey)
    requires k in s.jobs && JobOk(s, k) && Untouched(s, t, k.document) && s.clock <= t.clock
    ensures k in t.jobs && JobOk(t, k)
  {
    assert k == Key(k.document);
  }

  lemma {:induction false} HeldFrame(s: State, t: State, job: IngestionJob)
    requires Held(s, job) && job.key.version == 1 && Untouched(s, t, job.key.document)
    ensures Held(t, job)
  {
    assert job.key == Key(job.key.document);
  }

  lemma {:induction false} LockedFrame(s: State, t: State, job: IngestionJob, readAt: int)
    requires Locked(s, job, readAt) && job.key.version == 1 && Untouched(s, t, job.key.document)
    ensures Locked(t, job, readAt)
  {
    assert job.key == Key(job.key.document);
  }

  lemma {:induction false} HeadFrame(s: State, t: State, job: IngestionJob, point: Point)
    requires HeadOk(s, job, point) && job.key.version == 1 && Untouched(s, t, job.key.document)
    ensures HeadOk(t, job, point)
  {
    assert job.key == Key(job.key.document);
  }

  /** The documents a worker depends on have not been touched. */
  ghost predicate ClaimsUntouched(s: State, t: State, worker: Worker) {
    forall k :: k in Claims(worker) ==> k.version == 1 && Untouched(s, t, k.document)
  }

  lemma {:induction false} WorkerFrame(s: State, t: State, worker: Worker)
    requires WorkerOk(s, worker) && ClaimsUntouched(s, t, worker) && s.clock <= t.clock
    ensures WorkerOk(t, worker)
  {
    match worker
    case Idle =>
    case Claiming(rows, readAt) =>
      forall i | 0 <= i < |rows| ensures Locked(t, rows[i], readAt) {
        assert rows[i].key in Claims(worker);
        LockedFrame(s, t, rows[i], readAt);
      }
    case Working(batch, point) =>
      assert batch[0].key in Claims(worker);
      HeadFrame(s, t, batch[0], point);
      forall i | 1 <= i < |batch| ensures Held(t, batch[i]) {
        assert batch[i].key in Claims(worker);
        HeldFrame(s, t, batch[i]);
      }
  }

  /** Every claimed key is the key of a job, so its version is 1. */
  lemma {:induction false} ClaimedVersion(env: Env, s: State, w: int, k: JobKey)
    requires Inv(env, s) && w in s.workers && k in Claims(s.workers[w])
    ensures k in s.jobs && k == Key(k.document)
  {
    var worker := s.workers[w];
    assert WorkerOk(s, worker);
    match worker {
      case Claiming(rows, readAt) =>
        var i :| 0 <= i < |rows| && rows[i].key == k;
        assert Locked(s, rows[i], readAt);
      case Working(batch, point) =>
        var i :| 0 <= i < |batch| && batch[i].key == k;
        assert i > 0 ==> Held(s, batch[i]);
    }
    assert JobOk(s, k);
  }

  /** A step of one worker, or of none when `w` is not a worker, that touches one document. */
  ghost predicate Local(s: State, t: State, w: int, d: int) {
    && s.clock == t.clock && t.requests == s.requests && t.content == s.content
    && t.docs.Keys == s.docs.Keys && SameIdentity(s, t, d)
    && t.jobs.Keys == s.jobs.Keys && t.claims == s.claims
    && (forall e :: e != d ==> Untouched(s, t, e))
    && (forall k :: k in s.jobs && k.document != d ==> t.jobs[k] == s.jobs[k])
    && (forall x :: x in t.workers && x != w ==> x in s.workers && t.workers[x] == s.workers[x])
  }

  /** A worker keeps at most the claims it had. */
  ghost predicate NarrowerClaims(s: State, t: State, w: int) {
    w in t.workers ==> w in s.workers && Claims(t.workers[w]) <= Claims(s.workers[w])
  }

  lemma {:induction false} OthersUntouched(env: Env, s: State, t: State, w: int, d: int, x: int)
    requires Inv(env, s) && Local(s, t, w, d) && x in s.workers && w in s.workers && x != w
    requires Key(d) in Claims(s.workers[w])
    ensures ClaimsUntouched(s, t, s.workers[x])
  {
    assert Apart(s, w, x);
    forall k | k in Claims(s.workers[x]) ensures k.version == 1 && Untouched(s, t, k.document) {
      ClaimedVersion(env, s, x, k);
    }
  }

  lemma {:induction false} ExclusiveFrame(s: State, t: State, w: int)
    requires Exclusive(s) && NarrowerClaims(s, t, w)
    requires forall x :: x in t.workers && x != w ==> x in s.workers && t.workers[x] == s.workers[x]
    ensures Exclusive(t)
  {
    forall w1, w2 | w1 in t.workers && w2 in t.workers ensures Apart(t, w1, w2) {
      assert Apart(s, w1, w2);
    }
  }

  lemma {:induction false} RequestsFrame(s: State, t: State)
    requires RequestsOk(s) && t.requests == s.requests && t.content == s.content
    requires forall d :: d in s.docs ==> SameIdentity(s, t, d)
    ensures RequestsOk(t)
  {
    forall r | r in t.requests ensures RequestOk(t, t.requests[r]) {
      assert RequestOk(s, s.requests[r]);
      assert SameIdentity(s, t, s.requests[r].document);
    }
  }

  lemma {:induction false} HashesFrame(s: State, t: State)
    requires HashesUnique(s) && t.docs.Keys == s.docs.Keys
    requires forall d :: d in s.docs ==> SameIdentity(s, t, d)
    ensures HashesUnique(t)
  {
    forall d, e | d in t.docs && e in t.docs && d != e
      ensures !(t.docs[d].tenant == t.docs[e].tenant && t.docs[d].hash == t.docs[e].hash)
    {
      assert SameIdentity(s, t, d) && SameIdentity(s, t, e);
    }
  }

  lemma {:induction false} IdentitiesKept(s: State, t: State, w: int, d: int)
    requires Local(s, t, w, d)
    ensures forall e :: e in s.docs ==> SameIdentity(s, t, e)
  {
    forall e | e in s.docs ensures SameIdentity(s, t, e) {
      if e != d {
        assert Untouched(s, t, e);
      }
    }
  }

  /** A step that touches one document keeps the invariant if it keeps it for that document, its
      job and the worker that took the step. */
  lemma {:induction false} LocalKeepsInv(env: Env, s: State, t: State, w: int, d: int)
    requires Inv(env, s) && Local(s, t, w, d) && w in s.workers
    requires Key(d) in Claims(s.workers[w]) && d in s.docs
    requires DocOk(env, t, d) && JobOk(t, Key(d))
    requires w in t.workers ==> WorkerOk(t, t.workers[w])
    requires NarrowerClaims(s, t, w)
    ensures Inv(env, t)
  {
    IdentitiesKept(s, t, w, d);
    RequestsFrame(s, t);
    HashesFrame(s, t);
    ExclusiveFrame(s, t, w);
    LocalKeepsTables(env, s, t, w, d);
    forall x | x in t.workers ensures WorkerOk(t, t.workers[x]) {
      if x != w {
        OthersUntouched(env, s, t, w, d, x);
        WorkerFrame(s, t, s.workers[x]);
      }
    }
  }

  lemma {:induction false} LocalKeepsTables(env: Env, s: State, t: State, w: int, d: int)
    requires Inv(env, s) && Local(s, t, w, d) && d in s.docs
    requires DocOk(env, t, d) && Key(d) in t.jobs && JobOk(t, Key(d))
    ensures DocsOk(env, t) && ContentsOk(t) && ChunksOk(t) && JobsOk(t)
  {
    forall e | e in t.docs ensures DocOk(env, t, e) {
      if e != d {
        DocFrame(env, s, t, e);
      }
    }
    forall e | e in t.content ensures ContentOk(t, e) {
      assert ContentOk(s, e);
      assert e in t.docs && DocOk(env, t, e);
    }
    forall e | e in t.chunks ensures e in t.docs {
      assert e != d ==> Untouched(s, t, e);
    }
    forall k | k in t.jobs ensures JobOk(t, k) {
      assert JobOk(s, k);
      if k.document != d {
        JobFrame(s, t, k);
      } else {
        assert k == Key(d);
      }
    }
  }
}
