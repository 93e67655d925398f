/** Every step of the saga keeps the invariant. */
module SagaSteps {
  import opened Documents
  import opened Jobs
  import opened Saga
  import opened SagaInvariant

  // ---- Steps that change one worker and no table ----

  ghost predicate SameTables(s: State, t: State) {
    && t.docs == s.docs && t.content == s.content && t.jobs == s.jobs && t.chunks == s.chunks
    && t.requests == s.requests && t.clock == s.clock && t.claims == s.claims
  }

  lemma {:induction false} SameTablesKeep(env: Env, s: State, t: State)
    requires Inv(env, s) && SameTables(s, t)
    ensures DocsOk(env, t) && ContentsOk(t) && ChunksOk(t) && JobsOk(t) && RequestsOk(t) && HashesUnique(t)
  {
    forall d | d in t.docs ensures DocOk(env, t, d) {
      assert DocOk(env, s, d);
    }
    forall d | d in t.content ensures ContentOk(t, d) {
      assert ContentOk(s, d);
    }
    forall k | k in t.jobs ensures JobOk(t, k) {
      assert JobOk(s, k);
    }
    forall r | r in t.requests ensures RequestOk(t, t.requests[r]) {
      assert RequestOk(s, s.requests[r]);
    }
  }

  lemma {:induction false} SameTablesWorker(s: State, t: State, worker: Worker)
    requires SameTables(s, t) && WorkerOk(s, worker)
    ensures WorkerOk(t, worker)
  {
    match worker
    case Idle =>
    case Claiming(rows, readAt) =>
      forall i | 0 <= i < |rows| ensures Locked(t, rows[i], readAt) {
        assert Locked(s, rows[i], readAt);
      }
    case Working(batch, point) =>
      assert HeadOk(t, batch[0], point);
      forall i | 1 <= i < |batch| ensures Held(t, batch[i]) {
        assert Held(s, batch[i]);
      }
  }

  /** A worker that goes to another correct local state with no claims of anyone else. */
  lemma {:induction false} WorkerMoves(env: Env, s: State, t: State, w: int)
    requires Inv(env, s) && SameTables(s, t)
    requires forall x :: x in t.workers && x != w ==> x in s.workers && t.workers[x] == s.workers[x]
    requires w in t.workers ==> WorkerOk(s, t.workers[w])
    requires w in t.workers ==> forall x :: x in s.workers && x != w ==> Claims(t.workers[w]) !! Claims(s.workers[x])
    ensures Inv(env, t)
  {
    SameTablesKeep(env, s, t);
    forall x | x in t.workers ensures WorkerOk(t, t.workers[x]) {
      assert x != w ==> WorkerOk(s, s.workers[x]);
      SameTablesWorker(s, t, t.workers[x]);
    }
    forall w1, w2 | w1 in t.workers && w2 in t.workers ensures Apart(t, w1, w2) {
      if w1 != w && w2 != w {
        assert Apart(s, w1, w2);
      }
    }
  }

  /** The same for a worker that only gives claims up. */
  lemma {:induction false} WorkerNarrows(env: Env, s: State, w: int, worker: Worker)
    requires Inv(env, s) && w in s.workers && WorkerOk(s, worker)
    requires Claims(worker) <= Claims(s.workers[w])
    ensures Inv(env, WithWorker(s, w, worker))
  {
    forall x | x in s.workers && x != w ensures Claims(worker) !! Claims(s.workers[x]) {
      assert Apart(s, w, x);
    }
    WorkerMoves(env, s, WithWorker(s, w, worker), w);
  }

  lemma {:induction false} CrashKeeps(env: Env, s: State, w: int)
    requires Inv(env, s) && w in s.workers
    ensures Inv(env, s.(workers := s.workers - {w}))
  {
    WorkerMoves(env, s, s.(workers := s.workers - {w}), w);
  }

  lemma {:induction false} StartKeeps(env: Env, s: State, w: int)
    requires Inv(env, s) && w !in s.workers
    ensures Inv(env, WithWorker(s, w, Idle))
  {
    WorkerMoves(env, s, WithWorker(s, w, Idle), w);
  }

  /** Rows that are pending and unlocked are nobody's claim. */
  lemma {:induction false} SelectedIsFree(env: Env, s: State, k: JobKey, x: int)
    requires Inv(env, s) && x in s.workers && Eligible(s.jobs, LockedKeys(s), s.clock, k)
    ensures k !in Claims(s.workers[x])
  {
    var worker := s.workers[x];
    assert WorkerOk(s, worker);
    match worker
    case Idle =>
    case Claiming(rows, _) =>
      forall i | 0 <= i < |rows| ensures rows[i].key != k {
        assert rows[i].key in LockedKeys(s);
      }
    case Working(batch, _) =>
      forall i | 0 <= i < |batch| ensures batch[i].key != k {
        assert i > 0 ==> Held(s, batch[i]);
      }
  }

  lemma {:induction false} SelectKeeps(env: Env, s: State, w: int, limit: nat, rows: seq<IngestionJob>)
    requires Inv(env, s) && Enabled(s, SelectRows(w, limit, rows))
    ensures Inv(env, WithWorker(s, w, Claiming(rows, s.clock)))
  {
    var worker := Claiming(rows, s.clock);
    forall i | 0 <= i < |rows| ensures Locked(s, rows[i], s.clock) {
      assert Eligible(s.jobs, LockedKeys(s), s.clock, rows[i].key);
    }
    forall x | x in s.workers && x != w ensures Claims(worker) !! Claims(s.workers[x]) {
      forall k | k in Claims(worker) ensures k !in Claims(s.workers[x]) {
        var i :| 0 <= i < |rows| && rows[i].key == k;
        SelectedIsFree(env, s, k, x);
      }
    }
    WorkerMoves(env, s, WithWorker(s, w, worker), w);
  }

  lemma {:induction false} KeysOfTail(batch: seq<IngestionJob>)
    requires batch != []
    ensures Keys(batch[1..]) <= Keys(batch)
  {
    forall k | k in Keys(batch[1..]) ensures k in Keys(batch) {
      var i :| 0 <= i < |batch[1..]| && batch[1..][i].key == k;
      assert batch[i + 1].key == k;
    }
  }

  /** The rest of a batch is ready to be processed. */
  lemma {:induction false} NextJobOk(s: State, batch: seq<IngestionJob>)
    requires JobsOk(s) && batch != [] && DistinctKeys(batch)
    requires forall i :: 1 <= i < |batch| ==> Held(s, batch[i])
    ensures WorkerOk(s, NextJob(batch)) && Claims(NextJob(batch)) <= Keys(batch)
  {
    KeysOfTail(batch);
    if |batch| > 1 {
      assert Held(s, batch[1]);
      assert JobOk(s, batch[1].key);
    }
  }

  lemma {:induction false} SkipKeeps(env: Env, s: State, w: int)
    requires Inv(env, s) && w in s.workers && s.workers[w].Working?
    ensures Inv(env, WithWorker(s, w, NextJob(s.workers[w].batch)))
  {
    assert WorkerOk(s, s.workers[w]);
    NextJobOk(s, s.workers[w].batch);
    WorkerNarrows(env, s, w, NextJob(s.workers[w].batch));
  }

  /** A worker that moves to another point with its job. */
  lemma {:induction false} PointKeeps(env: Env, s: State, w: int, point: Point)
    requires Inv(env, s) && w in s.workers && s.workers[w].Working?
    requires HeadOk(s, s.workers[w].batch[0], point)
    ensures Inv(env, At(s, w, point))
  {
    assert WorkerOk(s, s.workers[w]);
    WorkerNarrows(env, s, w, s.workers[w].(point := point));
  }

  // ---- Facts about the job at the head of a batch ----

  lemma {:induction false} HeadFacts(env: Env, s: State, w: int)
    requires Inv(env, s) && w in s.workers && s.workers[w].Working?
    ensures s.workers[w].batch != []
    ensures var job := Head(s, w); var d := job.key.document;
            && HeadOk(s, job, s.workers[w].point)
            && job.key == Key(d) && d in s.docs && job.key in s.jobs && job.key in Claims(s.workers[w])
            && DocOk(env, s, d) && JobOk(s, job.key)
  {
    assert WorkerOk(s, s.workers[w]);
    assert Head(s, w).key in Claims(s.workers[w]);
    assert JobOk(s, Head(s, w).key);
  }

  // ---- Steps of `handle` ----

  lemma {:induction false} CheckIngestingKeeps(env: Env, s: State, w: int)
    requires Inv(env, s) && Enabled(s, CheckIngesting(w))
    ensures Inv(env, Apply(env, s, CheckIngesting(w)))
  {
    HeadFacts(env, s, w);
    PointKeeps(env, s, w, if MayMark(s, Head(s, w), Ingesting) then IngestingChecked else Raised);
  }

  lemma {:induction false} ExtractKeeps(env: Env, s: State, w: int)
    requires Inv(env, s) && Enabled(s, Extract(w))
    ensures Inv(env, Apply(env, s, Extract(w)))
  {
    HeadFacts(env, s, w);
    PointKeeps(env, s, w, Extracted(s.content[Head(s, w).key.document].text));
  }

  lemma {:induction false} CheckIndexedKeeps(env: Env, s: State, w: int)
    requires Inv(env, s) && Enabled(s, CheckIndexed(w))
    ensures Inv(env, Apply(env, s, CheckIndexed(w)))
  {
    HeadFacts(env, s, w);
    PointKeeps(env, s, w, if MayMark(s, Head(s, w), Indexed) then IndexedChecked else Raised);
  }

  lemma {:induction false} RaiseKeeps(env: Env, s: State, w: int)
    requires Inv(env, s) && Enabled(s, Raise(w))
    ensures Inv(env, Apply(env, s, Raise(w)))
  {
    HeadFacts(env, s, w);
    PointKeeps(env, s, w, Raised);
  }

  lemma {:induction false} CheckFailedKeeps(env: Env, s: State, w: int)
    requires Inv(env, s) && Enabled(s, CheckFailed(w))
    ensures Inv(env, Apply(env, s, CheckFailed(w)))
  {
    HeadFacts(env, s, w);
    if MayMark(s, Head(s, w), Failed) {
      PointKeeps(env, s, w, FailedChecked);
    } else {
      SkipKeeps(env, s, w);
    }
  }

  // ---- Steps that change a document's status ----

  /** Only the status of `d` and the worker differ. */
  lemma {:induction false} StatusStepIsLocal(s: State, w: int, d: int, status: DocumentStatus, worker: Worker)
    requires d in s.docs
    ensures Local(s, WithStatus(WithWorker(s, w, worker), d, status), w, d)
  {
  }

  /** The rest of the worker's batch does not mention the document of the head. */
  lemma {:induction false} RestUntouched(env: Env, s: State, t: State, w: int, batch: seq<IngestionJob>)
    requires Inv(env, s) && w in s.workers && s.workers[w].Working? && batch == s.workers[w].batch && batch != []
    requires Local(s, t, w, batch[0].key.document)
    ensures forall i :: 1 <= i < |batch| ==> Held(t, batch[i])
  {
    assert WorkerOk(s, s.workers[w]);
    forall i | 1 <= i < |batch| ensures Held(t, batch[i]) {
      assert batch[i].key in Claims(s.workers[w]) && batch[0].key in Claims(s.workers[w]);
      ClaimedVersion(env, s, w, batch[i].key);
      ClaimedVersion(env, s, w, batch[0].key);
      assert batch[i].key.document != batch[0].key.document;
      HeldFrame(s, t, batch[i]);
    }
  }

  lemma {:induction false} CommitIngestingKeeps(env: Env, s: State, w: int)
    requires Inv(env, s) && Enabled(s, CommitIngesting(w))
    ensures Inv(env, Apply(env, s, CommitIngesting(w)))
  {
    HeadFacts(env, s, w);
    var d, batch := Head(s, w).key.document, s.workers[w].batch;
    var t := Apply(env, s, CommitIngesting(w));
    StatusStepIsLocal(s, w, d, Ingesting, Working(batch, Marked));
    RestUntouched(env, s, t, w, batch);
    LocalKeepsInv(env, s, t, w, d);
  }

  lemma {:induction false} CommitIndexedKeeps(env: Env, s: State, w: int)
    requires Inv(env, s) && Enabled(s, CommitIndexed(w))
    ensures Inv(env, Apply(env, s, CommitIndexed(w)))
  {
    HeadFacts(env, s, w);
    var d, batch := Head(s, w).key.document, s.workers[w].batch;
    var t := Apply(env, s, CommitIndexed(w));
    StatusStepIsLocal(s, w, d, Indexed, Working(batch, Finished));
    RestUntouched(env, s, t, w, batch);
    LocalKeepsInv(env, s, t, w, d);
  }

  lemma {:induction false} CommitFailedKeeps(env: Env, s: State, w: int)
    requires Inv(env, s) && Enabled(s, CommitFailed(w))
    ensures Inv(env, Apply(env, s, CommitFailed(w)))
  {
    HeadFacts(env, s, w);
    var d, batch := Head(s, w).key.document, s.workers[w].batch;
    var t := Apply(env, s, CommitFailed(w));
    StatusStepIsLocal(s, w, d, Failed, NextJob(batch));
    RestUntouched(env, s, t, w, batch);
    LocalKeepsTables(env, s, t, w, d);
    NextJobOk(t, batch);
    LocalKeepsInv(env, s, t, w, d);
  }

  // ---- Indexing ----

  lemma {:induction false} ChunksStepIsLocal(s: State, w: int, worker: Worker, d: int, rows: seq<ChunkRow>)
    ensures Local(s, WithWorker(s, w, worker).(chunks := s.chunks[d := rows]), w, d)
  {
  }

  lemma {:induction false} IndexKeepsTables(env: Env, s: State, w: int)
    requires Inv(env, s) && Enabled(s, Index(w)) && Accepted(env, s.workers[w].point.text)
    ensures var t, d := AfterIndex(env, s, w), Head(s, w).key.document;
            && Local(s, t, w, d) && d in s.docs && Key(d) in t.jobs && FullAt(env, t, d)
            && DocOk(env, t, d) && JobOk(t, Key(d))
  {
    HeadFacts(env, s, w);
    var d := Head(s, w).key.document;
    ChunksStepIsLocal(s, w, Working(s.workers[w].batch, Written), d, AfterIndex(env, s, w).chunks[d]);
  }

  lemma {:induction false} IndexKeeps(env: Env, s: State, w: int)
    requires Inv(env, s) && Enabled(s, Index(w))
    ensures Inv(env, Apply(env, s, Index(w)))
  {
    HeadFacts(env, s, w);
    if Accepted(env, s.workers[w].point.text) {
      IndexKeepsTables(env, s, w);
      RestUntouched(env, s, AfterIndex(env, s, w), w, s.workers[w].batch);
      LocalKeepsInv(env, s, AfterIndex(env, s, w), w, Head(s, w).key.document);
    } else {
      PointKeeps(env, s, w, Raised);
    }
  }

  // ---- Steps that change a job ----

  lemma {:induction false} CompleteKeepsJob(env: Env, s: State, w: int)
    requires Inv(env, s) && Enabled(s, Complete(w))
    ensures var t, d := AfterComplete(s, w), Head(s, w).key.document;
            && Local(s, t, w, d) && d in s.docs && Key(d) in t.jobs
            && DocOk(env, t, d) && JobOk(t, Key(d))
  {
    HeadFacts(env, s, w);
    CompleteKeepsRows(env, s, w);
    hide Inv, NextJob, DocOk, JobOk;
    var key := Head(s, w).key;
    JobStepIsLocal(s, w, NextJob(s.workers[w].batch), key.document, WithCompleted(s.jobs, key, s.clock)[key]);
  }

  lemma {:induction false} CompleteKeepsRows(env: Env, s: State, w: int)
    requires Inv(env, s) && Enabled(s, Complete(w))
    ensures var t, d := AfterComplete(s, w), Head(s, w).key.document;
            d in t.docs && Key(d) in t.jobs && DocOk(env, t, d) && JobOk(t, Key(d))
  {
    HeadFacts(env, s, w);
    hide Inv, NextJob, TotalBackoff;
  }

  lemma {:induction false} CompleteKeeps(env: Env, s: State, w: int)
    requires Inv(env, s) && Enabled(s, Complete(w))
    ensures Inv(env, Apply(env, s, Complete(w)))
  {
    HeadFacts(env, s, w);
    var d, batch := Head(s, w).key.document, s.workers[w].batch;
    var t := AfterComplete(s, w);
    CompleteKeepsJob(env, s, w);
    RestUntouched(env, s, t, w, batch);
    LocalKeepsTables(env, s, t, w, d);
    assert WorkerOk(s, s.workers[w]);
    NextJobOk(t, batch);
    LocalKeepsInv(env, s, t, w, d);
  }

  /** A failure counts one attempt; because the snapshot is faithful this is an increment. */
  lemma {:induction false} FailedRowOk(s: State, job: IngestionJob, error: string)
    requires Held(s, job) && JobOk(s, job.key)
    ensures var row := FailedRow(s.jobs[job.key], job, error, s.clock);
            && row.attempts == s.jobs[job.key].attempts + 1
            && LedgerOk(row, s.claims[job.key]) && TimesOk(row, s.clock)
            && (row.status == DeadLetter <==> DeadLetters(job)) && row.status in {Pending, DeadLetter}
            && row.tenant == s.jobs[job.key].tenant && row.collection == s.jobs[job.key].collection
  {
  }

  /** The job and its document after a failure. */
  lemma {:induction false} FailKeepsJob(env: Env, s: State, w: int, error: string)
    requires Inv(env, s) && Enabled(s, Fail(w, error))
    ensures var t, d := Apply(env, s, Fail(w, error)), Head(s, w).key.document;
            && Local(s, t, w, d) && d in s.docs && Key(d) in t.jobs
            && DocOk(env, t, d) && JobOk(t, Key(d))
            && (t.jobs[Key(d)].status == DeadLetter <==> DeadLetters(Head(s, w)))
  {
    HeadFacts(env, s, w);
    var job, batch := Head(s, w), s.workers[w].batch;
    var row := FailedRow(s.jobs[job.key], job, error, s.clock);
    FailedRowOk(s, job, error);
    JobStepIsLocal(s, w, if DeadLetters(job) then Working(batch, Buried) else NextJob(batch), job.key.document, row);
  }

  lemma {:induction false} JobStepIsLocal(s: State, w: int, worker: Worker, d: int, row: JobRow)
    requires Key(d) in s.jobs
    ensures Local(s, WithWorker(s, w, worker).(jobs := s.jobs[Key(d) := row]), w, d)
  {
  }

  lemma {:induction false} BatchFacts(env: Env, s: State, w: int)
    requires Inv(env, s) && w in s.workers && s.workers[w].Working?
    ensures s.workers[w].batch != [] && DistinctKeys(s.workers[w].batch)
  {
    assert WorkerOk(s, s.workers[w]);
  }

  lemma {:induction false} BuriedOk(s: State, t: State, batch: seq<IngestionJob>)
    requires batch != [] && DistinctKeys(batch) && Held(s, batch[0]) && batch[0].key.document in t.docs
    requires batch[0].key in t.jobs && t.jobs[batch[0].key].status == DeadLetter
    requires t.jobs[batch[0].key].tenant == s.jobs[batch[0].key].tenant
    requires forall i :: 1 <= i < |batch| ==> Held(t, batch[i])
    ensures WorkerOk(t, Working(batch, Buried))
  {
  }

  lemma {:induction false} FailMoves(env: Env, s: State, w: int, error: string)
    requires Enabled(s, Fail(w, error))
    ensures w in s.workers && s.workers[w].Working? && s.workers[w].batch != []
    ensures var t, batch := Apply(env, s, Fail(w, error)), s.workers[w].batch;
            w in t.workers && t.workers[w] == (if DeadLetters(batch[0]) then Working(batch, Buried) else NextJob(batch))
            && t.docs == s.docs && t.jobs == WithFailed(s.jobs, batch[0], error, s.clock)
  {
    hide NextJob;
  }

  lemma {:induction false} FailKeepsWorker(env: Env, s: State, w: int, error: string)
    requires Inv(env, s) && Enabled(s, Fail(w, error))
    ensures var t := Apply(env, s, Fail(w, error));
            w in t.workers && WorkerOk(t, t.workers[w]) && NarrowerClaims(s, t, w)
  {
    FailMoves(env, s, w, error);
    HeadFacts(env, s, w);
    BatchFacts(env, s, w);
    FailKeepsJob(env, s, w, error);
    hide Apply, Enabled, Inv, WorkerOk, NextJob, Local;
    var t, batch := Apply(env, s, Fail(w, error)), s.workers[w].batch;
    RestUntouched(env, s, t, w, batch);
    if DeadLetters(batch[0]) {
      BuriedOk(s, t, batch);
    } else {
      LocalKeepsTables(env, s, t, w, batch[0].key.document);
      NextJobOk(t, batch);
    }
  }

  lemma {:induction false} FailKeeps(env: Env, s: State, w: int, error: string)
    requires Inv(env, s) && Enabled(s, Fail(w, error))
    ensures Inv(env, Apply(env, s, Fail(w, error)))
  {
    HeadFacts(env, s, w);
    FailKeepsJob(env, s, w, error);
    FailKeepsWorker(env, s, w, error);
    LocalKeepsInv(env, s, Apply(env, s, Fail(w, error)), w, Head(s, w).key.document);
  }

  // ---- Claiming ----

  lemma {:induction false} ClaimedRowOk(row: JobRow, claims: nat, worker: int, now: int, clock: int)
    requires LedgerOk(row, claims) && row.status == Pending && TimesOk(row, clock) && row.availableAt <= now <= clock
    ensures var claimed := ClaimedRow(row, worker, now); LedgerOk(claimed, claims + 1) && TimesOk(claimed, clock)
  {
  }

  lemma {:induction false} ClaimedTables(env: Env, s: State, w: int, i: nat)
    requires Enabled(s, CommitClaim(w)) && i < |s.workers[w].rows| && DistinctKeys(s.workers[w].rows)
    requires s.workers[w].rows[i].key in s.claims
    ensures var t, k := Apply(env, s, CommitClaim(w)), s.workers[w].rows[i].key;
            && t.docs == s.docs && t.content == s.content && t.chunks == s.chunks && t.clock == s.clock
            && k in s.jobs && k in t.jobs && t.jobs[k] == ClaimedRow(s.jobs[k], w, s.workers[w].readAt)
            && k in t.claims && t.claims[k] == s.claims[k] + 1
  {
    ClaimedAt(s.jobs, s.workers[w].rows, w, s.workers[w].readAt, i);
    assert s.workers[w].rows[i].key in Keys(s.workers[w].rows);
  }

  lemma {:induction false} LockedFacts(env: Env, s: State, w: int, i: nat)
    requires Inv(env, s) && w in s.workers && s.workers[w].Claiming? && i < |s.workers[w].rows|
    ensures var job, readAt := s.workers[w].rows[i], s.workers[w].readAt;
            && DistinctKeys(s.workers[w].rows) && Locked(s, job, readAt) && readAt <= s.clock && JobOk(s, job.key)
  {
    var job, readAt := s.workers[w].rows[i], s.workers[w].readAt;
    assert WorkerOk(s, s.workers[w]);
    assert Locked(s, job, readAt);
    assert JobOk(s, job.key);
  }

  /** A locked row, claimed. */
  lemma {:induction false} ClaimedJobOk(env: Env, s: State, t: State, w: int, i: nat)
    requires Inv(env, s) && Enabled(s, CommitClaim(w)) && t == Apply(env, s, CommitClaim(w))
    requires i < |s.workers[w].rows|
    ensures Held(t, s.workers[w].rows[i]) && JobOk(t, s.workers[w].rows[i].key)
  {
    hide LedgerOk, TimesOk, Inv, Apply;
    var job := s.workers[w].rows[i];
    LockedFacts(env, s, w, i);
    ClaimedTables(env, s, w, i);
    ClaimedRowOk(s.jobs[job.key], s.claims[job.key], w, s.workers[w].readAt, s.clock);
  }

  /** A row that is not claimed is left alone. */
  lemma {:induction false} UnclaimedKept(env: Env, s: State, t: State, w: int, k: JobKey)
    requires Inv(env, s) && Enabled(s, CommitClaim(w)) && t == Apply(env, s, CommitClaim(w))
    requires k in s.jobs && k !in Keys(s.workers[w].rows)
    ensures t.jobs[k] == s.jobs[k] && k in s.claims && k in t.claims && t.claims[k] == s.claims[k]
  {
    assert JobOk(s, k);
    forall i | 0 <= i < |s.workers[w].rows| ensures s.workers[w].rows[i].key != k {
    }
    ClaimedElsewhere(s.jobs, s.workers[w].rows, w, s.workers[w].readAt, k);
  }

  lemma {:induction false} ClaimKeepsJobs(env: Env, s: State, t: State, w: int)
    requires Inv(env, s) && Enabled(s, CommitClaim(w)) && t == Apply(env, s, CommitClaim(w))
    ensures JobsOk(t) && DocsOk(env, t)
  {
    var rows := s.workers[w].rows;
    forall k | k in t.jobs ensures JobOk(t, k) {
      assert JobOk(s, k);
      if k in Keys(rows) {
        var i :| 0 <= i < |rows| && rows[i].key == k;
        ClaimedJobOk(env, s, t, w, i);
      } else {
        UnclaimedKept(env, s, t, w, k);
      }
    }
    forall d | d in t.docs ensures DocOk(env, t, d) {
      assert DocOk(env, s, d);
      if s.docs[d].status == Failed {
        DeadUnclaimed(env, s, w, Key(d));
        UnclaimedKept(env, s, t, w, Key(d));
      }
    }
  }

  lemma {:induction false} DeadUnclaimed(env: Env, s: State, w: int, k: JobKey)
    requires Inv(env, s) && w in s.workers && s.workers[w].Claiming? && k in s.jobs && s.jobs[k].status == DeadLetter
    ensures k !in Keys(s.workers[w].rows)
  {
    assert WorkerOk(s, s.workers[w]);
    var rows, readAt := s.workers[w].rows, s.workers[w].readAt;
    forall i | 0 <= i < |rows| ensures rows[i].key != k {
      assert Locked(s, rows[i], readAt);
    }
  }

  lemma {:induction false} ClaimKeepsOthers(env: Env, s: State, t: State, w: int, x: int)
    requires Inv(env, s) && Enabled(s, CommitClaim(w)) && t == Apply(env, s, CommitClaim(w))
    requires x in s.workers && x != w
    ensures WorkerOk(t, s.workers[x])
  {
    assert WorkerOk(s, s.workers[x]);
    assert Apart(s, w, x);
    forall k | k in Claims(s.workers[x]) ensures k.version == 1 && Untouched(s, t, k.document) {
      ClaimedVersion(env, s, x, k);
      UnclaimedKept(env, s, t, w, k);
    }
    WorkerFrame(s, t, s.workers[x]);
  }

  lemma {:induction false} ClaimKeepsWorkers(env: Env, s: State, t: State, w: int)
    requires Inv(env, s) && Enabled(s, CommitClaim(w)) && t == Apply(env, s, CommitClaim(w))
    ensures WorkersOk(t)
  {
    hide Inv;
    var rows := s.workers[w].rows;
    forall i | 0 <= i < |rows| ensures Held(t, rows[i]) && JobOk(t, rows[i].key) {
      ClaimedJobOk(env, s, t, w, i);
    }
    ClaimsAreDistinct(env, s, w);
    forall x | x in t.workers ensures WorkerOk(t, t.workers[x]) {
      if x != w {
        ClaimKeepsOthers(env, s, t, w, x);
      }
    }
  }

  lemma {:induction false} ClaimsAreDistinct(env: Env, s: State, w: int)
    requires Inv(env, s) && w in s.workers && s.workers[w].Claiming?
    ensures DistinctKeys(s.workers[w].rows)
  {
    assert WorkerOk(s, s.workers[w]);
  }

  lemma {:induction false} ClaimKeepsRequests(env: Env, s: State, t: State, w: int)
    requires Inv(env, s) && Enabled(s, CommitClaim(w)) && t == Apply(env, s, CommitClaim(w))
    ensures ContentsOk(t) && ChunksOk(t) && RequestsOk(t) && HashesUnique(t) && Exclusive(t)
  {
    RequestsFrame(s, t);
    HashesFrame(s, t);
    ExclusiveFrame(s, t, w);
    forall d | d in t.content ensures ContentOk(t, d) {
      assert ContentOk(s, d);
    }
  }

  lemma {:induction false} ClaimKeeps(env: Env, s: State, w: int)
    requires Inv(env, s) && Enabled(s, CommitClaim(w))
    ensures Inv(env, Apply(env, s, CommitClaim(w)))
  {
    hide Apply;
    var t := Apply(env, s, CommitClaim(w));
    ClaimKeepsJobs(env, s, t, w);
    ClaimKeepsRequests(env, s, t, w);
    ClaimKeepsWorkers(env, s, t, w);
  }

  // ---- Steps of the API ----

  /** Nothing about existing documents changes, and no worker moves. */
  lemma {:induction false} WorkersFrame(env: Env, s: State, t: State)
    requires Inv(env, s) && t.workers == s.workers && s.clock <= t.clock
    requires forall k :: k in s.jobs ==> Untouched(s, t, k.document)
    ensures WorkersOk(t) && Exclusive(t)
  {
    forall x | x in t.workers ensures WorkerOk(t, t.workers[x]) {
      forall k | k in Claims(s.workers[x]) ensures k.version == 1 && Untouched(s, t, k.document) {
        ClaimedVersion(env, s, x, k);
      }
      WorkerFrame(s, t, s.workers[x]);
    }
    forall w1, w2 | w1 in t.workers && w2 in t.workers ensures Apart(t, w1, w2) {
      assert Apart(s, w1, w2);
    }
  }

  lemma {:induction false} JobsFrame(env: Env, s: State, t: State)
    requires Inv(env, s) && t.jobs == s.jobs && s.clock <= t.clock
    requires forall k :: k in s.jobs ==> Untouched(s, t, k.document)
    ensures JobsOk(t)
  {
    forall k | k in t.jobs ensures JobOk(t, k) {
      assert JobOk(s, k);
      JobFrame(s, t, k);
    }
  }

  lemma {:induction false} RegisterKeeps(env: Env, s: State, d: int, tenant: int, collection: int, hash: ContentHash)
    requires Inv(env, s) && Enabled(s, Register(d, tenant, collection, hash))
    ensures Inv(env, Apply(env, s, Register(d, tenant, collection, hash)))
  {
    var t := Apply(env, s, Register(d, tenant, collection, hash));
    forall k | k in s.jobs ensures Untouched(s, t, k.document) {
      assert JobOk(s, k);
    }
    WorkersFrame(env, s, t);
    JobsFrame(env, s, t);
    forall e | e in t.content ensures ContentOk(t, e) {
      assert ContentOk(s, e);
    }
    forall e | e in t.docs ensures DocOk(env, t, e) {
      if e != d {
        assert DocOk(env, s, e);
      } else {
        assert d in s.content ==> ContentOk(s, d);
      }
    }
    forall r | r in t.requests ensures RequestOk(t, t.requests[r]) {
      assert RequestOk(s, s.requests[r]);
    }
  }

  /** Only the requests change. */
  lemma {:induction false} RequestsStepKeeps(env: Env, s: State, requests: map<int, Request>)
    requires Inv(env, s)
    requires forall r :: r in requests ==> (r in s.requests && requests[r] == s.requests[r]) || RequestOk(s, requests[r])
    ensures Inv(env, s.(requests := requests))
  {
    var t := s.(requests := requests);
    forall k | k in s.jobs ensures Untouched(s, t, k.document) {
    }
    WorkersFrame(env, s, t);
    JobsFrame(env, s, t);
    forall d | d in t.docs ensures DocOk(env, t, d) {
      assert DocOk(env, s, d);
    }
    forall d | d in t.content ensures ContentOk(t, d) {
      assert ContentOk(s, d);
    }
    forall r | r in t.requests ensures RequestOk(t, t.requests[r]) {
      assert r in s.requests ==> RequestOk(s, s.requests[r]);
    }
  }

  lemma {:induction false} CheckUploadKeeps(env: Env, s: State, r: int, d: int, tenant: int, text: string)
    requires Inv(env, s) && Enabled(s, CheckUpload(r, d, tenant, text))
    ensures Inv(env, Apply(env, s, CheckUpload(r, d, tenant, text)))
  {
    assert DocOk(env, s, d);
    RequestsStepKeeps(env, s, Apply(env, s, CheckUpload(r, d, tenant, text)).requests);
  }

  lemma {:induction false} StoreKeeps(env: Env, s: State, r: int)
    requires Inv(env, s) && Enabled(s, StoreContent(r))
    ensures Inv(env, AfterStore(s, r))
  {
    var t := AfterStore(s, r);
    var d := s.requests[r].document;
    assert RequestOk(s, s.requests[r]);
    assert DocOk(env, s, d);
    assert d in s.content ==> t.content == s.content;
    forall k | k in s.jobs ensures Untouched(s, t, k.document) {
      assert JobOk(s, k);
    }
    WorkersFrame(env, s, t);
    JobsFrame(env, s, t);
    forall e | e in t.docs ensures DocOk(env, t, e) {
      assert DocOk(env, s, e);
    }
    forall e | e in t.content ensures ContentOk(t, e) {
      assert e in s.content ==> ContentOk(s, e);
    }
    forall x | x in t.requests ensures RequestOk(t, t.requests[x]) {
      assert RequestOk(s, s.requests[x]);
    }
  }

  lemma {:induction false} EnqueueKeeps(env: Env, s: State, r: int, maxAttempts: int)
    requires Inv(env, s) && Enabled(s, Enqueue(r, maxAttempts))
    ensures Inv(env, AfterEnqueue(s, r, maxAttempts))
  {
    var t := AfterEnqueue(s, r, maxAttempts);
    var d := s.requests[r].document;
    assert RequestOk(s, s.requests[r]);
    forall k | k in s.jobs ensures Untouched(s, t, k.document) {
      assert JobOk(s, k);
    }
    WorkersFrame(env, s, t);
    assert TotalBackoff(0) == 0;
    forall k | k in t.jobs ensures JobOk(t, k) {
      if k in s.jobs {
        assert JobOk(s, k);
        JobFrame(s, t, k);
      }
    }
    forall e | e in t.docs ensures DocOk(env, t, e) {
      assert DocOk(env, s, e);
    }
    forall e | e in t.content ensures ContentOk(t, e) {
      assert ContentOk(s, e);
    }
    forall x | x in t.requests ensures RequestOk(t, t.requests[x]) {
      assert RequestOk(s, s.requests[x]);
    }
  }

  lemma {:induction false} DeleteKeeps(env: Env, s: State, r: int)
    requires Inv(env, s) && Enabled(s, CommitDelete(r))
    ensures Inv(env, Apply(env, s, CommitDelete(r)))
  {
    var d := s.requests[r].document;
    var u := WithStatus(s, d, Deleted);
    forall k | k in s.jobs ensures Untouched(s, u, k.document) {
    }
    WorkersFrame(env, s, u);
    JobsFrame(env, s, u);
    forall e | e in u.docs ensures DocOk(env, u, e) {
      assert DocOk(env, s, e);
    }
    forall e | e in u.content ensures ContentOk(u, e) {
      assert ContentOk(s, e);
    }
    forall e | e in s.docs ensures SameIdentity(s, u, e) {
    }
    RequestsFrame(s, u);
    HashesFrame(s, u);
    RequestsStepKeeps(env, u, u.requests - {r});
  }

  lemma {:induction false} TickKeeps(env: Env, s: State, now: int)
    requires Inv(env, s) && now >= s.clock
    ensures Inv(env, s.(clock := now))
  {
    var t := s.(clock := now);
    forall k | k in s.jobs ensures Untouched(s, t, k.document) {
    }
    WorkersFrame(env, s, t);
    JobsFrame(env, s, t);
    forall e | e in t.docs ensures DocOk(env, t, e) {
      assert DocOk(env, s, e);
    }
    forall e | e in t.content ensures ContentOk(t, e) {
      assert ContentOk(s, e);
    }
    RequestsFrame(s, t);
  }

  // ---- All steps ----

  lemma {:induction false} ApiStepKeeps(env: Env, s: State, step: Step)
    requires Inv(env, s) && Enabled(s, step)
    requires step.Register? || step.CheckUpload? || step.StoreContent? || step.Enqueue? || step.CheckDelete?
          || step.CommitDelete? || step.LoseRequest? || step.Tick?
    ensures Inv(env, Apply(env, s, step))
  {
    hide Inv;
    match step
    case Register(d, tenant, collection, hash) => RegisterKeeps(env, s, d, tenant, collection, hash);
    case CheckUpload(r, d, tenant, text) => CheckUploadKeeps(env, s, r, d, tenant, text);
    case StoreContent(r) => StoreKeeps(env, s, r);
    case Enqueue(r, maxAttempts) => EnqueueKeeps(env, s, r, maxAttempts);
    case CheckDelete(r, d, tenant) => RequestsStepKeeps(env, s, s.requests[r := Deleting(d)]);
    case CommitDelete(r) => DeleteKeeps(env, s, r);
    case LoseRequest(r) => RequestsStepKeeps(env, s, s.requests - {r});
    case Tick(now) => TickKeeps(env, s, now);
  }

  lemma {:induction false} StepKeepsInv(env: Env, s: State, step: Step)
    requires Inv(env, s) && Enabled(s, step)
    ensures Inv(env, Apply(env, s, step))
  {
    hide Inv;
    match step
    case StartWorker(w) => StartKeeps(env, s, w);
    case SelectRows(w, limit, rows) => SelectKeeps(env, s, w, limit, rows);
    case CommitClaim(w) => ClaimKeeps(env, s, w);
    case CheckIngesting(w) => CheckIngestingKeeps(env, s, w);
    case CommitIngesting(w) => CommitIngestingKeeps(env, s, w);
    case Extract(w) => ExtractKeeps(env, s, w);
    case Index(w) => IndexKeeps(env, s, w);
    case CheckIndexed(w) => CheckIndexedKeeps(env, s, w);
    case CommitIndexed(w) => CommitIndexedKeeps(env, s, w);
    case Complete(w) => CompleteKeeps(env, s, w);
    case Raise(w) => RaiseKeeps(env, s, w);
    case Fail(w, error) => FailKeeps(env, s, w, error);
    case CheckFailed(w) => CheckFailedKeeps(env, s, w);
    case CommitFailed(w) => CommitFailedKeeps(env, s, w);
    case SwallowFailure(w) => SkipKeeps(env, s, w);
    case Crash(w) => CrashKeeps(env, s, w);
    case _ => ApiStepKeeps(env, s, step);
  }

  lemma {:induction false} RunKeepsInv(env: Env, states: seq<State>, steps: seq<Step>, i: nat)
    requires IsRun(env, states, steps) && i < |states|
    ensures Inv(env, states[i])
  {
    if i > 0 {
      hide Apply, Enabled, Inv;
      RunKeepsInv(env, states, steps, i - 1);
      StepKeepsInv(env, states[i - 1], steps[i - 1]);
    }
  }
}
