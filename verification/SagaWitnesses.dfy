/** Runs that show what can go wrong. */
module SagaWitnesses {
  import opened Wrappers
  import opened Documents
  import opened Jobs
  import opened Saga
  import opened SagaInvariant
  import opened SagaRuns
  import opened SagaOutcomes
  import opened SagaBurials
  import opened SagaRetry

  const D := 1

  /** The text of the one document, and how often its job may be attempted. */
  datatype Setting = Setting(env: Env, text: string, maxAttempts: int) {
    predicate Valid() {
      maxAttempts >= 1
    }
  }

  const KEY := JobKey(1, 1)

  function Job(x: Setting): IngestionJob {
    IngestionJob(KEY, 0, 0, 0, x.maxAttempts)
  }

  function Doc(x: Setting, status: DocumentStatus): DocRow {
    DocRow(0, 0, OfText(x.text), status, 1)
  }

  function Row(x: Setting): JobRow {
    JobRow(0, 0, Pending, 0, x.maxAttempts, 0, 0, 0, None, None, None)
  }

  /** One document, registered and uploaded, and its job waiting. */
  function Queued(x: Setting): State {
    State(map[D := Doc(x, Registered)], map[D := ContentRow(0, x.text)], map[KEY := Row(x)],
          map[], map[], map[], 0, map[KEY := 0])
  }

  /** The same with worker 0 at a point of the attempt. */
  function Attempt(x: Setting, status: DocumentStatus, chunks: map<int, seq<ChunkRow>>, point: Point,
                   requests: map<int, Request>): State
  {
    State(map[D := Doc(x, status)], map[D := ContentRow(0, x.text)], map[KEY := ClaimedRow(Row(x), 0, 0)],
          chunks, map[0 := Working([Job(x)], point)], requests, 0, map[KEY := 1])
  }

  lemma {:induction false} QueuedIsReachable(x: Setting)
    requires x.Valid()
    ensures Reaches(x.env, INITIAL, Queued(x))
  {
    hide Reaches;
    ReachesItself(x.env, INITIAL);
    var s1 := Apply(x.env, INITIAL, Register(D, 0, 0, OfText(x.text)));
    ReachesOneMore(x.env, INITIAL, INITIAL, Register(D, 0, 0, OfText(x.text)));
    var s2 := Apply(x.env, s1, CheckUpload(0, D, 0, x.text));
    ReachesOneMore(x.env, INITIAL, s1, CheckUpload(0, D, 0, x.text));
    var s3 := Apply(x.env, s2, StoreContent(0));
    ReachesOneMore(x.env, INITIAL, s2, StoreContent(0));
    ReachesOneMore(x.env, INITIAL, s3, Enqueue(0, x.maxAttempts));
    assert Apply(x.env, s3, Enqueue(0, x.maxAttempts)) == Queued(x);
  }

  lemma {:induction false} ReachesVia(env: Env, a: State, step: Step, b: State)
    requires Reaches(env, INITIAL, a) && Enabled(a, step) && Apply(env, a, step) == b
    ensures Reaches(env, INITIAL, b)
  {
    ReachesOneMore(env, INITIAL, a, step);
  }

  /** The waiting job with worker 0. */
  function WithZero(x: Setting, worker: Worker): State {
    Queued(x).(workers := map[0 := worker])
  }

  lemma {:induction false} JobIsSelected(x: Setting)
    ensures Enabled(WithZero(x, Idle), SelectRows(0, 1, [Job(x)]))
  {
    var s := WithZero(x, Idle);
    assert LockedKeys(s) == {};
    assert [Job(x)][0].key in Keys([Job(x)]);
    assert Job(x) == Snapshot(s.jobs, KEY);
  }

  lemma {:induction false} JobIsClaimed(x: Setting)
    ensures Enabled(WithZero(x, Claiming([Job(x)], 0)), CommitClaim(0))
    ensures Apply(x.env, WithZero(x, Claiming([Job(x)], 0)), CommitClaim(0)) == Attempt(x, Registered, map[], AtStart, map[])
  {
    var s := WithZero(x, Claiming([Job(x)], 0));
    assert [Job(x)][..0] == [];
    assert WithClaimed(s.jobs, [], 0, 0) == s.jobs;
    assert [Job(x)][0].key in Keys([Job(x)]);
    assert WithClaimed(s.jobs, [Job(x)], 0, 0) == map[KEY := ClaimedRow(Row(x), 0, 0)];
    assert Bumped(s.claims, Keys([Job(x)])) == map[KEY := 1];
  }

  lemma {:induction false} WorkerStarts(x: Setting)
    ensures Enabled(Queued(x), StartWorker(0)) && Apply(x.env, Queued(x), StartWorker(0)) == WithZero(x, Idle)
    ensures Enabled(WithZero(x, Idle), SelectRows(0, 1, [Job(x)]))
    ensures Apply(x.env, WithZero(x, Idle), SelectRows(0, 1, [Job(x)])) == WithZero(x, Claiming([Job(x)], 0))
  {
    JobIsSelected(x);
    assert WithZero(x, Idle).workers[0 := Claiming([Job(x)], 0)] == WithZero(x, Claiming([Job(x)], 0)).workers;
  }

  lemma {:induction false} AttemptIsReachable(x: Setting)
    requires x.Valid()
    ensures Reaches(x.env, INITIAL, Attempt(x, Registered, map[], AtStart, map[]))
  {
    hide Apply, Enabled, Reaches;
    QueuedIsReachable(x);
    WorkerStarts(x);
    ReachesVia(x.env, Queued(x), StartWorker(0), WithZero(x, Idle));
    ReachesVia(x.env, WithZero(x, Idle), SelectRows(0, 1, [Job(x)]), WithZero(x, Claiming([Job(x)], 0)));
    JobIsClaimed(x);
    ReachesVia(x.env, WithZero(x, Claiming([Job(x)], 0)), CommitClaim(0), Attempt(x, Registered, map[], AtStart, map[]));
  }

  // The steps of the attempt, each from one point to the next.

  lemma {:induction false} PointMoves(x: Setting, status: DocumentStatus, chunks: map<int, seq<ChunkRow>>, from: Point, to: Point)
    ensures At(Attempt(x, status, chunks, from, map[]), 0, to) == Attempt(x, status, chunks, to, map[])
  {
    assert Attempt(x, status, chunks, from, map[]).workers[0 := Working([Job(x)], to)] == map[0 := Working([Job(x)], to)];
  }

  lemma {:induction false} StatusMoves(x: Setting, status: DocumentStatus, chunks: map<int, seq<ChunkRow>>, point: Point,
                                       requests: map<int, Request>, to: DocumentStatus)
    ensures WithStatus(Attempt(x, status, chunks, point, requests), D, to) == Attempt(x, to, chunks, point, requests)
  {
    assert Attempt(x, status, chunks, point, requests).docs[D := Doc(x, to)] == map[D := Doc(x, to)];
  }

  lemma {:induction false} CheckMoves(x: Setting)
    ensures var a := Attempt(x, Registered, map[], AtStart, map[]);
            Enabled(a, CheckIngesting(0)) && Apply(x.env, a, CheckIngesting(0)) == Attempt(x, Registered, map[], IngestingChecked, map[])
  {
    PointMoves(x, Registered, map[], AtStart, IngestingChecked);
  }

  lemma {:induction false} CommitMoves(x: Setting)
    ensures var a := Attempt(x, Registered, map[], IngestingChecked, map[]);
            Enabled(a, CommitIngesting(0)) && Apply(x.env, a, CommitIngesting(0)) == Attempt(x, Ingesting, map[], Marked, map[])
  {
    PointMoves(x, Registered, map[], IngestingChecked, Marked);
    StatusMoves(x, Registered, map[], Marked, map[], Ingesting);
  }

  lemma {:induction false} ExtractMoves(x: Setting)
    ensures var a := Attempt(x, Ingesting, map[], Marked, map[]);
            Enabled(a, Extract(0)) && Apply(x.env, a, Extract(0)) == Attempt(x, Ingesting, map[], Extracted(x.text), map[])
  {
    PointMoves(x, Ingesting, map[], Marked, Extracted(x.text));
  }

  function Stored(x: Setting): map<int, seq<ChunkRow>> {
    map[D := ChunkSet(x.env, D, 0, 0, 1, x.text)]
  }

  lemma {:induction false} IndexMovesOn(x: Setting)
    requires x.Valid() && Accepted(x.env, x.text)
    ensures var a := Attempt(x, Ingesting, map[], Extracted(x.text), map[]);
            Enabled(a, Index(0)) && Apply(x.env, a, Index(0)) == Attempt(x, Ingesting, Stored(x), Written, map[])
  {
    PointMoves(x, Ingesting, map[], Extracted(x.text), Written);
    assert map[][D := ChunkSet(x.env, D, 0, 0, 1, x.text)] == Stored(x);
  }

  lemma {:induction false} CheckIndexedMoves(x: Setting)
    ensures var a := Attempt(x, Ingesting, Stored(x), Written, map[]);
            Enabled(a, CheckIndexed(0)) && Apply(x.env, a, CheckIndexed(0)) == Attempt(x, Ingesting, Stored(x), IndexedChecked, map[])
  {
    PointMoves(x, Ingesting, Stored(x), Written, IndexedChecked);
  }

  lemma {:induction false} MarkedIsReachable(x: Setting)
    requires x.Valid()
    ensures Reaches(x.env, INITIAL, Attempt(x, Ingesting, map[], Marked, map[]))
  {
    hide Apply, Enabled, Reaches;
    var a, b := Attempt(x, Registered, map[], AtStart, map[]), Attempt(x, Registered, map[], IngestingChecked, map[]);
    AttemptIsReachable(x);
    CheckMoves(x);
    ReachesVia(x.env, a, CheckIngesting(0), b);
    CommitMoves(x);
    ReachesVia(x.env, b, CommitIngesting(0), Attempt(x, Ingesting, map[], Marked, map[]));
  }

  lemma {:induction false} IndexingIsReachable(x: Setting)
    requires x.Valid() && Accepted(x.env, x.text)
    ensures Reaches(x.env, INITIAL, Attempt(x, Ingesting, Stored(x), IndexedChecked, map[]))
  {
    hide Apply, Enabled, Reaches;
    var c, d := Attempt(x, Ingesting, map[], Marked, map[]), Attempt(x, Ingesting, map[], Extracted(x.text), map[]);
    var e := Attempt(x, Ingesting, Stored(x), Written, map[]);
    MarkedIsReachable(x);
    ExtractMoves(x);
    ReachesVia(x.env, c, Extract(0), d);
    IndexMovesOn(x);
    ReachesVia(x.env, d, Index(0), e);
    CheckIndexedMoves(x);
    ReachesVia(x.env, e, CheckIndexed(0), Attempt(x, Ingesting, Stored(x), IndexedChecked, map[]));
  }

  lemma {:induction false} DeleteChecks(x: Setting)
    ensures var a := Attempt(x, Ingesting, Stored(x), IndexedChecked, map[]);
            Enabled(a, CheckDelete(7, D, 0))
            && Apply(x.env, a, CheckDelete(7, D, 0)) == Attempt(x, Ingesting, Stored(x), IndexedChecked, map[7 := Deleting(D)])
  {
    assert map[][7 := Deleting(D)] == map[7 := Deleting(D)];
  }

  lemma {:induction false} DeleteCommits(x: Setting)
    ensures var a := Attempt(x, Ingesting, Stored(x), IndexedChecked, map[7 := Deleting(D)]);
            Enabled(a, CommitDelete(7))
            && Apply(x.env, a, CommitDelete(7)) == Attempt(x, Deleted, Stored(x), IndexedChecked, map[])
  {
    StatusMoves(x, Ingesting, Stored(x), IndexedChecked, map[7 := Deleting(D)], Deleted);
    assert map[7 := Deleting(D)] - {7} == map[];
  }

  lemma {:induction false} DeletedIsIndexed(x: Setting)
    ensures var a := Attempt(x, Deleted, Stored(x), IndexedChecked, map[]);
            Enabled(a, CommitIndexed(0)) && D in Apply(x.env, a, CommitIndexed(0)).docs
            && Apply(x.env, a, CommitIndexed(0)).docs[D].status == Indexed
  {
  }

  lemma {:induction false} DeletedIsReachable(x: Setting)
    requires x.Valid() && Accepted(x.env, x.text)
    ensures Reaches(x.env, INITIAL, Attempt(x, Deleted, Stored(x), IndexedChecked, map[]))
  {
    hide Apply, Enabled, Reaches;
    var a := Attempt(x, Ingesting, Stored(x), IndexedChecked, map[]);
    var b := Attempt(x, Ingesting, Stored(x), IndexedChecked, map[7 := Deleting(D)]);
    IndexingIsReachable(x);
    DeleteChecks(x);
    ReachesVia(x.env, a, CheckDelete(7, D, 0), b);
    DeleteCommits(x);
    ReachesVia(x.env, b, CommitDelete(7), Attempt(x, Deleted, Stored(x), IndexedChecked, map[]));
  }

  /** A document that a delete has marked DELETED can become INDEXED again, because mark_indexed
      had read it before and writes without looking again. */
  lemma {:induction false} DeleteCanBeLost(x: Setting)
    requires x.Valid() && Accepted(x.env, x.text)
    ensures exists s, t :: Reaches(x.env, INITIAL, s) && Reaches(x.env, s, t) && HasStatus(s, D, {Deleted}) && HasStatus(t, D, {Indexed})
  {
    hide Apply, Enabled, Reaches;
    var s := Attempt(x, Deleted, Stored(x), IndexedChecked, map[]);
    DeletedIsReachable(x);
    DeletedIsIndexed(x);
    ReachesItself(x.env, s);
    ReachesOneMore(x.env, s, s, CommitIndexed(0));
    assert HasStatus(s, D, {Deleted}) && HasStatus(Apply(x.env, s, CommitIndexed(0)), D, {Indexed});
  }

  /** A document that has been deleted can still have chunks that searches find. */
  lemma {:induction false} DeletedCanBeSearched(x: Setting)
    requires x.Valid() && Accepted(x.env, x.text) && x.env.pieces(x.text) != []
    ensures exists s, row: ChunkRow :: Reaches(x.env, INITIAL, s) && HasStatus(s, D, {Deleted}) && row.document == D && Searchable(s, 0, None, row)
  {
    hide Apply, Enabled, Reaches;
    var s := Attempt(x, Deleted, Stored(x), IndexedChecked, map[]);
    DeletedIsReachable(x);
    assert Stored(x)[D][0].document == D;
    assert HasStatus(s, D, {Deleted}) && Searchable(s, 0, None, Stored(x)[D][0]);
  }

  // ---- A retry that cannot succeed ----

  lemma {:induction false} RaiseMoves(x: Setting, status: DocumentStatus, chunks: map<int, seq<ChunkRow>>, point: Point)
    requires InHandle(point)
    ensures var a := Attempt(x, status, chunks, point, map[]);
            Enabled(a, Raise(0)) && Apply(x.env, a, Raise(0)) == Attempt(x, status, chunks, Raised, map[])
  {
    PointMoves(x, status, chunks, point, Raised);
  }

  lemma {:induction false} InitialInv(env: Env)
    ensures Inv(env, INITIAL)
  {
  }

  /** A first attempt that raises right after mark_ingesting has attempts left, and none of them can
      complete the job. */
  lemma {:induction false} RetryCanBeHopeless(x: Setting)
    requires x.maxAttempts >= 2
    ensures exists s :: Reaches(x.env, INITIAL, s) && WorkingAt(s, 0, Raised) && Head(s, 0) == Job(x)
                     && !DeadLetters(Job(x)) && !CanComplete(x.env, s, KEY)
  {
    hide Apply, Enabled, Reaches;
    var s := Attempt(x, Ingesting, map[], Raised, map[]);
    MarkedIsReachable(x);
    RaiseMoves(x, Ingesting, map[], Marked);
    ReachesVia(x.env, Attempt(x, Ingesting, map[], Marked, map[]), Raise(0), s);
    InitialInv(x.env);
    ReachedInv(x.env, INITIAL, s);
    RaisedIsStuck(x.env, s, 0);
    forall t | Reaches(x.env, s, t) ensures !JobIs(t, KEY, Completed) {
      StuckReached(x.env, s, t, KEY);
    }
  }

  // ---- Dead jobs whose documents are not FAILED ----

  /** The same after the only attempt has failed. */
  function Dead(x: Setting, status: DocumentStatus, chunks: map<int, seq<ChunkRow>>, worker: Worker): State {
    Attempt(x, status, chunks, Raised, map[]).(
      jobs := map[KEY := FailedRow(ClaimedRow(Row(x), 0, 0), Job(x), "", 0)], workers := map[0 := worker])
  }

  lemma {:induction false} FailDies(x: Setting, status: DocumentStatus, chunks: map<int, seq<ChunkRow>>)
    requires x.maxAttempts == 1
    ensures var a := Attempt(x, status, chunks, Raised, map[]);
            Enabled(a, Fail(0, "")) && Apply(x.env, a, Fail(0, "")) == Dead(x, status, chunks, Working([Job(x)], Buried))
  {
    var a := Attempt(x, status, chunks, Raised, map[]);
    assert DeadLetters(Job(x));
    assert a.jobs[KEY := FailedRow(ClaimedRow(Row(x), 0, 0), Job(x), "", 0)] == Dead(x, status, chunks, Idle).jobs;
    assert a.workers[0 := Working([Job(x)], Buried)] == map[0 := Working([Job(x)], Buried)];
  }

  lemma {:induction false} FailureIsRefused(x: Setting, status: DocumentStatus, chunks: map<int, seq<ChunkRow>>)
    requires status in {Registered, Indexed}
    ensures var a := Dead(x, status, chunks, Working([Job(x)], Buried));
            Enabled(a, CheckFailed(0)) && Apply(x.env, a, CheckFailed(0)) == Dead(x, status, chunks, Idle)
  {
    var a := Dead(x, status, chunks, Working([Job(x)], Buried));
    assert !MayMark(a, Job(x), Failed);
    assert a.workers[0 := Idle] == map[0 := Idle];
  }

  lemma {:induction false} FailureIsSwallowed(x: Setting, status: DocumentStatus, chunks: map<int, seq<ChunkRow>>)
    ensures var a := Dead(x, status, chunks, Working([Job(x)], Buried));
            Enabled(a, SwallowFailure(0)) && Apply(x.env, a, SwallowFailure(0)) == Dead(x, status, chunks, Idle)
  {
    var a := Dead(x, status, chunks, Working([Job(x)], Buried));
    assert a.workers[0 := Idle] == map[0 := Idle];
  }

  lemma {:induction false} DeadIsSettled(x: Setting, status: DocumentStatus, chunks: map<int, seq<ChunkRow>>)
    requires x.maxAttempts == 1
    ensures var s := Dead(x, status, chunks, Idle); Settled(s, KEY) && HasStatus(s, D, {status})
  {
  }

  lemma {:induction false} BuriedIsReachable(x: Setting, status: DocumentStatus, chunks: map<int, seq<ChunkRow>>, point: Point)
    requires x.maxAttempts == 1 && InHandle(point) && Reaches(x.env, INITIAL, Attempt(x, status, chunks, point, map[]))
    ensures Reaches(x.env, INITIAL, Dead(x, status, chunks, Working([Job(x)], Buried)))
  {
    hide Apply, Enabled, Reaches;
    var a, b := Attempt(x, status, chunks, point, map[]), Attempt(x, status, chunks, Raised, map[]);
    RaiseMoves(x, status, chunks, point);
    ReachesVia(x.env, a, Raise(0), b);
    FailDies(x, status, chunks);
    ReachesVia(x.env, b, Fail(0, ""), Dead(x, status, chunks, Working([Job(x)], Buried)));
  }

  lemma {:induction false} RefusedIsReachable(x: Setting, status: DocumentStatus, chunks: map<int, seq<ChunkRow>>, point: Point)
    requires x.maxAttempts == 1 && InHandle(point) && Reaches(x.env, INITIAL, Attempt(x, status, chunks, point, map[]))
    requires status in {Registered, Indexed}
    ensures Reaches(x.env, INITIAL, Dead(x, status, chunks, Idle))
  {
    hide Apply, Enabled, Reaches;
    BuriedIsReachable(x, status, chunks, point);
    FailureIsRefused(x, status, chunks);
    ReachesVia(x.env, Dead(x, status, chunks, Working([Job(x)], Buried)), CheckFailed(0), Dead(x, status, chunks, Idle));
  }

  /** The only attempt raises before it has marked the document INGESTING: the job is dead and the
      document stays REGISTERED. */
  lemma {:induction false} DeadCanBeRegistered(x: Setting)
    requires x.maxAttempts == 1
    ensures exists s :: Reaches(x.env, INITIAL, s) && Settled(s, KEY) && HasStatus(s, D, {Registered})
  {
    hide Reaches, Settled, HasStatus;
    AttemptIsReachable(x);
    RefusedIsReachable(x, Registered, map[], AtStart);
    DeadIsSettled(x, Registered, map[]);
  }

  lemma {:induction false} IndexedMoves(x: Setting)
    ensures var a := Attempt(x, Ingesting, Stored(x), IndexedChecked, map[]);
            Enabled(a, CommitIndexed(0)) && Apply(x.env, a, CommitIndexed(0)) == Attempt(x, Indexed, Stored(x), Finished, map[])
  {
    PointMoves(x, Ingesting, Stored(x), IndexedChecked, Finished);
    StatusMoves(x, Ingesting, Stored(x), Finished, map[], Indexed);
  }

  lemma {:induction false} FinishedIsReachable(x: Setting)
    requires x.Valid() && Accepted(x.env, x.text)
    ensures Reaches(x.env, INITIAL, Attempt(x, Indexed, Stored(x), Finished, map[]))
  {
    hide Apply, Enabled, Reaches;
    IndexingIsReachable(x);
    IndexedMoves(x);
    ReachesVia(x.env, Attempt(x, Ingesting, Stored(x), IndexedChecked, map[]), CommitIndexed(0),
               Attempt(x, Indexed, Stored(x), Finished, map[]));
  }

  /** `complete` raises after the only attempt has indexed the document: the job is dead and the
      document stays INDEXED. */
  lemma {:induction false} DeadCanBeIndexed(x: Setting)
    requires x.maxAttempts == 1 && Accepted(x.env, x.text)
    ensures exists s :: Reaches(x.env, INITIAL, s) && Settled(s, KEY) && HasStatus(s, D, {Indexed})
  {
    hide Reaches, Settled, HasStatus, Accepted;
    FinishedIsReachable(x);
    RefusedIsReachable(x, Indexed, Stored(x), Finished);
    DeadIsSettled(x, Indexed, Stored(x));
  }

  /** The only attempt raises and so does mark_failed: the job is dead and the document is left INGESTING. */
  lemma {:induction false} DeadCanBeIngesting(x: Setting)
    requires x.maxAttempts == 1
    ensures exists s :: Reaches(x.env, INITIAL, s) && LeftIngesting(s, KEY)
  {
    hide Apply, Enabled, Reaches, Settled, HasStatus;
    var a, b := Dead(x, Ingesting, map[], Working([Job(x)], Buried)), Dead(x, Ingesting, map[], Idle);
    MarkedIsReachable(x);
    BuriedIsReachable(x, Ingesting, map[], Marked);
    FailureIsSwallowed(x, Ingesting, map[]);
    ReachesVia(x.env, a, SwallowFailure(0), b);
    DeadIsSettled(x, Ingesting, map[]);
    assert LeftIngesting(b, KEY);
  }

  // ---- An orphaned job ----

  lemma {:induction false} CrashMoves(x: Setting)
    ensures var a := Attempt(x, Registered, map[], AtStart, map[]);
            Enabled(a, Crash(0)) && Orphaned(Apply(x.env, a, Crash(0)), KEY)
  {
    assert Apply(x.env, Attempt(x, Registered, map[], AtStart, map[]), Crash(0)).workers == map[];
  }

  /** A worker that crashes with a job orphans it. */
  lemma {:induction false} JobCanBeOrphaned(x: Setting)
    requires x.Valid()
    ensures exists s :: Reaches(x.env, INITIAL, s) && Orphaned(s, KEY)
  {
    hide Apply, Enabled, Reaches, Orphaned;
    var a := Attempt(x, Registered, map[], AtStart, map[]);
    AttemptIsReachable(x);
    CrashMoves(x);
    ReachesVia(x.env, a, Crash(0), Apply(x.env, a, Crash(0)));
  }
}
