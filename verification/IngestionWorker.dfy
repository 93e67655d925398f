/** The worker and the ingestion pipeline as they are written, against a database that other
    workers and requests use at the same time. Every execution is a run of the saga. */
module IngestionWorker {
  import opened Wrappers
  import opened Text
  import opened Documents
  import opened Jobs
  import opened Saga
  import opened SagaInvariant
  import opened SagaSteps
  import opened SagaRuns
  import opened SagaDatabase

  /** What others do before the worker's next interaction with the database, and how it goes. */
  datatype Fault = Smooth | Exception | Death

  datatype Turn = Turn(others: seq<Step>, fault: Fault)

  /** How a call ends for the worker. */
  datatype Progress = Fine | Threw | Died

  datatype Outcome = Succeeded | Retried | DeadLettered | Lost

  /** The points of `_process` around the two transitions of a document. */
  function PointBefore(target: DocumentStatus): Point {
    if target == Ingesting then AtStart else Written
  }

  function PointChecked(target: DocumentStatus): Point {
    if target == Ingesting then IngestingChecked else IndexedChecked
  }

  function PointAfter(target: DocumentStatus): Point {
    if target == Ingesting then Marked else Finished
  }

  function CheckStep(w: int, target: DocumentStatus): Step {
    if target == Ingesting then CheckIngesting(w) else CheckIndexed(w)
  }

  function CommitStep(w: int, target: DocumentStatus): Step {
    if target == Ingesting then CommitIngesting(w) else CommitIndexed(w)
  }

  predicate WorksAt(s: State, w: int, batch: seq<IngestionJob>, point: Point) {
    w in s.workers && s.workers[w] == Working(batch, point) && batch != []
  }

  lemma {:induction false} CheckEffect(env: Env, s: State, w: int, batch: seq<IngestionJob>, target: DocumentStatus)
    requires target in {Ingesting, Indexed} && WorksAt(s, w, batch, PointBefore(target))
    ensures Enabled(s, CheckStep(w, target))
    ensures Apply(env, s, CheckStep(w, target))
         == WithWorker(s, w, Working(batch, if MayMark(s, batch[0], target) then PointChecked(target) else Raised))
  {
  }

  lemma {:induction false} CommitEffect(env: Env, s: State, w: int, batch: seq<IngestionJob>, target: DocumentStatus)
    requires target in {Ingesting, Indexed} && WorksAt(s, w, batch, PointChecked(target)) && Inv(env, s)
    ensures Enabled(s, CommitStep(w, target)) && batch[0].key.document in s.docs
    ensures Apply(env, s, CommitStep(w, target))
         == WithStatus(WithWorker(s, w, Working(batch, PointAfter(target))), batch[0].key.document, target)
  {
    HeadFacts(env, s, w);
  }

  lemma {:induction false} OthersKeepWorker(env: Env, s: State, step: Step, w: int)
    requires Enabled(s, step) && w in s.workers && !(WorkerStep(step) && step.w == w)
    ensures w in Apply(env, s, step).workers && Apply(env, s, step).workers[w] == s.workers[w]
  {
    WorkersStay(env, s, step, w);
    WorkersMoveThemselves(env, s, step, w);
  }

  /** The document has been marked and nothing else has changed in the tables. */
  ghost predicate OnlyMarked(s: State, t: State, document: int, target: DocumentStatus) {
    && document in s.docs && t.docs == s.docs[document := s.docs[document].(status := target)]
    && t.content == s.content && t.jobs == s.jobs && t.chunks == s.chunks
  }

  ghost predicate TablesKept(s: State, t: State) {
    t.docs == s.docs && t.content == s.content && t.jobs == s.jobs && t.chunks == s.chunks
  }

  /** The part of `handle` that splits, embeds and builds the chunks; `Chunk.create` raises on a
      blank piece. */
  method BuildChunks(env: Env, job: IngestionJob, text: string) returns (r: Option<seq<ChunkRow>>)
    ensures r == if Accepted(env, text)
                 then Some(ChunkSet(env, job.key.document, job.tenant, job.collection, job.key.version, text)) else None
    ensures r.None? <==> exists i :: 0 <= i < |env.pieces(text)| && Blank(env.pieces(text)[i])
    ensures r.Some? ==> |r.value| == |env.pieces(text)|
    ensures r.Some? ==>
              forall i :: 0 <= i < |r.value| ==>
                var row, piece := r.value[i], env.pieces(text)[i];
                && row.document == job.key.document && row.version == job.key.version
                && row.tenant == job.tenant && row.collection == job.collection
                && row.ordinal == i && row.text == piece && row.embedding == env.embed(piece)
  {
    var pieces := env.pieces(text);
    ghost var all := ChunkSet(env, job.key.document, job.tenant, job.collection, job.key.version, text);
    var chunks: seq<ChunkRow> := [];
    for i := 0 to |pieces|
      invariant forall j :: 0 <= j < i ==> !Blank(pieces[j])
      invariant chunks == all[..i]
    {
      StripBlank(pieces[i]);
      if Strip(pieces[i]) == "" {
        return None;
      }
      chunks := chunks + [ChunkRow(job.key.document, job.tenant, job.collection, job.key.version,
                                   i, pieces[i], env.embed(pieces[i]))];
    }
    assert all[..|pieces|] == all;
    return Some(chunks);
  }

  ghost predicate ChunkerAccepts(env: Env) {
    forall text :: Accepted(env, text)
  }

  /** At the start of an attempt, mark_ingesting is allowed exactly for these states. */
  lemma {:induction false} StartMayMark(env: Env, s: State, w: int, batch: seq<IngestionJob>)
    requires Inv(env, s) && WorksAt(s, w, batch, AtStart)
    ensures var d := batch[0].key.document;
            d in s.docs && (MayMark(s, batch[0], Ingesting) <==> s.docs[d].status in {Registered, Indexed})
  {
    HeadFacts(env, s, w);
  }

  lemma {:induction false} MarkedMayMark(env: Env, s: State, w: int, batch: seq<IngestionJob>, point: Point)
    requires Inv(env, s) && WorksAt(s, w, batch, point) && InHandle(point)
    ensures var d := batch[0].key.document;
            d in s.docs && (s.docs[d].status == Ingesting ==> MayMark(s, batch[0], Indexed))
  {
    HeadFacts(env, s, w);
  }

  lemma {:induction false} ExtractEffect(env: Env, s: State, w: int, batch: seq<IngestionJob>)
    requires Inv(env, s) && WorksAt(s, w, batch, Marked)
    ensures var d := batch[0].key.document;
            Enabled(s, Extract(w)) && d in s.content && s.content[d].tenant == batch[0].tenant
            && Apply(env, s, Extract(w)) == WithWorker(s, w, Working(batch, Extracted(s.content[d].text)))
  {
    HeadFacts(env, s, w);
  }

  lemma {:induction false} IndexEffect(env: Env, s: State, w: int, batch: seq<IngestionJob>, text: string)
    requires WorksAt(s, w, batch, Extracted(text)) && Accepted(env, text)
    ensures var job := batch[0];
            var chunks := ChunkSet(env, job.key.document, job.tenant, job.collection, job.key.version, text);
            Enabled(s, Index(w))
            && Apply(env, s, Index(w))
               == WithWorker(s, w, Working(batch, Written)).(chunks := s.chunks[job.key.document := chunks])
  {
  }

  /** The documents after a job has been buried and nobody has interfered: mark_failed marks an
      INGESTING document and refuses every other one. */
  function DocsAfterBurial(docs: map<int, DocRow>, document: int): map<int, DocRow> {
    if document in docs && docs[document].status == Ingesting then docs[document := docs[document].(status := Failed)] else docs
  }

  /** What the queue holds about a job after an attempt. */
  ghost predicate Recorded(s: State, job: IngestionJob, o: Outcome) {
    o != Lost ==>
      && job.key in s.jobs
      && var row := s.jobs[job.key];
         match o
         case Succeeded => row.status == Completed && row.attempts == job.attempts
         case Retried => row.status == Pending && row.attempts == job.attempts + 1 < row.maxAttempts
         case _ => row.status == DeadLetter && row.attempts == job.attempts + 1 == row.maxAttempts
  }

  lemma {:induction false} CompleteEffect(env: Env, s: State, w: int, batch: seq<IngestionJob>)
    requires Inv(env, s) && WorksAt(s, w, batch, Finished)
    ensures Enabled(s, Complete(w))
    ensures var t := Apply(env, s, Complete(w));
            w in t.workers && t.workers[w] == NextJob(batch) && Recorded(t, batch[0], Succeeded)
  {
    HeadFacts(env, s, w);
  }

  lemma {:induction false} FailEffect(env: Env, s: State, w: int, batch: seq<IngestionJob>, error: string)
    requires Inv(env, s) && WorksAt(s, w, batch, Raised)
    ensures Enabled(s, Fail(w, error))
    ensures var t := Apply(env, s, Fail(w, error));
            && t.docs == s.docs && w in t.workers
            && t.workers[w] == (if DeadLetters(batch[0]) then Working(batch, Buried) else NextJob(batch))
            && Recorded(t, batch[0], if DeadLetters(batch[0]) then DeadLettered else Retried)
  {
    HeadFacts(env, s, w);
    FailedRowOk(s, batch[0], error);
  }

  lemma {:induction false} BuriedEffect(env: Env, s: State, w: int, batch: seq<IngestionJob>)
    requires Inv(env, s) && WorksAt(s, w, batch, Buried)
    ensures Enabled(s, CheckFailed(w))
    ensures Apply(env, s, CheckFailed(w))
         == WithWorker(s, w, if MayMark(s, batch[0], Failed) then Working(batch, FailedChecked) else NextJob(batch))
    ensures MayMark(s, batch[0], Failed) <==> HasStatus(s, batch[0].key.document, {Ingesting})
  {
    HeadFacts(env, s, w);
  }

  lemma {:induction false} FailedCheckedEffect(env: Env, s: State, w: int, batch: seq<IngestionJob>)
    requires Inv(env, s) && WorksAt(s, w, batch, FailedChecked)
    ensures Enabled(s, CommitFailed(w)) && batch[0].key.document in s.docs
    ensures Apply(env, s, CommitFailed(w))
         == WithStatus(WithWorker(s, w, NextJob(batch)), batch[0].key.document, Failed)
  {
    HeadFacts(env, s, w);
  }

  /** What was recorded as final stays recorded. */
  lemma {:induction false} StaysRecorded(env: Env, before: Trace, after: Trace, job: IngestionJob, o: Outcome)
    requires IsRun(env, before.states, before.steps) && IsRun(env, after.states, after.steps) && Extends(before, after)
    requires o in {Succeeded, DeadLettered} && Recorded(before.states[|before.steps|], job, o)
    ensures Recorded(after.states[|after.steps|], job, o)
  {
    ExtendsIsPrefix(before, after);
    TerminalForever(env, after.states, after.steps, |before.steps|, |after.steps|, job.key);
  }

  /** What a worker does with the rest of a batch. */
  function Remaining(rows: seq<IngestionJob>, i: nat): Saga.Worker
    requires i <= |rows|
  {
    if i == |rows| then Idle else Working(rows[i..], AtStart)
  }

  lemma {:induction false} NextRemains(rows: seq<IngestionJob>, i: nat)
    requires i < |rows|
    ensures NextJob(rows[i..]) == Remaining(rows, i + 1)
  {
    assert i + 1 < |rows| ==> rows[i..][1..] == rows[i + 1..];
  }

  lemma {:induction false} ClaimEffect(env: Env, s: State, w: int, rows: seq<IngestionJob>, readAt: int)
    requires Inv(env, s) && w in s.workers && s.workers[w] == Claiming(rows, readAt)
    ensures Enabled(s, CommitClaim(w))
    ensures w in Apply(env, s, CommitClaim(w)).workers && Apply(env, s, CommitClaim(w)).workers[w] == Remaining(rows, 0)
  {
    assert WorkerOk(s, s.workers[w]);
    forall i | 0 <= i < |rows| ensures rows[i].key in s.jobs {
      assert Locked(s, rows[i], readAt);
    }
    assert rows[0..] == rows;
  }

  class Worker {
    const id: int
    const batchSize: nat
    const db: Database
    var turns: seq<Turn>  // when they are used up, nothing interferes any more

    constructor (id: int, batchSize: nat, db: Database, turns: seq<Turn>)
      ensures this.id == id && this.batchSize == batchSize && this.db == db && this.turns == turns
    {
      this.id, this.batchSize, this.db, this.turns := id, batchSize, db, turns;
    }

    method Pause() returns (fault: Fault)
      requires db.Valid() && id in db.state.workers
      modifies this, db
      ensures db.Valid() && id in db.state.workers && db.state.workers[id] == old(db.state.workers[id])
      ensures Extends(old(db.trace), db.trace)
      ensures old(turns) == [] ==> fault == Smooth && turns == [] && db.state == old(db.state)
    {
      hide Inv, IsRun;
      if turns == [] {
        return Smooth;
      }
      var turn := turns[0];
      turns := turns[1..];
      for i := 0 to |turn.others|
        invariant db.Valid() && id in db.state.workers && db.state.workers[id] == old(db.state.workers[id])
        invariant Extends(old(db.trace), db.trace)
      {
        var step := turn.others[i];
        if !(WorkerStep(step) && step.w == id) && Enabled(db.state, step) {
          OthersKeepWorker(db.env, db.state, step, id);
          ghost var before := db.trace;
          db.Take(step);
          ExtendsOn(old(db.trace), before, db.trace);
        }
      }
      fault := turn.fault;
    }

    /** The worker is where a call leaves it. */
    ghost predicate Left(p: Progress, batch: seq<IngestionJob>, point: Point)
      reads this, db
    {
      db.Valid() &&
      match p
      case Fine => WorksAt(db.state, id, batch, point)
      case Threw => WorksAt(db.state, id, batch, Raised)
      case Died => id !in db.state.workers
    }

    /** Anything can happen before an interaction with the database: others take steps, an
        exception is raised, the worker dies. */
    method Interact(ghost batch: seq<IngestionJob>, ghost point: Point) returns (p: Progress)
      requires db.Valid() && WorksAt(db.state, id, batch, point) && InHandle(point)
      modifies this, db
      ensures Left(p, batch, point)
      ensures Extends(old(db.trace), db.trace)
      ensures old(turns) == [] ==> p == Fine && turns == [] && db.state == old(db.state)
    {
      hide Inv, IsRun, Extends;
      var fault := Pause();
      ghost var before := db.trace;
      match fault {
        case Smooth =>
          p := Fine;
        case Exception =>
          db.Take(Raise(id));
          p := Threw;
        case Death =>
          db.Take(Crash(id));
          p := Died;
      }
      ExtendsOn(old(db.trace), before, db.trace);
    }

    /** The read half of a transition: the document is looked up and the transition checked. */
    method Check(ghost batch: seq<IngestionJob>, target: DocumentStatus) returns (p: Progress)
      requires target in {Ingesting, Indexed}
      requires db.Valid() && WorksAt(db.state, id, batch, PointBefore(target))
      modifies this, db
      ensures Left(p, batch, PointChecked(target))
      ensures Extends(old(db.trace), db.trace)
      ensures old(turns) == [] ==> turns == [] && TablesKept(old(db.state), db.state)
      ensures old(turns) == [] ==> p == if MayMark(old(db.state), batch[0], target) then Fine else Threw
    {
      hide Apply, Inv, IsRun, Extends;
      p := Interact(batch, PointBefore(target));
      if p != Fine {
        return;
      }
      ghost var before := db.trace;
      CheckEffect(db.env, db.state, id, batch, target);
      db.Take(CheckStep(id, target));
      ExtendsOn(old(db.trace), before, db.trace);
      p := if db.state.workers[id].point == Raised then Threw else Fine;
    }

    /** The write half: the document is saved and the transaction committed. */
    method Commit(ghost batch: seq<IngestionJob>, target: DocumentStatus) returns (p: Progress)
      requires target in {Ingesting, Indexed}
      requires db.Valid() && WorksAt(db.state, id, batch, PointChecked(target))
      modifies this, db
      ensures Left(p, batch, PointAfter(target))
      ensures Extends(old(db.trace), db.trace)
      ensures old(turns) == [] ==> turns == [] && p == Fine && OnlyMarked(old(db.state), db.state, batch[0].key.document, target)
    {
      hide Apply, Inv, IsRun, Extends;
      p := Interact(batch, PointChecked(target));
      if p != Fine {
        return;
      }
      ghost var before := db.trace;
      CommitEffect(db.env, db.state, id, batch, target);
      db.Take(CommitStep(id, target));
      ExtendsOn(old(db.trace), before, db.trace);
    }

    /** `DocumentLifecycleService._transition` for mark_ingesting and mark_indexed. */
    method Transition(ghost batch: seq<IngestionJob>, target: DocumentStatus) returns (p: Progress)
      requires target in {Ingesting, Indexed}
      requires db.Valid() && WorksAt(db.state, id, batch, PointBefore(target))
      modifies this, db
      ensures Left(p, batch, PointAfter(target))
      ensures Extends(old(db.trace), db.trace)
      ensures old(turns) == [] ==> turns == [] && p == if MayMark(old(db.state), batch[0], target) then Fine else Threw
      ensures old(turns) == [] && p == Fine ==> OnlyMarked(old(db.state), db.state, batch[0].key.document, target)
      ensures old(turns) == [] && p == Threw ==> TablesKept(old(db.state), db.state)
    {
      hide Apply, Inv, IsRun, Extends;
      p := Check(batch, target);
      if p == Fine {
        ghost var before := db.trace;
        p := Commit(batch, target);
        ExtendsOn(old(db.trace), before, db.trace);
      }
    }

    /** `handle` after mark_ingesting, up to the content. */
    method ReadContent(ghost batch: seq<IngestionJob>) returns (p: Progress, text: string)
      requires db.Valid() && WorksAt(db.state, id, batch, Marked)
      modifies this, db
      ensures Left(p, batch, Extracted(text))
      ensures Extends(old(db.trace), db.trace)
      ensures old(turns) == [] ==> turns == [] && p == Fine && TablesKept(old(db.state), db.state)
    {
      hide Apply, Inv, IsRun, Extends;
      text := "";
      p := Interact(batch, Marked);
      if p != Fine {
        return;
      }
      ghost var before := db.trace;
      ExtractEffect(db.env, db.state, id, batch);
      db.Take(Extract(id));
      ExtendsOn(old(db.trace), before, db.trace);
      if db.state.workers[id].point == Raised {
        return Threw, text;
      }
      text := db.state.workers[id].point.text;
    }

    /** `handle` from the content to the commit of the chunks. */
    method StoreChunks(job: IngestionJob, ghost batch: seq<IngestionJob>, text: string) returns (p: Progress)
      requires db.Valid() && WorksAt(db.state, id, batch, Extracted(text)) && batch[0] == job
      modifies this, db
      ensures Left(p, batch, Written)
      ensures Extends(old(db.trace), db.trace)
      ensures old(turns) == [] ==> turns == [] && p != Died && (p == Fine <==> Accepted(db.env, text))
      ensures old(turns) == [] ==> db.state.docs == old(db.state.docs) && db.state.jobs == old(db.state.jobs)
    {
      hide Inv, IsRun, Extends;
      p := Interact(batch, Extracted(text));
      if p != Fine {
        return;
      }
      ghost var before := db.trace;
      var built := BuildChunks(db.env, job, text);
      if built.None? {
        db.Take(Raise(id));
        p := Threw;
      } else {
        IndexEffect(db.env, db.state, id, batch, text);
        db.Take(Index(id));
      }
      ExtendsOn(old(db.trace), before, db.trace);
    }

    /** `handle` between the two transitions: split, embed and store the content. */
    method StoreContent(job: IngestionJob, ghost batch: seq<IngestionJob>) returns (p: Progress)
      requires db.Valid() && WorksAt(db.state, id, batch, Marked) && batch[0] == job
      modifies this, db
      ensures Left(p, batch, Written)
      ensures Extends(old(db.trace), db.trace)
      ensures old(turns) == [] && ChunkerAccepts(db.env) ==> turns == [] && p == Fine
      ensures old(turns) == [] && ChunkerAccepts(db.env) ==> db.state.docs == old(db.state.docs)
    {
      hide Apply, Inv, IsRun, Extends;
      var text;
      p, text := ReadContent(batch);
      if p == Fine {
        ghost var before := db.trace;
        p := StoreChunks(job, batch, text);
        ExtendsOn(old(db.trace), before, db.trace);
      }
    }

    /** `handle` after mark_ingesting. */
    method IndexContent(job: IngestionJob, ghost batch: seq<IngestionJob>) returns (p: Progress)
      requires db.Valid() && WorksAt(db.state, id, batch, Marked) && batch[0] == job
      modifies this, db
      ensures Left(p, batch, Finished)
      ensures Extends(old(db.trace), db.trace)
      ensures old(turns) == [] && ChunkerAccepts(db.env) ==> turns == [] && p != Died
      ensures old(turns) == [] && ChunkerAccepts(db.env) && HasStatus(old(db.state), job.key.document, {Ingesting}) ==> p == Fine
    {
      hide Apply, Inv, IsRun, Extends;
      p := StoreContent(job, batch);
      if p == Fine {
        ghost var before := db.trace;
        MarkedMayMark(db.env, db.state, id, batch, Written);
        p := Transition(batch, Indexed);
        ExtendsOn(old(db.trace), before, db.trace);
      }
    }

    /** `IngestDocumentHandler.handle`. */
    method Handle(job: IngestionJob, ghost batch: seq<IngestionJob>) returns (p: Progress)
      requires db.Valid() && WorksAt(db.state, id, batch, AtStart) && batch[0] == job
      modifies this, db
      ensures Left(p, batch, Finished)
      ensures Extends(old(db.trace), db.trace)
      ensures old(turns) == [] && ChunkerAccepts(db.env) ==> turns == [] && p != Died
      ensures old(turns) == [] && ChunkerAccepts(db.env) ==>
                (p == Fine <==> HasStatus(old(db.state), job.key.document, {Registered, Indexed}))
      ensures old(turns) == [] && ChunkerAccepts(db.env) && p == Threw ==> TablesKept(old(db.state), db.state)
    {
      hide Apply, Inv, IsRun, Extends;
      StartMayMark(db.env, db.state, id, batch);
      p := Transition(batch, Ingesting);
      if p == Fine {
        ghost var before := db.trace;
        p := IndexContent(job, batch);
        ExtendsOn(old(db.trace), before, db.trace);
      }
    }

    /** `handle`, then `complete`. */
    method Attempt(job: IngestionJob, ghost batch: seq<IngestionJob>) returns (p: Progress)
      requires db.Valid() && WorksAt(db.state, id, batch, AtStart) && batch[0] == job
      modifies this, db
      ensures db.Valid() && Extends(old(db.trace), db.trace)
      ensures p == Fine ==> id in db.state.workers && db.state.workers[id] == NextJob(batch) && Recorded(db.state, job, Succeeded)
      ensures p != Fine ==> Left(p, batch, Raised)
      ensures old(turns) == [] && ChunkerAccepts(db.env) ==> turns == [] && p != Died
      ensures old(turns) == [] && ChunkerAccepts(db.env) ==>
                (p == Fine <==> HasStatus(old(db.state), job.key.document, {Registered, Indexed}))
      ensures old(turns) == [] && ChunkerAccepts(db.env) && p == Threw ==> TablesKept(old(db.state), db.state)
    {
      hide Apply, Inv, IsRun, Extends;
      p := Handle(job, batch);
      if p == Fine {
        ghost var before := db.trace;
        p := TryComplete(batch);
        ExtendsOn(old(db.trace), before, db.trace);
      }
    }

    method TryComplete(ghost batch: seq<IngestionJob>) returns (p: Progress)
      requires db.Valid() && WorksAt(db.state, id, batch, Finished)
      modifies this, db
      ensures db.Valid() && Extends(old(db.trace), db.trace)
      ensures p == Fine ==> id in db.state.workers && db.state.workers[id] == NextJob(batch) && Recorded(db.state, batch[0], Succeeded)
      ensures p != Fine ==> Left(p, batch, Raised)
      ensures old(turns) == [] ==> turns == [] && p == Fine
    {
      hide Apply, Inv, IsRun, Extends;
      p := Interact(batch, Finished);
      if p == Fine {
        ghost var before := db.trace;
        CompleteEffect(db.env, db.state, id, batch);
        db.Take(Complete(id));
        ExtendsOn(old(db.trace), before, db.trace);
      }
    }

    /** The worker has gone on to its next job, or is gone. */
    ghost predicate MovedOn(o: Outcome, batch: seq<IngestionJob>)
      reads this, db
    {
      && db.Valid()
      && (if o == Lost then id !in db.state.workers
          else id in db.state.workers && db.state.workers[id] == NextJob(batch))
    }

    /** The write half of mark_failed; its exceptions are logged and swallowed. */
    method CommitFailure(ghost batch: seq<IngestionJob>) returns (o: Outcome)
      requires db.Valid() && WorksAt(db.state, id, batch, FailedChecked)
      modifies this, db
      ensures o in {Lost, DeadLettered} && MovedOn(o, batch) && Extends(old(db.trace), db.trace)
      ensures old(turns) == [] ==> turns == [] && o != Lost
      ensures old(turns) == [] ==>
                var d, docs := batch[0].key.document, old(db.state).docs;
                d in docs && db.state.docs == docs[d := docs[d].(status := Failed)]
    {
      hide Inv, IsRun, Extends;
      var fault := Pause();
      ghost var before := db.trace;
      o := DeadLettered;
      match fault {
        case Smooth =>
          FailedCheckedEffect(db.env, db.state, id, batch);
          db.Take(CommitFailed(id));
        case Exception =>
          db.Take(SwallowFailure(id));
        case Death =>
          db.Take(Crash(id));
          o := Lost;
      }
      ExtendsOn(old(db.trace), before, db.trace);
    }

    /** mark_failed up to the check of the transition. */
    method CheckFailure(job: IngestionJob, ghost batch: seq<IngestionJob>) returns (o: Outcome, checked: bool)
      requires db.Valid() && WorksAt(db.state, id, batch, Buried) && batch[0] == job
      modifies this, db
      ensures db.Valid() && Extends(old(db.trace), db.trace)
      ensures if checked then WorksAt(db.state, id, batch, FailedChecked) else o in {Lost, DeadLettered} && MovedOn(o, batch)
      ensures old(turns) == [] ==> turns == [] && o != Lost
      ensures old(turns) == [] ==> db.state.docs == old(db.state).docs
      ensures old(turns) == [] ==> (checked <==> HasStatus(old(db.state), job.key.document, {Ingesting}))
    {
      hide Inv, IsRun, Extends;
      var fault := Pause();
      ghost var before := db.trace;
      o, checked := DeadLettered, false;
      match fault {
        case Smooth =>
          BuriedEffect(db.env, db.state, id, batch);
          checked := MayMark(db.state, job, Failed);
          db.Take(CheckFailed(id));
        case Exception =>
          db.Take(SwallowFailure(id));
        case Death =>
          db.Take(Crash(id));
          o := Lost;
      }
      ExtendsOn(old(db.trace), before, db.trace);
    }

    method MarkFailed(job: IngestionJob, ghost batch: seq<IngestionJob>) returns (o: Outcome)
      requires db.Valid() && WorksAt(db.state, id, batch, Buried) && batch[0] == job && Recorded(db.state, job, DeadLettered)
      modifies this, db
      ensures o in {Lost, DeadLettered} && MovedOn(o, batch) && Recorded(db.state, job, DeadLettered)
      ensures Extends(old(db.trace), db.trace)
      ensures old(turns) == [] ==> turns == [] && o != Lost
      ensures old(turns) == [] ==> db.state.docs == DocsAfterBurial(old(db.state).docs, job.key.document)
    {
      hide Apply, Inv, IsRun, Extends;
      var checked;
      o, checked := CheckFailure(job, batch);
      if checked {
        ghost var before := db.trace;
        o := CommitFailure(batch);
        ExtendsOn(old(db.trace), before, db.trace);
      }
      StaysRecorded(db.env, old(db.trace), db.trace, job, DeadLettered);
    }

    /** The exception handler of `_process`. An exception of `fail` itself ends the worker. */
    method RecordFailure(job: IngestionJob, error: string, ghost batch: seq<IngestionJob>) returns (o: Outcome)
      requires db.Valid() && WorksAt(db.state, id, batch, Raised) && batch[0] == job
      modifies this, db
      ensures o != Succeeded && MovedOn(o, batch) && Recorded(db.state, job, o)
      ensures Extends(old(db.trace), db.trace)
      ensures old(turns) == [] ==> turns == [] && o == if DeadLetters(job) then DeadLettered else Retried
      ensures old(turns) == [] ==>
                var docs := old(db.state).docs;
                db.state.docs == if o == DeadLettered then DocsAfterBurial(docs, job.key.document) else docs
    {
      hide Inv, IsRun, Extends;
      var fault := Pause();
      ghost var before := db.trace;
      if fault != Smooth {
        db.Take(Crash(id));
        ExtendsOn(old(db.trace), before, db.trace);
        return Lost;
      }
      FailEffect(db.env, db.state, id, batch, error);
      db.Take(Fail(id, error));
      ExtendsOn(old(db.trace), before, db.trace);
      o := Retried;
      if DeadLetters(job) {
        before := db.trace;
        o := MarkFailed(job, batch);
        ExtendsOn(old(db.trace), before, db.trace);
      }
    }

    /** `_process`. Whatever others do meanwhile, the job ends up completed, pending again with one
        more attempt, or dead, or the worker is gone. Left alone, it completes if and only if it
        finds its document REGISTERED or INDEXED, and a last attempt that fails marks an INGESTING
        document FAILED and leaves any other one alone. */
    method Process(job: IngestionJob, error: string, ghost batch: seq<IngestionJob>) returns (o: Outcome)
      requires db.Valid() && WorksAt(db.state, id, batch, AtStart) && batch[0] == job
      modifies this, db
      ensures MovedOn(o, batch) && Recorded(db.state, job, o)
      ensures Extends(old(db.trace), db.trace)
      ensures old(turns) == [] && ChunkerAccepts(db.env) ==>
                turns == []
                && o == if HasStatus(old(db.state), job.key.document, {Registered, Indexed}) then Succeeded
                        else if DeadLetters(job) then DeadLettered else Retried
      ensures old(turns) == [] && ChunkerAccepts(db.env) && o == DeadLettered ==>
                db.state.docs == DocsAfterBurial(old(db.state).docs, job.key.document)
      ensures old(turns) == [] && ChunkerAccepts(db.env) && o == Retried ==> db.state.docs == old(db.state).docs
    {
      hide Apply, Inv, IsRun, Extends;
      var p := Attempt(job, batch);
      if p == Fine {
        return Succeeded;
      } else if p == Died {
        return Lost;
      }
      ghost var before := db.trace;
      o := RecordFailure(job, error, batch);
      ExtendsOn(old(db.trace), before, db.trace);
    }

    /** The jobs of the batch that have got a final state. */
    ghost predicate Settled(rows: seq<IngestionJob>, outcomes: seq<Outcome>)
      reads db
    {
      |outcomes| <= |rows|
      && forall i :: 0 <= i < |outcomes| && outcomes[i] in {Succeeded, DeadLettered} ==> Recorded(db.state, rows[i], outcomes[i])
    }

    /** `dequeue`, with the rows that its query returned. */
    method Dequeue(rows: seq<IngestionJob>) returns (p: Progress)
      requires db.Valid() && id in db.state.workers && db.state.workers[id].Idle?
      requires IsSelection(db.state.jobs, LockedKeys(db.state), db.state.clock, batchSize, rows)
      modifies this, db
      ensures db.Valid() && Extends(old(db.trace), db.trace)
      ensures if p == Fine then id in db.state.workers && db.state.workers[id] == Remaining(rows, 0)
              else id !in db.state.workers
    {
      hide Inv, IsRun, Extends;
      ghost var readAt := db.state.clock;
      db.Take(SelectRows(id, batchSize, rows));
      ghost var selected := db.trace;
      var fault := Pause();
      ghost var before := db.trace;
      ExtendsOn(old(db.trace), selected, before);
      if fault != Smooth {
        db.Take(Crash(id));
        p := Died;
      } else {
        ClaimEffect(db.env, db.state, id, rows, readAt);
        db.Take(CommitClaim(id));
        p := Fine;
      }
      ExtendsOn(old(db.trace), before, db.trace);
    }

    /** `_drain_once`: claims a batch and processes its jobs one after the other. Unless the worker
        dies, every job of the batch gets an outcome, and those that are final are in the queue
        when it returns. */
    method DrainOnce(rows: seq<IngestionJob>, error: string) returns (outcomes: seq<Outcome>)
      requires db.Valid() && id in db.state.workers && db.state.workers[id].Idle?
      requires IsSelection(db.state.jobs, LockedKeys(db.state), db.state.clock, batchSize, rows)
      modifies this, db
      ensures db.Valid() && Extends(old(db.trace), db.trace)
      ensures Settled(rows, outcomes)
      ensures id in db.state.workers ==> db.state.workers[id].Idle? && |outcomes| == |rows| && Lost !in outcomes
    {
      hide Inv, Apply, Enabled, Recorded, Extends;
      outcomes := [];
      var p := Dequeue(rows);
      if p != Fine {
        return;
      }
      for i := 0 to |rows|
        invariant db.Valid() && Extends(old(db.trace), db.trace)
        invariant id in db.state.workers && db.state.workers[id] == Remaining(rows, i)
        invariant |outcomes| == i && Settled(rows, outcomes) && Lost !in outcomes
      {
        ghost var before := db.trace;
        var o := Process(rows[i], error, rows[i..]);
        ExtendsOn(old(db.trace), before, db.trace);
        NextRemains(rows, i);
        forall j | 0 <= j < i && outcomes[j] in {Succeeded, DeadLettered} ensures Recorded(db.state, rows[j], outcomes[j]) {
          StaysRecorded(db.env, before, db.trace, rows[j], outcomes[j]);
        }
        if o == Lost {
          return;
        }
        outcomes := outcomes + [o];
      }
    }
  }
}
