/** What holds over whole runs of the saga. */
module SagaRuns {
  import opened Documents
  import opened Jobs
  import opened Saga
  import opened SagaInvariant
  import opened SagaSteps

  /** A run that starts in a given state. */
  ghost predicate RunFrom(env: Env, s: State, states: seq<State>, steps: seq<Step>) {
    && |states| == |steps| + 1
    && states[0] == s
    && forall i :: 0 <= i < |steps| ==> Enabled(states[i], steps[i]) && states[i + 1] == Apply(env, states[i], steps[i])
  }

  lemma {:induction false} RunFromKeepsInv(env: Env, s: State, states: seq<State>, steps: seq<Step>, i: nat)
    requires Inv(env, s) && RunFrom(env, s, states, steps) && i < |states|
    ensures Inv(env, states[i])
  {
    hide Apply, Enabled, Inv;
    if i > 0 {
      RunFromKeepsInv(env, s, states, steps, i - 1);
      StepKeepsInv(env, states[i - 1], steps[i - 1]);
    }
  }

  ghost predicate HasStatus(s: State, document: int, statuses: set<DocumentStatus>) {
    document in s.docs && s.docs[document].status in statuses
  }

  // ---- Reachable states ----

  ghost predicate Reaches(env: Env, s: State, t: State) {
    exists states, steps :: RunFrom(env, s, states, steps) && states[|steps|] == t
  }

  lemma {:induction false} ReachesItself(env: Env, s: State)
    ensures Reaches(env, s, s)
  {
    var steps: seq<Step> := [];
    assert RunFrom(env, s, [s], steps) && [s][|steps|] == s;
  }

  /** A step and then a run. */
  lemma {:induction false} ReachesFirst(env: Env, s: State, step: Step, t: State)
    requires Enabled(s, step) && Reaches(env, Apply(env, s, step), t)
    ensures Reaches(env, s, t)
  {
    hide Apply, Enabled;
    var states, steps :| RunFrom(env, Apply(env, s, step), states, steps) && states[|steps|] == t;
    var states', steps' := [s] + states, [step] + steps;
    forall i | 0 <= i < |steps'|
      ensures Enabled(states'[i], steps'[i]) && states'[i + 1] == Apply(env, states'[i], steps'[i])
    {
      if i > 0 {
        assert states'[i] == states[i - 1] && steps'[i] == steps[i - 1];
      }
    }
    assert RunFrom(env, s, states', steps');
    assert states'[|steps'|] == states[|steps|];
  }

  /** A run and then a step. */
  lemma {:induction false} ReachesOneMore(env: Env, s: State, t: State, step: Step)
    requires Reaches(env, s, t) && Enabled(t, step)
    ensures Reaches(env, s, Apply(env, t, step))
  {
    hide Apply, Enabled;
    var states, steps :| RunFrom(env, s, states, steps) && states[|steps|] == t;
    var states', steps' := states + [Apply(env, t, step)], steps + [step];
    assert RunFrom(env, s, states', steps');
    assert states'[|steps'|] == Apply(env, t, step);
  }

  lemma {:induction false} ReachesOn(env: Env, s: State, t: State, u: State)
    requires Reaches(env, s, t) && Reaches(env, t, u)
    ensures Reaches(env, s, u)
  {
    var states, steps :| RunFrom(env, t, states, steps) && states[|steps|] == u;
    RunReaches(env, s, t, states, steps, |steps|);
  }

  lemma {:induction false} RunReaches(env: Env, s: State, t: State, states: seq<State>, steps: seq<Step>, i: nat)
    requires Reaches(env, s, t) && RunFrom(env, t, states, steps) && i <= |steps|
    ensures Reaches(env, s, states[i])
  {
    hide Apply, Enabled, Reaches;
    if i > 0 {
      RunReaches(env, s, t, states, steps, i - 1);
      ReachesOneMore(env, s, states[i - 1], steps[i - 1]);
    }
  }

  lemma {:induction false} ReachedInv(env: Env, s: State, t: State)
    requires Inv(env, s) && Reaches(env, s, t)
    ensures Inv(env, t)
  {
    hide Inv;
    var states, steps :| RunFrom(env, s, states, steps) && states[|steps|] == t;
    RunFromKeepsInv(env, s, states, steps, |steps|);
  }

  // ---- The search index ----

  /** The stored chunks of a document are the pieces of its stored text: ordinals 0..n-1, each
      piece once, each with its embedding and with the tenant, the collection and the version of
      the document. */
  ghost predicate IndexedExactly(env: Env, s: State, d: int) {
    && d in s.docs && d in s.content && d in s.chunks
    && var pieces := env.pieces(s.content[d].text);
       && |s.chunks[d]| == |pieces|
       && forall i :: 0 <= i < |pieces| ==>
            var row := s.chunks[d][i];
            && row.document == d && row.ordinal == i && row.text == pieces[i] && row.embedding == env.embed(pieces[i])
            && row.tenant == s.docs[d].tenant && row.collection == s.docs[d].collection && row.version == s.docs[d].version
  }

  /** In every reachable state a document has no chunks or exactly those of its content, whatever
      workers, retries, crashes, uploads and deletes have done; an indexed document has them, a
      completed job's document is indexed or deleted and has them, and a failed
      document's job is dead. */
  lemma {:induction false} IndexConsistent(env: Env, states: seq<State>, steps: seq<Step>, i: nat, d: int)
    requires IsRun(env, states, steps) && i < |states| && d in states[i].docs
    ensures var s := states[i];
            && (d in s.chunks ==> IndexedExactly(env, s, d))
            && (s.docs[d].status == Indexed ==> IndexedExactly(env, s, d))
            && (Key(d) in s.jobs && s.jobs[Key(d)].status == Completed ==>
                  s.docs[d].status in {Indexed, Deleted} && IndexedExactly(env, s, d))
            && (s.docs[d].status == Failed ==> Key(d) in s.jobs && s.jobs[Key(d)].status == DeadLetter)
  {
    RunKeepsInv(env, states, steps, i);
    assert DocOk(env, states[i], d);
    assert Key(d) in states[i].jobs ==> JobOk(states[i], Key(d));
  }

  /** The only steps that change the row of a job. */
  ghost predicate ChangesJob(s: State, step: Step, k: JobKey) {
    || (step.CommitClaim? && step.w in s.workers && k in Claims(s.workers[step.w]))
    || ((step.Complete? || step.Fail?) && step.w in s.workers && s.workers[step.w].Working?
        && s.workers[step.w].batch != [] && Head(s, step.w).key == k)
  }

  /** The steps of requests and of time; all others are steps of a worker. */
  predicate WorkerStep(step: Step) {
    !(step.Register? || step.CheckUpload? || step.StoreContent? || step.Enqueue? || step.CheckDelete?
      || step.CommitDelete? || step.LoseRequest? || step.Tick?)
  }

  /** The steps inside `handle`. */
  ghost predicate HandleStep(step: Step) {
    step.CheckIngesting? || step.CommitIngesting? || step.Extract? || step.Index? || step.CheckIndexed?
    || step.CommitIndexed? || step.Raise?
  }

  ghost predicate JobStep(step: Step) {
    step.Enqueue? || step.CommitClaim? || step.Complete? || step.Fail?
  }

  lemma {:induction false} ApiStepsKeep(env: Env, s: State, step: Step)
    requires Enabled(s, step) && !WorkerStep(step)
    ensures Apply(env, s, step).workers == s.workers
    ensures !step.Enqueue? ==> Apply(env, s, step).jobs == s.jobs && Apply(env, s, step).claims == s.claims
  {
  }

  /** Indexing moves the worker on or raises, and changes only chunks besides. */
  lemma {:induction false} IndexMoves(env: Env, s: State, w: int)
    requires Enabled(s, Index(w))
    ensures w in s.workers && s.workers[w].Working? && s.workers[w].batch != [] && s.workers[w].point.Extracted?
    ensures var t := AfterIndex(env, s, w);
            t.jobs == s.jobs && t.claims == s.claims && t.docs == s.docs && t.content == s.content && t.requests == s.requests
            && t.workers in {At(s, w, Written).workers, At(s, w, Raised).workers}
  {
    if !Accepted(env, s.workers[w].point.text) {
      assert AfterIndex(env, s, w) == At(s, w, Raised);
    }
  }

  lemma {:induction false} HandleStepsKeep(env: Env, s: State, step: Step)
    requires Enabled(s, step) && HandleStep(step)
    ensures Apply(env, s, step).jobs == s.jobs && Apply(env, s, step).claims == s.claims
    ensures forall x :: x in Apply(env, s, step).workers && x != step.w
              ==> x in s.workers && Apply(env, s, step).workers[x] == s.workers[x]
  {
    match step
    case Index(w) => IndexMoves(env, s, w);
    case CheckIngesting(_) =>
    case CommitIngesting(_) =>
    case Extract(_) =>
    case CheckIndexed(_) =>
    case CommitIndexed(_) =>
    case Raise(_) =>
  }

  lemma {:induction false} OtherStepsKeepTables(env: Env, s: State, step: Step)
    requires Enabled(s, step) && WorkerStep(step) && !HandleStep(step) && !JobStep(step)
    ensures Apply(env, s, step).jobs == s.jobs && Apply(env, s, step).claims == s.claims
  {
    match step
    case StartWorker(_) =>
    case SelectRows(_, _, _) =>
    case CheckFailed(_) =>
    case CommitFailed(_) =>
    case SwallowFailure(_) =>
    case Crash(_) =>
  }

  lemma {:induction false} QueueStepsKeepWorkers(env: Env, s: State, step: Step, x: int)
    requires Enabled(s, step) && (step.SelectRows? || step.CommitClaim? || step.Complete? || step.Fail?)
    requires x in Apply(env, s, step).workers && x != step.w
    ensures x in s.workers && Apply(env, s, step).workers[x] == s.workers[x]
  {
    match step
    case SelectRows(_, _, _) =>
    case CommitClaim(_) =>
    case Complete(_) =>
    case Fail(_, _) =>
  }

  lemma {:induction false} CheckFailedKeepsWorkers(env: Env, s: State, w: int, x: int)
    requires Enabled(s, CheckFailed(w)) && x in Apply(env, s, CheckFailed(w)).workers && x != w
    ensures x in s.workers && Apply(env, s, CheckFailed(w)).workers[x] == s.workers[x]
  {
    hide NextJob, MayMark;
  }

  lemma {:induction false} BuriedStepsKeepWorkers(env: Env, s: State, step: Step, x: int)
    requires Enabled(s, step) && (step.CommitFailed? || step.SwallowFailure?)
    requires x in Apply(env, s, step).workers && x != step.w
    ensures x in s.workers && Apply(env, s, step).workers[x] == s.workers[x]
  {
    match step
    case CommitFailed(_) =>
    case SwallowFailure(_) =>
  }

  lemma {:induction false} OtherStepsKeepWorkers(env: Env, s: State, step: Step, x: int)
    requires Enabled(s, step) && WorkerStep(step) && !HandleStep(step)
    requires x in Apply(env, s, step).workers && x != step.w
    ensures x in s.workers && Apply(env, s, step).workers[x] == s.workers[x]
  {
    if step.SelectRows? || step.CommitClaim? || step.Complete? || step.Fail? {
      hide Apply, Enabled;
      QueueStepsKeepWorkers(env, s, step, x);
    } else if step.CheckFailed? {
      hide Apply, Enabled;
      CheckFailedKeepsWorkers(env, s, step.w, x);
    } else if step.CommitFailed? || step.SwallowFailure? {
      hide Apply, Enabled;
      BuriedStepsKeepWorkers(env, s, step, x);
    } else {
      match step
      case StartWorker(_) =>
      case Crash(_) =>
    }
  }

  lemma {:induction false} OtherStepsKeepJobs(env: Env, s: State, step: Step)
    requires Enabled(s, step) && !JobStep(step)
    ensures Apply(env, s, step).jobs == s.jobs && Apply(env, s, step).claims == s.claims
  {
    if !WorkerStep(step) {
      ApiStepsKeep(env, s, step);
    } else if HandleStep(step) {
      HandleStepsKeep(env, s, step);
    } else {
      OtherStepsKeepTables(env, s, step);
    }
  }

  /** Nothing of a job changes. */
  ghost predicate SameJob(s: State, t: State, k: JobKey) {
    k in s.jobs && k in t.jobs && t.jobs[k] == s.jobs[k] && k in s.claims && k in t.claims && t.claims[k] == s.claims[k]
  }

  lemma {:induction false} JobHasClaims(env: Env, s: State, k: JobKey)
    requires Inv(env, s) && k in s.jobs
    ensures k in s.claims && JobOk(s, k)
  {
    assert JobOk(s, k);
  }

  lemma {:induction false} JobStepsKeepOthers(env: Env, s: State, step: Step, k: JobKey)
    requires Enabled(s, step) && (step.Enqueue? || step.Complete? || step.Fail?) && k in s.jobs && k in s.claims
    requires !ChangesJob(s, step, k)
    ensures SameJob(s, Apply(env, s, step), k)
  {
    match step
    case Enqueue(_, _) =>
    case Complete(_) =>
    case Fail(_, _) =>
  }

  lemma {:induction false} JobsStay(env: Env, s: State, step: Step, k: JobKey)
    requires Enabled(s, step) && JobStep(step) && k in s.jobs
    ensures k in Apply(env, s, step).jobs
  {
    match step
    case Enqueue(_, _) =>
    case CommitClaim(_) =>
    case Complete(_) =>
    case Fail(_, _) =>
  }

  lemma {:induction false} JobsOnlyChangeByHolders(env: Env, s: State, step: Step, k: JobKey)
    requires Inv(env, s) && Enabled(s, step) && k in s.jobs
    ensures k in Apply(env, s, step).jobs && (ChangesJob(s, step, k) || SameJob(s, Apply(env, s, step), k))
  {
    hide Apply;
    JobHasClaims(env, s, k);
    if !JobStep(step) {
      OtherStepsKeepJobs(env, s, step);
    } else {
      JobsStay(env, s, step, k);
      if !ChangesJob(s, step, k) {
        if step.CommitClaim? {
          UnclaimedKept(env, s, Apply(env, s, step), step.w, k);
        } else {
          JobStepsKeepOthers(env, s, step, k);
        }
      }
    }
  }

  /** Rows that are being claimed are pending. */
  lemma {:induction false} ClaimingIsPending(env: Env, s: State, w: int, k: JobKey)
    requires Inv(env, s) && w in s.workers && s.workers[w].Claiming? && k in Claims(s.workers[w])
    ensures k in s.jobs && s.jobs[k].status == Pending
  {
    var rows, readAt := s.workers[w].rows, s.workers[w].readAt;
    assert WorkerOk(s, s.workers[w]);
    var i :| 0 <= i < |rows| && rows[i].key == k;
    assert Locked(s, rows[i], readAt);
  }

  /** A step that changes a job holds it, so the job is pending or being processed. */
  lemma {:induction false} ChangedIsLive(env: Env, s: State, step: Step, k: JobKey)
    requires Inv(env, s) && Enabled(s, step) && ChangesJob(s, step, k)
    ensures k in s.jobs && !s.jobs[k].Terminal()
  {
    match step
    case CommitClaim(w) => ClaimingIsPending(env, s, w, k);
    case Complete(w) => HeadFacts(env, s, w);
    case Fail(w, _) => HeadFacts(env, s, w);
  }

  /** A row that is completed or dead never changes again. */
  lemma {:induction false} TerminalRowsStay(env: Env, s: State, step: Step, k: JobKey)
    requires Inv(env, s) && Enabled(s, step) && k in s.jobs && s.jobs[k].Terminal()
    ensures k in Apply(env, s, step).jobs && Apply(env, s, step).jobs[k] == s.jobs[k]
  {
    hide Apply, Inv;
    JobsOnlyChangeByHolders(env, s, step, k);
    if ChangesJob(s, step, k) {
      ChangedIsLive(env, s, step, k);
    }
  }

  lemma {:induction false} TerminalForever(env: Env, states: seq<State>, steps: seq<Step>, i: nat, j: nat, k: JobKey)
    requires IsRun(env, states, steps) && i <= j < |states|
    requires k in states[i].jobs && states[i].jobs[k].Terminal()
    ensures k in states[j].jobs && states[j].jobs[k] == states[i].jobs[k]
  {
    hide Apply, Enabled, Inv;
    if i < j {
      TerminalForever(env, states, steps, i, j - 1, k);
      RunKeepsInv(env, states, steps, j - 1);
      TerminalRowsStay(env, states[j - 1], steps[j - 1], k);
    }
  }

  /** Once a job is completed, its document stays indexed or deleted, with exactly its chunks, in
      every later state. */
  lemma {:induction false} CompletedStaysIndexed(env: Env, states: seq<State>, steps: seq<Step>, i: nat, j: nat, k: JobKey)
    requires IsRun(env, states, steps) && i <= j < |states|
    requires k in states[i].jobs && states[i].jobs[k].status == Completed
    ensures k in states[j].jobs && states[j].jobs[k] == states[i].jobs[k]
    ensures k.document in states[j].docs && states[j].docs[k.document].status in {Indexed, Deleted}
    ensures IndexedExactly(env, states[j], k.document)
  {
    TerminalForever(env, states, steps, i, j, k);
    RunKeepsInv(env, states, steps, j);
    assert JobOk(states[j], k);
    IndexConsistent(env, states, steps, j, k.document);
  }

  // ---- Claims ----

  /** The jobs a worker has locked or is processing. */
  ghost predicate Carries(worker: Worker, job: IngestionJob) {
    match worker
    case Idle => false
    case Claiming(rows, _) => job in rows
    case Working(batch, _) => job in batch
  }

  /** No two workers have a job in common, and what a worker carries of a job that has not been
      recorded as failed is what its row holds: PENDING while it is locked, PROCESSING afterwards. */
  lemma {:induction false} ClaimsAreExclusive(env: Env, states: seq<State>, steps: seq<Step>, i: nat, w1: int, w2: int, job: IngestionJob)
    requires IsRun(env, states, steps) && i < |states| && w1 in states[i].workers && w2 in states[i].workers
    ensures w1 != w2 ==> Claims(states[i].workers[w1]) !! Claims(states[i].workers[w2])
    ensures Carries(states[i].workers[w1], job) ==>
              && job.key in states[i].jobs
              && (states[i].jobs[job.key].status != DeadLetter ==>
                    job == Snapshot(states[i].jobs, job.key)
                    && states[i].jobs[job.key].status == if states[i].workers[w1].Claiming? then Pending else Processing)
  {
    RunKeepsInv(env, states, steps, i);
    assert Apart(states[i], w1, w2);
    if Carries(states[i].workers[w1], job) {
      CarriedIsFaithful(env, states[i], w1, job);
    }
  }

  lemma {:induction false} CarriedIsFaithful(env: Env, s: State, w: int, job: IngestionJob)
    requires Inv(env, s) && w in s.workers && Carries(s.workers[w], job)
    ensures job.key in s.jobs
    ensures s.jobs[job.key].status != DeadLetter ==>
              job == Snapshot(s.jobs, job.key) && s.jobs[job.key].status == if s.workers[w].Claiming? then Pending else Processing
  {
    assert WorkerOk(s, s.workers[w]);
    match s.workers[w]
    case Claiming(rows, readAt) =>
      var n :| 0 <= n < |rows| && rows[n] == job;
      assert Locked(s, rows[n], readAt);
    case Working(batch, point) =>
      var n :| 0 <= n < |batch| && batch[n] == job;
      assert n > 0 ==> Held(s, batch[n]);
  }

  /** `fail` writes the snapshot's attempts plus one; that is the row's attempts plus one, and
      nothing else has been written in between. */
  lemma {:induction false} FailIsAnIncrement(env: Env, states: seq<State>, steps: seq<Step>, i: nat, w: int, error: string)
    requires IsRun(env, states, steps) && i < |steps| && steps[i] == Fail(w, error)
    ensures var s, t, k := states[i], states[i + 1], Head(states[i], w).key;
            && k in s.jobs && k in t.jobs && s.jobs[k].status == Processing
            && t.jobs[k].attempts == s.jobs[k].attempts + 1
            && t.jobs[k].status == (if s.jobs[k].attempts + 1 == s.jobs[k].maxAttempts then DeadLetter else Pending)
            && t.jobs[k].updatedAt == s.clock
            && t.jobs[k].availableAt == (if t.jobs[k].status == DeadLetter then s.jobs[k].availableAt
                                         else s.clock + SECOND * BackoffSeconds(t.jobs[k].attempts))
            && forall x :: x in s.jobs && x != k ==> t.jobs[x] == s.jobs[x]
  {
    RunKeepsInv(env, states, steps, i);
    HeadFacts(env, states[i], w);
    FailedRowOk(states[i], Head(states[i], w), error);
  }

  /** The ledger of a job in every reachable state: each claim is a failed attempt, the attempt
      under way or the one that completed; the limit is reached exactly by dead jobs. */
  lemma {:induction false} LedgerBalances(env: Env, states: seq<State>, steps: seq<Step>, i: nat, k: JobKey)
    requires IsRun(env, states, steps) && i < |states| && k in states[i].jobs
    ensures var s := states[i]; var row := s.jobs[k];
            && k in s.claims
            && s.claims[k] == row.attempts + (if row.status in {Processing, Completed} then 1 else 0)
            && 0 <= row.attempts <= row.maxAttempts && s.claims[k] <= row.maxAttempts
            && (row.attempts == row.maxAttempts <==> row.status == DeadLetter)
  {
    RunKeepsInv(env, states, steps, i);
    assert JobOk(states[i], k);
  }

  /** Retries are spaced out: after `a` failures a job is not available before the backoffs for
      1..a have passed since it was created, and no job is dead before those for all but the
      last attempt have. */
  lemma {:induction false} RetriesAreSpaced(env: Env, states: seq<State>, steps: seq<Step>, i: nat, k: JobKey)
    requires IsRun(env, states, steps) && i < |states| && k in states[i].jobs
    ensures var row := states[i].jobs[k];
            && row.attempts >= 0 && row.maxAttempts >= 1
            && (row.status == Pending ==> row.availableAt >= row.createdAt + SECOND * TotalBackoff(row.attempts))
            && (row.status == DeadLetter ==> row.updatedAt >= row.createdAt + SECOND * TotalBackoff(row.maxAttempts - 1))
  {
    RunKeepsInv(env, states, steps, i);
    assert JobOk(states[i], k);
  }

  /** At step `j` the job was failed for the `attempts`-th time, or was new and nothing had failed. */
  ghost predicate LastFailedAt(states: seq<State>, steps: seq<Step>, j: nat, k: JobKey, attempts: int) {
    && j < |steps| && j < |states|
    && (if attempts == 0 then steps[j].Enqueue? && k !in states[j].jobs
        else steps[j].Fail? && HeadIs(states[j], steps[j].w, k) && Head(states[j], steps[j].w).attempts == attempts - 1)
  }

  lemma {:induction false} NewJobIsPending(env: Env, s: State, step: Step, k: JobKey)
    requires Enabled(s, step) && k !in s.jobs && k in Apply(env, s, step).jobs
    ensures step.Enqueue?
    ensures var row := Apply(env, s, step).jobs[k];
            row.status == Pending && row.attempts == 0 && row.availableAt == s.clock
  {
    if !JobStep(step) {
      OtherStepsKeepJobs(env, s, step);
    }
  }

  lemma {:induction false} PendingIsFailed(env: Env, s: State, step: Step, k: JobKey)
    requires Inv(env, s) && Enabled(s, step) && k in s.jobs && ChangesJob(s, step, k)
    requires k in Apply(env, s, step).jobs && Apply(env, s, step).jobs[k].status == Pending
    requires Apply(env, s, step).jobs[k] != s.jobs[k]
    ensures step.Fail? && HeadIs(s, step.w, k)
    ensures var row := Apply(env, s, step).jobs[k];
            row.attempts == Head(s, step.w).attempts + 1 >= 1
            && row.availableAt == s.clock + SECOND * BackoffSeconds(row.attempts)
  {
    hide Inv, Apply, Enabled;
    match step
    case CommitClaim(w) => ClaimedIsProcessing(env, s, w, k);
    case Complete(w) => CompletedRow(env, s, w, k);
    case Fail(w, error) => RetriedRow(env, s, w, error, k);
  }

  lemma {:induction false} CompletedRow(env: Env, s: State, w: int, k: JobKey)
    requires Enabled(s, Complete(w)) && HeadIs(s, w, k) && k in s.jobs
    ensures k in Apply(env, s, Complete(w)).jobs && Apply(env, s, Complete(w)).jobs[k].status == Completed
  {
    hide NextJob;
  }

  lemma {:induction false} RetriedRow(env: Env, s: State, w: int, error: string, k: JobKey)
    requires Inv(env, s) && Enabled(s, Fail(w, error)) && HeadIs(s, w, k) && k in s.jobs
    ensures k in Apply(env, s, Fail(w, error)).jobs
    ensures var row := Apply(env, s, Fail(w, error)).jobs[k];
            row.attempts == Head(s, w).attempts + 1 >= 1
            && (row.status == Pending ==> row.availableAt == s.clock + SECOND * BackoffSeconds(row.attempts))
  {
    HeadFacts(env, s, w);
    JobHasClaims(env, s, k);
    hide Inv, NextJob;
  }

  /** A waiting job becomes available exactly its backoff after it last failed, or at once when
      it is new. */
  lemma {:induction false} BackoffIsExact(env: Env, states: seq<State>, steps: seq<Step>, i: nat, k: JobKey)
    requires IsRun(env, states, steps) && i < |states| && k in states[i].jobs && states[i].jobs[k].status == Pending
    ensures var row := states[i].jobs[k];
            exists j: nat :: j < i && LastFailedAt(states, steps, j, k, row.attempts)
                     && row.availableAt == states[j].clock + SECOND * BackoffSeconds(row.attempts)
  {
    hide Inv, Apply, Enabled, ChangesJob;
    var s, t, step := states[i - 1], states[i], steps[i - 1];
    RunKeepsInv(env, states, steps, i - 1);
    if k !in s.jobs {
      NewJobIsPending(env, s, step, k);
      assert LastFailedAt(states, steps, i - 1, k, t.jobs[k].attempts);
    } else if t.jobs[k] == s.jobs[k] {
      BackoffIsExact(env, states, steps, i - 1, k);
    } else {
      JobsOnlyChangeByHolders(env, s, step, k);
      PendingIsFailed(env, s, step, k);
      assert LastFailedAt(states, steps, i - 1, k, t.jobs[k].attempts);
    }
  }

  // ---- Attempts that cannot succeed ----

  /** Between the commit of mark_ingesting and the commit of mark_indexed. */
  ghost predicate InWindow(point: Point) {
    point.Marked? || point.Extracted? || point.Written? || point.IndexedChecked?
  }

  ghost predicate HeadIs(s: State, w: int, k: JobKey) {
    w in s.workers && s.workers[w].Working? && s.workers[w].batch != [] && s.workers[w].batch[0].key == k
  }

  /** Where an attempt at the job can be without a chance to complete it. */
  ghost predicate Hopeless(point: Point) {
    point.AtStart? || point.Raised? || point.Buried? || point.FailedChecked?
  }

  /** The document was left INGESTING or has been deleted, so mark_ingesting will refuse every
      attempt. */
  ghost predicate Stuck(s: State, k: JobKey) {
    && k in s.jobs && k.document in s.docs
    && (var status := s.docs[k.document].status;
        if s.jobs[k].status == DeadLetter then status in {Ingesting, Failed, Deleted}
        else s.jobs[k].status != Completed && status in {Ingesting, Deleted})
    && forall w :: HeadIs(s, w, k) ==> Hopeless(s.workers[w].point)
  }

  /** The only steps that change the status of a document. */
  ghost predicate ChangesStatus(s: State, step: Step, d: int) {
    || (step.CommitDelete? && step.request in s.requests && s.requests[step.request].document == d)
    || ((step.CommitIngesting? || step.CommitIndexed? || step.CommitFailed?) && HeadIs(s, step.w, Key(d)))
  }

  lemma {:induction false} HandleStepsKeepDocs(env: Env, s: State, step: Step)
    requires Enabled(s, step) && HandleStep(step) && !step.CommitIngesting? && !step.CommitIndexed?
    ensures Apply(env, s, step).docs == s.docs
  {
    match step
    case CheckIngesting(_) =>
    case Extract(_) =>
    case Index(w) => IndexMoves(env, s, w);
    case CheckIndexed(_) =>
    case Raise(_) =>
  }

  lemma {:induction false} ApiStepsKeepDocs(env: Env, s: State, step: Step)
    requires Enabled(s, step) && !WorkerStep(step) && !step.Register? && !step.CommitDelete?
    ensures Apply(env, s, step).docs == s.docs
  {
    match step
    case CheckUpload(_, _, _, _) =>
    case StoreContent(_) =>
    case Enqueue(_, _) =>
    case CheckDelete(_, _, _) =>
    case LoseRequest(_) =>
    case Tick(_) =>
  }

  lemma {:induction false} OtherStepsKeepDocs(env: Env, s: State, step: Step)
    requires Enabled(s, step) && WorkerStep(step) && !HandleStep(step) && !step.CommitFailed?
    ensures Apply(env, s, step).docs == s.docs
  {
    hide NextJob;
    match step
    case StartWorker(_) =>
    case SelectRows(_, _, _) =>
    case CommitClaim(_) =>
    case Complete(_) =>
    case Fail(_, _) =>
    case CheckFailed(_) =>
    case SwallowFailure(_) =>
    case Crash(_) =>
  }

  lemma {:induction false} DocStepsChangeOne(env: Env, s: State, step: Step, d: int)
    requires Enabled(s, step) && d in s.docs && !ChangesStatus(s, step, d)
    requires step.Register? || step.CommitDelete? || step.CommitIngesting? || step.CommitIndexed? || step.CommitFailed?
    requires WorkerStep(step) ==> Head(s, step.w).key == Key(Head(s, step.w).key.document)
    ensures d in Apply(env, s, step).docs && Apply(env, s, step).docs[d] == s.docs[d]
  {
    match step
    case Register(_, _, _, _) =>
    case CommitDelete(_) =>
    case CommitIngesting(_) =>
    case CommitIndexed(_) =>
    case CommitFailed(_) =>
  }

  lemma {:induction false} StatusOnlyChangesBy(env: Env, s: State, step: Step, d: int)
    requires Inv(env, s) && Enabled(s, step) && d in s.docs
    ensures d in Apply(env, s, step).docs
    ensures ChangesStatus(s, step, d) || Apply(env, s, step).docs[d] == s.docs[d]
    ensures Apply(env, s, step).docs[d] == s.docs[d].(status := Apply(env, s, step).docs[d].status)
  {
    if ChangesStatus(s, step, d) {
      StatusStepKeepsIdentity(env, s, step, d);
    } else {
      hide Apply, Inv;
      if step.Register? || step.CommitDelete? {
        DocStepsChangeOne(env, s, step, d);
      } else if step.CommitIngesting? || step.CommitIndexed? || step.CommitFailed? {
        HeadFacts(env, s, step.w);
        DocStepsChangeOne(env, s, step, d);
      } else if HandleStep(step) {
        HandleStepsKeepDocs(env, s, step);
      } else if WorkerStep(step) {
        OtherStepsKeepDocs(env, s, step);
      } else {
        ApiStepsKeepDocs(env, s, step);
      }
    }
  }

  lemma {:induction false} StatusStepKeepsIdentity(env: Env, s: State, step: Step, d: int)
    requires Enabled(s, step) && d in s.docs && ChangesStatus(s, step, d)
    ensures d in Apply(env, s, step).docs
    ensures Apply(env, s, step).docs[d] == s.docs[d].(status := Apply(env, s, step).docs[d].status)
  {
    match step
    case CommitDelete(_) =>
    case CommitIngesting(_) =>
    case CommitIndexed(_) =>
    case CommitFailed(_) =>
  }

  // How a stuck job stays stuck: its row, its document and the workers that carry it.

  lemma {:induction false} StuckJobAfter(env: Env, s: State, step: Step, k: JobKey)
    requires Inv(env, s) && Enabled(s, step) && Stuck(s, k)
    ensures var t := Apply(env, s, step);
            k in t.jobs && t.jobs[k].status != Completed && (s.jobs[k].status == DeadLetter ==> t.jobs[k].status == DeadLetter)
  {
    hide Apply, Inv;
    JobsOnlyChangeByHolders(env, s, step, k);
    if ChangesJob(s, step, k) {
      ChangedIsLive(env, s, step, k);
      StuckJobChanges(env, s, step, k);
    }
  }

  lemma {:induction false} StuckJobChanges(env: Env, s: State, step: Step, k: JobKey)
    requires Inv(env, s) && Enabled(s, step) && Stuck(s, k) && ChangesJob(s, step, k)
    ensures k in Apply(env, s, step).jobs && Apply(env, s, step).jobs[k].status != Completed
  {
    hide Inv;
    match step
    case CommitClaim(w) => ClaimedIsProcessing(env, s, w, k);
    case Complete(w) =>
    case Fail(w, error) => HeadFacts(env, s, w); FailedRowOk(s, Head(s, w), error);
  }

  lemma {:induction false} ClaimedIsProcessing(env: Env, s: State, w: int, k: JobKey)
    requires Inv(env, s) && Enabled(s, CommitClaim(w)) && k in s.jobs
    ensures var t := Apply(env, s, CommitClaim(w));
            k in t.jobs && (t.jobs[k] == s.jobs[k] || t.jobs[k].status == Processing)
  {
    var t := Apply(env, s, CommitClaim(w));
    var rows := s.workers[w].rows;
    if k in Keys(rows) {
      var i :| 0 <= i < |rows| && rows[i].key == k;
      ClaimedJobOk(env, s, t, w, i);
    } else {
      UnclaimedKept(env, s, t, w, k);
    }
  }

  lemma {:induction false} StuckDocAfter(env: Env, s: State, step: Step, k: JobKey)
    requires Inv(env, s) && Enabled(s, step) && Stuck(s, k)
    ensures var t, d := Apply(env, s, step), k.document;
            && d in t.docs && t.docs[d].status in {Ingesting, Failed, Deleted}
            && (t.docs[d].status == Failed ==> s.jobs[k].status == DeadLetter)
  {
    hide Apply, Inv;
    JobHasClaims(env, s, k);
    StatusOnlyChangesBy(env, s, step, k.document);
    if ChangesStatus(s, step, k.document) {
      StuckDocChanges(env, s, step, k);
    }
  }

  lemma {:induction false} StuckIsNotMarked(s: State, step: Step, k: JobKey)
    requires Enabled(s, step) && Stuck(s, k) && k == Key(k.document) && ChangesStatus(s, step, k.document)
    ensures step.CommitDelete? || step.CommitFailed?
  {
  }

  lemma {:induction false} StuckDocChanges(env: Env, s: State, step: Step, k: JobKey)
    requires Inv(env, s) && Enabled(s, step) && Stuck(s, k) && k == Key(k.document) && ChangesStatus(s, step, k.document)
    ensures var t, d := Apply(env, s, step), k.document;
            && d in t.docs && t.docs[d].status in {Failed, Deleted}
            && (t.docs[d].status == Failed ==> s.jobs[k].status == DeadLetter)
  {
    StuckIsNotMarked(s, step, k);
    if step.CommitDelete? {
      assert Apply(env, s, step).docs == WithStatus(s, k.document, Deleted).docs;
    } else {
      HeadFacts(env, s, step.w);
      assert Apply(env, s, step).docs == WithStatus(s, k.document, Failed).docs;
    }
  }

  lemma {:induction false} WorkersMoveThemselves(env: Env, s: State, step: Step, x: int)
    requires Enabled(s, step) && x in Apply(env, s, step).workers
    ensures (x in s.workers && Apply(env, s, step).workers[x] == s.workers[x]) || (WorkerStep(step) && step.w == x)
  {
    if !WorkerStep(step) {
      ApiStepsKeep(env, s, step);
    } else if HandleStep(step) {
      HandleStepsKeep(env, s, step);
    } else if step.w != x {
      OtherStepsKeepWorkers(env, s, step, x);
    }
  }

  lemma {:induction false} HandleStepsKeepHead(env: Env, s: State, step: Step)
    requires Enabled(s, step) && HandleStep(step)
    ensures step.w in s.workers && s.workers[step.w].Working?
    ensures step.w in Apply(env, s, step).workers
    ensures exists point :: Apply(env, s, step).workers[step.w] == s.workers[step.w].(point := point)
  {
    match step
    case Index(w) => IndexMoves(env, s, w);
    case CheckIngesting(_) =>
    case CommitIngesting(_) =>
    case Extract(_) =>
    case CheckIndexed(_) =>
    case CommitIndexed(_) =>
    case Raise(_) =>
  }

  lemma {:induction false} NextIsFresh(batch: seq<IngestionJob>)
    ensures NextJob(batch).Working? ==> NextJob(batch).point == AtStart
  {
  }

  lemma {:induction false} OtherStepsStartFresh(env: Env, s: State, step: Step, k: JobKey)
    requires Enabled(s, step) && WorkerStep(step) && !HandleStep(step) && HeadIs(Apply(env, s, step), step.w, k)
    ensures HeadIs(s, step.w, k) || Apply(env, s, step).workers[step.w].point == AtStart
  {
    if step.w in s.workers && s.workers[step.w].Working? {
      NextIsFresh(s.workers[step.w].batch);
    }
    hide NextJob;
    match step
    case StartWorker(_) =>
    case SelectRows(_, _, _) =>
    case CommitClaim(_) =>
    case Complete(_) =>
    case Fail(_, _) =>
    case CheckFailed(_) =>
    case CommitFailed(_) =>
    case SwallowFailure(_) =>
    case Crash(_) =>
  }

  lemma {:induction false} WorkersStay(env: Env, s: State, step: Step, w: int)
    requires Enabled(s, step) && w in s.workers && step != Crash(w)
    ensures w in Apply(env, s, step).workers
  {
    if !WorkerStep(step) {
      ApiStepsKeep(env, s, step);
    } else {
      match step
      case Index(x) => IndexMoves(env, s, x);
      case _ =>
    }
  }

  /** A worker that does not already carry the job at the head of its batch puts it there only at
      the start of an attempt. */
  lemma {:induction false} HeadsStartFresh(env: Env, s: State, step: Step, x: int, k: JobKey)
    requires Enabled(s, step) && WorkerStep(step) && step.w == x && HeadIs(Apply(env, s, step), x, k)
    ensures HeadIs(s, x, k) || Apply(env, s, step).workers[x].point == AtStart
  {
    if HandleStep(step) {
      HandleStepsKeepHead(env, s, step);
    } else {
      OtherStepsStartFresh(env, s, step, k);
    }
  }

  lemma {:induction false} StuckHeadAfter(env: Env, s: State, step: Step, x: int, k: JobKey)
    requires Inv(env, s) && Enabled(s, step) && Stuck(s, k) && HeadIs(s, x, k)
    requires WorkerStep(step) && step.w == x && HeadIs(Apply(env, s, step), x, k)
    ensures Hopeless(Apply(env, s, step).workers[x].point)
  {
    assert Hopeless(s.workers[x].point);
    if step.CheckIngesting? {
      HeadFacts(env, s, x);
      assert JobOk(s, k);
    } else if step.Fail? || step.CheckFailed? || step.CommitFailed? || step.SwallowFailure? {
      BuriedStepsAreHopeless(env, s, step);
    } else {
      StartStepsAreHopeless(env, s, step);
    }
  }

  /** Where a worker goes after a failure: to the next job, or on with a buried one. */
  lemma {:induction false} AfterFailure(env: Env, s: State, step: Step)
    requires Enabled(s, step) && (step.Fail? || step.CheckFailed? || step.CommitFailed? || step.SwallowFailure?)
    ensures step.w in s.workers && s.workers[step.w].Working? && step.w in Apply(env, s, step).workers
    ensures var batch, worker := s.workers[step.w].batch, Apply(env, s, step).workers[step.w];
            worker in {NextJob(batch), Working(batch, Buried), Working(batch, FailedChecked)}
  {
    hide NextJob;
    match step
    case Fail(_, _) =>
    case CheckFailed(_) =>
    case CommitFailed(_) =>
    case SwallowFailure(_) =>
  }

  lemma {:induction false} BuriedStepsAreHopeless(env: Env, s: State, step: Step)
    requires Enabled(s, step) && (step.Fail? || step.CheckFailed? || step.CommitFailed? || step.SwallowFailure?)
    requires step.w in Apply(env, s, step).workers && Apply(env, s, step).workers[step.w].Working?
    ensures Hopeless(Apply(env, s, step).workers[step.w].point)
  {
    hide Apply, Enabled, NextJob;
    AfterFailure(env, s, step);
    NextIsFresh(s.workers[step.w].batch);
  }

  lemma {:induction false} StartStepsAreHopeless(env: Env, s: State, step: Step)
    requires Enabled(s, step) && WorkerStep(step) && !step.CheckIngesting?
    requires !(step.Fail? || step.CheckFailed? || step.CommitFailed? || step.SwallowFailure?)
    requires step.w in s.workers && s.workers[step.w].Working? && Hopeless(s.workers[step.w].point)
    requires step.w in Apply(env, s, step).workers && Apply(env, s, step).workers[step.w].Working?
    ensures Hopeless(Apply(env, s, step).workers[step.w].point)
  {
  }

  lemma {:induction false} StuckStays(env: Env, s: State, step: Step, k: JobKey)
    requires Inv(env, s) && Enabled(s, step) && Stuck(s, k)
    ensures Stuck(Apply(env, s, step), k)
  {
    hide Apply, Enabled, Inv;
    var t := Apply(env, s, step);
    StuckJobAfter(env, s, step, k);
    StuckDocAfter(env, s, step, k);
    forall x | HeadIs(t, x, k) ensures Hopeless(t.workers[x].point) {
      WorkersMoveThemselves(env, s, step, x);
      if !(x in s.workers && t.workers[x] == s.workers[x]) {
        HeadsStartFresh(env, s, step, x, k);
        if HeadIs(s, x, k) {
          StuckHeadAfter(env, s, step, x, k);
        }
      }
    }
  }

  lemma {:induction false} StuckForever(env: Env, s: State, states: seq<State>, steps: seq<Step>, i: nat, k: JobKey)
    requires Inv(env, s) && RunFrom(env, s, states, steps) && i < |states| && Stuck(s, k)
    ensures Stuck(states[i], k)
  {
    hide Apply, Enabled, Inv, Stuck;
    if i > 0 {
      StuckForever(env, s, states, steps, i - 1, k);
      RunFromKeepsInv(env, s, states, steps, i - 1);
      StuckStays(env, states[i - 1], steps[i - 1], k);
    }
  }

  lemma {:induction false} OneHead(env: Env, s: State, w: int, x: int, k: JobKey)
    requires Inv(env, s) && HeadIs(s, w, k) && HeadIs(s, x, k)
    ensures w == x
  {
    assert k in Claims(s.workers[w]) && k in Claims(s.workers[x]);
    assert Apart(s, w, x);
  }

  lemma {:induction false} WindowFacts(env: Env, s: State, w: int)
    requires Inv(env, s) && w in s.workers && s.workers[w].Working? && InWindow(s.workers[w].point)
    ensures s.workers[w].batch != []
    ensures var k := Head(s, w).key;
            && k in s.jobs && s.jobs[k].status == Processing
            && k.document in s.docs && s.docs[k.document].status in {Ingesting, Deleted}
            && forall x :: HeadIs(s, x, k) ==> x == w
  {
    HeadFacts(env, s, w);
    var k := Head(s, w).key;
    forall x | HeadIs(s, x, k) ensures x == w {
      OneHead(env, s, w, x, k);
    }
  }

  /** A worker has raised an exception or is gone. */
  ghost predicate Stopped(s: State, w: int) {
    w in s.workers ==> s.workers[w].Working? && s.workers[w].point == Raised
  }

  lemma {:induction false} WindowSteps(s: State, step: Step, w: int)
    requires Enabled(s, step) && WorkerStep(step) && step.w == w
    requires w in s.workers && s.workers[w].Working? && InWindow(s.workers[w].point)
    ensures (HandleStep(step) && !step.CommitIngesting?) || step == Crash(w)
  {
  }

  lemma {:induction false} CrashApplies(env: Env, s: State, w: int)
    requires Enabled(s, Crash(w))
    ensures Apply(env, s, Crash(w)) == s.(workers := s.workers - {w})
  {
  }

  lemma {:induction false} CommittingIsNotStopping(env: Env, s: State, w: int)
    requires Enabled(s, CommitIndexed(w))
    ensures !Stopped(Apply(env, s, CommitIndexed(w)), w)
  {
  }

  lemma {:induction false} StoppingKeeps(env: Env, s: State, step: Step, w: int)
    requires Enabled(s, step) && WorkerStep(step) && step.w == w
    requires w in s.workers && s.workers[w].Working? && InWindow(s.workers[w].point) && Stopped(Apply(env, s, step), w)
    ensures var t := Apply(env, s, step);
            t.docs == s.docs && t.jobs == s.jobs
            && forall x :: x in t.workers && x != w ==> x in s.workers && t.workers[x] == s.workers[x]
  {
    hide Apply, Enabled;
    WindowSteps(s, step, w);
    if step == Crash(w) {
      CrashApplies(env, s, w);
    } else {
      if step.CommitIndexed? {
        CommittingIsNotStopping(env, s, w);
        assert false;
      }
      HandleStepsKeepDocs(env, s, step);
      HandleStepsKeep(env, s, step);
    }
  }

  /** An attempt that stops after mark_ingesting has committed and before mark_indexed has leaves
      its job stuck, whether a step of `handle` raises, another exception comes up or the worker
      crashes. */
  lemma {:induction false} StoppingInTheWindowSticks(env: Env, s: State, step: Step, w: int)
    requires Inv(env, s) && Enabled(s, step) && WorkerStep(step) && step.w == w
    requires w in s.workers && s.workers[w].Working? && InWindow(s.workers[w].point) && Stopped(Apply(env, s, step), w)
    ensures s.workers[w].batch != [] && Stuck(Apply(env, s, step), Head(s, w).key)
  {
    hide Inv, Apply, Enabled;
    WindowFacts(env, s, w);
    StoppingKeeps(env, s, step, w);
    var t, k := Apply(env, s, step), Head(s, w).key;
    forall x | HeadIs(t, x, k) ensures Hopeless(t.workers[x].point) {
      assert x != w ==> HeadIs(s, x, k);
    }
  }

  /** Every later attempt at a stuck job fails: in no later state is it completed, it is dead
      exactly when it has been claimed `maxAttempts` times and is not being processed any more, and
      its document is not indexed: FAILED if mark_failed committed, DELETED, or left INGESTING. */
  lemma {:induction false} StuckNeverCompletes(env: Env, s: State, states: seq<State>, steps: seq<Step>, i: nat, k: JobKey)
    requires Inv(env, s) && RunFrom(env, s, states, steps) && i < |states| && Stuck(s, k)
    ensures k in states[i].jobs && k in states[i].claims && k.document in states[i].docs
    ensures states[i].jobs[k].status != Completed && states[i].docs[k.document].status !in {Registered, Indexed}
    ensures states[i].jobs[k].status == DeadLetter
       <==> states[i].claims[k] == states[i].jobs[k].maxAttempts && states[i].jobs[k].status != Processing
  {
    StuckForever(env, s, states, steps, i, k);
    RunFromKeepsInv(env, s, states, steps, i);
    assert JobOk(states[i], k);
  }

  lemma {:induction false} StuckReached(env: Env, s: State, t: State, k: JobKey)
    requires Inv(env, s) && Reaches(env, s, t) && Stuck(s, k)
    ensures Stuck(t, k) && t.jobs[k].status != Completed
  {
    hide Inv;
    var states, steps :| RunFrom(env, s, states, steps) && states[|steps|] == t;
    StuckForever(env, s, states, steps, |steps|, k);
  }
}
