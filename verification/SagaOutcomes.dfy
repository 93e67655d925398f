/** How attempts at a job, crashes and deletes end. */
module SagaOutcomes {
  import opened Wrappers
  import opened Documents
  import opened Jobs
  import opened Saga
  import opened SagaInvariant
  import opened SagaSteps
  import opened SagaRuns

  // ---- Which attempts can complete ----

  ghost predicate JobIs(s: State, k: JobKey, status: JobStatus) {
    k in s.jobs && s.jobs[k].status == status
  }

  /** Some continuation brings the job into a state. */
  ghost predicate CanReach(env: Env, s: State, k: JobKey, status: JobStatus) {
    exists t :: Reaches(env, s, t) && JobIs(t, k, status)
  }

  ghost predicate CanComplete(env: Env, s: State, k: JobKey) {
    CanReach(env, s, k, Completed)
  }

  lemma {:induction false} StepThenReach(env: Env, s: State, step: Step, k: JobKey, status: JobStatus)
    requires Enabled(s, step) && CanReach(env, Apply(env, s, step), k, status)
    ensures CanReach(env, s, k, status)
  {
    hide Apply, Enabled, Reaches;
    var t :| Reaches(env, Apply(env, s, step), t) && JobIs(t, k, status);
    ReachesFirst(env, s, step, t);
  }

  lemma {:induction false} RunThenReach(env: Env, s: State, t: State, k: JobKey, status: JobStatus)
    requires Reaches(env, s, t) && CanReach(env, t, k, status)
    ensures CanReach(env, s, k, status)
  {
    hide Reaches;
    var u :| Reaches(env, t, u) && JobIs(u, k, status);
    ReachesOn(env, s, t, u);
  }

  lemma {:induction false} StepThen(env: Env, s: State, step: Step, k: JobKey)
    requires Enabled(s, step) && CanComplete(env, Apply(env, s, step), k)
    ensures CanComplete(env, s, k)
  {
    hide Apply, Enabled;
    StepThenReach(env, s, step, k, Completed);
  }

  lemma {:induction false} AlreadyThere(env: Env, s: State, k: JobKey, status: JobStatus)
    requires JobIs(s, k, status)
    ensures CanReach(env, s, k, status)
  {
    ReachesItself(env, s);
  }

  lemma {:induction false} FinishedCompletes(env: Env, s: State, w: int)
    requires Inv(env, s) && WorkingAt(s, w, Finished)
    ensures CanComplete(env, s, Head(s, w).key)
  {
    HeadFacts(env, s, w);
    AlreadyThere(env, AfterComplete(s, w), Head(s, w).key, Completed);
    StepThen(env, s, Complete(w), Head(s, w).key);
  }

  lemma {:induction false} IndexedCheckedCompletes(env: Env, s: State, w: int)
    requires Inv(env, s) && WorkingAt(s, w, IndexedChecked)
    ensures CanComplete(env, s, Head(s, w).key)
  {
    HeadFacts(env, s, w);
    CommitIndexedKeeps(env, s, w);
    FinishedCompletes(env, Apply(env, s, CommitIndexed(w)), w);
    StepThen(env, s, CommitIndexed(w), Head(s, w).key);
  }

  lemma {:induction false} WrittenCompletes(env: Env, s: State, w: int)
    requires Inv(env, s) && WorkingAt(s, w, Written)
    requires MayMark(s, Head(s, w), Indexed)
    ensures CanComplete(env, s, Head(s, w).key)
  {
    CheckIndexedKeeps(env, s, w);
    IndexedCheckedCompletes(env, Apply(env, s, CheckIndexed(w)), w);
    StepThen(env, s, CheckIndexed(w), Head(s, w).key);
  }

  lemma {:induction false} ExtractedCompletes(env: Env, s: State, w: int)
    requires Inv(env, s) && Enabled(s, Index(w)) && Accepted(env, s.workers[w].point.text)
    requires MayMark(s, Head(s, w), Indexed)
    ensures CanComplete(env, s, Head(s, w).key)
  {
    IndexKeeps(env, s, w);
    WrittenCompletes(env, AfterIndex(env, s, w), w);
    StepThen(env, s, Index(w), Head(s, w).key);
  }

  lemma {:induction false} MarkedCompletes(env: Env, s: State, w: int)
    requires Inv(env, s) && WorkingAt(s, w, Marked) && MayMark(s, Head(s, w), Indexed)
    requires Head(s, w).key.document in s.content && Accepted(env, s.content[Head(s, w).key.document].text)
    ensures CanComplete(env, s, Head(s, w).key)
  {
    HeadFacts(env, s, w);
    ExtractKeeps(env, s, w);
    ExtractedCompletes(env, Apply(env, s, Extract(w)), w);
    StepThen(env, s, Extract(w), Head(s, w).key);
  }

  lemma {:induction false} IngestingCheckedCompletes(env: Env, s: State, w: int)
    requires Inv(env, s) && WorkingAt(s, w, IngestingChecked)
    requires Head(s, w).key.document in s.content && Accepted(env, s.content[Head(s, w).key.document].text)
    ensures CanComplete(env, s, Head(s, w).key)
  {
    HeadFacts(env, s, w);
    CommitIngestingKeeps(env, s, w);
    MarkedCompletes(env, Apply(env, s, CommitIngesting(w)), w);
    StepThen(env, s, CommitIngesting(w), Head(s, w).key);
  }

  /** An attempt can complete its job if and only if it finds the document REGISTERED or INDEXED.
      Those are the states in which an attempt that stopped before mark_ingesting committed or
      after mark_indexed did leaves it. */
  lemma {:induction false} AttemptCompletesExactlyWhen(env: Env, s: State, w: int)
    requires Inv(env, s) && WorkingAt(s, w, AtStart)
    requires Head(s, w).key.document in s.content ==> Accepted(env, s.content[Head(s, w).key.document].text)
    ensures var job := Head(s, w);
            job.key.document in s.docs
            && (CanComplete(env, s, job.key) <==> s.docs[job.key.document].status in {Registered, Indexed})
  {
    HeadFacts(env, s, w);
    var job := Head(s, w);
    if s.docs[job.key.document].status in {Registered, Indexed} {
      CheckIngestingKeeps(env, s, w);
      IngestingCheckedCompletes(env, Apply(env, s, CheckIngesting(w)), w);
      StepThen(env, s, CheckIngesting(w), job.key);
    } else {
      StuckAtStart(env, s, w);
      forall t | Reaches(env, s, t) ensures !JobIs(t, job.key, Completed) {
        StuckReached(env, s, t, job.key);
      }
    }
  }

  lemma {:induction false} StuckAtStart(env: Env, s: State, w: int)
    requires Inv(env, s) && WorkingAt(s, w, AtStart) && Head(s, w).key.document in s.docs
    requires s.docs[Head(s, w).key.document].status !in {Registered, Indexed}
    ensures Stuck(s, Head(s, w).key)
  {
    HeadFacts(env, s, w);
    var k := Head(s, w).key;
    forall x | HeadIs(s, x, k) ensures x == w {
      OneHead(env, s, w, x, k);
    }
  }

  // ---- Crashes ----

  /** Being processed by nobody. */
  ghost predicate Orphaned(s: State, k: JobKey) {
    k in s.jobs && s.jobs[k].status == Processing && forall w :: w in s.workers ==> k !in Claims(s.workers[w])
  }

  lemma {:induction false} ClaimedByOne(env: Env, s: State, w: int, x: int, k: JobKey)
    requires Inv(env, s) && w in s.workers && x in s.workers && x != w && k in Claims(s.workers[w])
    ensures k !in Claims(s.workers[x])
  {
    assert Apart(s, w, x);
  }

  lemma {:induction false} CrashOrphans(env: Env, s: State, w: int, k: JobKey)
    requires w in s.workers && k in Claims(s.workers[w]) && k in s.jobs && s.jobs[k].status == Processing
    requires Inv(env, s)
    ensures Orphaned(Apply(env, s, Crash(w)), k)
  {
    hide Apply, Inv, Claims;
    CrashApplies(env, s, w);
    forall x | x in s.workers && x != w ensures k !in Claims(s.workers[x]) {
      ClaimedByOne(env, s, w, x, k);
    }
  }

  lemma {:induction false} ClaimsOnlyGrowBySelecting(env: Env, s: State, step: Step, x: int, k: JobKey)
    requires Inv(env, s) && Enabled(s, step) && x in Apply(env, s, step).workers && k in Claims(Apply(env, s, step).workers[x])
    ensures (x in s.workers && k in Claims(s.workers[x])) || (step.SelectRows? && Eligible(s.jobs, LockedKeys(s), s.clock, k))
  {
    WorkersMoveThemselves(env, s, step, x);
    if !(x in s.workers && Apply(env, s, step).workers[x] == s.workers[x]) {
      if step.SelectRows? {
        var i :| 0 <= i < |step.rows| && step.rows[i].key == k;
      } else if HandleStep(step) {
        HandleStepsKeepBatch(env, s, step);
      } else {
        OtherStepsNarrow(env, s, step);
      }
    }
  }

  lemma {:induction false} HandleStepsKeepBatch(env: Env, s: State, step: Step)
    requires Enabled(s, step) && HandleStep(step)
    ensures step.w in s.workers && step.w in Apply(env, s, step).workers
    ensures Claims(Apply(env, s, step).workers[step.w]) == Claims(s.workers[step.w])
  {
    HandleStepsKeepHead(env, s, step);
  }

  lemma {:induction false} OtherStepsNarrow(env: Env, s: State, step: Step)
    requires Enabled(s, step) && WorkerStep(step) && !HandleStep(step) && !step.SelectRows?
    ensures var t := Apply(env, s, step);
            step.w in t.workers ==>
              Claims(t.workers[step.w]) <= (if step.w in s.workers then Claims(s.workers[step.w]) else {})
  {
    if step.w in s.workers && s.workers[step.w].Working? && s.workers[step.w].batch != [] {
      KeysOfTail(s.workers[step.w].batch);
    }
  }

  lemma {:induction false} HoldersClaim(s: State, step: Step, k: JobKey)
    requires ChangesJob(s, step, k)
    ensures step.w in s.workers && k in Claims(s.workers[step.w])
  {
  }

  lemma {:induction false} TailKeepsClaims(batch: seq<IngestionJob>, k: JobKey)
    requires batch != [] && k in Keys(batch) && batch[0].key != k
    ensures k in Claims(NextJob(batch))
  {
    var i :| 0 <= i < |batch| && batch[i].key == k;
    assert batch[1..][i - 1].key == k;
  }

  /** A worker that processes a job lets go of it by recording its outcome or by crashing. */
  lemma {:induction false} HeldIsKept(env: Env, s: State, step: Step, k: JobKey)
    requires Inv(env, s) && Enabled(s, step) && WorkerStep(step) && step != Crash(step.w) && !ChangesJob(s, step, k)
    requires step.w in s.workers && k in Claims(s.workers[step.w]) && JobIs(s, k, Processing)
    ensures step.w in Apply(env, s, step).workers && k in Claims(Apply(env, s, step).workers[step.w])
  {
    hide Inv, Apply;
    if HandleStep(step) {
      HandleStepsKeepBatch(env, s, step);
    } else {
      HeldPastHead(env, s, step, k);
    }
  }

  lemma {:induction false} HeldPastHead(env: Env, s: State, step: Step, k: JobKey)
    requires Inv(env, s) && Enabled(s, step) && WorkerStep(step) && !HandleStep(step) && step != Crash(step.w)
    requires step.w in s.workers && k in Claims(s.workers[step.w]) && JobIs(s, k, Processing) && !ChangesJob(s, step, k)
    ensures step.w in Apply(env, s, step).workers && k in Claims(Apply(env, s, step).workers[step.w])
  {
    var worker := s.workers[step.w];
    if worker.Claiming? {
      ClaimingIsPending(env, s, step.w, k);
    } else if worker.Working? {
      HeadFacts(env, s, step.w);
      hide Inv, NextJob;
      if worker.batch[0].key != k {
        TailKeepsClaims(worker.batch, k);
      }
      MovesOn(env, s, step);
    }
  }

  /** Where the steps after `handle` take a worker. */
  lemma {:induction false} MovesOn(env: Env, s: State, step: Step)
    requires Enabled(s, step) && WorkerStep(step) && !HandleStep(step) && step != Crash(step.w)
    requires step.w in s.workers && s.workers[step.w].Working? && s.workers[step.w].batch != []
    ensures step.Complete? || step.Fail? || step.CheckFailed? || step.CommitFailed? || step.SwallowFailure?
    ensures step.w in Apply(env, s, step).workers
    ensures var batch, worker := s.workers[step.w].batch, Apply(env, s, step).workers[step.w];
            worker in {NextJob(batch), Working(batch, Buried), Working(batch, FailedChecked)}
  {
    hide NextJob;
    match step
    case Complete(_) =>
    case Fail(_, _) => AfterFailure(env, s, step);
    case CheckFailed(_) => AfterFailure(env, s, step);
    case CommitFailed(_) => AfterFailure(env, s, step);
    case SwallowFailure(_) => AfterFailure(env, s, step);
  }

  /** A step orphans a job if and only if it is a crash of the worker that is processing it. */
  lemma {:induction false} OrphanedExactlyBy(env: Env, s: State, step: Step, k: JobKey)
    requires Inv(env, s) && Enabled(s, step) && k in s.jobs && !Orphaned(s, k)
    ensures Orphaned(Apply(env, s, step), k)
       <==> step.Crash? && k in Claims(s.workers[step.w]) && s.jobs[k].status == Processing
  {
    hide Inv, Apply;
    if step.Crash? && k in Claims(s.workers[step.w]) && s.jobs[k].status == Processing {
      CrashOrphans(env, s, step.w, k);
    }
    if Orphaned(Apply(env, s, step), k) {
      JobsOnlyChangeByHolders(env, s, step, k);
      if ChangesJob(s, step, k) {
        ChangedIsClaimed(env, s, step, k);
      } else {
        var w :| w in s.workers && k in Claims(s.workers[w]);
        OrphanedByHolder(env, s, step, w, k);
      }
    }
  }

  lemma {:induction false} OrphanedByHolder(env: Env, s: State, step: Step, w: int, k: JobKey)
    requires Inv(env, s) && Enabled(s, step) && w in s.workers && k in Claims(s.workers[w]) && JobIs(s, k, Processing)
    requires !ChangesJob(s, step, k) && Orphaned(Apply(env, s, step), k)
    ensures step == Crash(w)
  {
    hide Inv, Apply, Enabled;
    if !(WorkerStep(step) && step.w == w) {
      WorkersStay(env, s, step, w);
      WorkersMoveThemselves(env, s, step, w);
    } else if step != Crash(w) {
      HeldIsKept(env, s, step, k);
    }
  }

  /** A step that changes a job to PROCESSING leaves it claimed. */
  lemma {:induction false} ChangedIsClaimed(env: Env, s: State, step: Step, k: JobKey)
    requires Inv(env, s) && Enabled(s, step) && ChangesJob(s, step, k) && k in s.jobs
    ensures !Orphaned(Apply(env, s, step), k)
  {
    if step.CommitClaim? {
      hide Inv;
      ClaimedIsKept(env, s, step.w, k);
    } else {
      HeadFacts(env, s, step.w);
      hide Inv, NextJob;
      if step.Fail? {
        FailedRowOk(s, Head(s, step.w), step.error);
      }
      RecordedIsNotProcessing(env, s, step);
    }
  }

  lemma {:induction false} RecordedIsNotProcessing(env: Env, s: State, step: Step)
    requires Enabled(s, step) && (step.Complete? || step.Fail?) && Head(s, step.w).key in s.jobs
    ensures var k := Head(s, step.w).key;
            k in Apply(env, s, step).jobs && Apply(env, s, step).jobs[k].status != Processing
  {
    hide NextJob;
    match step
    case Complete(_) =>
    case Fail(_, _) =>
  }

  lemma {:induction false} ClaimedIsKept(env: Env, s: State, w: int, k: JobKey)
    requires Enabled(s, CommitClaim(w)) && k in Claims(s.workers[w])
    ensures w in AfterClaim(s, w).workers && k in Claims(AfterClaim(s, w).workers[w])
  {
    var i :| 0 <= i < |s.workers[w].rows| && s.workers[w].rows[i].key == k;
  }

  /** A job whose worker crashed is never processed again: there is no lease that expires, so its
      row stays PROCESSING for ever. */
  lemma {:induction false} OrphansStay(env: Env, s: State, step: Step, k: JobKey)
    requires Inv(env, s) && Enabled(s, step) && Orphaned(s, k)
    ensures Orphaned(Apply(env, s, step), k) && Apply(env, s, step).jobs[k] == s.jobs[k]
  {
    hide Apply, Enabled, Inv;
    var t := Apply(env, s, step);
    JobsOnlyChangeByHolders(env, s, step, k);
    if ChangesJob(s, step, k) {
      HoldersClaim(s, step, k);
    }
    forall x | x in t.workers ensures k !in Claims(t.workers[x]) {
      if k in Claims(t.workers[x]) {
        ClaimsOnlyGrowBySelecting(env, s, step, x, k);
      }
    }
  }

  lemma {:induction false} OrphansStayForever(env: Env, s: State, states: seq<State>, steps: seq<Step>, i: nat, k: JobKey)
    requires Inv(env, s) && RunFrom(env, s, states, steps) && i < |states| && Orphaned(s, k)
    ensures Orphaned(states[i], k) && states[i].jobs[k] == s.jobs[k]
  {
    hide Apply, Enabled, Inv, Orphaned;
    if i > 0 {
      OrphansStayForever(env, s, states, steps, i - 1, k);
      RunFromKeepsInv(env, s, states, steps, i - 1);
      OrphansStay(env, states[i - 1], steps[i - 1], k);
    }
  }

  // ---- Deletes ----

  /** A transition of the document has been checked and will be committed. */
  ghost predicate InFlight(s: State, d: int) {
    exists w :: HeadIs(s, w, Key(d)) && Checked(s.workers[w].point)
  }

  ghost predicate Checked(point: Point) {
    point.IngestingChecked? || point.IndexedChecked? || point.FailedChecked?
  }

  /** A step brings a deleted document back exactly if it commits a transition that was checked
      before the delete. */
  lemma {:induction false} DeleteIsUndoneExactlyBy(env: Env, s: State, step: Step, d: int)
    requires Inv(env, s) && Enabled(s, step) && d in s.docs && s.docs[d].status == Deleted
    ensures d in Apply(env, s, step).docs
    ensures Apply(env, s, step).docs[d].status != Deleted
       <==> (step.CommitIngesting? || step.CommitIndexed? || step.CommitFailed?) && HeadIs(s, step.w, Key(d))
  {
    StatusOnlyChangesBy(env, s, step, d);
  }

  ghost predicate SafelyDeleted(s: State, d: int) {
    d in s.docs && s.docs[d].status == Deleted && !InFlight(s, d)
  }

  lemma {:induction false} SafelyDeletedIsNotCommitted(s: State, step: Step, d: int)
    requires Enabled(s, step) && SafelyDeleted(s, d)
    ensures !((step.CommitIngesting? || step.CommitIndexed? || step.CommitFailed?) && HeadIs(s, step.w, Key(d)))
  {
  }

  lemma {:induction false} SafelyDeletedStays(env: Env, s: State, step: Step, d: int)
    requires Inv(env, s) && Enabled(s, step) && SafelyDeleted(s, d)
    ensures SafelyDeleted(Apply(env, s, step), d)
  {
    hide Apply, Enabled, Inv;
    var t := Apply(env, s, step);
    DeleteIsUndoneExactlyBy(env, s, step, d);
    SafelyDeletedIsNotCommitted(s, step, d);
    forall x | HeadIs(t, x, Key(d)) ensures !Checked(t.workers[x].point) {
      WorkersMoveThemselves(env, s, step, x);
      if !(x in s.workers && t.workers[x] == s.workers[x]) {
        HeadsStartFresh(env, s, step, x, Key(d));
        if HeadIs(s, x, Key(d)) && t.workers[x].point != AtStart {
          DeletedIsNotChecked(env, s, step, x, d);
        }
      }
    }
  }

  /** The check of a transition refuses a deleted document. */
  lemma {:induction false} DeletedIsNotChecked(env: Env, s: State, step: Step, w: int, d: int)
    requires Enabled(s, step) && WorkerStep(step) && step.w == w && HeadIs(s, w, Key(d))
    requires d in s.docs && s.docs[d].status == Deleted && !Checked(s.workers[w].point)
    requires HeadIs(Apply(env, s, step), w, Key(d))
    ensures !Checked(Apply(env, s, step).workers[w].point)
  {
    if step.CheckIngesting? || step.CheckIndexed? || step.CheckFailed? {
    } else {
      OnlyChecksCheck(env, s, step, w);
    }
  }

  lemma {:induction false} OnlyChecksCheck(env: Env, s: State, step: Step, w: int)
    requires Enabled(s, step) && WorkerStep(step) && step.w == w
    requires !(step.CheckIngesting? || step.CheckIndexed? || step.CheckFailed?)
    requires w in Apply(env, s, step).workers && Apply(env, s, step).workers[w].Working?
    ensures !Checked(Apply(env, s, step).workers[w].point)
  {
    if HandleStep(step) {
      HandleStepsCheck(env, s, step);
    }
  }

  lemma {:induction false} HandleStepsCheck(env: Env, s: State, step: Step)
    requires Enabled(s, step) && HandleStep(step) && !step.CheckIngesting? && !step.CheckIndexed?
    ensures step.w in Apply(env, s, step).workers && Apply(env, s, step).workers[step.w].Working?
    ensures !Checked(Apply(env, s, step).workers[step.w].point)
  {
    match step
    case Index(w) => IndexMoves(env, s, w);
    case CommitIngesting(_) =>
    case Extract(_) =>
    case CommitIndexed(_) =>
    case Raise(_) =>
  }

  /** Deletion is final if no transition of the document was in flight when it committed. */
  lemma {:induction false} SafelyDeletedForever(env: Env, s: State, states: seq<State>, steps: seq<Step>, i: nat, d: int)
    requires Inv(env, s) && RunFrom(env, s, states, steps) && i < |states| && SafelyDeleted(s, d)
    ensures SafelyDeleted(states[i], d)
  {
    hide Apply, Enabled, Inv, SafelyDeleted;
    if i > 0 {
      SafelyDeletedForever(env, s, states, steps, i - 1, d);
      RunFromKeepsInv(env, s, states, steps, i - 1);
      SafelyDeletedStays(env, states[i - 1], steps[i - 1], d);
    }
  }

  ghost predicate Revived(t: State, d: int) {
    d in t.docs && t.docs[d].status != Deleted
  }

  lemma {:induction false} CheckedCommits(env: Env, s: State, w: int, d: int)
    requires HeadIs(s, w, Key(d)) && Checked(s.workers[w].point) && d in s.docs
    ensures exists step :: Enabled(s, step) && Revived(Apply(env, s, step), d)
  {
    var point := s.workers[w].point;
    var step := if point == IngestingChecked then CommitIngesting(w)
                else if point == IndexedChecked then CommitIndexed(w) else CommitFailed(w);
    assert Enabled(s, step) && Revived(Apply(env, s, step), d);
  }

  /** Some continuation brings a deleted document back if and only if a transition of it that was
      checked before the delete has still to be committed. */
  lemma {:induction false} DeleteCanBeUndoneExactlyWhen(env: Env, s: State, d: int)
    requires Inv(env, s) && d in s.docs && s.docs[d].status == Deleted
    ensures (exists t :: Reaches(env, s, t) && Revived(t, d)) <==> InFlight(s, d)
  {
    hide Inv, Apply, Enabled;
    if InFlight(s, d) {
      var w :| HeadIs(s, w, Key(d)) && Checked(s.workers[w].point);
      CheckedCommits(env, s, w, d);
      var step :| Enabled(s, step) && Revived(Apply(env, s, step), d);
      ReachesItself(env, s);
      ReachesOneMore(env, s, s, step);
    } else {
      forall t | Reaches(env, s, t) ensures !Revived(t, d) {
        var states, steps :| RunFrom(env, s, states, steps) && states[|steps|] == t;
        SafelyDeletedForever(env, s, states, steps, |steps|, d);
      }
    }
  }

  // ---- What never changes ----

  /** Documents keep their tenant and content hash, and none disappears. */
  lemma {:induction false} IdentityStays(env: Env, s: State, states: seq<State>, steps: seq<Step>, i: nat, d: int)
    requires Inv(env, s) && RunFrom(env, s, states, steps) && i < |states| && d in s.docs
    ensures d in states[i].docs && states[i].docs[d] == s.docs[d].(status := states[i].docs[d].status)
  {
    hide Apply, Enabled, Inv;
    if i > 0 {
      IdentityStays(env, s, states, steps, i - 1, d);
      RunFromKeepsInv(env, s, states, steps, i - 1);
      StatusOnlyChangesBy(env, states[i - 1], steps[i - 1], d);
    }
  }

  // ---- The chunks of a document ----

  /** What the queries of a search see of the chunks table: the rows of a tenant and, with a filter,
      of a collection. They do not look at the documents. */
  ghost predicate Searchable(s: State, tenant: int, collection: Option<int>, row: ChunkRow) {
    && row.document in s.chunks && row in s.chunks[row.document]
    && row.tenant == tenant && (collection.Some? ==> row.collection == collection.value)
  }

  /** Content once stored for a document never changes. */
  lemma {:induction false} ContentStays(env: Env, s: State, states: seq<State>, steps: seq<Step>, i: nat, d: int)
    requires Inv(env, s) && RunFrom(env, s, states, steps) && i < |states| && d in s.content
    ensures d in states[i].content && states[i].content[d] == s.content[d]
  {
    hide Apply, Enabled, Inv;
    if i > 0 {
      ContentStays(env, s, states, steps, i - 1, d);
      RunFromKeepsInv(env, s, states, steps, i - 1);
      ContentStep(env, states[i - 1], steps[i - 1], d);
    }
  }

  lemma {:induction false} ContentStep(env: Env, s: State, step: Step, d: int)
    requires Inv(env, s) && Enabled(s, step) && d in s.content
    ensures d in Apply(env, s, step).content && Apply(env, s, step).content[d] == s.content[d]
  {
    if step.StoreContent? {
      assert RequestOk(s, s.requests[step.request]);
      assert ContentOk(s, d);
    } else {
      hide Inv;
      OtherStepsKeepContent(env, s, step);
    }
  }

  lemma {:induction false} OtherStepsKeepContent(env: Env, s: State, step: Step)
    requires Enabled(s, step) && !step.StoreContent?
    ensures Apply(env, s, step).content == s.content
  {
    if HandleStep(step) {
      HandleStepsKeepContent(env, s, step);
    }
  }

  lemma {:induction false} HandleStepsKeepContent(env: Env, s: State, step: Step)
    requires Enabled(s, step) && HandleStep(step)
    ensures Apply(env, s, step).content == s.content
  {
    match step
    case CheckIngesting(_) =>
    case CommitIngesting(_) =>
    case Extract(_) =>
    case Index(w) => IndexMoves(env, s, w);
    case CheckIndexed(_) =>
    case CommitIndexed(_) =>
    case Raise(_) =>
  }

  lemma {:induction false} ChunksStep(env: Env, s: State, step: Step, d: int)
    requires Enabled(s, step) && d in s.chunks
    ensures d in Apply(env, s, step).chunks
  {
    if HandleStep(step) {
      HandleStepsKeepChunks(env, s, step, d);
    }
  }

  lemma {:induction false} HandleStepsKeepChunks(env: Env, s: State, step: Step, d: int)
    requires Enabled(s, step) && HandleStep(step) && d in s.chunks
    ensures d in Apply(env, s, step).chunks
  {
    match step
    case CheckIngesting(_) =>
    case CommitIngesting(_) =>
    case Extract(_) =>
    case Index(w) => assert d in AfterIndex(env, s, w).chunks;
    case CheckIndexed(_) =>
    case CommitIndexed(_) =>
    case Raise(_) =>
  }

  lemma {:induction false} ChunksKept(env: Env, s: State, states: seq<State>, steps: seq<Step>, i: nat, d: int)
    requires RunFrom(env, s, states, steps) && i < |states| && d in s.chunks
    ensures d in states[i].chunks
  {
    if i > 0 {
      hide Apply, Enabled;
      ChunksKept(env, s, states, steps, i - 1, d);
      ChunksStep(env, states[i - 1], steps[i - 1], d);
    }
  }

  /** The chunks of a document, once stored, stay what they are for ever, whatever later attempts do
      and also when the document is deleted: searches go on finding them. */
  lemma {:induction false} ChunksStayForever(env: Env, s: State, states: seq<State>, steps: seq<Step>, i: nat, d: int)
    requires Inv(env, s) && RunFrom(env, s, states, steps) && i < |states| && d in s.chunks
    ensures d in states[i].chunks && states[i].chunks[d] == s.chunks[d]
    ensures forall tenant, collection, row: ChunkRow :: row.document == d ==>
              (Searchable(states[i], tenant, collection, row) <==> Searchable(s, tenant, collection, row))
  {
    hide Apply, Enabled;
    ChunksKept(env, s, states, steps, i, d);
    RunFromKeepsInv(env, s, states, steps, i);
    assert DocOk(env, s, d);
    ContentStays(env, s, states, steps, i, d);
    IdentityStays(env, s, states, steps, i, d);
    assert DocOk(env, states[i], d);
  }

  /** In every reachable state the queries of a search find the chunks of a document exactly for its
      own tenant and, with a filter, for its own collection. */
  lemma {:induction false} FoundExactlyInScope(env: Env, states: seq<State>, steps: seq<Step>, i: nat, row: ChunkRow,
                                               tenant: int, collection: Option<int>)
    requires IsRun(env, states, steps) && i < |states|
    requires row.document in states[i].chunks && row in states[i].chunks[row.document]
    ensures row.document in states[i].docs
    ensures Searchable(states[i], tenant, collection, row)
       <==> var doc := states[i].docs[row.document];
            tenant == doc.tenant && (collection.Some? ==> collection.value == doc.collection)
  {
    var s, d := states[i], row.document;
    RunKeepsInv(env, states, steps, i);
    assert d in s.docs;
    IndexConsistent(env, states, steps, i, d);
    var n :| 0 <= n < |s.chunks[d]| && s.chunks[d][n] == row;
  }
}
