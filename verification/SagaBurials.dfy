/** What becomes of the document of a dead job. */
module SagaBurials {
  import opened Documents
  import opened Jobs
  import opened Saga
  import opened SagaInvariant
  import opened SagaSteps
  import opened SagaRuns
  import opened SagaOutcomes

  /** Nobody has the job. */
  ghost predicate Unclaimed(s: State, k: JobKey) {
    forall w :: w in s.workers ==> k !in Claims(s.workers[w])
  }

  /** The job is dead and its worker has let go of it. */
  ghost predicate Settled(s: State, k: JobKey) {
    JobIs(s, k, DeadLetter) && Unclaimed(s, k)
  }

  ghost predicate BuriedBy(s: State, w: int, k: JobKey) {
    HeadIs(s, w, k) && (s.workers[w].point == Buried || s.workers[w].point == FailedChecked)
  }

  /** The worker that buried the job crashes, or an exception of mark_failed is swallowed. */
  ghost predicate AbandonsMarking(s: State, step: Step, k: JobKey) {
    (step.Crash? || step.SwallowFailure?) && BuriedBy(s, step.w, k)
  }

  /** The worker that buried the job marks the document FAILED, finds that it may not, or abandons it. */
  ghost predicate LetsGo(s: State, step: Step, k: JobKey) {
    && (step.Crash? || step.SwallowFailure? || step.CommitFailed? || step.CheckFailed?) && BuriedBy(s, step.w, k)
    && (step.CheckFailed? ==> !MayMark(s, s.workers[step.w].batch[0], Failed))
  }

  // ---- Who has a dead job ----

  /** A dead job is claimed by nobody but the worker that buried it. */
  lemma {:induction false} DeadIsBuried(env: Env, s: State, w: int, k: JobKey)
    requires Inv(env, s) && w in s.workers && k in Claims(s.workers[w]) && JobIs(s, k, DeadLetter)
    ensures BuriedBy(s, w, k)
  {
    var worker := s.workers[w];
    assert WorkerOk(s, worker);
    match worker
    case Claiming(rows, readAt) => ClaimingIsPending(env, s, w, k);
    case Working(batch, point) =>
      var i :| 0 <= i < |batch| && batch[i].key == k;
      assert i > 0 ==> Held(s, batch[i]);
  }

  lemma {:induction false} BuriedIsDead(env: Env, s: State, w: int, k: JobKey)
    requires Inv(env, s) && BuriedBy(s, w, k)
    ensures JobIs(s, k, DeadLetter) && k == Key(k.document) && k.document in s.docs
  {
    HeadFacts(env, s, w);
  }

  lemma {:induction false} HeadIsClaimed(s: State, w: int, k: JobKey)
    requires HeadIs(s, w, k)
    ensures k in Claims(s.workers[w])
  {
    assert s.workers[w].batch[0].key in Keys(s.workers[w].batch);
  }

  lemma {:induction false} DeadFacts(env: Env, s: State, k: JobKey)
    requires Inv(env, s) && JobIs(s, k, DeadLetter)
    ensures k == Key(k.document) && k.document in s.docs
  {
    assert JobOk(s, k);
  }

  lemma {:induction false} HeadIsNotInTail(batch: seq<IngestionJob>)
    requires batch != [] && DistinctKeys(batch)
    ensures batch[0].key !in Claims(NextJob(batch))
  {
    forall i | 0 <= i < |batch| - 1 ensures batch[1..][i].key != batch[0].key {
    }
  }

  lemma {:induction false} Unmoved(env: Env, s: State, step: Step, w: int)
    requires Enabled(s, step) && w in s.workers && !(WorkerStep(step) && step.w == w)
    ensures w in Apply(env, s, step).workers && Apply(env, s, step).workers[w] == s.workers[w]
  {
    hide Apply, Enabled;
    WorkersStay(env, s, step, w);
    WorkersMoveThemselves(env, s, step, w);
  }

  // ---- How a worker lets go of a dead job ----

  /** mark_failed is allowed exactly for an INGESTING document. */
  lemma {:induction false} MayMarkFailed(env: Env, s: State, w: int, k: JobKey)
    requires Inv(env, s) && BuriedBy(s, w, k)
    ensures MayMark(s, s.workers[w].batch[0], Failed) <==> HasStatus(s, k.document, {Ingesting})
  {
    HeadFacts(env, s, w);
  }

  lemma {:induction false} BuriedChecks(env: Env, s: State, w: int, k: JobKey)
    requires Enabled(s, CheckFailed(w)) && HeadIs(s, w, k) && MayMark(s, s.workers[w].batch[0], Failed)
    ensures Apply(env, s, CheckFailed(w)) == At(s, w, FailedChecked)
  {
    hide NextJob, MayMark;
  }

  lemma {:induction false} BuriedSteps(s: State, step: Step, k: JobKey)
    requires Enabled(s, step) && WorkerStep(step) && BuriedBy(s, step.w, k)
    ensures step.Crash? || step.SwallowFailure? || step.CommitFailed? || step.CheckFailed?
  {
  }

  /** What letting go does. */
  lemma {:induction false} LetGo(env: Env, s: State, step: Step, k: JobKey)
    requires Enabled(s, step) && LetsGo(s, step, k)
    ensures var t, batch := Apply(env, s, step), s.workers[step.w].batch;
            && t.jobs == s.jobs
            && t.workers == (if step.Crash? then s.workers - {step.w} else s.workers[step.w := NextJob(batch)])
            && (if step.CommitFailed? then
                  k.document in s.docs && t.docs == s.docs[k.document := s.docs[k.document].(status := Failed)]
                else t.docs == s.docs)
  {
    hide NextJob, MayMark;
    match step
    case Crash(_) =>
    case SwallowFailure(_) =>
    case CommitFailed(_) =>
    case CheckFailed(_) =>
  }

  lemma {:induction false} LetGoSettles(env: Env, s: State, step: Step, k: JobKey)
    requires Inv(env, s) && Enabled(s, step) && LetsGo(s, step, k)
    ensures k.document in s.docs && Settled(Apply(env, s, step), k)
    ensures HasStatus(Apply(env, s, step), k.document, {if step.CommitFailed? then Failed else s.docs[k.document].status})
  {
    hide Apply, Enabled, Inv, Claims, NextJob;
    var t, w := Apply(env, s, step), step.w;
    LetGo(env, s, step, k);
    BuriedIsDead(env, s, w, k);
    BatchFacts(env, s, w);
    HeadIsNotInTail(s.workers[w].batch);
    HeadIsClaimed(s, w, k);
    forall x | x in t.workers ensures k !in Claims(t.workers[x]) {
      if x != w {
        ClaimedByOne(env, s, w, x, k);
      }
    }
  }

  /** A job that dies is buried by the worker that fails it. */
  lemma {:induction false} DyingIsClaimed(env: Env, s: State, step: Step, k: JobKey)
    requires Inv(env, s) && Enabled(s, step) && k in s.jobs && s.jobs[k].status != DeadLetter
    requires JobIs(Apply(env, s, step), k, DeadLetter)
    ensures !Unclaimed(Apply(env, s, step), k)
  {
    var t := Apply(env, s, step);
    OnlyFailKills(env, s, step, k);
    HeadFacts(env, s, step.w);
    FailMoves(env, s, step.w, step.error);
    FailedRowOk(s, Head(s, step.w), step.error);
    hide Apply, Inv;
    HeadIsClaimed(t, step.w, k);
  }

  lemma {:induction false} OnlyFailKills(env: Env, s: State, step: Step, k: JobKey)
    requires Inv(env, s) && Enabled(s, step) && k in s.jobs && s.jobs[k].status != DeadLetter
    requires JobIs(Apply(env, s, step), k, DeadLetter)
    ensures step.Fail? && HeadIs(s, step.w, k)
  {
    JobsOnlyChangeByHolders(env, s, step, k);
    if step.CommitClaim? {
      ClaimedIsProcessing(env, s, step.w, k);
    }
  }

  lemma {:induction false} BuriedIsKept(env: Env, s: State, step: Step, w: int, k: JobKey)
    requires Inv(env, s) && Enabled(s, step) && BuriedBy(s, w, k) && Unclaimed(Apply(env, s, step), k)
    ensures LetsGo(s, step, k)
  {
    hide Apply, Enabled, Inv, MayMark;
    var t := Apply(env, s, step);
    HeadIsClaimed(s, w, k);
    if !(WorkerStep(step) && step.w == w) {
      Unmoved(env, s, step, w);
    } else {
      BuriedSteps(s, step, k);
      if step.CheckFailed? && MayMark(s, s.workers[w].batch[0], Failed) {
        BuriedChecks(env, s, w, k);
        HeadIsClaimed(t, w, k);
      }
    }
  }

  /** A step settles a job if and only if the worker that buried it lets go of it; the document is
      then FAILED if the step has marked it, and else has the status it had. */
  lemma {:induction false} SettledExactlyBy(env: Env, s: State, step: Step, k: JobKey)
    requires Inv(env, s) && Enabled(s, step) && k in s.jobs && !Settled(s, k)
    ensures Settled(Apply(env, s, step), k) <==> LetsGo(s, step, k)
    ensures LetsGo(s, step, k) ==>
              k.document in s.docs
              && HasStatus(Apply(env, s, step), k.document, {if step.CommitFailed? then Failed else s.docs[k.document].status})
  {
    hide Apply, Enabled, Inv, LetsGo;
    if LetsGo(s, step, k) {
      LetGoSettles(env, s, step, k);
    }
    if Settled(Apply(env, s, step), k) {
      if s.jobs[k].status == DeadLetter {
        var w :| w in s.workers && k in Claims(s.workers[w]);
        DeadIsBuried(env, s, w, k);
        BuriedIsKept(env, s, step, w, k);
      } else {
        DyingIsClaimed(env, s, step, k);
      }
    }
  }

  // ---- What is settled ----

  /** The transitions of a dead job's document: mark_failed by the worker that buried it, and deletes. */
  lemma {:induction false} DeadDocChanges(env: Env, s: State, step: Step, k: JobKey)
    requires Inv(env, s) && Enabled(s, step) && JobIs(s, k, DeadLetter) && k == Key(k.document) && k.document in s.docs
    ensures k.document in Apply(env, s, step).docs
    ensures || Apply(env, s, step).docs[k.document] == s.docs[k.document]
            || Apply(env, s, step).docs[k.document].status == Deleted
            || (step.CommitFailed? && HeadIs(s, step.w, k) && s.workers[step.w].point == FailedChecked)
  {
    hide Apply, Inv;
    StatusOnlyChangesBy(env, s, step, k.document);
    if ChangesStatus(s, step, k.document) {
      if step.CommitDelete? {
        DeletingDeletes(env, s, step.request);
      } else {
        HeadIsClaimed(s, step.w, k);
        DeadIsBuried(env, s, step.w, k);
      }
    }
  }

  lemma {:induction false} DeletingDeletes(env: Env, s: State, r: int)
    requires Enabled(s, CommitDelete(r))
    ensures HasStatus(Apply(env, s, CommitDelete(r)), s.requests[r].document, {Deleted})
  {
  }

  lemma {:induction false} SettledStays(env: Env, s: State, step: Step, k: JobKey)
    requires Inv(env, s) && Enabled(s, step) && Settled(s, k)
    ensures k.document in s.docs && Settled(Apply(env, s, step), k)
    ensures HasStatus(Apply(env, s, step), k.document, {s.docs[k.document].status, Deleted})
  {
    hide Apply, Enabled, Inv, Claims;
    var t := Apply(env, s, step);
    DeadFacts(env, s, k);
    DeadDocChanges(env, s, step, k);
    TerminalRowsStay(env, s, step, k);
    if step.CommitFailed? && HeadIs(s, step.w, k) {
      HeadIsClaimed(s, step.w, k);
    }
    forall x | x in t.workers ensures k !in Claims(t.workers[x]) {
      if k in Claims(t.workers[x]) {
        ClaimsOnlyGrowBySelecting(env, s, step, x, k);
      }
    }
  }

  /** Once a job is dead and let go, its document keeps its status for ever, unless it is deleted. */
  lemma {:induction false} SettledForever(env: Env, s: State, states: seq<State>, steps: seq<Step>, i: nat, k: JobKey)
    requires Inv(env, s) && RunFrom(env, s, states, steps) && i < |states| && Settled(s, k)
    ensures k.document in s.docs && Settled(states[i], k)
    ensures HasStatus(states[i], k.document, {s.docs[k.document].status, Deleted})
  {
    hide Apply, Enabled, Inv, Settled;
    if i == 0 {
      SettledFacts(env, s, k);
    } else {
      SettledForever(env, s, states, steps, i - 1, k);
      RunFromKeepsInv(env, s, states, steps, i - 1);
      SettledStays(env, states[i - 1], steps[i - 1], k);
    }
  }

  lemma {:induction false} SettledFacts(env: Env, s: State, k: JobKey)
    requires Inv(env, s) && Settled(s, k)
    ensures k.document in s.docs
  {
    DeadFacts(env, s, k);
  }

  // ---- Documents left INGESTING ----

  ghost predicate LeftIngesting(s: State, k: JobKey) {
    Settled(s, k) && HasStatus(s, k.document, {Ingesting})
  }

  /** A step leaves the document of a dead job INGESTING if and only if it abandons marking it
      FAILED; by `SettledForever` it is then left so until it is deleted. */
  lemma {:induction false} LeftIngestingExactlyBy(env: Env, s: State, step: Step, k: JobKey)
    requires Inv(env, s) && Enabled(s, step) && k in s.jobs && !LeftIngesting(s, k)
    ensures LeftIngesting(Apply(env, s, step), k)
       <==> AbandonsMarking(s, step, k) && HasStatus(s, k.document, {Ingesting})
  {
    hide Apply, Enabled, Inv, Settled, MayMark;
    if Settled(s, k) {
      SettledStays(env, s, step, k);
      SettledIsNotBuried(s, step, k);
    } else {
      SettledExactlyBy(env, s, step, k);
      if step.CheckFailed? && BuriedBy(s, step.w, k) {
        MayMarkFailed(env, s, step.w, k);
      }
    }
  }

  lemma {:induction false} SettledIsNotBuried(s: State, step: Step, k: JobKey)
    requires Settled(s, k)
    ensures !AbandonsMarking(s, step, k)
  {
    if AbandonsMarking(s, step, k) {
      HeadIsClaimed(s, step.w, k);
    }
  }

  // ---- Which documents are marked FAILED ----

  /** Some continuation has the document of the job FAILED. */
  ghost predicate CanBeMarked(env: Env, s: State, k: JobKey) {
    exists t :: Reaches(env, s, t) && HasStatus(t, k.document, {Failed})
  }

  /** The document is FAILED, or the worker that buried the job has passed the check of mark_failed
      or is going to pass it. */
  ghost predicate Markable(s: State, k: JobKey) {
    || HasStatus(s, k.document, {Failed})
    || exists w :: HeadIs(s, w, k) && Marking(s, w, k)
  }

  ghost predicate Marking(s: State, w: int, k: JobKey)
    requires HeadIs(s, w, k)
  {
    s.workers[w].point == FailedChecked || (s.workers[w].point == Buried && HasStatus(s, k.document, {Ingesting}))
  }

  lemma {:induction false} FailedCheckedMarks(env: Env, s: State, w: int, k: JobKey)
    requires HeadIs(s, w, k) && s.workers[w].point == FailedChecked && k.document in s.docs
    ensures CanBeMarked(env, s, k)
  {
    hide NextJob;
    ReachesItself(env, s);
    ReachesOneMore(env, s, s, CommitFailed(w));
    assert HasStatus(Apply(env, s, CommitFailed(w)), k.document, {Failed});
  }

  lemma {:induction false} BuriedMarks(env: Env, s: State, w: int, k: JobKey)
    requires Inv(env, s) && HeadIs(s, w, k) && s.workers[w].point == Buried && HasStatus(s, k.document, {Ingesting})
    ensures CanBeMarked(env, s, k)
  {
    MayMarkFailed(env, s, w, k);
    hide Inv, Reaches, MayMark;
    BuriedChecks(env, s, w, k);
    var t := At(s, w, FailedChecked);
    FailedCheckedMarks(env, t, w, k);
    var u :| Reaches(env, t, u) && HasStatus(u, k.document, {Failed});
    ReachesFirst(env, s, CheckFailed(w), u);
  }

  lemma {:induction false} UnmarkableHead(env: Env, s: State, step: Step, x: int, k: JobKey)
    requires Inv(env, s) && Enabled(s, step) && JobIs(s, k, DeadLetter) && !Markable(s, k)
    requires Inv(env, Apply(env, s, step)) && JobIs(Apply(env, s, step), k, DeadLetter) && HeadIs(Apply(env, s, step), x, k)
    ensures HeadIs(s, x, k) && s.workers[x].point == Buried && Apply(env, s, step).workers[x] == s.workers[x]
  {
    hide Apply, Enabled, Inv, Claims, NextJob;
    var t := Apply(env, s, step);
    HeadIsClaimed(t, x, k);
    DeadIsBuried(env, t, x, k);
    WorkersMoveThemselves(env, s, step, x);
    if !(x in s.workers && t.workers[x] == s.workers[x]) {
      HeadsStartFresh(env, s, step, x, k);
      HeadIsClaimed(s, x, k);
      DeadIsBuried(env, s, x, k);
      BuriedSteps(s, step, k);
      MayMarkFailed(env, s, x, k);
      assert !Marking(s, x, k);
      LetGoSettles(env, s, step, k);
    }
  }

  lemma {:induction false} UnmarkableStays(env: Env, s: State, step: Step, k: JobKey)
    requires Inv(env, s) && Enabled(s, step) && JobIs(s, k, DeadLetter) && !Markable(s, k)
    ensures JobIs(Apply(env, s, step), k, DeadLetter) && !Markable(Apply(env, s, step), k)
  {
    hide Apply, Enabled, Inv;
    var t := Apply(env, s, step);
    DeadFacts(env, s, k);
    DeadDocChanges(env, s, step, k);
    TerminalRowsStay(env, s, step, k);
    StepKeepsInv(env, s, step);
    if step.CommitFailed? && HeadIs(s, step.w, k) {
      assert !Marking(s, step.w, k);
    }
    forall x | HeadIs(t, x, k) ensures !Marking(t, x, k) {
      UnmarkableHead(env, s, step, x, k);
      assert !Marking(s, x, k);
    }
  }

  lemma {:induction false} UnmarkableForever(env: Env, s: State, states: seq<State>, steps: seq<Step>, i: nat, k: JobKey)
    requires Inv(env, s) && RunFrom(env, s, states, steps) && i < |states| && JobIs(s, k, DeadLetter) && !Markable(s, k)
    ensures JobIs(states[i], k, DeadLetter) && !Markable(states[i], k)
  {
    if i > 0 {
      hide Apply, Enabled, Inv, Markable;
      UnmarkableForever(env, s, states, steps, i - 1, k);
      RunFromKeepsInv(env, s, states, steps, i - 1);
      UnmarkableStays(env, states[i - 1], steps[i - 1], k);
    }
  }

  /** The document of a dead job can become FAILED if and only if it is so already or the worker that
      buried the job has passed the check of mark_failed or finds it INGESTING. */
  lemma {:induction false} DeadIsMarkedExactlyWhen(env: Env, s: State, k: JobKey)
    requires Inv(env, s) && JobIs(s, k, DeadLetter)
    ensures CanBeMarked(env, s, k) <==> Markable(s, k)
  {
    hide Inv, Reaches;
    if Markable(s, k) {
      DeadFacts(env, s, k);
      if HasStatus(s, k.document, {Failed}) {
        ReachesItself(env, s);
      } else {
        var w :| HeadIs(s, w, k) && Marking(s, w, k);
        if s.workers[w].point == FailedChecked {
          FailedCheckedMarks(env, s, w, k);
        } else {
          BuriedMarks(env, s, w, k);
        }
      }
    } else {
      forall t | Reaches(env, s, t) ensures !HasStatus(t, k.document, {Failed}) {
        NeverMarked(env, s, t, k);
      }
    }
  }

  lemma {:induction false} NeverMarked(env: Env, s: State, t: State, k: JobKey)
    requires Inv(env, s) && JobIs(s, k, DeadLetter) && !Markable(s, k) && Reaches(env, s, t)
    ensures !HasStatus(t, k.document, {Failed})
  {
    hide Inv;
    var states, steps :| RunFrom(env, s, states, steps) && states[|steps|] == t;
    UnmarkableForever(env, s, states, steps, |steps|, k);
  }

  /** When its job has just been buried, a document can become FAILED if and only if it is INGESTING;
      mark_failed refuses a REGISTERED, an INDEXED and a DELETED document, and the refusal is swallowed. */
  lemma {:induction false} BuriedIsMarkedExactlyWhen(env: Env, s: State, w: int)
    requires Inv(env, s) && WorkingAt(s, w, Buried)
    ensures CanBeMarked(env, s, Head(s, w).key) <==> HasStatus(s, Head(s, w).key.document, {Ingesting, Failed})
  {
    hide Inv, CanBeMarked;
    var k := Head(s, w).key;
    BuriedIsDead(env, s, w, k);
    DeadIsMarkedExactlyWhen(env, s, k);
    forall x | HeadIs(s, x, k) ensures x == w {
      OneHead(env, s, w, x, k);
    }
    if HasStatus(s, k.document, {Ingesting}) {
      assert HeadIs(s, w, k) && Marking(s, w, k);
    }
  }
}
