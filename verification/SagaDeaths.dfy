/** How stuck jobs end: dead, with a document that is FAILED or DELETED unless marking it FAILED was
    abandoned. */
module SagaDeaths {
  import opened Documents
  import opened Jobs
  import opened Saga
  import opened SagaInvariant
  import opened SagaSteps
  import opened SagaRuns
  import opened SagaOutcomes
  import opened SagaRetry
  import opened SagaBurials

  /** What happened in a run at one of its steps. */
  ghost predicate AbandonedAt(states: seq<State>, steps: seq<Step>, i: nat, k: JobKey) {
    i < |steps| && i < |states| && AbandonsMarking(states[i], steps[i], k) && HasStatus(states[i], k.document, {Ingesting})
  }

  lemma {:induction false} StuckIsQueued(s: State, k: JobKey)
    requires Stuck(s, k)
    ensures k in s.jobs
  {
  }

  lemma {:induction false} NeverLeftIngesting(env: Env, s: State, states: seq<State>, steps: seq<Step>, i: nat, k: JobKey)
    requires Inv(env, s) && RunFrom(env, s, states, steps) && i < |states| && Stuck(s, k) && !LeftIngesting(s, k)
    requires forall j: nat :: j < i ==> !AbandonedAt(states, steps, j, k)
    ensures !LeftIngesting(states[i], k)
  {
    if i > 0 {
      hide Apply, Enabled, Inv, Stuck, LeftIngesting, AbandonsMarking;
      NeverLeftIngesting(env, s, states, steps, i - 1, k);
      RunFromKeepsInv(env, s, states, steps, i - 1);
      StuckForever(env, s, states, steps, i - 1, k);
      StuckIsQueued(states[i - 1], k);
      LeftIngestingExactlyBy(env, states[i - 1], steps[i - 1], k);
      assert !AbandonedAt(states, steps, i - 1, k);
    }
  }

  /** Every later attempt at a stuck job fails: in no later state is it completed or its document
      indexed; it is dead exactly when it has been claimed `maxAttempts` times and is not being
      processed any more; and once it is dead and let go, its document is FAILED or DELETED, unless
      a crash or a swallowed exception abandoned marking it FAILED. */
  lemma {:induction false} StuckJobsDie(env: Env, s: State, states: seq<State>, steps: seq<Step>, i: nat, k: JobKey)
    requires Inv(env, s) && RunFrom(env, s, states, steps) && i < |states| && Stuck(s, k) && s.jobs[k].status != DeadLetter
    ensures k in states[i].jobs && k in states[i].claims && k.document in states[i].docs
    ensures states[i].jobs[k].status != Completed && states[i].docs[k.document].status !in {Registered, Indexed}
    ensures states[i].jobs[k].status == DeadLetter
       <==> states[i].claims[k] == states[i].jobs[k].maxAttempts && states[i].jobs[k].status != Processing
    ensures states[i].jobs[k].status == DeadLetter && Unclaimed(states[i], k)
            && (forall j: nat :: j < i ==> !AbandonedAt(states, steps, j, k)) ==>
              states[i].docs[k.document].status in {Failed, Deleted}
  {
    StuckNeverCompletes(env, s, states, steps, i, k);
    if states[i].jobs[k].status == DeadLetter && Unclaimed(states[i], k)
       && (forall j: nat :: j < i ==> !AbandonedAt(states, steps, j, k)) {
      NeverLeftIngesting(env, s, states, steps, i, k);
      StuckForever(env, s, states, steps, i, k);
      assert Settled(states[i], k);
      assert !HasStatus(states[i], k.document, {Ingesting});
    }
  }

  // ---- Stuck jobs can die ----

  /** The worker gets past the job at the head of its batch, and no other job changes. */
  ghost predicate CanDrop(env: Env, s: State, w: int)
    requires w in s.workers && s.workers[w].Working? && s.workers[w].batch != []
  {
    exists t :: Reaches(env, s, t) && Drops(s, t, w)
  }

  ghost predicate Drops(s: State, t: State, w: int)
    requires w in s.workers && s.workers[w].Working? && s.workers[w].batch != []
  {
    && w in t.workers && t.workers[w] == NextJob(s.workers[w].batch)
    && OtherJobsKept(s, t, Head(s, w).key)
  }

  ghost predicate OtherJobsKept(s: State, t: State, k: JobKey) {
    forall j :: j in s.jobs && j != k ==> j in t.jobs && t.jobs[j] == s.jobs[j]
  }

  /** A step that keeps the batch, and then dropping its head. */
  lemma {:induction false} StepThenDrops(env: Env, s: State, step: Step, w: int)
    requires Enabled(s, step) && w in s.workers && s.workers[w].Working? && s.workers[w].batch != []
    requires var u := Apply(env, s, step);
             && w in u.workers && u.workers[w].Working? && u.workers[w].batch == s.workers[w].batch
             && OtherJobsKept(s, u, Head(s, w).key) && CanDrop(env, u, w)
    ensures CanDrop(env, s, w)
  {
    hide Apply, Enabled, Reaches;
    var u := Apply(env, s, step);
    var t :| Reaches(env, u, t) && Drops(u, t, w);
    ReachesFirst(env, s, step, t);
    assert Drops(s, t, w);
  }

  lemma {:induction false} BuriedDrops(env: Env, s: State, w: int)
    requires WorkingAt(s, w, Buried) || WorkingAt(s, w, FailedChecked)
    ensures CanDrop(env, s, w)
  {
    ReachesItself(env, s);
    ReachesOneMore(env, s, s, SwallowFailure(w));
    assert Drops(s, Apply(env, s, SwallowFailure(w)), w);
  }

  lemma {:induction false} RaisedDrops(env: Env, s: State, w: int)
    requires WorkingAt(s, w, Raised)
    ensures CanDrop(env, s, w)
  {
    var t := AfterFail(s, w, "");
    assert OtherJobsKept(s, t, Head(s, w).key);
    if DeadLetters(Head(s, w)) {
      assert WorkingAt(t, w, Buried);
      BuriedDrops(env, t, w);
      StepThenDrops(env, s, Fail(w, ""), w);
    } else {
      ReachesItself(env, s);
      ReachesOneMore(env, s, s, Fail(w, ""));
      assert Drops(s, t, w);
    }
  }

  lemma {:induction false} HeadDrops(env: Env, s: State, w: int)
    requires w in s.workers && s.workers[w].Working? && s.workers[w].batch != []
    ensures CanDrop(env, s, w)
  {
    var point := s.workers[w].point;
    if point == Buried || point == FailedChecked {
      BuriedDrops(env, s, w);
    } else if point == Raised {
      RaisedDrops(env, s, w);
    } else {
      assert Apply(env, s, Raise(w)) == At(s, w, Raised);
      RaisedDrops(env, At(s, w, Raised), w);
      StepThenDrops(env, s, Raise(w), w);
    }
  }

  function AttemptsLeft(s: State, k: JobKey): nat {
    if k in s.jobs && s.jobs[k].maxAttempts > s.jobs[k].attempts then s.jobs[k].maxAttempts - s.jobs[k].attempts else 0
  }

  function BatchSize(s: State, w: int): nat {
    if w in s.workers && s.workers[w].Working? then |s.workers[w].batch| else 0
  }

  /** A waiting stuck job is claimed again. */
  lemma {:induction false} WaitingCanDie(env: Env, s: State, k: JobKey)
    requires Inv(env, s) && Stuck(s, k) && Waiting(s, k)
    ensures CanReach(env, s, k, DeadLetter)
    decreases AttemptsLeft(s, k), 3, 0
  {
    hide Inv, Stuck, Reaches, CanReach, LockedKeys;
    PendingIsTaken(env, s, k);
    var t, x :| Reaches(env, s, t) && TakenAs(s, t, x, k);
    ReachedInv(env, s, t);
    StuckReached(env, s, t, k);
    HeadIsClaimed(t, x, k);
    HeldCanDie(env, t, x, k);
    RunThenReach(env, s, t, k, DeadLetter);
  }

  /** A worker that holds a stuck job gets to it. */
  lemma {:induction false} HeldCanDie(env: Env, s: State, w: int, k: JobKey)
    requires Inv(env, s) && Stuck(s, k) && JobIs(s, k, Processing)
    requires w in s.workers && s.workers[w].Working? && k in Claims(s.workers[w])
    ensures CanReach(env, s, k, DeadLetter)
    decreases AttemptsLeft(s, k), 2, BatchSize(s, w)
  {
    hide Inv, Stuck, Reaches, CanReach, CanDrop;
    var batch := s.workers[w].batch;
    HeadFacts(env, s, w);
    if batch[0].key == k {
      HeadCanDie(env, s, w, k);
    } else {
      HeadDrops(env, s, w);
      var t := DroppedState(env, s, w);
      ReachedInv(env, s, t);
      StuckReached(env, s, t, k);
      TailKeeps(batch, k);
      HeldCanDie(env, t, w, k);
      RunThenReach(env, s, t, k, DeadLetter);
    }
  }

  lemma {:induction false} DroppedState(env: Env, s: State, w: int) returns (t: State)
    requires w in s.workers && s.workers[w].Working? && s.workers[w].batch != [] && CanDrop(env, s, w)
    ensures Reaches(env, s, t) && Drops(s, t, w)
  {
    hide Reaches;
    t :| Reaches(env, s, t) && Drops(s, t, w);
  }

  lemma {:induction false} TailKeeps(batch: seq<IngestionJob>, k: JobKey)
    requires batch != [] && k in Keys(batch) && batch[0].key != k
    ensures |batch| > 1 && k in Keys(batch[1..])
  {
    var i :| 0 <= i < |batch| && batch[i].key == k;
    assert batch[1..][i - 1].key == k;
  }

  lemma {:induction false} HeadCanDie(env: Env, s: State, w: int, k: JobKey)
    requires Inv(env, s) && Stuck(s, k) && JobIs(s, k, Processing) && HeadIs(s, w, k)
    ensures CanReach(env, s, k, DeadLetter)
    decreases AttemptsLeft(s, k), 1, 0
  {
    hide Inv, Reaches, CanReach;
    var point := s.workers[w].point;
    assert Hopeless(point);
    if point == Buried || point == FailedChecked {
      BuriedIsDead(env, s, w, k);
      assert false;
    } else if point == AtStart {
      StuckIsRefused(env, s, w, k);
      var t := At(s, w, Raised);
      CheckIngestingKeeps(env, s, w);
      StuckStays(env, s, CheckIngesting(w), k);
      RaisedCanDie(env, t, w, k);
      StepThenReach(env, s, CheckIngesting(w), k, DeadLetter);
    } else {
      RaisedCanDie(env, s, w, k);
    }
  }

  /** mark_ingesting refuses the document of a stuck job. */
  lemma {:induction false} StuckIsRefused(env: Env, s: State, w: int, k: JobKey)
    requires Inv(env, s) && Stuck(s, k) && JobIs(s, k, Processing) && HeadIs(s, w, k) && s.workers[w].point == AtStart
    ensures Enabled(s, CheckIngesting(w)) && Apply(env, s, CheckIngesting(w)) == At(s, w, Raised)
  {
  }

  lemma {:induction false} RaisedCanDie(env: Env, s: State, w: int, k: JobKey)
    requires Inv(env, s) && Stuck(s, k) && JobIs(s, k, Processing) && HeadIs(s, w, k) && s.workers[w].point == Raised
    ensures CanReach(env, s, k, DeadLetter)
    decreases AttemptsLeft(s, k), 0, 0
  {
    hide Inv, Stuck, Reaches, CanReach, LockedKeys;
    var t := AfterFail(s, w, "");
    FailKeeps(env, s, w, "");
    StuckStays(env, s, Fail(w, ""), k);
    FailureUsesOne(env, s, w, k);
    if DeadLetters(Head(s, w)) {
      AlreadyThere(env, t, k, DeadLetter);
    } else {
      FailedIsWaiting(env, s, w);
      WaitingCanDie(env, t, k);
    }
    StepThenReach(env, s, Fail(w, ""), k, DeadLetter);
  }

  lemma {:induction false} FailureUsesOne(env: Env, s: State, w: int, k: JobKey)
    requires Inv(env, s) && JobIs(s, k, Processing) && HeadIs(s, w, k) && s.workers[w].point == Raised
    ensures var t := AfterFail(s, w, "");
            k in t.jobs && AttemptsLeft(t, k) < AttemptsLeft(s, k)
            && (DeadLetters(Head(s, w)) ==> t.jobs[k].status == DeadLetter)
  {
    HeadFacts(env, s, w);
    FailedRowOk(s, Head(s, w), "");
  }

  /** A worker that has locked a stuck job claims it. */
  lemma {:induction false} LockedCanDie(env: Env, s: State, w: int, k: JobKey)
    requires Inv(env, s) && Stuck(s, k) && w in s.workers && s.workers[w].Claiming? && k in Claims(s.workers[w])
    ensures CanReach(env, s, k, DeadLetter)
  {
    ClaimIsHeld(env, s, w, k);
    hide Inv, Stuck, Reaches, CanReach, Apply, Enabled;
    var t := Apply(env, s, CommitClaim(w));
    StepKeepsInv(env, s, CommitClaim(w));
    StuckStays(env, s, CommitClaim(w), k);
    HeldCanDie(env, t, w, k);
    StepThenReach(env, s, CommitClaim(w), k, DeadLetter);
  }

  lemma {:induction false} ClaimIsHeld(env: Env, s: State, w: int, k: JobKey)
    requires Inv(env, s) && w in s.workers && s.workers[w].Claiming? && k in Claims(s.workers[w])
    ensures Enabled(s, CommitClaim(w))
    ensures var t := Apply(env, s, CommitClaim(w));
            JobIs(t, k, Processing) && w in t.workers && t.workers[w].Working? && k in Claims(t.workers[w])
  {
    var rows, readAt := s.workers[w].rows, s.workers[w].readAt;
    assert WorkerOk(s, s.workers[w]);
    forall i | 0 <= i < |rows| ensures rows[i].key in s.jobs {
      assert Locked(s, rows[i], readAt);
    }
    var i :| 0 <= i < |rows| && rows[i].key == k;
    ClaimedAt(s.jobs, rows, w, readAt, i);
  }

  /** A stuck job that is not orphaned can die: its remaining attempts all end at mark_ingesting. */
  lemma {:induction false} StuckJobsCanDie(env: Env, s: State, k: JobKey)
    requires Inv(env, s) && Stuck(s, k) && !Orphaned(s, k)
    ensures CanReach(env, s, k, DeadLetter)
  {
    hide Inv, Reaches, CanReach;
    if s.jobs[k].status == DeadLetter {
      AlreadyThere(env, s, k, DeadLetter);
    } else if s.jobs[k].status == Processing {
      var w :| w in s.workers && k in Claims(s.workers[w]);
      if s.workers[w].Claiming? {
        LockedCanDie(env, s, w, k);
      } else {
        HeldCanDie(env, s, w, k);
      }
    } else if k in LockedKeys(s) {
      var w, i :| w in s.workers && s.workers[w].Claiming? && 0 <= i < |s.workers[w].rows| && s.workers[w].rows[i].key == k;
      LockedCanDie(env, s, w, k);
    } else {
      WaitingCanDie(env, s, k);
    }
  }

  /** A stuck job can still die if and only if no crash has orphaned it; otherwise it stays
      PROCESSING for ever. */
  lemma {:induction false} StuckJobsDieExactlyUnless(env: Env, s: State, k: JobKey)
    requires Inv(env, s) && Stuck(s, k)
    ensures CanReach(env, s, k, DeadLetter) <==> !Orphaned(s, k)
  {
    hide Inv, Stuck;
    if Orphaned(s, k) {
      forall t | Reaches(env, s, t) ensures !JobIs(t, k, DeadLetter) {
        var states, steps :| RunFrom(env, s, states, steps) && states[|steps|] == t;
        OrphansStayForever(env, s, states, steps, |steps|, k);
      }
    } else {
      StuckJobsCanDie(env, s, k);
    }
  }
}
