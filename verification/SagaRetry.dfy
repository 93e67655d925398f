/** Which failed attempts a retry can make good. */
module SagaRetry {
  import opened Documents
  import opened Jobs
  import opened Saga
  import opened SagaInvariant
  import opened SagaSteps
  import opened SagaRuns
  import opened SagaOutcomes

  // ---- The claiming query always has an answer ----

  /** The rows of some jobs in the order of their availability. */
  ghost predicate Listed(table: Table, keys: set<JobKey>, rows: seq<IngestionJob>) {
    && DistinctKeys(rows) && Keys(rows) == keys
    && (forall i :: 0 <= i < |rows| ==> rows[i].key in table && rows[i] == Snapshot(table, rows[i].key))
    && (forall i, j :: 0 <= i < j < |rows| ==> table[rows[i].key].availableAt <= table[rows[j].key].availableAt)
  }

  lemma {:induction false} Latest(table: Table, keys: set<JobKey>) returns (latest: JobKey)
    requires keys != {} && keys <= table.Keys
    ensures latest in keys && forall k :: k in keys ==> table[k].availableAt <= table[latest].availableAt
    decreases |keys|
  {
    var k :| k in keys;
    latest := k;
    if keys != {k} {
      var other := Latest(table, keys - {k});
      if table[other].availableAt > table[k].availableAt {
        latest := other;
      }
    }
  }

  lemma {:induction false} KeysAppend(rows: seq<IngestionJob>, job: IngestionJob)
    ensures Keys(rows + [job]) == Keys(rows) + {job.key}
  {
    var all := rows + [job];
    forall k ensures k in Keys(all) <==> k in Keys(rows) + {job.key} {
      if k in Keys(rows) {
        var i :| 0 <= i < |rows| && rows[i].key == k;
        assert all[i].key == k;
      }
      assert all[|rows|].key == job.key;
      if k in Keys(all) {
        var i :| 0 <= i < |all| && all[i].key == k;
        assert i < |rows| ==> rows[i].key == k;
      }
    }
  }

  lemma {:induction false} ListedMember(table: Table, keys: set<JobKey>, rows: seq<IngestionJob>, i: nat)
    requires Listed(table, keys, rows) && i < |rows|
    ensures rows[i].key in keys
  {
    assert rows[i].key in Keys(rows);
  }

  lemma {:induction false} ListOneMore(table: Table, keys: set<JobKey>, rows: seq<IngestionJob>, last: JobKey)
    requires Listed(table, keys, rows) && last in table && last !in keys
    requires forall k :: k in keys ==> k in table && table[k].availableAt <= table[last].availableAt
    ensures Listed(table, keys + {last}, rows + [Snapshot(table, last)])
  {
    forall i | 0 <= i < |rows| ensures rows[i].key != last && table[rows[i].key].availableAt <= table[last].availableAt {
      ListedMember(table, keys, rows, i);
    }
    hide Keys;
    KeysAppend(rows, Snapshot(table, last));
  }

  lemma {:induction false} ListKeys(table: Table, keys: set<JobKey>) returns (rows: seq<IngestionJob>)
    requires keys <= table.Keys
    ensures Listed(table, keys, rows)
    decreases |keys|
  {
    if keys == {} {
      rows := [];
    } else {
      hide Listed;
      var last := Latest(table, keys);
      rows := ListKeys(table, keys - {last});
      ListOneMore(table, keys - {last}, rows, last);
      rows := rows + [Snapshot(table, last)];
      assert keys - {last} + {last} == keys;
    }
  }

  function EligibleKeys(table: Table, locked: set<JobKey>, now: int): set<JobKey> {
    set k | k in table && Eligible(table, locked, now, k)
  }

  lemma {:induction false} FirstKeys(rows: seq<IngestionJob>, n: nat)
    requires n <= |rows|
    ensures forall j :: 0 <= j < n ==> rows[j].key in Keys(rows[..n])
  {
    forall j | 0 <= j < n ensures rows[j].key in Keys(rows[..n]) {
      assert rows[..n][j].key == rows[j].key;
    }
  }

  /** The first rows of all eligible ones are an answer. */
  lemma {:induction false} FirstRows(table: Table, locked: set<JobKey>, now: int, rows: seq<IngestionJob>, n: nat)
    requires Listed(table, EligibleKeys(table, locked, now), rows) && n <= |rows|
    ensures IsSelection(table, locked, now, n, rows[..n])
  {
    FirstKeys(rows, n);
    forall i | 0 <= i < |rows| ensures Eligible(table, locked, now, rows[i].key) {
      assert rows[i].key in Keys(rows);
    }
    forall k | k in table && Eligible(table, locked, now, k) && k !in Keys(rows[..n])
      ensures forall i :: 0 <= i < n ==> table[rows[i].key].availableAt <= table[k].availableAt
    {
      assert k in Keys(rows);
      var j :| 0 <= j < |rows| && rows[j].key == k;
      assert j >= n;
    }
  }

  /** Once the first rows are locked, the next one is an answer. */
  lemma {:induction false} NextRow(table: Table, locked: set<JobKey>, now: int, rows: seq<IngestionJob>, n: nat)
    requires Listed(table, EligibleKeys(table, locked, now), rows) && n < |rows|
    ensures IsSelection(table, locked + Keys(rows[..n]), now, 1, [rows[n]])
  {
    FirstKeys(rows, n);
    assert rows[n].key in Keys(rows);
    forall i | 0 <= i < n ensures rows[..n][i].key != rows[n].key {
    }
    assert [rows[n]][0].key == rows[n].key;
    forall k | k in table && Eligible(table, locked + Keys(rows[..n]), now, k) && k !in Keys([rows[n]])
      ensures table[rows[n].key].availableAt <= table[k].availableAt
    {
      assert k in Keys(rows);
      var j :| 0 <= j < |rows| && rows[j].key == k;
      assert j >= n;
    }
  }

  // ---- A pending job can complete ----

  lemma {:induction false} Above(ids: set<int>) returns (id: int)
    ensures forall x :: x in ids ==> x < id
    decreases |ids|
  {
    if x :| x in ids {
      var rest := ids - {x};
      id := Above(rest);
      assert forall y :: y in ids ==> y == x || y in rest;
      if id <= x {
        id := x + 1;
      }
    } else {
      id := 0;
    }
  }

  /** The document of a job can be ingested. */
  ghost predicate Ingestible(env: Env, s: State, k: JobKey) {
    && k.document in s.docs && s.docs[k.document].status in {Registered, Indexed}
    && (k.document in s.content ==> Accepted(env, s.content[k.document].text))
  }

  ghost predicate Waiting(s: State, k: JobKey) {
    k in s.jobs && s.jobs[k].status == Pending && k !in LockedKeys(s)
  }

  lemma {:induction false} LockedBySelecting(s: State, w: int, rows: seq<IngestionJob>)
    requires w in s.workers && s.workers[w].Idle?
    ensures LockedKeys(WithWorker(s, w, Claiming(rows, s.clock))) == LockedKeys(s) + Keys(rows)
  {
    var t := WithWorker(s, w, Claiming(rows, s.clock));
    forall k ensures k in LockedKeys(t) <==> k in LockedKeys(s) + Keys(rows) {
      if k in Keys(rows) {
        var i :| 0 <= i < |rows| && rows[i].key == k;
        assert t.workers[w].rows[i].key == k;
      }
      if k in LockedKeys(s) {
        var x, i :| x in s.workers && s.workers[x].Claiming? && 0 <= i < |s.workers[x].rows| && s.workers[x].rows[i].key == k;
        assert t.workers[x].rows[i].key == k;
      }
      if k in LockedKeys(t) {
        var x, i :| x in t.workers && t.workers[x].Claiming? && 0 <= i < |t.workers[x].rows| && t.workers[x].rows[i].key == k;
        assert x != w ==> s.workers[x].rows[i].key == k;
      }
    }
  }

  /** A worker has started an attempt at the job, and nothing else about it has changed. */
  ghost predicate TakenAs(s: State, t: State, x: int, k: JobKey) {
    && WorkingAt(t, x, AtStart) && Head(t, x).key == k && t.docs == s.docs && t.content == s.content
    && k in s.jobs && k in t.jobs && t.jobs[k].status == Processing
    && t.jobs[k].attempts == s.jobs[k].attempts && t.jobs[k].maxAttempts == s.jobs[k].maxAttempts
  }

  ghost predicate CanBeTaken(env: Env, s: State, k: JobKey) {
    exists t, x :: Reaches(env, s, t) && TakenAs(s, t, x, k)
  }

  lemma {:induction false} StepThenTaken(env: Env, s: State, step: Step, k: JobKey)
    requires Enabled(s, step)
    requires var u := Apply(env, s, step); u.docs == s.docs && u.content == s.content && u.jobs == s.jobs && CanBeTaken(env, u, k)
    ensures CanBeTaken(env, s, k)
  {
    hide Apply, Enabled, Reaches;
    var u := Apply(env, s, step);
    var t, x :| Reaches(env, u, t) && TakenAs(u, t, x, k);
    ReachesFirst(env, s, step, t);
    assert TakenAs(s, t, x, k);
  }

  lemma {:induction false} ClaimedIsTaken(env: Env, s: State, x: int, k: JobKey)
    requires Inv(env, s) && x in s.workers && s.workers[x].Claiming? && |s.workers[x].rows| == 1
    requires s.workers[x].rows[0].key == k
    ensures CanBeTaken(env, s, k)
  {
    var rows, readAt := s.workers[x].rows, s.workers[x].readAt;
    assert WorkerOk(s, s.workers[x]);
    assert Locked(s, rows[0], readAt);
    ClaimedAt(s.jobs, rows, x, readAt, 0);
    var t := Apply(env, s, CommitClaim(x));
    ReachesItself(env, s);
    ReachesOneMore(env, s, s, CommitClaim(x));
    assert TakenAs(s, t, x, k);
  }

  lemma {:induction false} SelectedIsTaken(env: Env, s: State, x: int, job: IngestionJob)
    requires Inv(env, s) && Enabled(s, SelectRows(x, 1, [job]))
    ensures CanBeTaken(env, s, job.key)
  {
    hide Inv, CanBeTaken;
    SelectKeeps(env, s, x, 1, [job]);
    SelectApplies(env, s, x, 1, [job]);
    ClaimedIsTaken(env, Apply(env, s, SelectRows(x, 1, [job])), x, job.key);
    StepThenTaken(env, s, SelectRows(x, 1, [job]), job.key);
  }

  /** One worker takes the jobs that come first, another one takes this job. */
  lemma {:induction false} AvailableIsTaken(env: Env, s: State, y: int, x: int, k: JobKey)
    requires Inv(env, s) && Waiting(s, k) && s.jobs[k].availableAt <= s.clock
    requires x != y && x in s.workers && y in s.workers && s.workers[x].Idle? && s.workers[y].Idle?
    ensures CanBeTaken(env, s, k)
  {
    hide Apply, Inv, CanBeTaken;
    var locked := LockedKeys(s);
    var rows := ListKeys(s.jobs, EligibleKeys(s.jobs, locked, s.clock));
    assert k in Keys(rows);
    var n :| 0 <= n < |rows| && rows[n].key == k;
    FirstRows(s.jobs, locked, s.clock, rows, n);
    NextRow(s.jobs, locked, s.clock, rows, n);
    LockedBySelecting(s, y, rows[..n]);
    SelectKeeps(env, s, y, n, rows[..n]);
    var t := WithWorker(s, y, Claiming(rows[..n], s.clock));
    SelectedIsTaken(env, t, x, rows[n]);
    SelectApplies(env, s, y, n, rows[..n]);
    StepThenTaken(env, s, SelectRows(y, n, rows[..n]), k);
  }

  lemma {:induction false} SelectApplies(env: Env, s: State, w: int, limit: nat, rows: seq<IngestionJob>)
    requires Enabled(s, SelectRows(w, limit, rows))
    ensures Apply(env, s, SelectRows(w, limit, rows)) == WithWorker(s, w, Claiming(rows, s.clock))
  {
  }

  lemma {:induction false} StartingLocksNothing(s: State, w: int)
    requires w !in s.workers
    ensures LockedKeys(WithWorker(s, w, Idle)) == LockedKeys(s)
  {
    var t := WithWorker(s, w, Idle);
    forall k ensures k in LockedKeys(t) <==> k in LockedKeys(s) {
      if k in LockedKeys(s) {
        var x, i :| x in s.workers && s.workers[x].Claiming? && 0 <= i < |s.workers[x].rows| && s.workers[x].rows[i].key == k;
        assert t.workers[x].rows[i].key == k;
      }
      if k in LockedKeys(t) {
        var x, i :| x in t.workers && t.workers[x].Claiming? && 0 <= i < |t.workers[x].rows| && t.workers[x].rows[i].key == k;
        assert s.workers[x].rows[i].key == k;
      }
    }
  }

  lemma {:induction false} StartApplies(env: Env, s: State, w: int)
    requires w !in s.workers
    ensures Enabled(s, StartWorker(w)) && Apply(env, s, StartWorker(w)) == WithWorker(s, w, Idle)
  {
  }

  lemma {:induction false} WaitingIsTaken(env: Env, s: State, k: JobKey)
    requires Inv(env, s) && Waiting(s, k) && s.jobs[k].availableAt <= s.clock
    ensures CanBeTaken(env, s, k)
  {
    hide Apply, Inv, CanBeTaken;
    var y := Above(s.workers.Keys);
    var s1 := WithWorker(s, y, Idle);
    StartKeeps(env, s, y);
    StartingLocksNothing(s, y);
    StartApplies(env, s, y);
    var x := Above(s1.workers.Keys);
    var s2 := WithWorker(s1, x, Idle);
    StartKeeps(env, s1, x);
    StartingLocksNothing(s1, x);
    StartApplies(env, s1, x);
    AvailableIsTaken(env, s2, y, x, k);
    StepThenTaken(env, s1, StartWorker(x), k);
    StepThenTaken(env, s, StartWorker(y), k);
  }

  lemma {:induction false} TickApplies(env: Env, s: State, now: int)
    requires now >= s.clock
    ensures Enabled(s, Tick(now)) && Apply(env, s, Tick(now)) == s.(clock := now)
  {
  }

  /** Whatever else is queued, a job that is waiting can be claimed. */
  lemma {:induction false} PendingIsTaken(env: Env, s: State, k: JobKey)
    requires Inv(env, s) && Waiting(s, k)
    ensures CanBeTaken(env, s, k)
  {
    hide Apply, Inv, CanBeTaken;
    var now := if s.jobs[k].availableAt <= s.clock then s.clock else s.jobs[k].availableAt;
    TickKeeps(env, s, now);
    TickApplies(env, s, now);
    assert LockedKeys(s.(clock := now)) == LockedKeys(s);
    WaitingIsTaken(env, s.(clock := now), k);
    StepThenTaken(env, s, Tick(now), k);
  }

  /** A waiting job can be completed if its document can be ingested. */
  lemma {:induction false} PendingCompletes(env: Env, s: State, k: JobKey)
    requires Inv(env, s) && Waiting(s, k) && Ingestible(env, s, k)
    ensures CanComplete(env, s, k)
  {
    hide Inv, Reaches, CanReach;
    PendingIsTaken(env, s, k);
    var t, x :| Reaches(env, s, t) && TakenAs(s, t, x, k);
    ReachedInv(env, s, t);
    AttemptCompletesExactlyWhen(env, t, x);
    RunThenReach(env, s, t, k, Completed);
  }

  // ---- The last attempt ----

  /** The last attempt at a job has failed, whether or not this has been recorded. */
  ghost predicate Spent(s: State, k: JobKey) {
    k in s.jobs &&
    (s.jobs[k].status == DeadLetter
     || (s.jobs[k].status == Processing
         && forall w :: w in s.workers && k in Claims(s.workers[w]) ==>
              HeadIs(s, w, k) && s.workers[w].point == Raised && DeadLetters(s.workers[w].batch[0])))
  }

  lemma {:induction false} SpentStays(env: Env, s: State, step: Step, k: JobKey)
    requires Inv(env, s) && Enabled(s, step) && Spent(s, k)
    ensures Spent(Apply(env, s, step), k)
  {
    hide Apply, Enabled, Inv;
    var t := Apply(env, s, step);
    JobsOnlyChangeByHolders(env, s, step, k);
    if ChangesJob(s, step, k) {
      SpentFails(env, s, step, k);
    } else if s.jobs[k].status == Processing {
      forall x | x in t.workers && k in Claims(t.workers[x])
        ensures HeadIs(t, x, k) && t.workers[x].point == Raised && DeadLetters(t.workers[x].batch[0])
      {
        SpentHolder(env, s, step, x, k);
      }
    }
  }

  lemma {:induction false} SpentHolder(env: Env, s: State, step: Step, x: int, k: JobKey)
    requires Inv(env, s) && Enabled(s, step) && Spent(s, k) && s.jobs[k].status == Processing && !ChangesJob(s, step, k)
    requires x in Apply(env, s, step).workers && k in Claims(Apply(env, s, step).workers[x])
    ensures x in s.workers && Apply(env, s, step).workers[x] == s.workers[x]
    ensures HeadIs(s, x, k) && s.workers[x].point == Raised && DeadLetters(s.workers[x].batch[0])
  {
    hide Apply, Inv;
    ClaimsOnlyGrowBySelecting(env, s, step, x, k);
    WorkersMoveThemselves(env, s, step, x);
    if WorkerStep(step) && step.w == x {
      RaisedOnlyFails(env, s, step, x);
    }
  }

  /** A worker whose job has raised records the failure or dies. */
  lemma {:induction false} RaisedOnlyFails(env: Env, s: State, step: Step, x: int)
    requires Enabled(s, step) && WorkerStep(step) && step.w == x
    requires x in s.workers && s.workers[x].Working? && s.workers[x].batch != [] && s.workers[x].point == Raised
    ensures step.Fail? || step == Crash(x)
    ensures step == Crash(x) ==> x !in Apply(env, s, step).workers
  {
  }

  lemma {:induction false} SpentFails(env: Env, s: State, step: Step, k: JobKey)
    requires Inv(env, s) && Enabled(s, step) && Spent(s, k) && ChangesJob(s, step, k)
    ensures k in Apply(env, s, step).jobs && Apply(env, s, step).jobs[k].status == DeadLetter
  {
    ChangedIsLive(env, s, step, k);
    SpentIsFailing(env, s, step, k);
    HeadFacts(env, s, step.w);
    FailedRowOk(s, Head(s, step.w), step.error);
  }

  lemma {:induction false} SpentIsFailing(env: Env, s: State, step: Step, k: JobKey)
    requires Inv(env, s) && Enabled(s, step) && ChangesJob(s, step, k)
    requires Spent(s, k) && s.jobs[k].status == Processing
    ensures step.Fail? && HeadIs(s, step.w, k) && DeadLetters(Head(s, step.w))
  {
    hide Inv;
    HoldersClaim(s, step, k);
  }

  lemma {:induction false} SpentForever(env: Env, s: State, states: seq<State>, steps: seq<Step>, i: nat, k: JobKey)
    requires Inv(env, s) && RunFrom(env, s, states, steps) && i < |states| && Spent(s, k)
    ensures Spent(states[i], k)
  {
    hide Apply, Enabled, Inv, Spent;
    if i > 0 {
      SpentForever(env, s, states, steps, i - 1, k);
      RunFromKeepsInv(env, s, states, steps, i - 1);
      SpentStays(env, states[i - 1], steps[i - 1], k);
    }
  }

  // ---- Which failed attempts can be made good ----

  lemma {:induction false} RaisedIsSpent(env: Env, s: State, w: int)
    requires Inv(env, s) && WorkingAt(s, w, Raised) && DeadLetters(Head(s, w))
    ensures Spent(s, Head(s, w).key)
  {
    HeadFacts(env, s, w);
    var k := Head(s, w).key;
    forall x | x in s.workers && k in Claims(s.workers[x]) ensures x == w {
      assert Apart(s, w, x);
    }
  }

  lemma {:induction false} RaisedIsStuck(env: Env, s: State, w: int)
    requires Inv(env, s) && WorkingAt(s, w, Raised) && Head(s, w).key.document in s.docs
    requires s.docs[Head(s, w).key.document].status !in {Registered, Indexed}
    ensures Stuck(s, Head(s, w).key)
  {
    HeadFacts(env, s, w);
    var k := Head(s, w).key;
    forall x | HeadIs(s, x, k) ensures x == w {
      OneHead(env, s, w, x, k);
    }
  }

  lemma {:induction false} HeadIsNotLocked(env: Env, s: State, w: int, x: int, k: JobKey)
    requires Inv(env, s) && w in s.workers && s.workers[w].Working? && k in Claims(s.workers[w])
    requires x in s.workers && s.workers[x].Claiming?
    ensures k !in Keys(s.workers[x].rows)
  {
    assert Apart(s, w, x);
  }

  lemma {:induction false} FailedIsWaiting(env: Env, s: State, w: int)
    requires Inv(env, s) && WorkingAt(s, w, Raised) && !DeadLetters(Head(s, w))
    ensures var t := AfterFail(s, w, ""); t.docs == s.docs && t.content == s.content && Waiting(t, Head(s, w).key)
  {
    HeadFacts(env, s, w);
    var t, k := AfterFail(s, w, ""), Head(s, w).key;
    FailedRowOk(s, Head(s, w), "");
    if k in LockedKeys(t) {
      var x, i :| x in t.workers && t.workers[x].Claiming? && 0 <= i < |t.workers[x].rows| && t.workers[x].rows[i].key == k;
      HeadIsNotLocked(env, s, w, x, k);
      assert false;
    }
  }

  lemma {:induction false} RetryCompletes(env: Env, s: State, w: int)
    requires Inv(env, s) && WorkingAt(s, w, Raised) && !DeadLetters(Head(s, w)) && Ingestible(env, s, Head(s, w).key)
    ensures CanComplete(env, s, Head(s, w).key)
  {
    FailedIsWaiting(env, s, w);
    FailKeeps(env, s, w, "");
    PendingCompletes(env, AfterFail(s, w, ""), Head(s, w).key);
    StepThen(env, s, Fail(w, ""), Head(s, w).key);
  }

  /** After an attempt has raised, the job can still be completed if and only if this was not the
      last attempt and the document is REGISTERED or INDEXED; that is, exactly if the attempt
      stopped before mark_ingesting had committed or after mark_indexed had. */
  lemma {:induction false} RetryCompletesExactlyWhen(env: Env, s: State, w: int)
    requires Inv(env, s) && WorkingAt(s, w, Raised)
    requires Head(s, w).key.document in s.content ==> Accepted(env, s.content[Head(s, w).key.document].text)
    ensures var job := Head(s, w);
            job.key.document in s.docs
            && (CanComplete(env, s, job.key)
                <==> !DeadLetters(job) && s.docs[job.key.document].status in {Registered, Indexed})
  {
    HeadFacts(env, s, w);
    var k := Head(s, w).key;
    if DeadLetters(Head(s, w)) {
      RaisedIsSpent(env, s, w);
      forall t | Reaches(env, s, t) ensures !JobIs(t, k, Completed) {
        var states, steps :| RunFrom(env, s, states, steps) && states[|steps|] == t;
        SpentForever(env, s, states, steps, |steps|, k);
      }
    } else if s.docs[k.document].status in {Registered, Indexed} {
      RetryCompletes(env, s, w);
    } else {
      RaisedIsStuck(env, s, w);
      forall t | Reaches(env, s, t) ensures !JobIs(t, k, Completed) {
        StuckReached(env, s, t, k);
      }
    }
  }
}
