/** Retrying ends: every claim, completion and failure uses up work that only enqueueing adds. */
module SagaLedger {
  import opened Jobs
  import opened Saga
  import opened SagaInvariant
  import opened SagaSteps
  import opened SagaRuns

  /** What is left to do for a job: a claim and its outcome for each attempt it still has. */
  function JobWork(row: JobRow): int {
    if row.Terminal() then 0
    else 2 * (row.maxAttempts - row.attempts) - (if row.status == Processing then 1 else 0)
  }

  ghost function Work(jobs: Table): int
    decreases |jobs|
  {
    if jobs == map[] then 0
    else
      var k :| k in jobs;
      JobWork(jobs[k]) + Work(jobs - {k})
  }

  lemma {:induction false} WorkWithout(jobs: Table, k: JobKey)
    requires k in jobs
    ensures Work(jobs) == JobWork(jobs[k]) + Work(jobs - {k})
    decreases |jobs|
  {
    var x :| x in jobs && Work(jobs) == JobWork(jobs[x]) + Work(jobs - {x});
    if x != k {
      WorkWithout(jobs - {x}, k);
      WorkWithout(jobs - {k}, x);
      assert jobs - {x} - {k} == jobs - {k} - {x};
    }
  }

  lemma {:induction false} WorkUpdated(jobs: Table, k: JobKey, row: JobRow)
    requires k in jobs
    ensures Work(jobs[k := row]) == Work(jobs) - JobWork(jobs[k]) + JobWork(row)
  {
    WorkWithout(jobs, k);
    WorkWithout(jobs[k := row], k);
    assert jobs[k := row] - {k} == jobs - {k};
  }

  lemma {:induction false} WorkAdded(jobs: Table, k: JobKey, row: JobRow)
    requires k !in jobs
    ensures Work(jobs[k := row]) == Work(jobs) + JobWork(row)
  {
    WorkWithout(jobs[k := row], k);
    assert jobs[k := row] - {k} == jobs;
  }

  lemma {:induction false} WorkClaimed(table: Table, rows: seq<IngestionJob>, worker: int, now: int)
    requires DistinctKeys(rows)
    requires forall i :: 0 <= i < |rows| ==> rows[i].key in table && table[rows[i].key].status == Pending
    ensures Work(WithClaimed(table, rows, worker, now)) == Work(table) - |rows|
  {
    if rows != [] {
      var n := |rows| - 1;
      WorkClaimed(table, rows[..n], worker, now);
      ClaimedElsewhere(table, rows[..n], worker, now, rows[n].key);
      var before := WithClaimed(table, rows[..n], worker, now);
      WorkUpdated(before, rows[n].key, ClaimedRow(before[rows[n].key], worker, now));
    }
  }

  lemma {:induction false} WorkIsNatural(jobs: Table)
    requires forall k :: k in jobs ==> JobWork(jobs[k]) >= 0
    ensures Work(jobs) >= 0
    decreases |jobs|
  {
    if jobs != map[] {
      var k :| k in jobs;
      WorkWithout(jobs, k);
      WorkIsNatural(jobs - {k});
    }
  }

  /** Claims, completions and failures that a step performs. */
  function Effort(s: State, step: Step): nat
    requires Enabled(s, step)
  {
    match step
    case CommitClaim(w) => |s.workers[w].rows|
    case Complete(_) => 1
    case Fail(_, _) => 1
    case _ => 0
  }

  /** The work that a step adds by inserting a job. */
  function Granted(s: State, step: Step): int
    requires Enabled(s, step)
  {
    if step.Enqueue? && JobKey(s.requests[step.request].document, s.requests[step.request].version) !in s.jobs
    then 2 * step.maxAttempts else 0
  }

  lemma {:induction false} ClaimPays(env: Env, s: State, w: int)
    requires Inv(env, s) && Enabled(s, CommitClaim(w))
    ensures Work(AfterClaim(s, w).jobs) == Work(s.jobs) - |s.workers[w].rows|
  {
    var rows, readAt := s.workers[w].rows, s.workers[w].readAt;
    assert WorkerOk(s, s.workers[w]);
    forall i | 0 <= i < |rows| ensures s.jobs[rows[i].key].status == Pending {
      assert Locked(s, rows[i], readAt);
    }
    WorkClaimed(s.jobs, rows, w, readAt);
  }

  lemma {:induction false} CompletePays(env: Env, s: State, w: int)
    requires Inv(env, s) && Enabled(s, Complete(w))
    ensures Work(AfterComplete(s, w).jobs) < Work(s.jobs)
  {
    HeadFacts(env, s, w);
    var k := Head(s, w).key;
    WorkUpdated(s.jobs, k, WithCompleted(s.jobs, k, s.clock)[k]);
  }

  lemma {:induction false} FailPays(env: Env, s: State, w: int, error: string)
    requires Inv(env, s) && Enabled(s, Fail(w, error))
    ensures Work(AfterFail(s, w, error).jobs) == Work(s.jobs) - 1
  {
    HeadFacts(env, s, w);
    var job := Head(s, w);
    FailedRowOk(s, job, error);
    WorkUpdated(s.jobs, job.key, FailedRow(s.jobs[job.key], job, error, s.clock));
  }

  /** Every claim, completion and failure strictly decreases the work; only enqueueing adds any. */
  lemma {:induction false} EffortIsPaid(env: Env, s: State, step: Step)
    requires Inv(env, s) && Enabled(s, step)
    ensures Work(Apply(env, s, step).jobs) + Effort(s, step) <= Work(s.jobs) + Granted(s, step)
  {
    if !JobStep(step) {
      OtherStepsKeepJobs(env, s, step);
    } else {
      match step
      case CommitClaim(w) => ClaimPays(env, s, w);
      case Complete(w) => CompletePays(env, s, w);
      case Fail(w, error) => FailPays(env, s, w, error);
      case Enqueue(r, maxAttempts) => EnqueueGrants(s, r, maxAttempts);
    }
  }

  lemma {:induction false} EnqueueGrants(s: State, r: int, maxAttempts: int)
    requires Enabled(s, Enqueue(r, maxAttempts))
    ensures Work(AfterEnqueue(s, r, maxAttempts).jobs) == Work(s.jobs) + Granted(s, Enqueue(r, maxAttempts))
  {
    var Uploaded(d, tenant, collection, version) := s.requests[r];
    var k := JobKey(d, version);
    if k !in s.jobs {
      WorkAdded(s.jobs, k, WithEnqueued(s.jobs, k, tenant, collection, maxAttempts, s.clock)[k]);
    }
  }

  function TotalEffort(env: Env, states: seq<State>, steps: seq<Step>): nat
    requires |states| == |steps| + 1 && forall i :: 0 <= i < |steps| ==> Enabled(states[i], steps[i])
  {
    if steps == [] then 0
    else
      var n := |steps| - 1;
      TotalEffort(env, states[..n + 1], steps[..n]) + Effort(states[n], steps[n])
  }

  function TotalGranted(env: Env, states: seq<State>, steps: seq<Step>): int
    requires |states| == |steps| + 1 && forall i :: 0 <= i < |steps| ==> Enabled(states[i], steps[i])
  {
    if steps == [] then 0
    else
      var n := |steps| - 1;
      TotalGranted(env, states[..n + 1], steps[..n]) + Granted(states[n], steps[n])
  }

  /** Over any run, claims plus completions plus failures are at most twice the attempts granted
      to the jobs enqueued, so retrying cannot go on for ever. */
  lemma {:induction false} EffortIsBounded(env: Env, states: seq<State>, steps: seq<Step>)
    requires IsRun(env, states, steps)
    ensures TotalEffort(env, states, steps) <= TotalGranted(env, states, steps)
  {
    EffortLedger(env, states, steps);
    RunKeepsInv(env, states, steps, |steps|);
    var s := states[|steps|];
    forall k | k in s.jobs ensures JobWork(s.jobs[k]) >= 0 {
      assert JobOk(s, k);
    }
    WorkIsNatural(s.jobs);
  }

  lemma {:induction false} EffortLedger(env: Env, states: seq<State>, steps: seq<Step>)
    requires IsRun(env, states, steps)
    ensures TotalEffort(env, states, steps) + Work(states[|steps|].jobs) <= TotalGranted(env, states, steps)
  {
    if steps != [] {
      var n := |steps| - 1;
      EffortLedger(env, states[..n + 1], steps[..n]);
      RunKeepsInv(env, states, steps, n);
      EffortIsPaid(env, states[n], steps[n]);
    }
  }
}
