/** The ingestion job table, its retry policy and the operations of the database-backed queue. */
module Jobs {
  import opened Wrappers

  // ---- Retry policy ----

  const BASE_BACKOFF_SECONDS := 5
  const MAX_BACKOFF_SECONDS := 3600

  function Pow2(n: nat): nat {
    if n == 0 then 1 else 2 * Pow2(n - 1)
  }

  /** `compute_backoff_seconds`. */
  function BackoffSeconds(attempts: int): (delay: nat)
  {
    if attempts < 1 then 0
    else
      var delay := BASE_BACKOFF_SECONDS * Pow2(attempts - 1);
      if delay <= MAX_BACKOFF_SECONDS then delay else MAX_BACKOFF_SECONDS
  }

  /** The waiting time that `n` failures impose altogether. */
  function TotalBackoff(n: nat): nat {
    if n == 0 then 0 else TotalBackoff(n - 1) + BackoffSeconds(n)
  }

  lemma {:induction false} Pow2Grows(m: nat, n: nat)
    requires m <= n
    ensures Pow2(m) <= Pow2(n)
  {
    if m < n {
      Pow2Grows(m, n - 1);
    }
  }

  lemma {:induction false} Pow2Table()
    ensures Pow2(9) == 512 && Pow2(10) == 1024
  {
  }

  /** The backoff never shrinks, and it is saturated exactly from the eleventh failure on. */
  lemma {:induction false} BackoffShape(m: int, n: int)
    requires m <= n
    ensures BackoffSeconds(m) <= BackoffSeconds(n)
    ensures BackoffSeconds(n) == MAX_BACKOFF_SECONDS <==> n >= 11
  {
    if m >= 1 {
      Pow2Grows(m - 1, n - 1);
    }
    Pow2Table();
    if n >= 11 {
      Pow2Grows(10, n - 1);
    } else if n >= 1 {
      Pow2Grows(n - 1, 9);
    }
  }

  /** Closed form of the total waiting time. */
  lemma {:induction false} TotalBackoffClosedForm(n: nat)
    ensures n <= 10 ==> TotalBackoff(n) == 5 * (Pow2(n) - 1)
    ensures n >= 10 ==> TotalBackoff(n) == 5115 + 3600 * (n - 10)
  {
    Pow2Table();
    if n > 0 {
      TotalBackoffClosedForm(n - 1);
      BackoffShape(n, n);
      if n <= 10 {
        Pow2Grows(n - 1, 9);
      }
    }
  }

  // ---- The table ----

  /** Timestamps are microseconds. */
  const SECOND := 1_000_000

  datatype JobStatus = Pending | Processing | Completed | DeadLetter

  /** The unique key of the table, which the surrogate id stands for one to one. */
  datatype JobKey = JobKey(document: int, version: int)

  datatype JobRow = JobRow(
    tenant: int,
    collection: int,
    status: JobStatus,
    attempts: int,
    maxAttempts: int,
    availableAt: int,
    createdAt: int,
    updatedAt: int,
    lockedAt: Option<int>,
    lockedBy: Option<int>,
    lastError: Option<string>)
  {
    predicate Terminal() {
      status == Completed || status == DeadLetter
    }
  }

  /** The snapshot of a row that a worker carries. */
  datatype IngestionJob = IngestionJob(key: JobKey, tenant: int, collection: int, attempts: int, maxAttempts: int)

  type Table = map<JobKey, JobRow>

  function Snapshot(table: Table, key: JobKey): IngestionJob
    requires key in table
  {
    var row := table[key];
    IngestionJob(key, row.tenant, row.collection, row.attempts, row.maxAttempts)
  }

  function Snapshots(table: Table, keys: seq<JobKey>): seq<IngestionJob>
    requires forall i :: 0 <= i < |keys| ==> keys[i] in table
  {
    seq(|keys|, i requires 0 <= i < |keys| => Snapshot(table, keys[i]))
  }

  /** INSERT ... ON CONFLICT DO NOTHING. */
  function WithEnqueued(table: Table, key: JobKey, tenant: int, collection: int, maxAttempts: int, now: int): Table {
    if key in table then table
    else table[key := JobRow(tenant, collection, Pending, 0, maxAttempts, now, now, now, None, None, None)]
  }

  function ClaimedRow(row: JobRow, worker: int, now: int): JobRow {
    row.(status := Processing, lockedAt := Some(now), lockedBy := Some(worker), updatedAt := now)
  }

  /** The table after claiming the rows in turn. */
  function WithClaimed(table: Table, rows: seq<IngestionJob>, worker: int, now: int): Table
    requires forall i :: 0 <= i < |rows| ==> rows[i].key in table
    ensures WithClaimed(table, rows, worker, now).Keys == table.Keys
  {
    if rows == [] then table
    else
      var n := |rows| - 1;
      var before := WithClaimed(table, rows[..n], worker, now);
      before[rows[n].key := ClaimedRow(before[rows[n].key], worker, now)]
  }

  function WithCompleted(table: Table, key: JobKey, now: int): Table {
    if key in table then
      table[key := table[key].(status := Completed, lockedAt := None, lockedBy := None, updatedAt := now)]
    else table
  }

  predicate DeadLetters(job: IngestionJob) {
    job.attempts + 1 >= job.maxAttempts
  }

  function FailedRow(row: JobRow, job: IngestionJob, error: string, now: int): JobRow {
    var attempts := job.attempts + 1;
    var note := Some(if |error| <= 2000 then error else error[..2000]);
    if DeadLetters(job) then
      row.(status := DeadLetter, attempts := attempts, lastError := note,
           lockedAt := None, lockedBy := None, updatedAt := now)
    else
      row.(status := Pending, attempts := attempts,
           availableAt := now + SECOND * BackoffSeconds(attempts), lastError := note,
           lockedAt := None, lockedBy := None, updatedAt := now)
  }

  function WithFailed(table: Table, job: IngestionJob, error: string, now: int): Table {
    if job.key in table then table[job.key := FailedRow(table[job.key], job, error, now)] else table
  }

  // ---- The claiming query ----

  predicate Eligible(table: Table, locked: set<JobKey>, now: int, key: JobKey) {
    key in table && key !in locked && table[key].status == Pending && table[key].availableAt <= now
  }

  predicate DistinctKeys(rows: seq<IngestionJob>) {
    forall i, j :: 0 <= i < j < |rows| ==> rows[i].key != rows[j].key
  }

  function Keys(rows: seq<IngestionJob>): set<JobKey> {
    set i | 0 <= i < |rows| :: rows[i].key
  }

  /** What SELECT ... WHERE pending and available ORDER BY available_at LIMIT n FOR UPDATE SKIP
      LOCKED may return. */
  predicate IsSelection(table: Table, locked: set<JobKey>, now: int, limit: nat, rows: seq<IngestionJob>) {
    && |rows| <= limit
    && DistinctKeys(rows)
    && (forall i :: 0 <= i < |rows| ==>
        Eligible(table, locked, now, rows[i].key) && rows[i] == Snapshot(table, rows[i].key))
    && (forall i, j :: 0 <= i < j < |rows| ==> table[rows[i].key].availableAt <= table[rows[j].key].availableAt)
    && (forall key :: key in table && Eligible(table, locked, now, key) && key !in Keys(rows) ==>
        |rows| == limit && forall i :: 0 <= i < |rows| ==> table[rows[i].key].availableAt <= table[key].availableAt)
  }

  /** The queue adapter; what the database keeps is its `table`. */
  class JobQueue {
    var table: Table

    constructor ()
      ensures table == map[]
    {
      table := map[];
    }

    method Enqueue(key: JobKey, tenant: int, collection: int, maxAttempts: int, now: int)
      modifies this
      ensures table == WithEnqueued(old(table), key, tenant, collection, maxAttempts, now)
      ensures key in old(table) ==> table == old(table)
      ensures key !in old(table) ==>
                key in table && table[key].status == Pending && table[key].attempts == 0
                && table[key].maxAttempts == maxAttempts && table[key].availableAt == now
                && table[key].tenant == tenant && table[key].collection == collection
                && table[key].createdAt == now && table[key].updatedAt == now && table[key].lockedBy == None
      ensures forall k :: k in old(table) ==> k in table && table[k] == old(table)[k]
    {
      if key !in table {
        table := table[key := JobRow(tenant, collection, Pending, 0, maxAttempts, now, now, now, None, None, None)];
      }
    }

    /** Claims the rows that the query returned, which no other transaction has locked. */
    method Dequeue(worker: int, batchSize: nat, now: int, rows: seq<JobKey>, ghost locked: set<JobKey>)
      returns (jobs: seq<IngestionJob>)
      requires forall i :: 0 <= i < |rows| ==> rows[i] in table
      requires IsSelection(table, locked, now, batchSize, Snapshots(table, rows))
      modifies this
      ensures jobs == old(Snapshots(table, rows))
      ensures table == WithClaimed(old(table), jobs, worker, now)
      ensures table.Keys == old(table).Keys && forall k :: k in table && k !in rows ==> table[k] == old(table)[k]
      ensures forall i :: 0 <= i < |rows| ==>
                table[rows[i]] == old(table)[rows[i]].(status := Processing, lockedAt := Some(now), lockedBy := Some(worker),
                                                       updatedAt := now)
    {
      ghost var all := Snapshots(table, rows);
      SelectionIsDistinct(table, locked, now, batchSize, all);
      NothingClaimed(table, worker, now);
      assert all[..0] == [];
      hide IsSelection, WithClaimed, Snapshots;
      jobs := [];
      for n := 0 to |rows|
        invariant jobs == all[..n]
        invariant table == WithClaimed(old(table), all[..n], worker, now)
      {
        ClaimStep(old(table), all, n, worker, now);
        var key := rows[n];
        var row := table[key];
        jobs := jobs + [IngestionJob(key, row.tenant, row.collection, row.attempts, row.maxAttempts)];
        table := table[key := row.(status := Processing, lockedAt := Some(now), lockedBy := Some(worker), updatedAt := now)];
      }
      assert all[..|rows|] == all;
      ClaimedRows(old(table), rows, worker, now);
    }

    method Complete(job: IngestionJob, now: int)
      modifies this
      ensures table == WithCompleted(old(table), job.key, now)
      ensures table.Keys == old(table).Keys && forall k :: k in table && k != job.key ==> table[k] == old(table)[k]
      ensures job.key in table ==>
                table[job.key] == old(table)[job.key].(status := Completed, lockedAt := None, lockedBy := None, updatedAt := now)
    {
      if job.key in table {
        table := table[job.key := table[job.key].(status := Completed, lockedAt := None, lockedBy := None, updatedAt := now)];
      }
    }

    method Fail(job: IngestionJob, error: string, now: int) returns (deadLettered: bool)
      modifies this
      ensures table == WithFailed(old(table), job, error, now)
      ensures deadLettered <==> DeadLetters(job)
      ensures table.Keys == old(table).Keys && forall k :: k in table && k != job.key ==> table[k] == old(table)[k]
      ensures job.key in table ==>
                var before, row := old(table)[job.key], table[job.key];
                && row.attempts == job.attempts + 1 && row.lockedAt == None && row.lockedBy == None && row.updatedAt == now
                && row.status == (if deadLettered then DeadLetter else Pending)
                && row.availableAt == (if deadLettered then before.availableAt
                                       else now + 1_000_000 * BackoffSeconds(job.attempts + 1))
                && row.lastError == Some(if |error| <= 2000 then error else error[..2000])
                && row.tenant == before.tenant && row.collection == before.collection
                && row.maxAttempts == before.maxAttempts && row.createdAt == before.createdAt
    {
      var attempts := job.attempts + 1;
      deadLettered := attempts >= job.maxAttempts;
      var note := Some(if |error| <= 2000 then error else error[..2000]);
      if job.key in table {
        var row := table[job.key].(attempts := attempts, lastError := note,
                                   lockedAt := None, lockedBy := None, updatedAt := now);
        if deadLettered {
          table := table[job.key := row.(status := DeadLetter)];
        } else {
          var wait := BackoffSeconds(attempts);
          table := table[job.key := row.(status := Pending, availableAt := now + SECOND * wait)];
        }
      }
    }
  }

  // ---- Facts about claiming ----

  lemma {:induction false} SelectionIsDistinct(table: Table, locked: set<JobKey>, now: int, limit: nat, rows: seq<IngestionJob>)
    requires IsSelection(table, locked, now, limit, rows)
    ensures DistinctKeys(rows)
  {
  }

  lemma {:induction false} NothingClaimed(table: Table, worker: int, now: int)
    ensures WithClaimed(table, [], worker, now) == table
  {
  }

  lemma {:induction false} ClaimedElsewhere(table: Table, rows: seq<IngestionJob>, worker: int, now: int, key: JobKey)
    requires forall i :: 0 <= i < |rows| ==> rows[i].key in table
    requires key in table && forall i :: 0 <= i < |rows| ==> rows[i].key != key
    ensures WithClaimed(table, rows, worker, now)[key] == table[key]
  {
    if rows != [] {
      ClaimedElsewhere(table, rows[..|rows| - 1], worker, now, key);
    }
  }

  /** Claiming one more row changes that row only, which no earlier row was. */
  lemma {:induction false} ClaimStep(table: Table, all: seq<IngestionJob>, n: nat, worker: int, now: int)
    requires n < |all| && DistinctKeys(all) && forall i :: 0 <= i < |all| ==> all[i].key in table
    ensures var before, key := WithClaimed(table, all[..n], worker, now), all[n].key;
            && key in before && before[key] == table[key]
            && WithClaimed(table, all[..n + 1], worker, now) == before[key := ClaimedRow(before[key], worker, now)]
    ensures all[..n + 1] == all[..n] + [all[n]]
  {
    assert all[..n + 1][..n] == all[..n];
    ClaimedElsewhere(table, all[..n], worker, now, all[n].key);
  }

  lemma {:induction false} ClaimedAt(table: Table, rows: seq<IngestionJob>, worker: int, now: int, i: nat)
    requires forall i :: 0 <= i < |rows| ==> rows[i].key in table
    requires DistinctKeys(rows) && i < |rows|
    ensures WithClaimed(table, rows, worker, now)[rows[i].key] == ClaimedRow(table[rows[i].key], worker, now)
  {
    var n := |rows| - 1;
    if i < n {
      ClaimedAt(table, rows[..n], worker, now, i);
    } else {
      ClaimedElsewhere(table, rows[..n], worker, now, rows[n].key);
    }
  }

  /** What claiming the rows with the given keys leaves in the table. */
  lemma {:induction false} ClaimedRows(table: Table, keys: seq<JobKey>, worker: int, now: int)
    requires forall i :: 0 <= i < |keys| ==> keys[i] in table
    requires DistinctKeys(Snapshots(table, keys))
    ensures var t := WithClaimed(table, Snapshots(table, keys), worker, now);
            && (forall k :: k in t && k !in keys ==> t[k] == table[k])
            && (forall i :: 0 <= i < |keys| ==> t[keys[i]] == ClaimedRow(table[keys[i]], worker, now))
  {
    hide WithClaimed;
    var rows := Snapshots(table, keys);
    var t := WithClaimed(table, rows, worker, now);
    assert t.Keys == table.Keys;
    forall k | k in t && k !in keys ensures t[k] == table[k] {
      assert forall i :: 0 <= i < |rows| ==> rows[i].key == keys[i];
      ClaimedElsewhere(table, rows, worker, now, k);
    }
    forall i | 0 <= i < |keys| ensures t[keys[i]] == ClaimedRow(table[keys[i]], worker, now) {
      assert rows[i].key == keys[i];
      ClaimedAt(table, rows, worker, now, i);
    }
  }

  // ---- Which jobs are claimed first ----

  lemma {:induction false} KeysCount(rows: seq<IngestionJob>)
    ensures |Keys(rows)| <= |rows|
    ensures DistinctKeys(rows) ==> |Keys(rows)| == |rows|
  {
    if rows == [] {
      assert Keys(rows) == {};
    } else {
      var n := |rows| - 1;
      KeysCount(rows[..n]);
      assert Keys(rows) == Keys(rows[..n]) + {rows[n].key} by {
        forall k | k in Keys(rows) ensures k in Keys(rows[..n]) + {rows[n].key} {
          var i :| 0 <= i < |rows| && rows[i].key == k;
          assert i < n ==> rows[..n][i].key == k;
        }
        forall k | k in Keys(rows[..n]) ensures k in Keys(rows) {
          var i :| 0 <= i < n && rows[..n][i].key == k;
          assert rows[i].key == k;
        }
      }
    }
  }

  /** The other jobs that could be claimed and became available no later, or strictly earlier. */
  function NoLater(table: Table, locked: set<JobKey>, now: int, key: JobKey): set<JobKey>
    requires key in table
  {
    set k | k in table && Eligible(table, locked, now, k) && k != key && table[k].availableAt <= table[key].availableAt
  }

  function Sooner(table: Table, locked: set<JobKey>, now: int, key: JobKey): set<JobKey>
    requires key in table
  {
    set k | k in table && Eligible(table, locked, now, k) && table[k].availableAt < table[key].availableAt
  }

  lemma {:induction false} SmallerSet(a: set<JobKey>, b: set<JobKey>)
    requires a <= b
    ensures |a| <= |b|
  {
    assert b == a + (b - a);
  }

  /** The query takes the jobs that have been available for longest: one that is among the first
      `limit` is claimed, and one that is not is left for later. */
  lemma {:induction false} LongestWaitingFirst(table: Table, locked: set<JobKey>, now: int, limit: nat,
                                               rows: seq<IngestionJob>, key: JobKey)
    requires IsSelection(table, locked, now, limit, rows) && Eligible(table, locked, now, key)
    ensures |NoLater(table, locked, now, key)| < limit ==> key in Keys(rows)
    ensures |Sooner(table, locked, now, key)| >= limit ==> key !in Keys(rows)
  {
    KeysCount(rows);
    if key !in Keys(rows) {
      forall k | k in Keys(rows) ensures k in NoLater(table, locked, now, key) {
        var i :| 0 <= i < |rows| && rows[i].key == k;
      }
      SmallerSet(Keys(rows), NoLater(table, locked, now, key));
    } else {
      var sooner := Sooner(table, locked, now, key);
      forall k | k in sooner ensures k in Keys(rows) - {key} {
        var i :| 0 <= i < |rows| && rows[i].key == key;
      }
      SmallerSet(sooner, Keys(rows) - {key});
    }
  }
}
