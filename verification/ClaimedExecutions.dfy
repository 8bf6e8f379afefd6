/** Claimed jobs: claiming, finishing, failing and giving back, and what the end of a
    job does for the other jobs of its key. */
module ClaimedExecutions {
  import opened Tables
  import opened Semaphores
  import opened Executables
  import opened BlockedExecutions

  /** `claiming` and the deletion of the claimed ready rows, as one transaction. The
      claimed rows are unique per job and name an existing process; a violation of
      either constraint rolls the transaction back. */
  function ClaimRows(db: Db, rows: set<JobId>, process: ProcessId): Db {
    if rows !! db.claimed.Keys && process in db.processes then
      db.(claimed := db.claimed + (map j | j in rows :: Some(process)), ready := db.ready - rows)
    else
      db
  }

  /** `finished`: the job is stamped and its claimed row deleted. */
  function FinishClaim(db: Db, j: JobId, now: Time): Db
    requires j in db.jobs
  {
    db.(jobs := db.jobs[j := db.jobs[j].(finishedAt := Some(now))], claimed := db.claimed - {j})
  }

  /** `failed_with`: get or create the failed row by job and error, and delete the claimed
      row. A failed row with another error violates uniqueness and rolls back. */
  function FailClaim(db: Db, j: JobId, error: string): Db {
    if j in db.failed && db.failed[j] != error then db
    else db.(failed := db.failed[j := error], claimed := db.claimed - {j})
  }

  /** `release`: back to ready, whatever the concurrency limits say. */
  function ReleaseClaim(db: Db, j: JobId): Db
    requires j in db.jobs
  {
    MakeReady(db, j).(claimed := db.claimed - {j})
  }

  /** `release_all` over the given claimed rows. */
  function ReleaseRows(db: Db, rows: set<JobId>): Db {
    db.(claimed := db.claimed - rows,
        ready := db.ready + (map j | j in rows && j in db.jobs && j !in db.ready ::
                               ReadyRow(db.jobs[j].queue, db.jobs[j].priority)))
  }

  lemma ReadyRowsOneMore(db: Db, rows: set<JobId>, j: JobId)
    requires j in rows && j in db.jobs
    ensures ReleaseRows(ReleaseClaim(db, j), rows - {j}).ready == ReleaseRows(db, rows).ready
  {
    var a, b := ReleaseRows(ReleaseClaim(db, j), rows - {j}).ready, ReleaseRows(db, rows).ready;
    forall i ensures i in a <==> i in b {
    }
  }

  lemma ReleaseRowsOneMore(db: Db, rows: set<JobId>, j: JobId)
    requires j in rows && j in db.jobs
    ensures ReleaseRows(ReleaseClaim(db, j), rows - {j}) == ReleaseRows(db, rows)
  {
    ReadyRowsOneMore(db, rows, j);
    assert db.claimed - {j} - (rows - {j}) == db.claimed - rows;
  }

  lemma ReleaseNoRows(db: Db)
    ensures ReleaseRows(db, {}) == db
  {
    assert ReleaseRows(db, {}).ready == db.ready && ReleaseRows(db, {}).claimed == db.claimed;
  }

  /** The rows claimed by a process. */
  function ClaimedBy(claimed: map<JobId, Option<ProcessId>>, p: ProcessId): set<JobId> {
    set j | j in claimed && claimed[j] == Some(p)
  }

  /** `unblock_next_blocked_job` with nobody in between. */
  ghost function UnblockNext(lim: Limits, db: Db, j: JobId, now: Time): (r: Db)
    requires db.blocked.Keys <= db.jobs.Keys && j in db.jobs
    ensures r == db.(ready := r.ready, blocked := r.blocked, semaphores := r.semaphores)
    ensures r.blocked.Keys <= db.blocked.Keys
  {
    match db.jobs[j].key
    case None => db
    case Some(key) =>
      var signalled := Signal(Limit(lim, key), db.semaphores, key, now + db.jobs[j].duration);
      if signalled.ok then ReleaseOne(lim, db.(semaphores := signalled.semaphores), key, now).db else db
  }

  /** One round of `fail_all_with`. */
  ghost function FailAndUnblock(lim: Limits, db: Db, j: JobId, error: string, now: Time): (r: Db)
    requires db.blocked.Keys <= db.jobs.Keys && j in db.jobs
    ensures r.jobs == db.jobs && r.blocked.Keys <= db.blocked.Keys
  {
    UnblockNext(lim, FailClaim(db, j, error), j, now)
  }

  /** `fail_all_with` over claimed rows in the order the query happens to give them. */
  ghost function FailAll(lim: Limits, db: Db, order: seq<JobId>, error: string, now: Time): Db
    requires db.blocked.Keys <= db.jobs.Keys && forall j :: j in order ==> j in db.jobs
    decreases |order|
  {
    if order == [] then db
    else FailAll(lim, FailAndUnblock(lim, db, order[0], error, now), order[1..], error, now)
  }

  /** A job that ran to its end. */
  ghost function FinishAndUnblock(lim: Limits, db: Db, j: JobId, now: Time): Db
    requires db.blocked.Keys <= db.jobs.Keys && j in db.jobs
  {
    UnblockNext(lim, FinishClaim(db, j, now), j, now)
  }

  // ----- The same operations on the database -----

  method Claiming(database: Database, rows: set<JobId>, process: ProcessId)
    modifies database
    ensures database.db == ClaimRows(old(database.db), rows, process)
    ensures process !in old(database.db).processes || !(rows !! old(database.db).claimed.Keys) ==>
              database.db == old(database.db)
  {
    if rows !! database.db.claimed.Keys && process in database.db.processes {
      database.db := database.db.(claimed := database.db.claimed + (map j | j in rows :: Some(process)));
      database.db := database.db.(ready := database.db.ready - rows);
    }
  }

  method UnblockNextBlockedJob(database: Database, lim: Limits, j: JobId, now: Time)
    requires database.db.blocked.Keys <= database.db.jobs.Keys && j in database.db.jobs
    modifies database
    ensures database.db == UnblockNext(lim, old(database.db), j, now)
  {
    var job := database.db.jobs[j];
    if job.key.Some? {
      var released := AttemptIncrement(database, lim, job.key.value, now + job.duration);
      if released {
        var _ := ReleaseOneBlocked(database, lim, job.key.value, now);
      }
    }
  }

  method FailedWith(database: Database, j: JobId, error: string)
    modifies database
    ensures database.db == FailClaim(old(database.db), j, error)
    ensures j in old(database.db).failed && old(database.db).failed[j] != error ==> database.db == old(database.db)
  {
    if j in database.db.failed && database.db.failed[j] != error {
      return;
    }
    database.db := database.db.(failed := database.db.failed[j := error]);
    database.db := database.db.(claimed := database.db.claimed - {j});
  }

  method Finished(database: Database, j: JobId, now: Time)
    requires j in database.db.jobs
    modifies database
    ensures database.db == FinishClaim(old(database.db), j, now)
  {
    database.db := database.db.(jobs := database.db.jobs[j := database.db.jobs[j].(finishedAt := Some(now))]);
    database.db := database.db.(claimed := database.db.claimed - {j});
  }

  method ReleaseClaimed(database: Database, j: JobId)
    requires j in database.db.jobs
    modifies database
    ensures database.db == ReleaseClaim(old(database.db), j)
  {
    GetOrCreateReady(database, j);
    database.db := database.db.(claimed := database.db.claimed - {j});
  }

  /** `perform`: `error` is what the task function raised, if it did. */
  method Perform(database: Database, lim: Limits, j: JobId, error: Option<string>, now: Time)
    requires database.db.blocked.Keys <= database.db.jobs.Keys && j in database.db.jobs
    modifies database
    ensures database.db ==
      match error
      case None => FinishAndUnblock(lim, old(database.db), j, now)
      case Some(e) => FailAndUnblock(lim, old(database.db), j, e, now)
  {
    match error {
      case None => Finished(database, j, now);
      case Some(e) => FailedWith(database, j, e);
    }
    UnblockNextBlockedJob(database, lim, j, now);
  }
}
