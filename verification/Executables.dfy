/** Placing a job: enqueueing, dispatching and scheduling. */
module Executables {
  import opened Tables
  import opened Semaphores

  /** A job without a date is due. */
  predicate IsDue(job: Job, now: Time) {
    job.scheduledAt.None? || job.scheduledAt.value <= now
  }

  /** `Job.ready`: get or create the ready row, with the job's own queue and priority. */
  function MakeReady(db: Db, j: JobId): (r: Db)
    requires j in db.jobs
    ensures r == db.(ready := r.ready) && r.ready.Keys == db.ready.Keys + {j}
  {
    if j in db.ready then db
    else db.(ready := db.ready[j := ReadyRow(db.jobs[j].queue, db.jobs[j].priority)])
  }

  /** `Job.block`: get or create the blocked row. Only the key and the expiry are taken
      from the job; queue name and priority keep the columns' defaults. */
  function MakeBlocked(db: Db, j: JobId, now: Time): (r: Db)
    requires j in db.jobs && db.jobs[j].key.Some?
    ensures r == db.(blocked := r.blocked) && r.blocked.Keys == db.blocked.Keys + {j}
  {
    if j in db.blocked then db
    else db.(blocked := db.blocked[j := BlockedRow(db.jobs[j].key.value, "", 0, now + db.jobs[j].duration)])
  }

  function MakeScheduled(db: Db, j: JobId): (r: Db)
    requires j in db.jobs && db.jobs[j].scheduledAt.Some?
    ensures r == db.(scheduled := r.scheduled) && r.scheduled.Keys == db.scheduled.Keys + {j}
  {
    if j in db.scheduled then db
    else
      var job := db.jobs[j];
      db.(scheduled := db.scheduled[j := ScheduledRow(job.queue, job.priority, job.scheduledAt.value)])
  }

  datatype Locked = Locked(db: Db, ok: bool)

  /** `after` is `before` with one free token of the job's key taken; a job without a key
      takes none. */
  ghost predicate Paid(lim: Limits, job: Job, before: Table, after: Table) {
    match job.key
    case None => after == before
    case Some(key) =>
      key in after && Moves(Limit(lim, key), before, after, key, -1) && 1 <= Free(Limit(lim, key), before, key)
  }

  /** `acquire_concurrency_lock` with nobody in between, from what its read showed:
      a job without a key needs no token. */
  function AcquireLock(lim: Limits, db: Db, j: JobId, now: Time, seen: WaitPc): (r: Locked)
    requires j in db.jobs && seen != Acquired
    ensures r.db == db.(semaphores := r.db.semaphores)
    ensures db.jobs[j].key.None? ==> r.ok
    ensures if r.ok then Paid(lim, db.jobs[j], db.semaphores, r.db.semaphores) else r.db == db
  {
    match db.jobs[j].key
    case None => Locked(db, true)
    case Some(key) =>
      var r := WaitFrom(Limit(lim, key), db.semaphores, key, now + db.jobs[j].duration, seen);
      Locked(db.(semaphores := r.semaphores), r.pc.Acquired?)
  }

  /** `Job.dispatch` with nobody in between, from what its read of the semaphore showed. */
  function DispatchFrom(lim: Limits, db: Db, j: JobId, now: Time, seen: WaitPc): (r: Db)
    requires j in db.jobs && seen != Acquired
    ensures r == db.(ready := r.ready, blocked := r.blocked, semaphores := r.semaphores)
    ensures || (r == MakeReady(db.(semaphores := r.semaphores), j)
                && Paid(lim, db.jobs[j], db.semaphores, r.semaphores))
            || (db.jobs[j].key.Some? && r == MakeBlocked(db, j, now))
  {
    var lock := AcquireLock(lim, db, j, now, seen);
    if lock.ok then MakeReady(lock.db, j) else MakeBlocked(lock.db, j, now)
  }

  /** What `dispatch` reads first. */
  function Seen(db: Db, j: JobId): (pc: WaitPc)
    requires j in db.jobs
    ensures pc != Acquired
  {
    match db.jobs[j].key
    case None => Refused
    case Some(key) => Observe(db.semaphores, key)
  }

  function Dispatch(lim: Limits, db: Db, j: JobId, now: Time): Db
    requires j in db.jobs
  {
    DispatchFrom(lim, db, j, now, Seen(db, j))
  }

  /** `prepare_for_execution`. */
  function Prepare(lim: Limits, db: Db, j: JobId, now: Time): Db
    requires j in db.jobs
  {
    if IsDue(db.jobs[j], now) then Dispatch(lim, db, j, now) else MakeScheduled(db, j)
  }

  /** Saving a new job. */
  function Enqueue(lim: Limits, db: Db, j: JobId, job: Job, now: Time): Db {
    Prepare(lim, db.(jobs := db.jobs[j := job]), j, now)
  }

  // ----- Where a job ends up -----

  lemma DispatchIs(lim: Limits, db: Db, j: JobId, now: Time)
    requires j in db.jobs
    ensures var lock := AcquireLock(lim, db, j, now, Seen(db, j));
            Dispatch(lim, db, j, now) == if lock.ok then MakeReady(lock.db, j) else MakeBlocked(lock.db, j, now)
  {
  }

  lemma LockOutcome(lim: Limits, db: Db, j: JobId, now: Time)
    requires j in db.jobs
    ensures AcquireLock(lim, db, j, now, Seen(db, j)).ok <==>
              match db.jobs[j].key case None => true case Some(k) => 1 <= Free(Limit(lim, k), db.semaphores, k)
  {
    if db.jobs[j].key.Some? {
      var k := db.jobs[j].key.value;
      var w := Wait(Limit(lim, k), db.semaphores, k, now + db.jobs[j].duration);
      assert AcquireLock(lim, db, j, now, Seen(db, j)).ok == w.pc.Acquired?;
    }
  }

  /** The semaphores once the job has taken its token, if it needs one, at the time `now`: the
      row holds one less and expires after the job's duration. */
  function AfterTaking(lim: Limits, job: Job, semaphores: Table, now: Time): Table {
    match job.key
    case None => semaphores
    case Some(key) => OneTaken(Limit(lim, key), semaphores, key, now + job.duration)
  }

  /** The lock from any read: who gets it, and exactly what it writes. */
  lemma LockExactly(lim: Limits, db: Db, j: JobId, now: Time, seen: WaitPc)
    requires j in db.jobs && seen != Acquired
    ensures var r := AcquireLock(lim, db, j, now, seen); var job := db.jobs[j];
            && (r.ok <==> match job.key
                          case None => true
                          case Some(key) => Granted(Limit(lim, key), db.semaphores, key, seen))
            && r.db.semaphores == if r.ok then AfterTaking(lim, job, db.semaphores, now) else db.semaphores
  {
    hide WaitFrom, Granted, OneTaken;
    if db.jobs[j].key.Some? {
      var key := db.jobs[j].key.value;
      RestOutcome(Limit(lim, key), db.semaphores, key, now + db.jobs[j].duration, seen);
    }
  }

  /** A job that has a row already keeps it as it is. */
  lemma RowsAreKept(db: Db, j: JobId, now: Time)
    requires j in db.jobs
    ensures j in db.ready ==> MakeReady(db, j) == db
    ensures j in db.blocked && db.jobs[j].key.Some? ==> MakeBlocked(db, j, now) == db
    ensures j in db.scheduled && db.jobs[j].scheduledAt.Some? ==> MakeScheduled(db, j) == db
  {
  }

  /** `dispatch` of a job that has no row yet makes it ready exactly if it needs no token
      or one is free, and takes that token. */
  lemma DispatchOutcome(lim: Limits, db: Db, j: JobId, now: Time)
    requires j in db.jobs && j !in db.ready
    ensures j in Dispatch(lim, db, j, now).ready <==>
              match db.jobs[j].key case None => true case Some(k) => 1 <= Free(Limit(lim, k), db.semaphores, k)
  {
    DispatchIs(lim, db, j, now);
    LockOutcome(lim, db, j, now);
  }

  /** The job has a row of its own making in exactly one of the ready and blocked tables. */
  ghost predicate PlacedAnew(job: Job, r: Db, i: JobId, now: Time) {
    && (i in r.ready <==> i !in r.blocked)
    && (i in r.ready ==> r.ready[i] == ReadyRow(job.queue, job.priority))
    && (i in r.blocked ==> job.key.Some? && r.blocked[i] == BlockedRow(job.key.value, "", 0, now + job.duration))
  }

  ghost predicate Untouched(db: Db, r: Db, i: JobId) {
    && (i in r.ready <==> i in db.ready) && (i in db.ready && i in r.ready ==> r.ready[i] == db.ready[i])
    && (i in r.blocked <==> i in db.blocked) && (i in db.blocked && i in r.blocked ==> r.blocked[i] == db.blocked[i])
  }

  /** `j` is placed by its date: due, as `dispatch` does it, with a token if it needs one and
      one is free; otherwise scheduled, with its own queue name, priority and date. */
  ghost predicate Prepared(lim: Limits, db: Db, r: Db, j: JobId, now: Time)
    requires j in db.jobs
  {
    && r == db.(ready := r.ready, blocked := r.blocked, scheduled := r.scheduled, semaphores := r.semaphores)
    && if IsDue(db.jobs[j], now) then DispatchedNow(lim, db, r, j, now) else ScheduledForLater(db, r, j)
  }

  ghost predicate DispatchedNow(lim: Limits, db: Db, r: Db, j: JobId, now: Time)
    requires j in db.jobs
  {
    var job := db.jobs[j];
    && r.scheduled == db.scheduled && PlacedAnew(job, r, j, now) && (forall i :: i != j ==> Untouched(db, r, i))
    && (j in r.ready <==> match job.key case None => true case Some(k) => 1 <= Free(Limit(lim, k), db.semaphores, k))
    && (j in r.ready ==> Paid(lim, job, db.semaphores, r.semaphores))
    && r.semaphores == if j in r.ready then AfterTaking(lim, job, db.semaphores, now) else db.semaphores
  }

  ghost predicate ScheduledForLater(db: Db, r: Db, j: JobId)
    requires j in db.jobs && db.jobs[j].scheduledAt.Some?
  {
    var job := db.jobs[j];
    && r.scheduled == db.scheduled[j := ScheduledRow(job.queue, job.priority, job.scheduledAt.value)]
    && r.ready == db.ready && r.blocked == db.blocked && r.semaphores == db.semaphores
  }

  lemma ReadyPlaces(db: Db, j: JobId, semaphores: Table, now: Time)
    requires j in db.jobs && j !in db.ready && j !in db.blocked
    ensures var r := MakeReady(db.(semaphores := semaphores), j);
            j in r.ready && PlacedAnew(db.jobs[j], r, j, now) && forall i :: i != j ==> Untouched(db, r, i)
  {
  }

  lemma BlockPlaces(db: Db, j: JobId, now: Time)
    requires j in db.jobs && j !in db.ready && j !in db.blocked && db.jobs[j].key.Some?
    ensures var r := MakeBlocked(db, j, now);
            j !in r.ready && PlacedAnew(db.jobs[j], r, j, now) && forall i :: i != j ==> Untouched(db, r, i)
  {
  }

  lemma DispatchNow(lim: Limits, db: Db, j: JobId, now: Time)
    requires j in db.jobs && j !in db.ready && j !in db.blocked
    ensures DispatchedNow(lim, db, Dispatch(lim, db, j, now), j, now)
  {
    hide PlacedAnew, Untouched, Paid, AcquireLock, Dispatch, DispatchFrom, MakeReady, MakeBlocked, Free, Seen;
    hide AfterTaking, Granted;
    LockExactly(lim, db, j, now, Seen(db, j));
    DispatchIs(lim, db, j, now);
    DispatchOutcome(lim, db, j, now);
    var lock := AcquireLock(lim, db, j, now, Seen(db, j));
    if lock.ok {
      LockedNow(lim, db, j, now, lock.db.semaphores);
    } else {
      BlockPlaces(db, j, now);
    }
  }

  lemma LockedNow(lim: Limits, db: Db, j: JobId, now: Time, semaphores: Table)
    requires j in db.jobs && j !in db.ready && j !in db.blocked
    requires match db.jobs[j].key case None => true case Some(k) => 1 <= Free(Limit(lim, k), db.semaphores, k)
    requires Paid(lim, db.jobs[j], db.semaphores, semaphores)
    requires semaphores == AfterTaking(lim, db.jobs[j], db.semaphores, now)
    ensures DispatchedNow(lim, db, MakeReady(db.(semaphores := semaphores), j), j, now)
  {
    hide PlacedAnew, Untouched, Paid, Free, AfterTaking, MakeReady;
    ReadyPlaces(db, j, semaphores, now);
  }

  /** Where the job goes, by its date alone: a date yet to come puts it into the scheduled
      table and takes no token; no date, or one that has come, into exactly one of the ready
      and blocked tables. */
  ghost predicate PlacedByDate(db: Db, r: Db, j: JobId, now: Time)
    requires j in db.jobs
  {
    match db.jobs[j].scheduledAt
    case Some(t) =>
      if now < t then
        && j in r.scheduled && r.scheduled[j].scheduledAt == t && j !in r.ready && j !in r.blocked
        && r.semaphores == db.semaphores
      else
        j !in r.scheduled && (j in r.ready <==> j !in r.blocked)
    case None => j !in r.scheduled && (j in r.ready <==> j !in r.blocked)
  }

  /** The job has no row yet. */
  ghost predicate HasNoRow(db: Db, j: JobId) {
    j !in db.ready && j !in db.blocked && j !in db.scheduled
  }

  lemma DateDecides(lim: Limits, db: Db, j: JobId, now: Time)
    requires j in db.jobs && HasNoRow(db, j)
    ensures PlacedByDate(db, Prepare(lim, db, j, now), j, now)
  {
    hide Prepare, Paid, AfterTaking, Untouched, Free;
    PrepareOutcome(lim, db, j, now);
  }

  lemma PrepareOutcome(lim: Limits, db: Db, j: JobId, now: Time)
    requires j in db.jobs && j !in db.ready && j !in db.blocked && j !in db.scheduled
    ensures Prepared(lim, db, Prepare(lim, db, j, now), j, now)
  {
    hide DispatchedNow, Paid;
    if IsDue(db.jobs[j], now) {
      DispatchNow(lim, db, j, now);
    }
  }

  /** A new job gets exactly one row, and nothing else changes but a token taken. */
  lemma EnqueueOutcome(lim: Limits, db: Db, j: JobId, job: Job, now: Time)
    requires j !in db.ready && j !in db.blocked && j !in db.scheduled
    ensures var saved := db.(jobs := db.jobs[j := job]); var r := Enqueue(lim, db, j, job, now);
            Prepared(lim, saved, r, j, now) && PlacedByDate(saved, r, j, now)
  {
    hide Prepare, Prepared;
    PrepareOutcome(lim, db.(jobs := db.jobs[j := job]), j, now);
    DateDecides(lim, db.(jobs := db.jobs[j := job]), j, now);
  }

  // ----- The same operations on the database -----

  method GetOrCreateReady(database: Database, j: JobId)
    requires j in database.db.jobs
    modifies database
    ensures database.db == MakeReady(old(database.db), j)
  {
    if j !in database.db.ready {
      var job := database.db.jobs[j];
      database.db := database.db.(ready := database.db.ready[j := ReadyRow(job.queue, job.priority)]);
    }
  }

  method BlockJob(database: Database, j: JobId, now: Time)
    requires j in database.db.jobs && database.db.jobs[j].key.Some?
    modifies database
    ensures database.db == MakeBlocked(old(database.db), j, now)
  {
    if j !in database.db.blocked {
      var job := database.db.jobs[j];
      var row := BlockedRow(job.key.value, "", 0, now + job.duration);
      database.db := database.db.(blocked := database.db.blocked[j := row]);
    }
  }

  method ScheduleJob(database: Database, j: JobId)
    requires j in database.db.jobs && database.db.jobs[j].scheduledAt.Some?
    modifies database
    ensures database.db == MakeScheduled(old(database.db), j)
  {
    if j !in database.db.scheduled {
      var job := database.db.jobs[j];
      var row := ScheduledRow(job.queue, job.priority, job.scheduledAt.value);
      database.db := database.db.(scheduled := database.db.scheduled[j := row]);
    }
  }

  method AcquireConcurrencyLock(database: Database, lim: Limits, j: JobId, now: Time) returns (acquired: bool)
    requires j in database.db.jobs
    modifies database
    ensures var r := AcquireLock(lim, old(database.db), j, now, Seen(old(database.db), j));
            database.db == r.db && acquired == r.ok
  {
    var job := database.db.jobs[j];
    if job.key.None? {
      return true;
    }
    acquired := AcquireToken(database, lim, job.key.value, now + job.duration);
  }

  method DispatchJob(database: Database, lim: Limits, j: JobId, now: Time)
    requires j in database.db.jobs
    modifies database
    ensures database.db == Dispatch(lim, old(database.db), j, now)
  {
    var acquired := AcquireConcurrencyLock(database, lim, j, now);
    if acquired {
      GetOrCreateReady(database, j);
    } else {
      BlockJob(database, j, now);
    }
  }

  method PrepareForExecution(database: Database, lim: Limits, j: JobId, now: Time)
    requires j in database.db.jobs
    modifies database
    ensures database.db == Prepare(lim, old(database.db), j, now)
    ensures HasNoRow(old(database.db), j) ==> PlacedByDate(old(database.db), database.db, j, now)
  {
    ghost var before := database.db;
    if HasNoRow(before, j) {
      DateDecides(lim, before, j, now);
    }
    if IsDue(database.db.jobs[j], now) {
      DispatchJob(database, lim, j, now);
    } else {
      ScheduleJob(database, j);
    }
  }

  method SaveNew(database: Database, lim: Limits, j: JobId, job: Job, now: Time)
    requires j !in database.db.jobs
    modifies database
    ensures database.db == Enqueue(lim, old(database.db), j, job, now)
    ensures HasNoRow(old(database.db), j) ==>
              PlacedByDate(old(database.db).(jobs := old(database.db).jobs[j := job]), database.db, j, now)
  {
    database.db := database.db.(jobs := database.db.jobs[j := job]);
    PrepareForExecution(database, lim, j, now);
  }
}
