/** The queue when its operations do not interleave: a job stays blocked only while the
    limit of its key is fully used, so finishing jobs never leaves one stranded. */
module Quiescence {
  import opened Tables
  import opened Semaphores
  import opened Executables
  import opened BlockedExecutions
  import opened ClaimedExecutions
  import opened Dispatching
  import Processes
  import opened Protocol
  import opened Lifecycle
  import opened Tokens
  import opened Runs
  import opened Operations
  import opened BlockedQueues

  datatype Operation =
    | Save(j: JobId, job: Job, now: Time)
    | Claim(p: ProcessId, rows: set<JobId>)
    | Complete(j: JobId, now: Time)
    | Crash(j: JobId, error: string, now: Time)
    | DispatchOne(j: JobId, now: Time)
    | RetryOne(j: JobId, now: Time)
    | RetryBulk(j: JobId, now: Time)
    | Maintain(key: Key, now: Time)
    | SignUp(p: ProcessId, process: Process)
    | SignOff(p: ProcessId)

  ghost predicate Possible(lim: Limits, db: Db, op: Operation) {
    db.blocked.Keys <= db.jobs.Keys && db.claimed.Keys <= db.jobs.Keys &&
    match op
    case Save(j, job, now) => j !in db.jobs && job.finishedAt.None?
    case Claim(p, rows) => IsWorker(db.processes, p) && rows <= db.ready.Keys
    case Complete(j, now) => j in db.claimed
    case Crash(j, error, now) => j in db.claimed
    case DispatchOne(j, now) => j in db.scheduled && db.scheduled[j].scheduledAt <= now && j in db.jobs
    case RetryOne(j, now) => j in db.failed && j in db.jobs
    case RetryBulk(j, now) => j in db.failed && j in db.jobs && j in Dispatch(lim, db, j, now).ready
    case Maintain(key, now) => true
    case SignUp(p, process) => p !in db.processes
    case SignOff(p) => p in db.processes
  }

  ghost function Do(lim: Limits, db: Db, op: Operation): Db
    requires Possible(lim, db, op)
  {
    match op
    case Save(j, job, now) => Enqueue(lim, db, j, job, now)
    case Claim(p, rows) => ClaimRows(db, rows, p)
    case Complete(j, now) => FinishAndUnblock(lim, db, j, now)
    case Crash(j, error, now) => FailAndUnblock(lim, db, j, error, now)
    case DispatchOne(j, now) => DispatchScheduled(lim, db, j, now, Seen(db, j))
    case RetryOne(j, now) => RetryFailed(lim, db, j, now, Seen(db, j))
    case RetryBulk(j, now) => RetryInBulk(lim, db, j, now, Seen(db, j))
    case Maintain(key, now) => ReleaseOne(lim, db, key, now).db
    case SignUp(p, process) => db.(processes := db.processes[p := process])
    case SignOff(p) => Processes.DeleteProcess(db, p)
  }

  ghost predicate History(lim: Limits, db: Db, ops: seq<Operation>, db': Db)
    decreases |ops|
  {
    if ops == [] then db' == db
    else Possible(lim, db, ops[0]) && History(lim, Do(lim, db, ops[0]), ops[1..], db')
  }

  /** `db` results from some sequence of whole operations on empty tables. */
  ghost predicate Arises(lim: Limits, db: Db) {
    exists ops :: History(lim, EMPTY, ops, db)
  }

  // ----- Whole operations are runs of the protocol -----

  lemma OperationReaches(lim: Limits, db: Db, op: Operation)
    requires Possible(lim, db, op) && Inv(Idle(db))
    ensures Reaches(lim, NoExpiry, Idle(db), Idle(Do(lim, db, op)))
  {
    var m := Idle(db);
    match op {
      case Save(j, job, now) => EnqueueRuns(lim, m, j, job, now);
      case Claim(p, rows) => ClaimRuns(lim, m, p, rows);
      case Complete(j, now) => FinishRuns(lim, m, j, now);
      case Crash(j, error, now) => FailRuns(lim, m, j, error, now);
      case DispatchOne(j, now) => DispatchRuns(lim, m, j, now, Seen(db, j));
      case RetryOne(j, now) => RetryRuns(lim, m, j, now, Seen(db, j));
      case RetryBulk(j, now) => BulkRetryRuns(lim, m, j, now, Seen(db, j));
      case Maintain(key, now) => MaintenanceRuns(lim, m, key, now);
      case SignUp(p, process) => RegisterRuns(lim, m, p, process);
      case SignOff(p) => DeleteProcessRuns(lim, m, p);
    }
  }

  /** Every whole operation is a run of the protocol's steps. */
  lemma OperationIsRun(lim: Limits, db: Db, op: Operation)
    requires Possible(lim, db, op) && Reachable(lim, NoExpiry, Idle(db))
    ensures Reachable(lim, NoExpiry, Idle(Do(lim, db, op)))
  {
    ReachableInv(lim, NoExpiry, Idle(db));
    OperationReaches(lim, db, op);
    ReachesTransitive(lim, NoExpiry, INITIAL, Idle(db), Idle(Do(lim, db, op)));
  }

  // ----- What whole operations keep -----

  ghost predicate BlockedKey(db: Db, key: Key) {
    exists j :: j in db.blocked && db.blocked[j].key == key
  }

  ghost predicate Justified(db: Db) {
    forall j :: j in db.blocked ==> Exhausted(db.semaphores, db.blocked[j].key)
  }

  /** Taking a token of a key that blocks nobody, and blocking on an exhausted key. */
  lemma ReadyJustified(lim: Limits, db: Db, j: JobId, semaphores: Table)
    requires Justified(db) && j in db.jobs && Paid(lim, db.jobs[j], db.semaphores, semaphores)
    ensures Justified(MakeReady(db.(semaphores := semaphores), j))
  {
    if db.jobs[j].key.Some? {
      var key := db.jobs[j].key.value;
      forall i | i in db.blocked ensures Exhausted(semaphores, db.blocked[i].key) {
        assert Exhausted(db.semaphores, db.blocked[i].key);
        assert db.blocked[i].key != key;
      }
    }
  }

  lemma BlockJustified(db: Db, j: JobId, now: Time)
    requires Justified(db) && j in db.jobs && db.jobs[j].key.Some?
    requires Exhausted(db.semaphores, db.jobs[j].key.value)
    ensures Justified(MakeBlocked(db, j, now))
  {
  }

  lemma RefusedMeansExhausted(lim: Limits, db: Db, j: JobId, now: Time)
    requires j in db.jobs && db.jobs[j].key.Some?
    requires !AcquireLock(lim, db, j, now, Seen(db, j)).ok
    ensures Exhausted(db.semaphores, db.jobs[j].key.value)
  {
    var key := db.jobs[j].key.value;
    assert !Wait(Limit(lim, key), db.semaphores, key, now + db.jobs[j].duration).pc.Acquired?;
  }

  lemma DispatchJustified(lim: Limits, db: Db, j: JobId, now: Time)
    requires Justified(db) && j in db.jobs
    ensures Justified(Dispatch(lim, db, j, now))
  {
    var lock := AcquireLock(lim, db, j, now, Seen(db, j));
    if lock.ok {
      ReadyJustified(lim, db, j, lock.db.semaphores);
    } else {
      RefusedMeansExhausted(lim, db, j, now);
      BlockJustified(db, j, now);
    }
  }

  ghost predicate JustifiedElsewhere(db: Db, key: Key) {
    && (forall j :: j in db.blocked && db.blocked[j].key != key ==> Exhausted(db.semaphores, db.blocked[j].key))
    && (BlockedKey(db, key) ==> key in db.semaphores && db.semaphores[key].value <= 1)
  }

  lemma ReleaseJustified(lim: Limits, db: Db, j: JobId, key: Key, now: Time)
    requires j in db.jobs && j in db.blocked && j !in db.ready && db.jobs[j].key == Some(key)
    requires JustifiedElsewhere(db, key) && key in db.semaphores && db.semaphores[key].value <= 1
    ensures Justified(Release(lim, db, j, now, Seen(db, j)).db)
  {
    var r := Wait(Limit(lim, key), db.semaphores, key, now + db.jobs[j].duration);
    assert Exhausted(r.semaphores, key);
  }

  lemma ReleaseOneJustified(lim: Limits, db: Db, key: Key, now: Time)
    requires BlockedRowsSound(db) && db.blocked.Keys <= db.jobs.Keys
    requires JustifiedElsewhere(db, key)
    ensures Justified(ReleaseOne(lim, db, key, now).db)
  {
    var next := Next(db.blocked, key, {});
    if next.Some? {
      assert BlockedKey(db, key);
      ReleaseJustified(lim, db, next.value, key, now);
    } else {
      forall j | j in db.blocked ensures db.blocked[j].key != key {
        assert NoneLeft(db.blocked, key, {});
      }
    }
  }

  lemma SignalJustifiedElsewhere(lim: Limits, db: Db, key: Key, e: Time)
    requires Justified(db) && Signal(Limit(lim, key), db.semaphores, key, e).ok
    ensures JustifiedElsewhere(db.(semaphores := Signal(Limit(lim, key), db.semaphores, key, e).semaphores), key)
  {
    var after := Signal(Limit(lim, key), db.semaphores, key, e).semaphores;
    forall j | j in db.blocked && db.blocked[j].key != key ensures Exhausted(after, db.blocked[j].key) {
      assert Exhausted(db.semaphores, db.blocked[j].key);
    }
    if j :| j in db.blocked && db.blocked[j].key == key {
      assert Exhausted(db.semaphores, db.blocked[j].key);
    }
  }

  lemma UnblockJustified(lim: Limits, db: Db, j: JobId, now: Time)
    requires Justified(db) && BlockedRowsSound(db) && j in db.jobs && db.blocked.Keys <= db.jobs.Keys
    ensures Justified(UnblockNext(lim, db, j, now))
  {
    if db.jobs[j].key.Some? {
      var key, e := db.jobs[j].key.value, now + db.jobs[j].duration;
      var r := Signal(Limit(lim, key), db.semaphores, key, e);
      if r.ok {
        var after := db.(semaphores := r.semaphores);
        SignalJustifiedElsewhere(lim, db, key, e);
        assert BlockedRowsSound(after);
        ReleaseOneJustified(lim, after, key, now);
        assert UnblockNext(lim, db, j, now) == ReleaseOne(lim, after, key, now).db;
      } else {
        assert UnblockNext(lim, db, j, now) == db;
      }
    }
  }

  lemma CompleteJustified(lim: Limits, db: Db, j: JobId, now: Time)
    requires Justified(db) && BlockedRowsSound(db) && j in db.jobs && db.blocked.Keys <= db.jobs.Keys
    ensures Justified(FinishAndUnblock(lim, db, j, now))
  {
    UnblockJustified(lim, FinishClaim(db, j, now), j, now);
  }

  lemma MaintenanceJustified(lim: Limits, db: Db, key: Key, now: Time)
    requires Justified(db) && db.blocked.Keys <= db.jobs.Keys
    requires BlockedRowsSound(db)
    ensures Justified(ReleaseOne(lim, db, key, now).db)
  {
    if j :| j in db.blocked && db.blocked[j].key == key {
      assert Exhausted(db.semaphores, db.blocked[j].key);
    }
    ReleaseOneJustified(lim, db, key, now);
  }

  lemma EndJustified(lim: Limits, db: Db, op: Operation)
    requires Possible(lim, db, op) && Justified(db) && BlockedRowsSound(db)
    requires op.Complete? || op.Crash? || op.Maintain?
    ensures Justified(Do(lim, db, op))
  {
    match op
    case Complete(j, now) => CompleteJustified(lim, db, j, now);
    case Crash(j, error, now) => UnblockJustified(lim, FailClaim(db, j, error), j, now);
    case Maintain(key, now) => MaintenanceJustified(lim, db, key, now);
  }

  lemma StartJustified(lim: Limits, db: Db, op: Operation)
    requires Possible(lim, db, op) && Justified(db)
    requires op.Save? || op.DispatchOne? || op.RetryOne? || op.RetryBulk?
    ensures Justified(Do(lim, db, op))
  {
    if op.Save? {
      DispatchJustified(lim, db.(jobs := db.jobs[op.j := op.job]), op.j, op.now);
    } else {
      DispatchJustified(lim, db, op.j, op.now);
    }
  }

  lemma OperationJustified(lim: Limits, db: Db, op: Operation)
    requires Possible(lim, db, op) && Justified(db) && Inv(Idle(db))
    ensures Justified(Do(lim, db, op))
  {
    IdleRowsSound(db);
    if op.Complete? || op.Crash? || op.Maintain? {
      EndJustified(lim, db, op);
    } else if op.Save? || op.DispatchOne? || op.RetryOne? || op.RetryBulk? {
      StartJustified(lim, db, op);
    }
  }

  lemma {:induction false} HistoryKeeps(lim: Limits, db: Db, ops: seq<Operation>, db': Db)
    requires History(lim, db, ops, db') && Reachable(lim, NoExpiry, Idle(db)) && Justified(db)
    ensures Reachable(lim, NoExpiry, Idle(db')) && Justified(db')
    decreases |ops|
  {
    if ops != [] {
      ReachableInv(lim, NoExpiry, Idle(db));
      OperationIsRun(lim, db, ops[0]);
      OperationJustified(lim, db, ops[0]);
      HistoryKeeps(lim, Do(lim, db, ops[0]), ops[1..], db');
    }
  }

  /** After any sequence of whole operations, a blocked job means that its semaphore is at
      zero and exactly `limit` jobs of its key are ready or claimed. */
  lemma BlockedMeansFullyUsed(lim: Limits, db: Db, j: JobId)
    requires Arises(lim, db) && j in db.blocked
    ensures var key := db.blocked[j].key;
            key in db.semaphores && db.semaphores[key].value == 0 && |Running(db, key)| == Limit(lim, key)
  {
    var ops :| History(lim, EMPTY, ops, db);
    ReachesItself(lim, NoExpiry, INITIAL);
    assert Idle(EMPTY) == INITIAL;
    HistoryKeeps(lim, EMPTY, ops, db);
    var key := db.blocked[j].key;
    ReachesByWeaker(lim, NoExpiry, ExpiresFrom(key, Limit(lim, key)), INITIAL, Idle(db));
    TokenConservation(lim, Idle(db), key);
    assert Debts(Idle(db), key) == {};
    assert Holders(Idle(db), key) == Running(db, key);
  }

  /** So when nothing of a key is ready or claimed, nothing of it is blocked. */
  lemma NeverQuiescentWhileBlocked(lim: Limits, db: Db, key: Key)
    requires Arises(lim, db) && Running(db, key) == {}
    ensures !BlockedKey(db, key)
  {
    if j :| j in db.blocked && db.blocked[j].key == key {
      BlockedMeansFullyUsed(lim, db, j);
    }
  }

  /** Whole operations keep every job in exactly one table, or finished. */
  lemma ArisesInOnePlace(lim: Limits, db: Db, j: JobId)
    requires Arises(lim, db) && j in db.jobs
    ensures InOnePlace(db, j)
  {
    var ops :| History(lim, EMPTY, ops, db);
    ReachesItself(lim, NoExpiry, INITIAL);
    assert Idle(EMPTY) == INITIAL;
    HistoryKeeps(lim, EMPTY, ops, db);
    ReachableInv(lim, NoExpiry, Idle(db));
    assert Placed(Idle(db), j);
  }
}
