/** The queue as a protocol: any number of enqueuers, workers, dispatchers and
    supervisors, interleaved statement by statement.

    A `Machine` is the tables together with what every unfinished operation has still to
    do. A step is one statement that commits on its own, or one transaction whose row
    locks keep others out until it commits. A transaction over several rows (a dispatch
    batch, a bulk retry, a prune, a recurring enqueue) is a run of the steps for its rows
    with nothing in between, so every state it can commit is reached by these steps too. */
module Protocol {
  import opened Tables
  import opened Semaphores
  import opened Executables
  import opened BlockedExecutions
  import opened ClaimedExecutions
  import opened Dispatching
  import opened Processes

  type ThreadId = nat

  /** An enqueuer that has inserted its job row: the job is nowhere yet. */
  datatype EnqueuePc = Unplaced | Waiting(pc: WaitPc)

  /** A thread that ended a job: it owes its key a signal, then a promotion. The
      dispatcher's maintenance starts at `Releasing`. */
  datatype SettlePc = Owes(key: Key, duration: nat) | Releasing(key: Key)

  /** A worker's claiming transaction, holding ready rows locked. */
  datatype Claim = Claim(process: ProcessId, rows: set<JobId>)

  datatype Machine = Machine(
    db: Db,
    enqueuing: map<JobId, EnqueuePc>,        // by the job being enqueued
    settling: map<ThreadId, SettlePc>,
    promoting: set<JobId>,                   // the blocked rows held locked
    claiming: map<ThreadId, Claim>,
    leaving: map<ProcessId, set<JobId>>,     // stopped processes and their claims not yet settled
    expiring: set<Key>,                      // semaphores that maintenance read as expired and will delete
    deletions: map<Key, nat>)                // semaphores deleted so far

  const INITIAL: Machine := Machine(EMPTY, map[], map[], {}, map[], map[], {}, map[])

  datatype Step =
    | Insert(j: JobId, job: Job)
    | PlaceScheduled(j: JobId, now: Time)
    | PlaceUnlimited(j: JobId, now: Time)
    | ReadSemaphore(j: JobId, now: Time)
    | WaitOn(j: JobId, now: Time)
    | PlaceReady(j: JobId)
    | PlaceBlocked(j: JobId, now: Time)
    | LockReady(t: ThreadId, p: ProcessId, rows: set<JobId>)
    | CommitClaim(t: ThreadId)
    | AbortClaim(t: ThreadId)
    | Finish(t: ThreadId, j: JobId, now: Time)
    | Fail(t: ThreadId, j: JobId, error: string)
    | GiveBack(j: JobId)
    | SignalKey(t: ThreadId, now: Time)
    | StartRelease(t: ThreadId, key: Key)
    | LockBlocked(t: ThreadId)
    | Promote(j: JobId, now: Time, seen: WaitPc)
    | DispatchDue(j: JobId, now: Time, seen: WaitPc)
    | Retry(j: JobId, now: Time, seen: WaitPc)
    | BulkRetry(j: JobId, now: Time, seen: WaitPc)
    | FindExpired(key: Key, now: Time)
    | Expire(key: Key)
    | Register(p: ProcessId, process: Process)
    | Leave(p: ProcessId)
    | DeleteProcess(p: ProcessId)

  /** The time that the step reads. */
  function Now(step: Step): Option<Time> {
    match step
    case PlaceScheduled(_, now) => Some(now)
    case PlaceUnlimited(_, now) => Some(now)
    case ReadSemaphore(_, now) => Some(now)
    case WaitOn(_, now) => Some(now)
    case PlaceBlocked(_, now) => Some(now)
    case Finish(_, _, now) => Some(now)
    case SignalKey(_, now) => Some(now)
    case Promote(_, now, _) => Some(now)
    case DispatchDue(_, now, _) => Some(now)
    case Retry(_, now, _) => Some(now)
    case BulkRetry(_, now, _) => Some(now)
    case FindExpired(_, now) => Some(now)
    case _ => None
  }

  ghost function LockedReady(m: Machine): set<JobId> {
    set t, j | t in m.claiming && j in m.claiming[t].rows :: j
  }

  /** What the program order and the databases' locks allow next. */
  ghost predicate Enabled(lim: Limits, m: Machine, step: Step) {
    match step
    case Insert(j, job) => j !in m.db.jobs && job.finishedAt.None?
    case PlaceScheduled(j, now) =>
      j in m.enqueuing && m.enqueuing[j] == Unplaced && j in m.db.jobs && !IsDue(m.db.jobs[j], now)
    case PlaceUnlimited(j, now) =>
      && j in m.enqueuing && m.enqueuing[j] == Unplaced && j in m.db.jobs && m.db.jobs[j].key.None?
      && IsDue(m.db.jobs[j], now)
    case ReadSemaphore(j, now) =>
      && j in m.enqueuing && m.enqueuing[j] == Unplaced && j in m.db.jobs && m.db.jobs[j].key.Some?
      && IsDue(m.db.jobs[j], now)
    case WaitOn(j, now) =>
      && j in m.enqueuing && m.enqueuing[j] in {Waiting(Creating), Waiting(Decrementing)}
      && j in m.db.jobs && m.db.jobs[j].key.Some?
    case PlaceReady(j) => j in m.enqueuing && m.enqueuing[j] == Waiting(Acquired) && j in m.db.jobs
    case PlaceBlocked(j, now) =>
      j in m.enqueuing && m.enqueuing[j] == Waiting(Refused) && j in m.db.jobs && m.db.jobs[j].key.Some?
    case LockReady(t, p, rows) =>
      && t !in m.claiming && p in m.db.processes && m.db.processes[p].kind == Worker && p !in m.leaving
      && rows <= m.db.ready.Keys && rows !! LockedReady(m)
    case CommitClaim(t) => t in m.claiming
    case AbortClaim(t) => t in m.claiming
    case Finish(t, j, now) => t !in m.settling && j in m.db.claimed && j in m.db.jobs && Runs(m, j)
    case Fail(t, j, error) => t !in m.settling && j in m.db.claimed && j in m.db.jobs
    case GiveBack(j) =>
      j in m.db.claimed && j in m.db.jobs && m.db.claimed[j].Some? && m.db.claimed[j].value in m.leaving
    case SignalKey(t, now) => t in m.settling && m.settling[t].Owes?
    case StartRelease(t, key) => t !in m.settling
    case LockBlocked(t) => t in m.settling && m.settling[t].Releasing? && m.db.blocked.Keys <= m.db.jobs.Keys
    case Promote(j, now, seen) => j in m.promoting && seen != Acquired && j in m.db.blocked && j in m.db.jobs
    case DispatchDue(j, now, seen) =>
      j in m.db.scheduled && m.db.scheduled[j].scheduledAt <= now && j in m.db.jobs && seen != Acquired
    case Retry(j, now, seen) => j in m.db.failed && j in m.db.jobs && seen != Acquired
    case BulkRetry(j, now, seen) => j in m.db.failed && j in m.db.jobs && seen != Acquired
    case FindExpired(key, now) => key in m.db.semaphores && m.db.semaphores[key].expiresAt <= now
    case Expire(key) => key in m.db.semaphores && key in m.expiring
    case Register(p, process) => p !in m.db.processes
    case Leave(p) =>
      p in m.db.processes && p !in m.leaving && forall t :: t in m.claiming ==> m.claiming[t].process != p
    case DeleteProcess(p) => p in m.leaving && m.leaving[p] == {}
  }

  /** A bulk retry makes its job ready; it leaves the failed row of a job that it blocks. */
  ghost predicate RetryFits(lim: Limits, m: Machine, step: Step)
    requires Enabled(lim, m, step)
  {
    step.BulkRetry? ==> step.j in DispatchFrom(lim, m.db, step.j, step.now, step.seen).ready
  }

  /** The worker thread performing `j` belongs to a process that has not stopped. */
  ghost predicate Runs(m: Machine, j: JobId)
    requires j in m.db.claimed
  {
    m.db.claimed[j].Some? && m.db.claimed[j].value in m.db.processes && m.db.claimed[j].value !in m.leaving
  }

  ghost function Settled(
      leaving: map<ProcessId, set<JobId>>, claimed: map<JobId, Option<ProcessId>>, j: JobId)
    : map<ProcessId, set<JobId>>
    requires j in claimed
  {
    if claimed[j].Some? && claimed[j].value in leaving
    then leaving[claimed[j].value := leaving[claimed[j].value] - {j}]
    else leaving
  }

  ghost function Owing(settling: map<ThreadId, SettlePc>, t: ThreadId, job: Job): map<ThreadId, SettlePc> {
    if job.key.Some? then settling[t := Owes(job.key.value, job.duration)] else settling
  }

  function Deletions(m: Machine, key: Key): nat {
    if key in m.deletions then m.deletions[key] else 0
  }

  // ----- What each step does -----

  ghost function DoInsert(m: Machine, j: JobId, job: Job): Machine {
    m.(db := m.db.(jobs := m.db.jobs[j := job]), enqueuing := m.enqueuing[j := Unplaced])
  }

  /** The enqueuer's last statement: the job's row goes into one of the tables. */
  ghost function DoPlace(m: Machine, j: JobId, db: Db): Machine {
    m.(db := db, enqueuing := m.enqueuing - {j})
  }

  ghost function DoReadSemaphore(m: Machine, j: JobId): Machine
    requires j in m.db.jobs
  {
    m.(enqueuing := m.enqueuing[j := Waiting(Seen(m.db, j))])
  }

  ghost function DoWaitOn(lim: Limits, m: Machine, j: JobId, now: Time): Machine
    requires j in m.enqueuing && m.enqueuing[j].Waiting? && m.enqueuing[j].pc != Acquired
    requires j in m.db.jobs && m.db.jobs[j].key.Some?
  {
    var job := m.db.jobs[j];
    var key, pc := job.key.value, m.enqueuing[j].pc;
    var r := WaitStatement(Limit(lim, key), m.db.semaphores, key, now + job.duration, pc);
    m.(db := m.db.(semaphores := r.semaphores), enqueuing := m.enqueuing[j := Waiting(r.pc)])
  }

  ghost function DoLockReady(m: Machine, t: ThreadId, p: ProcessId, rows: set<JobId>): Machine {
    m.(claiming := m.claiming[t := Claim(p, rows)])
  }

  ghost function DoCommitClaim(m: Machine, t: ThreadId): Machine
    requires t in m.claiming
  {
    m.(db := ClaimRows(m.db, m.claiming[t].rows, m.claiming[t].process), claiming := m.claiming - {t})
  }

  ghost function DoAbortClaim(m: Machine, t: ThreadId): Machine {
    m.(claiming := m.claiming - {t})
  }

  ghost function DoFinish(m: Machine, t: ThreadId, j: JobId, now: Time): Machine
    requires j in m.db.jobs && j in m.db.claimed
  {
    m.(db := FinishClaim(m.db, j, now), settling := Owing(m.settling, t, m.db.jobs[j]))
  }

  ghost function DoFail(m: Machine, t: ThreadId, j: JobId, error: string): Machine
    requires j in m.db.jobs && j in m.db.claimed
  {
    m.(db := FailClaim(m.db, j, error), settling := Owing(m.settling, t, m.db.jobs[j]),
       leaving := Settled(m.leaving, m.db.claimed, j))
  }

  ghost function DoGiveBack(m: Machine, j: JobId): Machine
    requires j in m.db.jobs && j in m.db.claimed
  {
    m.(db := ReleaseClaim(m.db, j), leaving := Settled(m.leaving, m.db.claimed, j))
  }

  ghost function DoSignalKey(lim: Limits, m: Machine, t: ThreadId, now: Time): Machine
    requires t in m.settling && m.settling[t].Owes?
  {
    var Owes(key, duration) := m.settling[t];
    var r := Signal(Limit(lim, key), m.db.semaphores, key, now + duration);
    m.(db := m.db.(semaphores := r.semaphores),
       settling := if r.ok then m.settling[t := Releasing(key)] else m.settling - {t})
  }

  ghost function DoStartRelease(m: Machine, t: ThreadId, key: Key): Machine {
    m.(settling := m.settling[t := Releasing(key)])
  }

  ghost function DoLockBlocked(m: Machine, t: ThreadId): Machine
    requires t in m.settling && m.settling[t].Releasing?
    requires m.db.blocked.Keys <= m.db.jobs.Keys
  {
    match Next(m.db.blocked, m.settling[t].key, m.promoting)
    case None => m.(settling := m.settling - {t})
    case Some(j) => m.(settling := m.settling - {t}, promoting := m.promoting + {j})
  }

  /** The transaction that holds the blocked row; `seen` is what its read of the semaphore
      showed, at whatever time that was. */
  ghost function DoPromote(lim: Limits, m: Machine, j: JobId, now: Time, seen: WaitPc): Machine
    requires seen != Acquired && j in m.db.blocked && j in m.db.jobs
  {
    m.(db := Release(lim, m.db, j, now, seen).db, promoting := m.promoting - {j})
  }

  ghost function DoDispatchDue(lim: Limits, m: Machine, j: JobId, now: Time, seen: WaitPc): Machine
    requires j in m.db.jobs && seen != Acquired
  {
    m.(db := DispatchScheduled(lim, m.db, j, now, seen))
  }

  ghost function DoRetry(lim: Limits, m: Machine, j: JobId, now: Time, seen: WaitPc): Machine
    requires j in m.db.jobs && seen != Acquired
  {
    m.(db := RetryFailed(lim, m.db, j, now, seen))
  }

  ghost function DoBulkRetry(lim: Limits, m: Machine, j: JobId, now: Time, seen: WaitPc): Machine
    requires j in m.db.jobs && seen != Acquired
  {
    m.(db := RetryInBulk(lim, m.db, j, now, seen))
  }

  ghost function DoFindExpired(m: Machine, key: Key): Machine {
    m.(expiring := m.expiring + {key})
  }

  /** The row is deleted by its primary key, whatever happened to it since it was read. */
  ghost function DoExpire(m: Machine, key: Key): Machine {
    m.(db := m.db.(semaphores := m.db.semaphores - {key}), expiring := m.expiring - {key},
       deletions := m.deletions[key := Deletions(m, key) + 1])
  }

  ghost function DoRegister(m: Machine, p: ProcessId, process: Process): Machine {
    m.(db := m.db.(processes := m.db.processes[p := process]))
  }

  ghost function DoLeave(m: Machine, p: ProcessId): Machine {
    m.(leaving := m.leaving[p := ClaimedBy(m.db.claimed, p)])
  }

  ghost function DoDeleteProcess(m: Machine, p: ProcessId): Machine {
    m.(db := WithoutProcess(m.db, p), leaving := m.leaving - {p})
  }

  ghost function Apply(lim: Limits, m: Machine, step: Step): Machine
    requires Enabled(lim, m, step)
  {
    match step
    case Insert(j, job) => DoInsert(m, j, job)
    case PlaceScheduled(j, now) => DoPlace(m, j, MakeScheduled(m.db, j))
    case PlaceUnlimited(j, now) => DoPlace(m, j, MakeReady(m.db, j))
    case ReadSemaphore(j, now) => DoReadSemaphore(m, j)
    case WaitOn(j, now) => DoWaitOn(lim, m, j, now)
    case PlaceReady(j) => DoPlace(m, j, MakeReady(m.db, j))
    case PlaceBlocked(j, now) => DoPlace(m, j, MakeBlocked(m.db, j, now))
    case LockReady(t, p, rows) => DoLockReady(m, t, p, rows)
    case CommitClaim(t) => DoCommitClaim(m, t)
    case AbortClaim(t) => DoAbortClaim(m, t)
    case Finish(t, j, now) => DoFinish(m, t, j, now)
    case Fail(t, j, error) => DoFail(m, t, j, error)
    case GiveBack(j) => DoGiveBack(m, j)
    case SignalKey(t, now) => DoSignalKey(lim, m, t, now)
    case StartRelease(t, key) => DoStartRelease(m, t, key)
    case LockBlocked(t) => DoLockBlocked(m, t)
    case Promote(j, now, seen) => DoPromote(lim, m, j, now, seen)
    case DispatchDue(j, now, seen) => DoDispatchDue(lim, m, j, now, seen)
    case Retry(j, now, seen) => DoRetry(lim, m, j, now, seen)
    case BulkRetry(j, now, seen) => DoBulkRetry(lim, m, j, now, seen)
    case FindExpired(key, now) => DoFindExpired(m, key)
    case Expire(key) => DoExpire(m, key)
    case Register(p, process) => DoRegister(m, p, process)
    case Leave(p) => DoLeave(m, p)
    case DeleteProcess(p) => DoDeleteProcess(m, p)
  }
}
