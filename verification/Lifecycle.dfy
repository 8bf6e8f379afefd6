/** What every step of the protocol keeps: each job is in exactly one place, locks are
    exclusive, and every claim has a registered worker. */
module Lifecycle {
  import opened Tables
  import opened Semaphores
  import opened Executables
  import opened BlockedExecutions
  import opened Protocol

  function One(b: bool): nat { if b then 1 else 0 }

  /** The places a job can be: on its way in the thread that enqueues it, in one of the
      five execution tables, or finished. */
  ghost function Places(m: Machine, j: JobId): nat
    requires j in m.db.jobs
  {
    One(j in m.enqueuing) + One(j in m.db.ready) + One(j in m.db.claimed) + One(j in m.db.blocked)
    + One(j in m.db.scheduled) + One(j in m.db.failed) + One(m.db.jobs[j].finishedAt.Some?)
  }

  /** The same for a job that nobody is enqueueing. */
  ghost predicate InOnePlace(db: Db, j: JobId) {
    j in db.jobs &&
    One(j in db.ready) + One(j in db.claimed) + One(j in db.blocked) + One(j in db.scheduled)
    + One(j in db.failed) + One(db.jobs[j].finishedAt.Some?) == 1
  }

  /** A job is in exactly one place; what is not a job is in none. */
  ghost predicate Placed(m: Machine, j: JobId) {
    if j in m.db.jobs then Places(m, j) == 1
    else
      && j !in m.enqueuing && j !in m.db.ready && j !in m.db.claimed && j !in m.db.blocked
      && j !in m.db.scheduled && j !in m.db.failed
  }

  ghost predicate OnePlace(m: Machine) {
    forall j :: Placed(m, j)
  }

  ghost predicate KeysMatch(m: Machine) {
    && (forall j :: j in m.db.blocked ==> j in m.db.jobs && m.db.jobs[j].key == Some(m.db.blocked[j].key))
    && (forall j :: j in m.enqueuing && m.enqueuing[j].Waiting? ==> j in m.db.jobs && m.db.jobs[j].key.Some?)
  }

  ghost predicate LocksHeld(m: Machine) {
    && m.promoting <= m.db.blocked.Keys
    && (forall t :: t in m.claiming ==> m.claiming[t].rows <= m.db.ready.Keys)
    && (forall t, u, j :: t in m.claiming && u in m.claiming && j in m.claiming[t].rows && j in m.claiming[u].rows ==>
          t == u)
  }

  ghost predicate IsWorker(processes: map<ProcessId, Process>, p: ProcessId) {
    p in processes && processes[p].kind == Worker
  }

  ghost predicate Owned(m: Machine) {
    && (forall j :: j in m.db.claimed ==> m.db.claimed[j].Some? && IsWorker(m.db.processes, m.db.claimed[j].value))
    && (forall t :: t in m.claiming ==>
          IsWorker(m.db.processes, m.claiming[t].process) && m.claiming[t].process !in m.leaving)
    && m.leaving.Keys <= m.db.processes.Keys
    && (forall p, j :: p in m.leaving && j in m.db.claimed && m.db.claimed[j] == Some(p) ==> j in m.leaving[p])
  }

  ghost predicate Inv(m: Machine) {
    OnePlace(m) && KeysMatch(m) && LocksHeld(m) && Owned(m)
  }

  ghost predicate SamePlace(m: Machine, m': Machine, i: JobId) {
    && (i in m'.db.jobs <==> i in m.db.jobs) && (i in m'.enqueuing <==> i in m.enqueuing)
    && (i in m'.db.ready <==> i in m.db.ready) && (i in m'.db.claimed <==> i in m.db.claimed)
    && (i in m'.db.blocked <==> i in m.db.blocked) && (i in m'.db.scheduled <==> i in m.db.scheduled)
    && (i in m'.db.failed <==> i in m.db.failed)
    && (i in m.db.jobs && i in m'.db.jobs ==> m'.db.jobs[i].finishedAt == m.db.jobs[i].finishedAt)
  }

  /** Moving one job leaves all others where they are. */
  lemma MoveKeepsPlaces(m: Machine, m': Machine, moved: set<JobId>)
    requires OnePlace(m)
    requires forall i :: i !in moved ==> SamePlace(m, m', i)
    requires forall i :: i in moved ==> Placed(m', i)
    ensures OnePlace(m')
  {
    forall i ensures Placed(m', i) {
      if i !in moved {
        assert Placed(m, i) && SamePlace(m, m', i);
      }
    }
  }

  ghost predicate Rest(m: Machine) {
    KeysMatch(m) && LocksHeld(m) && Owned(m)
  }

  // ----- Steps of an enqueuer -----

  lemma InsertKeepsInv(m: Machine, j: JobId, job: Job)
    requires Inv(m) && j !in m.db.jobs && job.finishedAt.None?
    ensures Inv(DoInsert(m, j, job))
  {
    assert Placed(m, j);
    MoveKeepsPlaces(m, DoInsert(m, j, job), {j});
  }

  lemma PlaceKeepsPlaces(m: Machine, j: JobId, db: Db, now: Time)
    requires OnePlace(m) && j in m.enqueuing && j in m.db.jobs
    requires || db == MakeReady(m.db, j) || (m.db.jobs[j].scheduledAt.Some? && db == MakeScheduled(m.db, j))
             || (m.db.jobs[j].key.Some? && db == MakeBlocked(m.db, j, now))
    ensures OnePlace(DoPlace(m, j, db))
  {
    assert Placed(m, j);
    MoveKeepsPlaces(m, DoPlace(m, j, db), {j});
  }

  /** What a change must leave alone for keys, locks and owners to survive it when it only
      adds ready and blocked rows. */
  ghost predicate OnlyAdds(m: Machine, after: Machine) {
    && after.enqueuing.Keys <= m.enqueuing.Keys
    && (forall j :: j in after.enqueuing ==> after.enqueuing[j] == m.enqueuing[j])
    && after.promoting == m.promoting && after.claiming == m.claiming && after.leaving == m.leaving
    && after.db.jobs == m.db.jobs && after.db.claimed == m.db.claimed && after.db.processes == m.db.processes
    && m.db.ready.Keys <= after.db.ready.Keys && m.db.blocked.Keys <= after.db.blocked.Keys
  }

  lemma RestKept(m: Machine, after: Machine)
    requires Rest(m) && OnlyAdds(m, after) && after.db.blocked == m.db.blocked
    ensures Rest(after)
  {
  }

  lemma RestKeptBlocking(m: Machine, after: Machine, j: JobId, row: BlockedRow)
    requires Rest(m) && OnlyAdds(m, after) && j in m.db.jobs && m.db.jobs[j].key == Some(row.key)
    requires after.db.blocked == m.db.blocked[j := row]
    ensures Rest(after)
  {
    forall i | i in after.db.blocked
      ensures i in after.db.jobs && after.db.jobs[i].key == Some(after.db.blocked[i].key)
    {
      assert i == j || i in m.db.blocked;
    }
  }

  lemma PlaceReadyKeepsInv(m: Machine, j: JobId)
    requires Inv(m) && j in m.enqueuing && j in m.db.jobs
    ensures Inv(DoPlace(m, j, MakeReady(m.db, j)))
  {
    PlaceKeepsPlaces(m, j, MakeReady(m.db, j), 0);
    RestKept(m, DoPlace(m, j, MakeReady(m.db, j)));
  }

  lemma PlaceScheduledKeepsInv(m: Machine, j: JobId)
    requires Inv(m) && j in m.enqueuing && j in m.db.jobs && m.db.jobs[j].scheduledAt.Some?
    ensures Inv(DoPlace(m, j, MakeScheduled(m.db, j)))
  {
    PlaceKeepsPlaces(m, j, MakeScheduled(m.db, j), 0);
    RestKept(m, DoPlace(m, j, MakeScheduled(m.db, j)));
  }

  lemma PlaceBlockedKeepsInv(m: Machine, j: JobId, now: Time)
    requires Inv(m) && j in m.enqueuing && j in m.db.jobs && m.db.jobs[j].key.Some?
    ensures Inv(DoPlace(m, j, MakeBlocked(m.db, j, now)))
  {
    var after := DoPlace(m, j, MakeBlocked(m.db, j, now));
    PlaceKeepsPlaces(m, j, MakeBlocked(m.db, j, now), now);
    assert Placed(m, j);
    RestKeptBlocking(m, after, j, after.db.blocked[j]);
  }

  lemma ReadSemaphoreKeepsInv(m: Machine, j: JobId)
    requires Inv(m) && j in m.enqueuing && j in m.db.jobs && m.db.jobs[j].key.Some?
    ensures Inv(DoReadSemaphore(m, j))
  {
    MoveKeepsPlaces(m, DoReadSemaphore(m, j), {});
  }

  lemma WaitOnKeepsInv(lim: Limits, m: Machine, j: JobId, now: Time)
    requires Inv(m) && j in m.enqueuing && m.enqueuing[j].Waiting? && m.enqueuing[j].pc != Acquired
    requires j in m.db.jobs && m.db.jobs[j].key.Some?
    ensures Inv(DoWaitOn(lim, m, j, now))
  {
    MoveKeepsPlaces(m, DoWaitOn(lim, m, j, now), {});
  }

  // ----- Steps of a worker's claim -----

  lemma LockReadyKeepsInv(m: Machine, t: ThreadId, p: ProcessId, rows: set<JobId>)
    requires Inv(m) && t !in m.claiming && IsWorker(m.db.processes, p) && p !in m.leaving
    requires rows <= m.db.ready.Keys && rows !! LockedReady(m)
    ensures Inv(DoLockReady(m, t, p, rows))
  {
    MoveKeepsPlaces(m, DoLockReady(m, t, p, rows), {});
  }

  /** Locked ready rows are ready, so none of them is claimed, and the claiming process is
      registered: a claim never meets the constraints that would roll it back. */
  lemma ClaimCommits(m: Machine, t: ThreadId)
    requires Inv(m) && t in m.claiming
    ensures m.claiming[t].rows !! m.db.claimed.Keys && m.claiming[t].process in m.db.processes
  {
    forall j | j in m.claiming[t].rows ensures j !in m.db.claimed {
      assert Placed(m, j);
    }
  }

  lemma CommitClaimPlaces(m: Machine, t: ThreadId)
    requires Inv(m) && t in m.claiming
    ensures OnePlace(DoCommitClaim(m, t))
  {
    var m', rows := DoCommitClaim(m, t), m.claiming[t].rows;
    forall i | i in rows ensures Placed(m', i) {
      assert Placed(m, i);
    }
    MoveKeepsPlaces(m, m', rows);
  }

  lemma CommitClaimRest(m: Machine, t: ThreadId)
    requires Inv(m) && t in m.claiming
    ensures Rest(DoCommitClaim(m, t))
  {
    ClaimCommits(m, t);
  }

  lemma CommitClaimKeepsInv(m: Machine, t: ThreadId)
    requires Inv(m) && t in m.claiming
    ensures Inv(DoCommitClaim(m, t))
  {
    CommitClaimPlaces(m, t);
    CommitClaimRest(m, t);
  }

  lemma AbortClaimKeepsInv(m: Machine, t: ThreadId)
    requires Inv(m)
    ensures Inv(DoAbortClaim(m, t))
  {
    MoveKeepsPlaces(m, DoAbortClaim(m, t), {});
  }

  // ----- Steps at the end of a job -----

  lemma FinishKeepsInv(m: Machine, t: ThreadId, j: JobId, now: Time)
    requires Inv(m) && j in m.db.claimed && j in m.db.jobs
    ensures Inv(DoFinish(m, t, j, now))
  {
    assert Placed(m, j);
    MoveKeepsPlaces(m, DoFinish(m, t, j, now), {j});
  }

  /** A claimed job has no failed row yet, so failing it never meets another error's row. */
  lemma FailKeepsInv(m: Machine, t: ThreadId, j: JobId, error: string)
    requires Inv(m) && j in m.db.claimed && j in m.db.jobs
    ensures j !in m.db.failed && Inv(DoFail(m, t, j, error))
  {
    assert Placed(m, j);
    MoveKeepsPlaces(m, DoFail(m, t, j, error), {j});
  }

  lemma GiveBackPlaces(m: Machine, j: JobId)
    requires Inv(m) && j in m.db.claimed && j in m.db.jobs
    ensures OnePlace(DoGiveBack(m, j))
  {
    assert Placed(m, j);
    MoveKeepsPlaces(m, DoGiveBack(m, j), {j});
  }

  lemma GiveBackKeepsInv(m: Machine, j: JobId)
    requires Inv(m) && j in m.db.claimed && j in m.db.jobs
    ensures Inv(DoGiveBack(m, j))
  {
    GiveBackPlaces(m, j);
  }

  lemma SignalKeyKeepsInv(lim: Limits, m: Machine, t: ThreadId, now: Time)
    requires Inv(m) && t in m.settling && m.settling[t].Owes?
    ensures Inv(DoSignalKey(lim, m, t, now))
  {
    MoveKeepsPlaces(m, DoSignalKey(lim, m, t, now), {});
  }

  lemma StartReleaseKeepsInv(m: Machine, t: ThreadId, key: Key)
    requires Inv(m)
    ensures Inv(DoStartRelease(m, t, key))
  {
    MoveKeepsPlaces(m, DoStartRelease(m, t, key), {});
  }

  lemma LockedKeepsInv(m: Machine, t: ThreadId, j: JobId)
    requires Inv(m) && j in m.db.blocked && j in m.db.jobs
    ensures Inv(m.(settling := m.settling - {t}, promoting := m.promoting + {j}))
  {
    MoveKeepsPlaces(m, m.(settling := m.settling - {t}, promoting := m.promoting + {j}), {});
  }

  lemma LockBlockedKeepsInv(m: Machine, t: ThreadId)
    requires Inv(m) && t in m.settling && m.settling[t].Releasing? && m.db.blocked.Keys <= m.db.jobs.Keys
    ensures Inv(DoLockBlocked(m, t))
  {
    var next := Next(m.db.blocked, m.settling[t].key, m.promoting);
    if next.Some? {
      LockedKeepsInv(m, t, next.value);
    } else {
      MoveKeepsPlaces(m, m.(settling := m.settling - {t}), {});
    }
  }

  // ----- Promotion -----

  /** A blocked job has no ready row yet, so promoting it never meets one. */
  lemma PromotedKeepsInv(m: Machine, j: JobId, semaphores: Table)
    requires Inv(m) && j in m.db.blocked && j in m.db.jobs
    ensures j !in m.db.ready
    ensures Inv(m.(db := Promoted(m.db, semaphores, j), promoting := m.promoting - {j}))
  {
    assert Placed(m, j);
    MoveKeepsPlaces(m, m.(db := Promoted(m.db, semaphores, j), promoting := m.promoting - {j}), {j});
  }

  lemma NotPromotedKeepsInv(m: Machine, j: JobId)
    requires Inv(m)
    ensures Inv(m.(promoting := m.promoting - {j}))
  {
    MoveKeepsPlaces(m, m.(promoting := m.promoting - {j}), {});
  }

  lemma PromoteKeepsInv(lim: Limits, m: Machine, j: JobId, now: Time, seen: WaitPc)
    requires Inv(m) && j in m.promoting && seen != Acquired && j in m.db.blocked && j in m.db.jobs
    ensures Inv(DoPromote(lim, m, j, now, seen))
  {
    var r := Release(lim, m.db, j, now, seen);
    if r.ok {
      PromotedKeepsInv(m, j, r.db.semaphores);
      assert r.db == Promoted(m.db, r.db.semaphores, j);
    } else {
      NotPromotedKeepsInv(m, j);
    }
  }

  // ----- Dispatches from the scheduled and failed tables -----

  /** `after` is what a dispatch of job `j` leaves. */
  ghost predicate Dispatched(db: Db, after: Db, j: JobId, now: Time)
    requires j in db.jobs
  {
    || after == MakeReady(db.(semaphores := after.semaphores), j)
    || (db.jobs[j].key.Some? && after == MakeBlocked(db, j, now))
  }

  lemma DispatchDuePlaces(m: Machine, j: JobId, now: Time, after: Db)
    requires OnePlace(m) && j in m.db.scheduled && j in m.db.jobs
    requires Dispatched(m.db, after, j, now)
    ensures OnePlace(m.(db := after.(scheduled := after.scheduled - {j})))
  {
    assert Placed(m, j);
    MoveKeepsPlaces(m, m.(db := after.(scheduled := after.scheduled - {j})), {j});
  }

  lemma RetryPlaces(m: Machine, j: JobId, now: Time, after: Db)
    requires OnePlace(m) && j in m.db.failed && j in m.db.jobs
    requires Dispatched(m.db, after, j, now)
    ensures OnePlace(m.(db := after.(failed := after.failed - {j})))
  {
    assert Placed(m, j);
    MoveKeepsPlaces(m, m.(db := after.(failed := after.failed - {j})), {j});
  }

  lemma RetryScheduledPlaces(m: Machine, j: JobId)
    requires OnePlace(m) && j in m.db.failed && j in m.db.jobs && m.db.jobs[j].scheduledAt.Some?
    ensures OnePlace(m.(db := MakeScheduled(m.db, j).(failed := m.db.failed - {j})))
  {
    assert Placed(m, j);
    MoveKeepsPlaces(m, m.(db := MakeScheduled(m.db, j).(failed := m.db.failed - {j})), {j});
  }

  lemma DispatchedReadyRest(
      m: Machine, j: JobId, after: Db, scheduled: map<JobId, ScheduledRow>, failed: map<JobId, string>)
    requires Rest(m) && j in m.db.jobs && after == MakeReady(m.db.(semaphores := after.semaphores), j)
    ensures Rest(m.(db := after.(scheduled := scheduled, failed := failed)))
  {
    RestKept(m, m.(db := after.(scheduled := scheduled, failed := failed)));
  }

  lemma DispatchedBlockedRest(
      m: Machine, j: JobId, now: Time, after: Db, scheduled: map<JobId, ScheduledRow>, failed: map<JobId, string>)
    requires Rest(m) && j in m.db.jobs && j !in m.db.blocked
    requires m.db.jobs[j].key.Some? && after == MakeBlocked(m.db, j, now)
    ensures Rest(m.(db := after.(scheduled := scheduled, failed := failed)))
  {
    RestKeptBlocking(m, m.(db := after.(scheduled := scheduled, failed := failed)), j, after.blocked[j]);
  }

  lemma DispatchedRest(
      m: Machine, j: JobId, now: Time, after: Db, scheduled: map<JobId, ScheduledRow>, failed: map<JobId, string>)
    requires Rest(m) && j in m.db.jobs && j !in m.db.blocked && Dispatched(m.db, after, j, now)
    ensures Rest(m.(db := after.(scheduled := scheduled, failed := failed)))
  {
    if after == MakeReady(m.db.(semaphores := after.semaphores), j) {
      DispatchedReadyRest(m, j, after, scheduled, failed);
    } else {
      DispatchedBlockedRest(m, j, now, after, scheduled, failed);
    }
  }

  lemma DispatchDueKeepsInv(m: Machine, j: JobId, now: Time, after: Db)
    requires Inv(m) && j in m.db.scheduled && j in m.db.jobs && Dispatched(m.db, after, j, now)
    ensures Inv(m.(db := after.(scheduled := after.scheduled - {j})))
  {
    assert Placed(m, j);
    DispatchDuePlaces(m, j, now, after);
    DispatchedRest(m, j, now, after, after.scheduled - {j}, after.failed);
  }

  lemma RetryKeepsInv(m: Machine, j: JobId, now: Time, after: Db)
    requires Inv(m) && j in m.db.failed && j in m.db.jobs && Dispatched(m.db, after, j, now)
    ensures Inv(m.(db := after.(failed := after.failed - {j})))
  {
    assert Placed(m, j);
    RetryPlaces(m, j, now, after);
    DispatchedRest(m, j, now, after, after.scheduled, after.failed - {j});
  }

  lemma RetryLaterKeepsInv(m: Machine, j: JobId)
    requires Inv(m) && j in m.db.failed && j in m.db.jobs && m.db.jobs[j].scheduledAt.Some?
    ensures Inv(m.(db := MakeScheduled(m.db, j).(failed := m.db.failed - {j})))
  {
    RetryScheduledPlaces(m, j);
    RestKept(m, m.(db := MakeScheduled(m.db, j).(failed := m.db.failed - {j})));
  }

  lemma DispatchesKeepInv(lim: Limits, m: Machine, step: Step)
    requires Inv(m) && Enabled(lim, m, step) && RetryFits(lim, m, step)
    requires step.DispatchDue? || step.Retry? || step.BulkRetry?
    ensures Inv(Apply(lim, m, step))
  {
    var after := DispatchFrom(lim, m.db, step.j, step.now, step.seen);
    if step.DispatchDue? {
      DispatchDueKeepsInv(m, step.j, step.now, after);
    } else if step.BulkRetry? || IsDue(m.db.jobs[step.j], step.now) {
      RetryKeepsInv(m, step.j, step.now, after);
    } else {
      RetryLaterKeepsInv(m, step.j);
    }
  }

  // ----- Semaphores and processes -----

  lemma ExpireKeepsInv(m: Machine, key: Key)
    requires Inv(m)
    ensures Inv(DoExpire(m, key))
  {
    MoveKeepsPlaces(m, DoExpire(m, key), {});
  }

  lemma FindExpiredKeepsInv(m: Machine, key: Key)
    requires Inv(m)
    ensures Inv(DoFindExpired(m, key))
  {
    MoveKeepsPlaces(m, DoFindExpired(m, key), {});
  }

  lemma RegisterKeepsInv(m: Machine, p: ProcessId, process: Process)
    requires Inv(m) && p !in m.db.processes
    ensures Inv(DoRegister(m, p, process))
  {
    MoveKeepsPlaces(m, DoRegister(m, p, process), {});
  }

  lemma LeaveKeepsInv(m: Machine, p: ProcessId)
    requires Inv(m) && p in m.db.processes && p !in m.leaving
    requires forall t :: t in m.claiming ==> m.claiming[t].process != p
    ensures Inv(DoLeave(m, p))
  {
    MoveKeepsPlaces(m, DoLeave(m, p), {});
  }

  lemma DeleteProcessKeepsInv(m: Machine, p: ProcessId)
    requires Inv(m) && p in m.leaving && m.leaving[p] == {}
    ensures Inv(DoDeleteProcess(m, p))
  {
    MoveKeepsPlaces(m, DoDeleteProcess(m, p), {});
  }

  // ----- All steps -----

  lemma EnqueuerKeepsInv(lim: Limits, m: Machine, step: Step)
    requires Inv(m) && Enabled(lim, m, step)
    requires step.Insert? || step.PlaceScheduled? || step.PlaceUnlimited? || step.ReadSemaphore?
             || step.WaitOn? || step.PlaceReady? || step.PlaceBlocked?
    ensures Inv(Apply(lim, m, step))
  {
    match step
    case Insert(j, job) => InsertKeepsInv(m, j, job);
    case PlaceScheduled(j, now) => PlaceScheduledKeepsInv(m, j);
    case PlaceUnlimited(j, now) => PlaceReadyKeepsInv(m, j);
    case ReadSemaphore(j, now) => ReadSemaphoreKeepsInv(m, j);
    case WaitOn(j, now) => WaitOnKeepsInv(lim, m, j, now);
    case PlaceReady(j) => PlaceReadyKeepsInv(m, j);
    case PlaceBlocked(j, now) => PlaceBlockedKeepsInv(m, j, now);
  }

  lemma WorkerKeepsInv(lim: Limits, m: Machine, step: Step)
    requires Inv(m) && Enabled(lim, m, step)
    requires step.LockReady? || step.CommitClaim? || step.AbortClaim? || step.Finish? || step.Fail? || step.GiveBack?
    ensures Inv(Apply(lim, m, step))
  {
    match step
    case LockReady(t, p, rows) => LockReadyKeepsInv(m, t, p, rows);
    case CommitClaim(t) => CommitClaimKeepsInv(m, t);
    case AbortClaim(t) => AbortClaimKeepsInv(m, t);
    case Finish(t, j, now) => FinishKeepsInv(m, t, j, now);
    case Fail(t, j, error) => FailKeepsInv(m, t, j, error);
    case GiveBack(j) => GiveBackKeepsInv(m, j);
  }

  lemma SettlerKeepsInv(lim: Limits, m: Machine, step: Step)
    requires Inv(m) && Enabled(lim, m, step)
    requires step.SignalKey? || step.StartRelease? || step.LockBlocked? || step.Promote?
    ensures Inv(Apply(lim, m, step))
  {
    match step
    case SignalKey(t, now) => SignalKeyKeepsInv(lim, m, t, now);
    case StartRelease(t, key) => StartReleaseKeepsInv(m, t, key);
    case LockBlocked(t) => LockBlockedKeepsInv(m, t);
    case Promote(j, now, seen) => PromoteKeepsInv(lim, m, j, now, seen);
  }

  lemma SystemKeepsInv(lim: Limits, m: Machine, step: Step)
    requires Inv(m) && Enabled(lim, m, step)
    requires step.FindExpired? || step.Expire? || step.Register? || step.Leave? || step.DeleteProcess?
    ensures Inv(Apply(lim, m, step))
  {
    match step
    case FindExpired(key, now) => FindExpiredKeepsInv(m, key);
    case Expire(key) => ExpireKeepsInv(m, key);
    case Register(p, process) => RegisterKeepsInv(m, p, process);
    case Leave(p) => LeaveKeepsInv(m, p);
    case DeleteProcess(p) => DeleteProcessKeepsInv(m, p);
  }

  /** Every step keeps the invariant, but a bulk retry only if its job becomes ready. */
  lemma StepKeepsInv(lim: Limits, m: Machine, step: Step)
    requires Inv(m) && Enabled(lim, m, step) && RetryFits(lim, m, step)
    ensures Inv(Apply(lim, m, step))
  {
    if step.DispatchDue? || step.Retry? || step.BulkRetry? {
      DispatchesKeepInv(lim, m, step);
    } else if step.LockReady? || step.CommitClaim? || step.AbortClaim? || step.Finish? || step.Fail? || step.GiveBack? {
      WorkerKeepsInv(lim, m, step);
    } else if step.SignalKey? || step.StartRelease? || step.LockBlocked? || step.Promote? {
      SettlerKeepsInv(lim, m, step);
    } else if step.FindExpired? || step.Expire? || step.Register? || step.Leave? || step.DeleteProcess? {
      SystemKeepsInv(lim, m, step);
    } else {
      EnqueuerKeepsInv(lim, m, step);
    }
  }

  /** And a bulk retry whose job does not become ready breaks it: the job is blocked and
      still failed. */
  lemma StepKeepsInvExactly(lim: Limits, m: Machine, step: Step)
    requires Inv(m) && Enabled(lim, m, step)
    ensures Inv(Apply(lim, m, step)) <==> RetryFits(lim, m, step)
  {
    hide Inv, Apply, Enabled;
    if RetryFits(lim, m, step) {
      StepKeepsInv(lim, m, step);
    } else {
      UnfitRetryStrands(lim, m, step.j, step.now, step.seen);
    }
  }

  lemma UnfitRetryStrands(lim: Limits, m: Machine, j: JobId, now: Time, seen: WaitPc)
    requires Inv(m) && Enabled(lim, m, BulkRetry(j, now, seen)) && !RetryFits(lim, m, BulkRetry(j, now, seen))
    ensures !Inv(Apply(lim, m, BulkRetry(j, now, seen)))
  {
    hide DispatchFrom, KeysMatch, LocksHeld, Owned;
    assert Placed(m, j);
    var m' := Apply(lim, m, BulkRetry(j, now, seen));
    assert j in m'.db.blocked && j in m'.db.failed;
    assert !Placed(m', j);
  }
}
