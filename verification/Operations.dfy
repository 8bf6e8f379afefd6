/** Whole operations: a call of the queue's code that nobody interrupts is a run of the
    protocol's steps, so everything that runs keep, whole operations keep. */
module Operations {
  import opened Tables
  import opened Semaphores
  import opened Executables
  import opened BlockedExecutions
  import opened ClaimedExecutions
  import opened Dispatching
  import opened Protocol
  import opened Lifecycle
  import opened Runs
  import Processes

  /** No operation is under way. */
  ghost predicate Quiet(m: Machine) {
    m.enqueuing == map[] && m.settling == map[] && m.promoting == {} && m.claiming == map[] && m.leaving == map[]
  }

  ghost function Idle(db: Db): (m: Machine)
    ensures Quiet(m)
  {
    INITIAL.(db := db)
  }

  // ----- Enqueueing -----

  lemma PlaceRuns(lim: Limits, m: Machine, m1: Machine, j: JobId, pc: EnqueuePc, step: Step, db: Db, now: Time)
    requires Reaches(lim, AtOnce(now), m, m1) && Quiet(m) && m1 == m.(db := m1.db, enqueuing := map[j := pc])
    requires Enabled(lim, m1, step) && Allowed(lim, AtOnce(now), m1, step) && Apply(lim, m1, step) == DoPlace(m1, j, db)
    ensures Reaches(lim, AtOnce(now), m, m.(db := db))
  {
    Then(lim, AtOnce(now), m, m1, step);
    assert m1.enqueuing - {j} == map[];
    assert DoPlace(m1, j, db) == m.(db := db);
  }

  lemma RefusedRuns(lim: Limits, m: Machine, m2: Machine, j: JobId, now: Time)
    requires Reaches(lim, AtOnce(now), m, m2) && Quiet(m)
    requires j in m2.db.jobs && m2.db.jobs[j].key.Some? && Seen(m2.db, j).Refused?
    requires m2 == m.(db := m2.db, enqueuing := map[j := Waiting(Refused)])
    ensures Reaches(lim, AtOnce(now), m, m.(db := Dispatch(lim, m2.db, j, now)))
  {
    PlaceRuns(lim, m, m2, j, Waiting(Refused), PlaceBlocked(j, now), MakeBlocked(m2.db, j, now), now);
  }

  lemma AcquiredRuns(lim: Limits, m: Machine, m3: Machine, j: JobId, now: Time)
    requires Reaches(lim, AtOnce(now), m, m3) && Quiet(m) && j in m3.db.jobs
    requires m3 == m.(db := m3.db, enqueuing := map[j := Waiting(Acquired)])
    ensures Reaches(lim, AtOnce(now), m, m.(db := MakeReady(m3.db, j)))
  {
    PlaceRuns(lim, m, m3, j, Waiting(Acquired), Step.PlaceReady(j), MakeReady(m3.db, j), now);
  }

  /** One statement after the read decides, when nobody comes in between. */
  lemma OneStatementDecides(lim: Limits, m: Machine, j: JobId, now: Time)
    requires j in m.db.jobs && m.db.jobs[j].key.Some? && !Seen(m.db, j).Refused?
    requires j in m.enqueuing && m.enqueuing[j] == Waiting(Seen(m.db, j))
    ensures var m' := DoWaitOn(lim, m, j, now);
            m'.enqueuing[j] == Waiting(Acquired) && MakeReady(m'.db, j) == Dispatch(lim, m.db, j, now)
  {
  }

  lemma WaitRuns(lim: Limits, m: Machine, m2: Machine, j: JobId, now: Time)
    requires Reaches(lim, AtOnce(now), m, m2) && Quiet(m)
    requires j in m2.db.jobs && m2.db.jobs[j].key.Some? && !Seen(m2.db, j).Refused?
    requires m2 == m.(db := m2.db, enqueuing := map[j := Waiting(Seen(m2.db, j))])
    ensures Reaches(lim, AtOnce(now), m, m.(db := Dispatch(lim, m2.db, j, now)))
  {
    hide Reaches, Dispatch;
    var m3 := DoWaitOn(lim, m2, j, now);
    Then(lim, AtOnce(now), m, m2, WaitOn(j, now));
    OneStatementDecides(lim, m2, j, now);
    assert m3 == m.(db := m3.db, enqueuing := map[j := Waiting(Acquired)]);
    AcquiredRuns(lim, m, m3, j, now);
  }

  lemma LimitedRuns(lim: Limits, m: Machine, m1: Machine, j: JobId, now: Time)
    requires Reaches(lim, AtOnce(now), m, m1) && Quiet(m)
    requires j in m1.db.jobs && m1.db.jobs[j].key.Some? && IsDue(m1.db.jobs[j], now)
    requires m1 == m.(db := m1.db, enqueuing := map[j := Unplaced])
    ensures Reaches(lim, AtOnce(now), m, m.(db := Dispatch(lim, m1.db, j, now)))
  {
    var m2 := DoReadSemaphore(m1, j);
    Then(lim, AtOnce(now), m, m1, ReadSemaphore(j, now));
    assert m2.enqueuing == map[j := Waiting(Seen(m1.db, j))];
    if Seen(m2.db, j).Refused? {
      RefusedRuns(lim, m, m2, j, now);
    } else {
      WaitRuns(lim, m, m2, j, now);
    }
  }

  /** Saving a new job. */
  lemma EnqueueRuns(lim: Limits, m: Machine, j: JobId, job: Job, now: Time)
    requires Quiet(m) && j !in m.db.jobs && job.finishedAt.None?
    ensures Reaches(lim, AtOnce(now), m, m.(db := Enqueue(lim, m.db, j, job, now)))
    ensures Reaches(lim, NoExpiry, m, m.(db := Enqueue(lim, m.db, j, job, now)))
  {
    var m1 := DoInsert(m, j, job);
    OneStep(lim, AtOnce(now), m, Insert(j, job));
    assert m1 == m.(db := m1.db, enqueuing := map[j := Unplaced]);
    if !IsDue(job, now) {
      PlaceRuns(lim, m, m1, j, Unplaced, PlaceScheduled(j, now), MakeScheduled(m1.db, j), now);
    } else if job.key.None? {
      PlaceRuns(lim, m, m1, j, Unplaced, PlaceUnlimited(j, now), MakeReady(m1.db, j), now);
    } else {
      LimitedRuns(lim, m, m1, j, now);
    }
    ReachesByWeaker(lim, AtOnce(now), NoExpiry, m, m.(db := Enqueue(lim, m.db, j, job, now)));
  }

  // ----- Claiming -----

  lemma ClaimRuns(lim: Limits, m: Machine, p: ProcessId, rows: set<JobId>)
    requires Quiet(m) && IsWorker(m.db.processes, p) && rows <= m.db.ready.Keys
    ensures Reaches(lim, NoExpiry, m, m.(db := ClaimRows(m.db, rows, p)))
  {
    OneStep(lim, NoExpiry, m, LockReady(0, p, rows));
    var m1 := DoLockReady(m, 0, p, rows);
    assert m1.claiming == map[0 := Claim(p, rows)];
    Then(lim, NoExpiry, m, m1, CommitClaim(0));
    assert DoCommitClaim(m1, 0).claiming == map[];
    assert DoCommitClaim(m1, 0) == m.(db := ClaimRows(m.db, rows, p));
  }

  /** A claim that fails before it commits leaves everything as it was. */
  lemma AbortRuns(lim: Limits, m: Machine, t: ThreadId, p: ProcessId, rows: set<JobId>)
    requires Enabled(lim, m, LockReady(t, p, rows))
    ensures IsRun(lim, NoExpiry, m, [LockReady(t, p, rows), AbortClaim(t)], m)
  {
    hide ClaimRows, DispatchFrom;
    var m1 := DoLockReady(m, t, p, rows);
    assert DoAbortClaim(m1, t) == m by {
      assert m1.claiming - {t} == m.claiming;
    }
    assert IsRun(lim, NoExpiry, m, [], m) && IsRun(lim, NoExpiry, m1, [AbortClaim(t)], m);
    assert [LockReady(t, p, rows), AbortClaim(t)][1..] == [AbortClaim(t)];
  }

  // ----- The end of a job -----

  lemma PromotionRuns(lim: Limits, m: Machine, m2: Machine, j: JobId, now: Time)
    requires Reaches(lim, AtOnce(now), m, m2) && Quiet(m)
    requires j in m2.db.jobs && j in m2.db.blocked && m2 == m.(db := m2.db, promoting := {j})
    ensures Reaches(lim, AtOnce(now), m, m.(db := Release(lim, m2.db, j, now, Seen(m2.db, j)).db))
  {
    Then(lim, AtOnce(now), m, m2, Promote(j, now, Seen(m2.db, j)));
    assert m2.promoting - {j} == {};
    assert DoPromote(lim, m2, j, now, Seen(m2.db, j)) == m.(db := Release(lim, m2.db, j, now, Seen(m2.db, j)).db);
  }

  lemma ReleaseOneRuns(lim: Limits, m: Machine, m1: Machine, key: Key, now: Time)
    requires Reaches(lim, AtOnce(now), m, m1) && Quiet(m) && m1.db.blocked.Keys <= m1.db.jobs.Keys
    requires m1 == m.(db := m1.db, settling := map[0 := Releasing(key)])
    ensures Reaches(lim, AtOnce(now), m, m.(db := ReleaseOne(lim, m1.db, key, now).db))
  {
    Then(lim, AtOnce(now), m, m1, LockBlocked(0));
    var m2 := DoLockBlocked(m1, 0);
    assert m1.settling - {0} == map[];
    var next := Next(m1.db.blocked, key, {});
    if next.Some? {
      assert m2 == m.(db := m1.db, promoting := {next.value});
      PromotionRuns(lim, m, m2, next.value, now);
    } else {
      assert m2 == m.(db := m1.db);
    }
  }

  lemma SignalRuns(lim: Limits, m: Machine, m1: Machine, key: Key, duration: nat, now: Time)
    requires Reaches(lim, AtOnce(now), m, m1) && Quiet(m) && m1.db.blocked.Keys <= m1.db.jobs.Keys
    requires m1 == m.(db := m1.db, settling := map[0 := Owes(key, duration)])
    ensures var r := Signal(Limit(lim, key), m1.db.semaphores, key, now + duration);
            var m2 := m.(db := m1.db.(semaphores := r.semaphores));
            Reaches(lim, AtOnce(now), m, if r.ok then m2.(settling := map[0 := Releasing(key)]) else m2)
  {
    Then(lim, AtOnce(now), m, m1, SignalKey(0, now));
    var m2 := DoSignalKey(lim, m1, 0, now);
    assert m1.settling - {0} == map[];
    assert map[0 := Owes(key, duration)][0 := Releasing(key)] == map[0 := Releasing(key)];
  }

  /** `unblock_next_blocked_job` after the claimed row is gone. */
  lemma UnblockRuns(lim: Limits, m: Machine, m1: Machine, j: JobId, now: Time)
    requires Reaches(lim, AtOnce(now), m, m1) && Quiet(m) && m1.db.blocked.Keys <= m1.db.jobs.Keys && j in m1.db.jobs
    requires m1 == m.(db := m1.db, settling := Owing(map[], 0, m1.db.jobs[j]))
    ensures Reaches(lim, AtOnce(now), m, m.(db := UnblockNext(lim, m1.db, j, now)))
  {
    hide Reaches, Signal, ReleaseOne;
    var job := m1.db.jobs[j];
    if job.key.Some? {
      var key := job.key.value;
      SignalRuns(lim, m, m1, key, job.duration, now);
      var r := Signal(Limit(lim, key), m1.db.semaphores, key, now + job.duration);
      if r.ok {
        var m2 := m.(db := m1.db.(semaphores := r.semaphores), settling := map[0 := Releasing(key)]);
        ReleaseOneRuns(lim, m, m2, key, now);
      }
    } else {
      assert m1 == m.(db := m1.db);
    }
  }

  lemma FinishRuns(lim: Limits, m: Machine, j: JobId, now: Time)
    requires Inv(m) && Quiet(m) && j in m.db.claimed && j in m.db.jobs && m.db.blocked.Keys <= m.db.jobs.Keys
    ensures Reaches(lim, AtOnce(now), m, m.(db := FinishAndUnblock(lim, m.db, j, now)))
    ensures Reaches(lim, NoExpiry, m, m.(db := FinishAndUnblock(lim, m.db, j, now)))
  {
    OneStep(lim, AtOnce(now), m, Finish(0, j, now));
    UnblockRuns(lim, m, DoFinish(m, 0, j, now), j, now);
    ReachesByWeaker(lim, AtOnce(now), NoExpiry, m, m.(db := FinishAndUnblock(lim, m.db, j, now)));
  }

  lemma FailRuns(lim: Limits, m: Machine, j: JobId, error: string, now: Time)
    requires Quiet(m) && j in m.db.claimed && j in m.db.jobs && m.db.blocked.Keys <= m.db.jobs.Keys
    ensures Reaches(lim, AtOnce(now), m, m.(db := FailAndUnblock(lim, m.db, j, error, now)))
    ensures Reaches(lim, NoExpiry, m, m.(db := FailAndUnblock(lim, m.db, j, error, now)))
  {
    OneStep(lim, AtOnce(now), m, Fail(0, j, error));
    UnblockRuns(lim, m, DoFail(m, 0, j, error), j, now);
    ReachesByWeaker(lim, AtOnce(now), NoExpiry, m, m.(db := FailAndUnblock(lim, m.db, j, error, now)));
  }

  /** `release_one` called by the dispatcher's maintenance. */
  lemma MaintenanceRuns(lim: Limits, m: Machine, key: Key, now: Time)
    requires Quiet(m) && m.db.blocked.Keys <= m.db.jobs.Keys
    ensures Reaches(lim, AtOnce(now), m, m.(db := ReleaseOne(lim, m.db, key, now).db))
    ensures Reaches(lim, NoExpiry, m, m.(db := ReleaseOne(lim, m.db, key, now).db))
  {
    OneStep(lim, AtOnce(now), m, StartRelease(0, key));
    var m1 := DoStartRelease(m, 0, key);
    assert m1.settling == map[0 := Releasing(key)];
    ReleaseOneRuns(lim, m, m1, key, now);
    ReachesByWeaker(lim, AtOnce(now), NoExpiry, m, m.(db := ReleaseOne(lim, m.db, key, now).db));
  }

  // ----- Dispatches -----

  lemma DispatchRuns(lim: Limits, m: Machine, j: JobId, now: Time, seen: WaitPc)
    requires j in m.db.scheduled && m.db.scheduled[j].scheduledAt <= now && j in m.db.jobs && seen != Acquired
    ensures Reaches(lim, NoExpiry, m, m.(db := DispatchScheduled(lim, m.db, j, now, seen)))
  {
    OneStep(lim, NoExpiry, m, DispatchDue(j, now, seen));
  }

  lemma RetryRuns(lim: Limits, m: Machine, j: JobId, now: Time, seen: WaitPc)
    requires j in m.db.failed && j in m.db.jobs && seen != Acquired
    ensures Reaches(lim, NoExpiry, m, m.(db := RetryFailed(lim, m.db, j, now, seen)))
  {
    OneStep(lim, NoExpiry, m, Retry(j, now, seen));
  }

  lemma BulkRetryRuns(lim: Limits, m: Machine, j: JobId, now: Time, seen: WaitPc)
    requires j in m.db.failed && j in m.db.jobs && seen != Acquired && j in DispatchFrom(lim, m.db, j, now, seen).ready
    ensures Reaches(lim, NoExpiry, m, m.(db := RetryInBulk(lim, m.db, j, now, seen)))
  {
    OneStep(lim, NoExpiry, m, BulkRetry(j, now, seen));
  }

  // ----- Processes -----

  lemma RegisterRuns(lim: Limits, m: Machine, p: ProcessId, process: Process)
    requires p !in m.db.processes
    ensures Reaches(lim, NoExpiry, m, m.(db := m.db.(processes := m.db.processes[p := process])))
  {
    OneStep(lim, NoExpiry, m, Register(p, process));
  }

  ghost predicate Leaving(m: Machine, p: ProcessId, rows: set<JobId>) {
    && m.leaving == map[p := rows]
    && (forall j :: j in rows ==> j in m.db.jobs && j in m.db.claimed && m.db.claimed[j] == Some(p))
  }

  lemma GiveBackOne(lim: Limits, m: Machine, p: ProcessId, rows: set<JobId>, j: JobId)
    requires Leaving(m, p, rows) && j in rows
    ensures Enabled(lim, m, GiveBack(j)) && Leaving(DoGiveBack(m, j), p, rows - {j})
    ensures DoGiveBack(m, j) == m.(db := ReleaseClaim(m.db, j), leaving := map[p := rows - {j}])
  {
    assert Settled(m.leaving, m.db.claimed, j) == map[p := rows - {j}];
  }

  /** Nor does it have to be given back once somebody else has failed it. */
  lemma FailedInstead(lim: Limits, m: Machine, p: ProcessId, rows: set<JobId>, j: JobId, t: ThreadId, error: string)
    requires Leaving(m, p, rows) && j in rows && t !in m.settling && j !in m.db.failed
    ensures Enabled(lim, m, Fail(t, j, error)) && Leaving(DoFail(m, t, j, error), p, rows - {j})
  {
    assert Settled(m.leaving, m.db.claimed, j) == map[p := rows - {j}];
  }

  ghost function GaveBack(m: Machine, p: ProcessId, rows: set<JobId>): Machine {
    m.(db := ReleaseRows(m.db, rows), leaving := map[p := {}])
  }

  lemma GiveBackFirst(lim: Limits, m: Machine, p: ProcessId, rows: set<JobId>, j: JobId)
    requires Leaving(m, p, rows) && j in rows
    ensures Reaches(lim, NoExpiry, m, DoGiveBack(m, j)) && Leaving(DoGiveBack(m, j), p, rows - {j})
    ensures GaveBack(DoGiveBack(m, j), p, rows - {j}) == GaveBack(m, p, rows)
  {
    GiveBackOne(lim, m, p, rows, j);
    OneStep(lim, NoExpiry, m, GiveBack(j));
    ReleaseRowsOneMore(m.db, rows, j);
  }

  lemma {:induction false} GiveBackAllRuns(lim: Limits, m: Machine, p: ProcessId, rows: set<JobId>)
    requires Leaving(m, p, rows)
    ensures Reaches(lim, NoExpiry, m, GaveBack(m, p, rows))
    decreases |rows|
  {
    if rows == {} {
      ReachesItself(lim, NoExpiry, m);
      ReleaseNoRows(m.db);
    } else {
      var j :| j in rows;
      GiveBackFirst(lim, m, p, rows, j);
      GiveBackAllRuns(lim, DoGiveBack(m, j), p, rows - {j});
      ReachesTransitive(lim, NoExpiry, m, DoGiveBack(m, j), GaveBack(m, p, rows));
    }
  }

  lemma WorkersOnlyClaim(m: Machine, p: ProcessId)
    requires Inv(m) && p in m.db.processes
    ensures Processes.DeleteProcess(m.db, p)
            == Processes.WithoutProcess(ReleaseRows(m.db, ClaimedBy(m.db.claimed, p)), p)
  {
    if m.db.processes[p].kind != Worker {
      assert ClaimedBy(m.db.claimed, p) == {};
      ReleaseNoRows(m.db);
    }
  }

  /** `Process.delete` of one process. */
  lemma DeleteProcessRuns(lim: Limits, m: Machine, p: ProcessId)
    requires Inv(m) && Quiet(m) && p in m.db.processes && m.db.claimed.Keys <= m.db.jobs.Keys
    ensures Reaches(lim, NoExpiry, m, m.(db := Processes.DeleteProcess(m.db, p)))
  {
    var rows := ClaimedBy(m.db.claimed, p);
    var m1 := DoLeave(m, p);
    OneStep(lim, NoExpiry, m, Leave(p));
    assert m1.leaving == map[p := rows];
    GiveBackAllRuns(lim, m1, p, rows);
    var m2 := GaveBack(m1, p, rows);
    ReachesTransitive(lim, NoExpiry, m, m1, m2);
    LastDelete(lim, m, m2, p);
    WorkersOnlyClaim(m, p);
  }

  lemma LastDelete(lim: Limits, m: Machine, m2: Machine, p: ProcessId)
    requires Quiet(m) && Reaches(lim, NoExpiry, m, m2) && m2 == m.(db := m2.db, leaving := map[p := {}])
    ensures Reaches(lim, NoExpiry, m, m.(db := Processes.WithoutProcess(m2.db, p)))
  {
    Then(lim, NoExpiry, m, m2, Step.DeleteProcess(p));
    assert m2.leaving - {p} == map[];
    assert DoDeleteProcess(m2, p) == m.(db := Processes.WithoutProcess(m2.db, p));
  }

  // ----- What whole operations keep -----

  /** Idle tables in which every job is in one place and every token is accounted for. */
  ghost predicate Sane(lim: Limits, db: Db) {
    Inv(Idle(db)) && forall key :: Conserved(lim, Idle(db), key)
  }

  /** Every run without expiry, from idle to idle, keeps the tables sane. */
  lemma RunKeepsSane(lim: Limits, db: Db, db': Db)
    requires Sane(lim, db) && Reaches(lim, NoExpiry, Idle(db), Idle(db'))
    ensures Sane(lim, db')
  {
    var steps :| IsRun(lim, NoExpiry, Idle(db), steps, Idle(db'));
    RunKeepsInv(lim, NoExpiry, Idle(db), steps, Idle(db'));
    forall key ensures Conserved(lim, Idle(db'), key) {
      RunByWeaker(lim, NoExpiry, ExpiresFrom(key, Limit(lim, key)), Idle(db), steps, Idle(db'));
      RunConserves(lim, Idle(db), steps, Idle(db'), key);
    }
  }

  lemma EmptyIsSane(lim: Limits)
    ensures Sane(lim, EMPTY)
  {
    assert Idle(EMPTY) == INITIAL;
    forall key ensures Conserved(lim, INITIAL, key) {
      InitialTokens(lim, key);
    }
  }
}
