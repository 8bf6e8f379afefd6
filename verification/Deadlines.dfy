/** The duration of a concurrency control: how long the limit is guaranteed.

    A semaphore may be deleted once its expiry date has passed, and every token taken or
    returned moves that date on. So a run needs a clock here, and for one key the times at
    which the tokens in use were taken. */
module Deadlines {
  import opened Tables
  import opened Semaphores
  import opened Executables
  import opened BlockedExecutions
  import opened ClaimedExecutions
  import opened Dispatching
  import opened Protocol
  import opened Lifecycle
  import opened Tokens
  import opened Runs

  /** A step and what the clock shows then. */
  datatype At = At(clock: Time, step: Step)

  /** A machine, its clock, and when the tokens of one key that jobs hold or threads owe
      were taken. */
  datatype Timed = Timed(m: Machine, clock: Time, held: map<JobId, Time>, owed: map<ThreadId, Time>)

  /** A step at a time not before the last one, reading that time; new jobs of the key have
      at least the duration `least`. */
  ghost predicate Goes(lim: Limits, c: Timed, at: At, key: Key, least: nat) {
    && Enabled(lim, c.m, at.step) && RetryFits(lim, c.m, at.step)
    && c.clock <= at.clock && (Now(at.step).Some? ==> Now(at.step).value == at.clock)
    && (at.step.Insert? && at.step.job.key == Some(key) ==> at.step.job.duration >= least)
  }

  ghost predicate Deletes(step: Step, key: Key) {
    step.Expire? && step.key == key
  }

  /** No token of the key has been out for its duration. */
  ghost predicate InTime(c: Timed, clock: Time, least: nat) {
    && (forall j :: j in c.held ==> clock < c.held[j] + least)
    && (forall t :: t in c.owed ==> clock < c.owed[t] + least)
  }

  /** The row is still expired and no token of it has been out for its duration; or, since it
      was found expired, it was renewed, but no token of it is out at all. */
  ghost predicate MayDelete(c: Timed, clock: Time, key: Key, least: nat)
    requires key in c.m.db.semaphores
  {
    if c.m.db.semaphores[key].expiresAt <= clock then InTime(c, clock, least)
    else c.held == map[] && c.owed == map[]
  }

  ghost function HeldSince(c: Timed, at: At, j: JobId): Time {
    if j in c.held then c.held[j] else at.clock
  }

  /** A thread that ended a job owes the token that the job took. */
  ghost function OwedSince(c: Timed, at: At, t: ThreadId): Time {
    if t in c.owed then c.owed[t]
    else if (at.step.Finish? || at.step.Fail?) && at.step.j in c.held then c.held[at.step.j]
    else at.clock
  }

  ghost function Tick(lim: Limits, c: Timed, at: At, key: Key): Timed
    requires Enabled(lim, c.m, at.step)
  {
    var m' := Apply(lim, c.m, at.step);
    Timed(m', at.clock,
          map j | j in Holders(m', key) :: HeldSince(c, at, j),
          map t | t in Debts(m', key) :: OwedSince(c, at, t))
  }

  /** A run in which the key's semaphore is deleted only when it may be. */
  ghost predicate IsPunctual(lim: Limits, c: Timed, ats: seq<At>, c': Timed, key: Key, least: nat)
    decreases |ats|
  {
    if ats == [] then c' == c
    else
      && Goes(lim, c, ats[0], key, least) && (Deletes(ats[0].step, key) ==> MayDelete(c, ats[0].clock, key, least))
      && IsPunctual(lim, Tick(lim, c, ats[0], key), ats[1..], c', key, least)
  }

  // ----- Expiry dates cover the tokens in use -----

  ghost predicate Covered(c: Timed, taken: Time, key: Key, least: nat) {
    taken <= c.clock && (key in c.m.db.semaphores ==> taken + least <= c.m.db.semaphores[key].expiresAt)
  }

  ghost predicate AllCovered(c: Timed, key: Key, least: nat) {
    && c.held.Keys == Holders(c.m, key) && c.owed.Keys == Debts(c.m, key)
    && (forall j :: j in c.held ==> Covered(c, c.held[j], key, least))
    && (forall t :: t in c.owed ==> Covered(c, c.owed[t], key, least))
  }

  ghost predicate LongEnough(m: Machine, key: Key, least: nat) {
    && (forall j :: j in m.db.jobs && m.db.jobs[j].key == Some(key) ==> m.db.jobs[j].duration >= least)
    && (forall t :: IsDebt(m, t, key) ==> m.settling[t].duration >= least)
  }

  ghost predicate RowKept(before: Table, after: Table, key: Key) {
    key in after ==> key in before && after[key] == before[key]
  }

  ghost predicate RowRenewed(after: Table, key: Key, until: Time) {
    key in after && after[key].expiresAt >= until
  }

  /** Who gets a token renews the key's row. */
  ghost predicate Renews(m: Machine, m': Machine, key: Key, until: Time) {
    || (RowKept(m.db.semaphores, m'.db.semaphores, key) && Holders(m', key) <= Holders(m, key))
    || RowRenewed(m'.db.semaphores, key, until)
  }

  /** Who comes to owe a token has ended the job that held it. */
  ghost predicate Passes(m: Machine, m': Machine, step: Step, key: Key) {
    forall t :: t in Debts(m', key) && t !in Debts(m, key) ==> (step.Finish? || step.Fail?) && step.j in Holders(m, key)
  }

  lemma StaysCovered(lim: Limits, c: Timed, at: At, key: Key, least: nat)
    requires AllCovered(c, key, least) && Goes(lim, c, at, key, least)
    requires var m' := Apply(lim, c.m, at.step);
             Renews(c.m, m', key, at.clock + least) && Passes(c.m, m', at.step, key)
    ensures AllCovered(Tick(lim, c, at, key), key, least)
  {
    hide Holders, Debts, Apply, Enabled, RetryFits;
    var c' := Tick(lim, c, at, key);
    forall j | j in c'.held ensures Covered(c', c'.held[j], key, least) {
      assert j in c.held ==> Covered(c, c.held[j], key, least);
    }
    forall t | t in c'.owed ensures Covered(c', c'.owed[t], key, least) {
      assert t in c.owed ==> Covered(c, c.owed[t], key, least);
    }
  }

  // ----- Steps that renew the row or give nobody a token -----

  /** The step writes no semaphore but may delete one, and nobody gets a token. */
  ghost predicate NobodyGains(m: Machine, m': Machine, key: Key) {
    RowKept(m.db.semaphores, m'.db.semaphores, key) && forall j :: Holds(m', j, key) ==> Holds(m, j, key)
  }

  lemma NobodyGainsRenews(m: Machine, m': Machine, key: Key, until: Time)
    requires NobodyGains(m, m', key)
    ensures Renews(m, m', key, until)
  {
  }

  lemma EnqueuerGainsNothing(lim: Limits, m: Machine, step: Step, key: Key)
    requires Inv(m) && Enabled(lim, m, step)
    requires step.Insert? || step.PlaceScheduled? || step.PlaceUnlimited? || step.ReadSemaphore?
             || step.PlaceReady? || step.PlaceBlocked?
    ensures NobodyGains(m, Apply(lim, m, step), key)
  {
    assert Placed(m, step.j);
  }

  lemma ClaimGainsNothing(lim: Limits, m: Machine, t: ThreadId, key: Key)
    requires Inv(m) && Enabled(lim, m, CommitClaim(t))
    ensures NobodyGains(m, DoCommitClaim(m, t), key)
  {
  }

  lemma WorkerGainsNothing(lim: Limits, m: Machine, step: Step, key: Key)
    requires Inv(m) && Enabled(lim, m, step)
    requires step.LockReady? || step.CommitClaim? || step.AbortClaim? || step.Finish? || step.Fail? || step.GiveBack?
    ensures NobodyGains(m, Apply(lim, m, step), key)
  {
    if step.CommitClaim? {
      hide NobodyGains;
      ClaimGainsNothing(lim, m, step.t, key);
    }
  }

  ghost predicate KeepsRows(m: Machine, m': Machine, key: Key) {
    && m'.db.jobs == m.db.jobs && m'.db.ready == m.db.ready && m'.db.claimed.Keys == m.db.claimed.Keys
    && m'.enqueuing == m.enqueuing && RowKept(m.db.semaphores, m'.db.semaphores, key)
  }

  lemma LockKeepsRows(m: Machine, t: ThreadId, key: Key)
    requires t in m.settling && m.settling[t].Releasing? && m.db.blocked.Keys <= m.db.jobs.Keys
    ensures KeepsRows(m, DoLockBlocked(m, t), key)
  {
  }

  lemma DeleteKeepsRows(m: Machine, p: ProcessId, key: Key)
    ensures KeepsRows(m, DoDeleteProcess(m, p), key)
  {
  }

  lemma SystemKeepsRows(lim: Limits, m: Machine, step: Step, key: Key)
    requires Enabled(lim, m, step)
    requires step.StartRelease? || step.LockBlocked? || step.FindExpired? || step.Expire?
             || step.Register? || step.Leave? || step.DeleteProcess?
    ensures KeepsRows(m, Apply(lim, m, step), key)
  {
    if step.DeleteProcess? {
      hide KeepsRows, Enabled;
      DeleteKeepsRows(m, step.p, key);
    } else if step.LockBlocked? {
      hide KeepsRows;
      LockKeepsRows(m, step.t, key);
    } else if step.Expire? {
      hide KeepsRows;
      ExpireKeepsRows(m, step.key, key);
    } else {
      hide Apply, Enabled;
      LeavesRows(lim, m, step);
    }
  }

  lemma ExpireKeepsRows(m: Machine, expired: Key, key: Key)
    ensures KeepsRows(m, DoExpire(m, expired), key)
  {
  }

  lemma LeavesRows(lim: Limits, m: Machine, step: Step)
    requires Enabled(lim, m, step)
    requires step.StartRelease? || step.FindExpired? || step.Register? || step.Leave?
    ensures var m' := Apply(lim, m, step);
            m'.db == m.db.(processes := m'.db.processes) && m'.enqueuing == m.enqueuing
  {
  }

  lemma SystemGainsNothing(lim: Limits, m: Machine, step: Step, key: Key)
    requires Enabled(lim, m, step)
    requires step.StartRelease? || step.LockBlocked? || step.FindExpired? || step.Expire?
             || step.Register? || step.Leave? || step.DeleteProcess?
    ensures NobodyGains(m, Apply(lim, m, step), key)
  {
    hide Holds, Apply, Enabled;
    SystemKeepsRows(lim, m, step, key);
    SameRowsSameHolders(m, Apply(lim, m, step), key);
  }

  lemma SameRowsSameHolders(m: Machine, m': Machine, key: Key)
    requires m'.db.jobs == m.db.jobs && m'.db.ready == m.db.ready && m'.db.claimed.Keys == m.db.claimed.Keys
    requires m'.enqueuing == m.enqueuing
    ensures forall j :: Holds(m', j, key) ==> Holds(m, j, key)
  {
  }

  lemma SignalRenews(lim: Limits, m: Machine, t: ThreadId, now: Time, key: Key, least: nat)
    requires Enabled(lim, m, SignalKey(t, now)) && LongEnough(m, key, least)
    ensures Renews(m, DoSignalKey(lim, m, t, now), key, now + least)
  {
    var m' := DoSignalKey(lim, m, t, now);
    assert Holders(m', key) == Holders(m, key);
    if m.settling[t].key == key {
      assert IsDebt(m, t, key);
    }
  }

  /** What taking a token does to the row of `key`: the job's own row is renewed. */
  ghost predicate TakerRenews(job: Job, before: Table, after: Table, now: Time, key: Key) {
    if job.key == Some(key) then after == before || RowRenewed(after, key, now + job.duration)
    else RowKept(before, after, key)
  }

  lemma LockRenews(lim: Limits, db: Db, j: JobId, now: Time, seen: WaitPc, key: Key)
    requires j in db.jobs && seen != Acquired
    ensures TakerRenews(db.jobs[j], db.semaphores, AcquireLock(lim, db, j, now, seen).db.semaphores, now, key)
    ensures var r := AcquireLock(lim, db, j, now, seen);
            r.ok && db.jobs[j].key == Some(key) ==> RowRenewed(r.db.semaphores, key, now + db.jobs[j].duration)
  {
  }

  /** At most job `j` gets a token, and only with the key's row renewed. */
  lemma OneTakerRenews(m: Machine, m': Machine, j: JobId, key: Key, until: Time)
    requires forall i :: i != j && Holds(m', i, key) ==> Holds(m, i, key)
    requires RowKept(m.db.semaphores, m'.db.semaphores, key) || RowRenewed(m'.db.semaphores, key, until)
    requires Holds(m', j, key) ==> Holds(m, j, key) || RowRenewed(m'.db.semaphores, key, until)
    ensures Renews(m, m', key, until)
  {
  }

  /** One statement of `wait` writes the row only when it takes a token. */
  lemma StatementRenews(limit: nat, semaphores: Table, k: Key, until: Time, pc: WaitPc, key: Key)
    requires 1 <= limit && pc != Acquired
    ensures var r := WaitStatement(limit, semaphores, k, until, pc);
            && (k != key ==> RowKept(semaphores, r.semaphores, key))
            && (k == key ==>
                  if r.pc.Acquired? then RowRenewed(r.semaphores, key, until) else r.semaphores == semaphores)
  {
  }

  lemma WaitRenews(lim: Limits, m: Machine, j: JobId, now: Time, key: Key, least: nat)
    requires Inv(m) && Enabled(lim, m, WaitOn(j, now)) && LongEnough(m, key, least)
    ensures Renews(m, DoWaitOn(lim, m, j, now), key, now + least)
  {
    hide WaitStatement, Inv, Renews;
    var job := m.db.jobs[j];
    var k, until := job.key.value, now + job.duration;
    StatementRenews(Limit(lim, k), m.db.semaphores, k, until, m.enqueuing[j].pc, key);
    OneTakerRenews(m, DoWaitOn(lim, m, j, now), j, key, now + least);
  }

  /** What a promotion or a dispatch of `j` does to the tables. */
  ghost predicate TakesForJob(db: Db, after: Db, j: JobId, key: Key, now: Time)
    requires j in db.jobs
  {
    && after.jobs == db.jobs && after.claimed == db.claimed
    && (forall i :: i in after.ready ==> i in db.ready || i == j)
    && TakerRenews(db.jobs[j], db.semaphores, after.semaphores, now, key)
    && (j in after.ready && j !in db.ready && db.jobs[j].key == Some(key) ==>
          RowRenewed(after.semaphores, key, now + db.jobs[j].duration))
  }

  lemma TakingRenews(m: Machine, m': Machine, j: JobId, now: Time, key: Key, least: nat)
    requires j in m.db.jobs && LongEnough(m, key, least) && TakesForJob(m.db, m'.db, j, key, now)
    requires m'.enqueuing == m.enqueuing
    ensures Renews(m, m', key, now + least)
  {
    OneTakerRenews(m, m', j, key, now + least);
  }

  lemma PromoteTakes(lim: Limits, db: Db, j: JobId, now: Time, seen: WaitPc, key: Key)
    requires j in db.jobs && j in db.blocked && seen != Acquired
    ensures TakesForJob(db, Release(lim, db, j, now, seen).db, j, key, now)
  {
    hide AcquireLock, RowRenewed;
    LockRenews(lim, db, j, now, seen, key);
  }

  lemma DispatchTakes(lim: Limits, db: Db, j: JobId, now: Time, seen: WaitPc, key: Key)
    requires j in db.jobs && seen != Acquired
    ensures TakesForJob(db, DispatchFrom(lim, db, j, now, seen), j, key, now)
  {
    hide AcquireLock, TakerRenews, RowRenewed, Paid, MakeReady, MakeBlocked, TakesForJob;
    LockRenews(lim, db, j, now, seen, key);
    var lock := AcquireLock(lim, db, j, now, seen);
    if lock.ok {
      ReadyTakes(db, j, lock.db.semaphores, key, now);
    } else {
      BlockTakes(db, j, key, now);
    }
  }

  lemma ReadyTakes(db: Db, j: JobId, semaphores: Table, key: Key, now: Time)
    requires j in db.jobs && TakerRenews(db.jobs[j], db.semaphores, semaphores, now, key)
    requires db.jobs[j].key == Some(key) ==> RowRenewed(semaphores, key, now + db.jobs[j].duration)
    ensures TakesForJob(db, MakeReady(db.(semaphores := semaphores), j), j, key, now)
  {
    hide TakerRenews, RowRenewed;
  }

  lemma BlockTakes(db: Db, j: JobId, key: Key, now: Time)
    requires j in db.jobs && db.jobs[j].key.Some?
    ensures TakesForJob(db, MakeBlocked(db, j, now), j, key, now)
  {
  }

  /** The scheduled and failed rows do not matter to it. */
  lemma TakesBesides(
      db: Db, after: Db, scheduled: map<JobId, ScheduledRow>, failed: map<JobId, string>, j: JobId, key: Key,
      now: Time)
    requires j in db.jobs && TakesForJob(db, after, j, key, now)
    ensures TakesForJob(db, after.(scheduled := scheduled, failed := failed), j, key, now)
  {
  }

  lemma DispatchesTake(lim: Limits, m: Machine, step: Step, key: Key)
    requires Enabled(lim, m, step) && (step.DispatchDue? || step.Retry? || step.BulkRetry?)
    ensures TakesForJob(m.db, Apply(lim, m, step).db, step.j, key, step.now)
    ensures Apply(lim, m, step).enqueuing == m.enqueuing
  {
    hide DispatchFrom, TakesForJob;
    var j, db := step.j, m.db;
    var after := DispatchFrom(lim, db, j, step.now, step.seen);
    DispatchTakes(lim, db, j, step.now, step.seen, key);
    if step.DispatchDue? {
      TakesBesides(db, after, after.scheduled - {j}, after.failed, j, key, step.now);
    } else if step.BulkRetry? || IsDue(db.jobs[j], step.now) {
      TakesBesides(db, after, after.scheduled, db.failed - {j}, j, key, step.now);
    } else {
      LaterTakesNothing(db, j, key, step.now);
    }
  }

  lemma LaterTakesNothing(db: Db, j: JobId, key: Key, now: Time)
    requires j in db.jobs && db.jobs[j].scheduledAt.Some?
    ensures TakesForJob(db, MakeScheduled(db, j).(failed := db.failed - {j}), j, key, now)
  {
  }

  // ----- All steps -----

  lemma WorkerRenews(lim: Limits, m: Machine, step: Step, key: Key, until: Time)
    requires Inv(m) && Enabled(lim, m, step)
    requires step.LockReady? || step.CommitClaim? || step.AbortClaim? || step.Finish? || step.Fail? || step.GiveBack?
             || step.Insert? || step.PlaceScheduled? || step.PlaceUnlimited? || step.ReadSemaphore?
             || step.PlaceReady? || step.PlaceBlocked?
    ensures Renews(m, Apply(lim, m, step), key, until)
  {
    hide *;
    if step.LockReady? || step.CommitClaim? || step.AbortClaim? || step.Finish? || step.Fail? || step.GiveBack? {
      WorkerGainsNothing(lim, m, step, key);
    } else {
      EnqueuerGainsNothing(lim, m, step, key);
    }
    NobodyGainsRenews(m, Apply(lim, m, step), key, until);
  }

  lemma DispatchesRenew(lim: Limits, m: Machine, step: Step, key: Key, least: nat)
    requires Enabled(lim, m, step) && LongEnough(m, key, least)
    requires step.DispatchDue? || step.Retry? || step.BulkRetry?
    ensures Renews(m, Apply(lim, m, step), key, step.now + least)
  {
    hide Renews, LongEnough, TakesForJob, Apply;
    DispatchesTake(lim, m, step, key);
    TakingRenews(m, Apply(lim, m, step), step.j, step.now, key, least);
  }

  lemma PromoteRenews(lim: Limits, m: Machine, j: JobId, now: Time, seen: WaitPc, key: Key, least: nat)
    requires Enabled(lim, m, Promote(j, now, seen)) && LongEnough(m, key, least)
    ensures Renews(m, DoPromote(lim, m, j, now, seen), key, now + least)
  {
    hide Renews, LongEnough, TakesForJob, Release;
    PromoteTakes(lim, m.db, j, now, seen, key);
    TakingRenews(m, DoPromote(lim, m, j, now, seen), j, now, key, least);
  }

  lemma StepRenews(lim: Limits, m: Machine, step: Step, clock: Time, key: Key, least: nat)
    requires Inv(m) && Enabled(lim, m, step) && LongEnough(m, key, least)
    requires Now(step).Some? ==> Now(step).value == clock
    ensures Renews(m, Apply(lim, m, step), key, clock + least)
  {
    hide Inv, Renews, LongEnough, Enabled;
    if step.WaitOn? {
      WaitRenews(lim, m, step.j, step.now, key, least);
    } else if step.SignalKey? {
      SignalRenews(lim, m, step.t, step.now, key, least);
    } else if step.Promote? {
      PromoteRenews(lim, m, step.j, step.now, step.seen, key, least);
    } else if step.DispatchDue? || step.Retry? || step.BulkRetry? {
      hide Apply;
      DispatchesRenew(lim, m, step, key, least);
    } else {
      hide Apply;
      OtherRenews(lim, m, step, key, clock + least);
    }
  }

  lemma OtherRenews(lim: Limits, m: Machine, step: Step, key: Key, until: Time)
    requires Inv(m) && Enabled(lim, m, step)
    requires !step.WaitOn? && !step.SignalKey? && !step.Promote? && !step.DispatchDue? && !step.Retry?
             && !step.BulkRetry?
    ensures Renews(m, Apply(lim, m, step), key, until)
  {
    hide Inv, Renews;
    if step.StartRelease? || step.LockBlocked? || step.FindExpired? || step.Expire? || step.Register? || step.Leave?
       || step.DeleteProcess?
    {
      SystemGainsNothing(lim, m, step, key);
      NobodyGainsRenews(m, Apply(lim, m, step), key, until);
    } else {
      WorkerRenews(lim, m, step, key, until);
    }
  }

  /** New debts come from ended jobs, and durations only from jobs. */
  lemma EndPasses(lim: Limits, m: Machine, step: Step, key: Key, least: nat)
    requires Enabled(lim, m, step) && LongEnough(m, key, least) && (step.Finish? || step.Fail?)
    ensures Passes(m, Apply(lim, m, step), step, key) && LongEnough(Apply(lim, m, step), key, least)
  {
  }

  /** No debts are new, and no jobs but an inserted one. */
  ghost predicate NoNewDebts(m: Machine, m': Machine) {
    forall t :: t in m'.settling && m'.settling[t].Owes? ==> t in m.settling && m'.settling[t] == m.settling[t]
  }

  lemma NoNewDebtsPasses(m: Machine, m': Machine, step: Step, key: Key, least: nat)
    requires NoNewDebts(m, m') && LongEnough(m, key, least)
    requires forall j :: j in m'.db.jobs && m'.db.jobs[j].key == Some(key) ==>
               m'.db.jobs[j].duration >= least || (j in m.db.jobs && m'.db.jobs[j] == m.db.jobs[j])
    ensures Passes(m, m', step, key) && LongEnough(m', key, least)
  {
    forall t | IsDebt(m', t, key) ensures IsDebt(m, t, key) {
    }
  }

  lemma DispatchesOweNothing(lim: Limits, m: Machine, step: Step)
    requires Enabled(lim, m, step) && (step.Promote? || step.DispatchDue? || step.Retry? || step.BulkRetry?)
    ensures Apply(lim, m, step).settling == m.settling && Apply(lim, m, step).db.jobs == m.db.jobs
  {
    hide *;
    if step.Promote? {
      PromoteOwesNothing(lim, m, step.j, step.now, step.seen);
    } else {
      RowsOweNothing(lim, m, step);
    }
  }

  lemma PromoteOwesNothing(lim: Limits, m: Machine, j: JobId, now: Time, seen: WaitPc)
    requires Enabled(lim, m, Promote(j, now, seen))
    ensures var m' := Apply(lim, m, Promote(j, now, seen)); m'.settling == m.settling && m'.db.jobs == m.db.jobs
  {
    hide AcquireLock;
  }

  lemma RowsOweNothing(lim: Limits, m: Machine, step: Step)
    requires Enabled(lim, m, step) && (step.DispatchDue? || step.Retry? || step.BulkRetry?)
    ensures Apply(lim, m, step).settling == m.settling && Apply(lim, m, step).db.jobs == m.db.jobs
  {
    hide DispatchFrom;
  }

  lemma EnqueuerOwesNothing(lim: Limits, m: Machine, step: Step)
    requires Enabled(lim, m, step)
    requires step.PlaceScheduled? || step.PlaceUnlimited? || step.ReadSemaphore? || step.WaitOn?
             || step.PlaceReady? || step.PlaceBlocked?
    ensures Apply(lim, m, step).settling == m.settling && Apply(lim, m, step).db.jobs == m.db.jobs
  {
  }

  lemma SettlersOweNothing(lim: Limits, m: Machine, step: Step)
    requires Enabled(lim, m, step) && !step.Insert? && !step.Finish? && !step.Fail?
    requires !step.PlaceScheduled? && !step.PlaceUnlimited? && !step.ReadSemaphore? && !step.WaitOn?
             && !step.PlaceReady? && !step.PlaceBlocked?
             && !step.Promote? && !step.DispatchDue? && !step.Retry? && !step.BulkRetry?
    ensures NoNewDebts(m, Apply(lim, m, step)) && Apply(lim, m, step).db.jobs == m.db.jobs
  {
    hide *;
    if step.LockReady? || step.CommitClaim? || step.AbortClaim? || step.GiveBack? {
      ClaimersOweNothing(lim, m, step);
    } else if step.SignalKey? || step.StartRelease? || step.LockBlocked? {
      UnblockersOweNothing(lim, m, step);
    } else {
      OthersOweNothing(lim, m, step);
    }
  }

  lemma ClaimersOweNothing(lim: Limits, m: Machine, step: Step)
    requires Enabled(lim, m, step) && (step.LockReady? || step.CommitClaim? || step.AbortClaim? || step.GiveBack?)
    ensures NoNewDebts(m, Apply(lim, m, step)) && Apply(lim, m, step).db.jobs == m.db.jobs
  {
  }

  lemma UnblockersOweNothing(lim: Limits, m: Machine, step: Step)
    requires Enabled(lim, m, step) && (step.SignalKey? || step.StartRelease? || step.LockBlocked?)
    ensures NoNewDebts(m, Apply(lim, m, step)) && Apply(lim, m, step).db.jobs == m.db.jobs
  {
    hide Signal, Next;
  }

  lemma OthersOweNothing(lim: Limits, m: Machine, step: Step)
    requires Enabled(lim, m, step)
    requires step.FindExpired? || step.Expire? || step.Register? || step.Leave? || step.DeleteProcess?
    ensures NoNewDebts(m, Apply(lim, m, step)) && Apply(lim, m, step).db.jobs == m.db.jobs
  {
  }

  lemma OtherPasses(lim: Limits, m: Machine, step: Step, key: Key, least: nat)
    requires Enabled(lim, m, step) && LongEnough(m, key, least) && !step.Finish? && !step.Fail?
    requires step.Insert? && step.job.key == Some(key) ==> step.job.duration >= least
    ensures Passes(m, Apply(lim, m, step), step, key) && LongEnough(Apply(lim, m, step), key, least)
  {
    hide LongEnough, Passes, Enabled;
    if step.Promote? || step.DispatchDue? || step.Retry? || step.BulkRetry? {
      hide Apply;
      DispatchesOweNothing(lim, m, step);
    } else if step.PlaceScheduled? || step.PlaceUnlimited? || step.ReadSemaphore? || step.WaitOn?
             || step.PlaceReady? || step.PlaceBlocked? {
      hide Apply;
      EnqueuerOwesNothing(lim, m, step);
    } else if !step.Insert? {
      hide Apply;
      SettlersOweNothing(lim, m, step);
    }
    NoNewDebtsPasses(m, Apply(lim, m, step), step, key, least);
  }

  // ----- The promise for the duration -----

  /** Deleting a semaphore whose expiry date has passed keeps its tokens conserved exactly
      if no token of it has been out for its duration; deleting one that was renewed after
      it was found expired, exactly if no token of it is out. */
  lemma SafeExactlyInTime(lim: Limits, c: Timed, clock: Time, key: Key, least: nat)
    requires AllCovered(c, key, least) && Conserved(lim, c.m, key) && Enabled(lim, c.m, Expire(key))
    ensures Conserved(lim, Apply(lim, c.m, Expire(key)), key) <==> MayDelete(c, clock, key, least)
  {
    hide Conserved;
    DeletionAddsDeficit(lim, c.m, key);
    FullExactlyInTime(lim, c, clock, key, least);
  }

  lemma FullExactlyInTime(lim: Limits, c: Timed, clock: Time, key: Key, least: nat)
    requires AllCovered(c, key, least) && Conserved(lim, c.m, key) && key in c.m.db.semaphores
    ensures c.m.db.semaphores[key].value >= Limit(lim, key) <==> MayDelete(c, clock, key, least)
  {
    hide Holders, Debts;
    if c.held.Keys != {} {
      var j :| j in c.held;
      assert Covered(c, c.held[j], key, least);
      assert |Holders(c.m, key)| > 0 && !MayDelete(c, clock, key, least);
    } else if c.owed.Keys != {} {
      var t :| t in c.owed;
      assert Covered(c, c.owed[t], key, least);
      assert |Debts(c.m, key)| > 0 && !MayDelete(c, clock, key, least);
    }
  }

  ghost predicate InHand(lim: Limits, c: Timed, key: Key, least: nat) {
    Inv(c.m) && Conserved(lim, c.m, key) && AllCovered(c, key, least) && LongEnough(c.m, key, least)
  }

  lemma PunctualStep(lim: Limits, c: Timed, at: At, key: Key, least: nat)
    requires InHand(lim, c, key, least) && Goes(lim, c, at, key, least)
    requires Deletes(at.step, key) && Enabled(lim, c.m, at.step) ==> MayDelete(c, at.clock, key, least)
    ensures Allowed(lim, ExpiresFrom(key, Limit(lim, key)), c.m, at.step)
    ensures InHand(lim, Tick(lim, c, at, key), key, least)
  {
    hide Inv, Conserved, AllCovered, LongEnough, Apply, Renews, Passes, MayDelete, RetryFits;
    if Deletes(at.step, key) {
      FullExactlyInTime(lim, c, at.clock, key, least);
    }
    StepRenews(lim, c.m, at.step, at.clock, key, least);
    if at.step.Finish? || at.step.Fail? {
      EndPasses(lim, c.m, at.step, key, least);
    } else {
      OtherPasses(lim, c.m, at.step, key, least);
    }
    StaysCovered(lim, c, at, key, least);
    StepKeepsInv(lim, c.m, at.step);
    StepConserves(lim, c.m, at.step, key);
  }

  lemma {:induction false} PunctualRun(lim: Limits, c: Timed, ats: seq<At>, c': Timed, key: Key, least: nat)
    requires InHand(lim, c, key, least) && IsPunctual(lim, c, ats, c', key, least)
    ensures InHand(lim, c', key, least) && Reaches(lim, ExpiresFrom(key, Limit(lim, key)), c.m, c'.m)
    decreases |ats|
  {
    hide InHand, Enabled, RetryFits, Reaches, Allowed, MayDelete, Apply;
    if ats == [] {
      ReachesItself(lim, ExpiresFrom(key, Limit(lim, key)), c.m);
    } else {
      var next := Tick(lim, c, ats[0], key);
      PunctualStep(lim, c, ats[0], key, least);
      OneStep(lim, ExpiresFrom(key, Limit(lim, key)), c.m, ats[0].step);
      PunctualRun(lim, next, ats[1..], c', key, least);
      ReachesTransitive(lim, ExpiresFrom(key, Limit(lim, key)), c.m, next.m, c'.m);
    }
  }

  /** From empty tables at any time, if jobs of the key have at least the duration `least`,
      and maintenance deletes its semaphore only while no token of it has been out for as long
      as that, and before a token is taken again, at most `limit` jobs of the key are ready or
      claimed, however often its semaphore is deleted. */
  lemma LimitKeptForDuration(lim: Limits, start: Time, ats: seq<At>, c: Timed, key: Key, least: nat)
    requires IsPunctual(lim, Timed(INITIAL, start, map[], map[]), ats, c, key, least)
    ensures Reachable(lim, ExpiresFrom(key, Limit(lim, key)), c.m)
    ensures Conserved(lim, c.m, key) && |Running(c.m.db, key)| <= Limit(lim, key)
  {
    InitialTokens(lim, key);
    PunctualRun(lim, Timed(INITIAL, start, map[], map[]), ats, c, key, least);
    RunningAreHolders(c.m, key);
  }

  // ----- Whole operations -----

  ghost predicate ReachesPunctually(lim: Limits, c: Timed, c': Timed, key: Key, least: nat) {
    exists ats :: IsPunctual(lim, c, ats, c', key, least)
  }

  lemma {:induction false} PunctualAppend(
      lim: Limits, a: Timed, s: seq<At>, b: Timed, t: seq<At>, c: Timed, key: Key, least: nat)
    requires IsPunctual(lim, a, s, b, key, least) && IsPunctual(lim, b, t, c, key, least)
    ensures IsPunctual(lim, a, s + t, c, key, least)
    decreases |s|
  {
    hide Apply, Enabled, RetryFits, MayDelete;
    if s == [] {
      assert s + t == t;
    } else {
      PunctualAppend(lim, Tick(lim, a, s[0], key), s[1..], b, t, c, key, least);
      assert (s + t)[0] == s[0] && (s + t)[1..] == s[1..] + t;
    }
  }

  /** Operations one after the other make a punctual run. */
  lemma PunctualThen(lim: Limits, a: Timed, b: Timed, c: Timed, key: Key, least: nat)
    requires ReachesPunctually(lim, a, b, key, least) && ReachesPunctually(lim, b, c, key, least)
    ensures ReachesPunctually(lim, a, c, key, least)
  {
    var s :| IsPunctual(lim, a, s, b, key, least);
    var t :| IsPunctual(lim, b, t, c, key, least);
    PunctualAppend(lim, a, s, b, t, c, key, least);
  }

  /** A job keeps its key and duration. */
  ghost predicate SameTerms(m: Machine, m': Machine, j: JobId) {
    j in m.db.jobs ==>
      && j in m'.db.jobs && m'.db.jobs[j].key == m.db.jobs[j].key
      && m'.db.jobs[j].duration == m.db.jobs[j].duration
  }

  lemma StepKeepsTerms(lim: Limits, m: Machine, step: Step, j: JobId)
    requires Enabled(lim, m, step)
    ensures SameTerms(m, Apply(lim, m, step), j)
  {
    if step.Promote? || step.DispatchDue? || step.Retry? || step.BulkRetry? {
      hide Apply, Enabled;
      DispatchesOweNothing(lim, m, step);
    } else if step.PlaceScheduled? || step.PlaceUnlimited? || step.ReadSemaphore? || step.WaitOn?
             || step.PlaceReady? || step.PlaceBlocked? {
      hide Apply, Enabled;
      EnqueuerOwesNothing(lim, m, step);
    } else if !step.Insert? && !step.Finish? && !step.Fail? {
      hide Apply, Enabled;
      SettlersOweNothing(lim, m, step);
    }
  }

  lemma {:induction false} RunKeepsTerms(lim: Limits, rule: Rule, m: Machine, steps: seq<Step>, m': Machine, j: JobId)
    requires IsRun(lim, rule, m, steps, m')
    ensures SameTerms(m, m', j)
    decreases |steps|
  {
    hide Apply, Enabled, Allowed;
    if steps != [] {
      StepKeepsTerms(lim, m, steps[0], j);
      RunKeepsTerms(lim, rule, Apply(lim, m, steps[0]), steps[1..], m', j);
    }
  }

  ghost predicate AllLast(m: Machine, key: Key, least: nat) {
    forall j :: j in m.db.jobs && m.db.jobs[j].key == Some(key) ==> m.db.jobs[j].duration >= least
  }

  lemma InsertedLasts(lim: Limits, rule: Rule, m: Machine, steps: seq<Step>, m': Machine, key: Key, least: nat)
    requires IsRun(lim, rule, m, steps, m') && steps != [] && AllLast(m', key, least)
    ensures steps[0].Insert? && steps[0].job.key == Some(key) ==> steps[0].job.duration >= least
  {
    if steps[0].Insert? {
      var j, next := steps[0].j, Apply(lim, m, steps[0]);
      assert j in next.db.jobs && next.db.jobs[j] == steps[0].job;
      RunKeepsTerms(lim, rule, next, steps[1..], m', j);
    }
  }

  lemma {:induction false} AtOnceIsPunctual(
      lim: Limits, c: Timed, steps: seq<Step>, m': Machine, now: Time, key: Key, least: nat) returns (c': Timed)
    requires IsRun(lim, AtOnce(now), c.m, steps, m') && c.clock <= now && AllLast(m', key, least)
    ensures ReachesPunctually(lim, c, c', key, least) && c'.m == m' && c'.clock <= now
    decreases |steps|
  {
    hide Apply, Enabled, RetryFits, MayDelete, AllLast;
    if steps == [] {
      c' := c;
      assert IsPunctual(lim, c, [], c', key, least);
    } else {
      var at := At(now, steps[0]);
      InsertedLasts(lim, AtOnce(now), c.m, steps, m', key, least);
      var next := Tick(lim, c, at, key);
      c' := AtOnceIsPunctual(lim, next, steps[1..], m', now, key, least);
      var ats :| IsPunctual(lim, next, ats, c', key, least);
      assert ([at] + ats)[1..] == ats;
      assert IsPunctual(lim, c, [at] + ats, c', key, least);
    }
  }

  /** A whole operation at the time `now` is a punctual piece of a run: every step of it reads
      that time. So a run of operations keeps the limit for the duration. */
  lemma OperationIsPunctual(lim: Limits, c: Timed, m': Machine, now: Time, key: Key, least: nat)
    requires Reaches(lim, AtOnce(now), c.m, m') && c.clock <= now && AllLast(m', key, least)
    ensures exists c' :: ReachesPunctually(lim, c, c', key, least) && c'.m == m' && c'.clock <= now
  {
    var steps :| IsRun(lim, AtOnce(now), c.m, steps, m');
    var c' := AtOnceIsPunctual(lim, c, steps, m', now, key, least);
  }
}
