/** When no interleaving leaves a job blocked beside a free token.

    Statement by statement, a job can stay blocked although a token of its key is free. That
    takes a step that leaves a job blocked while a token is free: a `block` after a read that
    is out of date, or a refused promotion or dispatch. Runs without such a step meet the
    promise, and any such step with nothing else under way breaks it. */
module Patience {
  import opened Tables
  import opened Semaphores
  import opened Executables
  import opened BlockedExecutions
  import opened ClaimedExecutions
  import opened Dispatching
  import opened Protocol
  import opened Lifecycle
  import opened Tokens
  import opened Runs

  /** The threads that have still to look for a blocked job of the key. */
  ghost function ReleasersIn(settling: map<ThreadId, SettlePc>, key: Key): set<ThreadId> {
    set t | t in settling && settling[t] == Releasing(key)
  }

  ghost function Releasers(m: Machine, key: Key): set<ThreadId> {
    ReleasersIn(m.settling, key)
  }

  /** The blocked rows of the key that a promoting transaction holds. */
  ghost function LockedIn(blocked: map<JobId, BlockedRow>, promoting: set<JobId>, key: Key): set<JobId> {
    set j | j in promoting && j in blocked && blocked[j].key == key
  }

  ghost function Locked(m: Machine, key: Key): set<JobId> {
    LockedIn(m.db.blocked, m.promoting, key)
  }

  /** While a job of the key waits, every free token has somebody on the way to it. */
  ghost predicate Attended(m: Machine, key: Key) {
    Parked(m, key) != {} ==>
      key in m.db.semaphores && m.db.semaphores[key].value <= |Releasers(m, key)| + |Locked(m, key)|
  }

  /** The free tokens of the key that nobody is on the way to. */
  ghost function Unattended(m: Machine, key: Key): int
    requires key in m.db.semaphores
  {
    m.db.semaphores[key].value - |Releasers(m, key)| - |Locked(m, key)|
  }

  // ----- What single steps do to it -----

  /** The row stays, and its value does not grow. */
  ghost predicate NoMoreTokens(m: Machine, m': Machine, key: Key) {
    key in m.db.semaphores ==> key in m'.db.semaphores && m'.db.semaphores[key].value <= m.db.semaphores[key].value
  }

  ghost predicate NoLessAttended(m: Machine, m': Machine, key: Key) {
    key in m.db.semaphores ==> key in m'.db.semaphores && Unattended(m', key) <= Unattended(m, key)
  }

  lemma StaysAttended(m: Machine, m': Machine, key: Key)
    requires Attended(m, key)
    requires Parked(m', key) <= Parked(m, key) ==> NoLessAttended(m, m', key)
    requires Parked(m', key) <= Parked(m, key) || (Exhausted(m.db.semaphores, key) && NoMoreTokens(m, m', key))
    ensures Attended(m', key)
  {
  }

  ghost predicate SameAttendants(m: Machine, m': Machine, key: Key) {
    m'.promoting == m.promoting && Releasers(m', key) == Releasers(m, key) && Locked(m', key) == Locked(m, key)
  }

  lemma SameIsNoLess(m: Machine, m': Machine, key: Key)
    requires SameAttendants(m, m', key) && NoMoreTokens(m, m', key)
    ensures NoLessAttended(m, m', key)
  {
  }

  lemma ElsewhereSame(lim: Limits, m: Machine, step: Step, key: Key)
    requires Enabled(lim, m, step)
    requires step.Insert? || step.PlaceScheduled? || step.PlaceUnlimited? || step.ReadSemaphore? || step.PlaceReady?
             || step.LockReady? || step.CommitClaim? || step.AbortClaim? || step.GiveBack?
             || step.FindExpired? || step.Register? || step.Leave? || step.DeleteProcess?
    ensures SameAttendants(m, Apply(lim, m, step), key) && NoMoreTokens(m, Apply(lim, m, step), key)
  {
    hide ReleasersIn, LockedIn, Apply, Enabled;
    ElsewhereWrites(lim, m, step);
  }

  /** The step writes none of the blocked rows, semaphores, settling threads and locks. */
  ghost predicate WritesElsewhere(m: Machine, m': Machine) {
    && m'.db.blocked == m.db.blocked && m'.db.semaphores == m.db.semaphores
    && m'.settling == m.settling && m'.promoting == m.promoting
  }

  lemma PlacesElsewhere(lim: Limits, m: Machine, step: Step)
    requires Enabled(lim, m, step)
    requires step.Insert? || step.PlaceScheduled? || step.PlaceUnlimited? || step.ReadSemaphore? || step.PlaceReady?
    ensures WritesElsewhere(m, Apply(lim, m, step))
  {
  }

  lemma ElsewhereWrites(lim: Limits, m: Machine, step: Step)
    requires Enabled(lim, m, step)
    requires step.Insert? || step.PlaceScheduled? || step.PlaceUnlimited? || step.ReadSemaphore? || step.PlaceReady?
             || step.LockReady? || step.CommitClaim? || step.AbortClaim? || step.GiveBack?
             || step.FindExpired? || step.Register? || step.Leave? || step.DeleteProcess?
    ensures WritesElsewhere(m, Apply(lim, m, step))
  {
    if step.Insert? || step.PlaceScheduled? || step.PlaceUnlimited? || step.ReadSemaphore? || step.PlaceReady? {
      hide *;
      PlacesElsewhere(lim, m, step);
    }
  }

  lemma OwingReleases(settling: map<ThreadId, SettlePc>, t: ThreadId, job: Job, key: Key)
    requires t !in settling
    ensures ReleasersIn(Owing(settling, t, job), key) == ReleasersIn(settling, key)
  {
  }

  lemma EndSame(lim: Limits, m: Machine, step: Step, key: Key)
    requires Enabled(lim, m, step) && (step.Finish? || step.Fail?)
    ensures SameAttendants(m, Apply(lim, m, step), key) && NoMoreTokens(m, Apply(lim, m, step), key)
  {
    hide ReleasersIn, LockedIn, Owing;
    var m' := Apply(lim, m, step);
    assert m'.db.blocked == m.db.blocked && m'.db.semaphores == m.db.semaphores;
    OwingReleases(m.settling, step.t, m.db.jobs[step.j], key);
  }

  lemma WaitSame(lim: Limits, m: Machine, j: JobId, now: Time, key: Key)
    requires Enabled(lim, m, WaitOn(j, now))
    ensures SameAttendants(m, DoWaitOn(lim, m, j, now), key) && NoMoreTokens(m, DoWaitOn(lim, m, j, now), key)
  {
    var m' := DoWaitOn(lim, m, j, now);
    assert m'.db.blocked == m.db.blocked && m'.settling == m.settling;
  }

  lemma ExpireSame(m: Machine, expired: Key, key: Key)
    requires expired != key
    ensures SameAttendants(m, DoExpire(m, expired), key) && NoMoreTokens(m, DoExpire(m, expired), key)
  {
  }

  /** The two tables agree but for a row of `j`, which is new. */
  ghost predicate OnlyAddsRow(blocked: map<JobId, BlockedRow>, after: map<JobId, BlockedRow>, j: JobId) {
    && (forall i :: i in after ==> i == j || (i in blocked && after[i] == blocked[i]))
    && (forall i :: i in blocked ==> i in after && after[i] == blocked[i])
  }

  lemma NewRowIsNotLocked(
      blocked: map<JobId, BlockedRow>, after: map<JobId, BlockedRow>, promoting: set<JobId>, j: JobId, key: Key)
    requires j !in promoting && OnlyAddsRow(blocked, after, j)
    ensures LockedIn(after, promoting, key) == LockedIn(blocked, promoting, key)
  {
  }

  lemma BlockSame(lim: Limits, m: Machine, j: JobId, now: Time, key: Key)
    requires Inv(m) && Enabled(lim, m, Step.PlaceBlocked(j, now))
    ensures var m' := DoPlace(m, j, MakeBlocked(m.db, j, now));
            SameAttendants(m, m', key) && NoMoreTokens(m, m', key)
  {
    assert Placed(m, j);
    NewRowIsNotLocked(m.db.blocked, MakeBlocked(m.db, j, now).blocked, m.promoting, j, key);
  }

  /** A dispatch writes at most the job's own blocked row, and only if it takes no token. */
  lemma DispatchWrites(lim: Limits, db: Db, j: JobId, now: Time, seen: WaitPc, key: Key)
    requires j in db.jobs && seen != Acquired
    ensures var after := DispatchFrom(lim, db, j, now, seen);
            && OnlyAddsRow(db.blocked, after.blocked, j)
            && (after.blocked == db.blocked || after.semaphores == db.semaphores)
            && (key in db.semaphores ==>
                  key in after.semaphores && after.semaphores[key].value <= db.semaphores[key].value)
  {
    hide DispatchFrom;
    var after := DispatchFrom(lim, db, j, now, seen);
    if after == MakeReady(db.(semaphores := after.semaphores), j)
       && Paid(lim, db.jobs[j], db.semaphores, after.semaphores)
    {
      assert after.blocked == db.blocked;
    }
  }

  /** What a dispatch step leaves of the tables that matter here. */
  lemma DispatchesWrite(lim: Limits, m: Machine, step: Step)
    requires Enabled(lim, m, step) && (step.DispatchDue? || step.Retry? || step.BulkRetry?)
    ensures var m' := Apply(lim, m, step);
            var after := DispatchFrom(lim, m.db, step.j, step.now, step.seen);
            && m'.settling == m.settling && m'.promoting == m.promoting
            && ((m'.db.blocked == m.db.blocked && m'.db.semaphores == m.db.semaphores)
                || (m'.db.blocked == after.blocked && m'.db.semaphores == after.semaphores))
  {
    hide DispatchFrom;
  }

  lemma DispatchesSame(lim: Limits, m: Machine, step: Step, key: Key)
    requires Inv(m) && Enabled(lim, m, step) && (step.DispatchDue? || step.Retry? || step.BulkRetry?)
    ensures SameAttendants(m, Apply(lim, m, step), key) && NoMoreTokens(m, Apply(lim, m, step), key)
    ensures var m' := Apply(lim, m, step); m'.db.blocked == m.db.blocked || m'.db.semaphores == m.db.semaphores
  {
    hide DispatchFrom, Apply, ReleasersIn, LockedIn, OnlyAddsRow, Paid;
    assert step.j !in m.promoting by { assert Placed(m, step.j); }
    var after := DispatchFrom(lim, m.db, step.j, step.now, step.seen);
    DispatchWrites(lim, m.db, step.j, step.now, step.seen, key);
    DispatchesWrite(lim, m, step);
    NewRowIsNotLocked(m.db.blocked, after.blocked, m.promoting, step.j, key);
  }

  lemma SignalReleases(settling: map<ThreadId, SettlePc>, t: ThreadId, k: Key, key: Key)
    requires t in settling && settling[t].Owes?
    ensures |ReleasersIn(settling[t := Releasing(k)], key)| == |ReleasersIn(settling, key)| + One(k == key)
    ensures ReleasersIn(settling - {t}, key) == ReleasersIn(settling, key)
  {
    if k == key {
      assert ReleasersIn(settling[t := Releasing(k)], key) == ReleasersIn(settling, key) + {t};
    } else {
      assert ReleasersIn(settling[t := Releasing(k)], key) == ReleasersIn(settling, key);
    }
  }

  lemma SignalAttends(lim: Limits, m: Machine, t: ThreadId, now: Time, key: Key)
    requires Enabled(lim, m, SignalKey(t, now))
    ensures var m' := DoSignalKey(lim, m, t, now); Parked(m', key) == Parked(m, key) && NoLessAttended(m, m', key)
  {
    hide ReleasersIn, LockedIn, ParkedIn;
    SignalReleases(m.settling, t, m.settling[t].key, key);
  }

  lemma StartAttends(lim: Limits, m: Machine, t: ThreadId, k: Key, key: Key)
    requires Enabled(lim, m, StartRelease(t, k))
    ensures var m' := DoStartRelease(m, t, k); Parked(m', key) == Parked(m, key) && NoLessAttended(m, m', key)
  {
    var m' := DoStartRelease(m, t, k);
    if k == key {
      assert Releasers(m', key) == Releasers(m, key) + {t};
    } else {
      assert Releasers(m', key) == Releasers(m, key);
    }
  }

  lemma LocksOne(m: Machine, t: ThreadId, j: JobId, key: Key)
    requires t in m.settling && m.settling[t] == Releasing(key) && j in m.db.blocked && j !in m.promoting
    requires Attended(m, key) && m.db.blocked[j].key == key
    ensures Attended(m.(settling := m.settling - {t}, promoting := m.promoting + {j}), key)
  {
    var m' := m.(settling := m.settling - {t}, promoting := m.promoting + {j});
    assert j in Parked(m, key);
    assert Releasers(m, key) == Releasers(m', key) + {t};
    assert Locked(m', key) == Locked(m, key) + {j};
  }

  lemma LocksElsewhere(m: Machine, t: ThreadId, j: JobId, key: Key)
    requires t in m.settling && m.settling[t].Releasing? && m.settling[t].key != key
    requires Attended(m, key) && j in m.db.blocked && m.db.blocked[j].key != key
    ensures Attended(m.(settling := m.settling - {t}, promoting := m.promoting + {j}), key)
  {
    var m' := m.(settling := m.settling - {t}, promoting := m.promoting + {j});
    assert Releasers(m', key) == Releasers(m, key) && Locked(m', key) == Locked(m, key);
    assert Parked(m', key) == Parked(m, key);
  }

  lemma LeavesElsewhere(m: Machine, t: ThreadId, key: Key)
    requires t in m.settling && m.settling[t] != Releasing(key) && Attended(m, key)
    ensures Attended(m.(settling := m.settling - {t}), key)
  {
    assert Releasers(m.(settling := m.settling - {t}), key) == Releasers(m, key);
  }

  /** A releasing thread leaves only when nothing waits, or with a row of the key locked. */
  lemma LockAttends(lim: Limits, m: Machine, t: ThreadId, key: Key)
    requires Attended(m, key) && Enabled(lim, m, LockBlocked(t))
    ensures Attended(DoLockBlocked(m, t), key)
  {
    hide Attended;
    var k := m.settling[t].key;
    var next := Next(m.db.blocked, k, m.promoting);
    if next.Some? {
      if k == key {
        LocksOne(m, t, next.value, key);
      } else {
        LocksElsewhere(m, t, next.value, key);
      }
    } else if k == key {
      NobodyParked(m, m.(settling := m.settling - {t}), key);
    } else {
      LeavesElsewhere(m, t, key);
    }
  }

  lemma NobodyParked(m: Machine, m': Machine, key: Key)
    requires NoneLeft(m.db.blocked, key, m.promoting) && m'.db == m.db && m'.promoting == m.promoting
    ensures Attended(m', key)
  {
    assert Parked(m', key) == {};
  }

  lemma RowGone(blocked: map<JobId, BlockedRow>, promoting: set<JobId>, j: JobId, key: Key)
    requires j in promoting && j in blocked
    ensures ParkedIn(blocked - {j}, promoting - {j}, key) == ParkedIn(blocked, promoting, key)
    ensures |LockedIn(blocked, promoting, key)|
            == |LockedIn(blocked - {j}, promoting - {j}, key)| + One(blocked[j].key == key)
  {
    var after := LockedIn(blocked - {j}, promoting - {j}, key);
    if blocked[j].key == key {
      assert LockedIn(blocked, promoting, key) == after + {j};
    } else {
      assert LockedIn(blocked, promoting, key) == after;
    }
  }

  lemma PromotedAttends(lim: Limits, m: Machine, j: JobId, semaphores: Table, key: Key)
    requires Inv(m) && Attended(m, key) && j in m.promoting && j in m.db.blocked && j in m.db.jobs
    requires Paid(lim, m.db.jobs[j], m.db.semaphores, semaphores)
    ensures Attended(m.(db := Promoted(m.db, semaphores, j), promoting := m.promoting - {j}), key)
  {
    hide ParkedIn, LockedIn, ReleasersIn;
    assert m.db.jobs[j].key == Some(m.db.blocked[j].key);
    RowGone(m.db.blocked, m.promoting, j, key);
  }

  lemma RefusedAttends(m: Machine, j: JobId, key: Key)
    requires Inv(m) && Attended(m, key) && j in m.promoting
    requires var m' := m.(promoting := m.promoting - {j});
             Parked(m', key) <= Parked(m, key) || Exhausted(m.db.semaphores, key)
    ensures Attended(m.(promoting := m.promoting - {j}), key)
  {
    var m' := m.(promoting := m.promoting - {j});
    if m.db.blocked[j].key == key {
      assert j in Parked(m', key) && j !in Parked(m, key);
    } else {
      assert Locked(m', key) == Locked(m, key);
    }
  }

  lemma PromoteAttends(lim: Limits, m: Machine, j: JobId, now: Time, seen: WaitPc, key: Key)
    requires Inv(m) && Attended(m, key) && Enabled(lim, m, Promote(j, now, seen))
    requires var m' := DoPromote(lim, m, j, now, seen);
             Parked(m', key) <= Parked(m, key) || Exhausted(m.db.semaphores, key)
    ensures Attended(DoPromote(lim, m, j, now, seen), key)
  {
    var r := Release(lim, m.db, j, now, seen);
    if r.ok {
      PromotedAttends(lim, m, j, r.db.semaphores, key);
    } else {
      RefusedAttends(m, j, key);
    }
  }

  // ----- Runs -----

  lemma OrdinaryAttends(lim: Limits, m: Machine, step: Step, key: Key)
    requires Inv(m) && Attended(m, key) && Enabled(lim, m, step) && Allowed(lim, Patient(key), m, step)
    requires !step.SignalKey? && !step.StartRelease? && !step.LockBlocked? && !step.Promote?
    ensures Attended(Apply(lim, m, step), key)
  {
    var m' := Apply(lim, m, step);
    if step.Finish? || step.Fail? {
      EndSame(lim, m, step, key);
    } else if step.WaitOn? {
      WaitSame(lim, m, step.j, step.now, key);
    } else if step.Expire? {
      ExpireSame(m, step.key, key);
    } else if step.PlaceBlocked? {
      BlockSame(lim, m, step.j, step.now, key);
    } else if step.DispatchDue? || step.Retry? || step.BulkRetry? {
      DispatchesSame(lim, m, step, key);
    } else {
      ElsewhereSame(lim, m, step, key);
    }
    SameIsNoLess(m, m', key);
    StaysAttended(m, m', key);
  }

  lemma StepAttends(lim: Limits, m: Machine, step: Step, key: Key)
    requires Inv(m) && Attended(m, key) && Enabled(lim, m, step) && Allowed(lim, Patient(key), m, step)
    ensures Attended(Apply(lim, m, step), key)
  {
    if step.SignalKey? {
      SignalAttends(lim, m, step.t, step.now, key);
      StaysAttended(m, Apply(lim, m, step), key);
    } else if step.StartRelease? {
      StartAttends(lim, m, step.t, step.key, key);
      StaysAttended(m, Apply(lim, m, step), key);
    } else if step.LockBlocked? {
      LockAttends(lim, m, step.t, key);
    } else if step.Promote? {
      PromoteAttends(lim, m, step.j, step.now, step.seen, key);
    } else {
      OrdinaryAttends(lim, m, step, key);
    }
  }

  lemma {:induction false} RunAttends(lim: Limits, m: Machine, steps: seq<Step>, m': Machine, key: Key)
    requires Inv(m) && Attended(m, key) && IsRun(lim, Patient(key), m, steps, m')
    ensures Attended(m', key)
    decreases |steps|
  {
    if steps != [] {
      StepAttends(lim, m, steps[0], key);
      StepKeepsInv(lim, m, steps[0]);
      RunAttends(lim, Apply(lim, m, steps[0]), steps[1..], m', key);
    }
  }

  /** Nobody is on the way to a job or a token. */
  ghost predicate NothingUnderWay(m: Machine) {
    m.enqueuing == map[] && m.settling == map[] && m.promoting == {}
  }

  /** In every interleaving in which no step leaves a job of the key blocked while a token is
      free: once nothing is under way, a blocked job means a value of zero and exactly
      `limit` jobs of the key ready or claimed. */
  lemma PatientRunsServeAll(lim: Limits, m: Machine, j: JobId)
    requires j in m.db.blocked && Reachable(lim, Patient(m.db.blocked[j].key), m) && NothingUnderWay(m)
    ensures var key := m.db.blocked[j].key;
            && key in m.db.semaphores && m.db.semaphores[key].value == 0
            && |Running(m.db, key)| == Limit(lim, key)
  {
    var key := m.db.blocked[j].key;
    var steps :| IsRun(lim, Patient(key), INITIAL, steps, m);
    InitialTokens(lim, key);
    RunAttends(lim, INITIAL, steps, m, key);
    ReachesByWeaker(lim, Patient(key), ExpiresFrom(key, Limit(lim, key)), INITIAL, m);
    TokenConservation(lim, m, key);
    assert j in Parked(m, key);
    assert Releasers(m, key) == {} && Locked(m, key) == {};
    assert Debts(m, key) == {} && Holders(m, key) == Running(m.db, key);
  }

  /** A step that leaves a job blocked moves no token. */
  lemma BlockingMovesNoToken(lim: Limits, m: Machine, step: Step, key: Key)
    requires Inv(m) && Enabled(lim, m, step) && !(Parked(Apply(lim, m, step), key) <= Parked(m, key))
    ensures Apply(lim, m, step).db.semaphores == m.db.semaphores
  {
    if step.DispatchDue? || step.Retry? || step.BulkRetry? {
      hide *;
      DispatchesBlock(lim, m, step, key);
    } else if step.Promote? {
      PromotionParksOrPays(lim, m, step.j, step.now, step.seen, key);
    } else if !step.PlaceBlocked? {
      hide *;
      OthersParkNothing(lim, m, step, key);
    }
  }

  lemma OthersParkNothing(lim: Limits, m: Machine, step: Step, key: Key)
    requires Enabled(lim, m, step)
    requires !step.DispatchDue? && !step.Retry? && !step.BulkRetry? && !step.Promote? && !step.PlaceBlocked?
    ensures Parked(Apply(lim, m, step), key) <= Parked(m, key)
  {
    hide Inv;
    if !(step.WaitOn? || step.Finish? || step.Fail? || step.SignalKey? || step.StartRelease? || step.LockBlocked?
         || step.Expire?)
    {
      ElsewhereWrites(lim, m, step);
    }
  }

  lemma DispatchesBlock(lim: Limits, m: Machine, step: Step, key: Key)
    requires Inv(m) && Enabled(lim, m, step) && !(Parked(Apply(lim, m, step), key) <= Parked(m, key))
    requires step.DispatchDue? || step.Retry? || step.BulkRetry?
    ensures Apply(lim, m, step).db.semaphores == m.db.semaphores
  {
    hide Inv, Enabled, Apply;
    DispatchesSame(lim, m, step, key);
  }

  lemma PromotionParksOrPays(lim: Limits, m: Machine, j: JobId, now: Time, seen: WaitPc, key: Key)
    requires Inv(m) && Enabled(lim, m, Promote(j, now, seen))
    requires !(Parked(DoPromote(lim, m, j, now, seen), key) <= Parked(m, key))
    ensures DoPromote(lim, m, j, now, seen).db.semaphores == m.db.semaphores
  {
    hide Inv, Release;
  }

  /** And conversely: one step that leaves a job of the key blocked while a token is free,
      with nothing else under way, leaves it so: blocked, with a token free and fewer than
      `limit` jobs of the key ready or claimed. */
  lemma HastyStepStrands(lim: Limits, m: Machine, step: Step, key: Key)
    requires Reachable(lim, ExpiresFrom(key, Limit(lim, key)), m) && Enabled(lim, m, step) && !step.Expire?
    requires Allowed(lim, ExpiresFrom(key, Limit(lim, key)), m, step) && !Allowed(lim, Patient(key), m, step)
    requires NothingUnderWay(Apply(lim, m, step))
    ensures Stranded(lim, Apply(lim, m, step), key)
  {
    hide Reaches, Inv, Free;
    var m' := Apply(lim, m, step);
    ReachableInv(lim, ExpiresFrom(key, Limit(lim, key)), m);
    BlockingMovesNoToken(lim, m, step, key);
    Then(lim, ExpiresFrom(key, Limit(lim, key)), INITIAL, m, step);
    FreeTokenMeansRoom(lim, m', key);
  }

  /** A job of the key is blocked although a token is free and fewer than `limit` jobs run. */
  ghost predicate Stranded(lim: Limits, m: Machine, key: Key) {
    && Parked(m, key) != {} && 1 <= FreeTokens(lim, m, key)
    && |Running(m.db, key)| < Limit(lim, key)
  }

  lemma FreeTokenMeansRoom(lim: Limits, m: Machine, key: Key)
    requires Reachable(lim, ExpiresFrom(key, Limit(lim, key)), m) && !Exhausted(m.db.semaphores, key)
    ensures 1 <= FreeTokens(lim, m, key) && |Running(m.db, key)| < Limit(lim, key)
  {
    TokenConservation(lim, m, key);
    RunningAreHolders(m, key);
    if key !in m.db.semaphores {
      assert Running(m.db, key) == {};
    }
  }
}
