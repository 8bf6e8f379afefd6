/** A semaphore read as expired, used again, and then deleted: every token comes back in time,
    and still more jobs run than the limit allows. */
module StaleDeletions {
  import opened Tables
  import opened Semaphores
  import opened Executables
  import opened BlockedExecutions
  import opened ClaimedExecutions
  import opened Protocol
  import opened Lifecycle
  import opened Tokens
  import opened Runs
  import opened Operations
  import opened Deadlines
  import opened Witnesses

  /** A run in which no token of the key is ever out for its duration. */
  ghost predicate IsInTime(lim: Limits, c: Timed, ats: seq<At>, c': Timed, key: Key, least: nat)
    decreases |ats|
  {
    if ats == [] then c' == c
    else
      && Goes(lim, c, ats[0], key, least) && InTime(c, ats[0].clock, least)
      && IsInTime(lim, Tick(lim, c, ats[0], key), ats[1..], c', key, least)
  }

  ghost predicate ReachesInTime(lim: Limits, c: Timed, c': Timed, key: Key, least: nat) {
    exists ats :: IsInTime(lim, c, ats, c', key, least)
  }

  lemma {:induction false} InTimeSnoc(lim: Limits, c: Timed, ats: seq<At>, c': Timed, at: At, key: Key, least: nat)
    requires IsInTime(lim, c, ats, c', key, least) && Goes(lim, c', at, key, least) && InTime(c', at.clock, least)
    ensures IsInTime(lim, c, ats + [at], Tick(lim, c', at, key), key, least)
    decreases |ats|
  {
    hide Enabled, RetryFits, InTime, Apply;
    if ats == [] {
      assert [at][1..] == [] && [] + [at] == [at];
      assert IsInTime(lim, Tick(lim, c, at, key), [at][1..], Tick(lim, c', at, key), key, least);
    } else {
      InTimeSnoc(lim, Tick(lim, c, ats[0], key), ats[1..], c', at, key, least);
      assert (ats + [at])[0] == ats[0] && (ats + [at])[1..] == ats[1..] + [at];
    }
  }

  /** No token in use was taken before `since`. */
  ghost predicate Young(c: Timed, since: Time) {
    && (forall j :: j in c.held ==> since <= c.held[j])
    && (forall t :: t in c.owed ==> since <= c.owed[t])
  }

  /** A state that a run in time reaches, with young tokens. */
  ghost predicate Reached(lim: Limits, c: Timed, since: Time, key: Key) {
    ReachesInTime(lim, Timed(INITIAL, 0, map[], map[]), c, key, 60) && Young(c, since) && c.clock <= since
  }

  lemma TickStaysYoung(lim: Limits, c: Timed, at: At, key: Key, since: Time)
    requires Young(c, since) && since <= at.clock && Enabled(lim, c.m, at.step)
    ensures Young(Tick(lim, c, at, key), since)
  {
    hide Enabled, Apply, Holders, Debts;
  }

  /** One more step at the time `since`. */
  lemma StepAt(lim: Limits, c: Timed, step: Step, since: Time, key: Key) returns (c': Timed)
    requires Reached(lim, c, since, key) && Enabled(lim, c.m, step) && RetryFits(lim, c.m, step)
    requires Now(step).Some? ==> Now(step).value == since
    requires step.Insert? && step.job.key == Some(key) ==> step.job.duration >= 60
    ensures Reached(lim, c', since, key) && c'.m == Apply(lim, c.m, step)
    ensures c'.held.Keys == Holders(c'.m, key) && c'.owed.Keys == Debts(c'.m, key)
  {
    hide Apply, Enabled, RetryFits, IsInTime, Holders, Debts;
    var at := At(since, step);
    c' := Tick(lim, c, at, key);
    var start := Timed(INITIAL, 0, map[], map[]);
    var ats :| IsInTime(lim, start, ats, c, key, 60);
    InTimeSnoc(lim, start, ats, c, at, key, 60);
    TickStaysYoung(lim, c, at, key, since);
  }

  // ----- Enqueueing at one time -----

  /** Enqueueing job `j` took a free token. */
  ghost function WithJob(lim: Limits, db: Db, j: JobId, now: Time, key: Key): Db {
    db.(jobs := db.jobs[j := LimitedJob(key)], ready := db.ready[j := ReadyRow("q", 0)],
        semaphores := db.semaphores[key := Semaphore(FreeIn(lim, db, key) - 1, now + 60)])
  }

  /** Job `j` is being enqueued, and nobody else. */
  ghost function Inserting(m: Machine, j: JobId, key: Key, semaphores: Table, pc: EnqueuePc): Machine {
    m.(db := m.db.(jobs := m.db.jobs[j := LimitedJob(key)], semaphores := semaphores), enqueuing := map[j := pc])
  }

  lemma InsertsAt(lim: Limits, c: Timed, j: JobId, now: Time, key: Key) returns (c': Timed)
    requires Reached(lim, c, now, key) && c.m.enqueuing == map[] && j !in c.m.db.jobs
    ensures Reached(lim, c', now, key) && c'.m == Inserting(c.m, j, key, c.m.db.semaphores, Unplaced)
  {
    hide Reached, Holders, Debts;
    c' := StepAt(lim, c, Insert(j, LimitedJob(key)), now, key);
  }

  lemma ReadsAt(lim: Limits, c: Timed, m: Machine, j: JobId, now: Time, key: Key) returns (c': Timed)
    requires Reached(lim, c, now, key) && c.m == Inserting(m, j, key, m.db.semaphores, Unplaced)
    ensures Reached(lim, c', now, key)
    ensures c'.m == Inserting(m, j, key, m.db.semaphores, EnqueuePc.Waiting(Observe(m.db.semaphores, key)))
  {
    hide Reached, Holders, Debts, Observe;
    c' := StepAt(lim, c, ReadSemaphore(j, now), now, key);
  }

  /** The row of the key with one token less. */
  function TakenAt(lim: Limits, db: Db, now: Time, key: Key): Table {
    OneTaken(Limit(lim, key), db.semaphores, key, now + 60)
  }

  lemma OneStatementTakes(limit: nat, semaphores: Table, key: Key, until: Time)
    requires 1 <= limit && 1 <= Free(limit, semaphores, key)
    ensures var pc := Observe(semaphores, key);
            && pc in {Creating, Decrementing}
            && WaitStatement(limit, semaphores, key, until, pc)
               == Waited(semaphores[key := Semaphore(Free(limit, semaphores, key) - 1, until)], Acquired)
  {
  }

  lemma WaitsAt(lim: Limits, c: Timed, m: Machine, j: JobId, now: Time, key: Key) returns (c': Timed)
    requires Reached(lim, c, now, key) && 1 <= FreeIn(lim, m.db, key)
    requires c.m == Inserting(m, j, key, m.db.semaphores, EnqueuePc.Waiting(Observe(m.db.semaphores, key)))
    ensures Reached(lim, c', now, key)
    ensures c'.m == Inserting(m, j, key, TakenAt(lim, m.db, now, key), EnqueuePc.Waiting(Acquired))
  {
    hide Reached, Holders, Debts, Enabled, RetryFits, DoWaitOn, Inserting;
    MayWait(lim, m, j, now, key);
    TakesIt(lim, m, j, now, key);
    c' := StepAt(lim, c, WaitOn(j, now), now, key);
  }

  lemma MayWait(lim: Limits, m: Machine, j: JobId, now: Time, key: Key)
    requires 1 <= FreeIn(lim, m.db, key)
    ensures var m2 := Inserting(m, j, key, m.db.semaphores, EnqueuePc.Waiting(Observe(m.db.semaphores, key)));
            Enabled(lim, m2, WaitOn(j, now)) && RetryFits(lim, m2, WaitOn(j, now))
  {
  }

  lemma TakesIt(lim: Limits, m: Machine, j: JobId, now: Time, key: Key)
    requires 1 <= FreeIn(lim, m.db, key)
    ensures var m2 := Inserting(m, j, key, m.db.semaphores, EnqueuePc.Waiting(Observe(m.db.semaphores, key)));
            DoWaitOn(lim, m2, j, now)
            == Inserting(m, j, key, TakenAt(lim, m.db, now, key), EnqueuePc.Waiting(Acquired))
  {
    hide Observe, WaitStatement, Free, TakenAt;
    var pc := Observe(m.db.semaphores, key);
    TakenIs(lim, m.db, now, key);
    Overwritten(j, EnqueuePc.Waiting(pc), EnqueuePc.Waiting(Acquired));
  }

  lemma Overwritten(j: JobId, a: EnqueuePc, b: EnqueuePc)
    ensures map[j := a][j := b] == map[j := b]
  {
  }

  lemma TakenIs(lim: Limits, db: Db, now: Time, key: Key)
    requires 1 <= FreeIn(lim, db, key)
    ensures WaitStatement(Limit(lim, key), db.semaphores, key, now + 60, Observe(db.semaphores, key))
            == Waited(TakenAt(lim, db, now, key), Acquired)
  {
    hide Observe, WaitStatement;
    OneStatementTakes(Limit(lim, key), db.semaphores, key, now + 60);
  }

  lemma PlacesAt(lim: Limits, c: Timed, m: Machine, j: JobId, now: Time, key: Key) returns (c': Timed)
    requires Reached(lim, c, now, key) && j !in m.db.ready && m.enqueuing == map[]
    requires c.m == Inserting(m, j, key, TakenAt(lim, m.db, now, key), EnqueuePc.Waiting(Acquired))
    ensures Reached(lim, c', now, key) && c'.m == m.(db := WithJob(lim, m.db, j, now, key))
  {
    hide Reached, Holders, Debts, TakenAt, WithJob, Inserting, DoPlace, MakeReady;
    PlacesIt(lim, m, j, now, key);
    c' := StepAt(lim, c, Step.PlaceReady(j), now, key);
  }

  lemma PlacesIt(lim: Limits, m: Machine, j: JobId, now: Time, key: Key)
    requires j !in m.db.ready && m.enqueuing == map[]
    ensures var m3 := Inserting(m, j, key, TakenAt(lim, m.db, now, key), EnqueuePc.Waiting(Acquired));
            && j in m3.enqueuing && m3.enqueuing[j] == EnqueuePc.Waiting(Acquired) && j in m3.db.jobs
            && DoPlace(m3, j, MakeReady(m3.db, j)) == m.(db := WithJob(lim, m.db, j, now, key))
  {
    hide Free;
    assert map[j := EnqueuePc.Waiting(Acquired)] - {j} == map[];
  }

  lemma EnqueuesAt(lim: Limits, c: Timed, j: JobId, now: Time, key: Key) returns (c': Timed)
    requires Reached(lim, c, now, key) && c.m.enqueuing == map[]
    requires j !in c.m.db.jobs && j !in c.m.db.ready && 1 <= FreeIn(lim, c.m.db, key)
    ensures Reached(lim, c', now, key) && c'.m == c.m.(db := WithJob(lim, c.m.db, j, now, key))
  {
    hide *;
    var c1 := InsertsAt(lim, c, j, now, key);
    var c2 := ReadsAt(lim, c1, c.m, j, now, key);
    var c3 := WaitsAt(lim, c2, c.m, j, now, key);
    c' := PlacesAt(lim, c3, c.m, j, now, key);
  }

  lemma RunningMore(lim: Limits, db: Db, j: JobId, now: Time, key: Key)
    requires j !in db.jobs
    ensures |Running(WithJob(lim, db, j, now, key), key)| == |Running(db, key)| + 1
  {
    assert Running(WithJob(lim, db, j, now, key), key) == Running(db, key) + {j};
  }

  /** Nothing but ready rows, and none for a job from `n` on. */
  ghost predicate RoomFrom(m: Machine, n: nat) {
    m.enqueuing == map[] && forall j: nat :: j >= n ==> j !in m.db.jobs && j !in m.db.ready
  }

  lemma {:induction false} FillsAt(lim: Limits, c: Timed, n: nat, k: nat, now: Time, key: Key) returns (c': Timed)
    requires Reached(lim, c, now, key) && RoomFrom(c.m, n) && k <= FreeIn(lim, c.m.db, key)
    ensures Reached(lim, c', now, key) && |Running(c'.m.db, key)| == |Running(c.m.db, key)| + k
    decreases k
  {
    hide Reached, Running;
    if k == 0 {
      c' := c;
    } else {
      var mid := EnqueuesAt(lim, c, n, now, key);
      RunningMore(lim, c.m.db, n, now, key);
      c' := FillsAt(lim, mid, n + 1, k - 1, now, key);
    }
  }

  // ----- A semaphore that was used and is free again -----

  /** Job 0 was enqueued, claimed and finished at time 0, and its token came back. */
  ghost function UsedOnce(lim: Limits, key: Key): Machine {
    Idle(EMPTY.(jobs := map[0 := LimitedJob(key).(finishedAt := Some(0))],
                semaphores := map[key := Semaphore(Limit(lim, key), 60)], processes := map[0 := WORKER]))
  }

  lemma FirstRegisters(lim: Limits, key: Key) returns (c: Timed)
    ensures Reached(lim, c, 0, key) && c.m == Start()
  {
    var start := Timed(INITIAL, 0, map[], map[]);
    assert IsInTime(lim, start, [], start, key, 60);
    assert Reached(lim, start, 0, key);
    hide Reached, Holders, Debts;
    c := StepAt(lim, start, Register(0, WORKER), 0, key);
    assert c.m == Start();
  }

  /** Job 0 in the ready table, the only one there. */
  ghost function FirstReady(lim: Limits, key: Key): Db {
    EMPTY.(jobs := map[0 := LimitedJob(key)], ready := map[0 := ReadyRow("q", 0)],
           semaphores := map[key := Semaphore(Limit(lim, key) - 1, 60)], processes := map[0 := WORKER])
  }

  lemma FirstEnqueued(lim: Limits, key: Key) returns (c: Timed)
    ensures Reached(lim, c, 0, key) && c.m == Idle(FirstReady(lim, key))
  {
    hide Reached;
    var c0 := FirstRegisters(lim, key);
    c := EnqueuesAt(lim, c0, 0, 0, key);
    assert c.m == Idle(FirstReady(lim, key));
  }

  lemma FirstClaimed(lim: Limits, key: Key) returns (c: Timed)
    ensures Reached(lim, c, 0, key)
    ensures c.m == Idle(FirstReady(lim, key).(ready := map[], claimed := map[0 := Some(0)]))
  {
    hide Reached, Holders, Debts, ClaimRows, FirstReady;
    var c2 := FirstLocked(lim, key);
    ClaimsFirst(lim, key);
    c := StepAt(lim, c2, CommitClaim(0), 0, key);
    assert c2.m.claiming - {0} == map[];
  }

  lemma ClaimsFirst(lim: Limits, key: Key)
    ensures var db := FirstReady(lim, key);
            ClaimRows(db, {0}, 0) == db.(ready := map[], claimed := map[0 := Some(0)])
  {
  }

  lemma FirstLocked(lim: Limits, key: Key) returns (c: Timed)
    ensures Reached(lim, c, 0, key) && c.m == Idle(FirstReady(lim, key)).(claiming := map[0 := Claim(0, {0})])
  {
    hide Reached, Holders, Debts;
    var c1 := FirstEnqueued(lim, key);
    c := StepAt(lim, c1, LockReady(0, 0, {0}), 0, key);
  }

  lemma FirstEnds(lim: Limits, key: Key) returns (c: Timed)
    ensures Reached(lim, c, 0, key) && c.m == UsedOnce(lim, key)
    ensures c.held.Keys == Holders(c.m, key) && c.owed.Keys == Debts(c.m, key)
  {
    hide Reached, Holders, Debts;
    var c1 := FirstClaimed(lim, key);
    var c2 := StepAt(lim, c1, Step.Finish(0, 0, 0), 0, key);
    FinishesFirst(lim, c1.m, key);
    c := SignalsAndLooks(lim, c2, UsedOnce(lim, key), key);
  }

  /** The thread that ended the job returns its token and finds nobody waiting. */
  lemma SignalsAndLooks(lim: Limits, c: Timed, m: Machine, key: Key) returns (c': Timed)
    requires Reached(lim, c, 0, key) && c.m == Settling(m, c.m.db, map[0 := Owes(key, 60)])
    requires key in c.m.db.semaphores && c.m.db.semaphores[key].value <= Limit(lim, key) && c.m.db.blocked == map[]
    requires m == m.(db := OneBack(c.m.db, key), settling := map[])
    ensures Reached(lim, c', 0, key) && c'.m == m
    ensures c'.held.Keys == Holders(c'.m, key) && c'.owed.Keys == Debts(c'.m, key)
  {
    hide Reached, Holders, Debts, DoSignalKey, DoLockBlocked;
    SignalsOne(lim, m, c.m.db, key);
    var c1 := StepAt(lim, c, SignalKey(0, 0), 0, key);
    FindsNobody(m, OneBack(c.m.db, key), key);
    c' := StepAt(lim, c1, LockBlocked(0), 0, key);
  }

  lemma FinishesFirst(lim: Limits, m: Machine, key: Key)
    requires m == Idle(FirstReady(lim, key).(ready := map[], claimed := map[0 := Some(0)]))
    ensures var m2 := DoFinish(m, 0, 0, 0);
            && m2 == Settling(UsedOnce(lim, key), m2.db, map[0 := Owes(key, 60)])
            && OneBack(m2.db, key) == UsedOnce(lim, key).db
  {
  }

  // ----- The stale deletion -----

  lemma NobodyHolds(lim: Limits, key: Key)
    ensures Holders(UsedOnce(lim, key), key) == {} && Debts(UsedOnce(lim, key), key) == {}
  {
  }

  lemma FreeAgain(lim: Limits, key: Key) returns (c: Timed)
    ensures Reached(lim, c, 60, key) && c.m == UsedOnce(lim, key)
  {
    hide ReachesInTime, UsedOnce;
    c := FirstEnds(lim, key);
    NobodyHolds(lim, key);
  }

  /** Maintenance finds the row expired, job 1 takes a token of it, and the row is deleted. */
  lemma DeletedLate(lim: Limits, key: Key) returns (c: Timed)
    ensures Reached(lim, c, 60, key) && RoomFrom(c.m, 2)
    ensures |Running(c.m.db, key)| == 1 && FreeIn(lim, c.m.db, key) == Limit(lim, key)
  {
    hide Reached, Holders, Debts, Running, WithJob;
    var c2 := FoundExpired(lim, key);
    var c3 := EnqueuesAt(lim, c2, 1, 60, key);
    RunningMore(lim, c2.m.db, 1, 60, key);
    NothingRuns(lim, key);
    RowOfJob(lim, c2.m.db, key);
    c := StepAt(lim, c3, Expire(key), 60, key);
    SameRunning(c3.m.db, c.m.db, key);
  }

  lemma FoundExpired(lim: Limits, key: Key) returns (c: Timed)
    ensures Reached(lim, c, 60, key) && c.m == UsedOnce(lim, key).(expiring := {key})
  {
    hide Reached, Holders, Debts;
    var c1 := FreeAgain(lim, key);
    c := StepAt(lim, c1, FindExpired(key, 60), 60, key);
    assert {} + {key} == {key};
  }

  lemma RowOfJob(lim: Limits, db: Db, key: Key)
    requires db == UsedOnce(lim, key).db
    ensures var r := WithJob(lim, db, 1, 60, key);
            && key in r.semaphores && r == db.(jobs := r.jobs, ready := r.ready, semaphores := r.semaphores)
            && forall j: nat :: j >= 2 ==> j !in r.jobs && j !in r.ready
  {
  }

  lemma SameRunning(db: Db, r: Db, key: Key)
    requires r.jobs == db.jobs && r.ready == db.ready && r.claimed == db.claimed
    ensures Running(r, key) == Running(db, key)
  {
  }

  lemma NothingRuns(lim: Limits, key: Key)
    ensures Running(UsedOnce(lim, key).db, key) == {}
  {
  }

  /** For every limit: in a run in which no token of the key is ever out for its duration, one
      more job than the limit comes to run, because maintenance deletes a semaphore that was
      used again after it was read as expired. */
  lemma StaleDeletionOvershoots(lim: Limits, key: Key)
    ensures exists c :: ReachesInTime(lim, Timed(INITIAL, 0, map[], map[]), c, key, 60)
                        && |Running(c.m.db, key)| == Limit(lim, key) + 1
  {
    hide ReachesInTime, Running, RoomFrom;
    var c := DeletedLate(lim, key);
    var c' := FillsAt(lim, c, 2, Limit(lim, key), 60, key);
  }
}
