/** What becomes of a job that a bulk retry left both blocked and failed.

    Once it is promoted it is ready and still failed, and retrying it again takes a second
    token for its one ready row. */
module StrandedRetries {
  import opened Tables
  import opened Ordering
  import opened Semaphores
  import opened Executables
  import opened BlockedExecutions
  import opened ClaimedExecutions
  import opened Dispatching
  import opened Protocol
  import opened Lifecycle
  import opened Tokens
  import opened Runs
  import opened Operations

  lemma SameRowsSameHolders(m: Machine, m': Machine, key: Key)
    requires m'.db.jobs == m.db.jobs && m'.db.ready == m.db.ready && m'.db.claimed == m.db.claimed
    requires m'.enqueuing == m.enqueuing
    ensures Holders(m', key) == Holders(m, key)
  {
    SameHolders(m, m', key);
  }

  /** The job has a ready row already, so dispatching it keeps that row. */
  lemma ReadyStaysReady(lim: Limits, db: Db, j: JobId, now: Time, key: Key)
    requires j in db.jobs && db.jobs[j].key == Some(key) && j in db.ready && IsDue(db.jobs[j], now)
    ensures var r := RetryFailed(lim, db, j, now, Seen(db, j)); var free := Free(Limit(lim, key), db.semaphores, key);
            && r.jobs == db.jobs && r.ready == db.ready && r.claimed == db.claimed && j !in r.failed
            && Free(Limit(lim, key), r.semaphores, key) == free - One(1 <= free)
  {
    hide AcquireLock;
    LockOutcome(lim, db, j, now);
  }

  /** A job that is ready and still failed, retried on its own, keeps its one ready row but
      takes another token if there is one: that token is lost, and the tokens of the key stay
      accounted for exactly if none was free. */
  lemma SecondTokenTaken(lim: Limits, m: Machine, j: JobId, now: Time, key: Key)
    requires j in m.db.jobs && m.db.jobs[j].key == Some(key) && j in m.db.ready && j in m.db.failed
    requires IsDue(m.db.jobs[j], now) && Conserved(lim, m, key)
    ensures var m' := DoRetry(lim, m, j, now, Seen(m.db, j)); var free := FreeTokens(lim, m, key);
            && m'.db.ready == m.db.ready && j !in m'.db.failed
            && Total(lim, m', key) == Limit(lim, key) - One(1 <= free)
            && (Conserved(lim, m', key) <==> free <= 0)
  {
    hide RetryFailed, Holders, Debts, Free;
    var m' := DoRetry(lim, m, j, now, Seen(m.db, j));
    ReadyStaysReady(lim, m.db, j, now, key);
    SameRowsSameHolders(m, m', key);
    SameDebts(m, m', key);
  }

  // ----- A run to such a job -----

  const TWO: Limits := map[7 := 2]
  const PLAIN: Job := Job(Some(7), 60, "default", 0, None, None)
  const DONE: Job := Job(Some(7), 60, "default", 0, None, Some(0))

  /** With a limit of two, jobs 1 and 3 run and job 2 has failed. */
  const BUSY: Db :=
    EMPTY.(jobs := map[1 := PLAIN, 2 := PLAIN, 3 := PLAIN], failed := map[2 := "error"],
           claimed := map[1 := Some(0), 3 := Some(0)], semaphores := map[7 := Semaphore(0, 60)],
           processes := map[0 := Process(Worker, "worker", None, 0)])

  /** Job 2 was retried in bulk: it is blocked and failed. */
  const STRANDED: Db := BUSY.(blocked := map[2 := BlockedRow(7, "", 0, 60)])

  /** Job 1 ended, and job 2 was promoted: it is ready and failed. */
  const PROMOTED: Db :=
    BUSY.(jobs := map[1 := DONE, 2 := PLAIN, 3 := PLAIN], claimed := map[3 := Some(0)],
          ready := map[2 := ReadyRow("", 0)])

  /** Job 3 ended too. */
  const ALONE: Db :=
    PROMOTED.(jobs := map[1 := DONE, 2 := PLAIN, 3 := DONE], claimed := map[], semaphores := map[7 := Semaphore(1, 60)])

  lemma BusyIsSane()
    ensures Sane(TWO, BUSY)
  {
    var m := Idle(BUSY);
    forall key ensures Conserved(TWO, m, key) {
      assert Debts(m, key) == {};
      assert Holders(m, key) == if key == 7 then {1, 3} else {};
    }
    assert OnePlace(m);
  }

  lemma RetriedInBulk()
    ensures RetryInBulk(TWO, BUSY, 2, 0, Seen(BUSY, 2)) == STRANDED
  {
  }

  /** Job 1 ended and its token is back. */
  const SIGNALLED: Db :=
    STRANDED.(jobs := map[1 := DONE, 2 := PLAIN, 3 := PLAIN], claimed := map[3 := Some(0)],
              semaphores := map[7 := Semaphore(1, 60)])

  lemma SecondIsReleased()
    ensures ReleaseOne(TWO, SIGNALLED, 7, 0).db == PROMOTED
  {
    assert IsNext(SIGNALLED.blocked, 7, {}, 2);
    NextUnique(SIGNALLED.blocked, 7, {}, 2, Next(SIGNALLED.blocked, 7, {}).value);
    assert Release(TWO, SIGNALLED, 2, 0, Seen(SIGNALLED, 2)).db == PROMOTED;
  }

  lemma FirstEnds()
    ensures FinishAndUnblock(TWO, STRANDED, 1, 0) == PROMOTED
  {
    hide ReleaseOne;
    var ended := FinishClaim(STRANDED, 1, 0);
    assert ended == STRANDED.(jobs := map[1 := DONE, 2 := PLAIN, 3 := PLAIN], claimed := map[3 := Some(0)]);
    var signalled := Signal(2, ended.semaphores, 7, 60);
    assert signalled.ok && signalled.semaphores == map[7 := Semaphore(1, 60)];
    assert SIGNALLED == ended.(semaphores := signalled.semaphores);
    SecondIsReleased();
  }

  lemma SecondEnds()
    ensures FinishAndUnblock(TWO, PROMOTED, 3, 0) == ALONE
  {
    var ended := FinishClaim(PROMOTED, 3, 0);
    assert ended == PROMOTED.(jobs := map[1 := DONE, 2 := PLAIN, 3 := DONE], claimed := map[]);
    assert Next(map[], 7, {}).None?;
  }

  lemma AloneIsConserved()
    ensures Conserved(TWO, Idle(ALONE), 7)
  {
    var m := Idle(ALONE);
    assert Debts(m, 7) == {};
    assert Holders(m, 7) == {2};
  }

  /** Starting from sane tables: a bulk retry that does not fit, the ends of the two running
      jobs, and a single retry. Only job 2 is left, ready in its one row, and one of the two
      tokens is gone although nobody holds or owes it. */
  lemma RetriedTwice()
    ensures Sane(TWO, BUSY)
    ensures var blocked := RetryInBulk(TWO, BUSY, 2, 0, Seen(BUSY, 2));
            && blocked.blocked.Keys <= blocked.jobs.Keys && blocked.jobs == BUSY.jobs
            && 2 in blocked.blocked && 2 in blocked.failed
            && var promoted := FinishAndUnblock(TWO, blocked, 1, 0);
            && promoted.blocked.Keys <= promoted.jobs.Keys && 3 in promoted.jobs
            && 2 in promoted.ready && 2 in promoted.failed
            && var alone := FinishAndUnblock(TWO, promoted, 3, 0);
            && 2 in alone.jobs
            && var after := RetryFailed(TWO, alone, 2, 0, Seen(alone, 2));
            && after.ready.Keys == {2} && after.claimed == map[] && after.blocked == map[]
            && Free(2, after.semaphores, 7) == 0 && Total(TWO, Idle(after), 7) == 1
  {
    hide FinishAndUnblock, RetryInBulk, RetryFailed, Sane, Total, Conserved;
    BusyIsSane();
    RetriedInBulk();
    FirstEnds();
    SecondEnds();
    AloneIsConserved();
    SecondTokenTaken(TWO, Idle(ALONE), 2, 0, 7);
    LastRetry();
  }

  lemma LastRetry()
    ensures var after := RetryFailed(TWO, ALONE, 2, 0, Seen(ALONE, 2));
            && after.ready.Keys == {2} && after.claimed == map[] && after.blocked == map[]
            && Free(2, after.semaphores, 7) == 0
            && Idle(after) == DoRetry(TWO, Idle(ALONE), 2, 0, Seen(ALONE, 2))
  {
  }
}
