/** Retrying failed jobs, one at a time and in bulk.

    A bulk retry looks for blocked jobs in the scheduled table, so a job that it blocks
    keeps its failed row. Whether that happens can be told before the call: it happens
    exactly if some key has more jobs in the batch than free tokens. */
module FailedExecutions {
  import opened Tables
  import opened Semaphores
  import opened Executables
  import opened Dispatching
  import opened Lifecycle
  import opened Tokens
  import opened Runs
  import opened Operations
  import S = ScheduledExecutions

  /** What a bulk retry of the failed jobs `ids` leaves. */
  ghost function Retried(lim: Limits, db: Db, order: seq<JobId>, ids: set<JobId>, now: Time): Db
    requires AllKnown(db, order)
  {
    var placed := PlaceEach(lim, db, order, now);
    placed.(failed := db.failed - SuccessfullyDispatched(placed, ids))
  }

  /** The jobs of a batch that need a token of the key. */
  ghost function OfKey(jobs: map<JobId, Job>, ids: set<JobId>, key: Key): set<JobId> {
    set j | j in ids && j in jobs && jobs[j].key == Some(key)
  }

  /** Every key has a free token for each of its jobs in the batch. */
  ghost predicate Fits(lim: Limits, db: Db, ids: set<JobId>) {
    forall key :: FitsKey(lim, db, ids, key)
  }

  ghost predicate FitsKey(lim: Limits, db: Db, ids: set<JobId>, key: Key) {
    |OfKey(db.jobs, ids, key)| <= Free(Limit(lim, key), db.semaphores, key)
  }

  ghost predicate AllReady(db: Db, ids: set<JobId>) {
    forall i :: i in ids ==> i in db.ready
  }

  ghost predicate Spent(lim: Limits, db: Db, r: Db, ids: set<JobId>) {
    forall key :: SpentKey(lim, db, r, ids, key)
  }

  ghost predicate SpentKey(lim: Limits, db: Db, r: Db, ids: set<JobId>, key: Key) {
    Free(Limit(lim, key), r.semaphores, key) == Free(Limit(lim, key), db.semaphores, key) - |OfKey(db.jobs, ids, key)|
  }

  lemma OfKeyMore(jobs: map<JobId, Job>, ids: set<JobId>, j: JobId, key: Key)
    requires j in ids && j in jobs
    ensures |OfKey(jobs, ids, key)| == |OfKey(jobs, ids - {j}, key)| + One(jobs[j].key == Some(key))
  {
    if jobs[j].key == Some(key) {
      assert OfKey(jobs, ids, key) == OfKey(jobs, ids - {j}, key) + {j};
    } else {
      assert OfKey(jobs, ids, key) == OfKey(jobs, ids - {j}, key);
    }
  }

  /** A single retry prepares the job like a new one and deletes its failed row. */
  lemma RetryOutcome(lim: Limits, db: Db, j: JobId, now: Time)
    requires Sane(lim, db) && j in db.failed && j in db.jobs
    ensures var r := RetryFailed(lim, db, j, now, Seen(db, j));
            && r.failed == db.failed - {j} && Prepared(lim, db, r.(failed := db.failed), j, now)
            && PlacedByDate(db, r, j, now)
  {
    hide Prepared, PlacedByDate, Prepare, RetryFailed, Sane;
    FailedHasNoRow(lim, db, j);
    PrepareOutcome(lim, db, j, now);
    DateDecides(lim, db, j, now);
    RetryIsPrepare(lim, db, j, now);
    DateAside(db, Prepare(lim, db, j, now), db.failed - {j}, j, now);
  }

  lemma FailedHasNoRow(lim: Limits, db: Db, j: JobId)
    requires Sane(lim, db) && j in db.failed && j in db.jobs
    ensures HasNoRow(db, j)
  {
    assert Placed(Idle(db), j);
  }

  lemma RetryIsPrepare(lim: Limits, db: Db, j: JobId, now: Time)
    requires j in db.jobs
    ensures var r := RetryFailed(lim, db, j, now, Seen(db, j));
            && r == Prepare(lim, db, j, now).(failed := db.failed - {j})
            && r.(failed := db.failed) == Prepare(lim, db, j, now)
  {
    hide DispatchFrom, Paid, Moves, Free, MakeReady, MakeBlocked;
    FailedStays(lim, db, j, now);
    if IsDue(db.jobs[j], now) {
      assert Prepare(lim, db, j, now) == DispatchFrom(lim, db, j, now, Seen(db, j));
    } else {
      assert Prepare(lim, db, j, now) == MakeScheduled(db, j);
    }
  }

  lemma FailedStays(lim: Limits, db: Db, j: JobId, now: Time)
    requires j in db.jobs
    ensures Prepare(lim, db, j, now).failed == db.failed
  {
  }

  lemma DateAside(db: Db, r: Db, failed: map<JobId, string>, j: JobId, now: Time)
    requires j in db.jobs && PlacedByDate(db, r, j, now)
    ensures PlacedByDate(db, r.(failed := failed), j, now)
  {
  }

  // ----- Which jobs of a batch become ready -----

  /** The protocol's step is a bulk retry of one job. */
  lemma OneIsRetryInBulk(lim: Limits, db: Db, j: JobId, now: Time)
    requires j in db.jobs && j in db.failed && AllKnown(db, [j])
    ensures RetryInBulk(lim, db, j, now, Seen(db, j)) == Retried(lim, db, [j], {j}, now)
  {
    var placed := Dispatch(lim, db, j, now);
    assert [j][..0] == [];
    assert PlaceEach(lim, db, [], now) == db && PlaceEach(lim, db, [j], now) == placed;
    assert SuccessfullyDispatched(placed, {j}) == if j in placed.ready || j in placed.scheduled then {j} else {};
    assert db.failed - {} == db.failed;
  }

  lemma DispatchSpends(lim: Limits, db: Db, j: JobId, now: Time, key: Key)
    requires j in db.jobs && j !in db.ready && j in Dispatch(lim, db, j, now).ready
    ensures Free(Limit(lim, key), Dispatch(lim, db, j, now).semaphores, key)
            == Free(Limit(lim, key), db.semaphores, key) - One(db.jobs[j].key == Some(key))
  {
    DispatchIs(lim, db, j, now);
  }

  /** Where a batch stands: its jobs are placed and all are ready if and only if they fit. */
  ghost predicate Stands(lim: Limits, db: Db, placed: Db, ids: set<JobId>, now: Time) {
    && S.MovesOn(db, placed, ids, now)
    && (AllReady(placed, ids) <==> Fits(lim, db, ids))
    && (AllReady(placed, ids) ==> Spent(lim, db, placed, ids))
  }

  lemma NothingStands(lim: Limits, db: Db, now: Time)
    requires Sane(lim, db)
    ensures Stands(lim, db, db, {}, now)
  {
    assert db.scheduled - {} == db.scheduled;
    forall key ensures FitsKey(lim, db, {}, key) && SpentKey(lim, db, db, {}, key) {
      assert OfKey(db.jobs, {}, key) == {};
      assert Conserved(lim, Idle(db), key);
    }
  }

  lemma FitsMore(lim: Limits, db: Db, mid: Db, ids: set<JobId>, j: JobId)
    requires j in ids && j in db.jobs && mid.jobs == db.jobs && Fits(lim, db, ids - {j})
             && Spent(lim, db, mid, ids - {j})
    ensures Fits(lim, db, ids) <==>
            match db.jobs[j].key case None => true case Some(k) => 1 <= Free(Limit(lim, k), mid.semaphores, k)
  {
    if db.jobs[j].key.Some? {
      var k := db.jobs[j].key.value;
      OfKeyMore(db.jobs, ids, j, k);
      assert SpentKey(lim, db, mid, ids - {j}, k);
      assert FitsKey(lim, db, ids, k) <==> 1 <= Free(Limit(lim, k), mid.semaphores, k);
    }
    forall key | db.jobs[j].key != Some(key) ensures FitsKey(lim, db, ids, key) {
      OfKeyMore(db.jobs, ids, j, key);
      assert FitsKey(lim, db, ids - {j}, key);
    }
  }

  lemma FitsLess(lim: Limits, db: Db, ids: set<JobId>, j: JobId)
    requires j in ids && j in db.jobs && Fits(lim, db, ids)
    ensures Fits(lim, db, ids - {j})
  {
    forall key ensures FitsKey(lim, db, ids - {j}, key) {
      OfKeyMore(db.jobs, ids, j, key);
      assert FitsKey(lim, db, ids, key);
    }
  }

  lemma SpentMore(lim: Limits, db: Db, mid: Db, r: Db, ids: set<JobId>, j: JobId, now: Time)
    requires j in ids && j in db.jobs && mid.jobs == db.jobs && j !in mid.ready && Spent(lim, db, mid, ids - {j})
    requires r == Dispatch(lim, mid, j, now) && j in r.ready
    ensures Spent(lim, db, r, ids)
  {
    forall key ensures SpentKey(lim, db, r, ids, key) {
      OfKeyMore(db.jobs, ids, j, key);
      assert SpentKey(lim, db, mid, ids - {j}, key);
      DispatchSpends(lim, mid, j, now, key);
    }
  }

  /** A failed job has no other row, and its dispatch is the only thing that happens to it. */
  lemma FailedMovesOn(lim: Limits, db: Db, mid: Db, ids: set<JobId>, j: JobId, now: Time)
    requires Sane(lim, db) && S.MovesOn(db, mid, ids - {j}, now) && j in ids && j in db.failed
    ensures j in db.jobs && mid.jobs == db.jobs && j !in mid.ready
    ensures S.MovesOn(db, Dispatch(lim, mid, j, now), ids, now)
    ensures forall i :: i in ids - {j} ==> (i in Dispatch(lim, mid, j, now).ready <==> i in mid.ready)
  {
    hide Conserved, KeysMatch, LocksHeld, Owned;
    assert Placed(Idle(db), j);
    assert Untouched(db, mid, j);
    var r := Dispatch(lim, mid, j, now);
    FailedDispatch(lim, mid, j, now);
    S.MovesOnThen(db, mid, r, ids - {j}, {j}, now);
    assert ids - {j} + {j} == ids;
  }

  lemma FailedDispatch(lim: Limits, db: Db, j: JobId, now: Time)
    requires j in db.jobs && j !in db.ready && j !in db.blocked && j !in db.scheduled
    ensures S.MovesOn(db, Dispatch(lim, db, j, now), {j}, now)
  {
    assert db.scheduled - {j} == db.scheduled;
    var placed := DispatchFrom(lim, db, j, now, Seen(db, j));
    if placed == MakeReady(db.(semaphores := placed.semaphores), j) {
      S.ReadyMovesOn(db, j, placed.semaphores, now);
    } else {
      S.BlockMovesOn(db, j, now);
    }
  }

  lemma StandsMore(lim: Limits, db: Db, mid: Db, ids: set<JobId>, j: JobId, now: Time)
    requires Sane(lim, db) && Stands(lim, db, mid, ids - {j}, now) && j in ids && j in db.failed && j in mid.jobs
    ensures Stands(lim, db, Dispatch(lim, mid, j, now), ids, now)
  {
    var r := Dispatch(lim, mid, j, now);
    FailedMovesOn(lim, db, mid, ids, j, now);
    DispatchOutcome(lim, mid, j, now);
    if Fits(lim, db, ids - {j}) {
      FitsMore(lim, db, mid, ids, j);
      if j in r.ready {
        SpentMore(lim, db, mid, r, ids, j, now);
      }
    } else if Fits(lim, db, ids) {
      FitsLess(lim, db, ids, j);
    }
  }

  lemma {:induction false} AllStand(lim: Limits, db: Db, order: seq<JobId>, ids: set<JobId>, now: Time)
    requires Sane(lim, db) && Enumerates(order, ids) && AllKnown(db, order) && ids <= db.failed.Keys
    ensures Stands(lim, db, PlaceEach(lim, db, order, now), ids, now)
    decreases |order|
  {
    hide Stands, Dispatch, Sane;
    if order == [] {
      assert ids == {};
      NothingStands(lim, db, now);
    } else {
      var last := |order| - 1;
      var init, j := order[..last], order[last];
      S.InitEnumerates(order, ids);
      InitKnown(db, order);
      AllStand(lim, db, init, ids - {j}, now);
      assert order == init + [j];
      PlaceOneMore(lim, db, init, j, now);
      StandsMore(lim, db, PlaceEach(lim, db, init, now), ids, j, now);
    }
  }

  /** After a bulk retry of failed jobs, every one of them is in exactly one place if and
      only if, for each key, the batch has no more jobs of the key than the key has free
      tokens; a job that does not become ready is blocked and failed at the same time. */
  lemma BulkRetryKeepsPlaces(lim: Limits, db: Db, order: seq<JobId>, ids: set<JobId>, now: Time)
    requires Sane(lim, db) && Enumerates(order, ids) && AllKnown(db, order) && ids <= db.failed.Keys
    ensures var r := Retried(lim, db, order, ids, now);
            && ((forall j :: j in ids ==> InOnePlace(r, j)) <==> Fits(lim, db, ids))
            && (forall j :: j in ids && j !in r.ready ==> j in r.blocked && j in r.failed)
            && S.MovesOn(db, r.(failed := db.failed), ids, now)
            && (forall i :: i in r.failed <==> i in db.failed && (i in ids ==> i !in r.ready))
            && (forall i :: i in r.failed ==> r.failed[i] == db.failed[i])
  {
    var placed, r := PlaceEach(lim, db, order, now), Retried(lim, db, order, ids, now);
    AllStand(lim, db, order, ids, now);
    forall j | j in ids
      ensures InOnePlace(r, j) <==> j in placed.ready
      ensures j !in r.ready ==> j in r.blocked && j in r.failed
    {
      RetriedPlaces(lim, db, placed, ids, j, now);
    }
    assert r.(failed := db.failed) == placed;
  }

  lemma RetriedPlaces(lim: Limits, db: Db, placed: Db, ids: set<JobId>, j: JobId, now: Time)
    requires Sane(lim, db) && S.MovesOn(db, placed, ids, now) && j in ids && ids <= db.failed.Keys
    ensures var r := placed.(failed := db.failed - SuccessfullyDispatched(placed, ids));
            (InOnePlace(r, j) <==> j in placed.ready) && (j !in r.ready ==> j in r.blocked && j in r.failed)
  {
    assert Placed(Idle(db), j);
    assert PlacedAnew(db.jobs[j], placed, j, now);
  }

  // ----- A batch that fits -----

  lemma RetryThenDelete(lim: Limits, placed: Db, failed: map<JobId, string>, j: JobId, now: Time)
    requires j in placed.jobs && j in Dispatch(lim, placed, j, now).ready
    ensures var mid := placed.(failed := failed);
            && j in Dispatch(lim, mid, j, now).ready
            && RetryInBulk(lim, mid, j, now, Seen(mid, j)) == Dispatch(lim, placed, j, now).(failed := failed - {j})
  {
    var mid := placed.(failed := failed);
    DispatchIgnores(lim, placed, placed.scheduled, failed, j, now);
    var after := Dispatch(lim, mid, j, now);
    assert after == Dispatch(lim, placed, j, now).(failed := failed);
    assert RetryInBulk(lim, mid, j, now, Seen(mid, j)) == after.(failed := after.failed - {j});
  }

  lemma RetryKeepsSane(lim: Limits, db: Db, j: JobId, now: Time)
    requires Sane(lim, db) && j in db.failed && j in db.jobs && j in Dispatch(lim, db, j, now).ready
    ensures Sane(lim, RetryInBulk(lim, db, j, now, Seen(db, j)))
  {
    BulkRetryRuns(lim, Idle(db), j, now, Seen(db, j));
    RunKeepsSane(lim, db, RetryInBulk(lim, db, j, now, Seen(db, j)));
  }

  lemma SaneOneMore(lim: Limits, db: Db, placed: Db, ids: set<JobId>, j: JobId, now: Time)
    requires j in db.failed && j in ids && j in placed.jobs && j in Dispatch(lim, placed, j, now).ready
    requires Sane(lim, placed.(failed := db.failed - (ids - {j})))
    ensures Sane(lim, Dispatch(lim, placed, j, now).(failed := db.failed - ids))
  {
    var mid := placed.(failed := db.failed - (ids - {j}));
    RetryThenDelete(lim, placed, mid.failed, j, now);
    RetryKeepsSane(lim, mid, j, now);
    assert mid.failed - {j} == db.failed - ids;
  }

  lemma {:induction false} ReadyBatchIsSane(lim: Limits, db: Db, order: seq<JobId>, ids: set<JobId>, now: Time)
    requires Sane(lim, db) && Enumerates(order, ids) && AllKnown(db, order) && ids <= db.failed.Keys
    requires AllReady(PlaceEach(lim, db, order, now), ids)
    ensures Sane(lim, PlaceEach(lim, db, order, now).(failed := db.failed - ids))
    decreases |order|
  {
    if order == [] {
      assert ids == {} && db.failed - {} == db.failed;
    } else {
      var last := |order| - 1;
      var init, j := order[..last], order[last];
      S.InitEnumerates(order, ids);
      InitKnown(db, order);
      var mid := PlaceEach(lim, db, init, now);
      AllStand(lim, db, init, ids - {j}, now);
      assert PlaceEach(lim, db, order, now) == Dispatch(lim, mid, j, now);
      FailedMovesOn(lim, db, mid, ids, j, now);
      ReadyBatchIsSane(lim, db, init, ids - {j}, now);
      SaneOneMore(lim, db, mid, ids, j, now);
    }
  }

  /** A bulk retry that fits deletes the failed rows of exactly its jobs, makes all of them
      ready, and keeps every token accounted for. */
  lemma FittingRetryIsSane(lim: Limits, db: Db, order: seq<JobId>, ids: set<JobId>, now: Time)
    requires Sane(lim, db) && Enumerates(order, ids) && AllKnown(db, order) && ids <= db.failed.Keys
             && Fits(lim, db, ids)
    ensures var r := Retried(lim, db, order, ids, now);
            AllReady(r, ids) && r.failed == db.failed - ids && Sane(lim, r)
  {
    AllStand(lim, db, order, ids, now);
    ReadyBatchIsSane(lim, db, order, ids, now);
    assert SuccessfullyDispatched(PlaceEach(lim, db, order, now), ids) == ids;
  }

  // ----- A batch that does not fit -----

  const LIMITED: Job := Job(Some(7), 60, "default", 0, None, None)

  /** Job 1 holds the only token of key 7; job 2, of the same key, has failed. */
  const CROWDED: Db :=
    EMPTY.(jobs := map[1 := LIMITED, 2 := LIMITED], ready := map[1 := ReadyRow("default", 0)],
           failed := map[2 := "error"], semaphores := map[7 := Semaphore(0, 60)])

  lemma CrowdedIsSane()
    ensures Sane(map[7 := 1], CROWDED)
  {
    var m := Idle(CROWDED);
    forall key ensures Conserved(map[7 := 1], m, key) {
      assert Debts(m, key) == {};
      assert Holders(m, key) == if key == 7 then {1} else {};
    }
    assert OnePlace(m);
  }

  lemma CrowdedDoesNotFit()
    ensures !Fits(map[7 := 1], CROWDED, {2})
  {
    assert OfKey(CROWDED.jobs, {2}, 7) == {2};
    assert !FitsKey(map[7 := 1], CROWDED, {2}, 7);
  }

  /** So a bulk retry of job 2 leaves it both blocked and failed. */
  lemma BulkRetryStrands(now: Time)
    ensures Sane(map[7 := 1], CROWDED) && AllKnown(CROWDED, [2])
    ensures var r := Retried(map[7 := 1], CROWDED, [2], {2}, now); 2 in r.blocked && 2 in r.failed && !InOnePlace(r, 2)
  {
    CrowdedIsSane();
    CrowdedDoesNotFit();
    BulkRetryKeepsPlaces(map[7 := 1], CROWDED, [2], {2}, now);
  }

  // ----- The same operations on the database -----

  /** `FailedExecution.retry` */
  method Retry(database: Database, lim: Limits, j: JobId, now: Time)
    requires j in database.db.failed && j in database.db.jobs
    modifies database
    ensures database.db == RetryFailed(lim, old(database.db), j, now, Seen(old(database.db), j))
    ensures j !in database.db.failed
    ensures HasNoRow(old(database.db), j) ==> PlacedByDate(old(database.db), database.db, j, now)
  {
    PrepareForExecution(database, lim, j, now);
    database.db := database.db.(failed := database.db.failed - {j});
  }

  /** `FailedExecution.retry_all`; nothing is returned when the transaction is rolled back. */
  method RetryAll(
      database: Database, lim: Limits, jobs: set<JobId>, now: Time)
    returns (count: Option<nat>, ghost order: seq<JobId>)
    requires database.db.failed.Keys <= database.db.jobs.Keys
    modifies database
    ensures var before := old(database.db); var ids := jobs * before.failed.Keys;
            && (count.None? <==> !(Unlimited(before.jobs, ids) !! before.ready.Keys))
            && (count.None? ==> database.db == before)
            && (count.Some? ==>
                  && Enumerates(order, ids) && AllKnown(before, order)
                  && database.db == Retried(lim, before, order, ids, now)
                  && count.value == |before.failed| - |database.db.failed|)
  {
    ghost var before := database.db;
    var ids := jobs * database.db.failed.Keys;
    var dispatched: Option<set<JobId>>;
    dispatched, order := DispatchAll(database, lim, ids, now);
    if dispatched.None? {
      return None, order;
    }
    var deleted := dispatched.value * database.db.failed.Keys;
    DeletedRows(database.db.failed, dispatched.value);
    database.db := database.db.(failed := database.db.failed - dispatched.value);
    count := Some(|deleted|);
  }

  lemma DeletedRows(failed: map<JobId, string>, ids: set<JobId>)
    ensures |failed - ids| == |failed| - |ids * failed.Keys|
  {
    assert (failed - ids).Keys == failed.Keys - ids;
    assert failed.Keys == (failed.Keys - ids) + (ids * failed.Keys);
    assert |failed.Keys| == |failed| && |(failed - ids).Keys| == |failed - ids|;
  }
}
