/** The dispatcher's poll: due scheduled jobs move on, a batch at a time, until none is due. */
module ScheduledExecutions {
  import opened Tables
  import opened Ordering
  import opened Semaphores
  import opened Executables
  import opened Dispatching
  import opened Lifecycle
  import opened Operations

  /** `in_order()`: date, then priority, higher before lower, then job id. */
  function DueRank(scheduled: map<JobId, ScheduledRow>, j: JobId): Rank
    requires j in scheduled
  {
    Rank(scheduled[j].scheduledAt, -scheduled[j].priority, j)
  }

  function Due(scheduled: map<JobId, ScheduledRow>, now: Time): set<JobId> {
    set j | j in scheduled && scheduled[j].scheduledAt <= now
  }

  function DueRanks(scheduled: map<JobId, ScheduledRow>, now: Time): set<Rank> {
    set j | j in scheduled && scheduled[j].scheduledAt <= now :: DueRank(scheduled, j)
  }

  lemma DueRanksAre(scheduled: map<JobId, ScheduledRow>, now: Time, r: Rank)
    ensures r in DueRanks(scheduled, now) <==> r.id >= 0 && r.id in Due(scheduled, now) && r == DueRank(scheduled, r.id)
  {
  }

  /** `next_batch`, with the rows that other dispatchers hold locked already left out of
      `scheduled`. */
  ghost function Batch(scheduled: map<JobId, ScheduledRow>, now: Time, size: nat): set<JobId> {
    Ids(First(DueRanks(scheduled, now), size))
  }

  lemma PrefixHasDistinctIds(scheduled: map<JobId, ScheduledRow>, now: Time, n: nat)
    requires n <= |Sorted(DueRanks(scheduled, now))|
    ensures var s := Sorted(DueRanks(scheduled, now))[..n]; DistinctIds(s) && |Ids(s)| == n
  {
    var all := Sorted(DueRanks(scheduled, now));
    var s := all[..n];
    SortedLists(DueRanks(scheduled, now));
    forall r | r in s ensures r.id >= 0 {
      assert r in all;
      DueRanksAre(scheduled, now, r);
    }
    forall a, b | 0 <= a < b < |s| ensures s[a].id != s[b].id {
      assert s[a] in all && s[b] in all && all[a].Less(all[b]);
      DueRanksAre(scheduled, now, s[a]);
      DueRanksAre(scheduled, now, s[b]);
    }
    IdsSize(s);
  }

  lemma SortedIdsAreDue(scheduled: map<JobId, ScheduledRow>, now: Time)
    ensures Ids(Sorted(DueRanks(scheduled, now))) == Due(scheduled, now)
  {
    var all := Sorted(DueRanks(scheduled, now));
    forall j: nat ensures j in Ids(all) <==> j in Due(scheduled, now) {
      if j in Due(scheduled, now) {
        DueRanksAre(scheduled, now, DueRank(scheduled, j));
        InSorted(DueRanks(scheduled, now), DueRank(scheduled, j));
      }
      if j in Ids(all) {
        var r :| r in all && r.id == j;
        InSorted(DueRanks(scheduled, now), r);
        DueRanksAre(scheduled, now, r);
      }
    }
  }

  /** A batch holds due rows only, as many as fit, and leaves out only rows that come later. */
  lemma BatchIsFirst(scheduled: map<JobId, ScheduledRow>, now: Time, size: nat)
    ensures var batch, due := Batch(scheduled, now, size), Due(scheduled, now);
            && batch <= due && |batch| == (if size <= |due| then size else |due|)
            && forall i, j :: i in batch && j in due - batch ==> DueRank(scheduled, i).Less(DueRank(scheduled, j))
  {
    var ranks := DueRanks(scheduled, now);
    var batch, due := Batch(scheduled, now, size), Due(scheduled, now);
    var n := |First(ranks, size)|;
    PrefixHasDistinctIds(scheduled, now, n);
    PrefixHasDistinctIds(scheduled, now, |Sorted(ranks)|);
    SortedIdsAreDue(scheduled, now);
    assert Sorted(ranks)[..|Sorted(ranks)|] == Sorted(ranks);
    assert First(ranks, size) == Sorted(ranks)[..n];
    forall j | j in batch ensures j in due {
      BatchRank(scheduled, now, size, j);
    }
    forall i, j | i in batch && j in due - batch ensures DueRank(scheduled, i).Less(DueRank(scheduled, j)) {
      BatchRank(scheduled, now, size, i);
      BatchRank(scheduled, now, size, j);
      FirstIsFirst(ranks, size, DueRank(scheduled, i), DueRank(scheduled, j));
    }
  }

  lemma BatchRank(scheduled: map<JobId, ScheduledRow>, now: Time, size: nat, j: JobId)
    ensures j in Batch(scheduled, now, size) ==>
              j in Due(scheduled, now) && DueRank(scheduled, j) in First(DueRanks(scheduled, now), size)
    ensures j in Due(scheduled, now) && j !in Batch(scheduled, now, size) ==>
              && DueRank(scheduled, j) in DueRanks(scheduled, now)
              && DueRank(scheduled, j) !in First(DueRanks(scheduled, now), size)
  {
    if j in Batch(scheduled, now, size) {
      var r :| r in First(DueRanks(scheduled, now), size) && r.id == j;
      FirstAreRanks(DueRanks(scheduled, now), size, r);
      DueRanksAre(scheduled, now, r);
    } else if j in Due(scheduled, now) {
      DueRanksAre(scheduled, now, DueRank(scheduled, j));
    }
  }

  lemma AllInBatch(scheduled: map<JobId, ScheduledRow>, now: Time, size: nat)
    requires |Batch(scheduled, now, size)| < size
    ensures Batch(scheduled, now, size) == Due(scheduled, now)
  {
    var batch, due := Batch(scheduled, now, size), Due(scheduled, now);
    BatchIsFirst(scheduled, now, size);
    assert due == batch + (due - batch);
  }

  /** The same in dates and priorities: nothing is dispatched before its date, and what
      has come due is, if the batch has room; earlier dates go first, of equal dates the higher
      priority, and of equal priorities the smaller id. */
  lemma BatchByDate(scheduled: map<JobId, ScheduledRow>, now: Time, size: nat, i: JobId, j: JobId)
    requires i in scheduled && j in Batch(scheduled, now, size)
    ensures j in scheduled && scheduled[j].scheduledAt <= now
    ensures var a, b := scheduled[i], scheduled[j];
            a.scheduledAt < b.scheduledAt
              || (a.scheduledAt == b.scheduledAt && (a.priority > b.priority || (a.priority == b.priority && i < j)))
            ==> i in Batch(scheduled, now, size)
    ensures scheduled[i].scheduledAt <= now && |Batch(scheduled, now, size)| < size ==> i in Batch(scheduled, now, size)
  {
    BatchIsFirst(scheduled, now, size);
    if |Batch(scheduled, now, size)| < size {
      AllInBatch(scheduled, now, size);
    }
    if i in Due(scheduled, now) - Batch(scheduled, now, size) {
      assert DueRank(scheduled, j).Less(DueRank(scheduled, i));
    }
  }

  // ----- One batch -----

  /** The scheduled jobs in `ids` are dispatched; other rows are as before. */
  ghost predicate MovesOn(db: Db, r: Db, ids: set<JobId>, now: Time) {
    && r == db.(ready := r.ready, blocked := r.blocked, semaphores := r.semaphores, scheduled := db.scheduled - ids)
    && (forall i :: i !in ids ==> Untouched(db, r, i))
    && (forall i :: i in ids ==> i in db.jobs && PlacedAnew(db.jobs[i], r, i, now))
  }

  ghost function Moved(lim: Limits, db: Db, order: seq<JobId>, ids: set<JobId>, now: Time): Db
    requires AllKnown(db, order)
  {
    PlaceEach(lim, db, order, now).(scheduled := db.scheduled - ids)
  }

  lemma DispatchThenDelete(lim: Limits, placed: Db, scheduled: map<JobId, ScheduledRow>, j: JobId, now: Time)
    requires j in placed.jobs
    ensures var mid := placed.(scheduled := scheduled);
            DispatchScheduled(lim, mid, j, now, Seen(mid, j))
              == Dispatch(lim, placed, j, now).(scheduled := scheduled - {j})
  {
    var mid := placed.(scheduled := scheduled);
    DispatchIgnores(lim, placed, scheduled, placed.failed, j, now);
    var after := Dispatch(lim, mid, j, now);
    assert DispatchScheduled(lim, mid, j, now, Seen(mid, j)) == after.(scheduled := after.scheduled - {j});
  }

  lemma MovedOneMore(lim: Limits, db: Db, order: seq<JobId>, ids: set<JobId>, j: JobId, now: Time)
    requires AllKnown(db, order) && AllKnown(db, order + [j]) && j in db.jobs
    ensures var mid := Moved(lim, db, order, ids, now);
            Moved(lim, db, order + [j], ids + {j}, now) == DispatchScheduled(lim, mid, j, now, Seen(mid, j))
  {
    var placed := PlaceEach(lim, db, order, now);
    var next := Dispatch(lim, placed, j, now);
    assert PlaceEach(lim, db, order + [j], now) == next by { PlaceOneMore(lim, db, order, j, now); }
    DispatchThenDelete(lim, placed, db.scheduled - ids, j, now);
    assert db.scheduled - (ids + {j}) == db.scheduled - ids - {j};
  }

  lemma ReadyMovesOn(db: Db, j: JobId, semaphores: Table, now: Time)
    requires j in db.jobs && j !in db.ready && j !in db.blocked
    ensures MovesOn(db, MakeReady(db.(semaphores := semaphores), j).(scheduled := db.scheduled - {j}), {j}, now)
  {
  }

  lemma BlockMovesOn(db: Db, j: JobId, now: Time)
    requires j in db.jobs && j !in db.ready && j !in db.blocked && db.jobs[j].key.Some?
    ensures MovesOn(db, MakeBlocked(db, j, now).(scheduled := db.scheduled - {j}), {j}, now)
  {
  }

  lemma DispatchMovesOn(lim: Limits, db: Db, j: JobId, now: Time)
    requires Sane(lim, db) && j in Due(db.scheduled, now) && j in db.jobs
    ensures MovesOn(db, DispatchScheduled(lim, db, j, now, Seen(db, j)), {j}, now)
  {
    assert Placed(Idle(db), j);
    var placed := DispatchFrom(lim, db, j, now, Seen(db, j));
    if placed == MakeReady(db.(semaphores := placed.semaphores), j) {
      ReadyMovesOn(db, j, placed.semaphores, now);
    } else {
      BlockMovesOn(db, j, now);
    }
  }

  lemma DispatchKeepsSane(lim: Limits, db: Db, j: JobId, now: Time)
    requires Sane(lim, db) && j in Due(db.scheduled, now) && j in db.jobs
    ensures Sane(lim, DispatchScheduled(lim, db, j, now, Seen(db, j)))
  {
    DispatchRuns(lim, Idle(db), j, now, Seen(db, j));
    RunKeepsSane(lim, db, DispatchScheduled(lim, db, j, now, Seen(db, j)));
  }

  lemma MovesOnThen(db: Db, mid: Db, r: Db, ids: set<JobId>, more: set<JobId>, now: Time)
    requires MovesOn(db, mid, ids, now) && MovesOn(mid, r, more, now) && ids !! more
    ensures MovesOn(db, r, ids + more, now)
  {
    assert db.scheduled - (ids + more) == db.scheduled - ids - more;
    forall i | i in ids + more ensures i in db.jobs && PlacedAnew(db.jobs[i], r, i, now) {
      if i in ids {
        assert Untouched(mid, r, i);
      }
    }
  }

  ghost predicate SettlesBatch(lim: Limits, db: Db, r: Db, ids: set<JobId>, now: Time) {
    MovesOn(db, r, ids, now) && Sane(lim, r)
  }

  lemma NothingMoves(lim: Limits, db: Db, now: Time)
    requires Sane(lim, db)
    ensures SettlesBatch(lim, db, db, {}, now)
  {
    assert db.scheduled - {} == db.scheduled;
  }

  lemma BatchOneMore(lim: Limits, db: Db, order: seq<JobId>, ids: set<JobId>, j: JobId, now: Time)
    requires AllKnown(db, order) && AllKnown(db, order + [j]) && j in Due(db.scheduled, now) && j !in ids
             && j in db.jobs
    requires SettlesBatch(lim, db, Moved(lim, db, order, ids, now), ids, now)
    ensures SettlesBatch(lim, db, Moved(lim, db, order + [j], ids + {j}, now), ids + {j}, now)
  {
    var mid := Moved(lim, db, order, ids, now);
    var r := Moved(lim, db, order + [j], ids + {j}, now);
    MovedOneMore(lim, db, order, ids, j, now);
    DispatchMovesOn(lim, mid, j, now);
    DispatchKeepsSane(lim, mid, j, now);
    MovesOnThen(db, mid, r, ids, {j}, now);
  }

  /** Dispatching a batch, in whatever order, moves exactly its jobs, each to exactly one of
      the ready and blocked tables, and keeps every token accounted for. */
  lemma {:induction false} AllMoveOn(lim: Limits, db: Db, order: seq<JobId>, ids: set<JobId>, now: Time)
    requires Sane(lim, db) && Enumerates(order, ids) && AllKnown(db, order) && ids <= Due(db.scheduled, now)
    ensures SettlesBatch(lim, db, Moved(lim, db, order, ids, now), ids, now)
    decreases |order|
  {
    if order == [] {
      assert ids == {};
      assert Moved(lim, db, order, ids, now) == db;
      NothingMoves(lim, db, now);
    } else {
      var last := |order| - 1;
      var init, j := order[..last], order[last];
      InitEnumerates(order, ids);
      assert order == init + [j] && ids - {j} + {j} == ids;
      assert AllKnown(db, init);
      AllMoveOn(lim, db, init, ids - {j}, now);
      BatchOneMore(lim, db, init, ids - {j}, j, now);
    }
  }

  lemma InitEnumerates(order: seq<nat>, ids: set<nat>)
    requires Enumerates(order, ids) && order != []
    ensures Enumerates(order[..|order| - 1], ids - {order[|order| - 1]}) && order[|order| - 1] in ids
  {
  }

  // ----- The same operations on the database -----

  lemma DispatchedAreAll(db: Db, ids: set<JobId>)
    requires ids <= db.scheduled.Keys
    ensures SuccessfullyDispatched(db, ids) == ids && SuccessfullyDispatched(db, ids) * db.scheduled.Keys == ids
  {
  }

  /** `ScheduledExecution.dispatch_next_batch`, past the rows that other dispatchers hold
      locked; nothing is returned when the transaction is
      rolled back because a job of the batch already has a ready row. */
  method DispatchNextBatch(
      database: Database, lim: Limits, size: nat, now: Time, locked: set<JobId>)
    returns (count: Option<nat>, ghost order: seq<JobId>)
    requires database.db.scheduled.Keys <= database.db.jobs.Keys
    modifies database
    ensures var before := old(database.db); var batch := Batch(before.scheduled - locked, now, size);
            && (count.None? <==> !(Unlimited(before.jobs, batch) !! before.ready.Keys))
            && (count.None? ==> database.db == before)
            && (count.Some? ==>
                  && count.value == |batch| && Enumerates(order, batch) && AllKnown(before, order)
                  && database.db == Moved(lim, before, order, batch, now))
  {
    ghost var before := database.db;
    BatchIsFirst(before.scheduled - locked, now, size);
    var ranks := Select(DueRanks(database.db.scheduled - locked, now), size);
    var batch := Ids(ranks);
    var dispatched: Option<set<JobId>>;
    dispatched, order := DispatchAll(database, lim, batch, now);
    if dispatched.None? {
      return None, order;
    }
    DispatchedAreAll(database.db, batch);
    var deleted := |dispatched.value * database.db.scheduled.Keys|;
    database.db := database.db.(scheduled := database.db.scheduled - dispatched.value);
    count := Some(deleted);
  }

  lemma DueNotReady(lim: Limits, db: Db, ids: set<JobId>)
    requires Sane(lim, db) && ids <= db.scheduled.Keys
    ensures ids !! db.ready.Keys && ids <= db.jobs.Keys
  {
    forall j | j in ids ensures j !in db.ready && j in db.jobs {
      assert Placed(Idle(db), j);
    }
  }

  /** One poll of the dispatcher. */
  method Poll(database: Database, lim: Limits, size: nat, now: Time, locked: set<JobId>) returns (count: nat)
    requires Sane(lim, database.db)
    modifies database
    ensures var batch := Batch(old(database.db).scheduled - locked, now, size);
            count == |batch| && SettlesBatch(lim, old(database.db), database.db, batch, now)
  {
    ghost var before := database.db;
    ghost var batch := Batch(before.scheduled - locked, now, size);
    BatchIsFirst(before.scheduled - locked, now, size);
    DueNotReady(lim, before, batch);
    DueNotReady(lim, before, before.scheduled.Keys);
    var dispatched: Option<nat>;
    ghost var order;
    dispatched, order := DispatchNextBatch(database, lim, size, now, locked);
    AllMoveOn(lim, before, order, batch, now);
    count := dispatched.value;
  }

  ghost predicate Drained(lim: Limits, before: Db, db: Db, done: set<JobId>, locked: set<JobId>, now: Time) {
    && SettlesBatch(lim, before, db, done, now) && done <= Due(before.scheduled - locked, now)
    && Due(db.scheduled - locked, now) == Due(before.scheduled - locked, now) - done
  }

  lemma DueSets(due: set<JobId>, mid: set<JobId>, rest: set<JobId>, done: set<JobId>, batch: set<JobId>)
    requires done <= due && mid == due - done && batch <= mid && rest == mid - batch
    ensures done !! batch && done + batch <= due && rest == due - (done + batch)
    ensures |done + batch| == |done| + |batch| && |rest| == |mid| - |batch|
  {
    assert mid == rest + batch;
  }

  lemma DrainedMore(
      lim: Limits, before: Db, mid: Db, r: Db, done: set<JobId>, batch: set<JobId>, locked: set<JobId>, now: Time)
    requires Drained(lim, before, mid, done, locked, now) && SettlesBatch(lim, mid, r, batch, now)
             && batch <= Due(mid.scheduled - locked, now)
    ensures Drained(lim, before, r, done + batch, locked, now) && |done + batch| == |done| + |batch|
    ensures batch != {} ==> |Due(r.scheduled - locked, now)| < |Due(mid.scheduled - locked, now)|
  {
    DueAfter(mid, r, batch, locked, now);
    var due := Due(before.scheduled - locked, now);
    DueSets(due, Due(mid.scheduled - locked, now), Due(r.scheduled - locked, now), done, batch);
    SettlesThen(lim, before, mid, r, done, batch, now);
  }

  lemma SettlesThen(lim: Limits, db: Db, mid: Db, r: Db, ids: set<JobId>, more: set<JobId>, now: Time)
    requires SettlesBatch(lim, db, mid, ids, now) && SettlesBatch(lim, mid, r, more, now) && ids !! more
    ensures SettlesBatch(lim, db, r, ids + more, now)
  {
    MovesOnThen(db, mid, r, ids, more, now);
  }

  lemma DueAfter(mid: Db, r: Db, batch: set<JobId>, locked: set<JobId>, now: Time)
    requires MovesOn(mid, r, batch, now) && batch <= Due(mid.scheduled - locked, now)
    ensures Due(r.scheduled - locked, now) == Due(mid.scheduled - locked, now) - batch
  {
    assert r.scheduled - locked == mid.scheduled - locked - batch;
  }

  /** One round of the drain. */
  method PollNext(
      database: Database, lim: Limits, size: nat, now: Time, locked: set<JobId>, ghost before: Db,
      ghost done: set<JobId>)
    returns (count: nat, ghost batch: set<JobId>)
    requires Drained(lim, before, database.db, done, locked, now) && 1 <= size
    modifies database
    ensures Drained(lim, before, database.db, done + batch, locked, now) && |done + batch| == |done| + count
    ensures count > 0 ==> |Due(database.db.scheduled - locked, now)| < |Due(old(database.db).scheduled - locked, now)|
    ensures count == 0 ==> done + batch == Due(before.scheduled - locked, now)
  {
    ghost var mid := database.db;
    batch := Batch(mid.scheduled - locked, now, size);
    BatchIsFirst(mid.scheduled - locked, now, size);
    count := Poll(database, lim, size, now, locked);
    DrainedMore(lim, before, mid, database.db, done, batch, locked, now);
  }

  /** Polling until nothing is found ends with every due job that nobody else holds locked
      dispatched, to exactly one of the ready and blocked tables, everything else untouched, every token accounted
      for, and the returned counts adding up to the number of jobs that were due. */
  method Drain(database: Database, lim: Limits, size: nat, now: Time, locked: set<JobId>) returns (total: nat)
    requires Sane(lim, database.db) && 1 <= size
    modifies database
    ensures total == |Due(old(database.db).scheduled - locked, now)|
    ensures MovesOn(old(database.db), database.db, Due(old(database.db).scheduled - locked, now), now)
    ensures Sane(lim, database.db)
  {
    ghost var before := database.db;
    ghost var done: set<JobId> := {};
    NothingMoves(lim, before, now);
    total := 0;
    var polling := true;
    while polling
      invariant Drained(lim, before, database.db, done, locked, now) && total == |done|
      invariant !polling ==> done == Due(before.scheduled - locked, now)
      decreases |Due(database.db.scheduled - locked, now)|, polling
    {
      var count: nat;
      ghost var batch;
      count, batch := PollNext(database, lim, size, now, locked, before, done);
      done := done + batch;
      total := total + count;
      polling := count > 0;
    }
  }
}
