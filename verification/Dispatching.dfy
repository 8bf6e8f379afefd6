/** Moving scheduled and failed jobs back into circulation, one job of a transaction at a
    time. */
module Dispatching {
  import opened Tables
  import opened Semaphores
  import opened Executables

  /** One job of a dispatcher's batch: dispatched, its scheduled row deleted. */
  function DispatchScheduled(lim: Limits, db: Db, j: JobId, now: Time, seen: WaitPc): (r: Db)
    requires j in db.jobs && seen != Acquired
    ensures r == db.(ready := r.ready, blocked := r.blocked, semaphores := r.semaphores, scheduled := r.scheduled)
  {
    var after := DispatchFrom(lim, db, j, now, seen);
    after.(scheduled := after.scheduled - {j})
  }

  /** `FailedExecution.retry`: prepared like a new job, its failed row deleted. */
  function RetryFailed(lim: Limits, db: Db, j: JobId, now: Time, seen: WaitPc): (r: Db)
    requires j in db.jobs && seen != Acquired
    ensures r == db.(ready := r.ready, blocked := r.blocked, semaphores := r.semaphores,
                     scheduled := r.scheduled, failed := r.failed)
  {
    var after := if IsDue(db.jobs[j], now) then DispatchFrom(lim, db, j, now, seen) else MakeScheduled(db, j);
    after.(failed := after.failed - {j})
  }

  /** One job of `retry_all`: dispatched whatever its date, its failed row deleted only if
      it became ready: the query meant for blocked jobs looks for a scheduled row. */
  function RetryInBulk(lim: Limits, db: Db, j: JobId, now: Time, seen: WaitPc): (r: Db)
    requires j in db.jobs && seen != Acquired
    ensures r == db.(ready := r.ready, blocked := r.blocked, semaphores := r.semaphores, failed := r.failed)
  {
    var after := DispatchFrom(lim, db, j, now, seen);
    if j in after.ready || j in after.scheduled then after.(failed := after.failed - {j}) else after
  }

  // `dispatch` neither reads nor writes the tables its callers delete from.

  lemma LockIgnores(lim: Limits, db: Db, s: map<JobId, ScheduledRow>, f: map<JobId, string>, j: JobId, now: Time)
    requires j in db.jobs
    ensures var other := db.(scheduled := s, failed := f);
            var a, b := AcquireLock(lim, other, j, now, Seen(other, j)), AcquireLock(lim, db, j, now, Seen(db, j));
            a.ok == b.ok && a.db == b.db.(scheduled := s, failed := f)
  {
  }

  lemma ReadyIgnores(db: Db, s: map<JobId, ScheduledRow>, f: map<JobId, string>, j: JobId)
    requires j in db.jobs
    ensures MakeReady(db.(scheduled := s, failed := f), j) == MakeReady(db, j).(scheduled := s, failed := f)
  {
  }

  lemma BlockIgnores(db: Db, s: map<JobId, ScheduledRow>, f: map<JobId, string>, j: JobId, now: Time)
    requires j in db.jobs && db.jobs[j].key.Some?
    ensures MakeBlocked(db.(scheduled := s, failed := f), j, now)
            == MakeBlocked(db, j, now).(scheduled := s, failed := f)
  {
  }

  lemma DispatchIgnores(lim: Limits, db: Db, s: map<JobId, ScheduledRow>, f: map<JobId, string>, j: JobId, now: Time)
    requires j in db.jobs
    ensures Dispatch(lim, db.(scheduled := s, failed := f), j, now)
            == Dispatch(lim, db, j, now).(scheduled := s, failed := f)
  {
    DispatchIs(lim, db, j, now);
    DispatchIs(lim, db.(scheduled := s, failed := f), j, now);
    LockIgnores(lim, db, s, f, j, now);
    var lock := AcquireLock(lim, db, j, now, Seen(db, j));
    if lock.ok {
      ReadyIgnores(lock.db, s, f, j);
    } else {
      BlockIgnores(lock.db, s, f, j, now);
    }
  }

  // ----- Whole batches -----

  ghost predicate AllKnown(db: Db, order: seq<JobId>) {
    forall j :: j in order ==> j in db.jobs
  }

  /** `order` dispatched one after the other, with nobody in between. */
  ghost function PlaceEach(lim: Limits, db: Db, order: seq<JobId>, now: Time): (r: Db)
    requires AllKnown(db, order)
    ensures r == db.(ready := r.ready, blocked := r.blocked, semaphores := r.semaphores)
    decreases |order|
  {
    if order == [] then db
    else
      var last := |order| - 1;
      assert AllKnown(db, order[..last]) by { InitKnown(db, order); }
      Dispatch(lim, PlaceEach(lim, db, order[..last], now), order[last], now)
  }

  lemma InitKnown(db: Db, order: seq<JobId>)
    requires AllKnown(db, order) && order != []
    ensures AllKnown(db, order[..|order| - 1])
  {
  }

  lemma PlaceOneMore(lim: Limits, db: Db, order: seq<JobId>, j: JobId, now: Time)
    requires AllKnown(db, order) && j in db.jobs
    ensures AllKnown(db, order + [j])
    ensures PlaceEach(lim, db, order + [j], now) == Dispatch(lim, PlaceEach(lim, db, order, now), j, now)
  {
    assert (order + [j])[..|order|] == order;
  }

  /** `create_all_from_jobs`: one insertion of a ready row for each of the given jobs. */
  function ReadyAll(db: Db, ids: set<JobId>): Db
    requires ids <= db.jobs.Keys
  {
    db.(ready := db.ready + map j | j in ids :: ReadyRow(db.jobs[j].queue, db.jobs[j].priority))
  }

  lemma ReadyOneMore(db: Db, ids: set<JobId>, j: JobId)
    requires ids <= db.jobs.Keys && j in ids && j !in db.ready
    ensures MakeReady(ReadyAll(db, ids - {j}), j) == ReadyAll(db, ids)
  {
    var less, all := ReadyAll(db, ids - {j}).ready, ReadyAll(db, ids).ready;
    assert j !in less;
    var more := less[j := ReadyRow(db.jobs[j].queue, db.jobs[j].priority)];
    assert more.Keys == all.Keys;
    assert more == all;
  }

  ghost predicate AllUnlimited(db: Db, ids: set<JobId>) {
    ids <= db.jobs.Keys && ids !! db.ready.Keys && forall j :: j in ids ==> db.jobs[j].key.None?
  }

  ghost predicate ReadiesAll(lim: Limits, db: Db, order: seq<JobId>, ids: set<JobId>, now: Time) {
    Enumerates(order, ids) && AllKnown(db, order) && ids <= db.jobs.Keys
    && PlaceEach(lim, db, order, now) == ReadyAll(db, ids)
  }

  lemma ReadiesNone(lim: Limits, db: Db, now: Time)
    ensures ReadiesAll(lim, db, [], {}, now)
  {
    assert ReadyAll(db, {}).ready == db.ready;
  }

  lemma ReadiesOneMore(lim: Limits, db: Db, ids: set<JobId>, now: Time, order: seq<JobId>, j: JobId)
    requires AllUnlimited(db, ids) && j in ids && ReadiesAll(lim, db, order, ids - {j}, now)
    ensures ReadiesAll(lim, db, order + [j], ids, now)
  {
    PlaceOneMore(lim, db, order, j, now);
    ReadyOneMore(db, ids, j);
    EnumeratesMore(order, ids - {j}, j);
    assert ids - {j} + {j} == ids;
    var mid := ReadyAll(db, ids - {j});
    assert Dispatch(lim, mid, j, now) == MakeReady(mid, j);
  }

  /** Inserting all rows at once is dispatching the jobs one by one. */
  lemma {:induction false} AtOnceIsOneByOne(lim: Limits, db: Db, ids: set<JobId>, now: Time) returns (order: seq<JobId>)
    requires AllUnlimited(db, ids)
    ensures ReadiesAll(lim, db, order, ids, now)
    decreases |ids|
  {
    if ids == {} {
      order := [];
      ReadiesNone(lim, db, now);
    } else {
      var j :| j in ids;
      order := AtOnceIsOneByOne(lim, db, ids - {j}, now);
      ReadiesOneMore(lim, db, ids, now, order, j);
      order := order + [j];
    }
  }

  function Unlimited(jobs: map<JobId, Job>, ids: set<JobId>): set<JobId> {
    set j | j in ids && j in jobs && jobs[j].key.None?
  }

  /** The jobs that `successfully_dispatched` finds: those with a ready or a scheduled row. */
  function SuccessfullyDispatched(db: Db, ids: set<JobId>): set<JobId> {
    set j | j in ids && (j in db.ready || j in db.scheduled)
  }

  // ----- The same operations on the database -----

  /** `dispatch_all_one_by_one`, in the order the query happens to give. */
  method DispatchOneByOne(
      database: Database, lim: Limits, ids: set<JobId>, now: Time, ghost before: Db, ghost placed: set<JobId>,
      ghost first: seq<JobId>)
    returns (ghost order: seq<JobId>)
    requires PlacedSoFar(lim, before, database.db, first, placed, now)
    requires ids <= before.jobs.Keys && ids !! placed
    modifies database
    ensures PlacedSoFar(lim, before, database.db, order, placed + ids, now)
  {
    order := first;
    var rest := ids;
    ghost var done := placed;
    while rest != {}
      invariant rest <= ids && done == placed + (ids - rest)
      invariant PlacedSoFar(lim, before, database.db, order, done, now)
      decreases rest
    {
      var j :| j in rest;
      PlaceOneMore(lim, before, order, j, now);
      EnumeratesMore(order, done, j);
      DispatchJob(database, lim, j, now);
      rest := rest - {j};
      order, done := order + [j], done + {j};
    }
    assert done == placed + ids;
  }

  ghost predicate PlacedSoFar(lim: Limits, before: Db, db: Db, order: seq<JobId>, done: set<JobId>, now: Time) {
    Enumerates(order, done) && AllKnown(before, order) && db == PlaceEach(lim, before, order, now)
  }

  /** `dispatch_all`: jobs without a key get their ready rows at once, the others are
      dispatched one by one. A ready row that exists already violates the one-to-one
      constraint of the insertion, and nothing is changed. */
  method DispatchAll(
      database: Database, lim: Limits, ids: set<JobId>, now: Time)
    returns (dispatched: Option<set<JobId>>, ghost order: seq<JobId>)
    requires ids <= database.db.jobs.Keys
    modifies database
    ensures dispatched.None? <==> !(Unlimited(old(database.db).jobs, ids) !! old(database.db).ready.Keys)
    ensures dispatched.None? ==> database.db == old(database.db)
    ensures dispatched.Some? ==>
              PlacedSoFar(lim, old(database.db), database.db, order, ids, now)
              && dispatched.value == SuccessfullyDispatched(database.db, ids)
  {
    ghost var before := database.db;
    var unlimited := Unlimited(database.db.jobs, ids);
    if !(unlimited !! database.db.ready.Keys) {
      return None, [];
    }
    ghost var first := AtOnceIsOneByOne(lim, before, unlimited, now);
    database.db := ReadyAll(database.db, unlimited);
    order := DispatchOneByOne(database, lim, ids - unlimited, now, before, unlimited, first);
    assert unlimited + (ids - unlimited) == ids;
    dispatched := Some(SuccessfullyDispatched(database.db, ids));
  }
}
