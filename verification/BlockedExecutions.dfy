/** Blocked jobs and their promotion when a token of their key comes free. */
module BlockedExecutions {
  import opened Tables
  import opened Ordering
  import opened Semaphores
  import opened Executables

  /** `in_order()`: priority first, higher before lower, then job id. */
  function RankOf(blocked: map<JobId, BlockedRow>, j: JobId): Rank
    requires j in blocked
  {
    Rank(0, -blocked[j].priority, j)
  }

  /** The blocked rows of `key` that no other transaction holds locked. */
  ghost function Candidates(blocked: map<JobId, BlockedRow>, key: Key, locked: set<JobId>): set<Rank> {
    set j | j in blocked && blocked[j].key == key && j !in locked :: RankOf(blocked, j)
  }

  lemma CandidatesAre(blocked: map<JobId, BlockedRow>, key: Key, locked: set<JobId>, r: Rank)
    ensures r in Candidates(blocked, key, locked) <==>
              r.id >= 0 && r.id in blocked && blocked[r.id].key == key && r.id !in locked && r == RankOf(blocked, r.id)
  {
  }

  /** `in_order().filter(key).select_for_update(skip_locked=True).first()` */
  ghost predicate IsNext(blocked: map<JobId, BlockedRow>, key: Key, locked: set<JobId>, j: JobId) {
    && j in blocked && blocked[j].key == key && j !in locked
    && forall i :: i in blocked && blocked[i].key == key && i !in locked && i != j ==>
         RankOf(blocked, j).Less(RankOf(blocked, i))
  }

  ghost predicate NoneLeft(blocked: map<JobId, BlockedRow>, key: Key, locked: set<JobId>) {
    forall i :: i in blocked && i !in locked ==> blocked[i].key != key
  }

  lemma NextExists(blocked: map<JobId, BlockedRow>, key: Key, locked: set<JobId>)
    ensures NoneLeft(blocked, key, locked) || exists j :: IsNext(blocked, key, locked, j)
  {
    var ranks := Candidates(blocked, key, locked);
    if ranks == {} {
      forall i | i in blocked && i !in locked ensures blocked[i].key != key {
        CandidatesAre(blocked, key, locked, RankOf(blocked, i));
      }
    } else {
      var r := Least(ranks);
      CandidatesAre(blocked, key, locked, r);
      forall i | i in blocked && blocked[i].key == key && i !in locked && i != r.id
        ensures RankOf(blocked, r.id).Less(RankOf(blocked, i))
      {
        CandidatesAre(blocked, key, locked, RankOf(blocked, i));
      }
      assert IsNext(blocked, key, locked, r.id);
    }
  }

  lemma NextUnique(blocked: map<JobId, BlockedRow>, key: Key, locked: set<JobId>, i: JobId, j: JobId)
    requires IsNext(blocked, key, locked, i) && IsNext(blocked, key, locked, j)
    ensures i == j
  {
  }

  /** It is the one with the highest priority, and of equal ones the oldest job. */
  lemma NextByPriority(blocked: map<JobId, BlockedRow>, key: Key, locked: set<JobId>, j: JobId)
    ensures IsNext(blocked, key, locked, j) <==>
              && j in blocked && blocked[j].key == key && j !in locked
              && forall i :: i in blocked && blocked[i].key == key && i !in locked && i != j ==>
                   blocked[i].priority < blocked[j].priority
                   || (blocked[i].priority == blocked[j].priority && j < i)
  {
  }

  ghost function Next(blocked: map<JobId, BlockedRow>, key: Key, locked: set<JobId>): (r: Option<JobId>)
    ensures r.None? ==> NoneLeft(blocked, key, locked)
    ensures r.Some? ==> IsNext(blocked, key, locked, r.value)
  {
    NextExists(blocked, key, locked);
    if NoneLeft(blocked, key, locked) then None
    else var j :| IsNext(blocked, key, locked, j); Some(j)
  }

  /** `promote_to_ready` and the deletion of the blocked row: queue name and priority come
      from the blocked row. */
  function Promoted(db: Db, semaphores: Table, j: JobId): Db
    requires j in db.blocked
  {
    db.(semaphores := semaphores,
        ready := db.ready[j := ReadyRow(db.blocked[j].queue, db.blocked[j].priority)],
        blocked := db.blocked - {j})
  }

  /** The outcome of the transaction around `release`. */
  datatype Released = Released(db: Db, ok: bool)

  /** `BlockedExecution.release` on a row that is held locked, from what its read of the
      semaphore showed. The ready row is created, not got or created, so an existing one
      rolls everything back. */
  function Release(lim: Limits, db: Db, j: JobId, now: Time, seen: WaitPc): (r: Released)
    requires j in db.jobs && j in db.blocked && seen != Acquired
    ensures !r.ok ==> r.db == db
    ensures r.ok ==> j !in db.ready && r.db == Promoted(db, r.db.semaphores, j)
                     && Paid(lim, db.jobs[j], db.semaphores, r.db.semaphores)
  {
    var lock := AcquireLock(lim, db, j, now, seen);
    if lock.ok && j !in db.ready then
      Released(Promoted(db, lock.db.semaphores, j), true)
    else
      Released(db, false)
  }

  /** `release_one` with nobody in between and no row locked by others. */
  ghost function ReleaseOne(lim: Limits, db: Db, key: Key, now: Time): Released
    requires db.blocked.Keys <= db.jobs.Keys
  {
    match Next(db.blocked, key, {})
    case None => Released(db, false)
    case Some(j) => Release(lim, db, j, now, Seen(db, j))
  }

  // ----- The same operations on the database -----

  method FindNext(database: Database, key: Key) returns (found: Option<JobId>)
    ensures found == Next(database.db.blocked, key, {})
  {
    found := None;
    var blocked := database.db.blocked;
    var rest := blocked.Keys;
    while rest != {}
      invariant rest <= blocked.Keys
      invariant found.None? ==> forall i :: i in blocked && i !in rest ==> blocked[i].key != key
      invariant found.Some? ==> found.value in blocked && blocked[found.value].key == key && found.value !in rest
      invariant found.Some? ==> forall i :: i in blocked && i !in rest && blocked[i].key == key && i != found.value ==>
                  RankOf(blocked, found.value).Less(RankOf(blocked, i))
      decreases rest
    {
      var i :| i in rest;
      rest := rest - {i};
      if blocked[i].key == key && (found.None? || RankOf(blocked, i).Less(RankOf(blocked, found.value))) {
        found := Some(i);
      }
    }
    if found.Some? {
      assert IsNext(blocked, key, {}, found.value);
      NextUnique(blocked, key, {}, found.value, Next(blocked, key, {}).value);
    }
  }

  /** `BlockedExecution.release`, inside its transaction. */
  method ReleaseBlocked(database: Database, lim: Limits, j: JobId, now: Time) returns (ok: bool)
    requires j in database.db.jobs && j in database.db.blocked
    modifies database
    ensures var r := Release(lim, old(database.db), j, now, Seen(old(database.db), j));
            database.db == r.db && ok == r.ok
  {
    var savepoint := database.db;
    var acquired := AcquireConcurrencyLock(database, lim, j, now);
    if acquired {
      if j in database.db.ready {
        database.db := savepoint;
        return false;
      }
      var row := database.db.blocked[j];
      database.db := database.db.(ready := database.db.ready[j := ReadyRow(row.queue, row.priority)]);
      database.db := database.db.(blocked := database.db.blocked - {j});
    }
    ok := acquired;
  }

  method ReleaseOneBlocked(database: Database, lim: Limits, key: Key, now: Time) returns (ok: bool)
    requires database.db.blocked.Keys <= database.db.jobs.Keys
    modifies database
    ensures var r := ReleaseOne(lim, old(database.db), key, now);
            database.db == r.db && ok == r.ok
  {
    var found := FindNext(database, key);
    if found.None? {
      return false;
    }
    ok := ReleaseBlocked(database, lim, found.value, now);
  }
}
