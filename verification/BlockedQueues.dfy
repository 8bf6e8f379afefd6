/** The blocked jobs of a key as a queue, and what a release does to the queues. */
module BlockedQueues {
  import opened Tables
  import opened Ordering
  import opened Semaphores
  import opened Executables
  import opened BlockedExecutions
  import opened Lifecycle
  import opened Operations

  /** The blocked rows of a key in the order they are released. */
  ghost function Queue(db: Db, key: Key): seq<Rank> {
    Sorted(Candidates(db.blocked, key, {}))
  }

  /** `s` without its first `n` elements. */
  ghost function Drop<T>(s: seq<T>, n: nat): seq<T> {
    if n <= |s| then s[n..] else []
  }

  lemma DropDrop<T>(s: seq<T>, a: nat, b: nat)
    ensures Drop(Drop(s, a), b) == Drop(s, a + b)
  {
  }

  lemma QueueHead(db: Db, key: Key)
    ensures Queue(db, key) == [] <==> Next(db.blocked, key, {}).None?
    ensures Queue(db, key) != [] ==>
              var j := Next(db.blocked, key, {}).value;
              Queue(db, key)[0] == RankOf(db.blocked, j)
  {
    var ranks, next := Candidates(db.blocked, key, {}), Next(db.blocked, key, {});
    if next.Some? {
      var r := RankOf(db.blocked, next.value);
      CandidatesAre(db.blocked, key, {}, r);
      forall x | x in ranks && x != r ensures r.Less(x) {
        CandidatesAre(db.blocked, key, {}, x);
      }
      LeastIsFirst(r, ranks);
    } else {
      forall x ensures x !in ranks {
        CandidatesAre(db.blocked, key, {}, x);
      }
      assert ranks == {};
    }
  }

  lemma CandidatesAfter(blocked: map<JobId, BlockedRow>, j: JobId, key: Key)
    requires j in blocked
    ensures Candidates(blocked - {j}, key, {})
            == Candidates(blocked, key, {}) - if blocked[j].key == key then {RankOf(blocked, j)} else {}
  {
    var before, rest := Candidates(blocked, key, {}), Candidates(blocked - {j}, key, {});
    var gone := if blocked[j].key == key then {RankOf(blocked, j)} else {};
    forall x ensures x in rest <==> x in before - gone {
      CandidatesAre(blocked, key, {}, x);
      CandidatesAre(blocked - {j}, key, {}, x);
    }
  }

  /** Blocked row `j` of key `k` leaves: the head of its key's queue, nobody else's. */
  lemma QueueAfter(db: Db, after: Db, j: JobId, k: Key, key: Key)
    requires j in db.blocked && IsNext(db.blocked, k, {}, j) && after.blocked == db.blocked - {j}
    ensures Queue(after, key) == Drop(Queue(db, key), One(key == k))
    ensures key == k ==> Queue(db, key) != [] && Queue(db, key)[0].id == j
  {
    CandidatesAfter(db.blocked, j, key);
    if key == k {
      NextUnique(db.blocked, k, {}, j, Next(db.blocked, k, {}).value);
      QueueHead(db, key);
      SortedWithoutFirst(Candidates(db.blocked, key, {}));
    }
  }

  /** Between two states, jobs left the blocked table only for the ready table, with the
      blocked row's queue name and priority, and nothing else of these tables changed. */
  ghost predicate OnlyPromotes(db: Db, after: Db) {
    && (forall i :: i in after.blocked ==> i in db.blocked && after.blocked[i] == db.blocked[i])
    && (forall i :: i in after.ready <==> i in db.ready || (i in db.blocked && i !in after.blocked))
    && (forall i :: i in db.ready ==> after.ready[i] == db.ready[i])
    && (forall i :: i in db.blocked && i !in after.blocked ==>
          i in after.ready && after.ready[i] == ReadyRow(db.blocked[i].queue, db.blocked[i].priority))
  }

  lemma OnlyPromotesTransitive(a: Db, b: Db, c: Db)
    requires OnlyPromotes(a, b) && OnlyPromotes(b, c)
    requires forall i :: i in a.blocked ==> i !in a.ready
    ensures OnlyPromotes(a, c)
  {
  }

  lemma SemaphoresDoNotMatter(db: Db, mid: Db, after: Db)
    requires mid == db.(semaphores := mid.semaphores) && OnlyPromotes(mid, after)
    ensures OnlyPromotes(db, after)
  {
  }

  lemma OnlyPromotesNothing(db: Db)
    ensures OnlyPromotes(db, db)
  {
  }

  /** Blocked rows belong to jobs of the row's key that are not ready. */
  ghost predicate BlockedRowsSound(db: Db) {
    forall i :: i in db.blocked ==> i in db.jobs && i !in db.ready && db.jobs[i].key == Some(db.blocked[i].key)
  }

  lemma IdleRowsSound(db: Db)
    requires Inv(Idle(db))
    ensures BlockedRowsSound(db)
  {
    forall i | i in db.blocked ensures i in db.jobs && i !in db.ready {
      assert Placed(Idle(db), i);
    }
  }

  /** `release_one` promotes the head of the key's queue exactly when a token is free. */
  lemma ReleaseOneEffect(lim: Limits, db: Db, k: Key, now: Time, key: Key)
    requires BlockedRowsSound(db) && db.blocked.Keys <= db.jobs.Keys
    ensures var r := ReleaseOne(lim, db, k, now);
            var takes := Queue(db, k) != [] && 1 <= Free(Limit(lim, k), db.semaphores, k);
            && r.ok == takes
            && OnlyPromotes(db, r.db)
            && Queue(r.db, key) == Drop(Queue(db, key), One(takes && key == k))
            && (if takes then Moves(Limit(lim, k), db.semaphores, r.db.semaphores, k, -1) else r.db == db)
  {
    QueueHead(db, k);
    var next := Next(db.blocked, k, {});
    if next.Some? {
      ReleaseEffect(lim, db, next.value, k, now, key);
    }
  }

  lemma ReleaseEffect(lim: Limits, db: Db, j: JobId, k: Key, now: Time, key: Key)
    requires BlockedRowsSound(db) && IsNext(db.blocked, k, {}, j) && j in db.jobs
    ensures var r := Release(lim, db, j, now, Seen(db, j));
            && r.ok == (1 <= Free(Limit(lim, k), db.semaphores, k))
            && OnlyPromotes(db, r.db)
            && Queue(r.db, key) == Drop(Queue(db, key), One(r.ok && key == k))
            && (if r.ok then Moves(Limit(lim, k), db.semaphores, r.db.semaphores, k, -1) else r.db == db)
  {
    var r := Release(lim, db, j, now, Seen(db, j));
    assert r.ok == Wait(Limit(lim, k), db.semaphores, k, now + db.jobs[j].duration).pc.Acquired?;
    if r.ok {
      assert r.db == Promoted(db, r.db.semaphores, j);
      PromotedOnlyPromotes(db, r.db.semaphores, j);
      QueueAfter(db, r.db, j, k, key);
    } else {
      assert r.db == db;
    }
  }

  lemma FreeIsGranted(limit: nat, semaphores: Table, k: Key)
    requires 1 <= limit
    ensures Granted(limit, semaphores, k, Observe(semaphores, k)) <==> 1 <= Free(limit, semaphores, k)
  {
  }

  lemma ReleaseWrites(lim: Limits, db: Db, i: JobId, k: Key, now: Time)
    requires i in db.blocked && i in db.jobs && i !in db.ready && db.jobs[i].key == Some(k)
    ensures Release(lim, db, i, now, Seen(db, i)).db.semaphores
            == if 1 <= Free(Limit(lim, k), db.semaphores, k) then
                 OneTaken(Limit(lim, k), db.semaphores, k, now + db.jobs[i].duration)
               else db.semaphores
  {
    hide AcquireLock, Granted, Free, OneTaken;
    LockExactly(lim, db, i, now, Seen(db, i));
    FreeIsGranted(Limit(lim, k), db.semaphores, k);
  }

  /** What `release_one` writes to the semaphores, to the date: the promoted job takes a token
      of its key for its own duration. */
  lemma ReleaseOneWrites(lim: Limits, db: Db, k: Key, now: Time)
    requires BlockedRowsSound(db) && db.blocked.Keys <= db.jobs.Keys
    ensures ReleaseOne(lim, db, k, now).db.semaphores ==
              match Next(db.blocked, k, {})
              case None => db.semaphores
              case Some(i) =>
                if 1 <= Free(Limit(lim, k), db.semaphores, k) then
                  OneTaken(Limit(lim, k), db.semaphores, k, now + db.jobs[i].duration)
                else db.semaphores
  {
    hide Release, OneTaken, Free;
    var next := Next(db.blocked, k, {});
    if next.Some? {
      ReleaseWrites(lim, db, next.value, k, now);
    }
  }

  lemma PromotedOnlyPromotes(db: Db, semaphores: Table, j: JobId)
    requires BlockedRowsSound(db) && j in db.blocked
    ensures OnlyPromotes(db, Promoted(db, semaphores, j))
  {
  }
}
