/** How failing a dead worker's jobs settles every token it held. */
module Settlement {
  import opened Tables
  import opened Ordering
  import opened Semaphores
  import opened Executables
  import opened BlockedExecutions
  import opened ClaimedExecutions
  import opened BlockedQueues
  import opened Lifecycle
  import opened Tokens
  import opened Runs
  import opened Operations

  /** How many of the given jobs have the key. */
  ghost function CountKey(jobs: map<JobId, Job>, order: seq<JobId>, key: Key): nat {
    if order == [] then 0
    else One(order[0] in jobs && jobs[order[0]].key == Some(key)) + CountKey(jobs, order[1..], key)
  }

  ghost function KeyJobs(jobs: map<JobId, Job>, order: seq<JobId>, key: Key): set<JobId> {
    set j | j in order && j in jobs && jobs[j].key == Some(key)
  }

  lemma {:induction false} CountsKeyJobs(jobs: map<JobId, Job>, order: seq<JobId>, key: Key)
    requires Distinct(order)
    ensures CountKey(jobs, order, key) == |KeyJobs(jobs, order, key)|
  {
    if order != [] {
      var j, rest := order[0], order[1..];
      CountsKeyJobs(jobs, rest, key);
      assert order == [j] + rest;
      if j in jobs && jobs[j].key == Some(key) {
        assert KeyJobs(jobs, order, key) == KeyJobs(jobs, rest, key) + {j};
        assert j !in rest;
      } else {
        assert KeyJobs(jobs, order, key) == KeyJobs(jobs, rest, key);
      }
    }
  }

  // ----- One job -----

  /** Job `j` has no row of the five execution tables. */
  ghost predicate Nowhere(db: Db, j: JobId) {
    j !in db.ready && j !in db.claimed && j !in db.blocked && j !in db.scheduled && j !in db.failed
  }

  /** Every other job has the rows it had. */
  ghost predicate OtherJobsStay(db: Db, r: Db, j: JobId) {
    && (forall i :: i != j ==> SamePlace(Idle(db), Idle(r), i))
    && r.blocked == db.blocked && r.scheduled == db.scheduled
    && r.semaphores == db.semaphores && r.processes == db.processes
    && (forall i :: i in r.ready && i in db.ready ==> r.ready[i] == db.ready[i])
    && (forall i :: i in r.claimed && i in db.claimed ==> r.claimed[i] == db.claimed[i])
    && (forall i :: i in r.failed && i in db.failed ==> r.failed[i] == db.failed[i])
  }

  /** A finished job has left the execution tables: all that is kept is when it finished. */
  lemma FinishOutcome(db: Db, j: JobId, now: Time)
    requires Inv(Idle(db)) && j in db.claimed && j in db.jobs
    ensures var r := FinishClaim(db, j, now);
            Nowhere(r, j) && r.jobs == db.jobs[j := db.jobs[j].(finishedAt := Some(now))] && OtherJobsStay(db, r, j)
  {
    assert Placed(Idle(db), j);
  }

  /** A failed job is in the failed table and nowhere else, with its error. */
  lemma FailOutcome(db: Db, j: JobId, error: string)
    requires Inv(Idle(db)) && j in db.claimed && j in db.jobs
    ensures var r := FailClaim(db, j, error);
            && j in r.failed && r.failed[j] == error && Nowhere(r.(failed := r.failed - {j}), j)
            && r.jobs == db.jobs && OtherJobsStay(db, r, j)
  {
    assert Placed(Idle(db), j);
  }

  /** A job given back is ready and nowhere else, with its own queue name and priority. */
  lemma GiveBackOutcome(db: Db, j: JobId)
    requires Inv(Idle(db)) && j in db.claimed && j in db.jobs
    ensures var r := ReleaseClaim(db, j);
            && j in r.ready && r.ready[j] == ReadyRow(db.jobs[j].queue, db.jobs[j].priority)
            && Nowhere(r.(ready := r.ready - {j}), j) && r.jobs == db.jobs && OtherJobsStay(db, r, j)
  {
    assert Placed(Idle(db), j);
  }

  /** `unblock_next_blocked_job` when the job's token can be returned: the head of its key's
      queue is promoted, if there is one. */
  lemma UnblockEffect(lim: Limits, db: Db, j: JobId, now: Time, key: Key)
    requires BlockedRowsSound(db) && db.blocked.Keys <= db.jobs.Keys && j in db.jobs
    requires var k := db.jobs[j].key;
             k.Some? ==> k.value in db.semaphores && 0 <= db.semaphores[k.value].value <= Limit(lim, k.value)
    ensures var r := UnblockNext(lim, db, j, now);
            OnlyPromotes(db, r) && Queue(r, key) == Drop(Queue(db, key), One(db.jobs[j].key == Some(key)))
  {
    if db.jobs[j].key.Some? {
      UnblockLimited(lim, db, j, db.jobs[j].key.value, now, key);
    } else {
      OnlyPromotesNothing(db);
    }
  }

  lemma SemaphoresAside(db: Db, mid: Db, key: Key)
    requires mid == db.(semaphores := mid.semaphores) && BlockedRowsSound(db)
    ensures BlockedRowsSound(mid) && Queue(mid, key) == Queue(db, key)
  {
  }

  lemma UnblockLimited(lim: Limits, db: Db, j: JobId, k: Key, now: Time, key: Key)
    requires BlockedRowsSound(db) && db.blocked.Keys <= db.jobs.Keys && j in db.jobs && db.jobs[j].key == Some(k)
    requires k in db.semaphores && 0 <= db.semaphores[k].value <= Limit(lim, k)
    ensures var r := UnblockNext(lim, db, j, now);
            OnlyPromotes(db, r) && Queue(r, key) == Drop(Queue(db, key), One(k == key))
  {
    hide OnlyPromotes, ReleaseOne, Queue, BlockedRowsSound;
    var s := Signal(Limit(lim, k), db.semaphores, k, now + db.jobs[j].duration);
    var mid := db.(semaphores := s.semaphores);
    SemaphoresAside(db, mid, key);
    SemaphoresAside(db, mid, k);
    ReleaseOneEffect(lim, mid, k, now, key);
    SemaphoresDoNotMatter(db, mid, ReleaseOne(lim, mid, k, now).db);
  }

  /** The semaphores once job `j` of key `k` has returned its token and the next blocked job,
      if there is one, has taken it again: the last of the two sets the expiry date, its own
      duration from `now` on. */
  ghost function AfterReturning(db: Db, j: JobId, k: Key, now: Time): Table
    requires j in db.jobs && k in db.semaphores && db.blocked.Keys <= db.jobs.Keys
  {
    var value := db.semaphores[k].value;
    match Next(db.blocked, k, {})
    case None => db.semaphores[k := Semaphore(value + 1, now + db.jobs[j].duration)]
    case Some(i) => db.semaphores[k := Semaphore(value, now + db.jobs[i].duration)]
  }

  /** A token comes back if the job has a key whose row is there and holds no more than the
      limit; otherwise no semaphore changes. */
  ghost function Returned(lim: Limits, db: Db, j: JobId, now: Time): Table
    requires j in db.jobs && db.blocked.Keys <= db.jobs.Keys
  {
    match db.jobs[j].key
    case None => db.semaphores
    case Some(k) =>
      if k in db.semaphores && db.semaphores[k].value <= Limit(lim, k) then AfterReturning(db, j, k, now)
      else db.semaphores
  }

  ghost predicate NoNegatives(semaphores: Table) {
    forall k :: k in semaphores ==> 0 <= semaphores[k].value
  }

  lemma SignalWrites(limit: nat, semaphores: Table, k: Key, expiresAt: Time)
    requires k in semaphores && semaphores[k].value <= limit
    ensures Signal(limit, semaphores, k, expiresAt)
            == Signalled(semaphores[k := Semaphore(semaphores[k].value + 1, expiresAt)], true)
  {
  }

  /** A returned token in the row, and the next blocked job served from it. */
  lemma ServedFrom(lim: Limits, db: Db, j: JobId, k: Key, now: Time)
    requires BlockedRowsSound(db) && db.blocked.Keys <= db.jobs.Keys && j in db.jobs
    requires k in db.semaphores && 0 <= db.semaphores[k].value
    ensures var back := db.semaphores[k := Semaphore(db.semaphores[k].value + 1, now + db.jobs[j].duration)];
            ReleaseOne(lim, db.(semaphores := back), k, now).db.semaphores == AfterReturning(db, j, k, now)
  {
    hide ReleaseOne, Next;
    var back := db.semaphores[k := Semaphore(db.semaphores[k].value + 1, now + db.jobs[j].duration)];
    ReleaseOneWrites(lim, db.(semaphores := back), k, now);
  }

  lemma UnblockExactly(lim: Limits, db: Db, j: JobId, now: Time)
    requires BlockedRowsSound(db) && NoNegatives(db.semaphores) && db.blocked.Keys <= db.jobs.Keys && j in db.jobs
    ensures UnblockNext(lim, db, j, now).semaphores == Returned(lim, db, j, now)
  {
    hide ReleaseOne, Next, Signal, AfterReturning, BlockedRowsSound;
    if db.jobs[j].key.Some? {
      var k := db.jobs[j].key.value;
      if k in db.semaphores && db.semaphores[k].value <= Limit(lim, k) {
        SignalWrites(Limit(lim, k), db.semaphores, k, now + db.jobs[j].duration);
        ServedFrom(lim, db, j, k, now);
      }
    }
  }

  lemma FinishedReturns(lim: Limits, db: Db, j: JobId, now: Time)
    requires BlockedRowsSound(db) && db.blocked.Keys <= db.jobs.Keys && j in db.jobs
    ensures var r := FinishClaim(db, j, now);
            BlockedRowsSound(r) && Returned(lim, r, j, now) == Returned(lim, db, j, now)
  {
    hide Next;
  }

  lemma FailedReturns(lim: Limits, db: Db, j: JobId, error: string, now: Time)
    requires BlockedRowsSound(db) && db.blocked.Keys <= db.jobs.Keys && j in db.jobs
    ensures var r := FailClaim(db, j, error);
            BlockedRowsSound(r) && Returned(lim, r, j, now) == Returned(lim, db, j, now)
  {
    hide Next;
  }

  /** The end of a job, to the date: what it writes to the semaphores, whether it finished or
      failed, and nothing else. */
  lemma EndExactly(lim: Limits, db: Db, j: JobId, error: string, now: Time)
    requires BlockedRowsSound(db) && NoNegatives(db.semaphores) && db.blocked.Keys <= db.jobs.Keys && j in db.jobs
    ensures FinishAndUnblock(lim, db, j, now).semaphores == Returned(lim, db, j, now)
    ensures FailAndUnblock(lim, db, j, error, now).semaphores == Returned(lim, db, j, now)
  {
    hide UnblockNext, Returned, BlockedRowsSound;
    FinishedReturns(lim, db, j, now);
    FailedReturns(lim, db, j, error, now);
    UnblockExactly(lim, FinishClaim(db, j, now), j, now);
    UnblockExactly(lim, FailClaim(db, j, error), j, now);
  }

  /** A claimed job of a key holds a token, so its semaphore exists with one to return. */
  lemma ClaimHoldsToken(lim: Limits, db: Db, j: JobId)
    requires Sane(lim, db) && j in db.claimed && j in db.jobs && db.jobs[j].key.Some?
    ensures var k := db.jobs[j].key.value; k in db.semaphores && 0 <= db.semaphores[k].value <= Limit(lim, k)
  {
    var k := db.jobs[j].key.value;
    assert Conserved(lim, Idle(db), k);
    assert j in Holders(Idle(db), k);
  }

  lemma FailEffect(lim: Limits, db: Db, j: JobId, error: string, now: Time, key: Key)
    requires Sane(lim, db) && j in db.claimed && j in db.jobs && db.blocked.Keys <= db.jobs.Keys
    ensures var r := FailAndUnblock(lim, db, j, error, now);
            && r == db.(claimed := db.claimed - {j}, failed := db.failed[j := error],
                        ready := r.ready, blocked := r.blocked, semaphores := r.semaphores)
            && OnlyPromotes(db, r)
            && Queue(r, key) == Drop(Queue(db, key), One(db.jobs[j].key == Some(key)))
  {
    assert Placed(Idle(db), j);
    IdleRowsSound(db);
    var mid := FailClaim(db, j, error);
    assert mid == db.(claimed := db.claimed - {j}, failed := db.failed[j := error]);
    assert BlockedRowsSound(mid) && Queue(mid, key) == Queue(db, key);
    if db.jobs[j].key.Some? {
      ClaimHoldsToken(lim, db, j);
    }
    UnblockEffect(lim, mid, j, now, key);
  }

  lemma FailKeepsSane(lim: Limits, db: Db, j: JobId, error: string, now: Time)
    requires Sane(lim, db) && j in db.claimed && j in db.jobs && db.blocked.Keys <= db.jobs.Keys
    ensures Sane(lim, FailAndUnblock(lim, db, j, error, now))
  {
    FailRuns(lim, Idle(db), j, error, now);
    RunKeepsSane(lim, db, FailAndUnblock(lim, db, j, error, now));
  }

  // ----- All jobs of a worker -----

  /** The given jobs moved from claimed to failed, and nothing else changed but what
      promotions and tokens change. */
  ghost predicate MovesToFailed(db: Db, r: Db, order: seq<JobId>, error: string) {
    && r.jobs == db.jobs && r.scheduled == db.scheduled && r.processes == db.processes && r.recurring == db.recurring
    && LeavesClaims(db, r, order) && JoinsFailed(db, r, order, error) && OnlyPromotes(db, r)
  }

  ghost predicate LeavesClaims(db: Db, r: Db, order: seq<JobId>) {
    && (forall i :: i in r.claimed <==> i in db.claimed && i !in order)
    && (forall i :: i in r.claimed ==> r.claimed[i] == db.claimed[i])
  }

  ghost predicate JoinsFailed(db: Db, r: Db, order: seq<JobId>, error: string) {
    && (forall i :: i in r.failed <==> i in db.failed || i in order)
    && (forall i :: i in r.failed ==> r.failed[i] == if i in order then error else db.failed[i])
  }

  /** From each key's queue, as many jobs left, from its front, as the given jobs have the key. */
  ghost predicate ServesQueues(db: Db, r: Db, order: seq<JobId>) {
    forall key :: Queue(r, key) == Drop(Queue(db, key), CountKey(db.jobs, order, key))
  }

  lemma CountOne(jobs: map<JobId, Job>, j: JobId, key: Key)
    ensures CountKey(jobs, [j], key) == One(j in jobs && jobs[j].key == Some(key))
  {
    assert [j][1..] == [];
  }

  lemma FailServes(lim: Limits, db: Db, j: JobId, error: string, now: Time)
    requires Sane(lim, db) && j in db.claimed && j in db.jobs && db.blocked.Keys <= db.jobs.Keys
    ensures ServesQueues(db, FailAndUnblock(lim, db, j, error, now), [j])
  {
    forall key
      ensures Queue(FailAndUnblock(lim, db, j, error, now), key) == Drop(Queue(db, key), CountKey(db.jobs, [j], key))
    {
      FailEffect(lim, db, j, error, now, key);
      CountOne(db.jobs, j, key);
    }
  }

  lemma FailMoves(lim: Limits, db: Db, j: JobId, error: string, now: Time)
    requires Sane(lim, db) && j in db.claimed && j in db.jobs && db.blocked.Keys <= db.jobs.Keys
    ensures MovesToFailed(db, FailAndUnblock(lim, db, j, error, now), [j], error)
  {
    var r := FailAndUnblock(lim, db, j, error, now);
    FailEffect(lim, db, j, error, now, 0);
    assert r.claimed == db.claimed - {j} && r.failed == db.failed[j := error];
  }

  lemma CountAppend(jobs: map<JobId, Job>, order: seq<JobId>, key: Key)
    requires order != []
    ensures CountKey(jobs, order, key) == CountKey(jobs, [order[0]], key) + CountKey(jobs, order[1..], key)
  {
    CountOne(jobs, order[0], key);
  }

  lemma ServesThen(db: Db, mid: Db, r: Db, order: seq<JobId>)
    requires order != [] && mid.jobs == db.jobs
    requires ServesQueues(db, mid, [order[0]]) && ServesQueues(mid, r, order[1..])
    ensures ServesQueues(db, r, order)
  {
    forall key ensures Queue(r, key) == Drop(Queue(db, key), CountKey(db.jobs, order, key)) {
      ServesThenAt(Queue(db, key), Queue(mid, key), Queue(r, key), db.jobs, order, key);
    }
  }

  lemma ServesThenAt(
      before: seq<Rank>, mid: seq<Rank>, after: seq<Rank>, jobs: map<JobId, Job>, order: seq<JobId>, key: Key)
    requires order != []
    requires mid == Drop(before, CountKey(jobs, [order[0]], key)) && after == Drop(mid, CountKey(jobs, order[1..], key))
    ensures after == Drop(before, CountKey(jobs, order, key))
  {
    CountAppend(jobs, order, key);
    DropDrop(before, CountKey(jobs, [order[0]], key), CountKey(jobs, order[1..], key));
  }

  lemma LeavesThen(db: Db, mid: Db, r: Db, order: seq<JobId>)
    requires order != [] && LeavesClaims(db, mid, [order[0]]) && LeavesClaims(mid, r, order[1..])
    ensures LeavesClaims(db, r, order)
  {
    assert order == [order[0]] + order[1..];
  }

  lemma JoinsThen(db: Db, mid: Db, r: Db, order: seq<JobId>, error: string)
    requires order != [] && JoinsFailed(db, mid, [order[0]], error) && JoinsFailed(mid, r, order[1..], error)
    ensures JoinsFailed(db, r, order, error)
  {
    assert order == [order[0]] + order[1..];
  }

  lemma MovesThen(db: Db, mid: Db, r: Db, order: seq<JobId>, error: string)
    requires order != [] && BlockedRowsSound(db)
    requires MovesToFailed(db, mid, [order[0]], error) && MovesToFailed(mid, r, order[1..], error)
    ensures MovesToFailed(db, r, order, error)
  {
    hide OnlyPromotes, BlockedRowsSound, LeavesClaims, JoinsFailed;
    LeavesThen(db, mid, r, order);
    JoinsThen(db, mid, r, order, error);
    BlockedNotReady(db);
    OnlyPromotesTransitive(db, mid, r);
  }

  lemma BlockedNotReady(db: Db)
    requires BlockedRowsSound(db)
    ensures forall i :: i in db.blocked ==> i !in db.ready
  {
  }

  ghost predicate Settles(lim: Limits, db: Db, r: Db, order: seq<JobId>, error: string) {
    MovesToFailed(db, r, order, error) && ServesQueues(db, r, order) && Sane(lim, r)
  }

  lemma FailSettles(lim: Limits, db: Db, j: JobId, error: string, now: Time)
    requires Sane(lim, db) && j in db.claimed && j in db.jobs && db.blocked.Keys <= db.jobs.Keys
    ensures Settles(lim, db, FailAndUnblock(lim, db, j, error, now), [j], error)
  {
    FailMoves(lim, db, j, error, now);
    FailServes(lim, db, j, error, now);
    FailKeepsSane(lim, db, j, error, now);
  }

  lemma SettlesThen(lim: Limits, db: Db, mid: Db, r: Db, order: seq<JobId>, error: string)
    requires order != [] && Sane(lim, db)
    requires Settles(lim, db, mid, [order[0]], error) && Settles(lim, mid, r, order[1..], error)
    ensures Settles(lim, db, r, order, error)
  {
    IdleRowsSound(db);
    MovesThen(db, mid, r, order, error);
    ServesThen(db, mid, r, order);
  }

  lemma NothingSettles(lim: Limits, db: Db, error: string)
    requires Sane(lim, db)
    ensures Settles(lim, db, db, [], error)
  {
  }

  ghost predicate AllClaimed(db: Db, order: seq<JobId>) {
    db.blocked.Keys <= db.jobs.Keys && Distinct(order) && forall j :: j in order ==> j in db.claimed && j in db.jobs
  }

  lemma TailClaimed(lim: Limits, db: Db, order: seq<JobId>, error: string, now: Time)
    requires Sane(lim, db) && AllClaimed(db, order) && order != []
    ensures AllClaimed(FailAndUnblock(lim, db, order[0], error, now), order[1..])
  {
    FailMoves(lim, db, order[0], error, now);
  }

  /** Failing all given claimed jobs, in whatever order, fails exactly them and, for each key,
      promotes exactly as many blocked jobs as it can, up to the number of failed jobs of the
      key, taken from the front of the key's queue; every token is accounted for again. */
  lemma {:induction false} FailAllSettles(lim: Limits, db: Db, order: seq<JobId>, error: string, now: Time)
    requires Sane(lim, db) && AllClaimed(db, order)
    ensures Settles(lim, db, FailAll(lim, db, order, error, now), order, error)
    decreases |order|
  {
    if order == [] {
      NothingSettles(lim, db, error);
    } else {
      var mid := FailAndUnblock(lim, db, order[0], error, now);
      FailSettles(lim, db, order[0], error, now);
      TailClaimed(lim, db, order, error, now);
      FailAllSettles(lim, mid, order[1..], error, now);
      SettlesThen(lim, db, mid, FailAll(lim, mid, order[1..], error, now), order, error);
    }
  }
}
