/** Runs that show where the queue's promises stop: states that interleaving or expiry does
    reach, for every limit. */
module Witnesses {
  import opened Tables
  import opened Semaphores
  import opened Executables
  import opened BlockedExecutions
  import opened ClaimedExecutions
  import opened Protocol
  import opened Lifecycle
  import opened Tokens
  import opened Runs
  import opened Operations
  import opened Patience

  function LimitedJob(key: Key): Job {
    Job(Some(key), 60, "q", 0, None, None)
  }

  const WORKER: Process := Process(Worker, "worker", None, 0)

  /** Where all witnesses start: one registered worker. */
  ghost function Start(): Machine {
    Idle(EMPTY.(processes := map[0 := WORKER]))
  }

  lemma StartReachable(lim: Limits)
    ensures Reachable(lim, NoExpiry, Start())
  {
    assert Idle(EMPTY) == INITIAL;
    RegisterRuns(lim, INITIAL, 0, WORKER);
  }

  /** The numbers below `n`. */
  function Below(n: nat): (s: set<nat>)
    ensures |s| == n && forall j: nat :: j in s <==> j < n
  {
    if n == 0 then {} else Below(n - 1) + {n - 1}
  }

  // ----- Filling up -----

  /** Jobs 0 to n - 1 of the key, all of them ready. */
  ghost predicate AllReady(db: Db, key: Key, n: nat) {
    && db.jobs.Keys == Below(n) && db.ready.Keys == Below(n)
    && (forall j :: j in db.jobs ==> db.jobs[j] == LimitedJob(key))
    && db.claimed == map[] && db.blocked == map[] && db.scheduled == map[] && db.failed == map[]
    && db.processes == map[0 := WORKER]
  }

  lemma AllRunning(db: Db, key: Key, n: nat)
    requires AllReady(db, key, n)
    ensures |Running(db, key)| == n
  {
    assert Running(db, key) == Below(n);
  }

  ghost function FreeIn(lim: Limits, db: Db, key: Key): int {
    Free(Limit(lim, key), db.semaphores, key)
  }

  /** The new job's row is the only one that is new. */
  ghost predicate AddsOnly(saved: Db, r: Db, n: nat) {
    && n in r.ready && n !in r.blocked && forall i :: i != n ==> Untouched(saved, r, i)
  }

  lemma AddedReady(db: Db, r: Db, key: Key, n: nat)
    requires AllReady(db, key, n) && AddsOnly(db.(jobs := db.jobs[n := LimitedJob(key)]), r, n)
    requires r == db.(jobs := r.jobs, ready := r.ready, blocked := r.blocked, semaphores := r.semaphores)
    requires r.jobs == db.jobs[n := LimitedJob(key)]
    ensures n !in db.jobs && AllReady(r, key, n + 1)
  {
    var saved := db.(jobs := db.jobs[n := LimitedJob(key)]);
    forall i ensures (i in r.ready <==> i in Below(n + 1)) && i !in r.blocked {
      if i != n {
        assert Untouched(saved, r, i);
      }
    }
    NowBelow(db, r, n);
  }

  lemma NowBelow(db: Db, r: Db, n: nat)
    requires db.jobs.Keys == Below(n) && r.jobs.Keys == db.jobs.Keys + {n}
    requires forall i :: (i in r.ready <==> i in Below(n + 1)) && i !in r.blocked
    ensures r.jobs.Keys == Below(n + 1) && r.ready.Keys == Below(n + 1) && r.blocked == map[]
  {
  }

  lemma ReadyOneMore(lim: Limits, db: Db, key: Key, n: nat)
    requires AllReady(db, key, n) && 1 <= FreeIn(lim, db, key)
    ensures var r := Enqueue(lim, db, n, LimitedJob(key), 0);
            && n !in db.jobs && AllReady(r, key, n + 1) && key in r.semaphores
            && FreeIn(lim, r, key) == FreeIn(lim, db, key) - 1
  {
    hide Enqueue, Untouched, Free;
    EnqueueOutcome(lim, db, n, LimitedJob(key), 0);
    var saved, r := db.(jobs := db.jobs[n := LimitedJob(key)]), Enqueue(lim, db, n, LimitedJob(key), 0);
    assert DispatchedNow(lim, saved, r, n, 0);
    AddedReady(db, r, key, n);
  }

  /** Enqueueing `k` more jobs while there are tokens for them. */
  lemma {:induction false} Fill(lim: Limits, m: Machine, key: Key, n: nat, k: nat) returns (m': Machine)
    requires Quiet(m) && AllReady(m.db, key, n) && k <= FreeIn(lim, m.db, key)
    ensures Reaches(lim, NoExpiry, m, m') && Quiet(m') && AllReady(m'.db, key, n + k)
    ensures m'.deletions == m.deletions && FreeIn(lim, m'.db, key) == FreeIn(lim, m.db, key) - k
    ensures k > 0 ==> key in m'.db.semaphores
  {
    hide Reaches, AllReady, FreeIn, Enqueue;
    if k == 0 {
      ReachesItself(lim, NoExpiry, m);
      m' := m;
    } else {
      var mid := Fill(lim, m, key, n, k - 1);
      m' := mid.(db := Enqueue(lim, mid.db, n + k - 1, LimitedJob(key), 0));
      ReadyOneMore(lim, mid.db, key, n + k - 1);
      EnqueueRuns(lim, mid, n + k - 1, LimitedJob(key), 0);
      ReachesTransitive(lim, NoExpiry, m, mid, m');
    }
  }

  lemma StartIsEmpty(lim: Limits, key: Key)
    ensures Quiet(Start()) && AllReady(Start().db, key, 0) && FreeIn(lim, Start().db, key) == Limit(lim, key)
    ensures Deletions(Start(), key) == 0
  {
  }

  // ----- Deleted semaphores -----

  /** Maintenance finds the key's row expired and deletes it. */
  ghost function Deleted(m: Machine, key: Key): Machine {
    DoExpire(DoFindExpired(m, key), key)
  }

  /** The key's row is gone; everything else is as before. */
  lemma RowDeleted(lim: Limits, m: Machine, key: Key, n: nat)
    requires Quiet(m) && AllReady(m.db, key, n)
    ensures var m' := Deleted(m, key);
            && Quiet(m') && AllReady(m'.db, key, n) && FreeIn(lim, m'.db, key) == Limit(lim, key)
            && Deletions(m', key) == Deletions(m, key) + 1
  {
  }

  lemma DeletionIsAllowed(lim: Limits, m: Machine, key: Key, least: int)
    requires Reachable(lim, ExpiresFrom(key, least), m) && key in m.db.semaphores && m.db.semaphores[key].value >= least
    ensures Reachable(lim, ExpiresFrom(key, least), Deleted(m, key))
  {
    hide Reaches;
    Then(lim, ExpiresFrom(key, least), INITIAL, m, FindExpired(key, m.db.semaphores[key].expiresAt));
    Then(lim, ExpiresFrom(key, least), INITIAL, DoFindExpired(m, key), Expire(key));
  }

  lemma LaterReachable(lim: Limits, rule: Rule, m: Machine, m': Machine)
    requires Reachable(lim, rule, m) && Reaches(lim, NoExpiry, m, m') && Stricter(NoExpiry, rule)
    ensures Reachable(lim, rule, m')
  {
    hide Reaches;
    ReachesByWeaker(lim, NoExpiry, rule, m, m');
    ReachesTransitive(lim, rule, INITIAL, m, m');
  }

  /** Deleting the key's semaphore and enqueueing as many jobs as there are tokens then. */
  lemma DeletedAndRefilled(lim: Limits, m: Machine, key: Key, n: nat, least: int) returns (m': Machine)
    requires Reachable(lim, ExpiresFrom(key, least), m) && Quiet(m) && AllReady(m.db, key, n)
    requires key in m.db.semaphores && m.db.semaphores[key].value >= least
    ensures Reachable(lim, ExpiresFrom(key, least), m') && Quiet(m') && AllReady(m'.db, key, n + Limit(lim, key))
    ensures Deletions(m', key) == Deletions(m, key) + 1
    ensures key in m'.db.semaphores && m'.db.semaphores[key].value == 0
  {
    hide Reachable, Reaches, Quiet, AllReady, Deleted;
    var mid := Deleted(m, key);
    RowDeleted(lim, m, key, n);
    DeletionIsAllowed(lim, m, key, least);
    m' := Fill(lim, mid, key, n, Limit(lim, key));
    LaterReachable(lim, ExpiresFrom(key, least), mid, m');
  }

  /** From the start, jobs that leave `v` tokens free. */
  lemma FilledTo(lim: Limits, key: Key, v: nat, least: int) returns (m: Machine)
    requires v < Limit(lim, key)
    ensures Reachable(lim, ExpiresFrom(key, least), m) && Quiet(m) && AllReady(m.db, key, Limit(lim, key) - v)
    ensures Deletions(m, key) == 0 && key in m.db.semaphores && m.db.semaphores[key].value == v
  {
    hide Reaches, Quiet, AllReady, Start;
    StartReachable(lim);
    StartIsEmpty(lim, key);
    m := Fill(lim, Start(), key, 0, Limit(lim, key) - v);
    ReachesTransitive(lim, NoExpiry, INITIAL, Start(), m);
    ReachesByWeaker(lim, NoExpiry, ExpiresFrom(key, least), INITIAL, m);
  }

  /** A single deletion at a value below the limit lets as many more jobs run as it lacked. */
  lemma DeletionOvershoots(lim: Limits, key: Key, v: nat)
    requires v < Limit(lim, key)
    ensures exists m :: Reachable(lim, ExpiresFrom(key, v), m) && Deletions(m, key) == 1
                        && |Running(m.db, key)| == Limit(lim, key) + (Limit(lim, key) - v)
  {
    hide Reachable, Quiet, AllReady;
    var m := FilledTo(lim, key, v, v);
    var m' := DeletedAndRefilled(lim, m, key, Limit(lim, key) - v, v);
    AllRunning(m'.db, key, Limit(lim, key) - v + Limit(lim, key));
  }

  /** So the limit is kept in all runs exactly if the semaphore of the key is never deleted
      with less than the limit in it. */
  lemma LimitKeptExactly(lim: Limits, key: Key, least: int)
    ensures (forall m :: Reachable(lim, ExpiresFrom(key, least), m) ==> |Running(m.db, key)| <= Limit(lim, key))
            <==> least >= Limit(lim, key)
  {
    var rule, full := ExpiresFrom(key, least), ExpiresFrom(key, Limit(lim, key));
    if least >= Limit(lim, key) {
      forall m | Reachable(lim, rule, m) ensures |Running(m.db, key)| <= Limit(lim, key) {
        ReachesByWeaker(lim, rule, full, INITIAL, m);
        TokenConservation(lim, m, key);
      }
    } else {
      var m := LimitPassed(lim, key, least);
      assert Reachable(lim, rule, m) && |Running(m.db, key)| > Limit(lim, key);
    }
  }

  lemma LimitPassed(lim: Limits, key: Key, least: int) returns (m: Machine)
    requires least < Limit(lim, key)
    ensures Reachable(lim, ExpiresFrom(key, least), m) && |Running(m.db, key)| == Limit(lim, key) + 1
  {
    hide Reachable, Quiet, AllReady;
    var m1 := FilledTo(lim, key, Limit(lim, key) - 1, least);
    m := DeletedAndRefilled(lim, m1, key, 1, least);
    AllRunning(m.db, key, 1 + Limit(lim, key));
  }

  lemma OneLifeMore(limit: nat, d: nat)
    requires d >= 1
    ensures limit * d + limit == limit * (1 + d) && limit * d >= 0
  {
  }

  /** All tokens taken, with `d` deletions before. */
  ghost predicate FilledUp(m: Machine, key: Key, n: int, d: nat) {
    && 0 <= n && Quiet(m) && AllReady(m.db, key, n) && Deletions(m, key) == d
    && key in m.db.semaphores && m.db.semaphores[key].value == 0
  }

  lemma OverfilledMore(lim: Limits, m: Machine, key: Key, n: nat, d: nat) returns (m': Machine)
    requires Reachable(lim, ExpiresFrom(key, 0), m) && FilledUp(m, key, n, d)
    ensures Reachable(lim, ExpiresFrom(key, 0), m') && FilledUp(m', key, n + Limit(lim, key), d + 1)
  {
    hide Reachable, Quiet, AllReady;
    m' := DeletedAndRefilled(lim, m, key, n, 0);
  }

  lemma FilledFirst(lim: Limits, key: Key) returns (m: Machine)
    ensures Reachable(lim, ExpiresFrom(key, 0), m) && FilledUp(m, key, Limit(lim, key), 0)
  {
    hide Reachable, Quiet, AllReady;
    m := FilledTo(lim, key, 0, 0);
  }

  lemma {:induction false} Overfilled(lim: Limits, key: Key, d: nat) returns (m: Machine)
    ensures Reachable(lim, ExpiresFrom(key, 0), m) && FilledUp(m, key, Limit(lim, key) * (1 + d), d)
  {
    hide *;
    if d == 0 {
      m := FilledFirst(lim, key);
    } else {
      var mid := Overfilled(lim, key, d - 1);
      OneLifeMore(Limit(lim, key), d);
      m := OverfilledMore(lim, mid, key, Limit(lim, key) * d, d - 1);
    }
  }

  /** The bound under expiry is met: with any number of deletions, as many jobs of the key can
      run as it allows. */
  lemma BoundIsReached(lim: Limits, key: Key, d: nat)
    ensures exists m :: Reachable(lim, RetriesFit, m) && Deletions(m, key) == d
                        && |Running(m.db, key)| == Limit(lim, key) * (1 + d)
  {
    hide Reaches, Quiet, AllReady;
    var m := Overfilled(lim, key, d);
    ReachesByWeaker(lim, ExpiresFrom(key, 0), RetriesFit, INITIAL, m);
    AllRunning(m.db, key, Limit(lim, key) * (1 + d));
  }

  // ----- Ending all jobs -----

  /** Of jobs 0 to n - 1 of the key, the first `done` have finished and the worker has the
      others; besides, somebody may be enqueueing, but nothing of the key is blocked. */
  ghost predicate InHand(m: Machine, key: Key, n: nat, done: nat) {
    && done <= n && Below(n) <= m.db.jobs.Keys
    && (forall j :: j in m.db.jobs ==> m.db.jobs[j].key == Some(key) && m.db.jobs[j].duration == 60)
    && (forall j: nat :: j in m.db.claimed <==> done <= j < n)
    && (forall j :: j in m.db.claimed ==> m.db.claimed[j] == Some(0))
    && m.db.ready == map[] && m.db.blocked == map[] && m.db.processes == map[0 := WORKER]
    && m.settling == map[] && m.promoting == {} && m.claiming == map[] && m.leaving == map[]
  }

  /** One job ends: its claim goes, its token comes back and nobody is found waiting. */
  ghost function Ended(lim: Limits, m: Machine, key: Key, j: JobId): Machine
    requires j in m.db.jobs && key in m.db.semaphores
  {
    var semaphore := Semaphore(m.db.semaphores[key].value + 1, 60);
    m.(db := FinishClaim(m.db, j, 0).(semaphores := m.db.semaphores[key := semaphore]))
  }

  lemma EndsOne(lim: Limits, m: Machine, key: Key, n: nat, done: nat)
    requires InHand(m, key, n, done) && done < n && key in m.db.semaphores
             && m.db.semaphores[key].value <= Limit(lim, key)
    ensures Reaches(lim, NoExpiry, m, Ended(lim, m, key, done)) && InHand(Ended(lim, m, key, done), key, n, done + 1)
  {
    hide Reaches;
    var m1 := DoFinish(m, 0, done, 0);
    OneStep(lim, NoExpiry, m, Finish(0, done, 0));
    assert m1.settling == map[0 := Owes(key, 60)];
    EndsSignal(lim, m, m1, key);
    EndedInHand(lim, m, key, n, done);
  }

  lemma EndedInHand(lim: Limits, m: Machine, key: Key, n: nat, done: nat)
    requires InHand(m, key, n, done) && done < n && key in m.db.semaphores
    ensures InHand(Ended(lim, m, key, done), key, n, done + 1)
  {
  }

  /** `m` with what one statement of the settling thread 0 leaves. */
  ghost function Settling(m: Machine, db: Db, settling: map<ThreadId, SettlePc>): Machine {
    m.(db := db, settling := settling)
  }

  function OneBack(db: Db, key: Key): Db
    requires key in db.semaphores
  {
    db.(semaphores := db.semaphores[key := Semaphore(db.semaphores[key].value + 1, 60)])
  }

  lemma SignalsOne(lim: Limits, m: Machine, db: Db, key: Key)
    requires key in db.semaphores && db.semaphores[key].value <= Limit(lim, key)
    ensures DoSignalKey(lim, Settling(m, db, map[0 := Owes(key, 60)]), 0, 0)
              == Settling(m, OneBack(db, key), map[0 := Releasing(key)])
  {
    assert map[0 := Owes(key, 60)][0 := Releasing(key)] == map[0 := Releasing(key)];
  }

  lemma FindsNobody(m: Machine, db: Db, key: Key)
    requires db.blocked == map[]
    ensures DoLockBlocked(Settling(m, db, map[0 := Releasing(key)]), 0) == Settling(m, db, map[])
  {
    assert map[0 := Releasing(key)] - {0} == map[];
  }

  lemma EndsSignal(lim: Limits, m: Machine, m1: Machine, key: Key)
    requires Reaches(lim, NoExpiry, m, m1) && m.settling == map[] && m1.db.blocked == map[]
    requires m1 == Settling(m, m1.db, map[0 := Owes(key, 60)])
    requires key in m1.db.semaphores && m1.db.semaphores[key].value <= Limit(lim, key)
    ensures Reaches(lim, NoExpiry, m, Settling(m, OneBack(m1.db, key), map[]))
  {
    hide Reaches, DoSignalKey, DoLockBlocked;
    SignalsOne(lim, m, m1.db, key);
    Then(lim, NoExpiry, m, m1, SignalKey(0, 0));
    FindsNobody(m, OneBack(m1.db, key), key);
    Then(lim, NoExpiry, m, Settling(m, OneBack(m1.db, key), map[0 := Releasing(key)]), LockBlocked(0));
  }

  lemma {:induction false} EndsAll(lim: Limits, m: Machine, key: Key, n: nat, done: nat) returns (m': Machine)
    requires InHand(m, key, n, done) && key in m.db.semaphores
    requires done < n ==> m.db.semaphores[key].value + (n - done) <= Limit(lim, key) + 1
    ensures Reaches(lim, NoExpiry, m, m') && InHand(m', key, n, n) && m'.enqueuing == m.enqueuing
    ensures m'.db.jobs.Keys == m.db.jobs.Keys
    ensures key in m'.db.semaphores && m'.db.semaphores[key].value == m.db.semaphores[key].value + (n - done)
    decreases n - done
  {
    hide Reaches;
    if done == n {
      ReachesItself(lim, NoExpiry, m);
      m' := m;
    } else {
      var mid := Ended(lim, m, key, done);
      EndsOne(lim, m, key, n, done);
      m' := EndsAll(lim, mid, key, n, done + 1);
      ReachesTransitive(lim, NoExpiry, m, mid, m');
    }
  }

  /** The worker claims all jobs. */
  lemma TakesAll(lim: Limits, m: Machine, key: Key, n: nat) returns (m': Machine)
    requires Quiet(m) && AllReady(m.db, key, n)
    ensures Reaches(lim, NoExpiry, m, m') && Quiet(m') && InHand(m', key, n, 0)
    ensures m'.db.jobs == m.db.jobs && m'.db.semaphores == m.db.semaphores && m'.deletions == m.deletions
  {
    hide Reaches, Quiet, InHand, ClaimRows;
    ClaimRuns(lim, m, 0, m.db.ready.Keys);
    m' := m.(db := ClaimRows(m.db, m.db.ready.Keys, 0));
    TakenInHand(m, key, n);
  }

  lemma AllClaimed(db: Db, key: Key, n: nat)
    requires AllReady(db, key, n)
    ensures var r := ClaimRows(db, db.ready.Keys, 0);
            && r == db.(ready := map[], claimed := r.claimed)
            && (forall j: nat :: j in r.claimed <==> 0 <= j < n)
            && (forall j :: j in r.claimed ==> r.claimed[j] == Some(0))
  {
    var r := ClaimRows(db, db.ready.Keys, 0);
    assert r.ready == map[];
    assert forall j: nat :: j in r.claimed <==> j in Below(n);
  }

  lemma TakenInHand(m: Machine, key: Key, n: nat)
    requires Quiet(m) && AllReady(m.db, key, n)
    ensures var m' := m.(db := ClaimRows(m.db, m.db.ready.Keys, 0));
            && Quiet(m') && InHand(m', key, n, 0)
            && m'.db.jobs == m.db.jobs && m'.db.semaphores == m.db.semaphores
  {
    hide ClaimRows;
    AllClaimed(m.db, key, n);
  }

  // ----- The loose guard -----

  /** With expiry, and for every limit, a value does reach one more than the limit: a token
      taken from a semaphore that was then deleted is returned to its successor. */
  lemma LooseGuardReached(lim: Limits, key: Key)
    ensures exists m :: Reachable(lim, RetriesFit, m) && key in m.db.semaphores
                        && m.db.semaphores[key].value == Limit(lim, key) + 1
  {
    hide Reaches, Quiet, AllReady, InHand, Deleted;
    var m1 := FilledTo(lim, key, Limit(lim, key) - 1, 0);
    RowDeleted(lim, m1, key, 1);
    DeletionIsAllowed(lim, m1, key, 0);
    ReachesByWeaker(lim, ExpiresFrom(key, 0), RetriesFit, INITIAL, Deleted(m1, key));
    BothReturned(lim, Deleted(m1, key), key);
  }

  /** One job has a token of the deleted row, one gets a token of its successor, and both end. */
  lemma BothReturned(lim: Limits, m1: Machine, key: Key)
    requires Reachable(lim, RetriesFit, m1) && Quiet(m1) && AllReady(m1.db, key, 1)
    requires FreeIn(lim, m1.db, key) == Limit(lim, key)
    ensures exists m :: Reachable(lim, RetriesFit, m) && key in m.db.semaphores
                        && m.db.semaphores[key].value == Limit(lim, key) + 1
  {
    hide Reachable, Reaches, Quiet, AllReady, InHand;
    var m2 := Fill(lim, m1, key, 1, 1);
    var m3 := TakesAll(lim, m2, key, 2);
    var m4 := EndsAll(lim, m3, key, 2, 0);
    LaterReachable(lim, RetriesFit, m1, m2);
    LaterReachable(lim, RetriesFit, m2, m3);
    LaterReachable(lim, RetriesFit, m3, m4);
  }

  // ----- The stale read -----

  /** Nothing is under way, nothing of the key is ready or claimed, all its tokens are free,
      and a job of it is blocked. */
  ghost predicate Strands(lim: Limits, m: Machine, key: Key) {
    && NothingUnderWay(m) && m.claiming == map[] && Running(m.db, key) == {} && Parked(m, key) != {}
    && key in m.db.semaphores && m.db.semaphores[key].value == Limit(lim, key)
  }

  /** Without expiry, and for every limit, an enqueuer that read an exhausted semaphore may
      insert its blocked row after the last holder has looked for blocked rows; only the
      dispatcher's maintenance will find it. */
  lemma StaleReadStrandsJob(lim: Limits, key: Key)
    ensures exists m :: Reachable(lim, NoExpiry, m) && Strands(lim, m, key)
  {
    hide Reachable, Reaches, Quiet, InHand, Strands;
    var n := Limit(lim, key);
    var m2 := AllTaken(lim, key);
    var m3 := ReadsExhausted(lim, m2, key, n);
    var m4 := EndsAll(lim, m3, key, n, 0);
    LaterReachable(lim, NoExpiry, m3, m4);
    BlocksLate(lim, m4, key, n);
  }

  /** As many jobs as the limit allows, all in the worker's hands. */
  lemma AllTaken(lim: Limits, key: Key) returns (m: Machine)
    ensures var n := Limit(lim, key);
            && Reachable(lim, NoExpiry, m) && Quiet(m) && InHand(m, key, n, 0) && m.db.jobs.Keys == Below(n)
            && key in m.db.semaphores && m.db.semaphores[key].value == 0
  {
    hide Reaches, Reachable, Quiet, InHand, Start;
    var n := Limit(lim, key);
    StartReachable(lim);
    StartIsEmpty(lim, key);
    var m1 := Fill(lim, Start(), key, 0, n);
    m := TakesAll(lim, m1, key, n);
    LaterReachable(lim, NoExpiry, Start(), m1);
    LaterReachable(lim, NoExpiry, m1, m);
  }

  lemma ReadsExhausted(lim: Limits, m: Machine, key: Key, n: nat) returns (m': Machine)
    requires Reachable(lim, NoExpiry, m) && Quiet(m) && InHand(m, key, n, 0) && m.db.jobs.Keys == Below(n)
    requires key in m.db.semaphores && m.db.semaphores[key].value == 0
    ensures Reachable(lim, NoExpiry, m') && InHand(m', key, n, 0)
            && m'.enqueuing == map[n := EnqueuePc.Waiting(Refused)]
    ensures m'.db.jobs.Keys == Below(n + 1) && m'.db.semaphores == m.db.semaphores
  {
    hide Reaches, InHand, Quiet;
    var m1 := DoInsert(m, n, LimitedJob(key));
    InsertedInHand(m, key, n);
    Then(lim, NoExpiry, INITIAL, m, Insert(n, LimitedJob(key)));
    m' := DoReadSemaphore(m1, n);
    ReadInHand(m1, key, n);
    Then(lim, NoExpiry, INITIAL, m1, ReadSemaphore(n, 0));
  }

  lemma InsertedInHand(m: Machine, key: Key, n: nat)
    requires Quiet(m) && InHand(m, key, n, 0) && m.db.jobs.Keys == Below(n)
    ensures var m1 := DoInsert(m, n, LimitedJob(key));
            && n !in m.db.jobs && InHand(m1, key, n, 0) && m1.enqueuing == map[n := Unplaced]
            && m1.db.jobs.Keys == Below(n + 1)
  {
  }

  lemma ReadInHand(m1: Machine, key: Key, n: nat)
    requires InHand(m1, key, n, 0) && m1.enqueuing == map[n := Unplaced] && m1.db.jobs.Keys == Below(n + 1)
    requires m1.db.jobs[n] == LimitedJob(key) && key in m1.db.semaphores && m1.db.semaphores[key].value == 0
    ensures var m' := DoReadSemaphore(m1, n);
            InHand(m', key, n, 0) && m'.enqueuing == map[n := EnqueuePc.Waiting(Refused)]
  {
  }

  lemma BlocksLate(lim: Limits, m: Machine, key: Key, n: nat)
    requires Reachable(lim, NoExpiry, m) && InHand(m, key, n, n) && m.enqueuing == map[n := EnqueuePc.Waiting(Refused)]
    requires n in m.db.jobs && key in m.db.semaphores && m.db.semaphores[key].value == Limit(lim, key)
    ensures exists m' :: Reachable(lim, NoExpiry, m') && Strands(lim, m', key)
  {
    hide Reaches, Strands;
    Then(lim, NoExpiry, INITIAL, m, Step.PlaceBlocked(n, 0));
    LateIsStranded(lim, m, key, n);
  }

  lemma LateIsStranded(lim: Limits, m: Machine, key: Key, n: nat)
    requires InHand(m, key, n, n) && m.enqueuing == map[n := EnqueuePc.Waiting(Refused)]
    requires n in m.db.jobs && key in m.db.semaphores && m.db.semaphores[key].value == Limit(lim, key)
    ensures Strands(lim, DoPlace(m, n, MakeBlocked(m.db, n, 0)), key)
  {
    var m' := DoPlace(m, n, MakeBlocked(m.db, n, 0));
    assert m'.enqueuing == map[];
    assert n in Parked(m', key);
    assert Running(m'.db, key) == {};
  }
}
