/** What a promotion does to a job's attributes.

    A blocked row takes neither queue name nor priority from its job, and the ready row of a
    promoted job copies the blocked row. So blocked jobs are released in the order of their
    ids, whatever their priority, and a promoted job is in no queue that has a name. */
module Promotions {
  import opened Tables
  import opened Ordering
  import opened Semaphores
  import opened Executables
  import opened BlockedExecutions
  import opened ClaimedExecutions
  import opened BlockedQueues
  import opened Dispatching
  import opened Protocol
  import opened Lifecycle
  import opened Tokens
  import opened Runs
  import opened Operations
  import opened Patience
  import opened QueueSelector
  import opened Witnesses
  import Settlement
  import ReadyExecutions

  // ----- Blocked rows hold defaults -----

  predicate Defaults(row: BlockedRow) {
    row.queue == "" && row.priority == 0
  }

  ghost predicate AllDefaults(blocked: map<JobId, BlockedRow>) {
    forall j :: j in blocked ==> Defaults(blocked[j])
  }

  /** Rows of `after` that are not in `blocked` hold defaults. */
  ghost predicate AddsDefaults(blocked: map<JobId, BlockedRow>, after: map<JobId, BlockedRow>) {
    forall j :: j in after ==> (j in blocked && after[j] == blocked[j]) || Defaults(after[j])
  }

  lemma DispatchAddsDefaults(lim: Limits, db: Db, j: JobId, now: Time, seen: WaitPc)
    requires j in db.jobs && seen != Acquired
    ensures AddsDefaults(db.blocked, DispatchFrom(lim, db, j, now, seen).blocked)
  {
    hide DispatchFrom, Paid;
  }

  lemma DispatchesAddDefaults(lim: Limits, m: Machine, step: Step)
    requires Enabled(lim, m, step) && (step.DispatchDue? || step.Retry? || step.BulkRetry?)
    ensures AddsDefaults(m.db.blocked, Apply(lim, m, step).db.blocked)
  {
    hide AddsDefaults, DispatchFrom, Apply;
    DispatchAddsDefaults(lim, m.db, step.j, step.now, step.seen);
    DispatchesWrite(lim, m, step);
    NothingAdded(m.db.blocked);
  }

  lemma PromoteAddsDefaults(lim: Limits, m: Machine, j: JobId, now: Time, seen: WaitPc)
    requires Enabled(lim, m, Promote(j, now, seen))
    ensures AddsDefaults(m.db.blocked, DoPromote(lim, m, j, now, seen).db.blocked)
  {
    hide Release;
  }

  lemma StepAddsDefaults(lim: Limits, m: Machine, step: Step)
    requires Enabled(lim, m, step)
    ensures AddsDefaults(m.db.blocked, Apply(lim, m, step).db.blocked)
  {
    if step.DispatchDue? || step.Retry? || step.BulkRetry? {
      hide *;
      DispatchesAddDefaults(lim, m, step);
    } else if step.Promote? {
      hide AddsDefaults, Enabled;
      PromoteAddsDefaults(lim, m, step.j, step.now, step.seen);
    } else if !step.PlaceBlocked? {
      hide AddsDefaults, Enabled;
      OthersAddNothing(lim, m, step);
      NothingAdded(m.db.blocked);
    }
  }

  lemma NothingAdded(blocked: map<JobId, BlockedRow>)
    ensures AddsDefaults(blocked, blocked)
  {
  }

  lemma OthersAddNothing(lim: Limits, m: Machine, step: Step)
    requires Enabled(lim, m, step)
    requires !step.DispatchDue? && !step.Retry? && !step.BulkRetry? && !step.Promote? && !step.PlaceBlocked?
    ensures Apply(lim, m, step).db.blocked == m.db.blocked
  {
    if !(step.WaitOn? || step.Finish? || step.Fail? || step.SignalKey? || step.StartRelease? || step.LockBlocked?
         || step.Expire?)
    {
      hide Apply, Enabled;
      ElsewhereWrites(lim, m, step);
    }
  }

  lemma {:induction false} RunKeepsDefaults(lim: Limits, rule: Rule, m: Machine, steps: seq<Step>, m': Machine)
    requires AllDefaults(m.db.blocked) && IsRun(lim, rule, m, steps, m')
    ensures AllDefaults(m'.db.blocked)
    decreases |steps|
  {
    if steps != [] {
      StepAddsDefaults(lim, m, steps[0]);
      RunKeepsDefaults(lim, rule, Apply(lim, m, steps[0]), steps[1..], m');
    }
  }

  /** In every reachable state, without any restriction on runs, blocked rows have an empty
      queue name and priority zero; so of the unlocked blocked jobs of a key, the next to be
      released is the one with the smallest id, whatever queues and priorities they have. */
  lemma ReleasedByJobId(lim: Limits, m: Machine, key: Key, locked: set<JobId>, j: JobId)
    requires Reachable(lim, Unrestricted, m)
    ensures j in m.db.blocked ==> m.db.blocked[j].queue == "" && m.db.blocked[j].priority == 0
    ensures IsNext(m.db.blocked, key, locked, j) <==>
              && j in m.db.blocked && m.db.blocked[j].key == key && j !in locked
              && forall i :: i in m.db.blocked && m.db.blocked[i].key == key && i !in locked ==> j <= i
  {
    var steps :| IsRun(lim, Unrestricted, INITIAL, steps, m);
    RunKeepsDefaults(lim, Unrestricted, INITIAL, steps, m);
    assert forall i :: i in m.db.blocked ==> Defaults(m.db.blocked[i]);
  }

  /** Whoever is promoted comes to the empty queue with priority zero. */
  lemma PromotedLosesQueue(lim: Limits, m: Machine, j: JobId, now: Time, seen: WaitPc)
    requires Reachable(lim, Unrestricted, m) && Enabled(lim, m, Promote(j, now, seen))
    ensures var after := Apply(lim, m, Promote(j, now, seen)).db;
            j !in after.blocked ==> j in after.ready && after.ready[j] == ReadyRow("", 0)
  {
    hide Reaches, Release;
    ReleasedByJobId(lim, m, m.db.blocked[j].key, {}, j);
  }

  // ----- Who reads a promoted row -----

  /** A worker takes nothing when no relation of it selects the queue of a ready row. */
  lemma NothingSelected(db: Db, relations: seq<Relation>, limit: nat, p: ProcessId, locked: set<JobId>)
    requires ReadyExecutions.CanClaim(db, p)
    requires forall j :: j in db.ready && j !in locked ==> !Selected(relations, db.ready[j].queue)
    ensures ReadyExecutions.Claim(db, relations, limit, p, locked) == ReadyExecutions.Claimed(db, [], true)
  {
    ReadyExecutions.ClaimTakesFirst(db, relations, limit, p, locked);
    assert ReadyExecutions.Eligible(db.ready, relations, locked) == {};
    ReadyExecutions.RankedSize(db.ready, relations, locked);
    assert Ids(First(ReadyExecutions.Ranked(db.ready, relations, locked), limit)) == {};
    ReadyExecutions.ClaimNoRows(db, p);
  }

  /** The only ready job is one of queue "q" that was promoted, and it is there under the
      empty name; whatever the ready table's names are listed like and whichever queues are
      paused, a worker on ["q"] claims nothing. */
  ghost predicate Overlooked(db: Db, j: JobId) {
    && j in db.jobs && db.jobs[j].queue == "q" && db.ready == map[j := ReadyRow("", 0)]
    && forall listed: seq<string>, paused, limit: nat, p, locked :: ReadyExecutions.CanClaim(db, p) ==>
         ClaimsNothing(db, listed, paused, limit, p, locked)
  }

  ghost predicate ClaimsNothing(
      db: Db, listed: seq<string>, paused: set<string>, limit: nat, p: ProcessId, locked: set<JobId>)
  {
    && IsPrefixedNames(["q"], {""}, [])
    && ScopedRelations(["q"], listed, [], paused).Some?
    && ReadyExecutions.Claim(db, ScopedRelations(["q"], listed, [], paused).value, limit, p, locked)
       == ReadyExecutions.Claimed(db, [], true)
  }

  lemma NamedReadsItself(listed: seq<string>, paused: set<string>)
    ensures IsPrefixedNames(["q"], {""}, []) && ScopedRelations(["q"], listed, [], paused).Some?
    ensures !Selected(ScopedRelations(["q"], listed, [], paused).value, "")
  {
    var raws := ["q"];
    assert !HasPrefixes(raws) && raws[1..] == [] && ExactNames(raws) == ["q"];
    assert ExactNames(raws) + [] == ["q"];
    SelectedNames(raws, {""}, listed, [], paused, "");
    QueuedSelects(QueueNames(raws, listed, [], paused).value, "");
  }

  lemma NamedWorkerOverlooks(
      db: Db, j: JobId, listed: seq<string>, paused: set<string>, limit: nat, p: ProcessId, locked: set<JobId>)
    requires db.ready == map[j := ReadyRow("", 0)] && ReadyExecutions.CanClaim(db, p)
    ensures ClaimsNothing(db, listed, paused, limit, p, locked)
  {
    hide ScopedRelations, IsPrefixedNames, Selected, ReadyExecutions.Claim;
    NamedReadsItself(listed, paused);
    NothingSelected(db, ScopedRelations(["q"], listed, [], paused).value, limit, p, locked);
  }

  // ----- A run to such a state -----

  /** Jobs 0 to n - 1 of the key have its tokens, and job n waits for one. */
  ghost predicate OneWaits(db: Db, key: Key, n: nat) {
    && db.jobs.Keys == Below(n + 1) && (forall j :: j in db.jobs ==> db.jobs[j] == LimitedJob(key))
    && db.blocked == map[n := BlockedRow(key, "", 0, 60)]
    && db.processes == map[0 := WORKER] && key in db.semaphores && db.semaphores[key].value == 0
  }

  lemma OnlyRowOf(db: Db, r: Db, n: nat)
    requires forall i :: i != n ==> Untouched(db, r, i)
    ensures r.ready.Keys - {n} == db.ready.Keys - {n} && r.blocked.Keys - {n} == db.blocked.Keys - {n}
  {
    forall i ensures i in r.ready.Keys - {n} <==> i in db.ready.Keys - {n} {
      assert i == n || Untouched(db, r, i);
    }
    forall i ensures i in r.blocked.Keys - {n} <==> i in db.blocked.Keys - {n} {
      assert i == n || Untouched(db, r, i);
    }
  }

  lemma OneRow(blocked: map<JobId, BlockedRow>, n: nat, row: BlockedRow)
    requires blocked.Keys - {n} == {} && n in blocked && blocked[n] == row
    ensures blocked == map[n := row]
  {
    forall i ensures i in blocked <==> i == n {
      assert i in blocked ==> i == n || i in blocked.Keys - {n};
    }
  }

  lemma SameKeys(a: set<nat>, b: set<nat>, n: nat)
    requires a - {n} == b - {n} && n !in a && n !in b
    ensures a == b
  {
    assert a == a - {n} && b == b - {n};
  }

  lemma AllReadyLacks(db: Db, key: Key, n: nat)
    requires AllReady(db, key, n)
    ensures n !in db.jobs && n !in db.ready && n !in db.blocked && n !in db.scheduled
    ensures db.blocked.Keys - {n} == {}
  {
  }

  lemma AddedBlocked(db: Db, r: Db, key: Key, n: nat)
    requires AllReady(db, key, n) && n !in r.ready && n in r.blocked && r.blocked[n] == BlockedRow(key, "", 0, 60)
    requires forall i :: i != n ==> Untouched(db, r, i)
    ensures r.blocked == map[n := BlockedRow(key, "", 0, 60)] && r.ready.Keys == db.ready.Keys
  {
    hide *;
    OnlyRowOf(db, r, n);
    AllReadyLacks(db, key, n);
    SameKeys(r.ready.Keys, db.ready.Keys, n);
    OneRow(r.blocked, n, BlockedRow(key, "", 0, 60));
  }

  lemma OneMoreBlocked(lim: Limits, db: Db, key: Key, n: nat)
    requires AllReady(db, key, n) && key in db.semaphores && db.semaphores[key].value == 0
    ensures var r := Enqueue(lim, db, n, LimitedJob(key), 0);
            n !in db.jobs && OneWaits(r, key, n) && r.ready.Keys == Below(n) && r.claimed == map[]
  {
    hide Enqueue, OneWaits, Untouched, AllReady, Below;
    AllReadyLacks(db, key, n);
    EnqueueOutcome(lim, db, n, LimitedJob(key), 0);
    var saved, r := db.(jobs := db.jobs[n := LimitedJob(key)]), Enqueue(lim, db, n, LimitedJob(key), 0);
    assert DispatchedNow(lim, saved, r, n, 0);
    SavedUntouched(db, saved, r, n);
    AddedBlocked(db, r, key, n);
    NowWaits(db, r, key, n);
  }

  lemma NowWaits(db: Db, r: Db, key: Key, n: nat)
    requires AllReady(db, key, n) && key in db.semaphores && db.semaphores[key].value == 0
    requires r == db.(jobs := db.jobs[n := LimitedJob(key)], ready := r.ready, blocked := r.blocked)
    requires r.blocked == map[n := BlockedRow(key, "", 0, 60)] && r.ready.Keys == db.ready.Keys
    ensures OneWaits(r, key, n) && r.ready.Keys == Below(n) && r.claimed == map[]
  {
    BelowNext(n);
    hide Below;
    assert r.jobs.Keys == db.jobs.Keys + {n};
  }

  lemma BelowNext(n: nat)
    ensures Below(n + 1) == Below(n) + {n}
  {
  }

  lemma SavedUntouched(db: Db, saved: Db, r: Db, n: nat)
    requires saved == db.(jobs := saved.jobs) && forall i :: i != n ==> Untouched(saved, r, i)
    ensures forall i :: i != n ==> Untouched(db, r, i)
  {
    forall i | i != n ensures Untouched(db, r, i) {
      assert Untouched(saved, r, i);
    }
  }

  /** The end of job 0 promotes job n. */
  lemma EndPromotes(lim: Limits, db: Db, key: Key, n: nat, now: Time)
    requires OneWaits(db, key, n) && n > 0 && db.ready == map[]
    ensures 0 in db.jobs && db.blocked.Keys <= db.jobs.Keys
    ensures var r := FinishAndUnblock(lim, db, 0, now);
            r.ready == map[n := ReadyRow("", 0)] && n in r.jobs && r.jobs[n].queue == "q"
  {
    hide UnblockNext, OnlyPromotes, Queue, Next;
    assert 0 in Below(n + 1) && n in Below(n + 1);
    hide Below;
    var mid := FinishClaim(db, 0, now);
    Settlement.UnblockEffect(lim, mid, 0, now, key);
    var r := UnblockNext(lim, mid, 0, now);
    OneInQueue(mid, key, n);
    QueueHead(r, key);
    LastIsPromoted(mid, r, key, n);
  }

  lemma LastIsPromoted(db: Db, r: Db, key: Key, n: nat)
    requires db.blocked == map[n := BlockedRow(key, "", 0, 60)] && db.ready == map[]
    requires OnlyPromotes(db, r) && Next(r.blocked, key, {}).None?
    ensures r.ready == map[n := ReadyRow("", 0)]
  {
    assert n !in r.blocked;
    assert forall i :: i in r.ready <==> i == n;
  }

  lemma OneInQueue(db: Db, key: Key, n: nat)
    requires db.blocked == map[n := BlockedRow(key, "", 0, 60)]
    ensures |Queue(db, key)| == 1
  {
    var ranks := BlockedExecutions.Candidates(db.blocked, key, {});
    forall x ensures x in ranks <==> x == Rank(0, 0, n) {
      BlockedExecutions.CandidatesAre(db.blocked, key, {}, x);
    }
    assert ranks == {Rank(0, 0, n)};
  }

  /** For every limit, a run without expiry ends in a state whose only ready job is a
      promoted job of queue "q" that a worker on ["q"] never claims. */
  lemma PromotedJobOverlooked(lim: Limits, key: Key)
    ensures exists m, j :: Reachable(lim, NoExpiry, m) && Quiet(m) && Overlooked(m.db, j)
  {
    hide Reaches, Overlooked, OneWaits, AllReady, FinishAndUnblock;
    var n := Limit(lim, key);
    var m := Waits(lim, key);
    EndPromotes(lim, m.db, key, n, 0);
    var r := FinishAndUnblock(lim, m.db, 0, 0);
    ReachableInv(lim, NoExpiry, m);
    FinishRuns(lim, m, 0, 0);
    LaterReachable(lim, NoExpiry, m, m.(db := r));
    IsOverlooked(r, n);
  }

  lemma IsOverlooked(db: Db, j: JobId)
    requires db.ready == map[j := ReadyRow("", 0)] && j in db.jobs && db.jobs[j].queue == "q"
    ensures Overlooked(db, j)
  {
    forall listed: seq<string>, paused, limit: nat, p, locked | ReadyExecutions.CanClaim(db, p)
      ensures ClaimsNothing(db, listed, paused, limit, p, locked)
    {
      NamedWorkerOverlooks(db, j, listed, paused, limit, p, locked);
    }
  }

  lemma Waits(lim: Limits, key: Key) returns (m: Machine)
    ensures Reachable(lim, NoExpiry, m) && Quiet(m) && OneWaits(m.db, key, Limit(lim, key)) && m.db.ready == map[]
    ensures 0 in m.db.claimed && 0 in m.db.jobs && m.db.blocked.Keys <= m.db.jobs.Keys
  {
    hide Reachable, Reaches, Start, AllReady, OneWaits, Enqueue, Below;
    var n := Limit(lim, key);
    StartReachable(lim);
    StartIsEmpty(lim, key);
    var m1 := Fill(lim, Start(), key, 0, n);
    LaterReachable(lim, NoExpiry, Start(), m1);
    var m2 := m1.(db := Enqueue(lim, m1.db, n, LimitedJob(key), 0));
    OneMoreBlocked(lim, m1.db, key, n);
    EnqueueRuns(lim, m1, n, LimitedJob(key), 0);
    LaterReachable(lim, NoExpiry, m1, m2);
    m := AllHanded(lim, m2, key, n);
  }

  lemma AllHanded(lim: Limits, m2: Machine, key: Key, n: nat) returns (m: Machine)
    requires Reachable(lim, NoExpiry, m2) && Quiet(m2) && OneWaits(m2.db, key, n) && n > 0
    requires m2.db.ready.Keys == Below(n) && m2.db.claimed == map[]
    ensures Reachable(lim, NoExpiry, m) && Quiet(m) && OneWaits(m.db, key, n) && m.db.ready == map[]
    ensures 0 in m.db.claimed && 0 in m.db.jobs && m.db.blocked.Keys <= m.db.jobs.Keys
  {
    hide Reaches, Reachable, ClaimRows;
    m := m2.(db := ClaimRows(m2.db, m2.db.ready.Keys, 0));
    HandedOver(m2.db, key, n);
    ClaimRuns(lim, m2, 0, m2.db.ready.Keys);
    LaterReachable(lim, NoExpiry, m2, m);
  }

  lemma HandedOver(db: Db, key: Key, n: nat)
    requires OneWaits(db, key, n) && n > 0 && db.ready.Keys == Below(n) && db.claimed == map[]
    ensures var r := ClaimRows(db, db.ready.Keys, 0);
            && OneWaits(r, key, n) && r.ready == map[]
            && 0 in r.claimed && 0 in r.jobs && r.blocked.Keys <= r.jobs.Keys
  {
    assert ClaimRows(db, db.ready.Keys, 0).ready == map[];
    assert 0 in Below(n) && 0 in Below(n + 1) && n in Below(n + 1);
  }
}
