/** Processes that leave: a clean leave gives every claim back, a prune fails every claim,
    and either way no claim is left without a registered owner. */
module Departures {
  import opened Tables
  import opened ClaimedExecutions
  import opened BlockedQueues
  import opened Settlement
  import P = Processes
  import opened Lifecycle
  import opened Operations

  // ----- Leaving cleanly -----

  ghost predicate OwnedBy(claimed: map<JobId, Option<ProcessId>>, i: JobId, ps: seq<ProcessId>) {
    i in claimed && claimed[i].Some? && claimed[i].value in ps
  }

  /** The claims of the given processes became ready, with their jobs' own queue names and
      priorities; other claims, all other tables and every semaphore are as before. */
  ghost predicate HandsBack(db: Db, r: Db, ps: seq<ProcessId>) {
    && r == db.(ready := r.ready, claimed := r.claimed, processes := r.processes)
    && DropsClaims(db, r, ps) && MakesReady(db, r, ps) && Unsupervises(db, r, ps)
  }

  /** The given processes are gone, and the ones they supervised are on their own. */
  ghost predicate Unsupervises(db: Db, r: Db, ps: seq<ProcessId>) {
    && (forall q :: q in r.processes <==> q in db.processes && q !in ps)
    && (forall q :: q in r.processes ==>
          var p := db.processes[q];
          r.processes[q] == if p.supervisor.Some? && p.supervisor.value in ps then p.(supervisor := None) else p)
  }

  ghost predicate DropsClaims(db: Db, r: Db, ps: seq<ProcessId>) {
    && (forall i :: i in r.claimed <==> i in db.claimed && !OwnedBy(db.claimed, i, ps))
    && (forall i :: i in r.claimed ==> r.claimed[i] == db.claimed[i])
  }

  ghost predicate MakesReady(db: Db, r: Db, ps: seq<ProcessId>) {
    && (forall i :: i in r.ready <==> i in db.ready || OwnedBy(db.claimed, i, ps))
    && (forall i :: i in db.ready ==> r.ready[i] == db.ready[i])
    && (forall i :: OwnedBy(db.claimed, i, ps) && i in db.jobs && i in r.ready ==>
          r.ready[i] == ReadyRow(db.jobs[i].queue, db.jobs[i].priority))
  }

  lemma ClaimedNotReady(db: Db)
    requires Inv(Idle(db))
    ensures ClaimsSound(db)
  {
    forall i | i in db.claimed ensures i in db.jobs && i !in db.ready {
      assert Placed(Idle(db), i);
    }
  }

  lemma DeleteDropsClaims(db: Db, p: ProcessId)
    requires Inv(Idle(db)) && p in db.processes
    ensures DropsClaims(db, P.DeleteProcess(db, p), [p])
  {
    ClaimedNotReady(db);
    WorkersOnlyClaim(Idle(db), p);
  }

  lemma DeleteMakesReady(db: Db, p: ProcessId)
    requires Inv(Idle(db)) && p in db.processes
    ensures MakesReady(db, P.DeleteProcess(db, p), [p])
  {
    ClaimedNotReady(db);
    WorkersOnlyClaim(Idle(db), p);
  }

  lemma DeleteUnsupervises(db: Db, p: ProcessId)
    requires p in db.processes
    ensures Unsupervises(db, P.DeleteProcess(db, p), [p])
  {
  }

  lemma DeleteHandsBack(db: Db, p: ProcessId)
    requires Inv(Idle(db)) && p in db.processes
    ensures HandsBack(db, P.DeleteProcess(db, p), [p])
  {
    hide DropsClaims, MakesReady, Unsupervises;
    DeleteDropsClaims(db, p);
    DeleteMakesReady(db, p);
    DeleteUnsupervises(db, p);
  }

  lemma UnsupervisesThen(db: Db, mid: Db, r: Db, ps: seq<ProcessId>)
    requires ps != [] && Unsupervises(db, mid, [ps[0]]) && Unsupervises(mid, r, ps[1..])
    ensures Unsupervises(db, r, ps)
  {
    assert ps == [ps[0]] + ps[1..];
  }

  /** Claims have a job and an owner, and their jobs are not ready. */
  ghost predicate ClaimsSound(db: Db) {
    forall i :: i in db.claimed ==> i in db.jobs && i !in db.ready && db.claimed[i].Some?
  }

  lemma OwnedThen(db: Db, mid: Db, ps: seq<ProcessId>, i: JobId)
    requires ps != [] && DropsClaims(db, mid, [ps[0]])
    ensures OwnedBy(db.claimed, i, ps) <==> OwnedBy(db.claimed, i, [ps[0]]) || OwnedBy(mid.claimed, i, ps[1..])
  {
    assert ps == [ps[0]] + ps[1..];
  }

  lemma DropsThen(db: Db, mid: Db, r: Db, ps: seq<ProcessId>)
    requires ps != [] && DropsClaims(db, mid, [ps[0]]) && DropsClaims(mid, r, ps[1..])
    ensures DropsClaims(db, r, ps)
  {
    forall i
      ensures OwnedBy(db.claimed, i, ps) <==> OwnedBy(db.claimed, i, [ps[0]]) || OwnedBy(mid.claimed, i, ps[1..])
    {
      OwnedThen(db, mid, ps, i);
    }
  }

  lemma MakesThen(db: Db, mid: Db, r: Db, ps: seq<ProcessId>)
    requires ps != [] && ClaimsSound(db) && mid.jobs == db.jobs && DropsClaims(db, mid, [ps[0]])
    requires MakesReady(db, mid, [ps[0]]) && MakesReady(mid, r, ps[1..])
    ensures MakesReady(db, r, ps)
  {
    forall i
      ensures OwnedBy(db.claimed, i, ps) <==> OwnedBy(db.claimed, i, [ps[0]]) || OwnedBy(mid.claimed, i, ps[1..])
    {
      OwnedThen(db, mid, ps, i);
    }
  }

  lemma HandsBackThen(db: Db, mid: Db, r: Db, ps: seq<ProcessId>)
    requires ps != [] && ClaimsSound(db)
    requires HandsBack(db, mid, [ps[0]]) && HandsBack(mid, r, ps[1..])
    ensures HandsBack(db, r, ps)
  {
    hide DropsClaims, MakesReady, Unsupervises, ClaimsSound;
    DropsThen(db, mid, r, ps);
    MakesThen(db, mid, r, ps);
    UnsupervisesThen(db, mid, r, ps);
  }

  lemma DeleteKeepsSane(lim: Limits, db: Db, p: ProcessId)
    requires Sane(lim, db) && p in db.processes
    ensures Sane(lim, P.DeleteProcess(db, p))
  {
    ClaimedNotReady(db);
    DeleteProcessRuns(lim, Idle(db), p);
    RunKeepsSane(lim, db, P.DeleteProcess(db, p));
  }

  lemma {:induction false} DeleteAllHandsBack(lim: Limits, db: Db, ps: seq<ProcessId>)
    requires Sane(lim, db) && P.Registered(db, ps)
    ensures HandsBack(db, P.DeleteAll(db, ps), ps) && Sane(lim, P.DeleteAll(db, ps))
    decreases |ps|
  {
    if ps != [] {
      P.TailRegistered(db, ps);
      var mid := P.DeleteProcess(db, ps[0]);
      DeleteHandsBack(db, ps[0]);
      DeleteKeepsSane(lim, db, ps[0]);
      DeleteAllHandsBack(lim, mid, ps[1..]);
      ClaimedNotReady(db);
      HandsBackThen(db, mid, P.DeleteAll(mid, ps[1..]), ps);
    }
  }

  /** Deregistering an unsupervised supervisor, with its supervisees in any order: all of
      them are gone, all their claims are ready again, no semaphore moved, and every
      remaining claim has a registered owner. */
  lemma {:induction false} SupervisorLeaves(lim: Limits, db: Db, s: ProcessId, supervisees: seq<ProcessId>)
    requires Sane(lim, db) && s in db.processes && P.Registered(P.DeleteProcess(db, s), supervisees)
    requires forall q :: q in supervisees <==> q in P.Supervisees(db.processes, s)
    ensures var r := P.DeleteAll(P.DeleteProcess(db, s), supervisees);
            && HandsBack(db, r, [s] + supervisees)
            && (forall i :: i in r.claimed ==> r.claimed[i].Some? && r.claimed[i].value in r.processes)
            && (forall q :: q in r.processes <==>
                  q in db.processes && q != s && db.processes[q].supervisor != Some(s))
            && r.semaphores == db.semaphores && Sane(lim, r)
  {
    var mid := P.DeleteProcess(db, s);
    var ps := [s] + supervisees;
    DeleteHandsBack(db, s);
    DeleteKeepsSane(lim, db, s);
    DeleteAllHandsBack(lim, mid, supervisees);
    ClaimedNotReady(db);
    assert ps[1..] == supervisees;
    HandsBackThen(db, mid, P.DeleteAll(mid, supervisees), ps);
    assert Owned(Idle(P.DeleteAll(mid, supervisees)));
  }

  // ----- Being pruned -----

  ghost function PruneOne(lim: Limits, db: Db, p: ProcessId, order: seq<JobId>, error: string, now: Time): Db
    requires p in db.processes && db.blocked.Keys <= db.jobs.Keys && forall j :: j in order ==> j in db.jobs
    requires p in FailAll(lim, db, order, error, now).processes
  {
    P.DeleteProcess(FailAll(lim, db, order, error, now), p)
  }

  /** `order` lists the claims of process `p`. */
  ghost predicate ListsClaims(db: Db, order: seq<JobId>, p: ProcessId) {
    Enumerates(order, ClaimedBy(db.claimed, p))
  }

  lemma NothingToHandBack(db: Db, p: ProcessId)
    requires Inv(Idle(db)) && p in db.processes && ClaimedBy(db.claimed, p) == {}
    ensures var r := P.DeleteProcess(db, p);
            r == db.(processes := r.processes) && forall q :: q in r.processes <==> q in db.processes && q != p
  {
    WorkersOnlyClaim(Idle(db), p);
    ReleaseNoRows(db);
    assert P.WithoutProcess(db, p).claimed == db.claimed;
  }

  /** Pruning a dead worker: its row is gone, it has no claims, each of its jobs is failed,
      other claims stay, and for each key as many jobs are promoted from the front of the
      blocked queue as jobs of the key it held, or as many as there are. */
  lemma {:induction false} PruneSettles(lim: Limits, db: Db, p: ProcessId, order: seq<JobId>, error: string, now: Time)
    requires Sane(lim, db) && p in db.processes && ListsClaims(db, order, p) && db.blocked.Keys <= db.jobs.Keys
    ensures forall j :: j in order ==> j in db.jobs
    ensures p in FailAll(lim, db, order, error, now).processes
    ensures var r := PruneOne(lim, db, p, order, error, now);
            && (forall q :: q in r.processes <==> q in db.processes && q != p) && ClaimedBy(r.claimed, p) == {}
            && MovesToFailed(db, r.(processes := db.processes), order, error)
            && (forall key :: Queue(r, key) == Drop(Queue(db, key), |KeyJobs(db.jobs, order, key)|))
            && Sane(lim, r)
  {
    ClaimedNotReady(db);
    FailAllSettles(lim, db, order, error, now);
    var mid := FailAll(lim, db, order, error, now);
    assert ClaimedBy(mid.claimed, p) == {};
    NothingToHandBack(mid, p);
    DeleteKeepsSane(lim, mid, p);
    var r := P.DeleteProcess(mid, p);
    assert PruneOne(lim, db, p, order, error, now) == r;
    assert r.(processes := db.processes) == mid;
    QueuesByCount(db, mid, order);
    forall key ensures Queue(r, key) == Drop(Queue(db, key), |KeyJobs(db.jobs, order, key)|) {
      assert Queue(r, key) == Queue(mid, key);
    }
  }

  lemma QueuesByCount(db: Db, r: Db, order: seq<JobId>)
    requires ServesQueues(db, r, order) && Distinct(order)
    ensures forall key :: Queue(r, key) == Drop(Queue(db, key), |KeyJobs(db.jobs, order, key)|)
  {
    forall key ensures Queue(r, key) == Drop(Queue(db, key), |KeyJobs(db.jobs, order, key)|) {
      CountsKeyJobs(db.jobs, order, key);
    }
  }

  // ----- The same operations on the database -----

  lemma {:induction false} FailAllSnoc(lim: Limits, db: Db, order: seq<JobId>, j: JobId, error: string, now: Time)
    requires db.blocked.Keys <= db.jobs.Keys && j in db.jobs && forall i :: i in order ==> i in db.jobs
    ensures var mid := FailAll(lim, db, order, error, now);
            && mid.jobs == db.jobs && mid.processes == db.processes && mid.blocked.Keys <= mid.jobs.Keys
            && FailAll(lim, db, order + [j], error, now) == FailAndUnblock(lim, mid, j, error, now)
    decreases |order|
  {
    var longer := order + [j];
    if order == [] {
      assert longer[1..] == [];
      assert FailAll(lim, db, longer, error, now)
             == FailAll(lim, FailAndUnblock(lim, db, j, error, now), [], error, now);
    } else {
      assert longer[1..] == order[1..] + [j];
      FailAllSnoc(lim, FailAndUnblock(lim, db, order[0], error, now), order[1..], j, error, now);
    }
  }

  /** `fail_all_claimed_executions_with`, in the order the query happens to give. */
  method FailAllClaimed(
      database: Database, lim: Limits, p: ProcessId, error: string, now: Time) returns (ghost order: seq<JobId>)
    requires p in database.db.processes && database.db.blocked.Keys <= database.db.jobs.Keys
    requires database.db.claimed.Keys <= database.db.jobs.Keys
    modifies database
    ensures forall j :: j in order ==> j in old(database.db).jobs
    ensures if old(database.db).processes[p].kind == Worker then ListsClaims(old(database.db), order, p)
            else order == []
    ensures database.db == FailAll(lim, old(database.db), order, error, now)
    ensures database.db.processes == old(database.db).processes && database.db.claimed.Keys <= database.db.jobs.Keys
  {
    ghost var before := database.db;
    order := [];
    if database.db.processes[p].kind != Worker {
      return;
    }
    var rest := ClaimedBy(database.db.claimed, p);
    ghost var done := {};
    while rest != {}
      invariant rest + done == ClaimedBy(before.claimed, p) && rest !! done
      invariant FailedSoFar(lim, before, database.db, order, done, error, now)
      decreases rest
    {
      var j :| j in rest;
      EnumeratesMore(order, done, j);
      FailAllSnoc(lim, before, order, j, error, now);
      FailAndUnblockOne(database, lim, j, error, now);
      order, done := order + [j], done + {j};
      rest := rest - {j};
    }
    assert done == ClaimedBy(before.claimed, p);
  }

  ghost predicate FailedSoFar(
      lim: Limits, before: Db, db: Db, order: seq<JobId>, done: set<JobId>, error: string, now: Time)
    requires before.blocked.Keys <= before.jobs.Keys
  {
    && Enumerates(order, done) && done <= before.jobs.Keys
    && db == FailAll(lim, before, order, error, now)
    && db.jobs == before.jobs && db.processes == before.processes
    && db.blocked.Keys <= db.jobs.Keys && db.claimed.Keys <= db.jobs.Keys
  }

  method FailAndUnblockOne(database: Database, lim: Limits, j: JobId, error: string, now: Time)
    requires database.db.blocked.Keys <= database.db.jobs.Keys && database.db.claimed.Keys <= database.db.jobs.Keys
    requires j in database.db.jobs
    modifies database
    ensures database.db == FailAndUnblock(lim, old(database.db), j, error, now)
    ensures database.db.processes == old(database.db).processes && database.db.claimed.Keys <= database.db.jobs.Keys
  {
    FailedWith(database, j, error);
    UnblockNextBlockedJob(database, lim, j, now);
  }

  const PRUNED := "ProcessPrunedError"

  /** `Prunable.prune`. */
  method Prune(database: Database, lim: Limits, p: ProcessId, now: Time) returns (ghost order: seq<JobId>)
    requires p in database.db.processes && database.db.blocked.Keys <= database.db.jobs.Keys
    requires database.db.claimed.Keys <= database.db.jobs.Keys
    modifies database
    ensures forall j :: j in order ==> j in old(database.db).jobs
    ensures if old(database.db).processes[p].kind == Worker then ListsClaims(old(database.db), order, p)
            else order == []
    ensures p in FailAll(lim, old(database.db), order, PRUNED, now).processes
    ensures database.db == PruneOne(lim, old(database.db), p, order, PRUNED, now)
  {
    order := FailAllClaimed(database, lim, p, PRUNED, now);
    var _ := P.Deregister(database, p, true);
  }

  predicate IsPrunable(process: Process, now: Time, aliveThreshold: nat) {
    process.lastHeartbeat < now - aliveThreshold
  }

  function PrunableIds(
      processes: map<ProcessId, Process>, now: Time, aliveThreshold: nat, excluding: Option<ProcessId>)
    : set<ProcessId>
  {
    set p | p in processes && IsPrunable(processes[p], now, aliveThreshold) && Some(p) != excluding
  }

  /** What pruning the processes in `ps` leaves of the claims of `db`. */
  ghost predicate Pruned(db: Db, r: Db, ps: set<ProcessId>) {
    && r.jobs == db.jobs
    && (forall p :: p in r.processes <==> p in db.processes && p !in ps)
    && RemovesClaims(db, r, ps) && KeepsOthers(db, r)
  }

  ghost predicate RemovesClaims(db: Db, r: Db, ps: set<ProcessId>) {
    forall i :: i in r.claimed <==> i in db.claimed && (db.claimed[i].None? || db.claimed[i].value !in ps)
  }

  ghost predicate KeepsOthers(db: Db, r: Db) {
    && (forall i :: i in r.claimed && i in db.claimed ==> r.claimed[i] == db.claimed[i])
    && (forall i :: i in db.claimed && i !in r.claimed ==> i in r.failed && r.failed[i] == PRUNED)
    && (forall i :: i in db.failed ==> i in r.failed && (i in db.claimed || r.failed[i] == db.failed[i]))
    && (forall i :: i in r.failed ==> i in db.failed || (i in db.claimed && i !in r.claimed))
  }

  lemma PrunedClaims(db: Db, mid: Db, r: Db, ps: set<ProcessId>, p: ProcessId, order: seq<JobId>)
    requires Pruned(db, mid, ps) && p !in ps && ListsClaims(mid, order, p)
    requires MovesToFailed(mid, r.(processes := mid.processes), order, PRUNED)
    requires forall q :: q in r.processes <==> q in mid.processes && q != p
    ensures Pruned(db, r, ps + {p})
  {
    hide OnlyPromotes;
    PrunedAre(db, mid, r, ps, p, order);
    OthersAreKept(db, mid, r, ps, p, order);
  }

  lemma PrunedAre(db: Db, mid: Db, r: Db, ps: set<ProcessId>, p: ProcessId, order: seq<JobId>)
    requires RemovesClaims(db, mid, ps) && KeepsOthers(db, mid) && ListsClaims(mid, order, p)
    requires forall i :: i in r.claimed <==> i in mid.claimed && i !in order
    ensures RemovesClaims(db, r, ps + {p})
  {
  }

  lemma OthersAreKept(db: Db, mid: Db, r: Db, ps: set<ProcessId>, p: ProcessId, order: seq<JobId>)
    requires RemovesClaims(db, mid, ps) && KeepsOthers(db, mid) && ListsClaims(mid, order, p)
    requires MovesToFailed(mid, r.(processes := mid.processes), order, PRUNED)
    ensures KeepsOthers(db, r)
  {
    hide OnlyPromotes;
    forall i | i in db.claimed && i !in r.claimed ensures i in r.failed && r.failed[i] == PRUNED {
      assert i in order || i !in mid.claimed;
    }
  }

  lemma PrunedOneMore(lim: Limits, db: Db, mid: Db, ps: set<ProcessId>, p: ProcessId, order: seq<JobId>, now: Time)
    requires Sane(lim, mid) && Pruned(db, mid, ps) && p !in ps && p in mid.processes
    requires ListsClaims(mid, order, p) && mid.blocked.Keys <= mid.jobs.Keys
    ensures forall j :: j in order ==> j in mid.jobs
    ensures p in FailAll(lim, mid, order, PRUNED, now).processes
    ensures var r := PruneOne(lim, mid, p, order, PRUNED, now); Sane(lim, r) && Pruned(db, r, ps + {p})
  {
    PruneSettles(lim, mid, p, order, PRUNED, now);
    PrunedClaims(db, mid, PruneOne(lim, mid, p, order, PRUNED, now), ps, p, order);
  }

  ghost predicate Progress(lim: Limits, before: Db, db: Db, done: set<ProcessId>) {
    Sane(lim, db) && Pruned(before, db, done)
  }

  /** One round of the loop. */
  method PruneNext(database: Database, lim: Limits, p: ProcessId, now: Time, ghost before: Db, ghost ps: set<ProcessId>)
    requires Progress(lim, before, database.db, ps) && p !in ps && p in before.processes
    modifies database
    ensures Progress(lim, before, database.db, ps + {p})
  {
    SaneRows(lim, database.db);
    ghost var mid := database.db;
    ghost var order := Prune(database, lim, p, now);
    OnlyWorkersClaim(lim, mid, p, order);
    PrunedOneMore(lim, before, mid, ps, p, order, now);
  }

  /** `PrunableQuerySet.prune`: every process but `excluding` whose heartbeat is too old is
      gone, exactly their claims are failed, and the tables are still sane. */
  method PruneDead(database: Database, lim: Limits, now: Time, aliveThreshold: nat, excluding: Option<ProcessId>)
    requires Sane(lim, database.db)
    modifies database
    ensures Sane(lim, database.db)
    ensures Pruned(old(database.db), database.db,
            PrunableIds(old(database.db).processes, now, aliveThreshold, excluding))
    ensures forall p :: p in database.db.processes <==>
              && p in old(database.db).processes
              && (Some(p) == excluding || now - aliveThreshold <= old(database.db).processes[p].lastHeartbeat)
    ensures forall i :: i in database.db.claimed <==>
              && i in old(database.db).claimed
              && (old(database.db).claimed[i].Some? ==> old(database.db).claimed[i].value in database.db.processes)
  {
    hide Pruned, Sane;
    ghost var before := database.db;
    var prunable := PrunableIds(database.db.processes, now, aliveThreshold, excluding);
    assert prunable <= before.processes.Keys;
    var rest := prunable;
    ghost var done := {};
    NonePruned(before);
    while rest != {}
      invariant rest + done == prunable && rest !! done
      invariant Progress(lim, before, database.db, done)
      decreases rest
    {
      var p :| p in rest;
      PruneNext(database, lim, p, now, before, done);
      done := done + {p};
      rest := rest - {p};
    }
    assert done == prunable;
    HeartbeatsDecide(lim, before, database.db, now, aliveThreshold, excluding);
  }

  /** Who survives a prune, in dates: a heartbeat exactly as old as the threshold is young
      enough. A claim survives exactly if its owner does. */
  lemma HeartbeatsDecide(
      lim: Limits, db: Db, r: Db, now: Time, aliveThreshold: nat, excluding: Option<ProcessId>)
    requires Sane(lim, db) && Pruned(db, r, PrunableIds(db.processes, now, aliveThreshold, excluding))
    ensures forall p :: p in r.processes <==>
              && p in db.processes
              && (Some(p) == excluding || now - aliveThreshold <= db.processes[p].lastHeartbeat)
    ensures forall i :: i in r.claimed <==>
              i in db.claimed && (db.claimed[i].Some? ==> db.claimed[i].value in r.processes)
  {
    assert Owned(Idle(db));
  }

  lemma NonePruned(db: Db)
    ensures Pruned(db, db, {})
  {
  }

  lemma SaneRows(lim: Limits, db: Db)
    requires Sane(lim, db)
    ensures db.blocked.Keys <= db.jobs.Keys && db.claimed.Keys <= db.jobs.Keys
  {
    ClaimedNotReady(db);
    IdleRowsSound(db);
  }

  lemma OnlyWorkersClaim(lim: Limits, db: Db, p: ProcessId, order: seq<JobId>)
    requires Sane(lim, db) && p in db.processes
    requires if db.processes[p].kind == Worker then ListsClaims(db, order, p) else order == []
    ensures ListsClaims(db, order, p)
  {
    assert Owned(Idle(db));
  }
}
