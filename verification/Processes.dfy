/** Registered processes: leaving, and what deleting their rows does. */
module Processes {
  import opened Tables
  import opened ClaimedExecutions

  /** Deleting a process row sets the process of its claimed rows, and the supervisor of
      its supervisees, to null. */
  function WithoutProcess(db: Db, p: ProcessId): Db {
    db.(claimed := map j | j in db.claimed :: if db.claimed[j] == Some(p) then None else db.claimed[j],
        processes := map q | q in db.processes && q != p ::
          var process := db.processes[q];
          process.(supervisor := if process.supervisor == Some(p) then None else process.supervisor))
  }

  /** `Process.delete`: a worker's claims go back to ready first. */
  function DeleteProcess(db: Db, p: ProcessId): Db
    requires p in db.processes
  {
    WithoutProcess(if db.processes[p].kind == Worker then ReleaseRows(db, ClaimedBy(db.claimed, p)) else db, p)
  }

  predicate Registered(db: Db, order: seq<ProcessId>) {
    Distinct(order) && forall p :: p in order ==> p in db.processes
  }

  lemma TailRegistered(db: Db, order: seq<ProcessId>)
    requires Registered(db, order) && order != []
    ensures Registered(DeleteProcess(db, order[0]), order[1..])
  {
    forall p | p in order[1..] ensures p in DeleteProcess(db, order[0]).processes {
      var a :| 1 <= a < |order| && order[a] == p;
    }
  }

  /** Deleting several registered processes, one after the other. */
  function DeleteAll(db: Db, order: seq<ProcessId>): (r: Db)
    requires Registered(db, order)
    ensures forall p :: p in r.processes <==> p in db.processes && p !in order
    ensures r.jobs == db.jobs
    decreases |order|
  {
    if order == [] then db
    else
      TailRegistered(db, order);
      DeleteAll(DeleteProcess(db, order[0]), order[1..])
  }

  lemma RegisteredSnoc(db: Db, order: seq<ProcessId>, q: ProcessId)
    requires Registered(db, order) && q in db.processes && q !in order
    ensures Registered(db, order + [q])
  {
  }

  lemma {:induction false} DeleteAllSnoc(db: Db, order: seq<ProcessId>, q: ProcessId)
    requires Registered(db, order) && Registered(db, order + [q])
    requires q in DeleteAll(db, order).processes
    ensures DeleteAll(db, order + [q]) == DeleteProcess(DeleteAll(db, order), q)
    decreases |order|
  {
    var longer := order + [q];
    if order == [] {
      assert longer[1..] == [];
    } else {
      TailRegistered(db, order);
      TailRegistered(db, longer);
      assert longer[1..] == order[1..] + [q];
      var next := DeleteProcess(db, order[0]);
      assert DeleteAll(db, order) == DeleteAll(next, order[1..]);
      assert DeleteAll(db, longer) == DeleteAll(next, order[1..] + [q]);
      DeleteAllSnoc(next, order[1..], q);
    }
  }

  /** The registered processes that a supervisor supervises. */
  function Supervisees(processes: map<ProcessId, Process>, s: ProcessId): set<ProcessId> {
    set p | p in processes && processes[p].supervisor == Some(s)
  }

  // ----- The same operations on the database -----

  /** `release_all`, in the order the query happens to give. */
  method ReleaseAll(database: Database, rows: set<JobId>)
    requires rows <= database.db.jobs.Keys
    modifies database
    ensures database.db == ReleaseRows(old(database.db), rows)
  {
    ghost var before := database.db;
    var rest := rows;
    ReleaseNoRows(before);
    while rest != {}
      invariant rest <= rows && database.db.jobs == before.jobs
      invariant ReleaseRows(database.db, rest) == ReleaseRows(before, rows)
      decreases rest
    {
      var j :| j in rest;
      ReleaseRowsOneMore(database.db, rest, j);
      ReleaseClaimed(database, j);
      rest := rest - {j};
    }
    ReleaseNoRows(database.db);
  }

  method Delete(database: Database, p: ProcessId)
    requires p in database.db.processes && database.db.claimed.Keys <= database.db.jobs.Keys
    modifies database
    ensures database.db == DeleteProcess(old(database.db), p)
  {
    if database.db.processes[p].kind == Worker {
      ReleaseAll(database, ClaimedBy(database.db.claimed, p));
    }
    database.db := WithoutProcess(database.db, p);
  }

  ghost predicate Deregistered(before: Db, db: Db, order: seq<ProcessId>, done: set<ProcessId>) {
    && Registered(before, order) && Enumerates(order, done)
    && db == DeleteAll(before, order) && db.claimed.Keys <= db.jobs.Keys
  }

  lemma DeregisterMore(before: Db, db: Db, db': Db, order: seq<ProcessId>, done: set<ProcessId>, q: ProcessId)
    requires Deregistered(before, db, order, done) && q in before.processes && q !in done
    requires q in db.processes && db' == DeleteProcess(db, q) && db'.claimed.Keys <= db'.jobs.Keys
    ensures Deregistered(before, db', order + [q], done + {q})
  {
    RegisteredSnoc(before, order, q);
    EnumeratesMore(order, done, q);
    DeleteAllSnoc(before, order, q);
  }

  /** Deregistering supervised processes, in the order the query happens to give. */
  method DeregisterAll(database: Database, ps: set<ProcessId>) returns (ghost order: seq<ProcessId>)
    requires ps <= database.db.processes.Keys && database.db.claimed.Keys <= database.db.jobs.Keys
    modifies database
    ensures Registered(old(database.db), order) && Enumerates(order, ps)
    ensures database.db == DeleteAll(old(database.db), order)
  {
    ghost var before := database.db;
    order := [];
    var rest := ps;
    ghost var done := {};
    while rest != {}
      invariant rest + done == ps && rest !! done
      invariant Deregistered(before, database.db, order, done)
      decreases rest
    {
      var q :| q in rest;
      ghost var mid := database.db;
      Delete(database, q);
      DeregisterMore(before, mid, database.db, order, done, q);
      order, done := order + [q], done + {q};
      rest := rest - {q};
    }
    assert done == ps;
  }

  /** `deregister`: a pruned or supervised process goes alone, a supervisor of its own takes
      the processes it supervises with it, collected before its own row is deleted. */
  method Deregister(database: Database, p: ProcessId, pruned: bool) returns (ghost order: seq<ProcessId>)
    requires p in database.db.processes && database.db.claimed.Keys <= database.db.jobs.Keys
    modifies database
    ensures var before := old(database.db); var after := DeleteProcess(before, p);
            && Registered(after, order) && database.db == DeleteAll(after, order)
            && forall q :: q in order <==>
                 && !pruned && before.processes[p].supervisor.None?
                 && q in before.processes && before.processes[q].supervisor == Some(p)
  {
    var supervisees := {};
    if !pruned && database.db.processes[p].supervisor.None? {
      supervisees := Supervisees(database.db.processes, p);
    }
    assert p !in supervisees;
    Delete(database, p);
    order := DeregisterAll(database, supervisees);
  }
}
