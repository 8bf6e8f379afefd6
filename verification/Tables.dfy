/** The database tables of the queue, one map per table.

    A job's execution rows carry a one-to-one column to the job, so each of these
    tables is keyed by the job's id. `Db` is one state of all tables and `Database` is the
    database itself, whose tables the queue's code changes. */
module Tables {

  datatype Option<+T> = None | Some(value: T)

  type JobId = nat
  type ProcessId = nat
  type Time = int

  /** A concurrency key. Keys are only compared, by equality and by collation order. */
  type Key = int

  /** The concurrency limits that the task classes configure, one fixed limit per key. */
  type Limits = map<Key, nat>

  /** The limit in force: a missing limit, or a limit of zero, reads as one. */
  function Limit(lim: Limits, key: Key): (n: nat)
    ensures 1 <= n
  {
    if key in lim && lim[key] != 0 then lim[key] else 1
  }

  datatype Job = Job(
    key: Option<Key>, duration: nat, queue: string, priority: int,
    scheduledAt: Option<Time>, finishedAt: Option<Time>)

  datatype ReadyRow = ReadyRow(queue: string, priority: int)
  datatype BlockedRow = BlockedRow(key: Key, queue: string, priority: int, expiresAt: Time)
  datatype ScheduledRow = ScheduledRow(queue: string, priority: int, scheduledAt: Time)
  datatype Semaphore = Semaphore(value: int, expiresAt: Time)

  datatype Kind = Worker | Dispatcher | Scheduler | Supervisor
  datatype Process = Process(kind: Kind, name: string, supervisor: Option<ProcessId>, lastHeartbeat: Time)

  /** One occurrence of a recurring task. */
  datatype Firing = Firing(task: string, runAt: Time)

  datatype Db = Db(
    jobs: map<JobId, Job>,
    ready: map<JobId, ReadyRow>,
    claimed: map<JobId, Option<ProcessId>>,
    blocked: map<JobId, BlockedRow>,
    scheduled: map<JobId, ScheduledRow>,
    failed: map<JobId, string>,
    semaphores: map<Key, Semaphore>,
    processes: map<ProcessId, Process>,
    recurring: map<Firing, JobId>)

  const EMPTY: Db := Db(map[], map[], map[], map[], map[], map[], map[], map[], map[])

  predicate Distinct(s: seq<nat>) {
    forall a, b :: 0 <= a < b < |s| ==> s[a] != s[b]
  }

  /** `order` lists `ids`, each once: the order in which a query without `ORDER BY` happens
      to give its rows. */
  ghost predicate Enumerates(order: seq<nat>, ids: set<nat>) {
    Distinct(order) && forall i :: i in order <==> i in ids
  }

  lemma EnumeratesMore(order: seq<nat>, ids: set<nat>, i: nat)
    requires Enumerates(order, ids) && i !in ids
    ensures Enumerates(order + [i], ids + {i})
  {
  }

  /** The database: its tables, which every operation of the queue changes in place. */
  class Database {
    var db: Db

    constructor ()
      ensures db == EMPTY
    {
      db := EMPTY;
    }
  }
}
