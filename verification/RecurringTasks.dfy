/** Recurring tasks: however many schedulers fire an occurrence, it is enqueued once.

    Enqueueing the job and recording the occurrence are one transaction; the record is
    unique per task and time, so a second attempt is rolled back as a whole. */
module RecurringTasks {
  import opened Tables
  import opened Executables
  import opened Lifecycle
  import opened Tokens
  import opened Runs
  import opened Operations
  import opened Quiescence

  datatype Recorded = Recorded(db: Db, ok: bool)

  /** `enqueue_and_record`, as its transaction commits or rolls back. */
  function EnqueueAndRecord(lim: Limits, db: Db, j: JobId, job: Job, firing: Firing, now: Time): Recorded {
    var after := Enqueue(lim, db, j, job, now);
    if firing in after.recurring then Recorded(db, false)
    else Recorded(after.(recurring := after.recurring[firing := j]), true)
  }

  /** What happens to the queue: some scheduler fires, or anything else. */
  datatype Event =
    | Fire(j: JobId, job: Job, firing: Firing, at: Time)
    | Other(op: Operation)

  ghost predicate CanHappen(lim: Limits, db: Db, event: Event) {
    match event
    case Fire(j, job, firing, at) => j !in db.jobs && job.finishedAt.None?
    case Other(op) => Possible(lim, db, op)
  }

  ghost function Happen(lim: Limits, db: Db, event: Event): Db
    requires CanHappen(lim, db, event)
  {
    match event
    case Fire(j, job, firing, at) => EnqueueAndRecord(lim, db, j, job, firing, at).db
    case Other(op) => Do(lim, db, op)
  }

  ghost predicate Story(lim: Limits, db: Db, events: seq<Event>, db': Db)
    decreases |events|
  {
    if events == [] then db' == db
    else CanHappen(lim, db, events[0]) && Story(lim, Happen(lim, db, events[0]), events[1..], db')
  }

  // ----- What single events do -----

  lemma EnqueueFrame(lim: Limits, db: Db, j: JobId, job: Job, now: Time)
    ensures Enqueue(lim, db, j, job, now).jobs == db.jobs[j := job]
    ensures Enqueue(lim, db, j, job, now).recurring == db.recurring
  {
  }

  lemma EndFrame(lim: Limits, db: Db, op: Operation)
    requires Possible(lim, db, op) && (op.Complete? || op.Crash? || op.Maintain? || op.SignOff?)
    ensures Do(lim, db, op).jobs.Keys == db.jobs.Keys && Do(lim, db, op).recurring == db.recurring
  {
  }

  /** No other operation touches the records, and only saving makes a new job. */
  lemma OperationFrame(lim: Limits, db: Db, op: Operation)
    requires Possible(lim, db, op)
    ensures Do(lim, db, op).recurring == db.recurring
    ensures Do(lim, db, op).jobs.Keys == if op.Save? then db.jobs.Keys + {op.j} else db.jobs.Keys
  {
    if op.Save? {
      EnqueueFrame(lim, db, op.j, op.job, op.now);
    } else if op.Complete? || op.Crash? || op.Maintain? || op.SignOff? {
      EndFrame(lim, db, op);
    }
  }

  lemma RecordsDoNotMatter(lim: Limits, db: Db, recurring: map<Firing, JobId>)
    requires Sane(lim, db)
    ensures Sane(lim, db.(recurring := recurring))
  {
    var m, m' := Idle(db), Idle(db.(recurring := recurring));
    forall j ensures Placed(m', j) {
      assert Placed(m, j);
    }
    assert Inv(m');
    forall key ensures Conserved(lim, m', key) {
      assert Conserved(lim, m, key);
      assert Holders(m', key) == Holders(m, key) && Debts(m', key) == Debts(m, key);
    }
  }

  lemma FireKeepsSane(lim: Limits, db: Db, j: JobId, job: Job, firing: Firing, now: Time)
    requires Sane(lim, db) && j !in db.jobs && job.finishedAt.None?
    ensures Sane(lim, EnqueueAndRecord(lim, db, j, job, firing, now).db)
  {
    var after := Enqueue(lim, db, j, job, now);
    EnqueueRuns(lim, Idle(db), j, job, now);
    RunKeepsSane(lim, db, after);
    RecordsDoNotMatter(lim, after, after.recurring[firing := j]);
  }

  // ----- Whole stories -----

  function Fired(events: seq<Event>): set<Firing> {
    set e | e in events && e.Fire? :: e.firing
  }

  function Saves(events: seq<Event>): nat {
    if events == [] then 0 else One(events[0].Other? && events[0].op.Save?) + Saves(events[1..])
  }

  /** Every record belongs to a job, and no two to the same. */
  ghost predicate RecordsSound(db: Db) {
    && (forall f :: f in db.recurring ==> db.recurring[f] in db.jobs)
    && (forall f, g :: f in db.recurring && g in db.recurring && f != g ==> db.recurring[f] != db.recurring[g])
  }

  /** Between two states: records stay, those of `fired` are added, each with one new job, and
      `saves` other jobs are new. */
  ghost predicate Records(db: Db, db': Db, fired: set<Firing>, saves: nat) {
    && (forall f :: f in db'.recurring <==> f in db.recurring || f in fired)
    && (forall f :: f in db.recurring ==> db'.recurring[f] == db.recurring[f])
    && |db'.jobs| + |db.recurring| == |db.jobs| + |db'.recurring| + saves
  }

  lemma AddsSoundly(db: Db, r: Db, j: JobId, job: Job, firing: Firing)
    requires RecordsSound(db) && j !in db.jobs && r.jobs == db.jobs[j := job]
             && r.recurring == db.recurring[firing := j]
    ensures RecordsSound(r)
  {
  }

  lemma AddsOne<K, V>(m: map<K, V>, k: K, v: V)
    requires k !in m
    ensures |m[k := v]| == |m| + 1
  {
    assert m[k := v].Keys == m.Keys + {k};
    assert |m[k := v]| == |m[k := v].Keys| && |m| == |m.Keys|;
  }

  lemma AddsRecord(db: Db, r: Db, j: JobId, job: Job, firing: Firing)
    requires RecordsSound(db) && j !in db.jobs && firing !in db.recurring
    requires r.jobs == db.jobs[j := job] && r.recurring == db.recurring[firing := j]
    ensures RecordsSound(r) && Records(db, r, {firing}, 0)
  {
    AddsSoundly(db, r, j, job, firing);
    AddsOne(db.jobs, j, job);
    AddsOne(db.recurring, firing, j);
  }

  lemma FireRecords(lim: Limits, db: Db, j: JobId, job: Job, firing: Firing, now: Time)
    requires RecordsSound(db) && j !in db.jobs
    ensures var r := EnqueueAndRecord(lim, db, j, job, firing, now).db;
            RecordsSound(r) && Records(db, r, {firing}, 0)
  {
    EnqueueFrame(lim, db, j, job, now);
    var after, r := Enqueue(lim, db, j, job, now), EnqueueAndRecord(lim, db, j, job, firing, now).db;
    if firing in db.recurring {
      assert r == db;
    } else {
      assert r == after.(recurring := after.recurring[firing := j]);
      AddsRecord(db, r, j, job, firing);
    }
  }

  lemma NothingRecorded(db: Db, r: Db, saved: set<JobId>)
    requires RecordsSound(db) && r.recurring == db.recurring && r.jobs.Keys == db.jobs.Keys + saved
             && saved !! db.jobs.Keys
    ensures RecordsSound(r) && Records(db, r, {}, |saved|)
  {
    assert |r.jobs| == |r.jobs.Keys| && |db.jobs| == |db.jobs.Keys|;
  }

  lemma OtherRecords(lim: Limits, db: Db, op: Operation)
    requires RecordsSound(db) && Possible(lim, db, op)
    ensures RecordsSound(Do(lim, db, op)) && Records(db, Do(lim, db, op), {}, One(op.Save?))
  {
    hide Do, RecordsSound, Records;
    OperationFrame(lim, db, op);
    NothingRecorded(db, Do(lim, db, op), if op.Save? then {op.j} else {});
  }

  lemma OtherKeepsSane(lim: Limits, db: Db, op: Operation)
    requires Sane(lim, db) && Possible(lim, db, op)
    ensures Sane(lim, Do(lim, db, op))
  {
    OperationReaches(lim, db, op);
    RunKeepsSane(lim, db, Do(lim, db, op));
  }

  lemma EventRecords(lim: Limits, db: Db, event: Event)
    requires Sane(lim, db) && RecordsSound(db) && CanHappen(lim, db, event)
    ensures var r := Happen(lim, db, event);
            && Sane(lim, r) && RecordsSound(r)
            && Records(db, r, if event.Fire? then {event.firing} else {}, One(event.Other? && event.op.Save?))
  {
    match event
    case Fire(j, job, firing, at) =>
      FireKeepsSane(lim, db, j, job, firing, at);
      FireRecords(lim, db, j, job, firing, at);
    case Other(op) =>
      OtherKeepsSane(lim, db, op);
      OtherRecords(lim, db, op);
  }

  lemma RecordsThen(a: Db, b: Db, c: Db, x: set<Firing>, y: set<Firing>, n: nat, k: nat)
    requires Records(a, b, x, n) && Records(b, c, y, k)
    ensures Records(a, c, x + y, n + k)
  {
  }

  lemma FiredHead(events: seq<Event>)
    requires events != []
    ensures Fired(events) == (if events[0].Fire? then {events[0].firing} else {}) + Fired(events[1..])
  {
    assert events == [events[0]] + events[1..];
  }

  lemma {:induction false} StoryRecords(lim: Limits, db: Db, events: seq<Event>, db': Db)
    requires Sane(lim, db) && RecordsSound(db) && Story(lim, db, events, db')
    ensures Sane(lim, db') && RecordsSound(db') && Records(db, db', Fired(events), Saves(events))
    decreases |events|
  {
    if events != [] {
      var e, mid := events[0], Happen(lim, db, events[0]);
      EventRecords(lim, db, e);
      StoryRecords(lim, mid, events[1..], db');
      FiredHead(events);
      var firing := if e.Fire? then {e.firing} else {};
      RecordsThen(db, mid, db', firing, Fired(events[1..]), One(e.Other? && e.op.Save?), Saves(events[1..]));
    }
  }

  /** Whatever fires and whatever else happens, in any order: exactly the fired occurrences
      are recorded, each with a job of its own, and apart from those only saved jobs exist;
      all of them are in one place, with every token accounted for. */
  lemma {:induction false} EnqueuedOnce(lim: Limits, events: seq<Event>, db: Db)
    requires Story(lim, EMPTY, events, db)
    ensures (forall f :: f in db.recurring <==> f in Fired(events)) && RecordsSound(db)
    ensures |db.jobs| == |Fired(events)| + Saves(events)
    ensures Sane(lim, db)
  {
    EmptyIsSane(lim);
    StoryRecords(lim, EMPTY, events, db);
    assert db.recurring.Keys == Fired(events);
    assert |db.recurring| == |db.recurring.Keys|;
  }

  lemma {:induction false} StorySplits(
      lim: Limits, db: Db, before: seq<Event>, after: seq<Event>, db': Db) returns (mid: Db)
    requires Story(lim, db, before + after, db')
    ensures Story(lim, db, before, mid) && Story(lim, mid, after, db')
    decreases |before|
  {
    if before == [] {
      assert before + after == after;
      mid := db;
    } else {
      assert (before + after)[1..] == before[1..] + after;
      mid := StorySplits(lim, Happen(lim, db, before[0]), before[1..], after, db');
    }
  }

  /** The record names the job of the first scheduler that fired. */
  lemma FirstWins(lim: Limits, before: seq<Event>, first: Event, after: seq<Event>, db: Db)
    requires Story(lim, EMPTY, before + ([first] + after), db) && first.Fire? && first.firing !in Fired(before)
    ensures first.firing in db.recurring && db.recurring[first.firing] == first.j
  {
    var mid := StorySplits(lim, EMPTY, before, [first] + after, db);
    EmptyIsSane(lim);
    StoryRecords(lim, EMPTY, before, mid);
    var next := Happen(lim, mid, first);
    assert ([first] + after)[1..] == after;
    EventRecords(lim, mid, first);
    EnqueueFrame(lim, mid, first.j, first.job, first.at);
    assert next.recurring[first.firing] == first.j;
    StoryRecords(lim, next, after, db);
  }

  // ----- The same operation on the database -----

  /** `RecurringTask.enqueue`: a scheduler that comes second is told so, and its transaction
      leaves nothing behind, not even a semaphore or a blocked row. */
  method EnqueueOccurrence(
      database: Database, lim: Limits, j: JobId, job: Job, firing: Firing, now: Time) returns (enqueued: bool)
    requires j !in database.db.jobs
    modifies database
    ensures enqueued <==> firing !in old(database.db).recurring
    ensures !enqueued ==> database.db == old(database.db)
    ensures enqueued ==>
              var before := old(database.db);
              database.db == Enqueue(lim, before, j, job, now).(recurring := before.recurring[firing := j])
    ensures database.db == EnqueueAndRecord(lim, old(database.db), j, job, firing, now).db
  {
    var savepoint := database.db;
    EnqueueFrame(lim, savepoint, j, job, now);
    SaveNew(database, lim, j, job, now);
    if firing in database.db.recurring {
      database.db := savepoint;
      return false;
    }
    database.db := database.db.(recurring := database.db.recurring[firing := j]);
    enqueued := true;
  }
}
