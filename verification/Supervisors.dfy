/** The supervisor's forks: which configuration runs under which pid, and what happens when
    forks die. */
module Supervisors {
  import opened Tables
  import opened ClaimedExecutions
  import opened BlockedQueues
  import opened Settlement
  import opened Departures
  import opened Lifecycle
  import opened Operations

  type Pid = nat

  /** What a configuration file asks to run. */
  type Configuration = string

  /** A forked process: the pid that the operating system gives it, and its name. */
  datatype Child = Child(pid: Pid, name: string)

  /** What `waitpid` reports, and the process that is forked in its place, if one is. */
  datatype Exit = Exit(pid: Pid, status: string, clean: bool, replacement: Child)

  /** The pids that run a configuration. */
  function Holding(configured: map<Pid, Configuration>, c: Configuration): set<Pid> {
    set pid | pid in configured && configured[pid] == c
  }

  /** Every configured process runs, as often as it is configured, and nothing else does. */
  ghost predicate AllRun(configured: map<Pid, Configuration>, configuration: seq<Configuration>) {
    forall c :: |Holding(configured, c)| == multiset(configuration)[c]
  }

  lemma HoldingMore(configured: map<Pid, Configuration>, pid: Pid, c: Configuration, d: Configuration)
    requires pid !in configured
    ensures |Holding(configured[pid := c], d)| == |Holding(configured, d)| + One(c == d)
  {
    if c == d {
      assert Holding(configured[pid := c], d) == Holding(configured, d) + {pid};
    } else {
      assert Holding(configured[pid := c], d) == Holding(configured, d);
    }
  }

  lemma RunsMore(configured: map<Pid, Configuration>, configuration: seq<Configuration>, pid: Pid, c: Configuration)
    requires AllRun(configured, configuration) && pid !in configured
    ensures AllRun(configured[pid := c], configuration + [c])
  {
    forall d ensures |Holding(configured[pid := c], d)| == multiset(configuration + [c])[d] {
      HoldingMore(configured, pid, c, d);
    }
  }

  /** A process that dies and starts again under any free pid leaves the same configurations
      running. */
  lemma RunsAgain(configured: map<Pid, Configuration>, configuration: seq<Configuration>, pid: Pid, newPid: Pid)
    requires AllRun(configured, configuration) && pid in configured && (newPid !in configured || newPid == pid)
    ensures AllRun((configured - {pid})[newPid := configured[pid]], configuration)
  {
    var c, rest := configured[pid], configured - {pid};
    forall d ensures |Holding(rest[newPid := c], d)| == multiset(configuration)[d] {
      HoldingMore(rest, pid, c, d);
      HoldingMore(rest, newPid, c, d);
      assert rest[pid := c] == configured;
    }
  }

  /** A process of the given name that the supervisor supervises. */
  predicate IsSupervisee(processes: map<ProcessId, Process>, s: ProcessId, name: string, p: ProcessId) {
    p in processes && processes[p].supervisor == Some(s) && processes[p].name == name
  }

  /** The table's uniqueness constraint on name and supervisor. */
  ghost predicate NamesUnique(processes: map<ProcessId, Process>) {
    forall s, name, p, q :: IsSupervisee(processes, s, name, p) && IsSupervisee(processes, s, name, q) ==> p == q
  }

  /** Nothing is claimed by a supervisee of the given name. */
  ghost predicate NothingClaimed(db: Db, s: ProcessId, name: string) {
    forall p :: IsSupervisee(db.processes, s, name, p) ==> ClaimedBy(db.claimed, p) == {}
  }

  /** Between two states, claimed jobs only failed, and blocked ones only became ready. */
  ghost predicate OnlyFails(db: Db, r: Db) {
    && r.jobs == db.jobs && r.processes == db.processes && r.scheduled == db.scheduled
    && (forall i :: i in r.claimed ==> i in db.claimed && r.claimed[i] == db.claimed[i])
    && (forall i :: i in db.claimed && i !in r.claimed ==> i in r.failed)
    && (forall i :: i in db.failed ==> i in r.failed)
    && OnlyPromotes(db, r)
  }

  /** A fork died: its name, and the error that its claimed jobs are failed with. */
  datatype Death = Death(name: string, error: string)

  /** The error for a claim of `owner`: that of the first death of a supervisee of its name. */
  function ErrorOf(
      processes: map<ProcessId, Process>, s: ProcessId, deaths: seq<Death>, owner: Option<ProcessId>): Option<string>
  {
    if deaths == [] then None
    else if owner.Some? && IsSupervisee(processes, s, deaths[0].name, owner.value) then Some(deaths[0].error)
    else ErrorOf(processes, s, deaths[1..], owner)
  }

  ghost predicate FailsOne(db: Db, r: Db, s: ProcessId, deaths: seq<Death>, i: JobId) {
    match if i in db.claimed then ErrorOf(db.processes, s, deaths, db.claimed[i]) else None
    case Some(error) => i !in r.claimed && i in r.failed && r.failed[i] == error
    case None =>
      && (i in r.claimed <==> i in db.claimed) && (i in db.claimed && i in r.claimed ==> r.claimed[i] == db.claimed[i])
      && (i in r.failed <==> i in db.failed) && (i in db.failed && i in r.failed ==> r.failed[i] == db.failed[i])
  }

  /** Exactly the claims of the dead forks are failed, each with the error of the death; every
      other claim, and every other failed row, is as before. */
  ghost predicate FailsBy(db: Db, r: Db, s: ProcessId, deaths: seq<Death>) {
    r.processes == db.processes && forall i :: FailsOne(db, r, s, deaths, i)
  }

  lemma {:induction false} ErrorOfAppend(
      processes: map<ProcessId, Process>, s: ProcessId, first: seq<Death>, more: seq<Death>, owner: Option<ProcessId>)
    ensures ErrorOf(processes, s, first + more, owner)
            == match ErrorOf(processes, s, first, owner)
               case Some(error) => Some(error)
               case None => ErrorOf(processes, s, more, owner)
    decreases |first|
  {
    if first == [] {
      assert first + more == more;
    } else {
      assert (first + more)[0] == first[0] && (first + more)[1..] == first[1..] + more;
      ErrorOfAppend(processes, s, first[1..], more, owner);
    }
  }

  lemma FailsByThen(a: Db, b: Db, c: Db, s: ProcessId, first: seq<Death>, more: seq<Death>)
    requires FailsBy(a, b, s, first) && FailsBy(b, c, s, more)
    ensures FailsBy(a, c, s, first + more)
  {
    forall i ensures FailsOne(a, c, s, first + more, i) {
      assert FailsOne(a, b, s, first, i) && FailsOne(b, c, s, more, i);
      if i in a.claimed {
        ErrorOfAppend(a.processes, s, first, more, a.claimed[i]);
      }
    }
  }

  lemma FailsByNobody(db: Db, s: ProcessId)
    ensures FailsBy(db, db, s, [])
  {
  }

  /** So a claim whose owner has not the name of a dead fork stays where it is. */
  lemma {:induction false} OthersKeepClaims(db: Db, r: Db, s: ProcessId, deaths: seq<Death>, i: JobId)
    requires FailsBy(db, r, s, deaths) && i in db.claimed
    requires var owner := db.claimed[i];
             owner.Some? && owner.value in db.processes && db.processes[owner.value].supervisor == Some(s) ==>
               forall d :: d in deaths ==> d.name != db.processes[owner.value].name
    ensures i in r.claimed && r.claimed[i] == db.claimed[i] && (i in r.failed <==> i in db.failed)
  {
    assert FailsOne(db, r, s, deaths, i);
    NotNamed(db.processes, s, deaths, db.claimed[i]);
  }

  /** And a claim of a supervisee with the name of a dead fork has failed, with the error of
      the first death of that name. */
  lemma {:induction false} DeadForksClaimsFail(db: Db, r: Db, s: ProcessId, deaths: seq<Death>, k: nat, i: JobId)
    requires FailsBy(db, r, s, deaths) && k < |deaths| && forall l :: 0 <= l < k ==> deaths[l].name != deaths[k].name
    requires i in db.claimed && db.claimed[i].Some? && db.claimed[i].value in db.processes
    requires var owner := db.processes[db.claimed[i].value];
             owner.supervisor == Some(s) && owner.name == deaths[k].name
    ensures i !in r.claimed && i in r.failed && r.failed[i] == deaths[k].error
  {
    assert FailsOne(db, r, s, deaths, i);
    FirstNamed(db.processes, s, deaths, k, db.claimed[i].value);
  }

  lemma {:induction false} FirstNamed(
      processes: map<ProcessId, Process>, s: ProcessId, deaths: seq<Death>, k: nat, p: ProcessId)
    requires k < |deaths| && forall l :: 0 <= l < k ==> deaths[l].name != deaths[k].name
    requires IsSupervisee(processes, s, deaths[k].name, p)
    ensures ErrorOf(processes, s, deaths, Some(p)) == Some(deaths[k].error)
    decreases k
  {
    if k > 0 {
      forall l | 0 <= l < k - 1 ensures deaths[1..][l].name != deaths[1..][k - 1].name {
        assert deaths[l + 1].name != deaths[k].name;
      }
      assert deaths[0].name != deaths[k].name;
      FirstNamed(processes, s, deaths[1..], k - 1, p);
    }
  }

  /** The same for a single death. */
  ghost predicate FailsNamedBy(db: Db, r: Db, s: ProcessId, name: string, error: string) {
    forall i :: i in db.claimed ==> FailsNamedOne(db, r, s, name, error, i)
  }

  ghost predicate FailsNamedOne(db: Db, r: Db, s: ProcessId, name: string, error: string, i: JobId)
    requires i in db.claimed
  {
    var owner := db.claimed[i];
    if owner.Some? && owner.value in db.processes
       && db.processes[owner.value].supervisor == Some(s) && db.processes[owner.value].name == name
    then i !in r.claimed && i in r.failed && r.failed[i] == error
    else i in r.claimed && r.claimed[i] == owner
  }

  lemma OneDeathFails(db: Db, r: Db, s: ProcessId, name: string, error: string)
    requires FailsBy(db, r, s, [Death(name, error)])
    ensures FailsNamedBy(db, r, s, name, error)
  {
    forall i | i in db.claimed ensures FailsNamedOne(db, r, s, name, error, i) {
      OneDeath(db.processes, s, Death(name, error), db.claimed[i]);
      assert FailsOne(db, r, s, [Death(name, error)], i);
    }
  }

  lemma {:induction false} NotNamed(
      processes: map<ProcessId, Process>, s: ProcessId, deaths: seq<Death>, owner: Option<ProcessId>)
    requires forall d :: d in deaths ==> owner.None? || !IsSupervisee(processes, s, d.name, owner.value)
    ensures ErrorOf(processes, s, deaths, owner).None?
    decreases |deaths|
  {
    if deaths != [] {
      assert deaths[0] in deaths && forall d :: d in deaths[1..] ==> d in deaths;
      NotNamed(processes, s, deaths[1..], owner);
    }
  }

  lemma OneDeath(processes: map<ProcessId, Process>, s: ProcessId, d: Death, owner: Option<ProcessId>)
    ensures ErrorOf(processes, s, [d], owner)
            == if owner.Some? && IsSupervisee(processes, s, d.name, owner.value) then Some(d.error) else None
  {
    assert [d][1..] == [];
  }

  lemma FailsNamed(db: Db, r: Db, s: ProcessId, name: string, p: ProcessId, order: seq<JobId>, error: string)
    requires NamesUnique(db.processes) && IsSupervisee(db.processes, s, name, p) && ListsClaims(db, order, p)
    requires MovesToFailed(db, r, order, error)
    ensures FailsBy(db, r, s, [Death(name, error)])
  {
    hide OnlyPromotes, ErrorOf;
    forall i ensures FailsOne(db, r, s, [Death(name, error)], i) {
      assert i in order <==> i in ClaimedBy(db.claimed, p);
      if i in db.claimed {
        OneDeath(db.processes, s, Death(name, error), db.claimed[i]);
        if db.claimed[i].Some? && IsSupervisee(db.processes, s, name, db.claimed[i].value) {
          assert db.claimed[i].value == p;
        }
      }
    }
  }

  lemma NobodyNamed(db: Db, s: ProcessId, name: string, error: string)
    requires forall p :: !IsSupervisee(db.processes, s, name, p)
    ensures FailsBy(db, db, s, [Death(name, error)])
  {
    hide ErrorOf;
    forall i ensures FailsOne(db, db, s, [Death(name, error)], i) {
      if i in db.claimed {
        OneDeath(db.processes, s, Death(name, error), db.claimed[i]);
      }
    }
  }

  lemma OnlyFailsNothing(db: Db)
    ensures OnlyFails(db, db)
  {
  }

  lemma OnlyFailsThen(lim: Limits, a: Db, b: Db, c: Db)
    requires Sane(lim, a) && OnlyFails(a, b) && OnlyFails(b, c)
    ensures OnlyFails(a, c)
  {
    IdleRowsSound(a);
    OnlyPromotesTransitive(a, b, c);
  }

  lemma NothingClaimedStays(db: Db, r: Db, s: ProcessId, name: string)
    requires OnlyFails(db, r) && NothingClaimed(db, s, name)
    ensures NothingClaimed(r, s, name)
  {
    forall p | IsSupervisee(r.processes, s, name, p) ensures ClaimedBy(r.claimed, p) == {} {
      assert IsSupervisee(db.processes, s, name, p);
      forall i ensures i !in ClaimedBy(r.claimed, p) {
        assert i !in ClaimedBy(db.claimed, p);
      }
    }
  }

  /** Failing everything that one of the supervisees has claimed. */
  lemma FailedAll(
      lim: Limits, db: Db, s: ProcessId, name: string, p: ProcessId, order: seq<JobId>, error: string, now: Time)
    requires Sane(lim, db) && NamesUnique(db.processes) && IsSupervisee(db.processes, s, name, p)
    requires db.blocked.Keys <= db.jobs.Keys && ListsClaims(db, order, p) && forall j :: j in order ==> j in db.jobs
    ensures var r := FailAll(lim, db, order, error, now);
            && Sane(lim, r) && OnlyFails(db, r) && NothingClaimed(r, s, name)
            && FailsBy(db, r, s, [Death(name, error)])
  {
    FailAllSettles(lim, db, order, error, now);
    var r := FailAll(lim, db, order, error, now);
    assert MovesToFailed(db, r, order, error);
    FailsNamed(db, r, s, name, p, order, error);
    forall q | IsSupervisee(r.processes, s, name, q) ensures ClaimedBy(r.claimed, q) == {} {
      assert q == p;
      forall i ensures i !in ClaimedBy(r.claimed, p) {
        assert i in order <==> i in ClaimedBy(db.claimed, p);
      }
    }
  }

  lemma NobodyClaimed(db: Db, s: ProcessId, name: string)
    requires forall p :: !IsSupervisee(db.processes, s, name, p)
    ensures NothingClaimed(db, s, name)
  {
  }

  /** The pids that run after a fork was replaced; those of others are not forks. */
  function Replaced(running: set<Pid>, exit: Exit): set<Pid> {
    if exit.pid in running then running - {exit.pid} + {exit.replacement.pid} else running
  }

  /** `os.fork()` never gives the pid of a process that still runs, but may give one of a
      process that was reaped. */
  predicate FreshPids(running: set<Pid>, exits: seq<Exit>)
    decreases |exits|
  {
    exits != [] ==>
      && (exits[0].pid in running ==> exits[0].replacement.pid !in running - {exits[0].pid})
      && FreshPids(Replaced(running, exits[0]), exits[1..])
  }

  /** The forks after one was replaced. */
  function AfterReplacing(forks: map<Pid, string>, exit: Exit): map<Pid, string> {
    if exit.pid in forks then (forks - {exit.pid})[exit.replacement.pid := exit.replacement.name] else forks
  }

  /** The death that an exit is, if its pid is one of the forks. */
  function DeathOf(forks: map<Pid, string>, exit: Exit): seq<Death> {
    if exit.pid in forks then [Death(forks[exit.pid], exit.status)] else []
  }

  /** The forks after all these exits, each replaced at once. */
  function ForksAfter(forks: map<Pid, string>, exits: seq<Exit>): map<Pid, string> {
    if exits == [] then forks
    else AfterReplacing(ForksAfter(forks, exits[..|exits| - 1]), exits[|exits| - 1])
  }

  /** The forks that died in these exits, in order. */
  function Deaths(forks: map<Pid, string>, exits: seq<Exit>): seq<Death> {
    if exits == [] then []
    else
      var init := exits[..|exits| - 1];
      Deaths(forks, init) + DeathOf(ForksAfter(forks, init), exits[|exits| - 1])
  }

  /** The forks that died uncleanly in these exits, when none is replaced. */
  function UncleanDeaths(forks: map<Pid, string>, exits: seq<Exit>): seq<Death> {
    if exits == [] then []
    else
      var init, last := exits[..|exits| - 1], exits[|exits| - 1];
      UncleanDeaths(forks, init) + if last.clean then [] else DeathOf(forks - Pids(init), last)
  }

  lemma NextDeath(forks: map<Pid, string>, exits: seq<Exit>, i: nat)
    requires i < |exits|
    ensures ForksAfter(forks, exits[..i + 1]) == AfterReplacing(ForksAfter(forks, exits[..i]), exits[i])
    ensures Deaths(forks, exits[..i + 1])
            == Deaths(forks, exits[..i]) + DeathOf(ForksAfter(forks, exits[..i]), exits[i])
    ensures UncleanDeaths(forks, exits[..i + 1])
            == UncleanDeaths(forks, exits[..i])
               + if exits[i].clean then [] else DeathOf(forks - Pids(exits[..i]), exits[i])
  {
    assert exits[..i + 1][..i] == exits[..i];
  }

  predicate DistinctPids(children: seq<Child>) {
    forall a, b :: 0 <= a < b < |children| ==> children[a].pid != children[b].pid
  }

  class Supervisor {
    const configuration: seq<Configuration>
    const process: Option<ProcessId>      // its own row, unless it could not register
    var forks: map<Pid, string>           // the name of the process under each pid
    var configured: map<Pid, Configuration>

    ghost predicate Valid()
      reads this
    {
      forks.Keys == configured.Keys && AllRun(configured, configuration)
    }

    /** `start_processes`, which become `children`. */
    constructor (configuration: seq<Configuration>, process: Option<ProcessId>, children: seq<Child>)
      requires |children| == |configuration| && DistinctPids(children)
      ensures this.configuration == configuration && this.process == process && Valid()
      ensures forall i :: 0 <= i < |children| ==>
                && children[i].pid in forks && forks[children[i].pid] == children[i].name
                && configured[children[i].pid] == configuration[i]
    {
      this.configuration, this.process := configuration, process;
      forks, configured := map[], map[];
      new;
      for i := 0 to |configuration|
        invariant forks.Keys == configured.Keys && AllRun(configured, configuration[..i])
        invariant forall pid :: pid in forks ==> exists k :: 0 <= k < i && children[k].pid == pid
        invariant forall k :: 0 <= k < i ==>
                    && children[k].pid in forks && forks[children[k].pid] == children[k].name
                    && configured[children[k].pid] == configuration[k]
      {
        assert configuration[..i + 1] == configuration[..i] + [configuration[i]];
        RunsMore(configured, configuration[..i], children[i].pid, configuration[i]);
        StartProcess(configuration[i], children[i]);
      }
      assert configuration[..|configuration|] == configuration;
    }

    method StartProcess(c: Configuration, child: Child)
      requires forks.Keys == configured.Keys && child.pid !in forks
      modifies this
      ensures forks == old(forks)[child.pid := child.name] && configured == old(configured)[child.pid := c]
    {
      configured := configured[child.pid := c];
      forks := forks[child.pid := child.name];
    }

    /** `handle_claimed_jobs_by` */
    method HandleClaimedJobsBy(database: Database, lim: Limits, name: string, error: string, now: Time)
      requires Sane(lim, database.db) && NamesUnique(database.db.processes)
      modifies database
      ensures Sane(lim, database.db) && OnlyFails(old(database.db), database.db)
      ensures process.Some? ==> NothingClaimed(database.db, process.value, name)
      ensures process.Some? ==> FailsBy(old(database.db), database.db, process.value, [Death(name, error)])
      ensures process.Some? ==> FailsNamedBy(old(database.db), database.db, process.value, name, error)
      ensures process.None? ==> database.db == old(database.db)
    {
      ghost var before := database.db;
      OnlyFailsNothing(before);
      if process.None? {
        return;
      }
      var s := process.value;
      var found := set p | p in database.db.processes && IsSupervisee(database.db.processes, s, name, p);
      if found == {} {
        forall p ensures !IsSupervisee(before.processes, s, name, p) {
          assert p !in found;
        }
        NobodyClaimed(before, s, name);
        NobodyNamed(before, s, name, error);
        OneDeathFails(before, before, s, name, error);
        return;
      }
      var p :| p in found;
      SaneRows(lim, before);
      ghost var order := FailAllClaimed(database, lim, p, error, now);
      OnlyWorkersClaim(lim, before, p, order);
      FailedAll(lim, before, s, name, p, order, error, now);
      OneDeathFails(before, database.db, s, name, error);
    }
  
    /** Nothing is claimed any more by the process that ran under the pid. */
    ghost predicate Settled(db: Db, forks: map<Pid, string>, pid: Pid) {
      process.Some? && pid in forks ==> NothingClaimed(db, process.value, forks[pid])
    }

    /** The jobs of the dead forks are failed if the supervisor has a row to find theirs by. */
    ghost predicate Fails(before: Db, db: Db, deaths: seq<Death>) {
      if process.Some? then FailsBy(before, db, process.value, deaths) else db == before
    }

    lemma FailsNobody(db: Db)
      ensures Fails(db, db, [])
    {
      if process.Some? {
        FailsByNobody(db, process.value);
      }
    }

    lemma FailsThen(a: Db, b: Db, c: Db, first: seq<Death>, more: seq<Death>)
      requires Fails(a, b, first) && Fails(b, c, more)
      ensures Fails(a, c, first + more)
    {
      if process.Some? {
        FailsByThen(a, b, c, process.value, first, more);
      }
    }

    /** `replace_fork`: a pid that is not one of the forks is ignored. */
    method ReplaceFork(database: Database, lim: Limits, exit: Exit, now: Time)
      requires Valid() && Sane(lim, database.db) && NamesUnique(database.db.processes)
      requires FreshPids(forks.Keys, [exit])
      modifies this, database
      ensures Valid() && forks.Keys == Replaced(old(forks).Keys, exit)
      ensures Sane(lim, database.db) && OnlyFails(old(database.db), database.db)
      ensures Settled(database.db, old(forks), exit.pid)
      ensures if exit.pid in old(forks) then
                var child := exit.replacement;
                && forks == (old(forks) - {exit.pid})[child.pid := child.name]
                && configured == (old(configured) - {exit.pid})[child.pid := old(configured)[exit.pid]]
              else
                forks == old(forks) && configured == old(configured) && database.db == old(database.db)
      ensures forks == AfterReplacing(old(forks), exit)
      ensures Fails(old(database.db), database.db, DeathOf(old(forks), exit))
    {
      hide Sane, OnlyFails, AllRun, NothingClaimed, NamesUnique, FailsBy;
      OnlyFailsNothing(database.db);
      FailsNobody(database.db);
      if exit.pid in forks {
        var name := forks[exit.pid];
        forks := forks - {exit.pid};
        HandleClaimedJobsBy(database, lim, name, exit.status, now);
        var c := configured[exit.pid];
        configured := configured - {exit.pid};
        StartProcess(c, exit.replacement);
        RunsAgain(old(configured), configuration, exit.pid, exit.replacement.pid);
      }
    }

    ghost predicate Reaped(lim: Limits, before: Db, db: Db, forks: map<Pid, string>, exits: seq<Exit>) {
      && Sane(lim, db) && OnlyFails(before, db)
      && forall i :: 0 <= i < |exits| ==> Settled(db, forks, exits[i].pid)
    }

    lemma ReapedMore(lim: Limits, before: Db, mid: Db, db: Db, forks: map<Pid, string>, exits: seq<Exit>, exit: Exit)
      requires Sane(lim, before) && Reaped(lim, before, mid, forks, exits)
      requires Sane(lim, db) && OnlyFails(mid, db) && Settled(db, forks, exit.pid)
      ensures Reaped(lim, before, db, forks, exits + [exit])
    {
      OnlyFailsThen(lim, before, mid, db);
      var all := exits + [exit];
      forall i | 0 <= i < |all| ensures Settled(db, forks, all[i].pid) {
        if i < |exits| && process.Some? && exits[i].pid in forks {
          NothingClaimedStays(mid, db, process.value, forks[exits[i].pid]);
        }
      }
    }

    /** Where the loop stands after `i` exits. */
    ghost predicate Reaping(lim: Limits, before: Db, db: Db, start: map<Pid, string>, exits: seq<Exit>, i: nat)
      reads this
      requires i <= |exits|
    {
      && Valid() && NamesUnique(db.processes) && Sane(lim, before)
      && Reaped(lim, before, db, start, exits[..i])
      && StillThere(start, forks, exits, i) && FreshPids(forks.Keys, exits[i..])
      && forks == ForksAfter(start, exits[..i]) && Fails(before, db, Deaths(start, exits[..i]))
    }

    /** One round of the loop. */
    method ReapNext(
        database: Database, lim: Limits, exits: seq<Exit>, i: nat, now: Time, ghost before: Db,
        ghost start: map<Pid, string>)
      requires i < |exits| && Reaping(lim, before, database.db, start, exits, i)
      modifies this, database
      ensures Reaping(lim, before, database.db, start, exits, i + 1)
    {
      hide Sane, StillThere, Settled, FreshPids, NamesUnique, AllRun, OnlyPromotes, Fails, ForksAfter, Deaths;
      ghost var mid, was := database.db, forks;
      NextDeath(start, exits, i);
      NextFresh(forks.Keys, exits, i);
      ReplaceFork(database, lim, exits[i], now);
      FailsThen(before, mid, database.db, Deaths(start, exits[..i]), DeathOf(was, exits[i]));
      StillThereMore(start, was, forks, exits, i);
      ReapedNext(lim, before, mid, database.db, start, was, exits, i);
    }

    /** `reap_and_replace_terminated_forks`, when `waitpid` reports `exits`, in this order, be
        they forks, pids used a second time or pids never heard of: the configured processes
        all run again, and every job claimed by a fork that died is failed. */
    method ReapAndReplace(database: Database, lim: Limits, exits: seq<Exit>, now: Time)
      requires Valid() && Sane(lim, database.db) && NamesUnique(database.db.processes)
      requires FreshPids(forks.Keys, exits)
      modifies this, database
      ensures Valid() && forks == ForksAfter(old(forks), exits)
      ensures Reaped(lim, old(database.db), database.db, old(forks), exits)
      ensures Fails(old(database.db), database.db, Deaths(old(forks), exits))
    {
      hide Sane, OnlyFails, NamesUnique, FreshPids, AllRun, Fails;
      ghost var before, start := database.db, forks;
      OnlyFailsNothing(before);
      FailsNobody(before);
      assert exits[0..] == exits;
      for i := 0 to |exits|
        invariant Reaping(lim, before, database.db, start, exits, i)
      {
        ReapNext(database, lim, exits, i, now, before, start);
      }
      assert exits[..|exits|] == exits;
    }

    lemma SettledAgain(
        lim: Limits, before: Db, mid: Db, db: Db, start: map<Pid, string>, was: map<Pid, string>, exits: seq<Exit>,
        i: nat)
      requires i < |exits| && Reaped(lim, before, mid, start, exits[..i]) && OnlyFails(mid, db)
      requires StillThere(start, was, exits, i) && Settled(db, was, exits[i].pid)
      ensures Settled(db, start, exits[i].pid)
    {
      if k :| 0 <= k < i && exits[k].pid == exits[i].pid {
        assert exits[..i][k] == exits[k];
        assert Settled(mid, start, exits[k].pid);
        if process.Some? && exits[i].pid in start {
          NothingClaimedStays(mid, db, process.value, start[exits[i].pid]);
        }
      }
    }

    lemma ReapedNext(
        lim: Limits, before: Db, mid: Db, db: Db, start: map<Pid, string>, was: map<Pid, string>, exits: seq<Exit>,
        i: nat)
      requires i < |exits| && Sane(lim, before) && Reaped(lim, before, mid, start, exits[..i])
      requires Sane(lim, db) && OnlyFails(mid, db) && StillThere(start, was, exits, i) && Settled(db, was, exits[i].pid)
      ensures Reaped(lim, before, db, start, exits[..i + 1])
    {
      SettledAgain(lim, before, mid, db, start, was, exits, i);
      ReapedMore(lim, before, mid, db, start, exits[..i], exits[i]);
      assert exits[..i + 1] == exits[..i] + [exits[i]];
    }

    method ReapOne(database: Database, lim: Limits, exit: Exit, now: Time)
      requires forks.Keys == configured.Keys && Sane(lim, database.db) && NamesUnique(database.db.processes)
      modifies this, database
      ensures forks == old(forks) - {exit.pid} && configured == old(configured) - {exit.pid}
      ensures Sane(lim, database.db) && OnlyFails(old(database.db), database.db)
      ensures if exit.clean then database.db == old(database.db) else Settled(database.db, old(forks), exit.pid)
      ensures Fails(old(database.db), database.db, if exit.clean then [] else DeathOf(old(forks), exit))
    {
      OnlyFailsNothing(database.db);
      FailsNobody(database.db);
      if exit.pid in forks {
        var name := forks[exit.pid];
        forks := forks - {exit.pid};
        if !exit.clean {
          HandleClaimedJobsBy(database, lim, name, exit.status, now);
        }
      }
      assert forks == old(forks) - {exit.pid};
      configured := configured - {exit.pid};
    }

    /** Where the shutdown loop stands after `i` exits. */
    ghost predicate ShuttingDown(lim: Limits, before: Db, db: Db, start: map<Pid, string>, exits: seq<Exit>, i: nat)
      reads this
      requires i <= |exits|
    {
      && forks.Keys == configured.Keys && forks == start - Pids(exits[..i])
      && ShutDown(lim, before, db, exits, i) && Fails(before, db, UncleanDeaths(start, exits[..i]))
    }

    method ReapNextTerminated(
        database: Database, lim: Limits, exits: seq<Exit>, i: nat, now: Time, ghost before: Db,
        ghost start: map<Pid, string>)
      requires i < |exits| && ShuttingDown(lim, before, database.db, start, exits, i)
      modifies this, database
      ensures ShuttingDown(lim, before, database.db, start, exits, i + 1)
    {
      hide Sane, Fails, UncleanDeaths, DeathOf, NamesUnique, OnlyPromotes;
      ghost var mid, was := database.db, forks;
      PidsMore(exits, i);
      NextDeath(start, exits, i);
      ReapOne(database, lim, exits[i], now);
      FailsThen(before, mid, database.db, UncleanDeaths(start, exits[..i]),
                if exits[i].clean then [] else DeathOf(was, exits[i]));
      OnlyFailsThen(lim, before, mid, database.db);
      assert forks == start - Pids(exits[..i + 1]);
    }

    /** `reap_terminated_forks`, while shutting down: the forks are gone, not replaced, and
        the jobs of those that did not end well are failed. */
    method ReapTerminated(database: Database, lim: Limits, exits: seq<Exit>, now: Time)
      requires forks.Keys == configured.Keys && Sane(lim, database.db) && NamesUnique(database.db.processes)
      modifies this, database
      ensures forks.Keys == configured.Keys && forks == old(forks) - Pids(exits)
      ensures Sane(lim, database.db) && OnlyFails(old(database.db), database.db)
      ensures Fails(old(database.db), database.db, UncleanDeaths(old(forks), exits))
      ensures (forall k :: 0 <= k < |exits| ==> exits[k].clean) ==> database.db == old(database.db)
    {
      ghost var before, start := database.db, forks;
      OnlyFailsNothing(before);
      FailsNobody(before);
      assert start - {} == start;
      for i := 0 to |exits|
        invariant ShuttingDown(lim, before, database.db, start, exits, i)
      {
        ReapNextTerminated(database, lim, exits, i, now, before, start);
      }
      assert exits[..|exits|] == exits;
    }
  }

  lemma NextFresh(running: set<Pid>, exits: seq<Exit>, i: nat)
    requires i < |exits| && FreshPids(running, exits[i..])
    ensures FreshPids(running, [exits[i]]) && FreshPids(Replaced(running, exits[i]), exits[i + 1..])
  {
    assert exits[i..][0] == exits[i] && exits[i..][1..] == exits[i + 1..];
    assert [exits[i]][1..] == [];
  }

  function Pids(exits: seq<Exit>): set<Pid> {
    set e | e in exits :: e.pid
  }

  lemma PidsMore(exits: seq<Exit>, i: nat)
    requires i < |exits|
    ensures Pids(exits[..i + 1]) == Pids(exits[..i]) + {exits[i].pid}
  {
    assert exits[..i + 1] == exits[..i] + [exits[i]];
  }

  ghost predicate ShutDown(lim: Limits, before: Db, db: Db, exits: seq<Exit>, i: nat)
    requires i <= |exits|
  {
    && NamesUnique(db.processes) && Sane(lim, before) && Sane(lim, db) && OnlyFails(before, db)
    && ((forall k :: 0 <= k < i ==> exits[k].clean) ==> db == before)
  }

  /** The forks of `start` that have not been reaped are the same as at the start. */
  ghost predicate StillThere(start: map<Pid, string>, forks: map<Pid, string>, exits: seq<Exit>, i: nat)
    requires i <= |exits|
  {
    forall pid :: pid in start && (forall k :: 0 <= k < i ==> exits[k].pid != pid) ==>
      pid in forks && forks[pid] == start[pid]
  }

  lemma StillThereMore(
      start: map<Pid, string>, was: map<Pid, string>, forks: map<Pid, string>, exits: seq<Exit>, i: nat)
    requires i < |exits| && StillThere(start, was, exits, i)
    requires forall pid :: pid in was && pid != exits[i].pid ==> pid in forks && forks[pid] == was[pid]
    ensures StillThere(start, forks, exits, i + 1)
  {
  }
}
