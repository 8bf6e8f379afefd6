/** What holds in every state that some run of the protocol reaches. */
module Runs {
  import opened Tables
  import opened Semaphores
  import opened Executables
  import opened Protocol
  import opened Lifecycle
  import opened Tokens

  /** Which steps a run may take. Except under `Unrestricted`, a bulk retry makes its job ready. */
  datatype Rule =
    | Unrestricted
    | RetriesFit
    | ExpiresFrom(key: Key, least: int)   // the key's semaphore is deleted only with that many tokens in it
    | NoExpiry
    | AtOnce(now: Time)                   // nothing is deleted, and every step that reads the clock reads this time
    | Patient(key: Key)   // it is not deleted, and a job of it is left blocked only when no token is free

  /** The blocked jobs of the key that no transaction holds locked. */
  ghost function ParkedIn(blocked: map<JobId, BlockedRow>, promoting: set<JobId>, key: Key): set<JobId> {
    set j | j in blocked && blocked[j].key == key && j !in promoting
  }

  ghost function Parked(m: Machine, key: Key): set<JobId> {
    ParkedIn(m.db.blocked, m.promoting, key)
  }

  ghost predicate Allowed(lim: Limits, rule: Rule, m: Machine, step: Step)
    requires Enabled(lim, m, step)
  {
    match rule
    case Unrestricted => true
    case RetriesFit => RetryFits(lim, m, step)
    case ExpiresFrom(key, least) =>
      RetryFits(lim, m, step) && (step.Expire? && step.key == key ==> m.db.semaphores[key].value >= least)
    case NoExpiry => RetryFits(lim, m, step) && !step.Expire?
    case AtOnce(now) => RetryFits(lim, m, step) && !step.Expire? && (Now(step).Some? ==> Now(step).value == now)
    case Patient(key) =>
      && RetryFits(lim, m, step) && !(step.Expire? && step.key == key)
      && (Parked(Apply(lim, m, step), key) <= Parked(m, key) || Exhausted(m.db.semaphores, key))
  }

  /** `steps` leads from `m` to `m'`, by the rule. */
  ghost predicate IsRun(lim: Limits, rule: Rule, m: Machine, steps: seq<Step>, m': Machine)
    decreases |steps|
  {
    if steps == [] then m' == m
    else
      && Enabled(lim, m, steps[0]) && Allowed(lim, rule, m, steps[0])
      && IsRun(lim, rule, Apply(lim, m, steps[0]), steps[1..], m')
  }

  ghost predicate Reaches(lim: Limits, rule: Rule, m: Machine, m': Machine) {
    exists steps :: IsRun(lim, rule, m, steps, m')
  }

  ghost predicate Reachable(lim: Limits, rule: Rule, m: Machine) {
    Reaches(lim, rule, INITIAL, m)
  }

  // ----- Composing runs -----

  lemma {:induction false} RunsAppend(
      lim: Limits, rule: Rule, a: Machine, s: seq<Step>, b: Machine, t: seq<Step>, c: Machine)
    requires IsRun(lim, rule, a, s, b) && IsRun(lim, rule, b, t, c)
    ensures IsRun(lim, rule, a, s + t, c)
    decreases |s|
  {
    if s == [] {
      assert s + t == t;
    } else {
      RunsAppend(lim, rule, Apply(lim, a, s[0]), s[1..], b, t, c);
      assert (s + t)[1..] == s[1..] + t;
    }
  }

  lemma ReachesTransitive(lim: Limits, rule: Rule, a: Machine, b: Machine, c: Machine)
    requires Reaches(lim, rule, a, b) && Reaches(lim, rule, b, c)
    ensures Reaches(lim, rule, a, c)
  {
    var s :| IsRun(lim, rule, a, s, b);
    var t :| IsRun(lim, rule, b, t, c);
    RunsAppend(lim, rule, a, s, b, t, c);
  }

  lemma ReachesItself(lim: Limits, rule: Rule, m: Machine)
    ensures Reaches(lim, rule, m, m)
  {
    assert IsRun(lim, rule, m, [], m);
  }

  lemma OneStep(lim: Limits, rule: Rule, m: Machine, step: Step)
    requires Enabled(lim, m, step) && Allowed(lim, rule, m, step)
    ensures Reaches(lim, rule, m, Apply(lim, m, step))
  {
    var steps := [step];
    assert IsRun(lim, rule, Apply(lim, m, step), steps[1..], Apply(lim, m, step));
    assert IsRun(lim, rule, m, steps, Apply(lim, m, step));
  }

  lemma Then(lim: Limits, rule: Rule, m: Machine, m': Machine, step: Step)
    requires Reaches(lim, rule, m, m') && Enabled(lim, m', step) && Allowed(lim, rule, m', step)
    ensures Reaches(lim, rule, m, Apply(lim, m', step))
  {
    OneStep(lim, rule, m', step);
    ReachesTransitive(lim, rule, m, m', Apply(lim, m', step));
  }

  // ----- Invariants of runs -----

  lemma {:induction false} RunKeepsInv(lim: Limits, rule: Rule, m: Machine, steps: seq<Step>, m': Machine)
    requires Inv(m) && rule != Unrestricted && IsRun(lim, rule, m, steps, m')
    ensures Inv(m')
    decreases |steps|
  {
    if steps != [] {
      StepKeepsInv(lim, m, steps[0]);
      RunKeepsInv(lim, rule, Apply(lim, m, steps[0]), steps[1..], m');
    }
  }

  lemma ReachableInv(lim: Limits, rule: Rule, m: Machine)
    requires Reachable(lim, rule, m) && rule != Unrestricted
    ensures Inv(m)
  {
    var steps :| IsRun(lim, rule, INITIAL, steps, m);
    RunKeepsInv(lim, rule, INITIAL, steps, m);
  }

  /** Every token of the key is free, held or owed. */
  ghost predicate Conserved(lim: Limits, m: Machine, key: Key) {
    InBounds(lim, m, key) && Total(lim, m, key) == Limit(lim, key)
  }

  /** Deleting a semaphore row adds to the tokens what the row lacked of the limit, so tokens
      stay conserved exactly if it lacked nothing. */
  lemma DeletionAddsDeficit(lim: Limits, m: Machine, key: Key)
    requires Conserved(lim, m, key) && key in m.db.semaphores
    ensures var v := m.db.semaphores[key].value;
            && Total(lim, DoExpire(m, key), key) == Limit(lim, key) + (Limit(lim, key) - v)
            && (Conserved(lim, DoExpire(m, key), key) <==> v >= Limit(lim, key))
  {
    var m' := DoExpire(m, key);
    SameHolders(m, m', key);
    SameDebts(m, m', key);
  }

  lemma StepConserves(lim: Limits, m: Machine, step: Step, key: Key)
    requires Inv(m) && Conserved(lim, m, key) && Enabled(lim, m, step)
             && Allowed(lim, ExpiresFrom(key, Limit(lim, key)), m, step)
    ensures Conserved(lim, Apply(lim, m, step), key)
  {
    if step.SignalKey? {
      SignalTotal(lim, m, step.t, step.now, key);
    } else if step.Expire? {
      ExpireConserves(lim, m, step.key, key);
    } else {
      StepBalanced(lim, m, step, key);
    }
  }

  lemma ExpireConserves(lim: Limits, m: Machine, expired: Key, key: Key)
    requires Conserved(lim, m, key) && expired in m.db.semaphores
    requires expired == key ==> m.db.semaphores[key].value >= Limit(lim, key)
    ensures Conserved(lim, DoExpire(m, expired), key)
  {
    if expired == key {
      DeletionAddsDeficit(lim, m, key);
    } else {
      SameHolders(m, DoExpire(m, expired), key);
      SameDebts(m, DoExpire(m, expired), key);
    }
  }

  lemma {:induction false} RunConserves(lim: Limits, m: Machine, steps: seq<Step>, m': Machine, key: Key)
    requires Inv(m) && Conserved(lim, m, key) && IsRun(lim, ExpiresFrom(key, Limit(lim, key)), m, steps, m')
    ensures Conserved(lim, m', key)
    decreases |steps|
  {
    if steps != [] {
      StepKeepsInv(lim, m, steps[0]);
      StepConserves(lim, m, steps[0], key);
      RunConserves(lim, Apply(lim, m, steps[0]), steps[1..], m', key);
    }
  }

  // ----- Stricter rules -----

  predicate Stricter(a: Rule, b: Rule) {
    match b
    case Unrestricted => true
    case RetriesFit => a != Unrestricted
    case ExpiresFrom(key, least) =>
      a == NoExpiry || a.AtOnce? || a == Patient(key) || (a.ExpiresFrom? && a.key == key && a.least >= least)
    case NoExpiry => a == NoExpiry || a.AtOnce?
    case _ => a == b
  }

  lemma {:induction false} RunByWeaker(lim: Limits, a: Rule, b: Rule, m: Machine, steps: seq<Step>, m': Machine)
    requires Stricter(a, b) && IsRun(lim, a, m, steps, m')
    ensures IsRun(lim, b, m, steps, m')
    decreases |steps|
  {
    if steps != [] {
      assert Allowed(lim, b, m, steps[0]);
      RunByWeaker(lim, a, b, Apply(lim, m, steps[0]), steps[1..], m');
    }
  }

  lemma ReachesByWeaker(lim: Limits, a: Rule, b: Rule, m: Machine, m': Machine)
    requires Stricter(a, b) && Reaches(lim, a, m, m')
    ensures Reaches(lim, b, m, m')
  {
    var steps :| IsRun(lim, a, m, steps, m');
    RunByWeaker(lim, a, b, m, steps, m');
  }

  lemma InitialTokens(lim: Limits, key: Key)
    ensures Inv(INITIAL) && Holders(INITIAL, key) == {} && Debts(INITIAL, key) == {} && Conserved(lim, INITIAL, key)
  {
    assert Holders(INITIAL, key) == {};
    assert Debts(INITIAL, key) == {};
  }

  // ----- Token conservation -----

  /** The jobs of a key that are ready or claimed. */
  ghost function Running(db: Db, key: Key): set<JobId> {
    set j | j in db.jobs && db.jobs[j].key == Some(key) && (j in db.ready || j in db.claimed)
  }

  /** Whatever the interleaving, and whatever happens to other keys' semaphores, as long as
      the key's own row is deleted only when it is full: an existing row's value, the jobs
      holding a token and the threads owing one add up to the limit; without a row nobody
      holds or owes one; so at most `limit` jobs of the key are ready or claimed, and the
      guard of `signal` never lets the value pass the limit. */
  lemma TokenConservation(lim: Limits, m: Machine, key: Key)
    requires Reachable(lim, ExpiresFrom(key, Limit(lim, key)), m)
    ensures key in m.db.semaphores ==>
              0 <= m.db.semaphores[key].value <= Limit(lim, key)
              && m.db.semaphores[key].value + |Holders(m, key)| + |Debts(m, key)| == Limit(lim, key)
    ensures key !in m.db.semaphores ==> Holders(m, key) == {} && Debts(m, key) == {}
    ensures |Running(m.db, key)| <= Limit(lim, key)
  {
    var steps :| IsRun(lim, ExpiresFrom(key, Limit(lim, key)), INITIAL, steps, m);
    InitialTokens(lim, key);
    RunConserves(lim, INITIAL, steps, m, key);
    RunningAreHolders(m, key);
  }

  lemma RunningAreHolders(m: Machine, key: Key)
    ensures Running(m.db, key) <= Holders(m, key) && |Running(m.db, key)| <= |Holders(m, key)|
  {
    assert Running(m.db, key) <= Holders(m, key);
    SubsetSize(Running(m.db, key), Holders(m, key));
  }

  lemma {:induction false} SubsetSize<T>(a: set<T>, b: set<T>)
    requires a <= b
    ensures |a| <= |b|
  {
    assert b == a + (b - a);
  }

  /** Then every signal finds its row and returns its token. */
  lemma SignalsSucceed(lim: Limits, m: Machine, t: ThreadId, now: Time)
    requires t in m.settling && m.settling[t].Owes?
    requires Reachable(lim, ExpiresFrom(m.settling[t].key, Limit(lim, m.settling[t].key)), m)
    ensures var key := m.settling[t].key;
            Signal(Limit(lim, key), m.db.semaphores, key, now + m.settling[t].duration).ok
  {
    TokenConservation(lim, m, m.settling[t].key);
    assert t in Debts(m, m.settling[t].key);
  }

  // ----- Expiry -----

  /** What expiry leaves of conservation: each deleted semaphore adds at most one limit. */
  ghost predicate Bounded(lim: Limits, m: Machine, key: Key) {
    InBounds(lim, m, key) && Total(lim, m, key) <= Limit(lim, key) * (1 + Deletions(m, key))
  }

  /** Only an expiry counts as a deletion, and no step forgets a job. */
  ghost predicate Keeps(m: Machine, m': Machine) {
    m'.deletions == m.deletions && m.db.jobs.Keys <= m'.db.jobs.Keys
  }

  lemma DispatchesKeep(lim: Limits, m: Machine, step: Step)
    requires Enabled(lim, m, step) && (step.DispatchDue? || step.Retry? || step.BulkRetry?)
    ensures Keeps(m, Apply(lim, m, step))
  {
    hide Paid, Moves, MakeReady, MakeBlocked, WaitFrom, AcquireLock;
  }

  lemma PromoteKeeps(lim: Limits, m: Machine, j: JobId, now: Time, seen: WaitPc)
    requires seen != Acquired && j in m.db.blocked && j in m.db.jobs
    ensures Keeps(m, DoPromote(lim, m, j, now, seen))
  {
  }

  lemma EnqueuerKeeps(lim: Limits, m: Machine, step: Step)
    requires Enabled(lim, m, step)
    requires step.Insert? || step.PlaceScheduled? || step.PlaceUnlimited? || step.ReadSemaphore?
             || step.WaitOn? || step.PlaceReady? || step.PlaceBlocked?
    ensures Keeps(m, Apply(lim, m, step))
  {
  }

  lemma StepKeeps(lim: Limits, m: Machine, step: Step)
    requires Enabled(lim, m, step) && !step.Expire?
    ensures Keeps(m, Apply(lim, m, step))
  {
    if step.DispatchDue? || step.Retry? || step.BulkRetry? {
      DispatchesKeep(lim, m, step);
    } else if step.Promote? {
      PromoteKeeps(lim, m, step.j, step.now, step.seen);
    } else if step.Insert? || step.PlaceScheduled? || step.PlaceUnlimited? || step.ReadSemaphore?
              || step.WaitOn? || step.PlaceReady? || step.PlaceBlocked? {
      EnqueuerKeeps(lim, m, step);
    }
  }

  lemma StepBounded(lim: Limits, m: Machine, step: Step, key: Key)
    requires Inv(m) && Bounded(lim, m, key) && Enabled(lim, m, step) && RetryFits(lim, m, step)
    ensures Bounded(lim, Apply(lim, m, step), key)
  {
    if step.Expire? {
      ExpireBounded(lim, m, step.key, key);
    } else {
      StepKeeps(lim, m, step);
      TotalDoesNotGrow(lim, m, step, key);
    }
  }

  lemma TotalDoesNotGrow(lim: Limits, m: Machine, step: Step, key: Key)
    requires Inv(m) && InBounds(lim, m, key) && Enabled(lim, m, step) && RetryFits(lim, m, step) && !step.Expire?
    ensures InBounds(lim, Apply(lim, m, step), key) && Total(lim, Apply(lim, m, step), key) <= Total(lim, m, key)
  {
    if step.SignalKey? {
      SignalTotal(lim, m, step.t, step.now, key);
    } else {
      StepBalanced(lim, m, step, key);
    }
  }

  lemma ExpireBounded(lim: Limits, m: Machine, expired: Key, key: Key)
    requires Bounded(lim, m, key)
    ensures Bounded(lim, DoExpire(m, expired), key)
  {
    ExpireTotal(lim, m, expired, key);
    var l, d := Limit(lim, key), Deletions(m, key);
    assert l * (1 + (d + 1)) == l * (1 + d) + l;
  }

  lemma {:induction false} RunBounded(lim: Limits, m: Machine, steps: seq<Step>, m': Machine, key: Key)
    requires Inv(m) && Bounded(lim, m, key) && IsRun(lim, RetriesFit, m, steps, m')
    ensures Bounded(lim, m', key)
    decreases |steps|
  {
    if steps != [] {
      StepKeepsInv(lim, m, steps[0]);
      StepBounded(lim, m, steps[0], key);
      RunBounded(lim, Apply(lim, m, steps[0]), steps[1..], m', key);
    }
  }

  /** Even if maintenance deletes semaphores at any time, a value stays between zero and one
      more than the limit, and the ready or claimed jobs of a key are at most the limit for
      each life its semaphore has had. */
  lemma BoundUnderExpiry(lim: Limits, m: Machine, key: Key)
    requires Reachable(lim, RetriesFit, m)
    ensures key in m.db.semaphores ==> 0 <= m.db.semaphores[key].value <= Limit(lim, key) + 1
    ensures |Running(m.db, key)| <= Limit(lim, key) * (1 + Deletions(m, key))
  {
    var steps :| IsRun(lim, RetriesFit, INITIAL, steps, m);
    InitialTokens(lim, key);
    RunBounded(lim, INITIAL, steps, m, key);
    RunningAreHolders(m, key);
  }

  // ----- Places, locks and owners -----

  lemma {:induction false} RunKeepsJobs(lim: Limits, rule: Rule, m: Machine, steps: seq<Step>, m': Machine)
    requires IsRun(lim, rule, m, steps, m')
    ensures m.db.jobs.Keys <= m'.db.jobs.Keys
    decreases |steps|
  {
    if steps != [] {
      if !steps[0].Expire? {
        StepKeeps(lim, m, steps[0]);
      }
      RunKeepsJobs(lim, rule, Apply(lim, m, steps[0]), steps[1..], m');
    }
  }

  /** Jobs are never lost: from any reachable state on, every job stays known and is in
      exactly one place: with the thread enqueueing it, ready, claimed, blocked, scheduled,
      failed, or finished. */
  lemma ExactlyOnePlace(lim: Limits, m: Machine, m': Machine, j: JobId)
    requires Reachable(lim, RetriesFit, m) && Reaches(lim, RetriesFit, m, m') && j in m.db.jobs
    ensures j in m'.db.jobs && Places(m', j) == 1
  {
    ReachesTransitive(lim, RetriesFit, INITIAL, m, m');
    ReachableInv(lim, RetriesFit, m');
    var steps :| IsRun(lim, RetriesFit, m, steps, m');
    RunKeepsJobs(lim, RetriesFit, m, steps, m');
    assert Placed(m', j);
  }

  /** No row belongs to something that is not a job. */
  lemma RowsBelongToJobs(lim: Limits, m: Machine, j: JobId)
    requires Reachable(lim, RetriesFit, m) && j !in m.db.jobs
    ensures j !in m.db.ready && j !in m.db.claimed && j !in m.db.blocked && j !in m.db.scheduled && j !in m.db.failed
  {
    ReachableInv(lim, RetriesFit, m);
    assert Placed(m, j);
  }

  /** Whatever the other workers do between locking and committing, a claim moves exactly
      its locked rows from ready to claimed: no job gets a second claimed row, and what is
      ready or claimed stays so. */
  lemma NoDoubleClaim(lim: Limits, m: Machine, t: ThreadId)
    requires Reachable(lim, RetriesFit, m) && t in m.claiming
    ensures var rows, after := m.claiming[t].rows, DoCommitClaim(m, t).db;
            && rows <= m.db.ready.Keys && rows !! m.db.claimed.Keys
            && after.ready.Keys == m.db.ready.Keys - rows
            && after.claimed.Keys == m.db.claimed.Keys + rows
            && (forall j :: j in rows ==> after.claimed[j] == Some(m.claiming[t].process))
            && (forall j :: j in m.db.claimed ==> after.claimed[j] == m.db.claimed[j])
            && after.ready.Keys + after.claimed.Keys == m.db.ready.Keys + m.db.claimed.Keys
  {
    ReachableInv(lim, RetriesFit, m);
    ClaimCommits(m, t);
  }

  /** Two claiming transactions never hold the same row. */
  lemma ClaimsAreDisjoint(lim: Limits, m: Machine, t: ThreadId, u: ThreadId)
    requires Reachable(lim, RetriesFit, m) && t in m.claiming && u in m.claiming && t != u
    ensures m.claiming[t].rows !! m.claiming[u].rows
  {
    ReachableInv(lim, RetriesFit, m);
  }

  /** No insertion under a one-to-one constraint ever meets an existing row: not a promoted
      job's ready row, and not a failed row of a claimed job. */
  lemma NoConflictingRows(lim: Limits, m: Machine, j: JobId)
    requires Reachable(lim, RetriesFit, m)
    ensures j in m.promoting ==> j in m.db.blocked && j !in m.db.ready
    ensures j in m.db.claimed ==> j !in m.db.failed && j !in m.db.ready
    ensures j in m.enqueuing ==> j !in m.db.ready && j !in m.db.blocked && j !in m.db.scheduled
  {
    ReachableInv(lim, RetriesFit, m);
    assert Placed(m, j);
  }

  /** Every claimed row names a registered worker. */
  lemma NoOrphans(lim: Limits, m: Machine, j: JobId)
    requires Reachable(lim, RetriesFit, m) && j in m.db.claimed
    ensures m.db.claimed[j].Some? && IsWorker(m.db.processes, m.db.claimed[j].value)
  {
    ReachableInv(lim, RetriesFit, m);
  }
}
