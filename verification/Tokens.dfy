/** Where the tokens of a concurrency key are, and how each step of the protocol moves
    them. */
module Tokens {
  import opened Tables
  import opened Semaphores
  import opened Executables
  import opened BlockedExecutions
  import opened Protocol
  import opened Lifecycle

  /** A job of the key that may run or soon will: ready, claimed, or in a thread that has
      its token and is about to make it ready. */
  ghost predicate Holds(m: Machine, j: JobId, key: Key) {
    && j in m.db.jobs && m.db.jobs[j].key == Some(key)
    && (j in m.db.ready || j in m.db.claimed || (j in m.enqueuing && m.enqueuing[j] == Waiting(Acquired)))
  }

  ghost function Holders(m: Machine, key: Key): set<JobId> {
    set j | j in m.db.jobs && Holds(m, j, key)
  }

  /** A thread that ended a job of the key and has not signalled yet. */
  ghost predicate IsDebt(m: Machine, t: ThreadId, key: Key) {
    t in m.settling && m.settling[t].Owes? && m.settling[t].key == key
  }

  ghost function Debts(m: Machine, key: Key): set<ThreadId> {
    set t | t in m.settling && IsDebt(m, t, key)
  }

  ghost function FreeTokens(lim: Limits, m: Machine, key: Key): int {
    Free(Limit(lim, key), m.db.semaphores, key)
  }

  /** All tokens of a key: free, held and owed. */
  ghost function Total(lim: Limits, m: Machine, key: Key): int {
    FreeTokens(lim, m, key) + |Holders(m, key)| + |Debts(m, key)|
  }

  ghost predicate InBounds(lim: Limits, m: Machine, key: Key) {
    0 <= FreeTokens(lim, m, key) <= Limit(lim, key) + 1
  }

  /** The step neither makes nor loses a token of the key. */
  ghost predicate Balanced(lim: Limits, m: Machine, m': Machine, key: Key) {
    && Total(lim, m', key) == Total(lim, m, key)
    && (InBounds(lim, m, key) ==> InBounds(lim, m', key))
  }

  ghost predicate SameHolder(m: Machine, m': Machine, j: JobId, key: Key) {
    Holds(m', j, key) <==> Holds(m, j, key)
  }

  ghost predicate SameDebt(m: Machine, m': Machine, t: ThreadId, key: Key) {
    IsDebt(m', t, key) <==> IsDebt(m, t, key)
  }

  // ----- The three ways a step can affect a key -----

  lemma SameHolders(m: Machine, m': Machine, key: Key)
    requires forall j :: SameHolder(m, m', j, key)
    ensures Holders(m', key) == Holders(m, key)
  {
    forall j ensures j in Holders(m', key) <==> j in Holders(m, key) {
      assert SameHolder(m, m', j, key);
    }
  }

  lemma OneMoreHolder(m: Machine, m': Machine, j: JobId, key: Key)
    requires Holds(m', j, key) && !Holds(m, j, key)
    requires forall i :: i != j ==> SameHolder(m, m', i, key)
    ensures |Holders(m', key)| == |Holders(m, key)| + 1
  {
    forall i ensures i in Holders(m', key) <==> i in Holders(m, key) + {j} {
      assert i == j || SameHolder(m, m', i, key);
    }
    assert Holders(m', key) == Holders(m, key) + {j};
  }

  lemma SameDebts(m: Machine, m': Machine, key: Key)
    requires forall t :: SameDebt(m, m', t, key)
    ensures Debts(m', key) == Debts(m, key)
  {
    forall t ensures t in Debts(m', key) <==> t in Debts(m, key) {
      assert SameDebt(m, m', t, key);
    }
  }

  lemma OneMoreDebt(m: Machine, m': Machine, t: ThreadId, key: Key)
    requires IsDebt(m', t, key) && !IsDebt(m, t, key)
    requires forall u :: u != t ==> SameDebt(m, m', u, key)
    ensures |Debts(m', key)| == |Debts(m, key)| + 1
  {
    forall u ensures u in Debts(m', key) <==> u in Debts(m, key) + {t} {
      assert u == t || SameDebt(m, m', u, key);
    }
    assert Debts(m', key) == Debts(m, key) + {t};
  }

  /** Nothing about the key changes. */
  lemma NoEffect(lim: Limits, m: Machine, m': Machine, key: Key)
    requires forall j :: SameHolder(m, m', j, key)
    requires forall t :: SameDebt(m, m', t, key)
    requires FreeTokens(lim, m', key) == FreeTokens(lim, m, key)
    ensures Balanced(lim, m, m', key)
  {
    SameHolders(m, m', key);
    SameDebts(m, m', key);
  }

  /** Job `j` takes a free token. */
  lemma Takes(lim: Limits, m: Machine, m': Machine, j: JobId, key: Key)
    requires Holds(m', j, key) && !Holds(m, j, key)
    requires forall i :: i != j ==> SameHolder(m, m', i, key)
    requires m'.settling == m.settling
    requires FreeTokens(lim, m', key) == FreeTokens(lim, m, key) - 1 && 1 <= FreeTokens(lim, m, key)
    ensures Balanced(lim, m, m', key)
  {
    OneMoreHolder(m, m', j, key);
    SameDebts(m, m', key);
  }

  /** Job `j` gives up its token and thread `t` owes it. */
  lemma Owed(lim: Limits, m: Machine, m': Machine, j: JobId, t: ThreadId, key: Key)
    requires Holds(m, j, key) && !Holds(m', j, key)
    requires forall i :: i != j ==> SameHolder(m, m', i, key)
    requires IsDebt(m', t, key) && !IsDebt(m, t, key)
    requires forall u :: u != t ==> SameDebt(m, m', u, key)
    requires FreeTokens(lim, m', key) == FreeTokens(lim, m, key)
    ensures Balanced(lim, m, m', key)
  {
    forall i | i != j ensures SameHolder(m', m, i, key) {
      assert SameHolder(m, m', i, key);
    }
    OneMoreHolder(m', m, j, key);
    OneMoreDebt(m, m', t, key);
  }

  // ----- Steps that take a token or none -----

  lemma ReadyBalanced(lim: Limits, m: Machine, j: JobId, key: Key)
    requires Inv(m) && j in m.enqueuing && j in m.db.jobs
    requires m.enqueuing[j] == Waiting(Acquired) || m.db.jobs[j].key.None?
    ensures Balanced(lim, m, DoPlace(m, j, MakeReady(m.db, j)), key)
  {
    hide Balanced;
    assert Placed(m, j);
    NoEffect(lim, m, DoPlace(m, j, MakeReady(m.db, j)), key);
  }

  lemma ScheduledBalanced(lim: Limits, m: Machine, j: JobId, key: Key)
    requires Inv(m) && j in m.enqueuing && j in m.db.jobs && m.enqueuing[j] != Waiting(Acquired)
    requires m.db.jobs[j].scheduledAt.Some?
    ensures Balanced(lim, m, DoPlace(m, j, MakeScheduled(m.db, j)), key)
  {
    hide Balanced;
    assert Placed(m, j);
    NoEffect(lim, m, DoPlace(m, j, MakeScheduled(m.db, j)), key);
  }

  lemma BlockedBalanced(lim: Limits, m: Machine, j: JobId, now: Time, key: Key)
    requires Inv(m) && j in m.enqueuing && j in m.db.jobs && m.enqueuing[j] != Waiting(Acquired)
             && m.db.jobs[j].key.Some?
    ensures Balanced(lim, m, DoPlace(m, j, MakeBlocked(m.db, j, now)), key)
  {
    hide Balanced;
    assert Placed(m, j);
    NoEffect(lim, m, DoPlace(m, j, MakeBlocked(m.db, j, now)), key);
  }

  lemma PlaceBalanced(lim: Limits, m: Machine, j: JobId, db: Db, now: Time, key: Key)
    requires Inv(m) && j in m.enqueuing && j in m.db.jobs
    requires || (db == MakeReady(m.db, j) && (m.enqueuing[j] == Waiting(Acquired) || m.db.jobs[j].key.None?))
             || (m.db.jobs[j].scheduledAt.Some? && db == MakeScheduled(m.db, j) && m.enqueuing[j] != Waiting(Acquired))
             || (m.db.jobs[j].key.Some? && db == MakeBlocked(m.db, j, now) && m.enqueuing[j] != Waiting(Acquired))
    ensures Balanced(lim, m, DoPlace(m, j, db), key)
  {
    hide *;
    if db == MakeReady(m.db, j) && (m.enqueuing[j] == Waiting(Acquired) || m.db.jobs[j].key.None?) {
      ReadyBalanced(lim, m, j, key);
    } else if m.db.jobs[j].scheduledAt.Some? && db == MakeScheduled(m.db, j) && m.enqueuing[j] != Waiting(Acquired) {
      ScheduledBalanced(lim, m, j, key);
    } else {
      BlockedBalanced(lim, m, j, now, key);
    }
  }

  lemma InsertBalanced(lim: Limits, m: Machine, j: JobId, job: Job, key: Key)
    requires Inv(m) && j !in m.db.jobs
    ensures Balanced(lim, m, DoInsert(m, j, job), key)
  {
    assert Placed(m, j);
    NoEffect(lim, m, DoInsert(m, j, job), key);
  }

  lemma ReadSemaphoreBalanced(lim: Limits, m: Machine, j: JobId, key: Key)
    requires Inv(m) && j in m.db.jobs && j in m.enqueuing && m.enqueuing[j] == Unplaced
    ensures Balanced(lim, m, DoReadSemaphore(m, j), key)
  {
    NoEffect(lim, m, DoReadSemaphore(m, j), key);
  }

  lemma WaitOnBalanced(lim: Limits, m: Machine, j: JobId, now: Time, key: Key)
    requires Inv(m) && j in m.enqueuing && m.enqueuing[j].Waiting? && m.enqueuing[j].pc != Acquired
    requires j in m.db.jobs && m.db.jobs[j].key.Some?
    ensures Balanced(lim, m, DoWaitOn(lim, m, j, now), key)
  {
    assert Placed(m, j);
    var m' := DoWaitOn(lim, m, j, now);
    if m'.enqueuing[j] == Waiting(Acquired) && m.db.jobs[j].key.value == key {
      Takes(lim, m, m', j, key);
    } else {
      NoEffect(lim, m, m', key);
    }
  }

  lemma CommitClaimBalanced(lim: Limits, m: Machine, t: ThreadId, key: Key)
    requires Inv(m) && t in m.claiming
    ensures Balanced(lim, m, DoCommitClaim(m, t), key)
  {
    NoEffect(lim, m, DoCommitClaim(m, t), key);
  }

  lemma GiveBackBalanced(lim: Limits, m: Machine, j: JobId, key: Key)
    requires Inv(m) && j in m.db.claimed && j in m.db.jobs
    ensures Balanced(lim, m, DoGiveBack(m, j), key)
  {
    NoEffect(lim, m, DoGiveBack(m, j), key);
  }

  lemma PromotedBalanced(lim: Limits, m: Machine, j: JobId, semaphores: Table, key: Key)
    requires Inv(m) && j in m.db.blocked && j in m.db.jobs
    requires Paid(lim, m.db.jobs[j], m.db.semaphores, semaphores)
    ensures Balanced(lim, m, m.(db := Promoted(m.db, semaphores, j), promoting := m.promoting - {j}), key)
  {
    assert Placed(m, j);
    var m' := m.(db := Promoted(m.db, semaphores, j), promoting := m.promoting - {j});
    if m.db.jobs[j].key.value == key {
      Takes(lim, m, m', j, key);
    } else {
      NoEffect(lim, m, m', key);
    }
  }

  lemma PromoteBalanced(lim: Limits, m: Machine, j: JobId, now: Time, seen: WaitPc, key: Key)
    requires Inv(m) && j in m.promoting && seen != Acquired && j in m.db.blocked && j in m.db.jobs
    ensures Balanced(lim, m, DoPromote(lim, m, j, now, seen), key)
  {
    var r := Release(lim, m.db, j, now, seen);
    if r.ok {
      PromotedBalanced(lim, m, j, r.db.semaphores, key);
    } else {
      NoEffect(lim, m, m.(promoting := m.promoting - {j}), key);
    }
  }

  // ----- Dispatches from the scheduled and failed tables -----

  /** Rows of the scheduled and failed tables hold no token. */
  lemma DispatchedReadyBalanced(
      lim: Limits, m: Machine, j: JobId, after: Db, scheduled: map<JobId, ScheduledRow>, failed: map<JobId, string>,
      key: Key)
    requires Inv(m) && j in m.db.jobs && (j in m.db.scheduled || j in m.db.failed)
    requires after == MakeReady(m.db.(semaphores := after.semaphores), j)
    requires Paid(lim, m.db.jobs[j], m.db.semaphores, after.semaphores)
    ensures Balanced(lim, m, m.(db := after.(scheduled := scheduled, failed := failed)), key)
  {
    assert Placed(m, j);
    var m' := m.(db := after.(scheduled := scheduled, failed := failed));
    if m.db.jobs[j].key == Some(key) {
      Takes(lim, m, m', j, key);
    } else {
      NoEffect(lim, m, m', key);
    }
  }

  lemma NotReadyBalanced(lim: Limits, m: Machine, after: Db, key: Key)
    requires after.jobs == m.db.jobs && after.ready == m.db.ready && after.claimed == m.db.claimed
    requires after.semaphores == m.db.semaphores
    ensures Balanced(lim, m, m.(db := after), key)
  {
    NoEffect(lim, m, m.(db := after), key);
  }

  lemma DispatchBalanced(
      lim: Limits, m: Machine, j: JobId, now: Time, seen: WaitPc, scheduled: map<JobId, ScheduledRow>,
      failed: map<JobId, string>, key: Key)
    requires Inv(m) && j in m.db.jobs && (j in m.db.scheduled || j in m.db.failed) && seen != Acquired
    ensures var after := DispatchFrom(lim, m.db, j, now, seen);
            Balanced(lim, m, m.(db := after.(scheduled := scheduled, failed := failed)), key)
  {
    var after := DispatchFrom(lim, m.db, j, now, seen);
    if m.db.jobs[j].key.Some? && after == MakeBlocked(m.db, j, now) {
      NotReadyBalanced(lim, m, after.(scheduled := scheduled, failed := failed), key);
    } else {
      DispatchedReadyBalanced(lim, m, j, after, scheduled, failed, key);
    }
  }

  lemma DispatchesBalanced(lim: Limits, m: Machine, step: Step, key: Key)
    requires Inv(m) && Enabled(lim, m, step) && RetryFits(lim, m, step)
    requires step.DispatchDue? || step.Retry? || step.BulkRetry?
    ensures Balanced(lim, m, Apply(lim, m, step), key)
  {
    var j := step.j;
    var after := DispatchFrom(lim, m.db, j, step.now, step.seen);
    if step.DispatchDue? {
      DispatchBalanced(lim, m, j, step.now, step.seen, after.scheduled - {j}, after.failed, key);
    } else if step.BulkRetry? || IsDue(m.db.jobs[j], step.now) {
      DispatchBalanced(lim, m, j, step.now, step.seen, after.scheduled, after.failed - {j}, key);
    } else {
      NotReadyBalanced(lim, m, MakeScheduled(m.db, j).(failed := m.db.failed - {j}), key);
    }
  }

  // ----- The end of a job -----

  ghost predicate EndsClaim(m: Machine, m': Machine, j: JobId) {
    && m'.db.claimed == m.db.claimed - {j} && m'.db.ready == m.db.ready && m'.enqueuing == m.enqueuing
    && m'.db.jobs.Keys == m.db.jobs.Keys && (forall i :: i in m.db.jobs ==> m'.db.jobs[i].key == m.db.jobs[i].key)
  }

  lemma EndedElsewhere(m: Machine, m': Machine, j: JobId, key: Key)
    requires EndsClaim(m, m', j)
    ensures forall i :: i != j ==> SameHolder(m, m', i, key)
  {
  }

  lemma EndBalanced(lim: Limits, m: Machine, m': Machine, t: ThreadId, j: JobId, key: Key)
    requires Inv(m) && j in m.db.claimed && j in m.db.jobs && t !in m.settling
    requires EndsClaim(m, m', j) && m'.db.semaphores == m.db.semaphores
    requires m'.settling == Owing(m.settling, t, m.db.jobs[j])
    ensures Balanced(lim, m, m', key)
  {
    assert Placed(m, j);
    EndedElsewhere(m, m', j, key);
    if m.db.jobs[j].key == Some(key) {
      Owed(lim, m, m', j, t, key);
    } else {
      assert SameHolder(m, m', j, key);
      NoEffect(lim, m, m', key);
    }
  }

  lemma FinishBalanced(lim: Limits, m: Machine, t: ThreadId, j: JobId, now: Time, key: Key)
    requires Inv(m) && j in m.db.claimed && j in m.db.jobs && t !in m.settling
    ensures Balanced(lim, m, DoFinish(m, t, j, now), key)
  {
    EndBalanced(lim, m, DoFinish(m, t, j, now), t, j, key);
  }

  lemma FailBalanced(lim: Limits, m: Machine, t: ThreadId, j: JobId, error: string, key: Key)
    requires Inv(m) && j in m.db.claimed && j in m.db.jobs && t !in m.settling
    ensures Balanced(lim, m, DoFail(m, t, j, error), key)
  {
    assert Placed(m, j);
    EndBalanced(lim, m, DoFail(m, t, j, error), t, j, key);
  }

  /** A signal pays the thread's debt with a free token, or with nothing when the row is
      missing or already holds more than the limit. */
  lemma SignalTotal(lim: Limits, m: Machine, t: ThreadId, now: Time, key: Key)
    requires t in m.settling && m.settling[t].Owes?
    ensures var m' := DoSignalKey(lim, m, t, now);
            && (InBounds(lim, m, key) ==> InBounds(lim, m', key))
            && (Total(lim, m', key) == Total(lim, m, key)
                || (Total(lim, m', key) == Total(lim, m, key) - 1 && Debts(m, key) != {}
                   && FreeTokens(lim, m, key) >= Limit(lim, key)))
  {
    var m' := DoSignalKey(lim, m, t, now);
    SameHolders(m, m', key);
    if m.settling[t].key == key {
      forall u | u != t ensures SameDebt(m', m, u, key) {
      }
      OneMoreDebt(m', m, t, key);
      assert t in Debts(m, key);
    } else {
      SameDebts(m, m', key);
    }
  }

  /** Deleting an expired semaphore row makes room for a full one; only its own key gains. */
  lemma ExpireTotal(lim: Limits, m: Machine, expired: Key, key: Key)
    requires InBounds(lim, m, key)
    ensures var m' := DoExpire(m, expired);
            && InBounds(lim, m', key)
            && Total(lim, m', key) <= Total(lim, m, key) + (if key == expired then Limit(lim, key) else 0)
  {
    var m' := DoExpire(m, expired);
    SameHolders(m, m', key);
    SameDebts(m, m', key);
  }

  // ----- All steps -----

  lemma EnqueuerBalanced(lim: Limits, m: Machine, step: Step, key: Key)
    requires Inv(m) && Enabled(lim, m, step)
    requires step.Insert? || step.PlaceScheduled? || step.PlaceUnlimited? || step.ReadSemaphore?
             || step.WaitOn? || step.PlaceReady? || step.PlaceBlocked?
    ensures Balanced(lim, m, Apply(lim, m, step), key)
  {
    match step
    case Insert(j, job) => InsertBalanced(lim, m, j, job, key);
    case PlaceScheduled(j, now) => PlaceBalanced(lim, m, j, MakeScheduled(m.db, j), now, key);
    case PlaceUnlimited(j, now) => PlaceBalanced(lim, m, j, MakeReady(m.db, j), now, key);
    case ReadSemaphore(j, now) => ReadSemaphoreBalanced(lim, m, j, key);
    case WaitOn(j, now) => WaitOnBalanced(lim, m, j, now, key);
    case PlaceReady(j) => PlaceBalanced(lim, m, j, MakeReady(m.db, j), 0, key);
    case PlaceBlocked(j, now) => PlaceBalanced(lim, m, j, MakeBlocked(m.db, j, now), now, key);
  }

  lemma WorkerBalanced(lim: Limits, m: Machine, step: Step, key: Key)
    requires Inv(m) && Enabled(lim, m, step)
    requires step.CommitClaim? || step.Finish? || step.Fail? || step.GiveBack?
    ensures Balanced(lim, m, Apply(lim, m, step), key)
  {
    match step
    case CommitClaim(t) => CommitClaimBalanced(lim, m, t, key);
    case Finish(t, j, now) => FinishBalanced(lim, m, t, j, now, key);
    case Fail(t, j, error) => FailBalanced(lim, m, t, j, error, key);
    case GiveBack(j) => GiveBackBalanced(lim, m, j, key);
  }

  ghost predicate SameTokens(m: Machine, m': Machine) {
    && m'.db.jobs == m.db.jobs && m'.db.ready == m.db.ready && m'.db.claimed.Keys == m.db.claimed.Keys
    && m'.db.semaphores == m.db.semaphores && m'.enqueuing == m.enqueuing
    && (forall t :: (t in m'.settling && m'.settling[t].Owes?) || (t in m.settling && m.settling[t].Owes?) ==>
          t in m'.settling && t in m.settling && m'.settling[t] == m.settling[t])
  }

  lemma SameTokensBalanced(lim: Limits, m: Machine, m': Machine, key: Key)
    requires SameTokens(m, m')
    ensures Balanced(lim, m, m', key)
  {
    NoEffect(lim, m, m', key);
  }

  lemma LockBlockedBalanced(lim: Limits, m: Machine, t: ThreadId, key: Key)
    requires t in m.settling && m.settling[t].Releasing? && m.db.blocked.Keys <= m.db.jobs.Keys
    ensures Balanced(lim, m, DoLockBlocked(m, t), key)
  {
    SameTokensBalanced(lim, m, DoLockBlocked(m, t), key);
  }

  lemma StartReleaseBalanced(lim: Limits, m: Machine, t: ThreadId, k: Key, key: Key)
    requires t !in m.settling
    ensures Balanced(lim, m, DoStartRelease(m, t, k), key)
  {
    SameTokensBalanced(lim, m, DoStartRelease(m, t, k), key);
  }

  lemma ProcessesBalanced(lim: Limits, m: Machine, step: Step, key: Key)
    requires Enabled(lim, m, step)
    requires step.LockReady? || step.AbortClaim? || step.FindExpired? || step.Register? || step.Leave?
             || step.DeleteProcess?
    ensures Balanced(lim, m, Apply(lim, m, step), key)
  {
    hide Balanced, SameTokens;
    if step.DeleteProcess? {
      DeleteSameTokens(m, step.p);
    } else {
      hide Apply, Enabled;
      ProcessesSameTokens(lim, m, step);
    }
    SameTokensBalanced(lim, m, Apply(lim, m, step), key);
  }

  lemma DeleteSameTokens(m: Machine, p: ProcessId)
    ensures SameTokens(m, DoDeleteProcess(m, p))
  {
  }

  lemma ProcessesSameTokens(lim: Limits, m: Machine, step: Step)
    requires Enabled(lim, m, step)
    requires step.LockReady? || step.AbortClaim? || step.FindExpired? || step.Register? || step.Leave?
    ensures SameTokens(m, Apply(lim, m, step))
  {
    assert Apply(lim, m, step).settling == m.settling;
  }

  lemma OtherBalanced(lim: Limits, m: Machine, step: Step, key: Key)
    requires Inv(m) && Enabled(lim, m, step)
    requires step.LockReady? || step.AbortClaim? || step.StartRelease? || step.LockBlocked? || step.Promote?
             || step.FindExpired? || step.Register? || step.Leave? || step.DeleteProcess?
    ensures Balanced(lim, m, Apply(lim, m, step), key)
  {
    hide Balanced, Inv;
    match step
    case Promote(j, now, seen) => PromoteBalanced(lim, m, j, now, seen, key);
    case LockBlocked(t) => LockBlockedBalanced(lim, m, t, key);
    case StartRelease(t, k) => StartReleaseBalanced(lim, m, t, k, key);
    case _ => ProcessesBalanced(lim, m, step, key);
  }

  /** Every step but a signal and an expiry neither makes nor loses a token. */
  lemma StepBalanced(lim: Limits, m: Machine, step: Step, key: Key)
    requires Inv(m) && Enabled(lim, m, step) && RetryFits(lim, m, step)
    requires !step.SignalKey? && !step.Expire?
    ensures Balanced(lim, m, Apply(lim, m, step), key)
  {
    if step.DispatchDue? || step.Retry? || step.BulkRetry? {
      DispatchesBalanced(lim, m, step, key);
    } else if step.CommitClaim? || step.Finish? || step.Fail? || step.GiveBack? {
      WorkerBalanced(lim, m, step, key);
    } else if step.Insert? || step.PlaceScheduled? || step.PlaceUnlimited? || step.ReadSemaphore?
              || step.WaitOn? || step.PlaceReady? || step.PlaceBlocked? {
      EnqueuerBalanced(lim, m, step, key);
    } else {
      OtherBalanced(lim, m, step, key);
    }
  }
}
