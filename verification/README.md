# Verification of Steady Queue

A Dafny model of Steady Queue, a database-backed task queue for Django, and proofs about it.
`dafny verify dfyconfig.toml` checks the whole project.

## What is modelled

**The tables.** `Tables` holds one state of all tables as a value, `Db`, with one map per table;
`Database` is the object whose tables the queue's code changes. Each operation of the queue is a
method on it, proved equal to a function of the old state, and the results are proved about those
functions.

**The protocol.** A job moves between the scheduled, ready, blocked, claimed, failed and finished
states while any number of enqueuers, workers, dispatchers and supervisors move it at once, and
jobs with a concurrency key take and return semaphore tokens on the way. `Protocol` has one step
for every statement that commits on its own and for every transaction that keeps others out by
row locks; an operation of several statements has a program counter per thread (`Semaphores`
gives `wait` one of its own). `Lifecycle` and `Tokens` are the inductive invariants, `Runs` what
follows for every run, and `Operations` shows that an uninterrupted call is such a run. `Quiescence`
says what holds when calls do not interleave, `Patience` when interleaved ones serve every blocked
job all the same, `Deadlines` for how long the limits are kept when semaphores expire, `Promotions`
what a promoted job loses, and `Witnesses` and `StaleDeletions` what interleaving or expiry really
reaches.

A run follows a *rule*: which deletions of semaphores it may contain, whether its steps all read one
time (`AtOnce`, as those of an uninterrupted call do), and, under all rules but `Unrestricted`, that
every bulk retry fits, that is, makes its job ready. Results name the weakest rule they need.

**The operations around it.** `ReadyExecutions`, `QueueSelector` and `QueueOrder` (claiming),
`ScheduledExecutions` (the dispatcher's batches), `Maintenance` (expiry and unblocking),
`FailedExecutions` and `StrandedRetries` (retries),
`Settlement`, `Departures` and `Processes` (dead and leaving processes), `Supervisors` (forks),
`RecurringTasks` (schedulers), `WorkerPool` and `Workers` (thread pool and self-pipe), `Arguments`
(serialization). `Ordering` models `ORDER BY` and `LIMIT`.

## Terms

- A *token* of a key is free (in the semaphore's value, or in a row not created yet), *held* by a
  ready or claimed job or by an enqueuer that has acquired but not inserted its ready row, or
  *owed* by a thread that has ended a job and has still to signal.
- Tables are *sane* when every job is in exactly one place, locks and owners are consistent, and for
  every key free, held and owed tokens add up to the limit.
- A key's *queue* lists its blocked rows in the order in which they are released.

## Assumptions

- A concurrency key has one fixed limit of at least one (steady_queue/models/semaphore.py:99-101).
- `preserve_finished_jobs` is true (steady_queue/__init__.py:14); jobs are not deleted.
- A process that was pruned, deregistered or replaced takes no further steps. Otherwise the `finally`
  in `perform` signals a second time (steady_queue/models/claimed_execution.py:107-108).
- A task can be deserialized, which happens outside the `try` of `perform`, and signal receivers
  do not raise, which would count a finished job as failed
  (steady_queue/models/claimed_execution.py:81-106).
- A query that a transaction uses twice answers the same twice.
- `get_or_create` on a semaphore is one atomic step, as its unique key makes it.
- Reading the clock twice within one call gives one time; across steps times are arbitrary. Only in
  `Deadlines` is there one clock, which does not run backwards and which every step reads.
- Where a result says so, bulk retries fit. `FailedExecutions.BulkRetryKeepsPlaces` says when they do,
  and `Lifecycle.StepKeepsInvExactly` and `StrandedRetries` what happens when they do not.

## Where the code and its documentation disagree

The model follows the code.

- docs/internals.rst:141 says that the blocked task with the highest priority is released first.
  `block` does not copy the job's priority (steady_queue/models/concurrency_controls.py:47-48), so all
  blocked rows have the default and the order is that of the job ids; promoted jobs keep the
  default queue name and priority too. `Promotions.ReleasedByJobId` states it over all runs. A worker
  whose list holds only names never reads a promoted job (`Promotions.PromotedJobOverlooked`);
  `QueueSelector.SelectsMatching` says which workers do.
- docs/internals.rst:134-142 describes a count that goes up when a task is admitted and down when it
  ends. The stored value counts the free tokens, the other way round
  (steady_queue/models/semaphore.py:62-89).
- README.md:551-554 promises at most the given number of tasks at a time for the duration. Over all
  runs that holds exactly if a semaphore is deleted only with all its tokens in it
  (`Witnesses.LimitKeptExactly`); otherwise `Runs.BoundUnderExpiry` is the bound, which is met
  (`Witnesses.BoundIsReached`). With a clock, it holds while every token comes back within its
  duration, counted from when the job became ready, and maintenance deletes an expired row before a
  token of it is taken again (`Deadlines.LimitKeptForDuration`). Maintenance deletes by primary key
  what it has read before (steady_queue/processes/dispatcher.py:89-93), so the latter can fail, and
  then the limit is passed although every token comes back in time
  (`StaleDeletions.StaleDeletionOvershoots`). `Deadlines.SafeExactlyInTime` gives the exact condition
  for each deletion.
- README.md:560-563 says that the end of a task unblocks the next one with its key. Interleaved,
  a job can stay blocked beside a free token until maintenance finds it
  (`Witnesses.StaleReadStrandsJob`); `Patience` gives the condition.
- A bulk retry looks for blocked jobs in the scheduled table (steady_queue/models/executable.py:35-36),
  so a job that it blocks keeps its failed row. `FailedExecutions.BulkRetryKeepsPlaces` gives the
  exact condition. Promoted and retried again, such a job takes a second token
  (`StrandedRetries.SecondTokenTaken`).
- docs/configuration.rst:77-79 allows exact names and prefixes in any order. An exact name after a
  prefix that matches it raises (steady_queue/queue_selector.py:105-107);
  `QueueSelector.RawOrderFails` gives the exact condition. With `*` in the list, the list's order does
  not matter: all ready jobs are one queue by priority (`QueueOrder.StarByPriority`), or, if any queue is
  paused, the others are read as the table lists them (`QueueOrder.StarInListedOrder`).
- `self_pipe` is a cached property, which takes no lock on the supported Python versions
  (pyproject.toml:10), so its first use by two threads at once can make two pipes.
  `WorkerPool.SafeExactlyWithOnePipe` gives the exact condition for wake-ups not to be lost.

## Model

| member | source | states |
|---|---|---|
| `Semaphores.WaitStatement` | steady_queue/models/semaphore.py:62-83 | Whatever happened to the row since it was read, one further statement of `wait` takes a token only when it ends acquired, never one that is not there, and changes nothing otherwise; `StatementOutcome` says when it ends how. |
| `Semaphores.StatementOutcome` | steady_queue/models/semaphore.py:62-83 | A creation succeeds exactly without a row; a lost race for it refuses exactly at limit one and otherwise goes on to the decrement; the decrement succeeds exactly on a row with a positive value; each with what it writes. |
| `Semaphores.RestOutcome` | steady_queue/models/semaphore.py:46-51 | The rest of `wait` after a read without a row gets a token if and only if there is no row or the limit is not one and the row has a token; after a positive read, if and only if the row is there with a token; otherwise never. It then writes one token less and the given date, and else nothing. |
| `Semaphores.Wait` | steady_queue/models/semaphore.py:46-51 | With nobody in between, `wait` succeeds if and only if a token is free (a missing row counts as full), takes exactly that one, sets the expiry, and leaves other keys alone. |
| `Semaphores.Signal` | steady_queue/models/semaphore.py:85-89 | The increment happens if and only if the row exists with a value up to the limit, so it may leave one more than the limit; other keys are untouched. |
| `Semaphores.SignalThenWait` | steady_queue/models/semaphore.py:46-54 | A token returned can be taken again, and the two calls restore the value. |
| `Semaphores.AttemptIncrement` | steady_queue/models/semaphore.py:85-89 | The guarded update is `Signal` on the table. |
| `Semaphores.AttemptCreation` | steady_queue/models/semaphore.py:62-75 | From a read that found no row: acquired if and only if there still is none, or the limit is not one and the row that somebody else created has a token; the row then has one less and the new date, and nothing changes otherwise. |
| `Semaphores.WaitSeeing` | steady_queue/models/semaphore.py:46-51 | `wait` from a read that may be out of date: who gets a token, told for each kind of read by the row as it is now, and what is written. |
| `Semaphores.AcquireToken` | steady_queue/models/semaphore.py:46-51 | `wait` on the database is `Wait` on its table. |
| `Executables.AcquireLock` | steady_queue/models/concurrency_controls.py:35-39 | A job without a key always gets the lock and pays nothing; otherwise success takes exactly one free token of its key and failure changes nothing. |
| `Executables.DispatchFrom` | steady_queue/models/executable.py:84-88 | Whatever the read showed, a dispatch either pays and makes the job ready, or blocks a job that has a key; nothing else changes. |
| `Executables.LockOutcome` | steady_queue/models/concurrency_controls.py:35-39 | The lock is granted if and only if no token is needed or one is free. |
| `Executables.LockExactly` | steady_queue/models/concurrency_controls.py:35-39 | From any read, also an old one: who gets the lock, and that a token taken leaves the row with one less and the date `now` plus the job's duration. |
| `Executables.DispatchOutcome` | steady_queue/models/executable.py:84-88 | A job without rows becomes ready if and only if it needs no token or one is free. |
| `Executables.ReadyPlaces` | steady_queue/models/executable.py:111-116 | The ready row carries the job's own queue name and priority; no other job is touched. |
| `Executables.BlockPlaces` | steady_queue/models/blocked_execution.py:88-96 | The blocked row carries the job's key and its expiry, but the default queue name and priority; no other job is touched. |
| `Executables.PrepareOutcome` | steady_queue/models/executable.py:78-82 | A due job is dispatched, with the outcome above, and one that is not is scheduled with its own queue name, priority and date; nothing else changes. |
| `Executables.DateDecides` | steady_queue/models/schedulable.py:29-30 | In dates alone: a job whose date is still to come is in the scheduled table with that date, in no other, and no token moves; one without a date, or whose date has come, is in exactly one of the ready and blocked tables and not scheduled. |
| `Executables.RowsAreKept` | steady_queue/models/executable.py:111-116 | A job that has a ready, blocked or scheduled row already keeps it as it is. |
| `Executables.EnqueueOutcome` | steady_queue/models/executable.py:128-133 | Saving a new job gives it exactly one row, in the table that its date decides, and changes nothing else but a token taken. |
| `Executables.AcquireConcurrencyLock` | steady_queue/models/concurrency_controls.py:35-39 | The call on the database is `AcquireLock`. |
| `Executables.DispatchJob` | steady_queue/models/executable.py:84-88 | The two statements together are `Dispatch`. |
| `Executables.PrepareForExecution` | steady_queue/models/executable.py:78-82 | The call on the database is `Prepare`, and puts a job without rows where its date says. |
| `Executables.SaveNew` | steady_queue/models/executable.py:128-133 | Inserting the row and preparing it is `Enqueue`, and puts the job where its date says. |
| `BlockedExecutions.Next` | steady_queue/models/blocked_execution.py:27-32 | The answer is the first unlocked blocked row of the key by priority and job id, or there is none. |
| `BlockedExecutions.NextUnique` | steady_queue/models/blocked_execution.py:27-32 | There is only one such row. |
| `BlockedExecutions.NextByPriority` | steady_queue/models/blocked_execution.py:27-32 | It is the unlocked blocked row of the key with the highest priority, and of equal priorities the smallest job id. |
| `BlockedExecutions.Release` | steady_queue/models/blocked_execution.py:98-113 | Success pays a token, creates the ready row from the blocked row's queue name and priority and deletes the blocked row; failure, also by an existing ready row, changes nothing. |
| `BlockedExecutions.FindNext` | steady_queue/models/blocked_execution.py:27-32 | The search finds exactly `Next`. |
| `BlockedExecutions.ReleaseBlocked` | steady_queue/models/blocked_execution.py:98-105 | The transaction, with its rollback, is `Release`. |
| `BlockedExecutions.ReleaseOneBlocked` | steady_queue/models/blocked_execution.py:25-34 | The call on the database is `ReleaseOne`. |
| `BlockedQueues.QueueHead` | steady_queue/models/blocked_execution.py:25-34 | The next row to release is the head of its key's queue. |
| `BlockedQueues.QueueAfter` | steady_queue/models/blocked_execution.py:98-105 | Releasing a key's next row removes the head of that key's queue and leaves all other queues alone. |
| `BlockedQueues.ReleaseOneEffect` | steady_queue/models/blocked_execution.py:25-34 | `release_one` promotes the head of the key's queue exactly when there is one and a token is free, pays for it, and otherwise changes nothing; this is stated for every key's queue. |
| `BlockedQueues.ReleaseOneWrites` | steady_queue/models/blocked_execution.py:98-105 | The promoted job's token leaves the row with one less and the date `now` plus that job's duration; without a promotion no semaphore is written. |
| `Promotions.ReleasedByJobId` | steady_queue/models/concurrency_controls.py:47-48 | In every reachable state, without any restriction on runs, blocked rows have an empty queue name and priority zero, so the next unlocked row of a key is exactly the one with the smallest job id, whatever the priorities of the jobs. |
| `Promotions.PromotedLosesQueue` | steady_queue/models/blocked_execution.py:98-113 | A promotion from any reachable state leaves the job in the empty queue with priority zero. |
| `Promotions.PromotedJobOverlooked` | steady_queue/models/blocked_execution.py:110-113 | For every limit, a run without expiry ends in a state whose only ready job is a promoted one of queue "q", and a worker on ["q"] claims nothing there, whatever is paused and whatever its limit. |
| `ClaimedExecutions.ReleaseRowsOneMore` | steady_queue/models/claimed_execution.py:25-27 | Giving claims back one by one, in any order, is giving them back all at once. |
| `ClaimedExecutions.UnblockNextBlockedJob` | steady_queue/models/concurrency_controls.py:23-25 | Signal, then release one only if the signal returned a token; `Settlement.EndExactly` says what that writes. |
| `ClaimedExecutions.Perform` | steady_queue/models/claimed_execution.py:79-108 | The end of a job, finished or failed, followed by its signal and promotion, with the semaphores that `Settlement.EndExactly` gives. |
| `Settlement.FinishOutcome` | steady_queue/models/claimed_execution.py:110-114 | On tables where every job is in one place, a finished job is in no execution table any more and is stamped; everybody else's rows are as they were. |
| `Settlement.FailOutcome` | steady_queue/models/claimed_execution.py:116-120 | There a failed job is in the failed table with its error and in no other; everybody else's rows are as they were. |
| `Settlement.GiveBackOutcome` | steady_queue/models/claimed_execution.py:73-77 | There a job given back is ready, in no other table, with its own queue name and priority; everybody else's rows are as they were. |
| `Settlement.EndExactly` | steady_queue/models/semaphore.py:85-98 | After a job finished or failed: without a key, a row, or room in the row, no semaphore changes; if nobody of the key is blocked, the row has one token more and expires at `now` plus the job's duration; if one is promoted, the row keeps its value and expires at `now` plus the duration of that one. |
| `Dispatching.AtOnceIsOneByOne` | steady_queue/models/executable.py:57-64 | Inserting the ready rows of all unlimited jobs at once is dispatching them one by one. |
| `Dispatching.DispatchIgnores` | steady_queue/models/dispatching.py:3-13 | A dispatch commutes with any change of the scheduled and failed tables, so deleting the source rows at the end of a batch is deleting them job by job. |
| `Dispatching.DispatchOneByOne` | steady_queue/models/executable.py:61-64 | The loop dispatches exactly the given jobs, in the order the query gives. |
| `Dispatching.DispatchAll` | steady_queue/models/executable.py:47-55 | The batch is dispatched in some order and the answer is the jobs with a ready or scheduled row; an unlimited job that is ready already makes it fail with nothing changed. |
| `Lifecycle.StepKeepsInv` | steady_queue/models/executable.py:84-133 | Every statement of every operation, a bulk retry if its job becomes ready, keeps: one place per job, matching keys, held locks, and claims owned by registered workers. |
| `Lifecycle.StepKeepsInvExactly` | steady_queue/models/executable.py:29-36 | And a statement keeps it only then: a bulk retry that blocks its job breaks it. |
| `Lifecycle.ClaimCommits` | steady_queue/models/ready_execution.py:37-65 | A claiming transaction never meets the constraints that would roll it back. |
| `Tokens.StepBalanced` | steady_queue/models/semaphore.py:46-89 | Every statement but a signal, a deletion and an unfit bulk retry neither makes nor loses a token of any key. |
| `Tokens.SignalTotal` | steady_queue/models/semaphore.py:85-89 | A signal pays a debt with a free token, or loses it only where the row is missing or over-full. |
| `Tokens.ExpireTotal` | steady_queue/processes/dispatcher.py:87-93 | Deleting a semaphore adds at most one limit of tokens to its own key and none to others. |
| `Runs.TokenConservation` | steady_queue/models/semaphore.py:46-89 | In every interleaving of any number of threads in which bulk retries fit and the key's own semaphore is deleted only when full, other keys' at any time: value, holders and debts add up to the limit; without a row there are none; at most `limit` jobs of the key are ready or claimed; the value never passes the limit. |
| `Runs.SignalsSucceed` | steady_queue/models/claimed_execution.py:107-108 | In such runs every signal returns its token. |
| `Runs.DeletionAddsDeficit` | steady_queue/processes/dispatcher.py:87-93 | Deleting a semaphore at value v makes its tokens add up to exactly limit + (limit - v); they stay conserved if and only if v is at least the limit. |
| `Runs.BoundUnderExpiry` | steady_queue/models/semaphore.py:62-89 | With semaphores deleted at any time, values stay within 0 and limit + 1 and the ready or claimed jobs of a key within limit times one plus the deletions. |
| `Runs.ExactlyOnePlace` | steady_queue/models/executable.py:84-133 | In runs whose bulk retries fit, with or without expiry: from any reachable state on, every job stays known and is in exactly one place. |
| `Runs.RowsBelongToJobs` | steady_queue/models/executable.py:128-133 | No row belongs to something that is not a job. |
| `Runs.NoDoubleClaim` | steady_queue/models/ready_execution.py:33-65 | Whatever happens between locking and committing, a claim moves exactly its rows; nobody else gets them, and ready plus claimed jobs are conserved. |
| `Runs.ClaimsAreDisjoint` | steady_queue/models/ready_execution.py:42-47 | Two claiming transactions never hold the same row. |
| `Runs.NoConflictingRows` | steady_queue/models/blocked_execution.py:110-113 | No insertion under a one-to-one constraint ever meets an existing row. |
| `Runs.NoOrphans` | steady_queue/models/process.py:62-77 | Every claimed row names a registered worker in every reachable state. |
| `Operations.EnqueueRuns` | steady_queue/models/executable.py:128-133 | Uninterrupted, saving a new job is a run of the protocol's statements in which every step that reads the clock reads the time of the call. |
| `Operations.ClaimRuns` | steady_queue/models/ready_execution.py:33-65 | Uninterrupted, a claim is a run of the protocol's statements. |
| `Operations.FinishRuns` | steady_queue/models/claimed_execution.py:107-114 | Uninterrupted, finishing with signal and promotion is a run of the protocol's statements in which every step that reads the clock reads the time of the call. |
| `Operations.FailRuns` | steady_queue/models/claimed_execution.py:29-33 | Uninterrupted, failing with signal and promotion is a run of the protocol's statements in which every step that reads the clock reads the time of the call. |
| `Operations.MaintenanceRuns` | steady_queue/models/blocked_execution.py:25-34 | Uninterrupted, `release_one` is a run of the protocol's statements in which every step that reads the clock reads the time of the call. |
| `Operations.DeleteProcessRuns` | steady_queue/models/process.py:75-77 | Uninterrupted, deleting a process is a run of the protocol's statements. |
| `Operations.AbortRuns` | steady_queue/models/ready_execution.py:33-40 | A claiming transaction that is rolled back is two steps that leave everything as it was. |
| `Operations.RunKeepsSane` | steady_queue/models/executable.py:84-133 | Every run without expiry from idle tables to idle tables keeps every job in one place and every token accounted for. |
| `Quiescence.OperationReaches` | steady_queue/models/executable.py:84-133 | Every whole operation is such a run. |
| `Quiescence.OperationIsRun` | steady_queue/models/executable.py:84-133 | So states that whole operations reach are states that the protocol reaches. |
| `Quiescence.BlockedMeansFullyUsed` | steady_queue/models/concurrency_controls.py:23-51 | After any sequence of whole operations, a blocked job means a semaphore at zero and exactly `limit` jobs of its key ready or claimed. |
| `Quiescence.NeverQuiescentWhileBlocked` | steady_queue/models/blocked_execution.py:25-34 | When nothing of a key is ready or claimed, nothing of it is blocked. |
| `Quiescence.ArisesInOnePlace` | steady_queue/models/executable.py:84-133 | Whole operations keep every job in exactly one table, or finished. |
| `Patience.PatientRunsServeAll` | steady_queue/models/concurrency_controls.py:23-51 | In every interleaving in which no step leaves a job of the key blocked while a token is free (a late `block`, a refused promotion or dispatch): once nothing is under way, a blocked job means a value of zero and exactly `limit` jobs of the key ready or claimed. |
| `Patience.HastyStepStrands` | steady_queue/models/concurrency_controls.py:35-48 | Conversely, any one step that leaves a job blocked beside a free token, with nothing else under way, strands it: blocked, a token free, fewer than `limit` running. |
| `Witnesses.LooseGuardReached` | steady_queue/models/semaphore.py:85-89 | For every limit some run with expiry does reach limit + 1. |
| `Witnesses.DeletionOvershoots` | steady_queue/processes/dispatcher.py:87-93 | For every limit and every value v below it, some run with one deletion, at value v, has limit + (limit - v) jobs of the key running. |
| `Witnesses.LimitKeptExactly` | steady_queue/processes/dispatcher.py:87-93 | Over all runs, the documented limit is kept if and only if the semaphore of the key is deleted only with the whole limit in it. |
| `Witnesses.BoundIsReached` | steady_queue/models/semaphore.py:62-89 | The bound under deletions is met: for every limit and number of deletions, limit times one plus the deletions do run. |
| `Deadlines.SafeExactlyInTime` | steady_queue/models/semaphore.py:19-21 | With a clock and expiry dates: deleting an expired semaphore keeps its tokens conserved if and only if no token in use was taken as long ago as the duration. |
| `Deadlines.LimitKeptForDuration` | steady_queue/models/semaphore.py:97-98 | In every timed run whose maintenance never finds a token out for its whole duration, at most `limit` jobs of the key are ready or claimed, however often its semaphore is deleted; the jobs of a key may have different durations, the least one counts. |
| `Deadlines.OperationIsPunctual` | steady_queue/models/semaphore.py:96-98 | A run whose steps all read one time, as whole operations are, is a punctual piece of a timed run that starts no later, so the limit is kept over runs of operations too. |
| `StaleDeletions.StaleDeletionOvershoots` | steady_queue/processes/dispatcher.py:87-93 | For every limit: in some timed run no token of the key is ever out for its duration, and still limit + 1 jobs of it run, because a semaphore is used again between being read as expired and being deleted. |
| `Witnesses.StaleReadStrandsJob` | steady_queue/models/semaphore.py:46-51 | For every limit, a run without expiry in which a stale read leaves a job blocked with nothing under way, nothing of the key running and all its tokens free. |
| `Settlement.UnblockEffect` | steady_queue/models/concurrency_controls.py:23-25 | When the token can be returned, the head of its key's queue is promoted, if there is one. |
| `Settlement.FailEffect` | steady_queue/models/claimed_execution.py:29-33 | Failing one claimed job moves exactly it to the failed table and serves its key's queue once. |
| `Settlement.FailAllSettles` | steady_queue/models/claimed_execution.py:29-33 | In any order: exactly the given jobs fail, each key promotes as many jobs from the front of its queue as failed jobs held the key, or all it has, and every token is accounted for again. |
| `Departures.DeleteAllHandsBack` | steady_queue/models/process.py:62-77 | Deleting processes in any order makes all their claims ready, with the jobs' own attributes, clears the supervisor of those left, and changes nothing else. |
| `Departures.SupervisorLeaves` | steady_queue/models/process.py:62-77 | Deregistering an unsupervised supervisor removes exactly it and the processes it supervised, readies all their claims, moves no semaphore, and leaves every remaining claim with a registered owner. |
| `Departures.PruneSettles` | steady_queue/models/prunable.py:26-31 | A pruned worker is gone with all its claims failed, and for each key as many jobs leave the front of the blocked queue as it held, or as many as there are. |
| `Departures.FailAllClaimed` | steady_queue/models/executor.py:2-6 | The loop fails a worker's claims, each once, and does nothing for other kinds of process. |
| `Departures.FailAndUnblockOne` | steady_queue/models/claimed_execution.py:31-33 | One round of that loop. |
| `Departures.Prune` | steady_queue/models/prunable.py:27-31 | Failing all claims and deregistering is `PruneOne`. |
| `Departures.PruneDead` | steady_queue/models/prunable.py:14-23 | A process survives if and only if it is the excluded one or its last heartbeat is no older than the threshold; a claim survives if and only if its owner does, the others fail, no job fails besides, and the tables are still sane. |
| `Processes.DeleteAll` | steady_queue/models/process.py:72-77 | Exactly the given processes are gone and no job is. |
| `Processes.ReleaseAll` | steady_queue/models/claimed_execution.py:25-27 | The loop over the rows, in any order, is `ReleaseRows`. |
| `Processes.Delete` | steady_queue/models/process.py:75-77 | Giving back the claims of a worker and deleting the row is `DeleteProcess`. |
| `Processes.DeregisterAll` | steady_queue/models/process.py:72-73 | The loop deletes exactly the given supervisees, each once. |
| `Processes.Deregister` | steady_queue/models/process.py:62-73 | The processes it supervises go along exactly when the process is neither pruned nor supervised, as collected before its own row goes. |
| `Maintenance.KeysAreFirst` | steady_queue/models/blocked_execution.py:13-20 | The pass looks only at keys with an expired blocked row, the smallest first, and leaves one out only when it has its fill. |
| `Maintenance.ReleaseManyExact` | steady_queue/models/blocked_execution.py:22-23 | Over distinct keys, exactly those that can be served lose the head of their queue. |
| `Maintenance.PassIsExact` | steady_queue/processes/dispatcher.py:83-97 | A pass takes exactly one job, the first in order, from each of the first `n` keys with an expired blocked row whose semaphore is missing, expired or open, and none from any other key. |
| `Maintenance.PassWrites` | steady_queue/processes/dispatcher.py:83-97 | What a pass writes, to the date: the promoted job of a key takes a token, from its row or, where that was missing or expired, from a full one, and the row expires at `now` plus the duration of that job; other expired rows are gone, and all others are as before. |
| `Maintenance.PassOnlyPromotes` | steady_queue/processes/dispatcher.py:83-97 | Whatever leaves the blocked table becomes ready with its attributes, and nothing else moves. |
| `Maintenance.PassCounts` | steady_queue/models/blocked_execution.py:22-23 | The pass returns the number of jobs it promoted. |
| `Maintenance.ExpireSemaphores` | steady_queue/processes/dispatcher.py:87-93 | The semaphores whose date is later than now stay as they are, and the others are deleted. |
| `Maintenance.UnblockKeys` | steady_queue/models/blocked_execution.py:22-23 | The loop over the keys is `ReleaseMany`, and so is its count. |
| `Maintenance.Run` | steady_queue/processes/dispatcher.py:83-97 | The whole pass is `Pass`. |
| `ScheduledExecutions.BatchIsFirst` | steady_queue/models/scheduled_execution.py:12-19 | A batch holds only due rows, as many as fit, and leaves out only rows later by date, priority and job id. |
| `ScheduledExecutions.BatchByDate` | steady_queue/models/scheduled_execution.py:12-19 | In dates: nothing goes before its date, and what is due goes if the batch has room; the earlier date goes first, of equal dates the higher priority, of equal priorities the smaller job id. |
| `ScheduledExecutions.AllMoveOn` | steady_queue/models/dispatching.py:3-13 | A batch dispatched in any order moves exactly its jobs, each to exactly one of the ready and blocked tables, and keeps every token accounted for. |
| `ScheduledExecutions.DispatchNextBatch` | steady_queue/models/scheduled_execution.py:49-61 | Past the rows that others hold locked, the transaction dispatches and deletes exactly the batch and returns its size, or is rolled back. |
| `ScheduledExecutions.Poll` | steady_queue/processes/dispatcher.py:48-55 | On sane tables one poll never fails and settles its batch. |
| `ScheduledExecutions.Drain` | steady_queue/processes/dispatcher.py:48-55 | Polling until nothing is found terminates, dispatches every due job that nobody else holds locked, leaves the others untouched, and its counts add up to the number of those jobs. |
| `FailedExecutions.RetryOutcome` | steady_queue/models/failed_execution.py:37-41 | A single retry puts the job where its date says, as for a new one, and deletes exactly its failed row. |
| `FailedExecutions.BulkRetryKeepsPlaces` | steady_queue/models/executable.py:29-36 | After a bulk retry every job of it is in exactly one place if and only if, for each key, the batch has no more jobs than the key has free tokens; a job that does not fit ends up blocked and failed; each job has one new row, with its own attributes or as blocked, and nobody else is touched. |
| `FailedExecutions.OneIsRetryInBulk` | steady_queue/models/executable.py:29-36 | The protocol's step is a bulk retry of one job, whatever rows that job has. |
| `FailedExecutions.FittingRetryIsSane` | steady_queue/models/failed_execution.py:43-47 | A batch that fits becomes ready as a whole, loses exactly its failed rows, and keeps every token accounted for. |
| `FailedExecutions.BulkRetryStrands` | steady_queue/models/executable.py:35-36 | A concrete state, with every token accounted for, in which a bulk retry leaves a job both blocked and failed. |
| `StrandedRetries.SecondTokenTaken` | steady_queue/models/failed_execution.py:37-41 | A job that is ready and still failed, retried on its own, keeps its one ready row but takes another token if one is free; its tokens stay accounted for if and only if none is. |
| `StrandedRetries.RetriedTwice` | steady_queue/models/executable.py:29-36 | From sane tables, with a limit of two: a bulk retry that does not fit, the ends of the running jobs and a single retry leave one ready job and one token lost. |
| `FailedExecutions.Retry` | steady_queue/models/failed_execution.py:37-41 | The call on the database is `RetryFailed`; the failed row is gone and the job is where its date says. |
| `FailedExecutions.RetryAll` | steady_queue/models/failed_execution.py:43-47 | The call on the database is `Retried` in some order, its answer the number of failed rows deleted; or it is rolled back. |
| `QueueSelector.RawOrderFails` | steady_queue/queue_selector.py:90-113 | Ordering fails if and only if an exact name comes after a prefix that matches it and there is more than one name or none to order. |
| `QueueSelector.RawOrderCanFail` | steady_queue/queue_selector.py:104-107 | It does fail for the list ["a*", "ab"] when a queue "ac" has ready jobs. |
| `QueueSelector.RawOrderPermutes` | steady_queue/queue_selector.py:90-113 | Otherwise it returns a permutation of exact and prefixed names, without empty ones where it reorders, and names first appear in the order of their first matching raw entry. |
| `QueueSelector.EntryMeans` | steady_queue/queue_selector.py:47-78 | An entry without a star matches its own name only, one with a star at its end every name that begins with the rest, and one that goes on after its star nothing. |
| `QueueSelector.SelectedNames` | steady_queue/queue_selector.py:36-78 | Without `*`, the selected names are exactly the exact names and the ready table's names that a prefix matches, minus the paused ones and minus the empty one unless ordering keeps it. |
| `QueueSelector.SelectsMatching` | steady_queue/queue_selector.py:18-45 | A queue in the ready table is selected if and only if it is not paused, some raw entry matches it, and, for the empty name of promoted jobs, `*` is an entry or ordering has nothing to order; with `*` and nothing paused all rows are one relation, and otherwise there is none of all rows. |
| `QueueSelector.EmptyNameSelected` | steady_queue/queue_selector.py:18-45 | So the empty name is read with the entry `*` if and only if it is not paused, and never when every entry is a name or a prefix of one. |
| `QueueSelector.NameList.Remove` | steady_queue/queue_selector.py:106-106 | `list.remove`: the first occurrence goes, or there is an error. |
| `QueueSelector.NameList.DeleteInOrder` | steady_queue/queue_selector.py:104-113 | Removing the matches from the shared list one by one leaves exactly the other names. |
| `QueueSelector.InRawOrder` | steady_queue/queue_selector.py:90-102 | The loop over the shared list is `RawOrder`, error included. |
| `QueueOrder.NamesFollowRaw` | steady_queue/queue_selector.py:31-45 | Without `*`, the names a worker reads first appear in the order of their first matching entries, with or without prefixes and pauses. |
| `ReadyExecutions.ClaimTakesFirst` | steady_queue/models/ready_execution.py:19-47 | The greedy loop claims min(limit, eligible) jobs, the first ones by first selecting relation, priority and job id, and moves exactly them. |
| `ReadyExecutions.RepeatsDoNotMatter` | steady_queue/models/ready_execution.py:26-29 | Repeating a queue changes nothing about what is claimed. |
| `QueueOrder.ClaimedInListOrder` | steady_queue/models/ready_execution.py:19-47 | From the raw list to the claim: if the first entry matching one unlocked, unpaused job's queue comes before that of another, the other is claimed only together with the one and after it, whatever their priorities. |
| `QueueOrder.SameQueueByPriority` | steady_queue/models/ready_execution.py:42-47 | Whatever a worker reads, within a queue the higher priority is claimed first, and of equal ones the older job. |
| `QueueOrder.StarByPriority` | steady_queue/queue_selector.py:18-20 | With `*` in the list and nothing paused, as many unlocked jobs as the limit allows are claimed, and one with a higher priority, or of equal priority and older, comes first whatever the queues. |
| `QueueOrder.StarInListedOrder` | steady_queue/queue_selector.py:22-45 | With `*` and pauses, a job of a name listed earlier is claimed before one of a name listed later, whatever their priorities. |
| `ReadyExecutions.ClaimKeepsSane` | steady_queue/models/ready_execution.py:33-65 | A claim keeps every job in one place and every token accounted for. |
| `ReadyExecutions.SelectAndLockRows` | steady_queue/models/ready_execution.py:33-65 | One transaction is `SelectAndLock`, including its two failures. |
| `ReadyExecutions.ClaimJobs` | steady_queue/models/ready_execution.py:19-31 | The loop is `Claim`; an unregistered worker claims nothing. |
| `Ordering.Select` | steady_queue/models/ready_execution.py:42-47 | Running a query with an order and a limit gives the first ranks in order. |
| `Ordering.FirstIsFirst` | steady_queue/models/ready_execution.py:42-47 | What a limited query leaves out comes after everything it returns, and then the limit is reached. |
| `WorkerPool.PoolAccounting` | steady_queue/processes/pool.py:24-59 | In every interleaving, free threads and executions under way add up to the size, and the number of free threads is never negative. |
| `WorkerPool.NoLostWakeUp` | steady_queue/processes/interruptible.py:15-43 | From the real start, as long as no second pipe is made: in or committed to the long sleep while a thread is free, a byte is in the pipe or some finishing thread has not returned; no such state oversleeps. |
| `WorkerPool.SettledPipeIsSafe` | steady_queue/processes/interruptible.py:41-43 | Once the first pipe is stored with nobody about to make another, no wake-up is lost at any later time. |
| `WorkerPool.LongSleepCanBeWoken` | steady_queue/processes/pool.py:45-49 | While there is one pipe, a long sleep with a free thread can be ended by the threads alone if and only if a byte is there already or the holder of the mutex is not about to make a second pipe. |
| `WorkerPool.RaceIsLost` | steady_queue/processes/interruptible.py:41-43 | For every pool size some run makes two pipes and sleeps long with a free thread, no byte and nobody left to write one. |
| `WorkerPool.SafeExactlyWithOnePipe` | steady_queue/processes/interruptible.py:41-43 | So, for every size, the states with at most so many pipes made never oversleep if and only if that number is at most one. |
| `Workers.Worker.Post` | steady_queue/processes/pool.py:24-51 | Counting and submitting, as two steps of the interleaving. |
| `Workers.Worker.Poll` | steady_queue/processes/worker.py:34-52 | A poll posts each claimed execution once and sleeps long exactly if no thread is free after that; it is a run of the steps. |
| `Workers.Worker.Interrupt` | steady_queue/processes/interruptible.py:34-39 | Writes one byte to the stored pipe, or to a new one that it stores, and gives the mutex back. |
| `Workers.Worker.Finished` | steady_queue/processes/pool.py:45-49 | An uncontended finish frees the thread and leaves exactly one byte in the pipe, which it makes if there is none yet. |
| `Workers.Worker.InterruptibleSleep` | steady_queue/processes/interruptible.py:15-32 | The sleep makes the pipe if there is none and takes up to 1024 bytes out of it, all if there are no more. |
| `RecurringTasks.EnqueuedOnce` | steady_queue/models/recurring_task.py:99-114 | For any firings by any schedulers, with any other operations in any order: exactly the fired occurrences are recorded, each with a job of its own, the number of jobs is that of occurrences plus saved ones, and every token is accounted for. |
| `RecurringTasks.FirstWins` | steady_queue/models/recurring_execution.py:11-15 | The record names the job of the first scheduler that fired. |
| `RecurringTasks.EnqueueOccurrence` | steady_queue/models/recurring_task.py:99-114 | A second attempt is told so and leaves the whole database as it was; a first one enqueues and records. |
| `Supervisors.RunsAgain` | steady_queue/processes/supervisor.py:161-165 | Restarting a dead process under any free pid, the old one included, leaves the same multiset of configurations running. |
| `Supervisors.Supervisor.constructor` | steady_queue/processes/supervisor.py:61-63 | Starting runs exactly the configured processes, each under the pid that the system gave it, under its name. |
| `Supervisors.Supervisor.StartProcess` | steady_queue/processes/supervisor.py:83-97 | Both maps gain the new pid, with its name and configuration. |
| `Supervisors.Supervisor.HandleClaimedJobsBy` | steady_queue/processes/supervisor.py:167-176 | Exactly the claims whose owner is the supervisee of that name fail, each with the given error; every other claim stays as it is, and nothing else but promotions happens. |
| `Supervisors.Supervisor.ReplaceFork` | steady_queue/processes/supervisor.py:161-165 | The dead fork's pid is replaced in both maps by the new one, which may be the same, with its name and configuration; the same configurations run; exactly the claims of the supervisee of its name fail, with the status as error; an unknown pid changes nothing. |
| `Supervisors.Supervisor.ReapAndReplace` | steady_queue/processes/supervisor.py:130-140 | For any list of reaped pids, reused or unknown: the configured processes all run again, and exactly the claims of supervisees with the names of the reaped forks fail, each with the error of its first death. |
| `Supervisors.Supervisor.ReapTerminated` | steady_queue/processes/supervisor.py:142-159 | At shutdown exactly the reaped pids leave both maps, and exactly the claims of the forks that exited uncleanly fail. |
| `Supervisors.OthersKeepClaims` | steady_queue/processes/supervisor.py:167-176 | A claim whose owner is not supervised here, or has not the name of a dead fork, stays as it is. |
| `Supervisors.DeadForksClaimsFail` | steady_queue/processes/supervisor.py:167-176 | A claim of a supervisee with the name of a dead fork has failed with the error of the first death of that name. |
| `Arguments.RoundTrip` | steady_queue/arguments.py:49-105 | Every tree without unsupported values is stored, and read back as it was with tuples as lists, whatever keys its dictionaries have. |
| `Arguments.StoredExactly` | steady_queue/arguments.py:49-78 | Storing fails if and only if something unsupported is somewhere in the tree. |
| `Arguments.StoredAlike` | steady_queue/arguments.py:49-105 | Trees stored alike are read alike: only the difference between tuples and lists is lost. |
| `Arguments.ReadTwice` | steady_queue/arguments.py:80-105 | Reading is idempotent. |
| `Arguments.WireFormat` | steady_queue/arguments.py:16-78 | An argument is written as given JSON if and only if that is the documented form: scalars as they are, lists and tuples element by element, dictionaries and each kind of leaf under a tag of their own, the tags spelled out. |
| `Arguments.FirstTagDecides` | steady_queue/arguments.py:86-101 | A dictionary that is read is a dictionary or the kind of value of the first tag that it has, in the order in which they are tried; without a tag it is not read. |
| `Arguments.PairRoundTrip` | steady_queue/arguments.py:23-35 | Positional and keyword arguments come back, also when either is empty. |

## Left out

- BlockedExecutions.Release: calls `wait` only for jobs with a key; a blocked row always has one.
- Semaphores.Wait: limits below zero are not modelled.
- Lifecycle.StepKeepsInv: a bulk retry that blocks its job is a step of the protocol but breaks the invariant, so this and the results on it ask that bulk retries fit.
- Runs.TokenConservation: nothing is promised for runs with bulk retries that do not fit, in which it fails (`StrandedRetries.RetriedTwice`).
- Runs.ExactlyOnePlace: the same holds for it (`Lifecycle.StepKeepsInvExactly`).
- Deadlines.LimitKeptForDuration: every step reads the clock when it commits; expiry dates computed earlier than the statement that writes them are not modelled.
- Jobs: `Job.delete` and `preserve_finished_jobs = False` are not steps; on a limited job that is not ready the ready-row lookup raises there.
- FailedExecutions.Retry: does not model the reset of the job's execution counters, which no other code reads.
- Maintenance.PassIsExact: concerns a pass that nobody interrupts; interleaved, its statements are steps of the protocol.
- ReadyExecutions.ClaimTakesFirst: one worker's loop with the rows locked by others fixed; what others commit between two of its transactions is covered by `Runs.NoDoubleClaim`.
- WorkerPool.NoLostWakeUp: says nothing about runs with two pipes, in which it fails (`WorkerPool.RaceIsLost`); the pipe never fills up and is not closed; shutting down is not modelled.
- Workers.Worker.Finished: concerns a mutex that is free; waiting for it is in the interleaving of `WorkerPool`.
- RecurringTasks.EnqueuedOnce: schedules and timers are arbitrary firings; clearing old records is left out.
- Supervisors.Supervisor.ReapAndReplace: `os.fork`, signals and pid files are left out; `waitpid` is a list of exits, and each names the process forked instead, under any pid that no running fork has.
- Arguments.RoundTrip: the encodings of dates, times, durations and model instances are parameters with a given inverse; dictionary keys are strings.
- Time limits, heartbeats as a step, discarding and clearing jobs in batches, the admin pages and the management command: easy properties only.
- The ORM, the database router, configuration validation, connection pools and logging: plumbing.
- `prepare_all_for_execution`, `release_all_concurrency_locks` and `releasable`: nothing calls them.
- The `group` option of concurrency limits: the semaphore key does not use it.
