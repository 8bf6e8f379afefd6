/** A worker's main loop, its thread pool and its self-pipe, interleaved.

    The main loop reads how many threads are idle, claims at most as many jobs, posts
    them, and sleeps on a pipe: for the polling interval if a thread is free, otherwise for
    ten minutes. A thread that finishes counts itself free and then, if it sees a free
    thread, writes a byte to the pipe. The pipe is made on first use, by a cached property
    that takes no lock: a lookup, a creation and a store are three steps. */
module WorkerPool {
  import opened Tables

  type ThreadId = nat
  type PipeId = nat

  datatype MainPc =
    | Polling                             // about to read the number of idle threads
    | Claiming(limit: int)                // about to claim at most `limit` jobs
    | Posting(left: nat)                  // `left` claimed jobs to post
    | Submitting(left: nat)               // one job counted, not submitted yet; `left` more to post
    | LookingUp(long: bool)               // sleep decided, about to look up the pipe
    | Creating(long: bool)                // no pipe was found
    | Storing(long: bool, pipe: PipeId)   // pipe made, not stored yet
    | Sleeping(long: bool, pipe: PipeId)  // waiting for a byte or the timeout
    | Draining                            // a byte was seen; the pipe is looked up again and read

  datatype ThreadPc =
    | Running
    | Counted                   // counted free, about to take the mutex
    | Checking                  // has the mutex, about to see whether a thread is free
    | Finding                   // saw one, about to look up the pipe
    | Making                    // no pipe was found
    | Keeping(pipe: PipeId)     // pipe made, not stored yet
    | Writing(pipe: PipeId)

  datatype State = State(
    size: nat,
    available: int,
    main: MainPc,
    threads: map<ThreadId, ThreadPc>,
    mutex: Option<ThreadId>,
    cache: Option<PipeId>,
    pipes: nat,                   // pipes made so far are numbered below this
    bytes: map<PipeId, nat>)

  function Bytes(s: State, pipe: PipeId): nat {
    if pipe in s.bytes then s.bytes[pipe] else 0
  }

  /** A worker that has just booted, with or without a pipe. */
  function Booted(size: nat, pipe: bool): State {
    State(size, size, Polling, map[], None, if pipe then Some(0) else None, if pipe then 1 else 0, map[])
  }

  const CHUNK := 1024

  datatype Step =
    | ReadIdle
    | Claim(count: nat)
    | Count
    | Submit(t: ThreadId)
    | Decide
    | LookUp
    | Create
    | Store
    | Timeout
    | SeeByte
    | Drain
    | Finish(t: ThreadId)
    | Lock(t: ThreadId)
    | Check(t: ThreadId)
    | Find(t: ThreadId)
    | Make(t: ThreadId)
    | Keep(t: ThreadId)
    | Write(t: ThreadId)

  predicate At(s: State, t: ThreadId, pc: ThreadPc) {
    t in s.threads && s.threads[t] == pc
  }

  predicate Enabled(s: State, step: Step) {
    match step
    case ReadIdle => s.main.Polling?
    case Claim(count) => s.main.Claiming? && count <= (if s.main.limit < 0 then 0 else s.main.limit)
    case Count => s.main.Posting? && s.main.left > 0
    case Submit(t) => s.main.Submitting? && t !in s.threads
    case Decide => s.main == Posting(0)
    case LookUp => s.main.LookingUp?
    case Create => s.main.Creating?
    case Store => s.main.Storing?
    case Timeout => s.main.Sleeping?
    case SeeByte => s.main.Sleeping? && Bytes(s, s.main.pipe) > 0
    case Drain => s.main.Draining? && s.cache.Some? && Bytes(s, s.cache.value) > 0
    case Finish(t) => At(s, t, Running)
    case Lock(t) => At(s, t, Counted) && s.mutex.None?
    case Check(t) => At(s, t, Checking)
    case Find(t) => At(s, t, Finding)
    case Make(t) => At(s, t, Making)
    case Keep(t) => t in s.threads && s.threads[t].Keeping?
    case Write(t) => t in s.threads && s.threads[t].Writing?
  }

  /** The thread is done: its function returns and the mutex is free again. */
  function Return(s: State, t: ThreadId): State {
    s.(threads := s.threads - {t}, mutex := None)
  }

  function Apply(s: State, step: Step): State
    requires Enabled(s, step)
  {
    match step
    case ReadIdle => s.(main := Claiming(s.available))
    case Claim(count) => s.(main := Posting(count))
    case Count => s.(available := s.available - 1, main := Submitting(s.main.left - 1))
    case Submit(t) => s.(threads := s.threads[t := Running], main := Posting(s.main.left))
    case Decide => s.(main := LookingUp(s.available <= 0))
    case LookUp => s.(main := if s.cache.Some? then Sleeping(s.main.long, s.cache.value) else Creating(s.main.long))
    case Create => s.(main := Storing(s.main.long, s.pipes), pipes := s.pipes + 1)
    case Store => s.(main := Sleeping(s.main.long, s.main.pipe), cache := Some(s.main.pipe))
    case Timeout => s.(main := Polling)
    case SeeByte => s.(main := Draining)
    case Drain =>
      var pipe := s.cache.value;
      s.(main := Polling, bytes := s.bytes[pipe := if Bytes(s, pipe) <= CHUNK then 0 else Bytes(s, pipe) - CHUNK])
    case Finish(t) => s.(available := s.available + 1, threads := s.threads[t := Counted])
    case Lock(t) => s.(threads := s.threads[t := Checking], mutex := Some(t))
    case Check(t) => if s.available > 0 then s.(threads := s.threads[t := Finding]) else Return(s, t)
    case Find(t) => s.(threads := s.threads[t := if s.cache.Some? then Writing(s.cache.value) else Making])
    case Make(t) => s.(threads := s.threads[t := Keeping(s.pipes)], pipes := s.pipes + 1)
    case Keep(t) => s.(threads := s.threads[t := Writing(s.threads[t].pipe)], cache := Some(s.threads[t].pipe))
    case Write(t) =>
      var pipe := s.threads[t].pipe;
      Return(s.(bytes := s.bytes[pipe := Bytes(s, pipe) + 1]), t)
  }

  ghost predicate IsRun(s: State, steps: seq<Step>, s': State)
    decreases |steps|
  {
    if steps == [] then s' == s
    else Enabled(s, steps[0]) && IsRun(Apply(s, steps[0]), steps[1..], s')
  }

  ghost predicate Reaches(s: State, s': State) {
    exists steps :: IsRun(s, steps, s')
  }

  // ----- Accounting -----

  /** The executions that are posted and not counted free yet. */
  ghost function Unfinished(threads: map<ThreadId, ThreadPc>): set<ThreadId> {
    set t | t in threads && threads[t].Running?
  }

  /** Every thread is free, running, or counted for a job about to be submitted, and the main
      loop never has more to post than there are free threads. */
  ghost predicate Accounted(s: State) {
    && s.available + |Unfinished(s.threads)| + (if s.main.Submitting? then 1 else 0) == s.size
    && match s.main
       case Claiming(limit) => limit <= s.available
       case Posting(left) => left <= s.available
       case Submitting(left) => left <= s.available
       case _ => 0 <= s.available
  }

  lemma SameUnfinished(s: State, step: Step)
    requires Enabled(s, step) && !step.Submit? && !step.Finish?
    ensures Unfinished(Apply(s, step).threads) == Unfinished(s.threads)
  {
  }

  lemma OneMoreUnfinished(threads: map<ThreadId, ThreadPc>, t: ThreadId)
    requires t !in threads
    ensures |Unfinished(threads[t := Running])| == |Unfinished(threads)| + 1
  {
    assert Unfinished(threads[t := Running]) == Unfinished(threads) + {t};
  }

  lemma OneLessUnfinished(threads: map<ThreadId, ThreadPc>, t: ThreadId)
    requires t in threads && threads[t].Running?
    ensures |Unfinished(threads[t := Counted])| == |Unfinished(threads)| - 1
  {
    assert Unfinished(threads) == Unfinished(threads[t := Counted]) + {t};
  }

  lemma StepAccounts(s: State, step: Step)
    requires Accounted(s) && 0 <= s.available && Enabled(s, step)
    ensures Accounted(Apply(s, step)) && 0 <= Apply(s, step).available
  {
    if step.Submit? {
      OneMoreUnfinished(s.threads, step.t);
    } else if step.Finish? {
      OneLessUnfinished(s.threads, step.t);
    } else {
      SameUnfinished(s, step);
    }
  }

  lemma {:induction false} RunAccounts(s: State, steps: seq<Step>, s': State)
    requires Accounted(s) && 0 <= s.available && IsRun(s, steps, s')
    ensures Accounted(s') && 0 <= s'.available
    decreases |steps|
  {
    if steps != [] {
      StepAccounts(s, steps[0]);
      RunAccounts(Apply(s, steps[0]), steps[1..], s');
    }
  }

  lemma {:induction false} RunKeepsSize(s: State, steps: seq<Step>, s': State)
    requires IsRun(s, steps, s')
    ensures s'.size == s.size
    decreases |steps|
  {
    if steps != [] {
      RunKeepsSize(Apply(s, steps[0]), steps[1..], s');
    }
  }

  /** In every run, the free threads, the executions under way and the one being submitted
      add up to the pool's size, and the number of free threads is never negative: at most
      `size` executions are ever in the pool. */
  lemma PoolAccounting(size: nat, pipe: bool, s: State)
    requires Reaches(Booted(size, pipe), s)
    ensures 0 <= s.available && s.available + |Unfinished(s.threads)| + (if s.main.Submitting? then 1 else 0) == size
    ensures |Unfinished(s.threads)| <= size
  {
    var start := Booted(size, pipe);
    var steps :| IsRun(start, steps, s);
    assert Unfinished(start.threads) == {};
    RunAccounts(start, steps, s);
    RunKeepsSize(start, steps, s);
  }

  // ----- Wake-ups -----

  /** The main loop is in its long sleep, or has decided on it. */
  predicate Committed(main: MainPc) {
    (main.LookingUp? || main.Creating? || main.Storing? || main.Sleeping?) && main.long
  }

  /** The pipe that the main loop sleeps on, or will. */
  function SleepsOn(s: State): Option<PipeId> {
    match s.main
    case Sleeping(_, pipe) => Some(pipe)
    case Storing(_, pipe) => Some(pipe)
    case LookingUp(_) => s.cache
    case _ => None
  }

  /** A thread that has counted itself free and has not returned yet. */
  ghost predicate Pending(s: State) {
    exists t :: t in s.threads && !s.threads[t].Running?
  }

  /** The main loop sleeps long although a thread is free, and nothing will wake it. */
  ghost predicate Oversleeps(s: State) {
    && Committed(s.main) && s.available > 0 && !Pending(s)
    && SleepsOn(s).Some? && Bytes(s, SleepsOn(s).value) == 0
  }

  /** All pipe users share pipe `p`. */
  ghost predicate Shares(s: State, p: PipeId) {
    && s.cache == Some(p)
    && !s.main.Creating? && !s.main.Storing? && (s.main.Sleeping? ==> s.main.pipe == p)
    && forall t :: t in s.threads ==>
         !s.threads[t].Making? && !s.threads[t].Keeping? && (s.threads[t].Writing? ==> s.threads[t].pipe == p)
  }

  /** A free thread during the long sleep has left a byte, or someone who will. */
  ghost predicate Wakes(s: State, p: PipeId) {
    Committed(s.main) && s.available > 0 ==> Bytes(s, p) > 0 || Pending(s)
  }

  lemma StepShares(s: State, step: Step, p: PipeId)
    requires Shares(s, p) && Enabled(s, step)
    ensures Shares(Apply(s, step), p)
  {
  }

  lemma StepWakes(s: State, step: Step, p: PipeId)
    requires Shares(s, p) && Wakes(s, p) && Enabled(s, step)
    ensures Wakes(Apply(s, step), p)
  {
    var s' := Apply(s, step);
    if Committed(s'.main) && s'.available > 0 && (step.Finish? || step.Lock? || step.Check? || step.Find?) {
      assert step.t in s'.threads && !s'.threads[step.t].Running?;
    }
  }

  lemma {:induction false} RunWakes(s: State, steps: seq<Step>, s': State, p: PipeId)
    requires Shares(s, p) && Wakes(s, p) && IsRun(s, steps, s')
    ensures Shares(s', p) && Wakes(s', p)
    decreases |steps|
  {
    if steps != [] {
      StepShares(s, steps[0], p);
      StepWakes(s, steps[0], p);
      RunWakes(Apply(s, steps[0]), steps[1..], s', p);
    }
  }

  /** The mutex is held by exactly the thread between its check and its return. */
  ghost predicate Held(s: State) {
    && (s.mutex.Some? ==>
          s.mutex.value in s.threads && !s.threads[s.mutex.value].Running? && !s.threads[s.mutex.value].Counted?)
    && forall t :: t in s.threads && !s.threads[t].Running? && !s.threads[t].Counted? ==> s.mutex == Some(t)
  }

  lemma StepHeld(s: State, step: Step)
    requires Held(s) && Enabled(s, step)
    ensures Held(Apply(s, step))
  {
  }

  /** Every user of a pipe has pipe 0, and nobody has one before it is made. Whoever has made
      it has not stored it yet, or it is stored. */
  ghost predicate OnePipe(s: State) {
    && s.pipes <= 1 && (s.cache.Some? ==> s.cache.value == 0 && s.pipes == 1)
    && (s.main.Storing? ==> s.main.pipe == 0 && s.pipes == 1 && s.cache.None?)
    && (s.main.Sleeping? ==> s.main.pipe == 0 && s.cache.Some?)
    && forall t :: t in s.threads ==> UsesPipeZero(s, s.threads[t])
  }

  ghost predicate UsesPipeZero(s: State, pc: ThreadPc) {
    && (pc.Keeping? ==> pc.pipe == 0 && s.pipes == 1 && s.cache.None? && !s.main.Storing?)
    && (pc.Writing? ==> pc.pipe == 0 && s.cache.Some?)
  }

  lemma StepOnePipe(s: State, step: Step)
    requires OnePipe(s) && Held(s) && Enabled(s, step) && Apply(s, step).pipes <= 1
    ensures OnePipe(Apply(s, step))
  {
    hide Held;
    assert step.Keep? ==> UsesPipeZero(s, s.threads[step.t]);
    var s' := Apply(s, step);
    forall t | t in s'.threads ensures UsesPipeZero(s', s'.threads[t]) {
      assert t in s.threads ==> UsesPipeZero(s, s.threads[t]);
      if step.Keep? {
        OneKeeper(s, step.t, t);
      }
    }
  }

  /** The mutex keeps threads from holding a pipe they made at the same time. */
  lemma OneKeeper(s: State, t: ThreadId, u: ThreadId)
    requires Held(s) && t in s.threads && s.threads[t].Keeping?
    ensures u in s.threads && s.threads[u].Keeping? ==> u == t
  {
  }

  lemma StepWakesAtZero(s: State, step: Step)
    requires OnePipe(s) && Wakes(s, 0) && Enabled(s, step)
    ensures Wakes(Apply(s, step), 0)
  {
    var s' := Apply(s, step);
    if Committed(s'.main) && s'.available > 0 {
      if step.Finish? || step.Lock? || step.Check? || step.Find? || step.Make? || step.Keep? {
        assert step.t in s'.threads && !s'.threads[step.t].Running?;
      } else if step.Write? {
        assert UsesPipeZero(s, s.threads[step.t]);
      }
    }
  }

  lemma {:induction false} PipesOnlyGrow(s: State, steps: seq<Step>, s': State)
    requires IsRun(s, steps, s')
    ensures s.pipes <= s'.pipes
    decreases |steps|
  {
    if steps != [] {
      PipesOnlyGrow(Apply(s, steps[0]), steps[1..], s');
    }
  }

  lemma {:induction false} RunOnePipe(s: State, steps: seq<Step>, s': State)
    requires OnePipe(s) && Held(s) && Wakes(s, 0) && IsRun(s, steps, s') && s'.pipes <= 1
    ensures OnePipe(s') && Held(s') && Wakes(s', 0)
    decreases |steps|
  {
    hide OnePipe, Held, Wakes;
    if steps != [] {
      var mid := Apply(s, steps[0]);
      PipesOnlyGrow(mid, steps[1..], s');
      StepOnePipe(s, steps[0]);
      StepHeld(s, steps[0]);
      StepWakesAtZero(s, steps[0]);
      RunOnePipe(mid, steps[1..], s');
    }
  }

  lemma ReachesOnePipe(size: nat, s: State)
    requires Reaches(Booted(size, false), s) && s.pipes <= 1
    ensures OnePipe(s) && Held(s) && Wakes(s, 0)
  {
    var start := Booted(size, false);
    var steps :| IsRun(start, steps, s);
    RunOnePipe(start, steps, s);
  }

  /** As long as the worker has made no second pipe, no wake-up is lost: whenever the main
      loop is in, or committed to, its long sleep while a thread is free, a byte is in the
      one pipe, or some finishing thread has not returned yet. */
  lemma NoLostWakeUp(size: nat, s: State)
    requires Reaches(Booted(size, false), s) && s.pipes <= 1
    ensures Committed(s.main) && s.available > 0 ==> Bytes(s, 0) > 0 || Pending(s)
    ensures SleepsOn(s).Some? ==> SleepsOn(s).value == 0
    ensures !Oversleeps(s)
  {
    ReachesOnePipe(size, s);
  }

  /** And if nobody is about to make a second one when the first is stored, none is lost at
      any later time either. */
  lemma SettledPipeIsSafe(size: nat, s: State, s': State)
    requires Reaches(Booted(size, false), s) && s.pipes <= 1 && s.cache.Some?
    requires !s.main.Creating? && forall t :: t in s.threads ==> !s.threads[t].Making?
    requires Reaches(s, s')
    ensures Committed(s'.main) && s'.available > 0 ==> Bytes(s', 0) > 0 || Pending(s')
    ensures !Oversleeps(s')
  {
    ReachesOnePipe(size, s);
    forall t | t in s.threads ensures !s.threads[t].Keeping? && (s.threads[t].Writing? ==> s.threads[t].pipe == 0) {
      assert UsesPipeZero(s, s.threads[t]);
    }
    var steps :| IsRun(s, steps, s');
    RunWakes(s, steps, s', 0);
  }

  /** A worker whose pipe existed when it starts would lose no wake-up at all. */
  lemma PipeFromStartIsSafe(size: nat, s: State)
    requires Reaches(Booted(size, true), s)
    ensures !Oversleeps(s)
  {
    var start := Booted(size, true);
    var steps :| IsRun(start, steps, s);
    RunWakes(start, steps, s, 0);
  }

  // ----- Waking up -----

  predicate ByThread(step: Step) {
    step.Finish? || step.Lock? || step.Check? || step.Find? || step.Make? || step.Keep? || step.Write?
  }

  ghost predicate IsThreadRun(s: State, steps: seq<Step>, s': State) {
    IsRun(s, steps, s') && forall k :: 0 <= k < |steps| ==> ByThread(steps[k])
  }

  /** Threads alone can put a byte into the pipe. */
  ghost predicate CanBeWoken(s: State, p: PipeId) {
    exists steps, s' :: IsThreadRun(s, steps, s') && Bytes(s', p) > 0
  }

  lemma WokenLater(s: State, step: Step, p: PipeId)
    requires Enabled(s, step) && ByThread(step) && CanBeWoken(Apply(s, step), p)
    ensures CanBeWoken(s, p)
  {
    var steps, s' :| IsThreadRun(Apply(s, step), steps, s') && Bytes(s', p) > 0;
    assert ([step] + steps)[1..] == steps;
    assert IsThreadRun(s, [step] + steps, s');
  }

  lemma WokenNow(s: State, p: PipeId)
    requires Bytes(s, p) > 0
    ensures CanBeWoken(s, p)
  {
    assert IsThreadRun(s, [], s);
  }

  /** The holder of the mutex writes to the stored pipe, unless it is making its own. */
  lemma HolderWakes(s: State, t: ThreadId, p: PipeId)
    requires s.cache == Some(p) && s.available > 0 && t in s.threads
    requires s.threads[t] in {Checking, Finding, Writing(p)}
    ensures CanBeWoken(s, p)
    decreases if s.threads[t].Checking? then 2 else if s.threads[t].Finding? then 1 else 0
  {
    match s.threads[t]
    case Checking =>
      HolderWakes(Apply(s, Check(t)), t, p);
      WokenLater(s, Check(t), p);
    case Finding =>
      HolderWakes(Apply(s, Find(t)), t, p);
      WokenLater(s, Find(t), p);
    case Writing(_) =>
      WokenNow(Apply(s, Write(t)), p);
      WokenLater(s, Write(t), p);
    case _ =>
  }

  /** The thread holding the mutex saw no pipe and is about to make one. */
  ghost predicate HolderMakes(s: State) {
    s.mutex.Some? && s.mutex.value in s.threads && s.threads[s.mutex.value].Making?
  }

  /** All bytes go elsewhere: the mutex holder is making another pipe or has one to store, or
      another one is stored and written to. */
  ghost predicate Diverted(s: State, p: PipeId) {
    && Held(s) && Bytes(s, p) == 0 && p < s.pipes
    && (HolderMakes(s) || (s.mutex.Some? && s.threads[s.mutex.value].Keeping? && s.threads[s.mutex.value].pipe != p)
        || WritesElsewhere(s, p))
  }

  ghost predicate WritesElsewhere(s: State, p: PipeId) {
    && s.cache.Some? && s.cache.value != p
    && forall t :: t in s.threads ==>
         !s.threads[t].Making? && !s.threads[t].Keeping? && (s.threads[t].Writing? ==> s.threads[t].pipe != p)
  }

  lemma StepDiverted(s: State, step: Step, p: PipeId)
    requires Diverted(s, p) && Enabled(s, step) && ByThread(step)
    ensures Diverted(Apply(s, step), p)
  {
    StepHeld(s, step);
  }

  lemma {:induction false} RunDiverted(s: State, steps: seq<Step>, s': State, p: PipeId)
    requires Diverted(s, p) && IsThreadRun(s, steps, s')
    ensures Diverted(s', p)
    decreases |steps|
  {
    hide Diverted;
    if steps != [] {
      StepDiverted(s, steps[0], p);
      assert forall k :: 0 <= k < |steps[1..]| ==> steps[1..][k] == steps[k + 1];
      RunDiverted(Apply(s, steps[0]), steps[1..], s', p);
    }
  }

  /** While there is one pipe, a main loop that sleeps long although a thread is free can be
      woken by the threads exactly if a byte is there already or the holder of the mutex is
      not about to make a second pipe. */
  lemma LongSleepCanBeWoken(size: nat, s: State)
    requires Reaches(Booted(size, false), s) && s.pipes <= 1
    requires s.main.Sleeping? && s.main.long && s.available > 0
    ensures CanBeWoken(s, s.main.pipe) <==> Bytes(s, s.main.pipe) > 0 || !HolderMakes(s)
  {
    ReachesOnePipe(size, s);
    if Bytes(s, 0) > 0 {
      WokenNow(s, 0);
    } else if HolderMakes(s) {
      if CanBeWoken(s, 0) {
        var steps, s' :| IsThreadRun(s, steps, s') && Bytes(s', 0) > 0;
        RunDiverted(s, steps, s', 0);
      }
    } else if s.mutex.Some? {
      assert UsesPipeZero(s, s.threads[s.mutex.value]);
      HolderWakes(s, s.mutex.value, 0);
    } else {
      var t :| t in s.threads && !s.threads[t].Running?;
      HolderWakes(Apply(s, Lock(t)), t, 0);
      WokenLater(s, Lock(t), 0);
    }
  }

  // ----- When there is no pipe yet -----

  lemma {:induction false} RunsAppend(a: State, x: seq<Step>, b: State, y: seq<Step>, c: State)
    requires IsRun(a, x, b) && IsRun(b, y, c)
    ensures IsRun(a, x + y, c)
    decreases |x|
  {
    if x == [] {
      assert x + y == y;
    } else {
      RunsAppend(Apply(a, x[0]), x[1..], b, y, c);
      assert (x + y)[1..] == x[1..] + y;
    }
  }

  lemma Then(a: State, b: State, step: Step)
    requires Reaches(a, b) && Enabled(b, step)
    ensures Reaches(a, Apply(b, step))
  {
    var x :| IsRun(a, x, b);
    var c := Apply(b, step);
    assert IsRun(c, [], c);
    assert [step][1..] == [];
    assert IsRun(b, [step], c);
    RunsAppend(a, x, b, [step], c);
  }

  function AllRunning(n: nat): (threads: map<ThreadId, ThreadPc>)
    ensures forall t: nat :: t in threads <==> t < n
    ensures forall t :: t in threads ==> threads[t] == Running
  {
    if n == 0 then map[] else AllRunning(n - 1)[n - 1 := Running]
  }

  /** `n` threads busy, the main loop posting the others' jobs. */
  ghost function Busy(size: nat, n: nat): State
    requires n <= size
  {
    Booted(size, false).(available := size - n, main := Posting(size - n), threads := AllRunning(n))
  }

  lemma BusyMore(size: nat, n: nat, start: State)
    requires n < size && Reaches(start, Busy(size, n))
    ensures Reaches(start, Busy(size, n + 1))
  {
    var s := Busy(size, n);
    Then(start, s, Count);
    var s1 := Apply(s, Count);
    Then(start, s1, Submit(n));
    assert Apply(s1, Submit(n)).threads == Busy(size, n + 1).threads;
    assert Apply(s1, Submit(n)) == Busy(size, n + 1);
  }

  lemma {:induction false} GetsBusy(size: nat, n: nat)
    requires n <= size
    ensures Reaches(Booted(size, false), Busy(size, n))
  {
    var start := Booted(size, false);
    if n == 0 {
      assert IsRun(start, [], start);
      Then(start, start, ReadIdle);
      var s1 := Apply(start, ReadIdle);
      Then(start, s1, Claim(size));
      assert Busy(size, 0).threads == map[];
      assert Apply(s1, Claim(size)) == Busy(size, 0);
    } else {
      GetsBusy(size, n - 1);
      BusyMore(size, n - 1, start);
    }
  }

  /** The main loop has decided on the long sleep, and thread 0 has finished. */
  ghost function Raced(size: nat): State
    requires 1 <= size
  {
    var s := Busy(size, size);
    s.(available := 1, main := Creating(true), threads := s.threads[0 := Making], mutex := Some(0))
  }

  lemma BothLookUp(size: nat)
    requires 1 <= size
    ensures Reaches(Booted(size, false), Raced(size))
  {
    var start, s := Booted(size, false), Busy(size, size);
    GetsBusy(size, size);
    Then(start, s, Decide);
    var s1 := s.(main := LookingUp(true));
    Then(start, s1, LookUp);
    var s2 := s.(main := Creating(true));
    Then(start, s2, Finish(0));
    var s3 := s2.(available := 1, threads := s2.threads[0 := Counted]);
    Then(start, s3, Lock(0));
    var s4 := s3.(threads := s3.threads[0 := Checking], mutex := Some(0));
    Then(start, s4, Check(0));
    var s5 := s4.(threads := s4.threads[0 := Finding]);
    Then(start, s5, Find(0));
    assert Apply(s5, Find(0)) == Raced(size);
  }

  /** For every size, two pipes can be made and a wake-up lost: the thread's pipe is stored
      first, the main loop's replaces it, and the thread writes to its own. */
  lemma RaceIsLost(size: nat)
    requires 1 <= size
    ensures exists s :: Reaches(Booted(size, false), s) && Oversleeps(s) && s.main.Sleeping? && s.pipes == 2
  {
    var start, s := Booted(size, false), Raced(size);
    BothLookUp(size);
    Then(start, s, Create);
    var s1 := s.(main := Storing(true, 0), pipes := 1);
    Then(start, s1, Make(0));
    var s2 := s1.(threads := s1.threads[0 := Keeping(1)], pipes := 2);
    Then(start, s2, Keep(0));
    var s3 := s2.(threads := s2.threads[0 := Writing(1)], cache := Some(1));
    Then(start, s3, Store);
    var s4 := s3.(main := Sleeping(true, 0), cache := Some(0));
    Then(start, s4, Write(0));
    var s5 := Apply(s4, Write(0));
    assert s5.main == Sleeping(true, 0) && s5.available == 1 && Bytes(s5, 0) == 0;
    assert !Pending(s5);
    assert Oversleeps(s5);
  }

  /** So a worker is safe from oversleeping exactly as long as it makes no second pipe. */
  lemma SafeExactlyWithOnePipe(size: nat, made: nat)
    requires 1 <= size
    ensures made <= 1 <==> forall s :: Reaches(Booted(size, false), s) && s.pipes <= made ==> !Oversleeps(s)
  {
    if made <= 1 {
      forall s | Reaches(Booted(size, false), s) && s.pipes <= made ensures !Oversleeps(s) {
        NoLostWakeUp(size, s);
      }
    } else {
      RaceIsLost(size);
    }
  }

  /** Making the pipe in the constructor would be safe, and making it on first use is not. */
  lemma SafeExactlyWithPipe(size: nat, pipe: bool)
    requires 1 <= size
    ensures pipe <==> forall s :: Reaches(Booted(size, pipe), s) ==> !Oversleeps(s)
  {
    if pipe {
      forall s | Reaches(Booted(size, pipe), s) ensures !Oversleeps(s) {
        PipeFromStartIsSafe(size, s);
      }
    } else {
      RaceIsLost(size);
    }
  }
}
