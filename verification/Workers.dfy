/** The worker's own code: polling, posting to the pool, finishing an execution and sleeping
    on the pipe. A call that nobody interrupts is a run of the steps of `WorkerPool`. */
module Workers {
  import opened Tables
  import opened WorkerPool

  lemma Itself(s: State)
    ensures Reaches(s, s)
  {
    assert IsRun(s, [], s);
  }

  class Worker {
    var state: State

    constructor (size: nat)
      ensures state == Booted(size, false)
    {
      state := Booted(size, false);
    }

    /** Takes a step of the calling thread. */
    method Take(step: Step, ghost start: State)
      requires Enabled(state, step) && Reaches(start, state)
      modifies this
      ensures state == Apply(old(state), step) && Reaches(start, state)
    {
      Then(start, state, step);
      state := Apply(state, step);
    }

    /** `Pool.post` */
    method Post(t: ThreadId, ghost start: State)
      requires state.main.Posting? && state.main.left > 0 && t !in state.threads && Reaches(start, state)
      modifies this
      ensures Reaches(start, state)
      ensures state == old(state).(available := old(state).available - 1, main := Posting(old(state).main.left - 1),
                                   threads := old(state).threads[t := Running])
    {
      Take(Count, start);
      Take(Submit(t), start);
    }

    /** `Worker.poll`, when the claim returns `|ids|` executions, which new threads will
        run. The answer says whether to sleep long: exactly if no thread is free any more. */
    method Poll(ids: seq<ThreadId>) returns (long: bool)
      requires state.main.Polling? && |ids| <= (if state.available < 0 then 0 else state.available)
      requires Distinct(ids) && forall t :: t in ids ==> t !in state.threads
      modifies this
      ensures Reaches(old(state), state)
      ensures state.available == old(state).available - |ids| && long == (state.available <= 0)
      ensures state == old(state).(available := state.available, main := LookingUp(long), threads := state.threads)
      ensures forall t :: t in state.threads <==> t in old(state).threads || t in ids
      ensures forall t :: t in state.threads ==> state.threads[t] == if t in ids then Running else old(state).threads[t]
    {
      ghost var start := state;
      Itself(start);
      Take(ReadIdle, start);
      Take(Claim(|ids|), start);
      for i := 0 to |ids|
        invariant state == start.(available := start.available - i, main := Posting(|ids| - i),
                  threads := state.threads)
        invariant forall t :: t in state.threads <==> t in start.threads || t in ids[..i]
        invariant forall t :: t in state.threads ==>
                    state.threads[t] == if t in ids[..i] then Running else start.threads[t]
        invariant Reaches(start, state)
      {
        assert ids[i] !in ids[..i] && ids[..i + 1] == ids[..i] + [ids[i]];
        Post(ids[i], start);
      }
      assert ids[..|ids|] == ids;
      Take(Decide, start);
      long := state.main.long;
    }

    /** `interrupt`: a byte into the pipe, which is made if there is none yet. */
    method Interrupt(t: ThreadId, ghost start: State)
      requires At(state, t, Finding) && Reaches(start, state)
      modifies this
      ensures Reaches(start, state)
      ensures var was := old(state);
              var pipe := if was.cache.Some? then was.cache.value else was.pipes;
              state == was.(threads := was.threads - {t}, mutex := None, cache := Some(pipe),
                            pipes := if was.cache.Some? then was.pipes else was.pipes + 1,
                            bytes := was.bytes[pipe := Bytes(was, pipe) + 1])
    {
      ghost var was := state;
      Take(Find(t), start);
      if state.threads[t].Making? {
        Take(Make(t), start);
        Take(Keep(t), start);
      }
      assert state.threads - {t} == was.threads - {t};
      Take(Write(t), start);
    }

    /** The end of an execution: the thread is counted free and, having got the mutex, writes
        a byte to the pipe, which it makes if there is none yet. */
    method Finished(t: ThreadId)
      requires At(state, t, Running) && state.mutex.None? && 0 <= state.available
      modifies this
      ensures Reaches(old(state), state)
      ensures var was := old(state);
              var pipe := if was.cache.Some? then was.cache.value else was.pipes;
              state == was.(available := was.available + 1, threads := was.threads - {t}, cache := Some(pipe),
                            pipes := if was.cache.Some? then was.pipes else was.pipes + 1,
                            bytes := was.bytes[pipe := Bytes(was, pipe) + 1])
    {
      ghost var start := state;
      Itself(start);
      Take(Finish(t), start);
      Take(Lock(t), start);
      Take(Check(t), start);
      ghost var finding := state;
      Interrupt(t, start);
      assert finding.threads - {t} == start.threads - {t};
    }

    /** `interruptible_sleep`: with a byte in the pipe, up to 1024 of them are read; without
        one, the timeout ends the sleep. */
    method InterruptibleSleep()
      requires state.main.LookingUp?
      modifies this
      ensures Reaches(old(state), state)
      ensures state.main == Polling && state.cache.Some? && (old(state).cache.Some? ==> state.cache == old(state).cache)
      ensures var pipe := state.cache.value; var n := Bytes(old(state), pipe);
              Bytes(state, pipe) == if n <= 1024 then 0 else n - 1024
      ensures state.available == old(state).available && state.threads == old(state).threads
    {
      ghost var start := state;
      Itself(start);
      Take(LookUp, start);
      if state.main.Creating? {
        Take(Create, start);
        Take(Store, start);
      }
      if Bytes(state, state.main.pipe) > 0 {
        Take(SeeByte, start);
        Take(Drain, start);
      } else {
        Take(Timeout, start);
      }
    }
  }
}
