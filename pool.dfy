/**
 * `DeferredProcessPool` and the objects it changes in place
 * (txprocesspool/processpool.py:55-137): the parent end of each task's pipe,
 * the worker process, the pool's `running_tasks` counter, and the state
 * `poll_task` keeps for its inner `poll` and `fail`. Every method is
 * specified by the function of module PollSpec that gives its new state.
 */
module Pool {
  import opened Wrappers
  import opened Envelope
  import Worker
  import opened PollSpec

  /**
   * The parent end of a `multiprocessing.Pipe()`. `closedPollRaises` is
   * whether this Python build's `poll()` raises on a closed pipe rather
   * than reporting no data.
   */
  class Pipe {
    var open: bool
    var pending: Option<Envelope>
    var recvs: nat
    var closes: nat
    const closedPollRaises: bool

    function View(): ChanView
      reads this
    {
      ChanView(open, pending, recvs, closes, closedPollRaises)
    }

    constructor (closedPollRaises: bool)
      ensures View() == ChanView(true, None, 0, 0, closedPollRaises)
    {
      open, pending, recvs, closes := true, None, 0, 0;
      this.closedPollRaises := closedPollRaises;
    }

    /**
     * The worker's `child_pipe.send(env)`: the envelope crosses the process
     * boundary pickled, and what arrives is what unpickling gives.
     */
    method Deliver(env: Envelope)
      requires pending.None?
      modifies this
      ensures View() == old(View()).(pending := Some(env))
    {
      pending := Some(Unpickle(Pickle(env)));
    }

    /**
     * `pipe.poll()`: is there data to read? On a closed pipe it either
     * raises, reported as `raised`, or reports no data.
     */
    method Poll() returns (ready: bool, raised: bool)
      ensures raised <==> !open && closedPollRaises
      ensures ready <==> open && pending.Some?
    {
      raised := !open && closedPollRaises;
      ready := open && pending.Some?;
    }

    /** `pipe.recv()`: takes the one pending envelope. */
    method Recv() returns (env: Envelope)
      requires open && pending.Some?
      modifies this
      ensures env == old(pending).value
      ensures View() == old(View()).(pending := None, recvs := old(recvs) + 1)
    {
      env := pending.value;
      pending, recvs := None, recvs + 1;
    }

    /** `pipe.close()`, also on a pipe that is already closed. */
    method Close()
      modifies this
      ensures View() == CloseChan(old(View()))
    {
      open, closes := false, closes + 1;
    }
  }

  /** A `multiprocessing.Process` as its parent sees it. */
  class Process {
    var state: ProcState
    var terminates: nat
    var joins: nat

    function View(): ProcView
      reads this
    {
      ProcView(state, terminates, joins)
    }

    constructor ()
      ensures View() == ProcView(NotStarted, 0, 0)
    {
      state, terminates, joins := NotStarted, 0, 0;
    }

    method Start()
      requires state == NotStarted
      modifies this
      ensures View() == old(View()).(state := Running)
    {
      state := Running;
    }

    method Terminate()
      modifies this
      ensures View() == TerminateProc(old(View()))
    {
      if state == Running {
        state := Terminated;
      }
      terminates := terminates + 1;
    }

    method Join()
      requires state != NotStarted
      modifies this
      ensures View() == JoinProc(old(View()))
    {
      state, joins := Joined, joins + 1;
    }
  }

  /** The whole state one task's polls read and change. */
  function Snapshot(pool: DeferredProcessPool, proc: Process, pipe: Pipe): TaskView
    reads pool, proc, pipe
  {
    TaskView(pool.runningTasks, pipe.View(), proc.View())
  }

  class DeferredProcessPool {
    const timeout: int
    var runningTasks: int

    /**
     * `running_tasks` starts at 0; the timeout defaults to 5 seconds.
     * `max_tasks` (default 2) only sizes the semaphore, which is not part of
     * this model.
     */
    constructor (timeout: int := 5)
      ensures this.timeout == timeout && runningTasks == 0
    {
      this.timeout := timeout;
      runningTasks := 0;
    }

    /** `_check_task`. */
    method CheckTask(proc: Process, pipe: Pipe) returns (c: CheckResult)
      requires proc.state != NotStarted
      modifies this, proc, pipe
      ensures (c, Snapshot(this, proc, pipe)) == Check(old(Snapshot(this, proc, pipe)))
      ensures runningTasks <= old(runningTasks)
    {
      var ready, raised := pipe.Poll();
      if raised {
        return HandleClosed;
      }
      if !ready {
        return Failed(NotReady());
      }
      var env := pipe.Recv();
      pipe.Close();
      proc.Join();
      runningTasks := runningTasks - 1;
      c := if env.Wrapped? then Failed(env.w.ex) else Succeeded(env.v);
    }

    /** `_terminate_task`. */
    method TerminateTask(proc: Process, pipe: Pipe)
      requires proc.state != NotStarted
      modifies this, proc, pipe
      ensures Snapshot(this, proc, pipe) == Terminate(old(Snapshot(this, proc, pipe)))
      ensures runningTasks == old(runningTasks) - 1
    {
      pipe.Close();
      proc.Terminate();
      proc.Join();
      runningTasks := runningTasks - 1;
    }

    /**
     * `poll_task`: fix the deadline from the clock reading `startMs`, start
     * the process, and poll at once. `fail` reads the clock again, after the
     * fork, so the first poll happens at `firstPollMs` (the wall clock may
     * have moved either way). The first decision is the one Step makes for
     * the started task at that time.
     */
    method PollTask(proc: Process, pipe: Pipe, timeout: int, startMs: nat, firstPollMs: nat)
      returns (poller: Poller, first: Decision)
      requires proc.state == NotStarted
      modifies this, proc, pipe
      ensures fresh(poller)
      ensures poller.pool == this && poller.proc == proc && poller.pipe == pipe
      ensures poller.pollUntil == Deadline(startMs, timeout)
      ensures (first, poller.View()) ==
              Step(old(Snapshot(this, proc, pipe)).(proc := old(proc.View()).(state := Running)),
                   poller.pollUntil, firstPollMs)
      ensures proc.state != NotStarted
    {
      var pollUntil := Deadline(startMs, timeout);
      poller := new Poller(this, proc, pipe, pollUntil);
      proc.Start();
      first := poller.Poll(firstPollMs);
    }

    /**
     * `execute`: a new pipe and process, then `poll_task` with the pool's
     * timeout. The channel is still empty at the first poll, so it retries
     * when that poll is no later than the deadline and times out at once
     * otherwise, terminating the worker it has just started.
     * `closedPollRaises` describes the Python build, as for Pipe.
     */
    method Execute(startMs: nat, firstPollMs: nat, closedPollRaises: bool) returns (poller: Poller, first: Decision)
      modifies this
      ensures fresh(poller) && fresh(poller.proc) && fresh(poller.pipe)
      ensures poller.pool == this
      ensures poller.pollUntil == Deadline(startMs, timeout)
      ensures poller.proc.state != NotStarted
      ensures first == Retry <==> firstPollMs <= poller.pollUntil
      ensures first == Retry ==>
                poller.View() == TaskView(old(runningTasks), ChanView(true, None, 0, 0, closedPollRaises), ProcView(Running, 0, 0))
      ensures first != Retry ==>
                first == Reject(NotReady()) &&
                poller.View() == Terminate(TaskView(old(runningTasks), ChanView(true, None, 0, 0, closedPollRaises), ProcView(Running, 0, 0)))
    {
      var pipe := new Pipe(closedPollRaises);
      var proc := new Process();
      poller, first := PollTask(proc, pipe, timeout, startMs, firstPollMs);
    }
  }

  /** The state `poll_task`'s inner `poll` and `fail` share. */
  class Poller {
    const pool: DeferredProcessPool
    const proc: Process
    const pipe: Pipe
    const pollUntil: int

    function View(): TaskView
      reads pool, proc, pipe
    {
      Snapshot(pool, proc, pipe)
    }

    constructor (pool: DeferredProcessPool, proc: Process, pipe: Pipe, pollUntil: int)
      ensures this.pool == pool && this.proc == proc && this.pipe == pipe && this.pollUntil == pollUntil
    {
      this.pool, this.proc, this.pipe, this.pollUntil := pool, proc, pipe, pollUntil;
    }

    /** The inner `poll`, at time `now`. */
    method Poll(now: int) returns (d: Decision)
      requires proc.state != NotStarted
      modifies pool, proc, pipe
      ensures (d, View()) == Step(old(View()), pollUntil, now)
    {
      var c := pool.CheckTask(proc, pipe);
      match c
      case HandleClosed =>
        d := Escaped;
      case Succeeded(v) =>
        d := Resolve(v);
      case Failed(e) =>
        d := Fail(e, now);
    }

    /** The inner `fail`, at time `now`. */
    method Fail(e: Exc, now: int) returns (d: Decision)
      requires proc.state != NotStarted
      modifies pool, proc, pipe
      ensures (d, View()) == PollSpec.Fail(old(View()), pollUntil, e, now)
    {
      if now > pollUntil {
        pool.TerminateTask(proc, pipe);
        d := Reject(e);
      } else if IsPollError(e) {
        d := Retry;
      } else {
        d := Reject(e);
      }
    }

    /**
     * The polls `reactor.callLater` schedules, fired at `ticks`: poll until
     * one decides something other than Retry.
     */
    method PollUntilDecided(ticks: seq<int>) returns (d: Decision)
      requires proc.state != NotStarted
      modifies pool, proc, pipe
      ensures (d, View()) == Run(old(View()), pollUntil, ticks)
    {
      d := Retry;
      var i := 0;
      while i < |ticks| && d == Retry
        invariant 0 <= i <= |ticks|
        invariant proc.state != NotStarted
        invariant Run(old(View()), pollUntil, ticks) ==
                  if d == Retry then Run(View(), pollUntil, ticks[i..]) else (d, View())
      {
        assert ticks[i..][1..] == ticks[i + 1..];
        d := Poll(ticks[i]);
        i := i + 1;
      }
    }
  }

  /**
   * From the worker's outcome to the caller: whatever the harness sent,
   * once it is in the pipe, the next poll resolves with the returned value,
   * or rejects with an error of the same class and the same arguments as
   * the one the callable raised.
   */
  lemma DeliveredOutcomeReachesCaller(outcome: Worker.Outcome, send: Envelope -> Option<Exc>,
                                      printError: Option<Exc>, t: TaskView, deadline: int, now: int)
    requires Worker.Exec(outcome, send, printError).sent != []
    requires Started(t.proc) && t.chan.open
    requires t.chan.pending == Some(Unpickle(Pickle(Worker.Exec(outcome, send, printError).sent[0])))
    ensures outcome.Returned? && send(Raw(outcome.v)).None? ==>
              Step(t, deadline, now).0 == Resolve(outcome.v)
    ensures outcome.Raised? && (now > deadline || !IsPollError(outcome.e)) ==>
              Step(t, deadline, now).0 == Reject(outcome.e)
  {
  }

  /**
   * A raising print in the worker's handler hides the callable's error: the
   * harness sends nothing, so the caller's polls find the pipe empty until
   * the first one past the deadline, which terminates the task and rejects
   * with ProcessPollError rather than with the callable's error.
   */
  lemma PrintFailureHidesError(outcome: Worker.Outcome, send: Envelope -> Option<Exc>, printError: Option<Exc>,
                               t: TaskView, deadline: int, ticks: seq<int>, k: nat)
    requires outcome.Raised? && IsException(outcome.e) && printError.Some?
    requires Started(t.proc) && t.chan.open && t.chan.pending.None?
    requires k < |ticks| && ticks[k] > deadline
    requires forall i | 0 <= i < k :: ticks[i] <= deadline
    ensures Worker.Exec(outcome, send, printError).sent == []
    ensures Run(t, deadline, ticks) == (Reject(NotReady()), Terminate(t))
  {
    RunTimesOut(t, deadline, ticks, k);
  }
}
