/**
 * The caller side of one task as a state machine on values
 * (txprocesspool/processpool.py:71-120): `_check_task`, `_terminate_task`
 * and the inner `poll` and `fail` of `poll_task`.
 *
 * A TaskView is what these operations read and change: the pool's
 * `running_tasks` counter, the parent end of the pipe, and the worker
 * process. The classes in module Pool change the same state in place and
 * are specified by the functions here. Times are integer milliseconds.
 */
module PollSpec {
  import opened Wrappers
  import opened Envelope

  /** The worker process as the caller sees it; Running means started and not yet reaped. */
  datatype ProcState = NotStarted | Running | Terminated | Joined

  /**
   * The parent end of the pipe, with how often it was read and closed.
   * `closedPollRaises` says what `pipe.poll()` does once the pipe is closed,
   * which the source does not fix: the Python build either raises an error
   * (IOError or OSError) or reports no data.
   */
  datatype ChanView = ChanView(open: bool, pending: Option<Envelope>, recvs: nat, closes: nat,
                               closedPollRaises: bool)

  /** The process, with how often it was terminated and joined. */
  datatype ProcView = ProcView(state: ProcState, terminates: nat, joins: nat)

  datatype TaskView = TaskView(running: int, chan: ChanView, proc: ProcView)

  /** What `_check_task` hands to the callbacks; HandleClosed is the error `pipe.poll()` raises on a closed pipe, when it raises one. */
  datatype CheckResult = Succeeded(v: Value) | Failed(e: Exc) | HandleClosed

  /**
   * What one poll decides: poll again later, fire the caller's Deferred with
   * a value or an error, or nothing at all because an error escaped `poll`.
   */
  datatype Decision = Retry | Resolve(v: Value) | Reject(e: Exc) | Escaped

  /** `reactor.callLater(0.1, poll)`: the delay, in milliseconds, before the next poll. */
  const RetryDelayMs: nat := 100

  predicate Started(p: ProcView) {
    p.state != NotStarted
  }

  /** `pipe.poll()` returns False: an open pipe with nothing pending, or a closed pipe whose poll does not raise. */
  predicate ReadsAsEmpty(c: ChanView) {
    (c.open && c.pending.None?) || (!c.open && !c.closedPollRaises)
  }

  /** `poll_untill = int(time()) + timeout`, for a start time in milliseconds and a timeout in seconds. */
  function Deadline(startMs: nat, timeout: int): (d: int)
    ensures d % 1000 == 0
    ensures d <= startMs + timeout * 1000 < d + 1000
  {
    (startMs / 1000 + timeout) * 1000
  }

  /** `pipe.close()`: closing an already closed pipe does nothing more, but it is still a call. */
  function CloseChan(c: ChanView): ChanView {
    c.(open := false, closes := c.closes + 1)
  }

  /** `proc.terminate()`: only a running process is killed. */
  function TerminateProc(p: ProcView): ProcView {
    p.(state := if p.state == Running then Terminated else p.state, terminates := p.terminates + 1)
  }

  /** `proc.join()`: Python refuses to join a process that was never started. */
  function JoinProc(p: ProcView): ProcView
    requires Started(p)
  {
    p.(state := Joined, joins := p.joins + 1)
  }

  /**
   * `_check_task`. Reads the pipe at most once, and the counter drops by one
   * exactly when it does.
   */
  function Check(t: TaskView): (r: (CheckResult, TaskView))
    requires Started(t.proc)
    ensures Started(r.1.proc)
    ensures r.1.chan.recvs <= t.chan.recvs + 1
    ensures r.1.running == t.running - (r.1.chan.recvs - t.chan.recvs)
    ensures r.1.chan.recvs > t.chan.recvs ==> !r.1.chan.open && r.1.proc.state == Joined
    ensures r.1.chan.recvs == t.chan.recvs ==> r.1 == t
  {
    if !t.chan.open && t.chan.closedPollRaises then
      (HandleClosed, t)
    else if ReadsAsEmpty(t.chan) then
      (Failed(NotReady()), t)
    else
      var env := t.chan.pending.value;
      var received := t.chan.(pending := None, recvs := t.chan.recvs + 1);
      // `pipe.close() or proc.join()`: close returns None, so join always runs
      var t' := TaskView(t.running - 1, CloseChan(received), JoinProc(t.proc));
      if env.Wrapped? then (Failed(env.w.ex), t') else (Succeeded(env.v), t')
  }

  /**
   * `_terminate_task`: afterwards the pipe is closed and the process reaped,
   * whatever state they were in, and the counter is one lower.
   */
  function Terminate(t: TaskView): (r: TaskView)
    requires Started(t.proc)
    ensures r.chan == CloseChan(t.chan)
    ensures !r.chan.open && r.chan.closes == t.chan.closes + 1
    ensures r.proc.state == Joined
    ensures r.proc.terminates == t.proc.terminates + 1 && r.proc.joins == t.proc.joins + 1
    ensures r.running == t.running - 1
  {
    // `proc.terminate() or proc.join()`: terminate returns None, so join always runs
    TaskView(t.running - 1, CloseChan(t.chan), JoinProc(TerminateProc(t.proc)))
  }

  /**
   * `fail`: the deadline is checked first, then the kind of error. Past the
   * deadline every error terminates the task and is passed on; before it, a
   * ProcessPollError retries with nothing changed and any other error is
   * passed on with nothing changed.
   */
  function Fail(t: TaskView, deadline: int, e: Exc, now: int): (r: (Decision, TaskView))
    requires Started(t.proc)
    ensures now > deadline ==> r == (Reject(e), Terminate(t))
    ensures r.0.Retry? <==> now <= deadline && IsPollError(e)
    ensures now <= deadline ==> r.1 == t && (r.0.Retry? || r.0 == Reject(e))
  {
    if now > deadline then (Reject(e), Terminate(t))
    else if IsPollError(e) then (Retry, t)
    else (Reject(e), t)
  }

  /**
   * `poll`: check the task, forward a success at once, hand a failure to
   * `fail`. Never retries past the deadline; a decision that fires the
   * caller's Deferred leaves the pipe closed, the process reaped and the
   * counter lower; no poll lowers it by more than two.
   */
  function Step(t: TaskView, deadline: int, now: int): (r: (Decision, TaskView))
    requires Started(t.proc)
    ensures Started(r.1.proc)
    ensures r.1.running <= t.running <= r.1.running + 2
    ensures r.0.Retry? ==> now <= deadline
    ensures r.0.Retry? ==> r.1 == t || (!r.1.chan.open && r.1.running == t.running - 1)
    ensures r.0.Resolve? || r.0.Reject? ==>
              !r.1.chan.open && r.1.proc.state == Joined && r.1.running < t.running
    ensures r.0.Escaped? <==> !t.chan.open && t.chan.closedPollRaises
    ensures r.0.Escaped? ==> r.1 == t
    ensures now > deadline && r.0.Reject? ==> r.1.proc.terminates == t.proc.terminates + 1
  {
    var (c, t1) := Check(t);
    match c
    case HandleClosed => (Escaped, t1)
    case Succeeded(v) => (Resolve(v), t1)
    case Failed(e) => Fail(t1, deadline, e, now)
  }

  /**
   * The chain of polls `reactor.callLater` sets up: poll at each of `ticks`
   * in turn until a poll decides something other than Retry. A chain that
   * is still retrying made its last poll no later than the deadline.
   */
  function Run(t: TaskView, deadline: int, ticks: seq<int>): (r: (Decision, TaskView))
    requires Started(t.proc)
    ensures Started(r.1.proc)
    ensures r.0.Retry? && ticks != [] ==> ticks[|ticks| - 1] <= deadline
    decreases |ticks|
  {
    if ticks == [] then
      (Retry, t)
    else
      var (d, t1) := Step(t, deadline, ticks[0]);
      if d.Retry? then Run(t1, deadline, ticks[1..]) else (d, t1)
  }

  /**
   * A check on an empty channel (or a closed one whose poll does not raise)
   * fails with ProcessPollError and changes nothing: no read, no close, no join.
   */
  lemma CheckEmptyChannel(t: TaskView)
    requires Started(t.proc) && ReadsAsEmpty(t.chan)
    ensures Check(t) == (Failed(NotReady()), t)
  {
  }

  /**
   * A check on a channel with data reads it once, closes the pipe, joins the
   * process and lowers the counter by one; a wrapped error fails with the
   * unwrapped inner error, any other value succeeds with that value.
   */
  lemma CheckWithData(t: TaskView, env: Envelope)
    requires Started(t.proc) && t.chan.open && t.chan.pending == Some(env)
    ensures Check(t).0 == if env.Wrapped? then Failed(env.w.ex) else Succeeded(env.v)
    ensures Check(t).1 == TaskView(t.running - 1,
                                   ChanView(false, None, t.chan.recvs + 1, t.chan.closes + 1,
                                            t.chan.closedPollRaises),
                                   ProcView(Joined, t.proc.terminates, t.proc.joins + 1))
  {
  }

  /** Not ready up to and including the deadline (the comparison is strict): retry, nothing changes. */
  lemma NotReadyRetries(t: TaskView, deadline: int, now: int)
    requires Started(t.proc) && ReadsAsEmpty(t.chan)
    requires now <= deadline
    ensures Step(t, deadline, now) == (Retry, t)
  {
  }

  /** Not ready past the deadline: the caller gets the same ProcessPollError as "not ready", and the task is terminated. */
  lemma NotReadyTimesOut(t: TaskView, deadline: int, now: int)
    requires Started(t.proc) && ReadsAsEmpty(t.chan)
    requires now > deadline
    ensures Step(t, deadline, now) == (Reject(NotReady()), Terminate(t))
    ensures IsPollError(Step(t, deadline, now).0.e)
  {
  }

  /** A result is forwarded without looking at the deadline, after one cleanup. */
  lemma ResultIgnoresDeadline(t: TaskView, deadline: int, now: int, v: Value)
    requires Started(t.proc) && t.chan.open && t.chan.pending == Some(Raw(v))
    ensures Step(t, deadline, now) == (Resolve(v), Check(t).1)
    ensures Step(t, deadline, now).1.running == t.running - 1
  {
  }

  /** A worker error before the deadline, other than a ProcessPollError, is rejected unwrapped and cleaned up once. */
  lemma WorkerErrorBeforeDeadline(t: TaskView, deadline: int, now: int, w: ExceptionWrapper)
    requires Started(t.proc) && t.chan.open && t.chan.pending == Some(Wrapped(w))
    requires now <= deadline && !IsPollError(w.ex)
    ensures Step(t, deadline, now) == (Reject(w.ex), Check(t).1)
    ensures Step(t, deadline, now).1.proc.terminates == t.proc.terminates
  {
  }

  /**
   * A worker error seen past the deadline runs both cleanups: the pipe is
   * closed twice, the process joined twice, and the counter drops by two.
   */
  lemma WorkerErrorAfterDeadlineCleansTwice(t: TaskView, deadline: int, now: int, w: ExceptionWrapper)
    requires Started(t.proc) && t.chan.open && t.chan.pending == Some(Wrapped(w))
    requires now > deadline
    ensures Step(t, deadline, now).0 == Reject(w.ex)
    ensures Step(t, deadline, now).1.running == t.running - 2
    ensures Step(t, deadline, now).1.chan.closes == t.chan.closes + 2
    ensures Step(t, deadline, now).1.chan.recvs == t.chan.recvs + 1
    ensures Step(t, deadline, now).1.proc.joins == t.proc.joins + 2
    ensures Step(t, deadline, now).1.proc.terminates == t.proc.terminates + 1
  {
  }

  /**
   * A worker that raised a ProcessPollError before the deadline is retried
   * although its result was already read and its pipe closed. If `poll()`
   * raises on a closed pipe, the next poll escapes and the caller's Deferred
   * never fires; if it does not, later polls read as "not ready", and the
   * first one past the deadline rejects with a fresh ProcessPollError after
   * a second cleanup, so the counter drops by two in all.
   */
  lemma WorkerPollErrorRetriesClosedPipe(t: TaskView, deadline: int, now: int, later: int, w: ExceptionWrapper)
    requires Started(t.proc) && t.chan.open && t.chan.pending == Some(Wrapped(w))
    requires now <= deadline && IsPollError(w.ex)
    ensures Step(t, deadline, now) == (Retry, Check(t).1)
    ensures t.chan.closedPollRaises ==>
              Step(Check(t).1, deadline, later) == (Escaped, Check(t).1)
    ensures !t.chan.closedPollRaises && later <= deadline ==>
              Step(Check(t).1, deadline, later) == (Retry, Check(t).1)
    ensures !t.chan.closedPollRaises && later > deadline ==>
              Step(Check(t).1, deadline, later).0 == Reject(NotReady()) &&
              Step(Check(t).1, deadline, later).1.running == t.running - 2 &&
              Step(Check(t).1, deadline, later).1.chan.closes == t.chan.closes + 2
  {
  }

  /** Once the pipe is closed and its poll raises, every further poll escapes and changes nothing. */
  lemma RunOnClosedPipe(t: TaskView, deadline: int, ticks: seq<int>)
    requires Started(t.proc) && !t.chan.open && t.chan.closedPollRaises
    ensures Run(t, deadline, ticks) == (if ticks == [] then Retry else Escaped, t)
  {
  }

  /**
   * On a channel that reads as empty and stays so, a chain of polls either
   * keeps retrying with nothing changed or ends in a timeout.
   */
  lemma {:induction false} RunFromEmpty(t: TaskView, deadline: int, ticks: seq<int>)
    requires Started(t.proc) && ReadsAsEmpty(t.chan)
    ensures Run(t, deadline, ticks) == (Retry, t) ||
            Run(t, deadline, ticks) == (Reject(NotReady()), Terminate(t))
  {
    if ticks != [] && ticks[0] <= deadline {
      NotReadyRetries(t, deadline, ticks[0]);
      RunFromEmpty(t, deadline, ticks[1..]);
    }
  }

  /**
   * Over any chain of polls the counter never goes up, drops by at most two,
   * and has dropped once the caller's Deferred fires. Since `running_tasks`
   * starts at 0 and nothing raises it, a finished task leaves it negative.
   */
  lemma {:induction false} RunCounter(t: TaskView, deadline: int, ticks: seq<int>)
    requires Started(t.proc)
    ensures Run(t, deadline, ticks).1.running <= t.running <= Run(t, deadline, ticks).1.running + 2
    ensures Run(t, deadline, ticks).0.Resolve? || Run(t, deadline, ticks).0.Reject? ==>
              Run(t, deadline, ticks).1.running < t.running
  {
    if ticks != [] {
      var (d, t1) := Step(t, deadline, ticks[0]);
      if d.Retry? {
        if t1 == t {
          RunCounter(t1, deadline, ticks[1..]);
        } else if t1.chan.closedPollRaises {
          RunOnClosedPipe(t1, deadline, ticks[1..]);
        } else {
          RunFromEmpty(t1, deadline, ticks[1..]);
        }
      }
    }
  }

  /** While the channel stays empty and no poll is past the deadline, the chain only retries and changes nothing. */
  lemma {:induction false} RunWhileNotReady(t: TaskView, deadline: int, ticks: seq<int>)
    requires Started(t.proc) && ReadsAsEmpty(t.chan)
    requires forall i | 0 <= i < |ticks| :: ticks[i] <= deadline
    ensures Run(t, deadline, ticks) == (Retry, t)
  {
    if ticks != [] {
      NotReadyRetries(t, deadline, ticks[0]);
      RunWhileNotReady(t, deadline, ticks[1..]);
    }
  }

  /**
   * If the channel stays empty, the first poll past the deadline ends the
   * chain: the task is terminated and the caller gets ProcessPollError.
   */
  lemma {:induction false} RunTimesOut(t: TaskView, deadline: int, ticks: seq<int>, k: nat)
    requires Started(t.proc) && ReadsAsEmpty(t.chan)
    requires k < |ticks| && ticks[k] > deadline
    requires forall i | 0 <= i < k :: ticks[i] <= deadline
    ensures Run(t, deadline, ticks) == (Reject(NotReady()), Terminate(t))
  {
    if k == 0 {
      NotReadyTimesOut(t, deadline, ticks[0]);
    } else {
      NotReadyRetries(t, deadline, ticks[0]);
      RunTimesOut(t, deadline, ticks[1..], k - 1);
    }
  }

  /**
   * With polls every RetryDelayMs from a start no later than the deadline,
   * and a channel that stays empty, the timeout is reported by the first poll
   * past the deadline, at most one delay after it.
   */
  lemma TimeoutWithinOneDelay(t: TaskView, deadline: int, start: int, ticks: seq<int>)
    requires Started(t.proc) && ReadsAsEmpty(t.chan)
    requires start <= deadline
    requires forall i | 0 <= i < |ticks| :: ticks[i] == start + i * RetryDelayMs
    requires (deadline - start) / RetryDelayMs + 1 < |ticks|
    ensures Run(t, deadline, ticks) == (Reject(NotReady()), Terminate(t))
    ensures ticks[(deadline - start) / RetryDelayMs + 1] <= deadline + RetryDelayMs
  {
    var k := (deadline - start) / RetryDelayMs + 1;
    forall i | 0 <= i < k
      ensures ticks[i] <= deadline
    {
      assert i * RetryDelayMs <= (k - 1) * RetryDelayMs;
    }
    RunTimesOut(t, deadline, ticks, k);
  }
}
