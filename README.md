# txprocesspool: a Dafny model of `DeferredProcessPool`

`txprocesspool` runs a blocking callable in a separate `multiprocessing`
process and hands its result back to a Twisted program through a
`Deferred`. The caller does not wait for the result with a blocking read: it
polls the result pipe, first at once and then every 0.1 s until a deadline.
(It does still block in `proc.join()` while reaping the worker.) This project models
`txprocesspool/processpool.py` in three parts and proves what each does.

- **Envelope** (module `Envelope`, `envelope.dfy`) covers the result envelope and
  `ExceptionWrapper`. An error is reduced to its constructor, its positional
  arguments and, optionally, its keyword arguments. The wrapper pickles as a
  call to `_ExceptionWrapperRebuilder` bound to that constructor. Unpickling
  builds the error again and wraps it. `Pickle`/`Unpickle` stand for pickling
  an envelope.
- **Worker harness** (module `Worker`, `worker.dfy`) covers `_exec` as a function. It
  maps the callable's outcome, what each `child_pipe.send` raises and what the
  handler's `print` raises, to the envelopes written, the closed flag and the
  error that escapes the process.
- **Polling state machine** (modules `PollSpec`, `poll_spec.dfy`, and `Pool`,
  `pool.dfy`). `PollSpec` states `_check_task`, `_terminate_task`, `fail`,
  `poll` and the `callLater` chain as functions on a `TaskView`. A `TaskView`
  holds the pool's `running_tasks` counter, the parent end of the pipe (open or
  closed, the pending envelope, and how many reads and closes) and the worker
  process (NotStarted / Running / Terminated / Joined, and how many terminates
  and joins). `Pool` has classes `Pipe`, `Process`, `DeferredProcessPool` and
  `Poller` that change this state in place. Each method's `ensures` ties the
  new state to the `PollSpec` function applied to the old state.

Times are integer milliseconds. The timeout is a whole number of seconds. The
deadline `int(time()) + timeout` is `Deadline(startMs, timeout)`.

The model keeps these behaviours of the code, although an idealised pool
would not have them:

- A timeout surfaces the same `ProcessPollError` as "not ready"
  (processpool.py:74, 108-110). It is not a separate timeout error.
- `fail` checks the deadline before the kind of error (processpool.py:108). A
  worker-raised error seen after the deadline is therefore cleaned up twice: the
  pipe is closed twice, the process is joined twice, and `running_tasks` drops
  by 2.
- `running_tasks` starts at 0 and nothing increments it (processpool.py:58, 89,
  97). Every finished task leaves it lower, so it goes negative.
- A callable that raises `ProcessPollError` before the deadline is retried after
  its result was read and its pipe closed. What happens next depends on how
  `pipe.poll()` treats a closed pipe, which the source does not fix: a Python
  build may raise an error (IOError or OSError) or report no data. The model
  takes this as the flag `closedPollRaises` of the pipe and proves both cases.
  If `poll()` raises, the error escapes `poll` and the caller's `Deferred`
  never fires. If it reports no data, the task is retried as "not ready" until
  the deadline. It is then cleaned up a second time, the counter drops by 2 in
  all, and the caller gets a fresh `ProcessPollError`.
- The worker's handler prints the error before sending it (processpool.py:66).
  Under Python 2 that print raises for an error with a non-ASCII unicode
  message, or when stdout is closed. The wrapper is then never sent, and the
  caller times out with `ProcessPollError` instead of seeing the error.
- The comparison `time() > poll_untill` is strict. A poll at exactly the
  deadline still retries.

## Model

| member | source | states |
|---|---|---|
| `Envelope.NotReady` | txprocesspool/processpool.py:73-74 | the error for an empty channel is a `ProcessPollError` (and so an `Exception`) carrying only the message "Process didn't returned result" |
| `Envelope.Reduce` | txprocesspool/processpool.py:17 | an error's own reduction keeps its constructor and positional arguments, has the two-element form exactly when there are no keyword arguments, and constructs the same error again |
| `Envelope.CallRebuilder` | txprocesspool/processpool.py:42-49 | calling the rebuilder with `(args, kwargs)` gives a wrapper around an error of the bound constructor with exactly those arguments |
| `Envelope.ReduceFrom` | txprocesspool/processpool.py:17-26 | for a reduction `(ctor, args[, kwargs])` the wrapper's reduction is a rebuilder bound to `ctor` plus `(args, kwargs or {})`, and rebuilding it yields `ExceptionWrapper(ctor(*args, **kwargs))` |
| `Envelope.WrapperReduce` | txprocesspool/processpool.py:16-26 | `__reduce__` binds the rebuilder to the inner error's constructor, and rebuilding from it gives back the same wrapper |
| `Envelope.Rebuild` | txprocesspool/processpool.py:45-49 | unpickling a wrapper's reduction gives a wrapper around an error of the bound constructor with exactly the reduced arguments |
| `Envelope.Pickle` | txprocesspool/processpool.py:7-49 | an envelope pickles as a wrapper reduction exactly when it is a wrapped error, and unpickling gives back the same envelope |
| `Envelope.Unpickle` | txprocesspool/processpool.py:7-49 | a plain value unpickles as itself; a wrapper reduction unpickles as a wrapped error of the rebuilder's constructor |
| `Envelope.RebuildThenReduce` | txprocesspool/processpool.py:16-49 | reducing a rebuilt wrapper gives back the reduction it came from |
| `Envelope.UnpickleThenPickle` | txprocesspool/processpool.py:7-49 | pickling an unpickled envelope gives back its pickled form, so pickling and unpickling are inverse both ways |
| `Envelope.TwoElementReduction` | txprocesspool/processpool.py:19-22 | with a two-element reduction the keyword arguments default to `{}` and the round trip still holds |
| `Envelope.ThreeElementReduction` | txprocesspool/processpool.py:19-20 | with a three-element reduction the rebuilder receives exactly its constructor, positional and keyword arguments |
| `Worker.Exec` | txprocesspool/processpool.py:61-69 | the child end is always closed; at most one envelope is sent; a normal return whose send succeeds sends the raw result; a raised `Exception` whose print and wrapped send succeed sends `ExceptionWrapper(err)`; a raised `Exception` whose print raises sends nothing and the print's error escapes; an error that is not an `Exception` sends nothing and escapes; nothing is sent exactly when an error escapes; every sent envelope is the returned value or a wrapped `Exception` |
| `PollSpec.Deadline` | txprocesspool/processpool.py:101 | the deadline `int(start) + timeout` is a whole second, never later than `start + timeout`, and less than a second earlier |
| `PollSpec.Check` | txprocesspool/processpool.py:71-91 | a check reads the pipe at most once; the counter drops by exactly one when it reads and not otherwise; a read leaves the pipe closed and the process joined; without a read nothing changes |
| `PollSpec.CheckEmptyChannel` | txprocesspool/processpool.py:73-74 | on an open, empty channel, or a closed one whose `poll()` does not raise, the check fails with `ProcessPollError`, with no read, no close, no join and the counter unchanged |
| `PollSpec.CheckWithData` | txprocesspool/processpool.py:79-91 | with data, the check reads once; a wrapped envelope fails with the unwrapped inner error and any other value succeeds with it; the pipe is closed, the process joined and the counter one lower |
| `PollSpec.Terminate` | txprocesspool/processpool.py:93-97 | terminate closes the pipe, terminates and then joins the process, whatever state they were in, and lowers the counter by one |
| `PollSpec.Fail` | txprocesspool/processpool.py:107-114 | the deadline is checked first: past it every error terminates the task and is passed on; before it, exactly a `ProcessPollError` retries, and any other error is passed on, both with nothing changed |
| `PollSpec.Step` | txprocesspool/processpool.py:103-114 | a poll never retries past the deadline; a retry changes nothing, or follows a read that closed the pipe; a resolve or reject leaves the pipe closed, the process joined and the counter lower; a poll escapes exactly when the pipe was already closed and its `poll()` raises; a reject past the deadline terminated the process; the counter drops by at most 2 |
| `PollSpec.Run` | txprocesspool/processpool.py:103-114 | the chain of polls the reactor fires; a chain that is still retrying made its last poll no later than the deadline, and the process stays started |
| `PollSpec.NotReadyRetries` | txprocesspool/processpool.py:107-112 | not ready (an empty pipe, or a closed one whose `poll()` does not raise) at or before the deadline: retry, and nothing changes |
| `PollSpec.NotReadyTimesOut` | txprocesspool/processpool.py:107-110 | not ready past the deadline: the task is terminated and the caller gets the same `ProcessPollError` as "not ready" |
| `PollSpec.ResultIgnoresDeadline` | txprocesspool/processpool.py:103-105 | a returned value resolves the caller at any time, after a single cleanup |
| `PollSpec.WorkerErrorBeforeDeadline` | txprocesspool/processpool.py:103-114 | a worker error other than `ProcessPollError` before the deadline is rejected unwrapped, cleaned up once and not terminated |
| `PollSpec.WorkerErrorAfterDeadlineCleansTwice` | txprocesspool/processpool.py:79-110 | a worker error seen past the deadline is rejected, with one read, two closes, two joins, one terminate and the counter lowered by 2 |
| `PollSpec.WorkerPollErrorRetriesClosedPipe` | txprocesspool/processpool.py:73-112 | a worker-raised `ProcessPollError` before the deadline is retried on a pipe the check already closed; if `poll()` raises on a closed pipe the next poll escapes without deciding; otherwise later polls retry until the deadline, and the first one past it rejects with `ProcessPollError` after a second cleanup, the counter down by 2 in all |
| `PollSpec.RunOnClosedPipe` | txprocesspool/processpool.py:73 | once the pipe is closed and its `poll()` raises, every further poll escapes and changes nothing |
| `PollSpec.RunFromEmpty` | txprocesspool/processpool.py:107-112 | on a channel that reads as empty and stays so, a chain of polls either keeps retrying with nothing changed or ends with the task terminated and `ProcessPollError` |
| `PollSpec.RunCounter` | txprocesspool/processpool.py:58-97 | over any chain of one task's polls, this task's own polls never raise the counter, lower it by at most 2, and have lowered it by the time the caller's `Deferred` fires |
| `PollSpec.RunWhileNotReady` | txprocesspool/processpool.py:107-112 | while the channel stays empty and no poll is past the deadline, the chain only retries and changes nothing |
| `PollSpec.RunTimesOut` | txprocesspool/processpool.py:107-112 | if the channel stays empty, the first poll past the deadline terminates the task and rejects with `ProcessPollError` |
| `PollSpec.TimeoutWithinOneDelay` | txprocesspool/processpool.py:107-112 | with polls 0.1 s apart from a start no later than the deadline and an empty channel, the timeout is reported by the first poll past the deadline, at most 0.1 s after it |
| `Pool.Pipe.constructor` | txprocesspool/processpool.py:131 | a new pipe is open and empty, never read or closed, with the given closed-pipe behaviour of `poll()` |
| `Pool.Pipe.Deliver` | txprocesspool/processpool.py:64 | the worker's send puts the envelope into the empty pipe unchanged after pickling and unpickling |
| `Pool.Pipe.Poll` | txprocesspool/processpool.py:73 | poll reports data exactly when the pipe is open and an envelope is pending, and raises exactly when the pipe is closed and this build raises there |
| `Pool.Pipe.Recv` | txprocesspool/processpool.py:79 | recv returns the pending envelope and empties the pipe, one more read |
| `Pool.Pipe.Close` | txprocesspool/processpool.py:86 | close leaves the pipe closed with one more close call, also when it was closed already |
| `Pool.Process.constructor` | txprocesspool/processpool.py:132 | a new process is not started, never terminated or joined |
| `Pool.Process.Start` | txprocesspool/processpool.py:117 | start moves a not-started process to running |
| `Pool.Process.Terminate` | txprocesspool/processpool.py:95 | terminate kills only a running process and counts the call |
| `Pool.Process.Join` | txprocesspool/processpool.py:86 | join reaps a started process and counts the call |
| `Pool.DeferredProcessPool.constructor` | txprocesspool/processpool.py:56-58 | it keeps the timeout, 5 seconds by default, and sets `running_tasks` to 0 |
| `Pool.DeferredProcessPool.CheckTask` | txprocesspool/processpool.py:71-91 | the method's new state and result are those of `PollSpec.Check`, and the counter never rises |
| `Pool.DeferredProcessPool.TerminateTask` | txprocesspool/processpool.py:93-97 | the method's new state is that of `PollSpec.Terminate`, and the counter drops by exactly 1 |
| `Pool.DeferredProcessPool.PollTask` | txprocesspool/processpool.py:99-122 | the deadline is `Deadline(start, timeout)` from the first clock reading; the process is started; the first poll runs at once, at a second clock reading, and decides as `PollSpec.Step` does for the started task at that time |
| `Pool.DeferredProcessPool.Execute` | txprocesspool/processpool.py:127-137 | a fresh pipe and process are polled at once; the first poll retries, with nothing changed, exactly when it is no later than the deadline; otherwise (a fork that crosses the deadline, a zero or negative timeout, or a wall clock that moved) it rejects with `ProcessPollError` and the task is terminated |
| `Pool.Poller.constructor` | txprocesspool/processpool.py:100-114 | the poller keeps the pool, the process, the parent end of the pipe and the deadline that the inner `poll` and `fail` share |
| `Pool.Poller.Poll` | txprocesspool/processpool.py:103-105 | the method's decision and new state are those of `PollSpec.Step` |
| `Pool.Poller.Fail` | txprocesspool/processpool.py:107-114 | the method's decision and new state are those of `PollSpec.Fail`: deadline first, then the kind of error |
| `Pool.Poller.PollUntilDecided` | txprocesspool/processpool.py:103-114 | polling at each given time until a poll decides gives the decision and state of `PollSpec.Run` |
| `Pool.DeliveredOutcomeReachesCaller` | txprocesspool/processpool.py:61-91 | once the harness's envelope is in the pipe, a returned value resolves the caller with that value, and a raised error rejects it with an error of the same class and arguments (unless it is a `ProcessPollError` before the deadline) |
| `Pool.PrintFailureHidesError` | txprocesspool/processpool.py:65-110 | when the handler's print raises, the worker sends nothing, and the caller's first poll past the deadline terminates the task and rejects with `ProcessPollError`, not the callable's error |

## Left out

- `exec_async` and the `DeferredSemaphore` behind `max_tasks` (default 2; processpool.py:56, 59, 124-125) are not modelled. FIFO admission and the capacity bound live in Twisted, which is not part of this model.
- Twisted's `Deferred` chaining and `reactor.callLater` are not modelled. A poll returns a `Decision` (Retry, Resolve, Reject, or Escaped when an error leaves `poll`). The chain of polls is `PollSpec.Run` over the times the reactor fires, which need not be 0.1 s apart; only `PollSpec.TimeoutWithinOneDelay` assumes polls exactly `RetryDelayMs` apart.
- `time()` is a parameter in integer milliseconds. Float time and a fractional timeout are not modelled.
- Real pickling and the operating system's pipes and processes are abstract. A pipe is an optional pending envelope with counts of reads and closes. A process is a state with counts of terminates and joins.
- `Envelope.Reduce` stands in for Python's `BaseException.__reduce__`. Python's third element is really the instance `__dict__`, and the model treats it as keyword arguments the constructor stores, as the wrapper assumes.
- `ExceptionWrapper.__getattr__` (processpool.py:28-29) is not modelled. Dynamic attribute lookup on Python objects has no counterpart here.
- An exception raised by `pipe.recv()` (for example a corrupted payload) is not modelled. It escapes `poll` synchronously and never reaches `fail`.
- The source tells a failure from a value only by `isinstance(result, ExceptionWrapper)` (processpool.py:81). A callable that itself returns an `ExceptionWrapper` therefore rejects the caller. `Envelope.Value` cannot hold a wrapper, so the model does not cover that case.
- What `pipe.poll()` does on a closed pipe depends on the Python build, and the source does not fix it. The model does not choose: the pipe's flag `closedPollRaises` selects raising or reporting no data, and the lemmas cover both.
- The `print` in `_exec` (processpool.py:66) is modelled only by whether it raises (`printError` of `Worker.Exec`). Its text on stdout is not modelled.
- The worker runs concurrently with the caller. Its write is the separate method `Pipe.Deliver`, which may be called between polls. `PollSpec.Run` describes a chain of polls during which nothing new arrives.
- Other tasks on the same pool are not modelled. Their polls interleave with this task's chain in the reactor and lower the shared `running_tasks` too (processpool.py:89, 97). `PollSpec.Run` and `Pool.Poller.PollUntilDecided` follow one task alone, so their bounds on the counter are this task's share. No decision reads the counter.
- `Pool.DeferredProcessPool.Execute`: the first poll sees the fresh, empty pipe. A worker fast enough to write between `proc.start()` and that poll is covered only by `PollTask` on a pipe that already holds data.
- `proc.join()` blocks the reactor thread until the worker exits, forever if the worker ignores SIGTERM. The model treats a join as immediate and does not capture that wait.
- `setup.py` is packaging metadata only.
