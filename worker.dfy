/**
 * The worker harness `DeferredProcessPool._exec` (txprocesspool/processpool.py:61-69),
 * which runs inside the spawned process: call the target, send the raw
 * result or a wrapped error into the child end of the pipe, and close that
 * end whatever happened.
 */
module Worker {
  import opened Wrappers
  import opened Envelope

  /** How the call `fun(*args, **kwargs)` ended. */
  datatype Outcome = Returned(v: Value) | Raised(e: Exc)

  /**
   * What one run of the harness leaves behind: the envelopes written into
   * the child end, whether that end was closed, and the error (if any) that
   * propagated out of `_exec` and ended the process.
   */
  datatype Run = Run(sent: seq<Envelope>, closed: bool, escaped: Option<Exc>)

  /**
   * `_exec`. `send(env)` is the error `child_pipe.send(env)` raises, if any
   * (a payload that does not pickle, a broken pipe); a send that raises
   * writes nothing. `printError` is the error the handler's
   * `print "Sent in pipe:", err` raises, if any: under Python 2, `str(err)`
   * fails on a non-ASCII unicode message, and writing to a closed stdout
   * fails too.
   *
   * The `try` sends the raw result; an `Exception` raised by the call or by
   * that send is caught, printed, and its wrapper sent instead; an error that
   * is not an `Exception`, one raised by the print, or one raised by the
   * second send propagates. The `finally` closes the child end on every path.
   */
  function Exec(outcome: Outcome, send: Envelope -> Option<Exc>, printError: Option<Exc>): (r: Run)
    ensures r.closed
    ensures |r.sent| <= 1
    ensures r.sent == [] <==> r.escaped.Some?
    ensures outcome.Returned? && send(Raw(outcome.v)).None? ==>
              r.sent == [Raw(outcome.v)]
    ensures outcome.Raised? && IsException(outcome.e) && printError.None? &&
            send(Wrapped(ExceptionWrapper(outcome.e))).None? ==>
              r.sent == [Wrapped(ExceptionWrapper(outcome.e))]
    ensures outcome.Raised? && IsException(outcome.e) && printError.Some? ==>
              r.sent == [] && r.escaped == printError
    ensures r.sent != [] && r.sent[0].Wrapped? ==> printError.None?
    ensures outcome.Raised? && !IsException(outcome.e) ==>
              r.sent == [] && r.escaped == Some(outcome.e)
    ensures outcome.Raised? && r.sent != [] ==> r.sent == [Wrapped(ExceptionWrapper(outcome.e))]
    ensures forall k | 0 <= k < |r.sent| ::
              (outcome.Returned? && r.sent[k] == Raw(outcome.v)) ||
              (r.sent[k].Wrapped? && IsException(r.sent[k].w.ex))
  {
    // the `try` body: the call, then the send of its result
    var tryError := match outcome
      case Returned(v) => send(Raw(v))
      case Raised(e) => Some(e);
    if tryError.None? then
      Run([Raw(outcome.v)], true, None)
    else if !IsException(tryError.value) then
      // not caught by `except Exception`; only the `finally` runs
      Run([], true, tryError)
    else if printError.Some? then
      // the handler's print raised before its send
      Run([], true, printError)
    else
      var wrapped := Wrapped(ExceptionWrapper(tryError.value));
      var exceptError := send(wrapped);
      if exceptError.None? then Run([wrapped], true, None)
      else Run([], true, exceptError)
  }
}
