/**
 * The result envelope and its exception wrapper (txprocesspool/processpool.py:7-52).
 *
 * A worker sends either the raw value its callable returned or an
 * ExceptionWrapper around the error it raised. The wrapper pickles itself as
 * "call a top-level rebuilder bound to the error's constructor with the
 * error's positional and keyword arguments"; unpickling runs that call and
 * gets back a wrapper around an equal error.
 */
module Envelope {
  import opened Wrappers

  /** Where an error class sits in Python's exception hierarchy, as far as this core can tell. */
  datatype Kind =
    | BaseOnly        // derives from BaseException but not from Exception (SystemExit, KeyboardInterrupt)
    | Ordinary        // an Exception subclass that is not a ProcessPollError
    | PollErrorKind   // ProcessPollError or one of its subclasses

  /** An error class: what `ctor(*args, **kwargs)` calls. */
  datatype Ctor = Ctor(name: string, kind: Kind)

  /** The picklable values a callable may return or an error may carry. */
  datatype Value =
    | NoneV
    | BoolV(b: bool)
    | IntV(i: int)
    | StrV(s: string)
    | TupleV(items: seq<Value>)

  type Kwargs = map<string, Value>

  /** An error object, as its constructor built it. */
  datatype Exc = Exc(ctor: Ctor, args: seq<Value>, kwargs: Kwargs)

  /** Caught by `except Exception`. */
  predicate IsException(e: Exc) {
    e.ctor.kind != BaseOnly
  }

  /** Matched by `failure.check(ProcessPollError)`. */
  predicate IsPollError(e: Exc) {
    e.ctor.kind == PollErrorKind
  }

  const ProcessPollError: Ctor := Ctor("ProcessPollError", PollErrorKind)

  const NotReadyMessage: string := "Process didn't returned result"

  /** `ctor(*args, **kwargs)`: the constructor keeps its arguments. */
  function Construct(ctor: Ctor, args: seq<Value>, kwargs: Kwargs): Exc {
    Exc(ctor, args, kwargs)
  }

  /** The error a check on an empty channel fails with. */
  function NotReady(): (e: Exc)
    ensures IsPollError(e) && IsException(e)
    ensures e.args == [StrV(NotReadyMessage)] && e.kwargs == map[]
  {
    Construct(ProcessPollError, [StrV(NotReadyMessage)], map[])
  }

  /**
   * What an error's own `__reduce__` returns: `(ctor, args)` or
   * `(ctor, args, kwargs)`; `kwargs` is None for the two-element form.
   */
  datatype Reduction = Reduction(ctor: Ctor, args: seq<Value>, kwargs: Option<Kwargs>)

  /**
   * An error's own reduction: the two-element form exactly when it carries no
   * keyword state, and in both forms enough to construct it again.
   */
  function Reduce(e: Exc): (r: Reduction)
    ensures r.ctor == e.ctor && r.args == e.args
    ensures r.kwargs.None? <==> e.kwargs == map[]
    ensures Construct(r.ctor, r.args, KwargsOrEmpty(r.kwargs)) == e
  {
    if e.kwargs == map[] then Reduction(e.ctor, e.args, None)
    else Reduction(e.ctor, e.args, Some(e.kwargs))
  }

  /** The keyword arguments of a reduction; an empty mapping for the two-element form. */
  function KwargsOrEmpty(kwargs: Option<Kwargs>): Kwargs {
    match kwargs
    case Some(kw) => kw
    case None => map[]
  }

  datatype ExceptionWrapper = ExceptionWrapper(ex: Exc)

  /** `_ExceptionWrapperRebuilder(inner_obj)`: a top-level callable bound to one error constructor. */
  datatype Rebuilder = Rebuilder(innerObj: Ctor)

  /** `(wrapper_func, (ex_args, ex_kwargs))`, the wrapper's own reduction. */
  datatype WrapperReduction = WrapperReduction(func: Rebuilder, exArgs: seq<Value>, exKwargs: Kwargs)

  /** `_ExceptionWrapperRebuilder.__call__(ex_args, ex_kwargs)`: build the error again and wrap it. */
  function CallRebuilder(rb: Rebuilder, nonkwargs: seq<Value>, kwargs: Kwargs): (w: ExceptionWrapper)
    ensures w.ex.ctor == rb.innerObj && w.ex.args == nonkwargs && w.ex.kwargs == kwargs
  {
    ExceptionWrapper(Construct(rb.innerObj, nonkwargs, kwargs))
  }

  /**
   * What unpickling a wrapper's reduction does: call `func` with the argument
   * pair, which gives a wrapper around an error of the bound constructor
   * holding exactly those arguments.
   */
  function Rebuild(wr: WrapperReduction): (w: ExceptionWrapper)
    ensures w.ex == Construct(wr.func.innerObj, wr.exArgs, wr.exKwargs)
  {
    CallRebuilder(wr.func, wr.exArgs, wr.exKwargs)
  }

  /**
   * `ExceptionWrapper.__reduce__` once the inner error has reduced to `r`:
   * the rebuilder is bound to `r`'s constructor, the keyword arguments default
   * to an empty mapping, and rebuilding yields a wrapper around
   * `ctor(*args, **kwargs)`.
   */
  function ReduceFrom(r: Reduction): (wr: WrapperReduction)
    ensures wr.func == Rebuilder(r.ctor) && wr.exArgs == r.args
    ensures wr.exKwargs == KwargsOrEmpty(r.kwargs)
    ensures Rebuild(wr) == ExceptionWrapper(Construct(r.ctor, r.args, KwargsOrEmpty(r.kwargs)))
  {
    if r.kwargs.Some? then  // the three-element form
      WrapperReduction(Rebuilder(r.ctor), r.args, r.kwargs.value)
    else
      WrapperReduction(Rebuilder(r.ctor), r.args, map[])
  }

  /** `ExceptionWrapper.__reduce__`: rebuilding its reduction gives back the same wrapper. */
  function WrapperReduce(w: ExceptionWrapper): (wr: WrapperReduction)
    ensures wr.func == Rebuilder(w.ex.ctor)
    ensures Rebuild(wr) == w
  {
    ReduceFrom(Reduce(w.ex))
  }

  /** The single value a worker writes into its channel. */
  datatype Envelope = Raw(v: Value) | Wrapped(w: ExceptionWrapper)

  /** An envelope as pickle writes it: a plain value, or a wrapper's reduction. */
  datatype Pickled = PickledRaw(v: Value) | PickledWrapper(wr: WrapperReduction)

  /** Crossing the process boundary loses nothing: unpickling gives back the envelope. */
  function Pickle(env: Envelope): (p: Pickled)
    ensures p.PickledWrapper? <==> env.Wrapped?
    ensures Unpickle(p) == env
  {
    match env
    case Raw(v) => PickledRaw(v)
    case Wrapped(w) => PickledWrapper(WrapperReduce(w))
  }

  /** Unpickling an envelope: a plain value comes back as itself, a wrapper reduction as the rebuilt wrapper. */
  function Unpickle(p: Pickled): (env: Envelope)
    ensures p.PickledRaw? ==> env == Raw(p.v)
    ensures p.PickledWrapper? ==> env.Wrapped? && env.w.ex.ctor == p.wr.func.innerObj
  {
    match p
    case PickledRaw(v) => Raw(v)
    case PickledWrapper(wr) => Wrapped(Rebuild(wr))
  }

  /** The two-element reduction `(ctor, args)`: keyword arguments default to `{}` and the round trip holds. */
  lemma TwoElementReduction(ctor: Ctor, args: seq<Value>)
    ensures ReduceFrom(Reduction(ctor, args, None)) == WrapperReduction(Rebuilder(ctor), args, map[])
    ensures Rebuild(ReduceFrom(Reduction(ctor, args, None))) == ExceptionWrapper(Construct(ctor, args, map[]))
  {
  }

  /** The three-element reduction `(ctor, args, kwargs)`: the rebuilder gets exactly those parts. */
  lemma ThreeElementReduction(ctor: Ctor, args: seq<Value>, kwargs: Kwargs)
    ensures ReduceFrom(Reduction(ctor, args, Some(kwargs))) == WrapperReduction(Rebuilder(ctor), args, kwargs)
    ensures Rebuild(ReduceFrom(Reduction(ctor, args, Some(kwargs)))) == ExceptionWrapper(Construct(ctor, args, kwargs))
  {
  }

  /** Reducing a rebuilt wrapper gives back the reduction it was rebuilt from. */
  lemma RebuildThenReduce(wr: WrapperReduction)
    ensures WrapperReduce(Rebuild(wr)) == wr
  {
  }

  /** Pickling an unpickled envelope gives back what was unpickled: the two are inverse both ways. */
  lemma UnpickleThenPickle(p: Pickled)
    ensures Pickle(Unpickle(p)) == p
  {
    if p.PickledWrapper? {
      RebuildThenReduce(p.wr);
    }
  }
}
