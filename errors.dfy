/** The error values of the shim and of the mock driver, with the unwrap-to-cause
    relation that callers use to test error identity (`errors.Cause(err) == errOpen`). */
module Errors {
  import opened Wrappers

  datatype Error =
    /** An error value created directly (`errors.New`, a driver's own error). */
    | Plain(message: string)
    /** The target table of a statement cannot be resolved to any shard. */
    | UnknownTable
    /** A Tx already bound to one shard was asked to work on another. */
    | CrossShardAccess
    /** A statement re-bound from a nil or unprepared source was executed. */
    | InvalidStatement
    /** A transaction was begun on a database handle that `Open` did not create. */
    | NotOpened
    /** An error wrapped with an extra message (`errors.Wrap`). */
    | Wrapped(message: string, inner: Error)
    /** An error wrapped with a stack trace only (`errors.WithStack`). */
    | WithStack(inner: Error)
  {
    /** True for the errors that wrap another one. */
    predicate IsWrapper() {
      Wrapped? || WithStack?
    }
  }

  /** `io.EOF`, the end-of-data signal of a row cursor. */
  const EOF: Error := Plain("EOF")

  /** The error every connection attempt returns in the error configuration of the tests. */
  const OpenError: Error := Plain("open error")

  /** Number of wrappers around the root cause. */
  function Depth(e: Error): nat {
    match e
    case Wrapped(_, inner) => 1 + Depth(inner)
    case WithStack(inner) => 1 + Depth(inner)
    case _ => 0
  }

  /** `errors.Cause`: strip every wrapper and return the innermost error. */
  function Cause(e: Error): (c: Error)
    ensures !c.IsWrapper()
    ensures Depth(c) == 0
    ensures !e.IsWrapper() ==> c == e
    decreases e
  {
    match e
    case Wrapped(_, inner) => Cause(inner)
    case WithStack(inner) => Cause(inner)
    case _ => e
  }

  /** Wrap `e` once per layer, innermost first: a layer with a message is
      `errors.Wrap`, one without is `errors.WithStack`. */
  function WrapAll(e: Error, layers: seq<Option<string>>): (w: Error)
    ensures Depth(w) == Depth(e) + |layers|
    decreases |layers|
  {
    if layers == [] then e
    else
      var inner := WrapAll(e, layers[..|layers| - 1]);
      match layers[|layers| - 1]
      case Some(message) => Wrapped(message, inner)
      case None => WithStack(inner)
  }

  /** However many layers of either kind are added around an error, its cause stays the same. */
  lemma {:induction false} CauseOfWrapAll(e: Error, layers: seq<Option<string>>)
    ensures Cause(WrapAll(e, layers)) == Cause(e)
    decreases |layers|
  {
    if layers != [] {
      CauseOfWrapAll(e, layers[..|layers| - 1]);
    }
  }

  /** Taking the cause twice changes nothing. */
  lemma CauseIdempotent(e: Error)
    ensures Cause(Cause(e)) == Cause(e)
  {
  }

  /** An error that is its own cause is not a wrapper, and conversely. */
  lemma {:induction false} CauseFixedPoint(e: Error)
    ensures Cause(e) == e <==> !e.IsWrapper()
  {
    if e.IsWrapper() {
      assert Depth(Cause(e)) == 0 < Depth(e);
    }
  }
}
