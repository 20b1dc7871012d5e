/**
 * Go's `error` values as the dispatcher uses them: nil or non-nil, the two
 * sentinel errors of the router package, wrapping (as `errors.WithStack` and
 * `errors.Wrap` do) and `errors.Is`, which walks down the chain of causes.
 */
module Errors {

  /** The router package's sentinel errors `ErrTimeout` and `ErrRouteClosed`. */
  datatype Sentinel = ErrTimeout | ErrRouteClosed

  /** A non-nil error. */
  datatype Error =
    | SentinelError(kind: Sentinel)
      /** An error that is neither sentinel nor a wrapper, told apart by a number. */
    | Opaque(code: nat)
      /** An error that adds context to its cause; unwrapping yields the cause. */
    | Wrapped(context: string, cause: Error)

  /** A value of Go's `error` interface type. */
  datatype MaybeError = Nil | Err(error: Error)

  /** The innermost cause of an error chain. */
  function Root(e: Error): (r: Error)
    ensures !r.Wrapped?
  {
    match e
    case Wrapped(_, cause) => Root(cause)
    case _ => e
  }

  /** Walks the chain of causes of `e` looking for the sentinel `target`. */
  function Matches(e: Error, target: Sentinel): (b: bool)
  {
    match e
    case SentinelError(kind) => kind == target
    case Opaque(_) => false
    case Wrapped(_, cause) => Matches(cause, target)
  }

  /** `errors.Is(err, target)`: false for nil, otherwise true when some error of the chain is `target`. */
  function Is(err: MaybeError, target: Sentinel): (b: bool)
    ensures b ==> err.Err? && Root(err.error) == SentinelError(target)
    ensures err.Err? && Root(err.error) == SentinelError(target) ==> b
  {
    if err.Nil? then false
    else
      MatchesIffRoot(err.error, target);
      Matches(err.error, target)
  }

  /** Whether a chain matches a sentinel is decided by its innermost cause alone. */
  lemma {:induction false} MatchesIffRoot(e: Error, target: Sentinel)
    ensures Matches(e, target) <==> Root(e) == SentinelError(target)
  {
    match e
    case Wrapped(_, cause) => MatchesIffRoot(cause, target);
    case _ =>
  }

  /** No error is both a timeout and a closed route. */
  lemma SentinelsExclusive(err: MaybeError)
    ensures !(Is(err, ErrTimeout) && Is(err, ErrRouteClosed))
  {
  }
}
