/** .NET exceptions as values: the exception-chain helpers of the transport
    (`Unwrap`, `IsRequestAborted`) and the websocket-sharp error-argument
    conversion (`ToException`). */
module Exceptions {
  import opened Wrappers

  datatype WebExceptionStatus = RequestCanceled | ConnectFailure | OtherStatus

  /** The runtime type of an exception, as far as the transport inspects it. */
  datatype ExceptionKind =
    | General
    | InvalidOperation
    | OperationCanceled
    | TaskCanceled             // derives from OperationCanceledException
    | ObjectDisposed
    | Web(status: WebExceptionStatus)
    | Aggregate
    | NotImplemented
    | ArgumentNull(param: string)
    | Argument(param: string)
    | NullReference
    | Format

  /** An exception with its inner exceptions. Only an AggregateException holds
      more than one; `InnerException` is always the first of them. */
  datatype Exception = Exception(kind: ExceptionKind, message: string, inners: seq<Exception>)

  function Simple(kind: ExceptionKind, message: string): Exception {
    Exception(kind, message, [])
  }

  /** `e is OperationCanceledException`, which a TaskCanceledException also satisfies. */
  predicate IsOperationCanceled(e: Exception) {
    e.kind.OperationCanceled? || e.kind.TaskCanceled?
  }

  function InnerException(e: Exception): Option<Exception> {
    if |e.inners| == 0 then None else Some(e.inners[0])
  }

  /** Reference definition: the last exception reached by following
      `InnerException` links from `e`. */
  function ChainEnd(e: Exception): (r: Exception)
    ensures r.inners == []
  {
    if |e.inners| == 0 then e else ChainEnd(e.inners[0])
  }

  /** `x` is `e` or reachable from it through `InnerException` links. */
  predicate InChain(x: Exception, e: Exception) {
    x == e || (|e.inners| > 0 && InChain(x, e.inners[0]))
  }

  /** `AggregateException.GetBaseException`: descend while the current
      exception is an aggregate with exactly one inner exception. */
  function AggregateBase(e: Exception): (r: Exception)
    ensures InChain(r, e)
  {
    if e.kind.Aggregate? && |e.inners| == 1 then AggregateBase(e.inners[0]) else e
  }

  /** `Exception.GetBaseException`, with the override of AggregateException. */
  function GetBaseException(e: Exception): (r: Exception)
    ensures InChain(r, e)
  {
    if e.kind.Aggregate? then AggregateBase(e)
    else ChainEndIsInChain(e); ChainEnd(e)
  }

  lemma {:induction false} ChainEndIsInChain(e: Exception)
    ensures InChain(ChainEnd(e), e)
  {
    if |e.inners| > 0 {
      ChainEndIsInChain(e.inners[0]);
    }
  }

  /** Every exception on the chain of `e` ends the chain where `e` does. */
  lemma {:induction false} ChainEndOfMember(x: Exception, e: Exception)
    requires InChain(x, e)
    ensures ChainEnd(x) == ChainEnd(e)
  {
    if x != e {
      ChainEndOfMember(x, e.inners[0]);
    }
  }

  /** `Unwrap`: start at `GetBaseException()`, then follow `InnerException`
      until there is none. A null exception unwraps to null. The result is the
      end of the input's own inner chain, whatever `GetBaseException` skipped. */
  function Unwrap(ex: Option<Exception>): (r: Option<Exception>)
    ensures r.None? <==> ex.None?
    ensures r.Some? ==> InnerException(r.value).None?
    ensures r.Some? ==> r.value == ChainEnd(ex.value) && InChain(r.value, ex.value)
  {
    match ex
    case None => None
    case Some(e) =>
      var next := GetBaseException(e);
      ChainEndOfMember(next, e);
      ChainEndIsInChain(e);
      Some(ChainEnd(next))
  }

  /** The exception kinds that mean "the request was aborted"; the WebException
      case exists only in builds without NETSTANDARD. */
  predicate AbortKind(e: Exception, netStandard: bool) {
    || IsOperationCanceled(e)
    || e.kind.ObjectDisposed?
    || (!netStandard && e.kind == Web(RequestCanceled))
  }

  /** `ExceptionHelper.IsRequestAborted`: classifies the unwrapped exception. */
  function IsRequestAborted(ex: Option<Exception>, netStandard: bool): (r: bool)
    ensures r <==> ex.Some? && AbortKind(ChainEnd(ex.value), netStandard)
    ensures ex.None? ==> !r
  {
    var u := Unwrap(ex);
    if u.None? then false
    else if IsOperationCanceled(u.value) then true
    else if u.value.kind.ObjectDisposed? then true
    else !netStandard && u.value.kind == Web(RequestCanceled)
  }

  /** Wrapping an exception as the single inner exception of another one does
      not change whether it counts as an aborted request. */
  lemma {:induction false} AbortedThroughWrapper(outer: ExceptionKind, message: string, e: Exception, netStandard: bool)
    ensures IsRequestAborted(Some(Exception(outer, message, [e])), netStandard)
         == IsRequestAborted(Some(e), netStandard)
  {
    var w := Exception(outer, message, [e]);
    assert ChainEnd(w) == ChainEnd(e);
  }

  /** websocket-sharp's ErrorEventArgs: a message and an optional exception. */
  datatype ErrorEventArgs = ErrorEventArgs(message: string, exception: Option<Exception>)

  /** `ToException`: the carried exception if any, otherwise a new plain
      exception with the event's message. */
  function ToException(args: ErrorEventArgs): (r: Exception)
    ensures args.exception.Some? ==> r == args.exception.value
    ensures args.exception.None? ==> r.kind == General && r.message == args.message && r.inners == []
  {
    match args.exception
    case Some(e) => e
    case None => Simple(General, args.message)
  }

  /** The message is ignored whenever an exception is present. */
  lemma MessageIgnoredWithException(m1: string, m2: string, e: Exception)
    ensures ToException(ErrorEventArgs(m1, Some(e))) == ToException(ErrorEventArgs(m2, Some(e)))
  {
  }
}
