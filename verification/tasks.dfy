/** Task completion as the transport uses it: `TaskCompletionSource` state
    changes, the faulted-task helpers `SetUnwrappedException` and `FromError`,
    and what an `await` of a finished task throws. */
module Tasks {
  import opened Wrappers
  import opened Exceptions

  datatype TaskStatus = Pending | RanToCompletion | Faulted(exceptions: seq<Exception>) | Canceled {

    predicate IsCompleted() {
      !Pending?
    }

    /** A faulted task always carries at least one exception. */
    predicate Valid() {
      Faulted? ==> |exceptions| > 0
    }
  }

  /** The status a completion-source call leaves behind, and the exception the
      call itself throws (None when it returns normally). */
  datatype Completion = Completion(status: TaskStatus, thrown: Option<Exception>)

  const AlreadyCompleted: Exception :=
    Simple(InvalidOperation, "An attempt was made to transition a task to a final state when it had already completed.")

  /** `TrySetResult` / `TrySetException` / `TrySetCanceled` share one shape:
      a pending task takes `target`, a completed one is left alone. The boolean
      is the value the Try call returns. */
  function TryComplete(s: TaskStatus, target: TaskStatus): (r: (TaskStatus, bool))
    requires target.IsCompleted()
    ensures r.1 <==> s.Pending?
    ensures r.0 == (if s.Pending? then target else s)
  {
    if s.Pending? then (target, true) else (s, false)
  }

  /** `SetResult` / `SetException`: like the Try form, but a task that has
      already completed makes the call throw InvalidOperationException. */
  function Complete(s: TaskStatus, target: TaskStatus): (c: Completion)
    requires target.IsCompleted()
    ensures c.thrown.None? <==> s.Pending?
    ensures s.Pending? ==> c == Completion(target, None)
    ensures c.thrown.Some? ==> c.thrown.value.kind == InvalidOperation && c.status == s
    ensures c.status.IsCompleted()
  {
    var (status, ok) := TryComplete(s, target);
    Completion(status, if ok then None else Some(AlreadyCompleted))
  }

  function SetResult(s: TaskStatus): Completion {
    Complete(s, RanToCompletion)
  }

  /** `SetException(IEnumerable<Exception>)`: an empty collection is rejected
      with ArgumentException before the task is looked at. */
  function SetExceptions(s: TaskStatus, es: seq<Exception>): (c: Completion)
    ensures |es| == 0 ==> c.status == s && c.thrown == Some(Simple(Argument("exceptions"), "The exceptions collection was empty."))
    ensures |es| > 0 && s.Pending? ==> c == Completion(Faulted(es), None)
  {
    if |es| == 0 then Completion(s, Some(Simple(Argument("exceptions"), "The exceptions collection was empty.")))
    else Complete(s, Faulted(es))
  }

  /** `SetUnwrappedException`: an AggregateException contributes its inner
      exceptions, any other exception itself; a null exception is rejected
      with ArgumentNullException by `SetException`. */
  function SetUnwrappedException(s: TaskStatus, e: Option<Exception>): (c: Completion)
    ensures e.None? ==> c.status == s && c.thrown == Some(Simple(ArgumentNull("exception"), "Value cannot be null."))
    ensures e.Some? && s.Pending? && !e.value.kind.Aggregate? ==> c == Completion(Faulted([e.value]), None)
    ensures e.Some? && s.Pending? && e.value.kind.Aggregate? && |e.value.inners| > 0 ==>
      c == Completion(Faulted(e.value.inners), None)
    ensures e.Some? && e.value.kind.Aggregate? && |e.value.inners| == 0 ==>
      c.status == s && c.thrown.Some? && c.thrown.value.kind == Argument("exceptions")
    ensures e.Some? && !s.Pending? && !(e.value.kind.Aggregate? && |e.value.inners| == 0) ==>
      c == Completion(s, Some(AlreadyCompleted))
  {
    match e
    case None => Completion(s, Some(Simple(ArgumentNull("exception"), "Value cannot be null.")))
    case Some(x) =>
      if x.kind.Aggregate? then SetExceptions(s, x.inners) else SetExceptions(s, [x])
  }

  /** `FromError<T>` (and `FromError`, which is `FromError<object>`): a fresh
      completion source given the exception by `SetUnwrappedException`.
      The result is a faulted task unless the argument is null or an
      AggregateException with no inner exceptions, in which case the helper
      itself throws. */
  function FromError(e: Option<Exception>): (r: Result<TaskStatus, Exception>)
    ensures r.Success? ==> r.value.Faulted? && r.value.Valid()
    ensures r.Failure? <==> e.None? || (e.value.kind.Aggregate? && |e.value.inners| == 0)
    ensures e.Some? && e.value.kind.Aggregate? && |e.value.inners| > 0 ==> r == Success(Faulted(e.value.inners))
    ensures e.Some? && !e.value.kind.Aggregate? ==> r == Success(Faulted([e.value]))
    ensures e.None? ==> r.Failure? && r.error.kind == ArgumentNull("exception")
  {
    var c := SetUnwrappedException(Pending, e);
    match c.thrown
    case Some(x) => Failure(x)
    case None => Success(c.status)
  }

  /** What `await` on a finished task throws: nothing on success, the first
      exception of a faulted task, TaskCanceledException for a cancelled one. */
  function AwaitThrows(s: TaskStatus): (r: Option<Exception>)
    requires s.IsCompleted() && s.Valid()
    ensures r.None? <==> s.RanToCompletion?
    ensures s.Canceled? ==> r.Some? && IsOperationCanceled(r.value)
    ensures s.Faulted? ==> r == Some(s.exceptions[0])
  {
    match s
    case RanToCompletion => None
    case Faulted(es) => Some(es[0])
    case Canceled => Some(Simple(TaskCanceled, "A task was canceled."))
  }

  /** A task leaves Pending at most once: once completed, no completion call
      changes it, whether or not it throws. */
  lemma CompletedTaskIsFinal(s: TaskStatus, target: TaskStatus, es: seq<Exception>)
    requires s.IsCompleted() && target.IsCompleted()
    ensures TryComplete(s, target).0 == s
    ensures Complete(s, target).status == s
    ensures SetExceptions(s, es).status == s
  {
  }
}
