/** The connect handshake of `PerformConnect(url)`: a completion source
    resolved by one-shot open/error handlers, plus (in the transport package)
    a cancellation registration on the linked token. */
module Handshake {
  import opened Wrappers
  import opened Exceptions
  import opened Tasks
  import opened Connection
  import SharpRequest

  /** What the socket and the token do after `ConnectAsync` is called.
      `CancelRequested` stands for the linked token firing: the disconnect
      token, `LostConnection` or `Dispose` cancelling the token source. */
  datatype SocketEvent = Opened | Errored(args: ErrorEventArgs) | CancelRequested

  /** `attached`: the one-shot handlers are still subscribed.
      `completions`: how many one-shot handler bodies ran.
      `reported`: errors the transport's permanent OnError handler passed to
      `connection.OnError`.
      `handlerFaults`: exceptions thrown inside the one-shot handlers. */
  datatype State = State(
    attached: bool,
    task: TaskStatus,
    completions: nat,
    reported: seq<Exception>,
    handlerFaults: seq<Exception>)

  const Start: State := State(true, Pending, 0, [], [])

  /** Settles the completion source: `SetResult`/`SetException` as written,
      or their Try forms when `useTry` holds (the correction). */
  function Settle(st: State, target: TaskStatus, useTry: bool): (r: State)
    requires target.IsCompleted()
    ensures r.task == (if st.task.Pending? then target else st.task)
    ensures useTry ==> r.handlerFaults == st.handlerFaults
  {
    if useTry then st.(task := TryComplete(st.task, target).0)
    else
      var c := Complete(st.task, target);
      st.(task := c.status, handlerFaults := st.handlerFaults + (if c.thrown.Some? then [c.thrown.value] else []))
  }

  /** One event. The permanent OnError handler (subscribed first) reports
      every error; the one-shot handlers detach both of themselves before
      settling the task; the cancellation callback only tries to cancel and
      exists only when `cancellable`. */
  function Step(st: State, ev: SocketEvent, cancellable: bool, useTry: bool): State {
    match ev
    case Opened =>
      if st.attached then Settle(st.(attached := false, completions := st.completions + 1), RanToCompletion, useTry)
      else st
    case Errored(a) =>
      var st1 := st.(reported := st.reported + [ToException(a)]);
      if st.attached then Settle(st1.(attached := false, completions := st.completions + 1), Faulted([ToException(a)]), useTry)
      else st1
    case CancelRequested =>
      if cancellable then st.(task := TryComplete(st.task, Canceled).0) else st
  }

  function RunFrom(st: State, events: seq<SocketEvent>, cancellable: bool, useTry: bool): State
    decreases |events|
  {
    if |events| == 0 then st else RunFrom(Step(st, events[0], cancellable, useTry), events[1..], cancellable, useTry)
  }

  /** The handshake from subscription onwards. */
  function Run(events: seq<SocketEvent>, cancellable: bool, useTry: bool): State {
    RunFrom(Start, events, cancellable, useTry)
  }

  /** Reference definition: the task takes the outcome of the first event
      that can settle it. */
  function Decide(events: seq<SocketEvent>, cancellable: bool): (r: TaskStatus)
    ensures r.Valid()
  {
    if |events| == 0 then Pending
    else match events[0]
      case Opened => RanToCompletion
      case Errored(a) => Faulted([ToException(a)])
      case CancelRequested => if cancellable then Canceled else Decide(events[1..], cancellable)
  }

  /** Errors reported by the permanent handler: one per error event, in order. */
  function ErrorsOf(events: seq<SocketEvent>): seq<Exception> {
    if |events| == 0 then []
    else (if events[0].Errored? then [ToException(events[0].args)] else []) + ErrorsOf(events[1..])
  }

  /** Handlers still attached means no one-shot handler has run; detached
      means exactly one ran and the task is settled. */
  predicate Consistent(st: State) {
    && (st.attached ==> st.completions == 0 && (st.task.Pending? || st.task.Canceled?))
    && (!st.attached ==> st.completions == 1 && st.task.IsCompleted())
  }

  lemma {:induction false} SettledTaskIsFinal(st: State, events: seq<SocketEvent>, cancellable: bool, useTry: bool)
    requires st.task.IsCompleted()
    ensures RunFrom(st, events, cancellable, useTry).task == st.task
    decreases |events|
  {
    if |events| > 0 {
      SettledTaskIsFinal(Step(st, events[0], cancellable, useTry), events[1..], cancellable, useTry);
    }
  }

  lemma {:induction false} RunFromDecides(st: State, events: seq<SocketEvent>, cancellable: bool, useTry: bool)
    requires st.attached && st.task.Pending?
    ensures RunFrom(st, events, cancellable, useTry).task == Decide(events, cancellable)
    decreases |events|
  {
    if |events| > 0 {
      var next := Step(st, events[0], cancellable, useTry);
      if next.task.IsCompleted() {
        SettledTaskIsFinal(next, events[1..], cancellable, useTry);
      } else {
        RunFromDecides(next, events[1..], cancellable, useTry);
      }
    }
  }

  lemma {:induction false} RunFromKeepsConsistent(st: State, events: seq<SocketEvent>, cancellable: bool, useTry: bool)
    requires Consistent(st)
    ensures Consistent(RunFrom(st, events, cancellable, useTry))
    ensures RunFrom(st, events, cancellable, useTry).reported == st.reported + ErrorsOf(events)
    decreases |events|
  {
    if |events| > 0 {
      var next := Step(st, events[0], cancellable, useTry);
      RunFromKeepsConsistent(next, events[1..], cancellable, useTry);
    }
  }

  /** The connect task settles exactly as the first settling event says,
      whether the handlers use Set or TrySet; at most one one-shot handler
      body runs, and every error event is reported once, in order. */
  lemma RunDecides(events: seq<SocketEvent>, cancellable: bool, useTry: bool)
    ensures Run(events, cancellable, useTry).task == Decide(events, cancellable)
    ensures Run(events, cancellable, useTry).completions <= 1
    ensures Run(events, cancellable, useTry).reported == ErrorsOf(events)
  {
    RunFromDecides(Start, events, cancellable, useTry);
    RunFromKeepsConsistent(Start, events, cancellable, useTry);
  }

  lemma {:induction false} DetachedKeepsFaults(st: State, events: seq<SocketEvent>, cancellable: bool, useTry: bool)
    requires !st.attached
    ensures RunFrom(st, events, cancellable, useTry).handlerFaults == st.handlerFaults
    decreases |events|
  {
    if |events| > 0 {
      DetachedKeepsFaults(Step(st, events[0], cancellable, useTry), events[1..], cancellable, useTry);
    }
  }

  /** Cancelling the handshake before the socket opens or fails leaves the
      one-shot handlers subscribed; the next open (or error) then calls
      `SetResult` (or `SetException`) on a cancelled completion source, which
      throws InvalidOperationException inside the socket's event handler,
      whatever happens afterwards. */
  lemma CancelThenOpenFaultsHandler(ev: SocketEvent, rest: seq<SocketEvent>)
    requires ev.Opened? || ev.Errored?
    ensures Run([CancelRequested, ev] + rest, true, false).task == Canceled
    ensures Run([CancelRequested, ev] + rest, true, false).handlerFaults == [AlreadyCompleted]
  {
    var events := [CancelRequested, ev] + rest;
    var st0 := Step(Start, CancelRequested, true, false);
    var st := Step(st0, ev, true, false);
    assert events[0] == CancelRequested && events[1..][0] == ev && events[1..][1..] == rest;
    assert Run(events, true, false) == RunFrom(st0, events[1..], true, false);
    assert RunFrom(st0, events[1..], true, false) == RunFrom(st, rest, true, false);
    assert st.task == Canceled && st.handlerFaults == [AlreadyCompleted] && !st.attached;
    SettledTaskIsFinal(st, rest, true, false);
    DetachedKeepsFaults(st, rest, true, false);
  }

  lemma {:induction false} TrySetNeverFaultsFrom(st: State, events: seq<SocketEvent>, cancellable: bool)
    ensures RunFrom(st, events, cancellable, true).handlerFaults == st.handlerFaults
    decreases |events|
  {
    if |events| > 0 {
      TrySetNeverFaultsFrom(Step(st, events[0], cancellable, true), events[1..], cancellable);
    }
  }

  /** With `TrySetResult`/`TrySetException` in the one-shot handlers no
      handler ever throws, and the task settles exactly as in the code as
      written. */
  lemma TrySetNeverFaults(events: seq<SocketEvent>, cancellable: bool)
    ensures Run(events, cancellable, true).handlerFaults == []
    ensures Run(events, cancellable, true).task == Run(events, cancellable, false).task
  {
    TrySetNeverFaultsFrom(Start, events, cancellable);
    RunDecides(events, cancellable, true);
    RunDecides(events, cancellable, false);
  }

  lemma {:induction false} UncancellableNeverFaultsFrom(st: State, events: seq<SocketEvent>)
    requires Consistent(st) && st.handlerFaults == [] && (st.attached ==> st.task.Pending?)
    ensures RunFrom(st, events, false, false).handlerFaults == []
    decreases |events|
  {
    if |events| > 0 {
      UncancellableNeverFaultsFrom(Step(st, events[0], false, false), events[1..]);
    }
  }

  /** Without the cancellation registration (the test program's copy) the
      one-shot handlers never throw even as written. */
  lemma UncancellableNeverFaults(events: seq<SocketEvent>)
    ensures Run(events, false, false).handlerFaults == []
  {
    UncancellableNeverFaultsFrom(Start, events);
  }

  /** How an `await` of `PerformConnect(url)` ends. */
  datatype ConnectResult = Connected | Threw(error: Exception) | NeverCompletes

  /** The socket `new WebSocket(url)` creates: no custom headers yet. */
  const FreshSocket: SharpRequest.Socket := SharpRequest.Socket(None, None, [])

  /** `PerformConnect(url)` as awaited by its callers: constructing the request
      wrapper can throw synchronously (a connection with credentials does);
      otherwise the handshake task decides. Uses the TrySet correction, which
      settles every task as the code as written does. */
  function PerformConnect(conn: Conn, events: seq<SocketEvent>, cancellable: bool): (r: ConnectResult)
    ensures conn.credentials.Some? ==> r.Threw? && r.error.kind == NotImplemented
    ensures conn.credentials.None? ==> (r.Connected? <==> Decide(events, cancellable).RanToCompletion?)
    ensures conn.credentials.None? ==> (r.NeverCompletes? <==> Decide(events, cancellable).Pending?)
    ensures conn.credentials.None? && Decide(events, cancellable).Canceled? ==> r.Threw? && IsOperationCanceled(r.error)
    ensures conn.credentials.None? && Decide(events, cancellable).Faulted? ==> r == Threw(Decide(events, cancellable).exceptions[0])
  {
    match SharpRequest.Construct(Some(FreshSocket), Some(conn))
    case Failure(e) => Threw(e)
    case Success(_) =>
      var t := Run(events, cancellable, true).task;
      RunDecides(events, cancellable, true);
      if t.Pending? then NeverCompletes
      else match AwaitThrows(t)
        case None => Connected
        case Some(e) => Threw(e)
  }
}
