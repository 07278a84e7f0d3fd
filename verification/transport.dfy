/** The transport's event-driven decisions: `Send`, inbound frame dispatch,
    `OnOpen`, `OnClose`, the `OnStart` continuation and `Dispose`. Two copies
    exist: the transport package's `WebSocketSharpTransport` and the test
    program's `WebSocketTransportEx`. */
module Transport {
  import opened Wrappers
  import opened Exceptions
  import opened Tasks
  import opened Handshake
  import SharpRequest

  type Variant = SharpRequest.Variant

  /** websocket-sharp's `WebSocketState`. */
  datatype ReadyState = SocketConnecting | SocketOpen | SocketClosing | SocketClosed

  /** What the socket does during a send: raise its error event, or call the
      completion callback of `SendAsync` with whether the data went out. The
      test program sends synchronously with `Send(data)`; there only the
      error events play a part, and its permanent OnError handler reports
      each of them. */
  datatype SendEvent = SendError(args: ErrorEventArgs) | SendCompleted(sent: bool)

  /** `Send` either throws, or returns a task; `reported` are the exceptions
      passed to `connection.OnError`, `transmitted` the data handed to the
      socket, `handlerFaults` exceptions thrown inside the send handlers. */
  datatype SendResult =
    | SendThrew(error: Exception)
    | SendReturned(task: TaskStatus, reported: seq<Exception>, transmitted: seq<string>, handlerFaults: seq<Exception>)

  function NotOpenMessage(variant: Variant): string {
    match variant
    case TransportPackage => "Data can not be sent during WebSocket reconnect."
    case BittrexTest => "Error_DataCannotBeSentDuringWebSocketReconnect"
  }

  /** State of an open-socket send in the transport package: whether the
      one-shot error handler is still attached, the task, reported errors and
      handler faults. */
  datatype SendState = SendState(attached: bool, task: TaskStatus, reported: seq<Exception>, handlerFaults: seq<Exception>)

  function Faults(c: Completion): seq<Exception> {
    if c.thrown.Some? then [c.thrown.value] else []
  }

  /** One socket event during a send. The permanent OnError handler reports
      every error; the one-shot error handler faults the task; the completion
      callback detaches the error handler and completes the task only when
      the data was sent. */
  function SendStep(st: SendState, ev: SendEvent): SendState {
    match ev
    case SendError(a) =>
      var st1 := st.(reported := st.reported + [ToException(a)]);
      if st.attached then
        var c := Complete(st.task, Faulted([ToException(a)]));
        st1.(attached := false, task := c.status, handlerFaults := st.handlerFaults + Faults(c))
      else st1
    case SendCompleted(sent) =>
      if sent then
        var c := Complete(st.task, RanToCompletion);
        st.(attached := false, task := c.status, handlerFaults := st.handlerFaults + Faults(c))
      else st.(attached := false)
  }

  function SendRun(st: SendState, events: seq<SendEvent>): SendState
    decreases |events|
  {
    if |events| == 0 then st else SendRun(SendStep(st, events[0]), events[1..])
  }

  /** Some completion callback reported the data as sent. */
  predicate SomeSent(events: seq<SendEvent>) {
    exists i :: 0 <= i < |events| && events[i] == SendCompleted(true)
  }

  /** Reference definition of the send task: faulted by an error that comes
      before any completion callback, completed once a callback reports the
      data sent, pending otherwise. */
  function SendDecide(events: seq<SendEvent>): TaskStatus {
    if |events| > 0 && events[0].SendError? then Faulted([ToException(events[0].args)])
    else if SomeSent(events) then RanToCompletion
    else Pending
  }

  function SendErrorsOf(events: seq<SendEvent>): seq<Exception> {
    if |events| == 0 then []
    else (if events[0].SendError? then [ToException(events[0].args)] else []) + SendErrorsOf(events[1..])
  }

  lemma {:induction false} SendSettledIsFinal(st: SendState, events: seq<SendEvent>)
    requires st.task.IsCompleted()
    ensures SendRun(st, events).task == st.task
    decreases |events|
  {
    if |events| > 0 {
      SendSettledIsFinal(SendStep(st, events[0]), events[1..]);
    }
  }

  lemma {:induction false} SendDetachedDecides(st: SendState, events: seq<SendEvent>)
    requires !st.attached && st.task.Pending?
    ensures SendRun(st, events).task == if SomeSent(events) then RanToCompletion else Pending
    decreases |events|
  {
    if |events| > 0 {
      var next := SendStep(st, events[0]);
      if events[0] == SendCompleted(true) {
        SendSettledIsFinal(next, events[1..]);
      } else {
        SendDetachedDecides(next, events[1..]);
        assert SomeSent(events) <==> SomeSent(events[1..]) by {
          if SomeSent(events) {
            var i :| 0 <= i < |events| && events[i] == SendCompleted(true);
            assert events[1..][i - 1] == events[i];
          }
          if SomeSent(events[1..]) {
            var i :| 0 <= i < |events[1..]| && events[1..][i] == SendCompleted(true);
            assert events[i + 1] == events[1..][i];
          }
        }
      }
    }
  }

  lemma {:induction false} SendReportsEveryError(st: SendState, events: seq<SendEvent>)
    ensures SendRun(st, events).reported == st.reported + SendErrorsOf(events)
    decreases |events|
  {
    if |events| > 0 {
      SendReportsEveryError(SendStep(st, events[0]), events[1..]);
    }
  }

  /** The open-socket send of the transport package settles as `SendDecide`
      says and reports every socket error, in order. */
  lemma SendOpenSettles(events: seq<SendEvent>)
    ensures SendRun(SendState(true, Pending, [], []), events).task == SendDecide(events)
    ensures SendRun(SendState(true, Pending, [], []), events).reported == SendErrorsOf(events)
  {
    var st := SendState(true, Pending, [], []);
    SendReportsEveryError(st, events);
    if |events| > 0 {
      var next := SendStep(st, events[0]);
      match events[0]
      case SendError(_) =>
        SendSettledIsFinal(next, events[1..]);
      case SendCompleted(sent) =>
        if sent {
          SendSettledIsFinal(next, events[1..]);
        } else {
          SendDetachedDecides(next, events[1..]);
          assert SomeSent(events) <==> SomeSent(events[1..]) by {
            if SomeSent(events) {
              var i :| 0 <= i < |events| && events[i] == SendCompleted(true);
              assert events[1..][i - 1] == events[i];
            }
            if SomeSent(events[1..]) {
              var i :| 0 <= i < |events[1..]| && events[1..][i] == SendCompleted(true);
              assert events[i + 1] == events[1..][i];
            }
          }
        }
    }
  }

  /** `Send(connection, data, connectionData)`. `hasConnection` is false for
      a null connection; `socket` is None before the first connect. On an
      open socket the transport package returns a task the send events
      settle; the test program returns `Task.Delay(0)`, already completed,
      while its permanent OnError handler still reports the send's errors. */
  function Send(variant: Variant, hasConnection: bool, socket: Option<ReadyState>, data: string, events: seq<SendEvent>): (r: SendResult)
    ensures !hasConnection ==> r.SendThrew? && r.error.kind == ArgumentNull("connection")
    ensures hasConnection && socket.None? ==> r.SendThrew? && r.error.kind == NullReference
    ensures hasConnection && socket.Some? ==> r.SendReturned?
    ensures hasConnection && socket.Some? && socket.value != SocketOpen ==>
      && r.task.Faulted? && |r.task.exceptions| == 1
      && r.task.exceptions[0].kind == InvalidOperation
      && r.reported == r.task.exceptions
      && r.transmitted == []
    ensures hasConnection && socket == Some(SocketOpen) ==> r.transmitted == [data]
    ensures hasConnection && socket == Some(SocketOpen) && variant.BittrexTest? ==>
      r == SendReturned(RanToCompletion, SendErrorsOf(events), [data], [])
    ensures hasConnection && socket == Some(SocketOpen) && variant.TransportPackage? ==>
      r.task == SendDecide(events) && r.reported == SendErrorsOf(events)
  {
    if !hasConnection then SendThrew(Simple(ArgumentNull("connection"), "Value cannot be null."))
    else if socket.None? then SendThrew(Simple(NullReference, "Object reference not set to an instance of an object."))
    else if socket.value != SocketOpen then
      var ex := Simple(InvalidOperation, NotOpenMessage(variant));
      var task := FromError(Some(ex)).value;
      SendReturned(task, [ex], [], [])
    else match variant
      case BittrexTest => SendReturned(RanToCompletion, SendErrorsOf(events), [data], [])
      case TransportPackage =>
        var st := SendRun(SendState(true, Pending, [], []), events);
        SendOpenSettles(events);
        SendReturned(st.task, st.reported, [data], st.handlerFaults)
  }

  /** An inbound websocket-sharp message event. */
  datatype Frame = Frame(isText: bool, data: string)

  datatype FrameOutcome = Dispatched(message: string) | Raised(error: Exception)

  /** `_webSocket_OnMessage`: text frames go to `OnMessage` with their data;
      any other frame raises NotImplementedException. */
  function OnFrame(f: Frame): (r: FrameOutcome)
    ensures r.Dispatched? <==> f.isText
    ensures r.Dispatched? ==> r.message == f.data
    ensures r.Raised? ==> r.error.kind == NotImplemented
  {
    if f.isText then Dispatched(f.data) else Raised(Simple(NotImplemented, "The method or operation is not implemented."))
  }

  /** The messages passed on for a run of frames, and how many frames raised. */
  function DeliverAll(frames: seq<Frame>): (r: (seq<string>, nat))
    ensures |r.0| + r.1 == |frames|
  {
    if |frames| == 0 then ([], 0)
    else
      var rest := DeliverAll(frames[1..]);
      match OnFrame(frames[0])
      case Dispatched(m) => ([m] + rest.0, rest.1)
      case Raised(_) => (rest.0, rest.1 + 1)
  }

  /** Messages are passed on in arrival order with nothing reordered or
      merged: delivery of two runs of frames is the delivery of each. */
  lemma {:induction false} DeliverAllAppend(a: seq<Frame>, b: seq<Frame>)
    ensures DeliverAll(a + b).0 == DeliverAll(a).0 + DeliverAll(b).0
    ensures DeliverAll(a + b).1 == DeliverAll(a).1 + DeliverAll(b).1
  {
    if |a| > 0 {
      assert (a + b)[1..] == a[1..] + b;
      DeliverAllAppend(a[1..], b);
    } else {
      assert a + b == b;
    }
  }

  /** SignalR's connection state. */
  datatype ConnectionState = Disconnected | Connecting | Connected | Reconnecting

  /** `OnOpen`: `ChangeState(Reconnecting, Connected)` is a compare-and-set;
      `OnReconnected` is raised only when it succeeds. */
  function OnOpen(state: ConnectionState): (r: (ConnectionState, bool))
    ensures r.1 <==> state == Reconnecting
    ensures r.1 ==> r.0 == ConnectionState.Connected
    ensures !r.1 ==> r.0 == state
  {
    if state == Reconnecting then (ConnectionState.Connected, true) else (state, false)
  }

  /** A second open never raises `OnReconnected` again. */
  lemma OnOpenRaisesOnce(state: ConnectionState)
    ensures !OnOpen(OnOpen(state).0).1
  {
  }

  datatype CloseDecision = IgnoredDisconnect | IgnoredAbort | Reconnect

  /** `OnClose`: a cancelled disconnect token returns at once; otherwise
      `TryCompleteAbort` is asked (`abortCompletes` is its answer) and a
      completed abort returns; anything else starts one reconnect. Also
      reports whether `TryCompleteAbort` was called. */
  function OnClose(disconnectCancelled: bool, abortCompletes: bool): (r: (CloseDecision, bool))
    ensures r.0 == Reconnect <==> !disconnectCancelled && !abortCompletes
    ensures r.0 == IgnoredDisconnect <==> disconnectCancelled
    ensures r.1 <==> !disconnectCancelled
  {
    if disconnectCancelled then (IgnoredDisconnect, false)
    else if abortCompletes then (IgnoredAbort, true)
    else (Reconnect, true)
  }

  const AggregateMessage: string := "One or more errors occurred."

  /** The `OnStart` continuation on the task of the async `PerformConnect()`.
      It runs only when that task does not finish successfully. An exception
      escaping the async method faults it, wrapped in an AggregateException,
      except that an OperationCanceledException cancels it instead; a
      faulted task gives `TransportFailed(task.Exception)`, a cancelled one
      `TransportFailed(null)`. The result is None when `TransportFailed` is
      not called, otherwise its argument. */
  function OnStart(connect: ConnectResult): (r: Option<Option<Exception>>)
    ensures r.None? <==> !connect.Threw?
    ensures r == Some(None) <==> connect.Threw? && IsOperationCanceled(connect.error)
    ensures r.Some? && r.value.Some? ==>
      && r.value.value.kind == Aggregate
      && r.value.value.inners == [connect.error]
      && Unwrap(r.value) == Unwrap(Some(connect.error))
  {
    match connect
    case Connected => None
    case NeverCompletes => None
    case Threw(e) =>
      if IsOperationCanceled(e) then Some(None)
      else
        var agg := Exception(Aggregate, AggregateMessage, [e]);
        assert ChainEnd(agg) == ChainEnd(e);
        Some(Some(agg))
  }

  /** One `Dispose(disposing)` call: the flag after it, whether the cleanup
      body ran (cancelling and disposing the token source) and whether the
      base class's `Dispose` was called. */
  datatype DisposeStep = DisposeStep(flag: int, cleanupRan: bool, baseCalled: bool)

  /** `Dispose(disposing)`: `Interlocked.Exchange(ref _disposed, 1)` guards
      the cleanup; base `Dispose` runs on every path. */
  function Dispose(flag: int, disposing: bool): (r: DisposeStep)
    ensures r.baseCalled
    ensures r.cleanupRan <==> disposing && flag != 1
    ensures r.flag == (if disposing then 1 else flag)
  {
    if disposing then
      var previous := flag;
      if previous == 1 then DisposeStep(1, false, true)
      else DisposeStep(1, true, true)
    else DisposeStep(flag, false, true)
  }

  /** A sequence of `Dispose(disposing)` calls from flag `flag`: the final
      flag, how many times the cleanup ran, how many base calls were made. */
  function DisposeAll(flag: int, calls: seq<bool>): (r: (int, nat, nat))
    requires flag == 0 || flag == 1
    ensures r.0 == 0 || r.0 == 1
    ensures r.2 == |calls|
    ensures r.1 <= 1
    ensures flag == 1 ==> r.1 == 0
    ensures r.1 == 1 <==> flag == 0 && true in calls
    decreases |calls|
  {
    if |calls| == 0 then (flag, 0, 0)
    else
      var d := Dispose(flag, calls[0]);
      var rest := DisposeAll(d.flag, calls[1..]);
      assert true in calls <==> calls[0] || true in calls[1..];
      (rest.0, rest.1 + (if d.cleanupRan then 1 else 0), rest.2 + 1)
  }
}
