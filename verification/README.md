# SignalR websocket-sharp transport — a Dafny model

This project models the connection lifecycle of the SignalR client transport
built on websocket-sharp (`WebSocketSharpTransport` and its test-program copy
`WebSocketTransportEx`), the `IRequest` wrappers that decorate the handshake
request, the exception and task helpers they share, and the two feed programs
that configure a hub connection with CloudFlare bypass cookies, headers and an
access token.

Everything is a pure function over immutable datatypes:

- a .NET exception is a value with its inner exceptions (`Exceptions`);
- a task is a status that a `TaskCompletionSource` moves out of `Pending`
  once (`Tasks`);
- socket events, the SignalR helper answers (`VerifyLastActive`,
  `EnsureReconnecting`, `TryCompleteAbort`, `ChangeState`) and the outcome of
  HTTP requests are inputs.

The reconnect loop is a recursive function over a sequence of rounds. Each
round holds the guard answers and the socket events of one attempt. Its trace
records the loop's own actions (attempt, report, delay) and the errors each
attempt's socket forwards to the connection through the `OnError` handler
attached when the socket is built.

Modules:

- `Wrappers`: `Option` (null) and `Result` (a value or a thrown exception).
- `Exceptions`: exception kinds, `GetBaseException`, `Unwrap`,
  `IsRequestAborted`, `ToException`.
- `Tasks`: completion-source state changes, `SetUnwrappedException`,
  `FromError`, what `await` throws.
- `Cookies`: `System.Net.Cookie` and websocket-sharp cookies, conversion,
  `name=value` rendering, filtering by name, `CookieCollection[name]`.
- `Handlers`: `GetMostInnerHandler` over a handler pipeline.
- `Headers`: the ordered custom-header list and its replace-style `SetHeader`.
- `Connection`: the `IConnection` fields the wrappers read, and a cookie
  container.
- `SharpRequest`: `WebSocketSharpRequestWrapperEx`, both copies. The
  `Variant` parameter picks the transport package's copy or the test
  program's.
- `OptionsRequest`: the older `WebSocketWrapperRequestEx` over
  `ClientWebSocket2` options.
- `Handshake`: `PerformConnect(url)`. A completion source is settled by
  one-shot open and error handlers and, in the transport package, by a
  cancellation callback.
- `Transport`: `Send`, frame dispatch, `OnOpen`, `OnClose`, the `OnStart`
  continuation and `Dispose`.
- `Reconnect`: `DoReconnect` and its composition with `OnClose` and `OnOpen`.
- `Feed`: the `BittrexExchange` constructor and both `Connect` methods, and
  the CloudFlare bypass service.

Where the code and the documented intent differ, the model follows the code:

- `FromError` is documented as always returning a faulted task. In the code
  it calls `SetException`. That call throws for a null argument, and for an
  AggregateException with no inner exceptions. `Tasks.FromError` returns
  `Failure` in those two cases.
- The reconnect wait is a plain `Task.Delay(ReconnectDelay)`. Nothing cancels
  it, and the number of retries has no bound.
- In the transport package, the wrapper's `UserAgent` getter returns null and
  its setter does nothing. Only the test program's copy goes through the
  "User-Agent" header.
- The test program's `Connect` forwards the bypass cookies without a presence
  check. A missing "cf_clearance" cookie makes it throw
  NullReferenceException before the hub starts
  (`Feed.MissingClearanceCookieFails`).

## Model

| member | source | states |
|---|---|---|
| Exceptions.GetBaseException | NineDigit.BittrexTest/WebSocketTransportEx.cs:28 | the base exception (AggregateException override included) lies on the input's InnerException chain |
| Exceptions.Unwrap | NineDigit.BittrexTest/WebSocketTransportEx.cs:21-38 | null exactly for null input; otherwise a non-null exception without InnerException, the end of the input's inner chain |
| Exceptions.IsRequestAborted | NineDigit.BittrexTest/WebSocketTransportEx.cs:43-71 | true iff the unwrapped exception is an OperationCanceledException (or TaskCanceledException), an ObjectDisposedException, or, outside NETSTANDARD builds, a WebException with status RequestCanceled; false for null |
| Exceptions.AbortedThroughWrapper | NineDigit.BittrexTest/WebSocketTransportEx.cs:43-45 | wrapping an exception as the single inner exception of another does not change whether it counts as aborted |
| Exceptions.ToException | SignalR.WebSocketSharpTransport/Extensions/ErrorEventArgsExtensions.cs:7-10 | the carried exception when present; otherwise a new plain exception with the event's message; never null |
| Exceptions.MessageIgnoredWithException | SignalR.WebSocketSharpTransport/Extensions/ErrorEventArgsExtensions.cs:9 | the message plays no part when an exception is present |
| Tasks.TryComplete | NineDigit.SignalR.WebSocketSharpTransport/WebSocketSharpTransport.cs:101 | a Try call succeeds iff the task is pending, and then the task takes the target status; a completed task is left alone |
| Tasks.Complete | NineDigit.SignalR.WebSocketSharpTransport/WebSocketSharpTransport.cs:103-117 | SetResult/SetException on a completed task throw InvalidOperationException and leave it unchanged; a pending task takes exactly the status they set, and nothing is thrown |
| Tasks.SetExceptions | NineDigit.SignalR.WebSocketSharpTransport/Helpers/TaskAsyncHelper.cs:15 | an empty collection throws ArgumentException; a non-empty one faults a pending task with exactly those exceptions |
| Tasks.SetUnwrappedException | NineDigit.SignalR.WebSocketSharpTransport/Helpers/TaskAsyncHelper.cs:10-21 | a pending task is faulted with the inner exceptions of a non-empty AggregateException, or with the exception itself otherwise; a null exception throws ArgumentNullException, an AggregateException with no inner exceptions throws ArgumentException("exceptions"), and a completed task makes it throw InvalidOperationException, each leaving the task as it was |
| Tasks.FromError | NineDigit.SignalR.WebSocketSharpTransport/Helpers/TaskAsyncHelper.cs:24-35 | an AggregateException gives a task faulted with exactly its inner exceptions; any other exception a task faulted with exactly it; a null or empty aggregate makes the helper throw |
| Tasks.AwaitThrows | NineDigit.SignalR.WebSocketSharpTransport/WebSocketSharpTransport.cs:72 | awaiting throws nothing iff the task ran to completion; a faulted task throws its first exception, a cancelled one an OperationCanceledException |
| Tasks.CompletedTaskIsFinal | NineDigit.SignalR.WebSocketSharpTransport/WebSocketSharpTransport.cs:101-117 | no completion call changes a completed task |
| Cookies.NameValueCookie | NineDigit.BittrexTest/Program.cs:106 | the re-added cookie carries the name and value only, with empty path and domain |
| Cookies.ScopedCookie | NineDigit.BittrexTest/Program.cs:114 | the access-token cookie carries the given name, value, path and domain |
| Cookies.ToWebSocketSharpCookie | SignalR.WebSocketSharpTransport/Extensions/CookieExtensions.cs:7-28 | name, value, path, domain, comment, comment URI, discard, expired, expires, HttpOnly, port, secure and version all copied unchanged |
| Cookies.ConversionRoundTrip | SignalR.WebSocketSharpTransport/Extensions/CookieExtensions.cs:9-24 | the conversion loses nothing: converting back gives the original cookie, in both directions |
| Cookies.ToHeaderValue | NineDigit.BittrexTest/Program.cs:199-202 | the header value is the name, one '=', then the value |
| Cookies.HeaderValueRoundTrip | NineDigit.SignalR.WebSocketSharpTransport.Demo/Program.cs:206-209 | splitting the header value at its first '=' gives back name and value when the name has no '=' |
| Cookies.GetCookiesByName | NineDigit.BittrexTest/Program.cs:204-207 | exactly the container's cookies whose name is among the names (ordinal comparison) |
| Cookies.GetCookiesByNameKeepsOrder | NineDigit.SignalR.WebSocketSharpTransport.Demo/Program.cs:211-214 | filtering distributes over concatenation, so container order is kept |
| Cookies.CookieNamed | NineDigit.BittrexTest/Program.cs:186-194 | the first cookie whose name matches ignoring case, or null exactly when none matches |
| Handlers.GetMostInnerHandler | NineDigit.BittrexTest/Program.cs:177-181 | a non-delegating handler reached through InnerHandler links; a non-delegating input comes back as-is; null exactly when the chain ends in a null InnerHandler |
| Handlers.MostInnerIsIdempotent | NineDigit.SignalR.WebSocketSharpTransport.Demo/Program.cs:184-188 | the innermost handler is its own innermost handler |
| Handlers.WrappingKeepsMostInner | NineDigit.SignalR.WebSocketSharpTransport.Demo/Program.cs:184-188 | one more delegating layer does not change the innermost handler |
| Headers.SetHeader | NineDigit.BittrexTest/WebSocketTransportEx.cs:349-360 | the backward removal loop computes the replace-style update (every entry for the key removed, the new pair appended last); `Headers.ReplaceProperties` gives its meaning |
| Headers.ReplaceProperties | NineDigit.SignalR.WebSocketSharpTransport/WebSocketSharpRequestWrapperEx.cs:180-191 | after a set, the key has the single new entry and every other key keeps exactly its entries |
| Headers.GetHeader | NineDigit.BittrexTest/WebSocketTransportEx.cs:344-347 | the value of the first entry with the key; null exactly when no entry has it |
| Headers.GetAfterReplace | NineDigit.BittrexTest/WebSocketTransportEx.cs:205-209 | the getter reads back the value just set |
| Headers.SetHeadersLastWins | NineDigit.SignalR.WebSocketSharpTransport/WebSocketSharpRequestWrapperEx.cs:108-121 | each key the dictionary sets ends in exactly one entry, holding the value of its last occurrence |
| Headers.SetHeadersKeepsOthers | NineDigit.BittrexTest/WebSocketTransportEx.cs:274-285 | entries for keys the dictionary does not set keep their values and order |
| Headers.SetHeadersKeepsKey | NineDigit.BittrexTest/WebSocketTransportEx.cs:281-284 | a key the dictionary does not set keeps exactly its entries |
| SharpRequest.SetCookie | NineDigit.SignalR.WebSocketSharpTransport/WebSocketSharpRequestWrapperEx.cs:71-79 | a null cookie throws ArgumentNullException("cookie"); otherwise its websocket-sharp conversion is added to the socket |
| SharpRequest.SetCookies | NineDigit.BittrexTest/WebSocketTransportEx.cs:338-341 | the socket receives every cookie converted, in order, and nothing else changes |
| SharpRequest.AddCookies | NineDigit.SignalR.WebSocketSharpTransport/WebSocketSharpRequestWrapperEx.cs:164-178 | a null container throws ArgumentNullException; otherwise the container's cookies for the URL are set, in order |
| SharpRequest.AddClientCerts | NineDigit.SignalR.WebSocketSharpTransport/WebSocketSharpRequestWrapperEx.cs:123-131 | a null collection throws ArgumentNullException("certificates"); otherwise it becomes the socket's client certificates, with cookies and headers unchanged |
| SharpRequest.PrepareRequest | NineDigit.SignalR.WebSocketSharpTransport/WebSocketSharpRequestWrapperEx.cs:140-162 | certificates and cookies are copied only when supplied; it throws NotImplementedException exactly when credentials are supplied, after the earlier steps took effect |
| SharpRequest.Construct | NineDigit.SignalR.WebSocketSharpTransport/WebSocketSharpRequestWrapperEx.cs:18-36 | null socket and null connection are rejected by name; the socket's existing headers are kept in order in the installed list; construction fails iff the connection has credentials |
| SharpRequest.UserAgent | NineDigit.SignalR.WebSocketSharpTransport/WebSocketSharpRequestWrapperEx.cs:38-44 | null in the transport package; the first "User-Agent" header in the test program |
| SharpRequest.SetUserAgent | NineDigit.BittrexTest/WebSocketTransportEx.cs:205-209 | the test program's getter then returns the value set, with one User-Agent entry; the transport package ignores it; other headers never change |
| SharpRequest.SetRequestHeaders | NineDigit.BittrexTest/WebSocketTransportEx.cs:274-285 | a null dictionary throws ArgumentNullException; otherwise each key holds its last value in one entry and all other headers keep their place |
| SharpRequest.SetHeadersContract | NineDigit.SignalR.WebSocketSharpTransport/WebSocketSharpRequestWrapperEx.cs:115-120 | the per-entry SetHeader fold sets every dictionary key and leaves other keys' entries alone |
| SharpRequest.UserAgentHeaderWins | NineDigit.SignalR.WebSocketSharpTransport/WebSocketSharpTransport.cs:95-96 | after the connection prepares the wrapped request, a User-Agent among its headers is the single one sent; without one, the test program sends the client's agent and the transport package the socket's own |
| OptionsRequest.UserAgent | NineDigit.BittrexTest/WebSocketWrapperRequestEx.cs:26-29 | the "User-Agent" dictionary entry, or null when absent |
| OptionsRequest.SetUserAgent | NineDigit.BittrexTest/WebSocketWrapperRequestEx.cs:30-33 | the getter then returns the value set; no other header or option changes |
| OptionsRequest.GetProperty | NineDigit.BittrexTest/WebSocketWrapperRequestEx.cs:37-73 | the Credentials getter returns the options' credentials, the CookieContainer getter their cookie container, the Proxy getter their proxy |
| OptionsRequest.SetProperty | NineDigit.BittrexTest/WebSocketWrapperRequestEx.cs:37-73 | the Credentials, CookieContainer and Proxy getters read back what their setter stored; the other properties are untouched |
| OptionsRequest.SetRequestHeaders | NineDigit.BittrexTest/WebSocketWrapperRequestEx.cs:87-98 | null throws ArgumentNullException("headers"); otherwise every key maps to its value and keys not supplied are unchanged |
| OptionsRequest.AddClientCerts | NineDigit.BittrexTest/WebSocketWrapperRequestEx.cs:100-108 | null throws ArgumentNullException("certificates"); otherwise the certificates are stored |
| OptionsRequest.PrepareOptions | NineDigit.BittrexTest/WebSocketWrapperRequestEx.cs:118-139 | certificates, container, credentials and proxy are copied from the connection exactly when each is non-null |
| OptionsRequest.PrepareOptionsIdempotent | NineDigit.BittrexTest/WebSocketWrapperRequestEx.cs:118-139 | preparing again from the same connection changes nothing |
| OptionsRequest.Construct | NineDigit.BittrexTest/WebSocketWrapperRequestEx.cs:17-22 | no null checks: a null connection throws NullReferenceException, a null socket does so iff there is something to copy |
| Handshake.Settle | NineDigit.SignalR.WebSocketSharpTransport/WebSocketSharpTransport.cs:103-117 | a handler completes a pending task with its outcome and leaves a completed one as it is; the Try forms never fault |
| Handshake.SettledTaskIsFinal | NineDigit.SignalR.WebSocketSharpTransport/WebSocketSharpTransport.cs:101-117 | once the connect task is settled no later event changes it |
| Handshake.RunFromDecides | NineDigit.SignalR.WebSocketSharpTransport/WebSocketSharpTransport.cs:103-120 | with both one-shot handlers attached, the task ends as the first event able to settle it decides |
| Handshake.RunFromKeepsConsistent | NineDigit.SignalR.WebSocketSharpTransport/WebSocketSharpTransport.cs:103-117 | handlers attached means none has run; detached means exactly one ran and the task is settled; every error event is reported in order |
| Handshake.RunDecides | NineDigit.SignalR.WebSocketSharpTransport/WebSocketSharpTransport.cs:98-124 | the connect task is decided by the first of open, error or cancellation; at most one handler body completes it; every error reaches OnError once |
| Handshake.CancelThenOpenFaultsHandler | NineDigit.SignalR.WebSocketSharpTransport/WebSocketSharpTransport.cs:101-117 | cancellation before the socket opens or fails: the next open or error handler throws InvalidOperationException from SetResult or SetException, the task stays Canceled, and no later event changes either |
| Handshake.TrySetNeverFaults | NineDigit.SignalR.WebSocketSharpTransport/WebSocketSharpTransport.cs:101-117 | with the Try forms no handler ever throws, and the task ends exactly as in the code as written |
| Handshake.UncancellableNeverFaults | NineDigit.BittrexTest/WebSocketTransportEx.cs:443-466 | without a cancellation callback the test program's handlers never throw |
| Handshake.PerformConnect | NineDigit.SignalR.WebSocketSharpTransport/WebSocketSharpTransport.cs:75-125 | credentials make the wrapper throw NotImplementedException; otherwise awaiting succeeds iff the first deciding event is an open, throws that error's exception on error, an OperationCanceledException on cancellation, and never completes without one |
| Transport.Send | NineDigit.SignalR.WebSocketSharpTransport/WebSocketSharpTransport.cs:160-204 | null connection throws ArgumentNullException; a socket not Open gives a task faulted with one InvalidOperationException, reported once, nothing sent; an Open socket sends the data and the task follows the send events; the test program sends synchronously, its task is complete at once, and every error event of the socket is reported by the permanent OnError handler |
| Transport.SendOpenSettles | NineDigit.SignalR.WebSocketSharpTransport/WebSocketSharpTransport.cs:182-203 | an error before any callback faults the task with that error; otherwise it completes iff some callback reports the data sent; every error is reported in order |
| Transport.SendDetachedDecides | NineDigit.SignalR.WebSocketSharpTransport/WebSocketSharpTransport.cs:188-198 | after a callback with sent = false detached the error handler, only a later sent = true completes the task |
| Transport.SendReportsEveryError | NineDigit.SignalR.WebSocketSharpTransport/WebSocketSharpTransport.cs:127-130 | the permanent error handler reports every error event in order |
| Transport.OnFrame | NineDigit.SignalR.WebSocketSharpTransport/WebSocketSharpTransport.cs:142-152 | a text frame is passed on with its data; any other frame raises NotImplementedException |
| Transport.DeliverAll | NineDigit.BittrexTest/WebSocketTransportEx.cs:486-496 | each frame is either delivered or raises |
| Transport.DeliverAllAppend | NineDigit.SignalR.WebSocketSharpTransport/WebSocketSharpTransport.cs:142-152 | delivery distributes over concatenation: messages keep arrival order, none merged or dropped |
| Transport.OnOpen | NineDigit.SignalR.WebSocketSharpTransport/WebSocketSharpTransport.cs:215-222 | OnReconnected is raised iff the state was Reconnecting, which becomes Connected; any other state is left alone |
| Transport.OnOpenRaisesOnce | NineDigit.BittrexTest/WebSocketTransportEx.cs:538-545 | a second open never raises OnReconnected again |
| Transport.OnClose | NineDigit.SignalR.WebSocketSharpTransport/WebSocketSharpTransport.cs:225-240 | reconnect iff the disconnect token is not cancelled and no abort completes; TryCompleteAbort is asked iff the token is not cancelled |
| Transport.OnStart | NineDigit.SignalR.WebSocketSharpTransport/WebSocketSharpTransport.cs:49-73 | TransportFailed is not called on success or while pending; a cancellation gives TransportFailed(null); any other failure an AggregateException wrapping it whose unwrapped cause is the original's |
| Transport.Dispose | NineDigit.SignalR.WebSocketSharpTransport/WebSocketSharpTransport.cs:284-303 | base Dispose always runs; cleanup runs iff disposing and the flag was not yet set, which it then is |
| Transport.DisposeAll | NineDigit.BittrexTest/WebSocketTransportEx.cs:611-639 | over any sequence of calls base Dispose runs once per call and the cleanup at most once, exactly once iff some call is disposing on a fresh transport |
| Reconnect.Classify | NineDigit.SignalR.WebSocketSharpTransport/WebSocketSharpTransport.cs:249-266 | an attempt is retried iff it threw something neither a cancellation nor an aborted request; it ends the loop reconnected iff it succeeded |
| Reconnect.Loop | NineDigit.SignalR.WebSocketSharpTransport/WebSocketSharpTransport.cs:243-270 | no attempt when a guard fails; the trace is a run of blocks, each an attempt to the one reconnect URL, then the errors its socket's permanent OnError handler forwarded to the connection, then for a retried failure the loop's report and the configured delay; the last block has no report exactly when the loop broke out |
| Reconnect.WellShapedPositions | NineDigit.SignalR.WebSocketSharpTransport/WebSocketSharpTransport.cs:245-268 | every attempt uses the one URL and every delay the configured one; every report is of a retried failure and is followed by a delay; every report and forwarded error comes after an attempt or a forwarded error |
| Reconnect.AfterAttemptPositions | NineDigit.SignalR.WebSocketSharpTransport/WebSocketSharpTransport.cs:245-268 | the same position facts for the part of a trace after an attempt |
| Reconnect.OwnActionsBounded | NineDigit.SignalR.WebSocketSharpTransport/WebSocketSharpTransport.cs:245-268 | apart from forwarded errors the loop does at most an attempt, a report and a delay per round |
| Reconnect.FailingRound | NineDigit.SignalR.WebSocketSharpTransport/WebSocketSharpTransport.cs:249-268 | a round that fails in a retried way adds exactly its attempt, its report of the failure and the delay to the loop's own actions, and exactly its socket's errors to the forwarded ones, then the loop continues |
| Reconnect.FailuresKeepRetrying | NineDigit.BittrexTest/WebSocketTransportEx.cs:581-591 | while attempts fail in a retried way the loop never stops by itself: apart from forwarded errors, exactly one attempt, report and delay per round |
| Reconnect.FailuresAllForwarded | NineDigit.BittrexTest/WebSocketTransportEx.cs:471-474 | while attempts fail in a retried way, every error event of every attempt's socket reaches the connection's OnError, in round order |
| Reconnect.ReconnectedIffOpens | NineDigit.SignalR.WebSocketSharpTransport/WebSocketSharpTransport.cs:247-253 | the loop ends reconnected iff some round opens the socket after only retried failures |
| Reconnect.CredentialsNeverReconnect | NineDigit.SignalR.WebSocketSharpTransport/WebSocketSharpRequestWrapperEx.cs:46-56 | with credentials every attempt throws NotImplementedException, which the loop retries: it never ends reconnected, cancelled, aborted or waiting |
| Reconnect.CredentialsReportNotImplemented | NineDigit.SignalR.WebSocketSharpTransport/WebSocketSharpTransport.cs:258-265 | with credentials every failure reported to the connection is that NotImplementedException |
| Reconnect.AfterClose | NineDigit.BittrexTest/WebSocketTransportEx.cs:548-563 | nothing is attempted after an expected close; an unexpected one runs the loop |
| Reconnect.OpenHandlerRuns | NineDigit.SignalR.WebSocketSharpTransport/WebSocketSharpTransport.cs:215-222 | over an attempt's socket events the permanent open handler raises OnReconnected at most once, and once exactly when the state was Reconnecting and the socket opened, leaving the state Connected |
| Reconnect.DropThenReconnect | NineDigit.SignalR.WebSocketSharpTransport/WebSocketSharpTransport.cs:243-270 | a dropped connection: the first attempt's connect failure reaches OnError twice, forwarded by the socket's handler and reported by the loop, then a 2000 ms wait and a second attempt that opens; the first attempt's events raise no OnReconnected and the second's raise it once |
| Feed.NewExchange | NineDigit.BittrexTest/Program.cs:49-72 | a null feed URI throws ArgumentNullException("feedUri"); otherwise a "CoreHub" connection whose base URL is the URI (SignalR appends "signalr" to it) with an empty container |
| Feed.NewBypassService | NineDigit.BittrexTest/Program.cs:232-254 | a null URI throws ArgumentNullException("serverUri") first; a null or empty user agent throws ArgumentException("userAgent"); a user agent the header parser rejects throws FormatException; otherwise the service keeps both |
| Feed.GetBypassContext | NineDigit.BittrexTest/Program.cs:256-273 | the context has the service's user agent and exactly the "__cfduid" and "cf_clearance" lookups, in that order, each null iff absent |
| Feed.AddNameValueCookies | NineDigit.BittrexTest/Program.cs:104-107 | each supplied cookie is added by name and value in order; a null entry throws NullReferenceException with the earlier ones already added |
| Feed.AccessTokenCookie | NineDigit.BittrexTest/Program.cs:20 | the access-token cookie is ".AspNet.ApplicationCookie" with path "/" and domain ".bittrex.com" |
| Feed.AddAccessToken | NineDigit.BittrexTest/Program.cs:112-116 | the cookie is appended only for a non-empty token; a null container then throws NullReferenceException |
| Feed.AddHeader | NineDigit.BittrexTest/Program.cs:102 | Headers.Add throws ArgumentException iff the key is present; otherwise it adds exactly that entry |
| Feed.ApplyCloudFlare | NineDigit.BittrexTest/Program.cs:91-110 | success means the User-Agent was absent and is now the configured one, the container keeps its cookies and then holds each supplied cookie by name and value, in order, and the timeout is ten seconds; a present User-Agent throws and changes nothing |
| Feed.BittrexConnect | NineDigit.BittrexTest/Program.cs:84-123 | no configuration starts the default transports unchanged; a CloudFlare configuration starts websocket-sharp then long polling; a non-empty token leaves its cookie last in the container |
| Feed.MissingClearanceCookieFails | NineDigit.BittrexTest/Program.cs:104-107 | a bypass jar without "cf_clearance" makes Connect throw NullReferenceException before the hub starts |
| Feed.BypassCookiesForwarded | NineDigit.BittrexTest/Program.cs:264-270 | with both bypass cookies present they reach the hub's container by name and value, in lookup order |
| Feed.DemoConnect | NineDigit.SignalR.WebSocketSharpTransport.Demo/Program.cs:83-122 | the configured container replaces the hub's; configured headers overwrite by key and keep the rest; a non-empty token is appended, or throws NullReferenceException on a null container |

## Left out

- Socket and HTTP I/O are left out: `ConnectAsync`, `SendAsync`, the CloudFlare `ClearanceHandler` request. Their results are inputs: event sequences, and the bypass container after the request.
- `CookieContainer` domain and path matching is left out. `GetCookies` returns every cookie held, and `Add` appends. websocket-sharp's cookie validation and duplicate handling in `SetCookie` are not modelled either.
- The SignalR base class and helpers (`ProcessResponse`, `UrlBuilder`, `TransportHelper.VerifyLastActive`, `EnsureReconnecting`, `AbortHandler.TryCompleteAbort`, `ChangeState`, `TransportFailed`, `Start`) are inputs or recorded calls. Their internals are not part of this model.
- Threads, `Interlocked` atomicity, `async void` and `Task.Delay` timing are left out. `Dispose` is a sequential flag, and a delay is an entry in the trace.
- The linked token source is left out. `LostConnection` and disposal reach the handshake only as a `CancelRequested` event.
- `SetCredentials`, `Abort` and `Accept` are left out: they are pass-throughs or no-ops.
- Tracing, console output, the hub event subscriptions and both `Main` methods are left out.
- SignalR.WebSocketSharpTransport/ClientWebSocketHandler.cs and NineDigit.BittrexTest/ClientWebSocketHandler2.cs are left out: event forwarding and reflection over framework internals.
- SignalR.WebSocketSharpTransport/DefaultHttpClientEx.cs is left out: a thin wrapper over SignalR's HTTP client.
- The test program's `LostConnection` and `Dispose` use a `_webSocketTokenSource` field that the class does not declare. `Transport.Dispose` models the transport package's declared field.
- Headers.GetHeader: header values are never null in the model. The test program's `UserAgent = null` and a null value in a `SetRequestHeaders` dictionary store a null value, after which the getter returns null although the key has an entry; the model promises "null exactly when no entry has the key" only for non-null values. The same holds for `SharpRequest.UserAgent` and `OptionsRequest.UserAgent`, whose dictionary indexer can store null too.
- Feed.ApplyCloudFlare: a null user agent is not modelled. It would be stored as a null header value.
- SharpRequest.ConnectionPrepareRequest: its own contract only keeps the header list installed. `SharpRequest.UserAgentHeaderWins` states what it does. SignalR's `PrepareRequest` is not in this repository.
- Transport.DeliverAll: its contract only counts frames. `Transport.DeliverAllAppend` and `Transport.OnFrame` together fix its result.
- Exceptions.IsRequestAborted: the NETSTANDARD build switch is a parameter.
- Cookies.CookieNamed: case is folded for ASCII letters only. `CookieCollection[name]` compares with Unicode OrdinalIgnoreCase, so names that differ only in non-ASCII case match there and not here.
- Feed.GetBypassContext: its cookie lookups go through `Cookies.CookieNamed`, with the same ASCII-only case folding.
- Feed.NewBypassService: the grammar `ParseAdd` checks a user agent against is not modelled. Whether it parses is the `agentParses` input.
- Reconnect.Loop: the permanent OnClose handler of an attempt's socket is not modelled. A close event of that socket, during that attempt or a later one, runs `OnClose` again and can start a second `DoReconnect` alongside the first. The model runs one sequential loop, and socket events carry no close.
- Reconnect.Loop: an attempt's forwarded errors are placed in that attempt's block. In the program, an old socket keeps its handlers, so an error it raises after the attempt is decided can interleave with later rounds.

## Findings

| source | as written | input that shows it | evidently intended | confidence | as-written member | corrected member |
|---|---|---|---|---|---|---|
| NineDigit.SignalR.WebSocketSharpTransport/WebSocketSharpTransport.cs:101-117 | the cancellation callback uses `TrySetCanceled`, but the open and error handlers call `SetResult` and `SetException` | the linked token fires, then the socket opens: the task is already Canceled, so the open handler's `SetResult` throws InvalidOperationException on the socket's event thread | every completion path uses the Try form, so the first settling event wins and no handler throws | medium, not executed | Handshake.CancelThenOpenFaultsHandler | Handshake.TrySetNeverFaults |
