/** `WebSocketSharpRequestWrapperEx`: the SignalR `IRequest` over a
    websocket-sharp `WebSocket`. Two copies exist: the transport package's,
    whose `UserAgent` property is inert, and the test program's, whose
    `UserAgent` goes through the "User-Agent" header. */
module SharpRequest {
  import opened Wrappers
  import opened Exceptions
  import opened Cookies
  import opened Headers
  import opened Connection

  datatype Variant = TransportPackage | BittrexTest

  const UserAgentKey: string := "User-Agent"

  /** The websocket-sharp `WebSocket` state the wrapper touches: its custom
      header list, its client certificates and the cookies set on it. */
  datatype Socket = Socket(
    customHeaders: Option<seq<Header>>,
    clientCertificates: Option<Certificates>,
    cookies: seq<SharpCookie>)

  /** After construction the socket's header list is the wrapper's own list. */
  predicate Wrapped(s: Socket) {
    s.customHeaders.Some?
  }

  function HeaderList(s: Socket): seq<Header>
    requires Wrapped(s)
  {
    s.customHeaders.value
  }

  /** Each cookie converted to websocket-sharp's type, in order. */
  function ToSharpCookies(cs: seq<NetCookie>): seq<SharpCookie> {
    if |cs| == 0 then [] else [ToWebSocketSharpCookie(cs[0])] + ToSharpCookies(cs[1..])
  }

  /** `SetCookie`: a null cookie is rejected; otherwise its websocket-sharp
      conversion is set on the socket. */
  function SetCookie(s: Socket, c: Option<NetCookie>): (r: Result<Socket, Exception>)
    ensures c.None? ==> r == Failure(Simple(ArgumentNull("cookie"), "Value cannot be null."))
    ensures c.Some? ==> r == Success(s.(cookies := s.cookies + [ToWebSocketSharpCookie(c.value)]))
  {
    match c
    case None => Failure(Simple(ArgumentNull("cookie"), "Value cannot be null."))
    case Some(x) => Success(s.(cookies := s.cookies + [ToWebSocketSharpCookie(x)]))
  }

  /** The `foreach` of `AddCookies`: one `SetCookie` per container cookie. */
  function SetCookies(s: Socket, cs: seq<NetCookie>): (r: Socket)
    ensures r.cookies == s.cookies + ToSharpCookies(cs)
    ensures r.customHeaders == s.customHeaders && r.clientCertificates == s.clientCertificates
    decreases cs
  {
    if |cs| == 0 then s
    else
      var next := SetCookie(s, Some(cs[0])).value;
      SetCookies(next, cs[1..])
  }

  /** `AddCookies`: a null container is rejected; otherwise every cookie the
      container holds for the connection URL is set on the socket, in order. */
  function AddCookies(s: Socket, jar: Option<CookieJar>, url: string): (r: Result<Socket, Exception>)
    ensures jar.None? ==> r.Failure? && r.error.kind == ArgumentNull("cookieContainer")
    ensures jar.Some? ==> r.Success? && r.value.cookies == s.cookies + ToSharpCookies(GetCookies(jar.value, url))
    ensures r.Success? ==> r.value.customHeaders == s.customHeaders && r.value.clientCertificates == s.clientCertificates
  {
    match jar
    case None => Failure(Simple(ArgumentNull("cookieContainer"), "Value cannot be null."))
    case Some(j) => Success(SetCookies(s, GetCookies(j, url)))
  }

  /** `AddClientCerts`: a null collection is rejected; otherwise it becomes
      the socket's client certificates. */
  function AddClientCerts(s: Socket, certs: Option<Certificates>): (r: Result<Socket, Exception>)
    ensures certs.None? ==> r.Failure? && r.error.kind == ArgumentNull("certificates")
    ensures certs.Some? ==> r.Success? && r.value.clientCertificates == certs
    ensures r.Success? ==> r.value.cookies == s.cookies && r.value.customHeaders == s.customHeaders
  {
    match certs
    case None => Failure(Simple(ArgumentNull("certificates"), "Value cannot be null."))
    case Some(_) => Success(s.(clientCertificates := certs))
  }

  /** The socket after `PrepareRequest`, and the exception it threw, if any.
      Steps that ran before a throw have already changed the socket. */
  datatype Applied = Applied(socket: Socket, thrown: Option<Exception>)

  /** `PrepareRequest`: certificates, then cookies, then credentials, then
      proxy, each only when the connection supplies it. The `Credentials`
      setter throws NotImplementedException and the `Proxy` setter ignores
      its value. */
  function PrepareRequest(s: Socket, conn: Conn): (r: Applied)
    ensures r.thrown.Some? <==> conn.credentials.Some?
    ensures r.thrown.Some? ==> r.thrown.value.kind == NotImplemented
    ensures r.socket.customHeaders == s.customHeaders
    ensures r.socket.clientCertificates
         == (if conn.certificates.Some? then conn.certificates else s.clientCertificates)
    ensures r.socket.cookies
         == s.cookies + (if conn.cookieJar.Some? then ToSharpCookies(GetCookies(conn.cookieJar.value, conn.url)) else [])
  {
    var s1 := if conn.certificates.Some? then AddClientCerts(s, conn.certificates).value else s;
    var s2 := if conn.cookieJar.Some? then AddCookies(s1, conn.cookieJar, conn.url).value else s1;
    if conn.credentials.Some? then Applied(s2, Some(Simple(NotImplemented, "The method or operation is not implemented.")))
    else Applied(s2, None)
  }

  /** The constructor: null checks, then the socket's existing custom headers
      are copied in order into a new list that is installed as the socket's
      header list, then `PrepareRequest` runs. */
  function Construct(socket: Option<Socket>, conn: Option<Conn>): (r: Result<Socket, Exception>)
    ensures socket.None? ==> r.Failure? && r.error.kind == ArgumentNull("clientWebSocket")
    ensures socket.Some? && conn.None? ==> r.Failure? && r.error.kind == ArgumentNull("connection")
    ensures socket.Some? && conn.Some? ==> (r.Success? <==> conn.value.credentials.None?)
    ensures r.Success? ==> Wrapped(r.value)
    ensures r.Success? ==> HeaderList(r.value) == socket.value.customHeaders.GetOr([])
    ensures r.Success? ==>
      r.value.cookies == socket.value.cookies
        + (if conn.value.cookieJar.Some? then ToSharpCookies(GetCookies(conn.value.cookieJar.value, conn.value.url)) else [])
  {
    if socket.None? then Failure(Simple(ArgumentNull("clientWebSocket"), "Value cannot be null."))
    else if conn.None? then Failure(Simple(ArgumentNull("connection"), "Value cannot be null."))
    else
      var headers := socket.value.customHeaders.GetOr([]);
      var a := PrepareRequest(socket.value.(customHeaders := Some(headers)), conn.value);
      if a.thrown.Some? then Failure(a.thrown.value) else Success(a.socket)
  }

  /** The `UserAgent` getter: always null in the transport package; the first
      "User-Agent" header in the test program. */
  function UserAgent(variant: Variant, s: Socket): (r: Option<string>)
    requires Wrapped(s)
    ensures variant == TransportPackage ==> r.None?
    ensures variant == BittrexTest ==> r == GetHeader(HeaderList(s), UserAgentKey)
  {
    match variant
    case TransportPackage => None
    case BittrexTest => GetHeader(HeaderList(s), UserAgentKey)
  }

  /** `SetHeader` on the wrapper's list. */
  function SetHeaderOn(s: Socket, k: string, v: string): Socket
    requires Wrapped(s)
  {
    s.(customHeaders := Some(Replace(HeaderList(s), k, v)))
  }

  /** The `UserAgent` setter: ignored in the transport package; `SetHeader`
      of "User-Agent" in the test program, after which the getter returns the
      value set and no other header changed. */
  function SetUserAgent(variant: Variant, s: Socket, v: string): (r: Socket)
    requires Wrapped(s)
    ensures Wrapped(r)
    ensures variant == TransportPackage ==> r == s
    ensures variant == BittrexTest ==> UserAgent(variant, r) == Some(v)
    ensures variant == BittrexTest ==> OnlyKey(HeaderList(r), UserAgentKey) == [Header(UserAgentKey, v)]
    ensures WithoutKeys(HeaderList(r), {UserAgentKey}) == WithoutKeys(HeaderList(s), {UserAgentKey})
  {
    match variant
    case TransportPackage => s
    case BittrexTest =>
      ReplaceProperties(HeaderList(s), UserAgentKey, v);
      GetAfterReplace(HeaderList(s), UserAgentKey, v);
      SetHeaderOn(s, UserAgentKey, v)
  }

  /** The set of keys a dictionary's entries use. */
  function KeysOf(entries: seq<Header>): set<string> {
    set i | 0 <= i < |entries| :: entries[i].key
  }

  lemma SetHeadersContract(hs: seq<Header>, entries: seq<Header>)
    ensures forall k :: HasKey(entries, k) ==> OnlyKey(SetHeaders(hs, entries), k) == [Header(k, LastValue(entries, k))]
    ensures WithoutKeys(SetHeaders(hs, entries), KeysOf(entries)) == WithoutKeys(hs, KeysOf(entries))
  {
    forall k | HasKey(entries, k)
      ensures OnlyKey(SetHeaders(hs, entries), k) == [Header(k, LastValue(entries, k))]
    {
      SetHeadersLastWins(hs, entries, k);
    }
    SetHeadersKeepsOthers(hs, entries, KeysOf(entries));
  }

  /** `SetRequestHeaders`: a null dictionary is rejected; otherwise each entry
      is applied with `SetHeader`, so each key ends up in exactly one entry
      holding its last value, and every other header keeps its place. */
  function SetRequestHeaders(s: Socket, entries: Option<seq<Header>>): (r: Result<Socket, Exception>)
    requires Wrapped(s)
    ensures entries.None? ==> r.Failure? && r.error.kind == ArgumentNull("headers")
    ensures entries.Some? ==> r.Success? && Wrapped(r.value)
    ensures r.Success? ==> forall k :: HasKey(entries.value, k) ==>
              OnlyKey(HeaderList(r.value), k) == [Header(k, LastValue(entries.value, k))]
    ensures r.Success? ==>
      WithoutKeys(HeaderList(r.value), KeysOf(entries.value)) == WithoutKeys(HeaderList(s), KeysOf(entries.value))
    ensures r.Success? ==> r.value.cookies == s.cookies && r.value.clientCertificates == s.clientCertificates
  {
    match entries
    case None => Failure(Simple(ArgumentNull("headers"), "Value cannot be null."))
    case Some(es) =>
      SetHeadersContract(HeaderList(s), es);
      Success(s.(customHeaders := Some(SetHeaders(HeaderList(s), es))))
  }

  /** SignalR's `IConnection.PrepareRequest(request)`, as the transports call
      it right after constructing the wrapper: it sets the request's
      `UserAgent` to the client's own agent string, then calls
      `SetRequestHeaders` with the connection's headers. */
  function ConnectionPrepareRequest(variant: Variant, s: Socket, conn: Conn, clientAgent: string): (r: Socket)
    requires Wrapped(s)
    ensures Wrapped(r)
  {
    SetRequestHeaders(SetUserAgent(variant, s, clientAgent), Some(conn.headers)).value
  }

  /** A "User-Agent" entry among the connection's headers always wins: the
      request ends up with exactly that one User-Agent header, whatever the
      socket held before and whichever wrapper copy is used. Without one, the
      transport package keeps the socket's own User-Agent entries and the test
      program sends the client's agent string. */
  lemma UserAgentHeaderWins(variant: Variant, s: Socket, conn: Conn, clientAgent: string)
    requires Wrapped(s)
    ensures HasKey(conn.headers, UserAgentKey) ==>
      OnlyKey(HeaderList(ConnectionPrepareRequest(variant, s, conn, clientAgent)), UserAgentKey)
        == [Header(UserAgentKey, LastValue(conn.headers, UserAgentKey))]
    ensures !HasKey(conn.headers, UserAgentKey) && variant == TransportPackage ==>
      OnlyKey(HeaderList(ConnectionPrepareRequest(variant, s, conn, clientAgent)), UserAgentKey)
        == OnlyKey(HeaderList(s), UserAgentKey)
    ensures !HasKey(conn.headers, UserAgentKey) && variant == BittrexTest ==>
      OnlyKey(HeaderList(ConnectionPrepareRequest(variant, s, conn, clientAgent)), UserAgentKey)
        == [Header(UserAgentKey, clientAgent)]
  {
    var s1 := SetUserAgent(variant, s, clientAgent);
    if !HasKey(conn.headers, UserAgentKey) {
      SetHeadersKeepsKey(HeaderList(s1), conn.headers, UserAgentKey);
    }
  }
}
