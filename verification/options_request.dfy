/** `WebSocketWrapperRequestEx`: the older `IRequest` over `ClientWebSocket2`,
    whose options keep the request headers in a dictionary. */
module OptionsRequest {
  import opened Wrappers
  import opened Exceptions
  import opened Connection

  const UserAgentKey: string := "User-Agent"

  /** `ClientWebSocket2.Options`. */
  datatype Options = Options(
    requestHeaders: map<string, string>,
    credentials: Option<Credentials>,
    cookies: Option<CookieJar>,
    proxy: Option<Proxy>,
    clientCertificates: Option<Certificates>)

  /** The `UserAgent` getter: the "User-Agent" entry of the header dictionary, or null. */
  function UserAgent(o: Options): (r: Option<string>)
    ensures r.Some? <==> UserAgentKey in o.requestHeaders
    ensures r.Some? ==> r.value == o.requestHeaders[UserAgentKey]
  {
    if UserAgentKey in o.requestHeaders then Some(o.requestHeaders[UserAgentKey]) else None
  }

  /** The `UserAgent` setter overwrites the dictionary entry; the getter then
      returns the value set and every other header is untouched. */
  function SetUserAgent(o: Options, v: string): (r: Options)
    ensures UserAgent(r) == Some(v)
    ensures forall k :: k != UserAgentKey ==> (k in r.requestHeaders <==> k in o.requestHeaders)
    ensures forall k :: k != UserAgentKey && k in o.requestHeaders ==> r.requestHeaders[k] == o.requestHeaders[k]
    ensures r.(requestHeaders := o.requestHeaders) == o
  {
    o.(requestHeaders := o.requestHeaders[UserAgentKey := v])
  }

  /** The properties that forward to the options object. */
  datatype Property = CredentialsProperty | CookieContainerProperty | ProxyProperty

  datatype PropertyValue =
    | CredentialsValue(credentials: Option<Credentials>)
    | CookieContainerValue(cookies: Option<CookieJar>)
    | ProxyValue(proxy: Option<Proxy>)

  function PropertyOf(v: PropertyValue): Property {
    match v
    case CredentialsValue(_) => CredentialsProperty
    case CookieContainerValue(_) => CookieContainerProperty
    case ProxyValue(_) => ProxyProperty
  }

  /** The `Credentials`, `CookieContainer` and `Proxy` getters. */
  function GetProperty(o: Options, p: Property): (r: PropertyValue)
    ensures PropertyOf(r) == p
    ensures p == CredentialsProperty ==> r == CredentialsValue(o.credentials)
    ensures p == CookieContainerProperty ==> r == CookieContainerValue(o.cookies)
    ensures p == ProxyProperty ==> r == ProxyValue(o.proxy)
  {
    match p
    case CredentialsProperty => CredentialsValue(o.credentials)
    case CookieContainerProperty => CookieContainerValue(o.cookies)
    case ProxyProperty => ProxyValue(o.proxy)
  }

  /** The matching setters: each getter reads back what its setter stored,
      and the other properties and the headers are unchanged. */
  function SetProperty(o: Options, v: PropertyValue): (r: Options)
    ensures GetProperty(r, PropertyOf(v)) == v
    ensures forall p :: p != PropertyOf(v) ==> GetProperty(r, p) == GetProperty(o, p)
    ensures r.requestHeaders == o.requestHeaders && r.clientCertificates == o.clientCertificates
  {
    match v
    case CredentialsValue(c) => o.(credentials := c)
    case CookieContainerValue(c) => o.(cookies := c)
    case ProxyValue(p) => o.(proxy := p)
  }

  /** `SetRequestHeaders`: a null dictionary is rejected; otherwise every
      entry overwrites the dictionary entry of its key. */
  function SetRequestHeaders(o: Options, headers: Option<map<string, string>>): (r: Result<Options, Exception>)
    ensures headers.None? ==> r.Failure? && r.error.kind == ArgumentNull("headers")
    ensures headers.Some? ==> r.Success?
    ensures r.Success? ==> forall k :: k in headers.value ==> k in r.value.requestHeaders && r.value.requestHeaders[k] == headers.value[k]
    ensures r.Success? ==> forall k :: k !in headers.value ==>
              (k in r.value.requestHeaders <==> k in o.requestHeaders)
              && (k in o.requestHeaders ==> r.value.requestHeaders[k] == o.requestHeaders[k])
    ensures r.Success? ==> r.value.(requestHeaders := o.requestHeaders) == o
  {
    match headers
    case None => Failure(Simple(ArgumentNull("headers"), "Value cannot be null."))
    case Some(h) => Success(o.(requestHeaders := o.requestHeaders + h))
  }

  /** `AddClientCerts`: a null collection is rejected; otherwise it is stored on the options. */
  function AddClientCerts(o: Options, certs: Option<Certificates>): (r: Result<Options, Exception>)
    ensures certs.None? ==> r.Failure? && r.error.kind == ArgumentNull("certificates")
    ensures certs.Some? ==> r == Success(o.(clientCertificates := certs))
  {
    match certs
    case None => Failure(Simple(ArgumentNull("certificates"), "Value cannot be null."))
    case Some(_) => Success(o.(clientCertificates := certs))
  }

  const NullReferenceError: Exception := Simple(NullReference, "Object reference not set to an instance of an object.")

  /** The connection supplies something `PrepareRequest` would copy. */
  predicate SuppliesAny(conn: Conn) {
    conn.certificates.Some? || conn.cookieJar.Some? || conn.credentials.Some? || conn.proxy.Some?
  }

  /** `PrepareRequest` on a non-null options object: certificates, cookie
      container, credentials and proxy are copied in that order, each only
      when the connection's value is non-null. */
  function PrepareOptions(o: Options, conn: Conn): (r: Options)
    ensures r.requestHeaders == o.requestHeaders
    ensures r.clientCertificates == (if conn.certificates.Some? then conn.certificates else o.clientCertificates)
    ensures r.cookies == (if conn.cookieJar.Some? then conn.cookieJar else o.cookies)
    ensures r.credentials == (if conn.credentials.Some? then conn.credentials else o.credentials)
    ensures r.proxy == (if conn.proxy.Some? then conn.proxy else o.proxy)
  {
    var o1 := if conn.certificates.Some? then AddClientCerts(o, conn.certificates).value else o;
    var o2 := if conn.cookieJar.Some? then SetProperty(o1, CookieContainerValue(conn.cookieJar)) else o1;
    var o3 := if conn.credentials.Some? then SetProperty(o2, CredentialsValue(conn.credentials)) else o2;
    if conn.proxy.Some? then SetProperty(o3, ProxyValue(conn.proxy)) else o3
  }

  /** Preparing twice from the same connection changes nothing more: every
      value copied is the connection's own. */
  lemma PrepareOptionsIdempotent(o: Options, conn: Conn)
    ensures PrepareOptions(PrepareOptions(o, conn), conn) == PrepareOptions(o, conn)
  {
  }

  /** The constructor stores both arguments without null checks and runs
      `PrepareRequest`, which dereferences the connection at once and the
      socket only when there is something to copy. */
  function Construct(socket: Option<Options>, conn: Option<Conn>): (r: Result<Option<Options>, Exception>)
    ensures conn.None? ==> r == Failure(NullReferenceError)
    ensures conn.Some? && socket.None? ==> (r.Failure? <==> SuppliesAny(conn.value))
    ensures conn.Some? && socket.Some? ==> r == Success(Some(PrepareOptions(socket.value, conn.value)))
  {
    match conn
    case None => Failure(NullReferenceError)
    case Some(c) =>
      match socket
      case None => if SuppliesAny(c) then Failure(NullReferenceError) else Success(None)
      case Some(o) => Success(Some(PrepareOptions(o, c)))
  }
}
