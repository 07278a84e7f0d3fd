/** The two feed programs that drive the transport: the `BittrexExchange`
    constructor and `Connect` of the test program (CloudFlare bypass cookies
    and user agent) and of the demo (caller-supplied container and headers),
    and the test program's CloudFlare bypass service. The HTTP exchange of
    the bypass and the hub start are left to their inputs. */
module Feed {
  import opened Wrappers
  import opened Exceptions
  import opened Cookies
  import opened Connection

  const HubName: string := "CoreHub"
  const CfIdCookieName: string := "__cfduid"
  const CfClearanceCookieName: string := "cf_clearance"
  const AccessTokenCookieName: string := ".AspNet.ApplicationCookie"
  const AccessTokenCookiePath: string := "/"
  const AccessTokenCookieDomain: string := ".bittrex.com"
  const UserAgentKey: string := "User-Agent"
  /** `new TimeSpan(0, 0, 10)`. */
  const ConnectTimeoutSeconds: nat := 10

  /** The `HubConnection` state `Connect` touches: the URL it was constructed
      with (SignalR derives its `Url` from it by appending "signalr"), the hub proxy's
      name, the cookie container (null when a configuration supplies none),
      the request headers and `TransportConnectTimeout` (None: the SignalR
      default). */
  datatype Hub = Hub(
    baseUrl: string,
    hubName: string,
    cookieJar: Option<CookieJar>,
    headers: map<string, string>,
    connectTimeout: Option<nat>)

  /** The transports a feed hands to `AutoTransport`: SignalR's own default
      list, or an explicit list. */
  datatype TransportKind = WebSocketTransportEx | WebSocketSharpTransport | LongPolling
  datatype TransportChoice = DefaultTransports | Transports(kinds: seq<TransportKind>)

  /** The connection after `Connect`, and either the transports passed to
      `_connection.Start` or the exception that ended `Connect` before it. */
  datatype ConnectOutcome = ConnectOutcome(hub: Hub, started: Result<TransportChoice, Exception>)

  const NullReferenceError: Exception := Simple(NullReference, "Object reference not set to an instance of an object.")

  /** `new BittrexExchange(feedUri)`: a null URI is rejected; otherwise a
      connection to the URI with an empty cookie container, no extra headers
      and a proxy for the "CoreHub" hub. */
  function NewExchange(feedUri: Option<string>): (r: Result<Hub, Exception>)
    ensures r.Failure? <==> feedUri.None?
    ensures r.Failure? ==> r.error.kind == ArgumentNull("feedUri")
    ensures r.Success? ==> r.value.baseUrl == feedUri.value && r.value.hubName == HubName
    ensures r.Success? ==> r.value.cookieJar == Some(CookieJar([])) && r.value.headers == map[]
  {
    if feedUri.None? then Failure(Simple(ArgumentNull("feedUri"), "Value cannot be null."))
    else Success(Hub(feedUri.value, HubName, Some(CookieJar([])), map[], None))
  }

  /** `string.IsNullOrEmpty`. */
  predicate NullOrEmpty(s: Option<string>) {
    s.None? || s.value == ""
  }

  /** The bypass service: target URI, user agent and its own cookie container. */
  datatype BypassService = BypassService(serverUri: string, userAgent: string, cookieJar: CookieJar)

  /** `new CloudFlareServerBypassService(serverUri, userAgent)`. The
      constructor ends by parsing the user agent into the HTTP client's
      default `User-Agent` header; `agentParses` is that parser's verdict on
      it, and a rejected agent makes the constructor throw FormatException. */
  function NewBypassService(serverUri: Option<string>, userAgent: Option<string>, agentParses: bool): (r: Result<BypassService, Exception>)
    ensures serverUri.None? ==> r.Failure? && r.error.kind == ArgumentNull("serverUri")
    ensures serverUri.Some? && NullOrEmpty(userAgent) ==> r.Failure? && r.error.kind == Argument("userAgent")
    ensures serverUri.Some? && !NullOrEmpty(userAgent) && !agentParses ==> r.Failure? && r.error.kind == Format
    ensures r.Success? <==> serverUri.Some? && !NullOrEmpty(userAgent) && agentParses
    ensures r.Success? ==> r.value == BypassService(serverUri.value, userAgent.value, CookieJar([]))
  {
    if serverUri.None? then Failure(Simple(ArgumentNull("serverUri"), "Value cannot be null."))
    else if NullOrEmpty(userAgent) then Failure(Simple(Argument("userAgent"), "Value can not be empty."))
    else if !agentParses then Failure(Simple(Format, "The format of value '" + userAgent.value + "' is invalid."))
    else Success(BypassService(serverUri.value, userAgent.value, CookieJar([])))
  }

  datatype BypassContext = BypassContext(userAgent: string, cookies: seq<Option<NetCookie>>)

  /** A slot of the bypass context: null exactly when the container holds no
      cookie of that name (ignoring case), else the first such cookie. */
  predicate LookedUp(slot: Option<NetCookie>, cookies: seq<NetCookie>, name: string) {
    && (slot.None? <==> forall i :: 0 <= i < |cookies| ==> !EqualsIgnoreCase(cookies[i].name, name))
    && (slot.Some? ==> slot.value in cookies && EqualsIgnoreCase(slot.value.name, name))
  }

  /** `GetBypassContextAsync`: after the request (whose effect on the
      service's container is the input `jarAfterRequest`), the context holds
      the "__cfduid" and the "cf_clearance" lookups, in that order and
      without a presence check, and the service's user agent. */
  function GetBypassContext(service: BypassService, jarAfterRequest: CookieJar): (r: BypassContext)
    ensures r.userAgent == service.userAgent
    ensures |r.cookies| == 2
    ensures LookedUp(r.cookies[0], GetCookies(jarAfterRequest, service.serverUri), CfIdCookieName)
    ensures LookedUp(r.cookies[1], GetCookies(jarAfterRequest, service.serverUri), CfClearanceCookieName)
  {
    var cookies := GetCookies(jarAfterRequest, service.serverUri);
    BypassContext(service.userAgent, [CookieNamed(cookies, CfIdCookieName), CookieNamed(cookies, CfClearanceCookieName)])
  }

  /** The index of the first null entry, or the length when there is none. */
  function FirstNull(cs: seq<Option<NetCookie>>): (i: nat)
    ensures i <= |cs|
    ensures forall j :: 0 <= j < i ==> cs[j].Some?
    ensures i < |cs| ==> cs[i].None?
  {
    if |cs| == 0 then 0
    else if cs[0].None? then 0
    else 1 + FirstNull(cs[1..])
  }

  /** The `foreach` of the test program's `Connect`: adds `new Cookie(name,
      value)` for each supplied cookie to the container for `uri`; a null
      entry throws NullReferenceException, with the earlier cookies already
      added. */
  function AddNameValueCookies(jar: CookieJar, uri: string, cs: seq<Option<NetCookie>>): (r: (CookieJar, Option<Exception>))
    ensures r.1.None? <==> FirstNull(cs) == |cs|
    ensures r.1.Some? ==> r.1.value.kind == NullReference
    ensures |r.0.cookies| == |jar.cookies| + FirstNull(cs)
    ensures r.0.cookies[..|jar.cookies|] == jar.cookies
    ensures forall i :: 0 <= i < FirstNull(cs) ==>
      r.0.cookies[|jar.cookies| + i] == NameValueCookie(cs[i].value.name, cs[i].value.value)
    decreases |cs|
  {
    if |cs| == 0 then (jar, None)
    else if cs[0].None? then (jar, Some(NullReferenceError))
    else
      var c := cs[0].value;
      var next := AddCookie(jar, uri, NameValueCookie(c.name, c.value));
      var r := AddNameValueCookies(next, uri, cs[1..]);
      assert forall i :: 1 <= i < FirstNull(cs) ==> cs[i] == cs[1..][i - 1];
      assert r.0.cookies[..|jar.cookies|] == next.cookies[..|next.cookies|][..|jar.cookies|];
      r
  }

  /** `CloudFlareConnectConfiguration`: cookies (the list and each entry may
      be null) and the user agent. */
  datatype CloudFlareConfig = CloudFlareConfig(cookies: Option<seq<Option<NetCookie>>>, userAgent: string)

  /** The test program's `BittrexFeedConnectConfiguration`. */
  datatype BittrexConfig = BittrexConfig(cloudFlare: Option<CloudFlareConfig>, accessToken: Option<string>)

  /** The ".AspNet.ApplicationCookie" cookie carrying an access token. */
  function AccessTokenCookie(token: string): (c: NetCookie)
    ensures c.name == AccessTokenCookieName && c.value == token
    ensures c.path == "/" && c.domain == ".bittrex.com"
  {
    ScopedCookie(AccessTokenCookieName, token, AccessTokenCookiePath, AccessTokenCookieDomain)
  }

  /** The access-token step both programs share: for a non-empty token the
      cookie is added to the container (null container: NullReference). */
  function AddAccessToken(hub: Hub, feedUri: string, token: Option<string>): (r: Result<Hub, Exception>)
    ensures NullOrEmpty(token) ==> r == Success(hub)
    ensures !NullOrEmpty(token) && hub.cookieJar.None? ==> r.Failure? && r.error.kind == NullReference
    ensures !NullOrEmpty(token) && hub.cookieJar.Some? ==>
      r == Success(hub.(cookieJar := Some(CookieJar(hub.cookieJar.value.cookies + [AccessTokenCookie(token.value)]))))
  {
    if NullOrEmpty(token) then Success(hub)
    else if hub.cookieJar.None? then Failure(NullReferenceError)
    else Success(hub.(cookieJar := Some(AddCookie(hub.cookieJar.value, feedUri, AccessTokenCookie(token.value)))))
  }

  /** `Dictionary.Add`: a key already present throws ArgumentException
      (which names no parameter). */
  function AddHeader(headers: map<string, string>, k: string, v: string): (r: Result<map<string, string>, Exception>)
    ensures r.Failure? <==> k in headers
    ensures r.Failure? ==> r.error.kind.Argument?
    ensures r.Success? ==> k in r.value && r.value[k] == v && r.value - {k} == headers
  {
    if k in headers then Failure(Simple(Argument(""), "An item with the same key has already been added."))
    else Success(headers[k := v])
  }

  /** The CloudFlare part of the test program's `Connect`: User-Agent header,
      then the cookies by name and value, then the ten-second timeout. A null
      cookie list, a null entry, or a null container met by a first cookie
      throws NullReferenceException. */
  function ApplyCloudFlare(hub: Hub, feedUri: string, cf: CloudFlareConfig): (r: (Hub, Option<Exception>))
    ensures r.1.None? ==>
      && UserAgentKey !in hub.headers
      && r.0.headers == hub.headers[UserAgentKey := cf.userAgent]
      && r.0.connectTimeout == Some(ConnectTimeoutSeconds)
      && cf.cookies.Some? && FirstNull(cf.cookies.value) == |cf.cookies.value|
      && (hub.cookieJar.None? ==> |cf.cookies.value| == 0 && r.0.cookieJar.None?)
      && (hub.cookieJar.Some? ==>
            var n := |hub.cookieJar.value.cookies|;
            && r.0.cookieJar.Some? && |r.0.cookieJar.value.cookies| == n + |cf.cookies.value|
            && r.0.cookieJar.value.cookies[..n] == hub.cookieJar.value.cookies
            && forall i :: 0 <= i < |cf.cookies.value| ==>
                 r.0.cookieJar.value.cookies[n + i] == NameValueCookie(cf.cookies.value[i].value.name, cf.cookies.value[i].value.value))
    ensures UserAgentKey in hub.headers ==> r.1.Some? && r.1.value.kind.Argument? && r.0 == hub
    ensures r.0.baseUrl == hub.baseUrl && r.0.hubName == hub.hubName
  {
    match AddHeader(hub.headers, UserAgentKey, cf.userAgent)
    case Failure(e) => (hub, Some(e))
    case Success(headers) =>
      var h1 := hub.(headers := headers);
      if cf.cookies.None? then (h1, Some(NullReferenceError))
      else if |cf.cookies.value| == 0 then (h1.(connectTimeout := Some(ConnectTimeoutSeconds)), None)
      else if h1.cookieJar.None? then (h1, Some(NullReferenceError))
      else
        var (jar, thrown) := AddNameValueCookies(h1.cookieJar.value, feedUri, cf.cookies.value);
        var h2 := h1.(cookieJar := Some(jar));
        if thrown.Some? then (h2, thrown)
        else (h2.(connectTimeout := Some(ConnectTimeoutSeconds)), None)
  }

  /** The test program's `BittrexExchange.Connect`, up to `_connection.Start`. */
  function BittrexConnect(hub: Hub, feedUri: string, config: Option<BittrexConfig>): (r: ConnectOutcome)
    ensures config.None? ==> r == ConnectOutcome(hub, Success(DefaultTransports))
    ensures config.Some? && config.value.cloudFlare.None? ==>
      r.started.Success? ==> r.started.value == DefaultTransports
    ensures config.Some? && config.value.cloudFlare.Some? && r.started.Success? ==>
      r.started.value == Transports([WebSocketTransportEx, LongPolling])
    ensures r.started.Success? && config.Some? && !NullOrEmpty(config.value.accessToken) ==>
      && r.hub.cookieJar.Some?
      && |r.hub.cookieJar.value.cookies| > 0
      && r.hub.cookieJar.value.cookies[|r.hub.cookieJar.value.cookies| - 1] == AccessTokenCookie(config.value.accessToken.value)
    ensures config.Some? && NullOrEmpty(config.value.accessToken) && config.value.cloudFlare.None? ==>
      r == ConnectOutcome(hub, Success(DefaultTransports))
  {
    if config.None? then ConnectOutcome(hub, Success(DefaultTransports))
    else
      var cfg := config.value;
      var (h1, thrown, transports) :=
        if cfg.cloudFlare.None? then (hub, None, DefaultTransports)
        else
          var (h, t) := ApplyCloudFlare(hub, feedUri, cfg.cloudFlare.value);
          (h, t, Transports([WebSocketTransportEx, LongPolling]));
      if thrown.Some? then ConnectOutcome(h1, Failure(thrown.value))
      else match AddAccessToken(h1, feedUri, cfg.accessToken)
        case Failure(e) => ConnectOutcome(h1, Failure(e))
        case Success(h2) => ConnectOutcome(h2, Success(transports))
  }

  /** The bypass context handed to the test program's `Connect` as it is:
      without a "cf_clearance" cookie in the container, `Connect` throws
      NullReferenceException before the hub starts. */
  lemma MissingClearanceCookieFails(hub: Hub, feedUri: string, service: BypassService, jar: CookieJar, token: Option<string>)
    requires forall i :: 0 <= i < |jar.cookies| ==> !EqualsIgnoreCase(jar.cookies[i].name, CfClearanceCookieName)
    requires UserAgentKey !in hub.headers
    ensures var ctx := GetBypassContext(service, jar);
            var r := BittrexConnect(hub, feedUri, Some(BittrexConfig(Some(CloudFlareConfig(Some(ctx.cookies), ctx.userAgent)), token)));
            r.started.Failure? && r.started.error.kind == NullReference
  {
    var ctx := GetBypassContext(service, jar);
    assert ctx.cookies[1].None?;
    assert FirstNull(ctx.cookies) < 2;
  }

  /** With both bypass cookies present, the hub's container receives them by
      name and value, in lookup order, and the hub starts with the
      websocket-sharp transport first. */
  lemma BypassCookiesForwarded(hub: Hub, feedUri: string, service: BypassService, jar: CookieJar)
    requires hub.cookieJar.Some? && UserAgentKey !in hub.headers
    requires var ctx := GetBypassContext(service, jar); ctx.cookies[0].Some? && ctx.cookies[1].Some?
    ensures var ctx := GetBypassContext(service, jar);
            var r := BittrexConnect(hub, feedUri, Some(BittrexConfig(Some(CloudFlareConfig(Some(ctx.cookies), ctx.userAgent)), None)));
            var n := |hub.cookieJar.value.cookies|;
            && r.started == Success(Transports([WebSocketTransportEx, LongPolling]))
            && r.hub.headers == hub.headers[UserAgentKey := service.userAgent]
            && r.hub.cookieJar.Some? && |r.hub.cookieJar.value.cookies| == n + 2
            && r.hub.cookieJar.value.cookies[n] == NameValueCookie(ctx.cookies[0].value.name, ctx.cookies[0].value.value)
            && r.hub.cookieJar.value.cookies[n + 1] == NameValueCookie(ctx.cookies[1].value.name, ctx.cookies[1].value.value)
  {
    var ctx := GetBypassContext(service, jar);
    assert FirstNull(ctx.cookies[2..]) == 0;
    assert FirstNull(ctx.cookies) == 2;
  }

  /** The demo's `ConnectionConfiguration`: a cookie container and headers,
      either of which may be null. */
  datatype ConnectionConfig = ConnectionConfig(cookieJar: Option<CookieJar>, headers: Option<map<string, string>>)

  datatype DemoConfig = DemoConfig(connection: Option<ConnectionConfig>, accessToken: Option<string>)

  /** The demo's `BittrexExchange.Connect`, up to `_connection.Start`: the
      configured container replaces the hub's (even when null), configured
      headers overwrite by key, and the access token is added last. */
  function DemoConnect(hub: Hub, feedUri: string, config: Option<DemoConfig>): (r: ConnectOutcome)
    ensures config.None? ==> r == ConnectOutcome(hub, Success(DefaultTransports))
    ensures r.hub.baseUrl == hub.baseUrl && r.hub.hubName == hub.hubName
    ensures config.Some? && config.value.connection.Some? ==>
      var cc := config.value.connection.value;
      && r.hub.connectTimeout == Some(ConnectTimeoutSeconds)
      && (cc.headers.None? ==> r.hub.headers == hub.headers)
      && (cc.headers.Some? ==> forall k :: k in cc.headers.value ==> k in r.hub.headers && r.hub.headers[k] == cc.headers.value[k])
      && (cc.headers.Some? ==> forall k :: k !in cc.headers.value ==>
            (k in r.hub.headers <==> k in hub.headers) && (k in hub.headers ==> r.hub.headers[k] == hub.headers[k]))
      && (NullOrEmpty(config.value.accessToken) ==> r.hub.cookieJar == cc.cookieJar)
      && (r.started.Success? ==> r.started.value == Transports([WebSocketSharpTransport, LongPolling]))
    ensures config.Some? && !NullOrEmpty(config.value.accessToken) ==>
      var jar := if config.value.connection.Some? then config.value.connection.value.cookieJar else hub.cookieJar;
      && (jar.None? <==> r.started.Failure?)
      && (r.started.Failure? ==> r.started.error.kind == NullReference)
      && (jar.Some? ==> r.hub.cookieJar == Some(CookieJar(jar.value.cookies + [AccessTokenCookie(config.value.accessToken.value)])))
  {
    if config.None? then ConnectOutcome(hub, Success(DefaultTransports))
    else
      var cfg := config.value;
      var (h1, transports) :=
        if cfg.connection.None? then (hub, DefaultTransports)
        else
          var cc := cfg.connection.value;
          var headers := if cc.headers.Some? then hub.headers + cc.headers.value else hub.headers;
          (hub.(cookieJar := cc.cookieJar, headers := headers, connectTimeout := Some(ConnectTimeoutSeconds)),
           Transports([WebSocketSharpTransport, LongPolling]));
      match AddAccessToken(h1, feedUri, cfg.accessToken)
      case Failure(e) => ConnectOutcome(h1, Failure(e))
      case Success(h2) => ConnectOutcome(h2, Success(transports))
  }
}
