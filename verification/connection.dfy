/** The parts of a SignalR `IConnection` that the request wrappers and the
    transports read, and the `CookieContainer` they take cookies from. */
module Connection {
  import opened Wrappers
  import opened Cookies
  import opened Headers

  datatype Certificates = Certificates(subjects: seq<string>)
  datatype Credentials = Credentials(userName: string)
  datatype Proxy = Proxy(address: string)

  /** A `CookieContainer`, holding its cookies in the order they were added. */
  datatype CookieJar = CookieJar(cookies: seq<NetCookie>)

  /** `CookieContainer.GetCookies(uri)`: the cookies the container sends to
      `uri`. Domain and path matching are not modelled: every held cookie is
      returned, in the order it was added. */
  function GetCookies(jar: CookieJar, uri: string): seq<NetCookie> {
    jar.cookies
  }

  /** `CookieContainer.Add(uri, cookie)`, recorded as an append. */
  function AddCookie(jar: CookieJar, uri: string, c: NetCookie): CookieJar {
    CookieJar(jar.cookies + [c])
  }

  /** `IConnection`: URL, optional certificates, cookie container,
      credentials and proxy, and the connection's request headers in
      enumeration order. */
  datatype Conn = Conn(
    url: string,
    certificates: Option<Certificates>,
    cookieJar: Option<CookieJar>,
    credentials: Option<Credentials>,
    proxy: Option<Proxy>,
    headers: seq<Header>)
}
