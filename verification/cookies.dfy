/** Cookies as the transport and the two demo programs handle them:
    conversion from `System.Net.Cookie` to websocket-sharp's cookie, the
    `name=value` rendering, filtering by name and the name lookup of a
    `CookieCollection`. */
module Cookies {
  import opened Wrappers

  /** `System.Net.Cookie`; `expires` is a timestamp in ticks. */
  datatype NetCookie = NetCookie(
    name: string, value: string, path: string, domain: string,
    comment: string, commentUri: Option<string>,
    discard: bool, expired: bool, expires: int,
    httpOnly: bool, port: string, secure: bool, version: int)

  /** `WebSocketSharp.Net.Cookie`, with the same fields. */
  datatype SharpCookie = SharpCookie(
    name: string, value: string, path: string, domain: string,
    comment: string, commentUri: Option<string>,
    discard: bool, expired: bool, expires: int,
    httpOnly: bool, port: string, secure: bool, version: int)

  /** `new Cookie(name, value)`: every other field takes its default. */
  function NameValueCookie(name: string, value: string): (c: NetCookie)
    ensures c.name == name && c.value == value && c.path == "" && c.domain == ""
  {
    NetCookie(name, value, "", "", "", None, false, false, 0, false, "", false, 0)
  }

  /** `new Cookie(name, value, path, domain)`. */
  function ScopedCookie(name: string, value: string, path: string, domain: string): (c: NetCookie)
    ensures c.name == name && c.value == value && c.path == path && c.domain == domain
  {
    NetCookie(name, value, path, domain, "", None, false, false, 0, false, "", false, 0)
  }

  /** `ToWebSocketSharpCookie`: the four-argument constructor followed by an
      initializer that assigns every remaining property from the source cookie. */
  function ToWebSocketSharpCookie(c: NetCookie): (w: SharpCookie)
    ensures w.name == c.name && w.value == c.value && w.path == c.path && w.domain == c.domain
    ensures w.httpOnly == c.httpOnly && w.secure == c.secure && w.discard == c.discard && w.expired == c.expired
    ensures w.expires == c.expires && w.port == c.port && w.version == c.version
    ensures w.comment == c.comment && w.commentUri == c.commentUri
  {
    var w0 := SharpCookie(c.name, c.value, c.path, c.domain, "", None, false, false, 0, false, "", false, 0);
    w0.(comment := c.comment, commentUri := c.commentUri, discard := c.discard,
        domain := c.domain, expired := c.expired, expires := c.expires,
        httpOnly := c.httpOnly, name := c.name, path := c.path, port := c.port,
        secure := c.secure, value := c.value, version := c.version)
  }

  /** The reverse field mapping, used only to state that the conversion loses nothing. */
  function FromWebSocketSharpCookie(w: SharpCookie): NetCookie {
    NetCookie(w.name, w.value, w.path, w.domain, w.comment, w.commentUri,
              w.discard, w.expired, w.expires, w.httpOnly, w.port, w.secure, w.version)
  }

  /** The conversion is lossless in both directions. */
  lemma ConversionRoundTrip(c: NetCookie, w: SharpCookie)
    ensures FromWebSocketSharpCookie(ToWebSocketSharpCookie(c)) == c
    ensures ToWebSocketSharpCookie(FromWebSocketSharpCookie(w)) == w
  {
  }

  /** `ToHeaderValue`: "name=value". */
  function ToHeaderValue(c: NetCookie): (s: string)
    ensures |s| == |c.name| + 1 + |c.value|
    ensures s[..|c.name|] == c.name && s[|c.name|] == '=' && s[|c.name| + 1..] == c.value
  {
    c.name + "=" + c.value
  }

  /** Position of the first '=' in `s`, or |s| when there is none. */
  function FirstEquals(s: string): (i: nat)
    ensures i <= |s|
    ensures forall j :: 0 <= j < i ==> s[j] != '='
    ensures i < |s| ==> s[i] == '='
  {
    if |s| == 0 || s[0] == '=' then 0 else 1 + FirstEquals(s[1..])
  }

  /** Splits a "name=value" pair at its first '='. */
  function SplitHeaderValue(s: string): (string, string) {
    var i := FirstEquals(s);
    if i < |s| then (s[..i], s[i + 1..]) else (s, "")
  }

  /** A cookie whose name holds no '=' is recovered from its header value. */
  lemma {:induction false} HeaderValueRoundTrip(c: NetCookie)
    requires forall j :: 0 <= j < |c.name| ==> c.name[j] != '='
    ensures SplitHeaderValue(ToHeaderValue(c)) == (c.name, c.value)
  {
    var s := ToHeaderValue(c);
    var i := FirstEquals(s);
    assert s[|c.name|] == '=';
    assert forall j :: 0 <= j < |c.name| ==> s[j] == c.name[j];
  }

  /** `GetCookiesByName`: the cookies (as the container returns them for the
      URI) whose name is one of `names`, compared ordinally, in container order. */
  function GetCookiesByName(cookies: seq<NetCookie>, names: seq<string>): (r: seq<NetCookie>)
    ensures forall c :: c in r <==> c in cookies && c.name in names
    ensures |r| <= |cookies|
  {
    if |cookies| == 0 then []
    else
      var rest := GetCookiesByName(cookies[1..], names);
      assert forall c :: c in cookies <==> c == cookies[0] || c in cookies[1..];
      if cookies[0].name in names then [cookies[0]] + rest else rest
  }

  /** Filtering keeps container order: it distributes over concatenation. */
  lemma {:induction false} GetCookiesByNameKeepsOrder(a: seq<NetCookie>, b: seq<NetCookie>, names: seq<string>)
    ensures GetCookiesByName(a + b, names) == GetCookiesByName(a, names) + GetCookiesByName(b, names)
  {
    if |a| > 0 {
      assert (a + b)[1..] == a[1..] + b;
      GetCookiesByNameKeepsOrder(a[1..], b, names);
    } else {
      assert a + b == b;
    }
  }

  /** Upper-casing of ASCII letters; other characters are unchanged. */
  function UpperAscii(ch: char): char {
    if 'a' <= ch <= 'z' then (ch as int - 'a' as int + 'A' as int) as char else ch
  }

  /** `string.Equals(a, b, StringComparison.OrdinalIgnoreCase)`, restricted to ASCII case. */
  predicate EqualsIgnoreCase(a: string, b: string) {
    |a| == |b| && forall i :: 0 <= i < |a| ==> UpperAscii(a[i]) == UpperAscii(b[i])
  }

  /** `CookieCollection[name]`: the first cookie whose name matches ignoring
      case, or null. */
  function CookieNamed(cookies: seq<NetCookie>, name: string): (r: Option<NetCookie>)
    ensures r.Some? ==> exists i :: 0 <= i < |cookies| && cookies[i] == r.value
                          && EqualsIgnoreCase(cookies[i].name, name)
                          && forall j :: 0 <= j < i ==> !EqualsIgnoreCase(cookies[j].name, name)
    ensures r.None? <==> forall i :: 0 <= i < |cookies| ==> !EqualsIgnoreCase(cookies[i].name, name)
  {
    if |cookies| == 0 then None
    else if EqualsIgnoreCase(cookies[0].name, name) then Some(cookies[0])
    else
      var r := CookieNamed(cookies[1..], name);
      if r.Some? then
        var i :| 0 <= i < |cookies[1..]| && cookies[1..][i] == r.value
                 && EqualsIgnoreCase(cookies[1..][i].name, name)
                 && forall j :: 0 <= j < i ==> !EqualsIgnoreCase(cookies[1..][j].name, name);
        assert cookies[i + 1] == r.value;
        r
      else r
  }
}
