/** The URLs the client builds: the authorise URL, the two handshake URLs, the
    verb URLs, and the port and path the binary download derives from a
    parsed URL. All are plain concatenations; nothing is percent-encoded. */
module Urls {
  import opened JsValues
  import opened Configuration

  const AuthorizeQuery: string := "/oauth/Authorize?oauth_token="
  const TenantTypeQuery: string := "?tenantType="

  /** Where the user authorises a request token: the token is appended verbatim. */
  function AuthoriseUrl(apiBaseUrl: string, oauthToken: string): (url: string)
    ensures apiBaseUrl + AuthorizeQuery <= url
    ensures |url| == |apiBaseUrl| + |AuthorizeQuery| + |oauthToken|
  {
    apiBaseUrl + AuthorizeQuery + oauthToken
  }

  /** Reads the token back out of an authorise URL built on `apiBaseUrl`;
      `None` when the URL does not have that shape. */
  function AuthorisedToken(apiBaseUrl: string, url: string): Option<string>
  {
    var prefix := apiBaseUrl + AuthorizeQuery;
    if prefix <= url then Some(url[|prefix|..]) else None
  }

  /** The authorise URL carries exactly the token it was built from. */
  lemma AuthoriseUrlRoundTrip(apiBaseUrl: string, oauthToken: string)
    ensures AuthorisedToken(apiBaseUrl, AuthoriseUrl(apiBaseUrl, oauthToken)) == Some(oauthToken)
  {
  }

  /** Different tokens give different authorise URLs. */
  lemma AuthoriseUrlInjective(apiBaseUrl: string, t1: string, t2: string)
    requires AuthoriseUrl(apiBaseUrl, t1) == AuthoriseUrl(apiBaseUrl, t2)
    ensures t1 == t2
  {
    AuthoriseUrlRoundTrip(apiBaseUrl, t1);
    AuthoriseUrlRoundTrip(apiBaseUrl, t2);
  }

  /** The library's request-token URL: the `tenantType` query is added iff a
      tenant type is configured. */
  function RequestTokenUrl(config: OAuth1Configuration): (url: string)
    ensures config.apiBaseUrl + config.oauthRequestTokenPath <= url
    ensures url == config.apiBaseUrl + config.oauthRequestTokenPath <==> config.tenantType == ""
    ensures config.tenantType != "" ==>
      url[|config.apiBaseUrl + config.oauthRequestTokenPath|..] == TenantTypeQuery + config.tenantType
  {
    var path := if config.tenantType != ""
      then config.oauthRequestTokenPath + TenantTypeQuery + config.tenantType
      else config.oauthRequestTokenPath;
    assert config.apiBaseUrl + path
      == config.apiBaseUrl + config.oauthRequestTokenPath + (if config.tenantType != "" then TenantTypeQuery + config.tenantType else "");
    config.apiBaseUrl + path
  }

  /** The URL both the token swap and the refresh are sent to. */
  function AccessTokenUrl(config: OAuth1Configuration): (url: string)
    ensures config.apiBaseUrl <= url
    ensures url[|config.apiBaseUrl|..] == config.oauthAccessTokenPath
  {
    config.apiBaseUrl + config.oauthAccessTokenPath
  }

  /** The URL of every verb call and stream call: base URL, base path, then
      the endpoint verbatim. */
  function VerbUrl(config: OAuth1Configuration, endpoint: string): (url: string)
    ensures config.apiBaseUrl + config.apiBasePath <= url
    ensures url[|config.apiBaseUrl + config.apiBasePath|..] == endpoint
  {
    config.apiBaseUrl + config.apiBasePath + endpoint
  }

  /** Different endpoints address different URLs. */
  lemma VerbUrlInjective(config: OAuth1Configuration, e1: string, e2: string)
    requires VerbUrl(config, e1) == VerbUrl(config, e2)
    ensures e1 == e2
  {
  }

  /** The parts of a URL that Node's `URL.parse` yields and the binary
      download reads. A part that is `null` is "" here: both are falsy. */
  datatype ParsedUrl = ParsedUrl(
    protocol: string,
    host: string,
    hostname: string,
    port: string,
    pathname: string,
    query: string)

  /** The port the binary download connects to: an explicit port is kept;
      otherwise 80 for `http:`, 443 for `https:`, and none for other schemes. */
  function EffectivePort(u: ParsedUrl): (port: string)
    ensures u.port != "" ==> port == u.port
    ensures u.port == "" && u.protocol == "http:" ==> port == "80"
    ensures u.port == "" && u.protocol == "https:" ==> port == "443"
    ensures u.port == "" && u.protocol != "http:" && u.protocol != "https:" ==> port == ""
  {
    if u.protocol == "http:" && u.port == "" then "80"
    else if u.protocol == "https:" && u.port == "" then "443"
    else u.port
  }

  /** The download connects over TLS iff the scheme is `https:`. */
  predicate UsesTls(u: ParsedUrl) {
    u.protocol == "https:"
  }

  /** The request path of the binary download: an empty pathname becomes "/",
      and the query, when there is one, follows a "?". */
  function RequestPath(u: ParsedUrl): (path: string)
    ensures path != ""
    ensures u.query == "" ==> path == (if u.pathname == "" then "/" else u.pathname)
  {
    var pathname := if u.pathname == "" then "/" else u.pathname;
    if u.query != "" then pathname + "?" + u.query else pathname
  }

  /** Splits a request path at its first "?" into pathname and query. */
  function SplitAtQuery(path: string): (string, string)
  {
    if path == [] then ([], [])
    else if path[0] == '?' then ([], path[1..])
    else
      var (p, q) := SplitAtQuery(path[1..]);
      ([path[0]] + p, q)
  }

  lemma {:induction false} SplitAtQueryNoMark(p: string)
    requires '?' !in p
    ensures SplitAtQuery(p) == (p, "")
  {
    if p != [] {
      SplitAtQueryNoMark(p[1..]);
      assert [p[0]] + p[1..] == p;
    }
  }

  lemma {:induction false} SplitAtQueryJoin(p: string, q: string)
    requires '?' !in p
    ensures SplitAtQuery(p + "?" + q) == (p, q)
  {
    if p == [] {
      assert p + "?" + q == ['?'] + q;
    } else {
      assert (p + "?" + q)[0] == p[0];
      assert (p + "?" + q)[1..] == p[1..] + "?" + q;
      SplitAtQueryJoin(p[1..], q);
      assert [p[0]] + p[1..] == p;
    }
  }

  /** The request path loses nothing: splitting it at its first "?" gives
      back the (defaulted) pathname and the query. A parsed pathname never
      contains "?", since the parser splits the query off at the first one;
      the path then carries a "?" exactly when there is a query. */
  lemma RequestPathRoundTrip(u: ParsedUrl)
    requires '?' !in u.pathname
    ensures SplitAtQuery(RequestPath(u)) == (if u.pathname == "" then "/" else u.pathname, u.query)
    ensures '?' in RequestPath(u) <==> u.query != ""
  {
    var pathname := if u.pathname == "" then "/" else u.pathname;
    assert '?' !in pathname;
    if u.query != "" {
      SplitAtQueryJoin(pathname, u.query);
      assert (pathname + "?" + u.query)[|pathname|] == '?';
    } else {
      SplitAtQueryNoMark(pathname);
    }
  }
}
