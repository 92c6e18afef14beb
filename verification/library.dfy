/** The OAuth 1.0 library as the client's collaborator. Signing, the handshake
    requests and HTTP dispatch happen inside it and are not modelled; what is
    modelled is what the client hands it (a `LibCall`) and what it hands back
    (the replies, as parameters of the client's methods). */
module Library {
  import opened JsValues
  import opened Configuration
  import opened Urls
  import opened Headers
  import opened Responses
  import opened Credentials

  /** The arguments the default library factory passes to the library's
      constructor. */
  datatype LibSettings = LibSettings(
    requestTokenUrl: string,
    accessTokenUrl: string,
    consumerKey: string,
    consumerSecret: string,
    version: string,
    authorizeCallback: string,
    signatureMethod: string,
    customHeaders: HeaderMap)

  /** The default library factory: the handshake URLs are built from the
      configuration, and the library's own headers carry the configured
      Accept and User-Agent. The code reads the callback URL from the client's
      own configuration rather than from the factory's argument; every caller
      passes that configuration or a copy of it with only Accept changed, so
      reading it from the argument gives the same URL. */
  function DefaultLibFactory(config: OAuth1Configuration): (lib: LibSettings)
    ensures lib.requestTokenUrl == RequestTokenUrl(config)
    ensures lib.accessTokenUrl == AccessTokenUrl(config)
    ensures lib.version == "1.0A"
    ensures lib.customHeaders == LibraryHeaders(config.accept, config.userAgent)
  {
    LibSettings(
      RequestTokenUrl(config),
      AccessTokenUrl(config),
      config.consumerKey,
      config.consumerSecret,
      "1.0A",
      config.callbackUrl,
      config.signatureMethod,
      LibraryHeaders(config.accept, config.userAgent))
  }

  /** The library instance the downloads build from `{ ...config, accept: mimeType }`
      differs from the client's own only in its Accept header. */
  lemma DownloadLibraryDiffersOnlyInAccept(config: OAuth1Configuration, mimeType: string)
    ensures DefaultLibFactory(config.(accept := mimeType)).customHeaders == LibraryHeaders(mimeType, config.userAgent)
    ensures DefaultLibFactory(config.(accept := mimeType)) == DefaultLibFactory(config).(customHeaders := LibraryHeaders(mimeType, config.userAgent))
  {
  }

  /** A request body: none, a JSON text sent as application/json, or raw
      bytes with their MIME type. */
  datatype Body = NoBody | JsonBody(stringified: string) | BinaryBody(bytes: seq<byte>, mimeType: string)

  /** What the client asks the library to do. The headers are the library's
      `_headers` at the moment of the call (or, for the binary download, the
      header object built by the client). */
  datatype LibCall =
    | RequestTokenCall(url: string, headers: HeaderMap)
    | AccessTokenCall(url: string, requestToken: string, requestTokenSecret: string, verifier: string, headers: HeaderMap)
    | SecureRequest(httpMethod: string, url: string, storedToken: Option<string>, storedTokenSecret: Option<string>,
                    params: map<string, Option<string>>, headers: HeaderMap)
    | Signed(verb: Verb, url: string, token: string, tokenSecret: Option<string>, headers: HeaderMap, body: Body)
    | StreamGet(url: string, token: string, tokenSecret: Option<string>, headers: HeaderMap)
    | BinaryGet(port: string, hostname: string, httpMethod: string, path: string, headers: HeaderMap, ssl: bool)

  /** The library's answer to a request-token request. */
  datatype RequestTokenReply =
    | RequestTokenFailed(err: LibFailure)
    | RequestTokenIssued(oauthToken: string, oauthTokenSecret: string)

  /** The library's answer to an access-token request, parsed. */
  datatype AccessTokenReply =
    | AccessTokenFailed(err: LibFailure)
    | AccessTokenIssued(response: TokenResponse)

  datatype Transport = Http | Https

  /** The options the proxy-aware connection factory passes to Node's
      `request`; `agent` is an opaque handle to the caller's agent. */
  datatype RequestOptions = RequestOptions(
    transport: Transport,
    host: string,
    port: string,
    path: string,
    httpMethod: string,
    headers: HeaderMap,
    agent: Option<string>)
}
