/** The OAuth 1.0 HTTP client: a mutable credential state, the library's
    mutable header object, the handshake steps, the five verbs and the two
    download paths and the upload path. Every reply of the library, the
    clock, URL parsing, query-string parsing and signing are parameters. */
module Client {
  import opened JsValues
  import opened Configuration
  import opened Chunks
  import opened Urls
  import opened Headers
  import opened Responses
  import opened Credentials
  import opened Library

  /** A caller's writable file stream: the chunks written to it, in order,
      and how often it was ended or closed. */
  class WriteStream {
    var written: seq<seq<byte>>
    var endCalls: nat
    var closed: bool

    constructor ()
      ensures written == [] && endCalls == 0 && !closed
    {
      written, endCalls, closed := [], 0, false;
    }

    /** Everything written so far, as one byte sequence. */
    function Contents(): seq<byte>
      reads this
    {
      Concat(written)
    }

    method Write(chunk: seq<byte>)
      modifies this
      ensures written == old(written) + [chunk]
      ensures endCalls == old(endCalls) && closed == old(closed)
    {
      written := written + [chunk];
    }

    method End()
      modifies this
      ensures endCalls == old(endCalls) + 1
      ensures written == old(written) && closed == old(closed)
    {
      endCalls := endCalls + 1;
    }

    method Close()
      modifies this
      ensures closed
      ensures written == old(written) && endCalls == old(endCalls)
    {
      closed := true;
    }
  }

  /** The events a streamed response emits, in order. */
  datatype StreamEvent = Data(chunk: seq<byte>) | End | Close

  /** The chunks of the 'data' events, in order. */
  function DataChunks(events: seq<StreamEvent>): seq<seq<byte>>
  {
    if events == [] then []
    else
      var last := events[|events| - 1];
      DataChunks(events[..|events| - 1]) + (if last.Data? then [last.chunk] else [])
  }

  /** The number of 'end' and 'close' events. */
  function EndSignals(events: seq<StreamEvent>): nat
  {
    if events == [] then 0
    else EndSignals(events[..|events| - 1]) + (if events[|events| - 1].Data? then 0 else 1)
  }

  /** One 'data' event per chunk. */
  function DataEvents(chunks: seq<seq<byte>>): (events: seq<StreamEvent>)
    ensures |events| == |chunks|
    ensures forall i :: 0 <= i < |chunks| ==> events[i] == Data(chunks[i])
  {
    seq(|chunks|, i requires 0 <= i < |chunks| => Data(chunks[i]))
  }

  lemma {:induction false} DataEventsRoundTrip(chunks: seq<seq<byte>>)
    ensures DataChunks(DataEvents(chunks)) == chunks
    ensures EndSignals(DataEvents(chunks)) == 0
  {
    if chunks != [] {
      var n := |chunks| - 1;
      assert DataEvents(chunks)[..n] == DataEvents(chunks[..n]);
      DataEventsRoundTrip(chunks[..n]);
      assert chunks[..n] + [chunks[n]] == chunks;
    }
  }

  /** A response that sends its chunks and then ends (or closes) delivers
      every chunk, in order, and ends the sink: the sink's contents are
      exactly the bytes received, for any number of chunks including none. */
  lemma CleanStreamDeliversAll(chunks: seq<seq<byte>>, terminal: StreamEvent)
    requires !terminal.Data?
    ensures DataChunks(DataEvents(chunks) + [terminal]) == chunks
    ensures EndSignals(DataEvents(chunks) + [terminal]) == 1
  {
    var events := DataEvents(chunks) + [terminal];
    assert events[..|events| - 1] == DataEvents(chunks);
    DataEventsRoundTrip(chunks);
  }

  /** What the binary download's request brings back: a request error, or a
      response whose body arrives in chunks and then ends. */
  datatype BinaryResponse = NetworkError(cause: string) | Responded(response: Response, chunks: seq<seq<byte>>)

  /** What a call handed to the library, and how its promise ended. */
  datatype Exchange<+T> = Exchange(sent: Option<LibCall>, outcome: Outcome<T>)

  /** A verb call: without a truthy stored token it fails before the library
      is invoked; otherwise it is signed with the stored token and secret and
      its promise follows the library's reply. */
  function VerbExchange(state: Option<AccessToken>, verb: Verb, url: string, headers: HeaderMap, body: Body, reply: LibReply)
    : (x: Exchange<Payload>)
    ensures x.sent.None? <==> AccessTokenError(state).Some?
    ensures x.sent.None? ==> x.outcome == Rejected(AccessTokenError(state).value)
    ensures x.sent.Some? ==>
      && x.sent.value.Signed?
      && Read(state.value.oauthToken) == Some(x.sent.value.token)
      && x.sent.value == Signed(verb, url, x.sent.value.token, Read(state.value.oauthTokenSecret), headers, body)
      && x.outcome == VerbResult(verb, reply)
  {
    match AccessTokenError(state)
    case Some(e) => Exchange(None, Rejected(e))
    case None =>
      Exchange(Some(Signed(verb, url, Read(state.value.oauthToken).value, Read(state.value.oauthTokenSecret), headers, body)),
               VerbResult(verb, reply))
  }

  /** No token, no call: whatever the verb, body and reply, a state without a
      truthy token issues nothing and fails with the access-token error. */
  lemma NoTokenNoCall(state: Option<AccessToken>, verb: Verb, url: string, headers: HeaderMap, body: Body, reply: LibReply)
    requires state.None? || !Truthy(Read(state.value.oauthToken))
    ensures VerbExchange(state, verb, url, headers, body, reply).sent.None?
    ensures VerbExchange(state, verb, url, headers, body, reply).outcome
      == Rejected(if state.None? then TypeError("oauth_token") else MissingAccessToken)
  {
  }

  /** The request of the binary download for a parsed URL: the derived port
      and path, TLS iff `https:`, and the assembled headers. */
  function BinaryRequest(u: ParsedUrl, authorization: string, copied: HeaderMap): (call: LibCall)
    ensures call.BinaryGet? && call.httpMethod == "GET" && call.hostname == u.hostname
    ensures call.port == EffectivePort(u) && call.path == RequestPath(u)
    ensures call.ssl <==> UsesTls(u)
    ensures call.headers == BinaryHeaders(authorization, u.host, copied)
  {
    BinaryGet(EffectivePort(u), u.hostname, "GET", RequestPath(u), BinaryHeaders(authorization, u.host, copied), UsesTls(u))
  }

  class OAuth1HttpClient {
    const config: OAuth1Configuration
    /** The settings of the client's library instance. */
    const oauthLib: LibSettings
    const defaultHeaders: HeaderMap
    /** The stored access token; `None` is `null`. */
    var state: Option<AccessToken>
    /** The caller's optional network agent. */
    var agent: Option<string>
    /** The library instance's `_headers`, reassigned before each call. */
    var libHeaders: HeaderMap

    /** Seeds the state with the caller's token, if one is given, and builds
        the library instance with the default factory. */
    constructor (config: OAuth1Configuration, authState: Option<AccessToken>)
      ensures this.config == config && oauthLib == DefaultLibFactory(config)
      ensures defaultHeaders == DefaultHeaders(config.userAgent)
      ensures state == authState && agent == None
      ensures libHeaders == oauthLib.customHeaders
    {
      this.config := config;
      defaultHeaders := DefaultHeaders(config.userAgent);
      state := None;
      agent := None;
      oauthLib := DefaultLibFactory(config);
      libHeaders := DefaultLibFactory(config).customHeaders;
      new;
      if authState.Some? {
        state := authState;
      }
    }

    method ResetToDefaultHeaders()
      modifies this`libHeaders
      ensures libHeaders == defaultHeaders
    {
      libHeaders := defaultHeaders;
    }

    /** A shallow merge of the update into the stored state. */
    method SetState(update: AccessToken)
      modifies this`state
      ensures state == Some(Merge(old(state), update))
    {
      state := Some(Merge(state, update));
    }

    /** Asks the library for a request token; the credential state is not
        touched. */
    method GetRequestToken(reply: RequestTokenReply) returns (sent: LibCall, r: Outcome<RequestToken>)
      modifies this`libHeaders
      ensures libHeaders == defaultHeaders
      ensures sent == RequestTokenCall(oauthLib.requestTokenUrl, defaultHeaders)
      ensures reply.RequestTokenFailed? ==> r == Rejected(NormaliseLibError(reply.err, None))
      ensures reply.RequestTokenIssued? ==> r == Resolved(RequestToken(reply.oauthToken, reply.oauthTokenSecret))
    {
      ResetToDefaultHeaders();
      sent := RequestTokenCall(oauthLib.requestTokenUrl, libHeaders);
      match reply
      case RequestTokenFailed(err) =>
        r := Rejected(NormaliseLibError(err, None));
      case RequestTokenIssued(token, secret) =>
        r := Resolved(RequestToken(token, secret));
    }

    /** The authorise URL for a request token. It reads only the immutable
        configuration, never the credential state. */
    function BuildAuthoriseUrl(requestToken: RequestToken): (url: string)
      ensures config.apiBaseUrl + AuthorizeQuery <= url
      ensures AuthorisedToken(config.apiBaseUrl, url) == Some(requestToken.oauthToken)
    {
      AuthoriseUrlRoundTrip(config.apiBaseUrl, requestToken.oauthToken);
      AuthoriseUrl(config.apiBaseUrl, requestToken.oauthToken)
    }

    /** Exchanges a request token and verifier for an access token. On
        success the stored state becomes exactly the returned record. */
    method SwapRequestTokenForAccessToken(requestToken: RequestToken, verifier: string, nowMs: int, reply: AccessTokenReply)
      returns (sent: LibCall, r: Outcome<AccessToken>)
      modifies this`libHeaders, this`state
      ensures libHeaders == defaultHeaders
      ensures sent == AccessTokenCall(oauthLib.accessTokenUrl, requestToken.oauthToken, requestToken.oauthTokenSecret, verifier, defaultHeaders)
      ensures reply.AccessTokenFailed? ==> r == Rejected(NormaliseLibError(reply.err, None)) && state == old(state)
      ensures reply.AccessTokenIssued? ==> r == Resolved(IssuedToken(reply.response, nowMs)) && state == Some(r.value)
    {
      ResetToDefaultHeaders();
      sent := AccessTokenCall(oauthLib.accessTokenUrl, requestToken.oauthToken, requestToken.oauthTokenSecret, verifier, libHeaders);
      match reply
      case AccessTokenFailed(err) =>
        r := Rejected(NormaliseLibError(err, None));
      case AccessTokenIssued(response) =>
        var issued := IssuedToken(response, nowMs);
        StoredStateIsIssued(state, response, nowMs);
        SetState(issued);
        r := Resolved(issued);
    }

    /** Refreshes the access token with the stored session handle. The POST
        is signed with the stored access token and secret; the library's
        headers are whatever the previous call left. There is no
        access-token check: a `null` state fails on reading its token. */
    method RefreshAccessToken(nowMs: int, reply: LibReply, parseForm: string -> TokenResponse)
      returns (sent: Option<LibCall>, r: Outcome<AccessToken>)
      modifies this`state
      ensures old(state).None? ==> sent == None && r == Rejected(TypeError("oauth_token")) && state == old(state)
      ensures old(state).Some? ==> sent == Some(SecureRequest(
        "POST", AccessTokenUrl(config),
        Read(old(state).value.oauthToken), Read(old(state).value.oauthTokenSecret),
        map["oauth_session_handle" := Read(old(state).value.oauthSessionHandle)],
        libHeaders))
      ensures old(state).Some? && reply.Failed? ==>
        r == Rejected(NormaliseLibError(reply.err, ResponseHeaders(reply.response))) && state == old(state)
      ensures old(state).Some? && reply.Succeeded? ==>
        r == Resolved(IssuedToken(parseForm(reply.data), nowMs)) && state == Some(r.value)
    {
      if state.None? {
        sent, r := None, Rejected(TypeError("oauth_token"));
        return;
      }
      var s := state.value;
      sent := Some(SecureRequest("POST", config.apiBaseUrl + config.oauthAccessTokenPath,
        Read(s.oauthToken), Read(s.oauthTokenSecret),
        map["oauth_session_handle" := Read(s.oauthSessionHandle)], libHeaders));
      match reply
      case Failed(err, _, response) =>
        r := Rejected(NormaliseLibError(err, ResponseHeaders(response)));
      case Succeeded(data, _) =>
        var response := parseForm(data);
        var issued := IssuedToken(response, nowMs);
        StoredStateIsIssued(state, response, nowMs);
        SetState(issued);
        r := Resolved(issued);
    }

    method Get(endpoint: string, customHeaders: Option<map<string, string>>, reply: LibReply)
      returns (sent: Option<LibCall>, r: Outcome<Payload>)
      modifies this`libHeaders
      ensures libHeaders == MergeHeaders(defaultHeaders, customHeaders)
      ensures Exchange(sent, r) == VerbExchange(state, GET, VerbUrl(config, endpoint), libHeaders, NoBody, reply)
    {
      ResetToDefaultHeaders();
      libHeaders := MergeHeaders(defaultHeaders, customHeaders);
      var x := VerbExchange(state, GET, VerbUrl(config, endpoint), libHeaders, NoBody, reply);
      sent, r := x.sent, x.outcome;
    }

    /** `body` is the caller's object as `JSON.stringify` renders it. */
    method Put(endpoint: string, body: string, customHeaders: Option<map<string, string>>, reply: LibReply)
      returns (sent: Option<LibCall>, r: Outcome<Payload>)
      modifies this`libHeaders
      ensures libHeaders == MergeHeaders(defaultHeaders, customHeaders)
      ensures Exchange(sent, r) == VerbExchange(state, PUT, VerbUrl(config, endpoint), libHeaders, JsonBody(body), reply)
    {
      ResetToDefaultHeaders();
      libHeaders := MergeHeaders(defaultHeaders, customHeaders);
      var x := VerbExchange(state, PUT, VerbUrl(config, endpoint), libHeaders, JsonBody(body), reply);
      sent, r := x.sent, x.outcome;
    }

    method Post(endpoint: string, body: string, customHeaders: Option<map<string, string>>, reply: LibReply)
      returns (sent: Option<LibCall>, r: Outcome<Payload>)
      modifies this`libHeaders
      ensures libHeaders == MergeHeaders(defaultHeaders, customHeaders)
      ensures Exchange(sent, r) == VerbExchange(state, POST, VerbUrl(config, endpoint), libHeaders, JsonBody(body), reply)
    {
      ResetToDefaultHeaders();
      libHeaders := MergeHeaders(defaultHeaders, customHeaders);
      var x := VerbExchange(state, POST, VerbUrl(config, endpoint), libHeaders, JsonBody(body), reply);
      sent, r := x.sent, x.outcome;
    }

    method Patch(endpoint: string, body: string, customHeaders: Option<map<string, string>>, reply: LibReply)
      returns (sent: Option<LibCall>, r: Outcome<Payload>)
      modifies this`libHeaders
      ensures libHeaders == MergeHeaders(defaultHeaders, customHeaders)
      ensures Exchange(sent, r) == VerbExchange(state, PATCH, VerbUrl(config, endpoint), libHeaders, JsonBody(body), reply)
    {
      ResetToDefaultHeaders();
      libHeaders := MergeHeaders(defaultHeaders, customHeaders);
      var x := VerbExchange(state, PATCH, VerbUrl(config, endpoint), libHeaders, JsonBody(body), reply);
      sent, r := x.sent, x.outcome;
    }

    method Delete(endpoint: string, customHeaders: Option<map<string, string>>, reply: LibReply)
      returns (sent: Option<LibCall>, r: Outcome<Payload>)
      modifies this`libHeaders
      ensures libHeaders == MergeHeaders(defaultHeaders, customHeaders)
      ensures Exchange(sent, r) == VerbExchange(state, DELETE, VerbUrl(config, endpoint), libHeaders, NoBody, reply)
    {
      ResetToDefaultHeaders();
      libHeaders := MergeHeaders(defaultHeaders, customHeaders);
      var x := VerbExchange(state, DELETE, VerbUrl(config, endpoint), libHeaders, NoBody, reply);
      sent, r := x.sent, x.outcome;
    }

    /** Uploads the chunks of a read stream (which is assumed to end) as one
        binary POST body with the caller's MIME type and size. */
    method ReadStreamToRequest(endpoint: string, mimeType: string, size: int, chunks: seq<seq<byte>>, reply: LibReply)
      returns (sent: Option<LibCall>, r: Outcome<Payload>)
      modifies this`libHeaders
      ensures AccessTokenError(state).Some? ==>
        sent == None && r == Rejected(AccessTokenError(state).value) && libHeaders == defaultHeaders
      ensures AccessTokenError(state).None? ==>
        && libHeaders == UploadHeaders(defaultHeaders, mimeType, size)
        && sent == Some(Signed(POST, VerbUrl(config, endpoint), Read(state.value.oauthToken).value,
                               Read(state.value.oauthTokenSecret), libHeaders, BinaryBody(Concat(chunks), mimeType)))
        && r == UploadResult(reply)
    {
      ResetToDefaultHeaders();
      var failure := AccessTokenError(state);
      if failure.Some? {
        sent, r := None, Rejected(failure.value);
        return;
      }
      ResetToDefaultHeaders();
      var bufs, body := BufferChunks(chunks);
      libHeaders := UploadHeaders(defaultHeaders, mimeType, size);
      sent := Some(Signed(POST, config.apiBaseUrl + config.apiBasePath + endpoint, Read(state.value.oauthToken).value,
                          Read(state.value.oauthTokenSecret), libHeaders, BinaryBody(body, mimeType)));
      r := UploadResult(reply);
    }

    /** Streams a response into the caller's sink through a library instance
        whose Accept is the MIME type. Every 'data' chunk is written; every
        'end' and every 'close' ends the sink, and the first of them resolves
        the promise. The status code is not looked at. */
    method WriteUTF8ResponseToStream(endpoint: string, mimeType: string, sink: WriteStream, events: seq<StreamEvent>)
      returns (sent: Option<LibCall>, r: Outcome<()>)
      modifies this`libHeaders, sink
      ensures libHeaders == defaultHeaders
      ensures AccessTokenError(state).Some? ==>
        sent == None && r == Rejected(AccessTokenError(state).value) && unchanged(sink)
      ensures AccessTokenError(state).None? ==>
        && sent == Some(StreamGet(VerbUrl(config, endpoint), Read(state.value.oauthToken).value,
                                  Read(state.value.oauthTokenSecret),
                                  DefaultLibFactory(config.(accept := mimeType)).customHeaders))
        && sink.written == old(sink.written) + DataChunks(events)
        && sink.Contents() == old(sink.Contents()) + Concat(DataChunks(events))
        && sink.endCalls == old(sink.endCalls) + EndSignals(events)
        && sink.closed == old(sink.closed)
        && r == (if EndSignals(events) > 0 then Resolved(()) else Pending)
    {
      ResetToDefaultHeaders();
      var failure := AccessTokenError(state);
      if failure.Some? {
        sent, r := None, Rejected(failure.value);
        return;
      }
      var download := DefaultLibFactory(config.(accept := mimeType));
      sent := Some(StreamGet(config.apiBaseUrl + config.apiBasePath + endpoint, Read(state.value.oauthToken).value,
                             Read(state.value.oauthTokenSecret), download.customHeaders));
      r := Pending;
      var i := 0;
      while i < |events|
        invariant 0 <= i <= |events|
        invariant sink.written == old(sink.written) + DataChunks(events[..i])
        invariant sink.endCalls == old(sink.endCalls) + EndSignals(events[..i])
        invariant sink.closed == old(sink.closed)
        invariant libHeaders == defaultHeaders
        invariant r == (if EndSignals(events[..i]) > 0 then Resolved(()) else Pending)
      {
        assert events[..i + 1][..i] == events[..i];
        if events[i].Data? {
          sink.Write(events[i].chunk);
        } else {
          sink.End();
          r := Resolved(());
        }
        i := i + 1;
      }
      assert events[..i] == events;
      ConcatAppend(old(sink.written), DataChunks(events));
    }

    /** Downloads a binary response: the body is gathered chunk by chunk and,
        for a 2xx status, written to the sink in one piece before the sink is
        closed. On failure the sink is left untouched. */
    method WriteBinaryResponseToStream(endpoint: string, mimeType: string, sink: WriteStream,
                                       parse: string -> ParsedUrl,
                                       authorize: (Option<string>, Option<string>, string, string) -> string,
                                       response: BinaryResponse)
      returns (sent: Option<LibCall>, r: Outcome<()>)
      modifies this`libHeaders, sink
      ensures libHeaders == defaultHeaders
      ensures AccessTokenError(state).Some? ==>
        sent == None && r == Rejected(AccessTokenError(state).value) && unchanged(sink)
      ensures AccessTokenError(state).None? ==>
        var url := VerbUrl(config, endpoint);
        var authorization := authorize(Read(state.value.oauthToken), Read(state.value.oauthTokenSecret), "GET", url);
        sent == Some(BinaryRequest(parse(url), authorization, DefaultLibFactory(config.(accept := mimeType)).customHeaders))
      ensures AccessTokenError(state).None? && response.NetworkError? ==>
        r == Rejected(Library(TransportFailure(response.cause))) && unchanged(sink)
      ensures AccessTokenError(state).None? && response.Responded? && 200 <= response.response.statusCode <= 299 ==>
        && r == Resolved(())
        && sink.written == old(sink.written) + [Concat(response.chunks)]
        && sink.Contents() == old(sink.Contents()) + Concat(response.chunks)
        && sink.closed && sink.endCalls == old(sink.endCalls)
      ensures AccessTokenError(state).None? && response.Responded? && !(200 <= response.response.statusCode <= 299) ==>
        && r == Rejected(NormaliseLibError(HttpFailure(response.response.statusCode, Latin1(Concat(response.chunks))),
                                           Some(response.response.headers)))
        && unchanged(sink)
    {
      ResetToDefaultHeaders();
      var failure := AccessTokenError(state);
      if failure.Some? {
        sent, r := None, Rejected(failure.value);
        return;
      }
      var url := config.apiBaseUrl + config.apiBasePath + endpoint;
      var u := parse(url);
      var authorization := authorize(Read(state.value.oauthToken), Read(state.value.oauthTokenSecret), "GET", url);
      var copied := DefaultLibFactory(config.(accept := mimeType)).customHeaders;
      var headers := AssembleBinaryHeaders(authorization, u.host, copied);
      sent := Some(BinaryRequest(u, authorization, copied));
      assert sent.value.headers == headers;
      match response
      case NetworkError(cause) =>
        r := Rejected(NormaliseLibError(TransportFailure(cause), None));
      case Responded(res, chunks) =>
        var data := AccumulateBinaryBody(chunks);
        var err := PassBackControl(res.statusCode, data);
        if err.Some? {
          r := Rejected(NormaliseLibError(err.value, Some(res.headers)));
        } else {
          sink.Write(LowBytes(data));
          ConcatAppend(old(sink.written), [Concat(chunks)]);
          sink.Close();
          r := Resolved(());
        }
    }

    /** The connection factory installed on the client's library instance:
        TLS iff requested, and the caller's agent iff one is set. */
    function CreateHttpClientWithProxySupport(port: string, hostname: string, httpMethod: string, path: string,
                                              headers: HeaderMap, sslEnabled: bool): (options: RequestOptions)
      reads this
      ensures options.transport == Https <==> sslEnabled
      ensures options.agent == agent
      ensures options.host == hostname && options.port == port && options.path == path
      ensures options.httpMethod == httpMethod && options.headers == headers
    {
      RequestOptions(if sslEnabled then Https else Http, hostname, port, path, httpMethod, headers, agent)
    }
  }
}
