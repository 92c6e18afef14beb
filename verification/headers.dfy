/** Header assembly. Header maps are JavaScript objects keyed by exact header
    name ('Content-Length' and 'Content-length' are different keys). */
module Headers {
  import opened JsValues

  /** Header values are strings, except the numeric content lengths. */
  datatype HeaderValue = Text(s: string) | Number(n: int)

  type HeaderMap = map<string, HeaderValue>

  /** The client's default headers. */
  function DefaultHeaders(userAgent: string): (headers: HeaderMap)
    ensures headers.Keys == {"Accept", "User-Agent"}
    ensures headers["Accept"] == Text("application/json") && headers["User-Agent"] == Text(userAgent)
  {
    map["Accept" := Text("application/json"), "User-Agent" := Text(userAgent)]
  }

  /** `{ ...defaults, ...customHeaders }`: every custom header overrides the
      default of the same name; without custom headers the defaults are used
      as they are. */
  function MergeHeaders(defaults: HeaderMap, custom: Option<map<string, string>>): (headers: HeaderMap)
    ensures custom.None? ==> headers == defaults
    ensures custom.Some? ==> headers.Keys == defaults.Keys + custom.value.Keys
    ensures custom.Some? ==> forall k :: k in custom.value ==> headers[k] == Text(custom.value[k])
    ensures forall k :: k in defaults && (custom.None? || k !in custom.value) ==> headers[k] == defaults[k]
  {
    match custom
    case None => defaults
    case Some(c) => defaults + map k | k in c :: Text(c[k])
  }

  /** The upload's headers: the defaults plus the caller's MIME type and the
      caller's size, taken as given. */
  function UploadHeaders(defaults: HeaderMap, mimeType: string, size: int): (headers: HeaderMap)
    ensures headers.Keys == defaults.Keys + {"Content-Type", "Content-Length"}
    ensures headers["Content-Type"] == Text(mimeType) && headers["Content-Length"] == Number(size)
    ensures forall k :: k in defaults && k != "Content-Type" && k != "Content-Length" ==> headers[k] == defaults[k]
  {
    defaults + map["Content-Type" := Text(mimeType), "Content-Length" := Number(size)]
  }

  /** The headers of the binary download: Authorization and Host, then every
      header of `copied`, then 'Content-length' forced to 0. */
  function BinaryHeaders(authorization: string, host: string, copied: HeaderMap): (headers: HeaderMap)
    ensures headers.Keys == {"Authorization", "Host", "Content-length"} + copied.Keys
    ensures headers["Content-length"] == Number(0)
    ensures forall k :: k in copied && k != "Content-length" ==> headers[k] == copied[k]
    ensures "Authorization" !in copied ==> headers["Authorization"] == Text(authorization)
    ensures "Host" !in copied ==> headers["Host"] == Text(host)
  {
    (map["Authorization" := Text(authorization), "Host" := Text(host)] + copied)["Content-length" := Number(0)]
  }

  /** The download code fills its header object one key at a time; the
      copy loop visits each own key of `copied` once, in any order. */
  method AssembleBinaryHeaders(authorization: string, host: string, copied: HeaderMap) returns (headers: HeaderMap)
    ensures headers == BinaryHeaders(authorization, host, copied)
    ensures headers["Content-length"] == Number(0)
  {
    ghost var start := map["Authorization" := Text(authorization), "Host" := Text(host)];
    headers := map[];
    headers := headers["Authorization" := Text(authorization)];
    headers := headers["Host" := Text(host)];
    var todo := copied.Keys;
    while todo != {}
      invariant todo <= copied.Keys
      invariant headers.Keys == start.Keys + (copied.Keys - todo)
      invariant forall k :: k in copied && k !in todo ==> headers[k] == copied[k]
      invariant forall k :: k in start && (k !in copied || k in todo) ==> headers[k] == start[k]
      decreases todo
    {
      var k :| k in todo;
      headers := headers[k := copied[k]];
      todo := todo - {k};
    }
    assert headers == start + copied;
    headers := headers["Content-length" := Number(0)];
  }

  /** As written, the copy loop reads the `_headers` of the client object
      itself, which has none, so it copies nothing. */
  function BinaryHeadersAsWritten(authorization: string, host: string): (headers: HeaderMap)
    ensures headers.Keys == {"Authorization", "Host", "Content-length"}
  {
    BinaryHeaders(authorization, host, map[])
  }

  /** The headers an OAuth library instance carries of its own: the Accept
      and User-Agent it was made with. The binary download evidently meant to
      copy these from the instance made for it, whose Accept is the requested
      MIME type. */
  function LibraryHeaders(accept: string, userAgent: string): (headers: HeaderMap)
    ensures headers.Keys == {"Accept", "User-Agent"}
    ensures headers["Accept"] == Text(accept)
    ensures headers["User-Agent"] == Text(userAgent)
  {
    map["Accept" := Text(accept), "User-Agent" := Text(userAgent)]
  }

  /** The binary download as written asks for no media type at all: its
      headers are built from the authorization and the host alone, so no
      Accept or User-Agent header is sent, whatever MIME type was requested. */
  lemma BinaryDownloadOmitsAccept(authorization: string, host: string)
    ensures "Accept" !in BinaryHeadersAsWritten(authorization, host)
    ensures "User-Agent" !in BinaryHeadersAsWritten(authorization, host)
  {
  }

  /** With the copy taken from the download's library instance, the request
      asks for exactly the caller's MIME type, carries the User-Agent, and
      still has Authorization, Host and a zero 'Content-length'. */
  lemma BinaryDownloadCarriesAccept(authorization: string, host: string, mimeType: string, userAgent: string)
    ensures var h := BinaryHeaders(authorization, host, LibraryHeaders(mimeType, userAgent));
      && h.Keys == {"Authorization", "Host", "Accept", "User-Agent", "Content-length"}
      && h["Accept"] == Text(mimeType)
      && h["User-Agent"] == Text(userAgent)
      && h["Authorization"] == Text(authorization)
      && h["Host"] == Text(host)
      && h["Content-length"] == Number(0)
  {
  }
}
