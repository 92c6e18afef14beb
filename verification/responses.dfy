/** How the client classifies what comes back: the 2xx split of the binary
    download, the mapping of library errors to `XeroError`, and how each verb
    shapes a successful body. */
module Responses {
  import opened JsValues

  /** An HTTP response as the client sees it: status code and headers. */
  datatype Response = Response(statusCode: int, headers: map<string, string>)

  /** An error the library reports: an HTTP rejection carrying the status code
      and the body, or a lower-level error (connection, DNS) with no status. */
  datatype LibFailure = HttpFailure(statusCode: int, data: string) | TransportFailure(cause: string)

  /** The errors a call ends with. `TypeError(p)` is the JavaScript error of
      reading property `p` of `null` or `undefined`; `Library` is a library
      error passed through unchanged. */
  datatype ClientError =
    | MissingAccessToken
    | TypeError(property: string)
    | XeroError(statusCode: int, data: Option<string>, headers: Option<map<string, string>>)
    | Library(failure: LibFailure)

  /** How a call's promise ends. `Uncaught` is an exception thrown inside a
      library callback: it escapes the promise, which stays unsettled. */
  datatype Outcome<+T> = Pending | Resolved(value: T) | Rejected(error: ClientError) | Uncaught(error: ClientError)

  /** What the library hands the client's callback: `(err, data, response)`. */
  datatype LibReply =
    | Failed(err: LibFailure, body: Option<string>, response: Option<Response>)
    | Succeeded(data: string, response: Option<Response>)

  /** `httpResponse ? httpResponse.headers : null` */
  function ResponseHeaders(response: Option<Response>): Option<map<string, string>>
  {
    if response.Some? then Some(response.value.headers) else None
  }

  /** An error whose status code is truthy becomes a `XeroError` with that
      status, the error's body and the given headers; any other error is
      passed through unchanged. */
  function NormaliseLibError(err: LibFailure, headers: Option<map<string, string>>): (e: ClientError)
    ensures e.XeroError? <==> err.HttpFailure? && err.statusCode != 0
    ensures e.XeroError? ==> e.statusCode == err.statusCode && e.data == Some(err.data) && e.headers == headers
    ensures !e.XeroError? ==> e == Library(err)
  {
    if err.HttpFailure? && err.statusCode != 0 then XeroError(err.statusCode, Some(err.data), headers)
    else Library(err)
  }

  datatype Verb = GET | PUT | POST | PATCH | DELETE

  /** A successful result: `null`, or what `JSON.parse` makes of the body
      (JSON itself is not interpreted here). */
  datatype Payload = Null | Parsed(json: string)

  /** POST and DELETE give `null` for an empty body; GET, PUT and PATCH always
      parse the body. */
  function ShapeBody(verb: Verb, data: string): (p: Payload)
    ensures p.Null? <==> (verb == POST || verb == DELETE) && data == ""
    ensures p.Parsed? ==> p.json == data
  {
    if (verb == POST || verb == DELETE) && data == "" then Null else Parsed(data)
  }

  /** The promise of a verb call once the library has answered: it resolves
      iff the library reports success, and otherwise rejects with the
      normalised error and the response's headers, if any. */
  function VerbResult(verb: Verb, reply: LibReply): (r: Outcome<Payload>)
    ensures r.Resolved? <==> reply.Succeeded?
    ensures reply.Succeeded? ==> r.value == ShapeBody(verb, reply.data)
    ensures reply.Failed? ==> r == Rejected(NormaliseLibError(reply.err, ResponseHeaders(reply.response)))
  {
    match reply
    case Succeeded(data, _) => Resolved(ShapeBody(verb, data))
    case Failed(err, _, response) => Rejected(NormaliseLibError(err, ResponseHeaders(response)))
  }

  /** The upload's promise once the library has answered. Every failure
      becomes a `XeroError` built from the response's status code, the
      callback's body and the response's headers; without a response, reading
      its status code throws inside the callback and escapes the promise. */
  function UploadResult(reply: LibReply): (r: Outcome<Payload>)
    ensures r.Resolved? <==> reply.Succeeded?
    ensures reply.Succeeded? ==> r.value == Parsed(reply.data)
    ensures reply.Failed? && reply.response.Some? ==>
      r == Rejected(XeroError(reply.response.value.statusCode, reply.body, Some(reply.response.value.headers)))
    ensures reply.Failed? && reply.response.None? ==> r == Uncaught(TypeError("statusCode"))
  {
    match reply
    case Succeeded(data, _) => Resolved(Parsed(data))
    case Failed(_, body, response) =>
      if response.Some? then Rejected(XeroError(response.value.statusCode, body, Some(response.value.headers)))
      else Uncaught(TypeError("statusCode"))
  }

  /** An upstream rejection reaches the caller of any verb as a `XeroError`
      with the same status code, body and headers. */
  lemma UpstreamRejection(verb: Verb, statusCode: int, body: string, data: Option<string>, response: Response)
    requires statusCode != 0
    ensures VerbResult(verb, Failed(HttpFailure(statusCode, body), data, Some(response)))
      == Rejected(XeroError(statusCode, Some(body), Some(response.headers)))
  {
  }

  /** The error the binary download hands its callback once the response has
      ended: none for a 2xx status, otherwise the status and the body. */
  function PassBackControl(statusCode: int, data: string): (err: Option<LibFailure>)
    ensures err.None? <==> 200 <= statusCode <= 299
    ensures err.Some? ==> err.value == HttpFailure(statusCode, data)
  {
    if 200 <= statusCode <= 299 then None else Some(HttpFailure(statusCode, data))
  }
}
