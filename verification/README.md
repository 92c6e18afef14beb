# OAuth 1.0 HTTP client of the Xero accounting API client, modelled in Dafny

This project models `OAuth1HttpClient`, the transport layer of the Xero API
client. The model covers:

- the credential state the client keeps (the access token, its secret, the
  session handle and the expiry), and how a token swap or a refresh replaces it;
- the check that blocks every verb call and the three stream calls when no
  access token is stored (the refresh has none; see below);
- the URLs the client builds;
- the headers it hands to the OAuth library;
- how it turns library replies into results and errors;
- how the binary download and the upload gather their chunks.

The OAuth library is treated as a collaborator. Each client method returns a
`LibCall` record of what it hands the library: method, URL, token pair, headers
and body. Each method also takes the library's reply as a parameter. Several
things are parameters rather than modelled code:

- the clock (`nowMs`);
- Node's URL parser (`parse`);
- the query-string parser (`parseForm`);
- the library's signing step (`authorize`).

A promise's fate is an `Outcome`: `Pending`, `Resolved`, `Rejected`, or
`Uncaught`. `Uncaught` is an exception thrown inside a library callback; it
escapes the promise, and the promise never settles.

Modules:

- `JsValues`: `null`/`undefined`, and object keys that may be absent or set to
  `undefined`.
- `Configuration`: the client's configuration.
- `Chunks`: concatenation, the latin-1 'binary' encoding, and the two chunk loops.
- `Urls`: every URL, plus the download's port and path.
- `Headers`: default, merged, upload and download headers.
- `Responses`: status split, error mapping and body shaping.
- `Credentials`: token record, shallow merge, access check and expiry.
- `Library`: the collaborator's settings, calls and replies.
- `Client`: the `OAuth1HttpClient` class and the caller's `WriteStream` sink.

Behaviour of the code worth knowing (the model follows the code in each case,
except for the one finding below):

- **Session handle on refresh.** A refresh whose response lacks a session
  handle stores `undefined` in its place. The prior handle is not kept,
  because the new record sets every key
  (`Credentials.RefreshWithoutHandleErasesHandle`).
- **No token check on refresh.** `refreshAccessToken` does not check for a
  token. With a `null` state it fails with the TypeError of reading
  `oauth_token`. With a state that has no token, the request is sent with an
  undefined token.
- **Empty token in the authorise URL.** `buildAuthoriseUrl` accepts an empty
  token.
- **Headers on errors.** The request-token and swap errors carry `null`
  headers.
- **Sink on a failed download.** The binary download leaves the caller's
  sink untouched when the download fails.
- **Status codes on the UTF-8 download.** The UTF-8 download never looks at
  the status code.
- **Headers on refresh.** `refreshAccessToken` does not reset the library's
  headers. It is sent with whatever headers the previous call left, possibly
  an upload's `Content-Type` and `Content-Length`.
- **Proxy agent on downloads.** The two download paths build a fresh library
  instance. That instance keeps the library's own connection factory, so the
  proxy-aware factory and the caller's agent only serve calls made through the
  client's own library instance.

## Model

| member | source | states |
|---|---|---|
| `Client.OAuth1HttpClient.constructor` | src/internals/OAuth1HttpClient.ts:54-99 | the state is the supplied token record, or stays `null` without one; no agent is set; the library is built by the default factory, and its headers are the configured Accept and User-Agent |
| `Headers.LibraryHeaders` | src/internals/OAuth1HttpClient.ts:89-92 | a library instance's own headers are exactly its Accept and User-Agent |
| `Library.DefaultLibFactory` | src/internals/OAuth1HttpClient.ts:74-95 | the library gets the request-token URL, the access-token URL, version "1.0A" and the configured Accept and User-Agent headers |
| `Library.DownloadLibraryDiffersOnlyInAccept` | src/internals/OAuth1HttpClient.ts:188 | the library instance built for a download equals the client's own except that its Accept is the requested MIME type |
| `Urls.RequestTokenUrl` | src/internals/OAuth1HttpClient.ts:76-81 | base URL + request-token path, followed by "?tenantType=" and the tenant type iff a tenant type is configured (both directions) |
| `Urls.AccessTokenUrl` | src/internals/OAuth1HttpClient.ts:82 | base URL followed verbatim by the access-token path |
| `Headers.DefaultHeaders` | src/internals/OAuth1HttpClient.ts:60-63 | exactly Accept = application/json and User-Agent = the configured agent |
| `Client.OAuth1HttpClient.ResetToDefaultHeaders` | src/internals/OAuth1HttpClient.ts:65-67 | the library's headers become the defaults |
| `Client.OAuth1HttpClient.GetRequestToken` | src/internals/OAuth1HttpClient.ts:101-117 | the headers are reset and the library is asked against the request-token URL; an error with a status becomes `XeroError(status, body, null)`, any other error passes through; success yields the token pair; the credential state is untouched |
| `Urls.AuthoriseUrl` | src/internals/OAuth1HttpClient.ts:120 | the URL starts with base URL + "/oauth/Authorize?oauth_token=" and its length is that prefix's plus the token's |
| `Urls.AuthoriseUrlRoundTrip` | src/internals/OAuth1HttpClient.ts:120 | reading the token back out of the authorise URL gives exactly the token it was built from |
| `Urls.AuthoriseUrlInjective` | src/internals/OAuth1HttpClient.ts:120 | different tokens give different authorise URLs |
| `Client.OAuth1HttpClient.BuildAuthoriseUrl` | src/internals/OAuth1HttpClient.ts:119-121 | the URL carries exactly the request token; it reads no mutable field, so it neither reads nor changes the credential state |
| `Client.OAuth1HttpClient.SwapRequestTokenForAccessToken` | src/internals/OAuth1HttpClient.ts:123-149 | the headers are reset; the library gets the request token, secret and verifier; on failure the state is unchanged and the error is normalised with `null` headers; on success the stored state equals the returned record |
| `Credentials.ExpiresAt` | src/internals/OAuth1HttpClient.ts:134-135 | the expiry is a valid date iff the window is numeric and now + window × 1000 ms lies within the ±8.64e15 ms a `Date` can hold; a valid expiry lies exactly window × 1000 ms after now |
| `Credentials.ExpiryMonotone` | src/internals/OAuth1HttpClient.ts:167-168 | a later clock or a longer window never yields an earlier valid expiry, and once the earlier one is past the largest valid date the later one is invalid too |
| `Credentials.IssuedToken` | src/internals/OAuth1HttpClient.ts:136-141 | the new record sets all four keys; token, secret and handle read back as the response's values (`undefined` where it has none); the expiry is `ExpiresAt(now, expires_in)` |
| `Credentials.StoredStateIsIssued` | src/internals/OAuth1HttpClient.ts:170-177 | merging the issued record into any state gives exactly that record |
| `Credentials.RefreshWithoutHandleErasesHandle` | src/internals/OAuth1HttpClient.ts:170-176 | a response without a session handle leaves the stored handle `undefined`, whatever was stored before |
| `Credentials.IssuedTokenAuthorises` | src/internals/OAuth1HttpClient.ts:477-481 | after a swap or refresh, signed calls pass the token check iff the response's token is non-empty |
| `Client.OAuth1HttpClient.RefreshAccessToken` | src/internals/OAuth1HttpClient.ts:151-182 | with a `null` state: no call and a TypeError; otherwise a POST to the access-token URL, signed with the stored token and secret, whose only parameter is the stored session handle, using the library's current headers; failure leaves the state unchanged; success stores exactly the record built from the parsed body |
| `Client.OAuth1HttpClient.SetState` | src/internals/OAuth1HttpClient.ts:473-475 | the state becomes the shallow merge of the update into the old state |
| `Credentials.MergeIntoNull` | src/internals/OAuth1HttpClient.ts:474 | merging into a `null` state gives exactly the update |
| `Credentials.MergeKeepsUnsetFields` | src/internals/OAuth1HttpClient.ts:474 | keys the update lacks keep their prior values; keys it has, even set to `undefined`, take the update's |
| `Credentials.MergeCompleteReplaces` | src/internals/OAuth1HttpClient.ts:474 | an update that sets all four keys replaces the state entirely |
| `Credentials.MergeIdempotent` | src/internals/OAuth1HttpClient.ts:474 | applying the same update twice equals applying it once |
| `Credentials.MergeAssociative` | src/internals/OAuth1HttpClient.ts:474 | two successive merges equal one merge of the merged updates |
| `Credentials.AccessTokenError` | src/internals/OAuth1HttpClient.ts:477-481 | no error iff the state is non-null and its token is a non-empty string; a `null` state gives the TypeError of reading `oauth_token`; otherwise `MissingAccessToken` |
| `Headers.MergeHeaders` | src/internals/OAuth1HttpClient.ts:345 | the keys are the defaults' and the custom headers'; a custom header overrides the default of that name; the other defaults are kept; with no custom headers the result is the defaults |
| `Urls.VerbUrl` | src/internals/OAuth1HttpClient.ts:349 | base URL + base path, followed verbatim by the endpoint |
| `Urls.VerbUrlInjective` | src/internals/OAuth1HttpClient.ts:349 | different endpoints address different URLs |
| `Responses.NormaliseLibError` | src/internals/OAuth1HttpClient.ts:356 | an error with a truthy status becomes `XeroError(status, body, headers)`; any other error is passed through unchanged |
| `Responses.ShapeBody` | src/internals/OAuth1HttpClient.ts:409-412 | the result is `null` iff the verb is POST or DELETE and the body is empty; otherwise it is the parse of the body |
| `Responses.VerbResult` | src/internals/OAuth1HttpClient.ts:352-361 | the promise resolves iff the library succeeds, with the shaped body; otherwise it rejects with the normalised error and the response's headers, or `null` without a response |
| `Responses.UpstreamRejection` | src/internals/OAuth1HttpClient.ts:380-381 | any verb given a rejection with status s and body b rejects with `XeroError(s, b, the response's headers)` |
| `Client.VerbExchange` | src/internals/OAuth1HttpClient.ts:347-361 | the library is invoked iff the token check passes; otherwise the call rejects with the check's error; when invoked, the call is signed with the stored token and secret, uses the given URL, headers and body, and its outcome is `VerbResult` |
| `Client.NoTokenNoCall` | src/internals/OAuth1HttpClient.ts:477-481 | for every verb, a state without a truthy token issues nothing and rejects with `MissingAccessToken` (TypeError for a `null` state) |
| `Client.OAuth1HttpClient.Get` | src/internals/OAuth1HttpClient.ts:343-364 | the library's headers become the merged headers (even when the check then fails); the call is `VerbExchange` for GET with no body |
| `Client.OAuth1HttpClient.Put` | src/internals/OAuth1HttpClient.ts:366-390 | as Get, for PUT with the stringified body as JSON |
| `Client.OAuth1HttpClient.Post` | src/internals/OAuth1HttpClient.ts:392-419 | as Get, for POST with the stringified body as JSON; an empty success body gives `null` |
| `Client.OAuth1HttpClient.Patch` | src/internals/OAuth1HttpClient.ts:421-445 | as Get, for PATCH with the stringified body as JSON |
| `Client.OAuth1HttpClient.Delete` | src/internals/OAuth1HttpClient.ts:447-471 | as Get, for DELETE with no body; an empty success body gives `null` |
| `Headers.UploadHeaders` | src/internals/OAuth1HttpClient.ts:320-322 | the defaults plus Content-Type = the MIME type and Content-Length = the caller's size, taken as given; every other default is kept |
| `Chunks.BufferChunks` | src/internals/OAuth1HttpClient.ts:313-317 | `bufs` holds every chunk read, in order; the body is their concatenation, exactly as long as all chunks together |
| `Chunks.ConcatAppend` | src/internals/OAuth1HttpClient.ts:328 | concatenating the chunks distributes over any split of the chunk sequence |
| `Chunks.ConcatLength` | src/internals/OAuth1HttpClient.ts:328 | the concatenation's length is the sum of the chunk lengths |
| `Chunks.ConcatPlacesChunk` | src/internals/OAuth1HttpClient.ts:328 | each chunk appears in the concatenation directly after all earlier chunks |
| `Responses.UploadResult` | src/internals/OAuth1HttpClient.ts:330-337 | resolves iff the library succeeds, always parsing; every failure becomes `XeroError(response status, callback body, response headers)`; without a response the status read throws, which escapes the promise |
| `Client.OAuth1HttpClient.ReadStreamToRequest` | src/internals/OAuth1HttpClient.ts:306-341 | without a token: no call, a rejection, default headers; otherwise the library's headers become the upload headers, and one signed POST carries the concatenated chunks with the MIME type |
| `Client.OAuth1HttpClient.WriteUTF8ResponseToStream` | src/internals/OAuth1HttpClient.ts:184-209 | without a token: no call, a rejection, the sink untouched; otherwise a GET through a library instance that accepts the MIME type; the sink gets every 'data' chunk in order, so its contents grow by exactly their concatenation, and one end() per 'end' or 'close'; the promise resolves iff an 'end' or 'close' arrived |
| `Client.DataEventsRoundTrip` | src/internals/OAuth1HttpClient.ts:195-197 | a stream of only 'data' events delivers exactly its chunks, in order, and no end signal |
| `Client.CleanStreamDeliversAll` | src/internals/OAuth1HttpClient.ts:194-206 | chunks followed by 'end' (or by 'close') deliver exactly those chunks in order (none included) and exactly one end signal |
| `Client.WriteStream.Write` | src/internals/OAuth1HttpClient.ts:196 | the chunk is appended to what the sink has received |
| `Client.WriteStream.End` | src/internals/OAuth1HttpClient.ts:199 | one more end() on the sink, nothing written |
| `Client.WriteStream.Close` | src/internals/OAuth1HttpClient.ts:230 | the sink is closed, nothing written |
| `Client.OAuth1HttpClient.WriteBinaryResponseToStream` | src/internals/OAuth1HttpClient.ts:211-236 | without a token: no call, a rejection, the sink untouched; otherwise a GET is sent to the parsed URL's hostname, effective port and path, over TLS iff the scheme is https, with Authorization, Host, Content-length 0 and (corrected, see Findings) the Accept and User-Agent of the download's library instance; a network error is passed through; a 2xx response writes exactly the received bytes, in order, to the sink in one write (its contents grow by exactly the concatenated chunks) and then closes it; any other status rejects with the status and the body, the sink untouched |
| `Client.BinaryRequest` | src/internals/OAuth1HttpClient.ts:241-274 | a GET to the parsed host name with the derived port and path, TLS iff the scheme is `https:`, with the assembled download headers |
| `Urls.EffectivePort` | src/internals/OAuth1HttpClient.ts:243-245 | an explicit port is kept; a missing one becomes 80 for `http:` and 443 for `https:`, and stays missing for other schemes |
| `Urls.RequestPath` | src/internals/OAuth1HttpClient.ts:261-265 | the path is never empty; without a query it is the pathname alone ("/" for an empty one), with no trailing "?" |
| `Urls.RequestPathRoundTrip` | src/internals/OAuth1HttpClient.ts:261-265 | splitting the request path at its first "?" gives back the pathname (with "/" for an empty one) and the query, and the path contains a "?" exactly when there is a query |
| `Headers.BinaryHeaders` | src/internals/OAuth1HttpClient.ts:247-259 | Authorization and Host, every copied header (which wins over them), and Content-length forced to 0 |
| `Headers.AssembleBinaryHeaders` | src/internals/OAuth1HttpClient.ts:247-259 | filling the header object key by key yields exactly `BinaryHeaders`, with Content-length 0 |
| `Headers.BinaryHeadersAsWritten` | src/internals/OAuth1HttpClient.ts:253-257 | as written, the headers are exactly Authorization, Host and Content-length |
| `Headers.BinaryDownloadOmitsAccept` | src/internals/OAuth1HttpClient.ts:253-257 | as written, the binary download sends neither Accept nor User-Agent: its headers depend only on the authorization and the host, so the requested MIME type never reaches them |
| `Headers.BinaryDownloadCarriesAccept` | src/internals/OAuth1HttpClient.ts:215 | when the download library's headers are copied, the request asks for exactly the MIME type, carries the User-Agent, and keeps Authorization, Host and Content-length 0 |
| `Responses.PassBackControl` | src/internals/OAuth1HttpClient.ts:278-284 | no error iff 200 ≤ status ≤ 299; otherwise the error carries the status and the accumulated body |
| `Chunks.AccumulateBinaryBody` | src/internals/OAuth1HttpClient.ts:276-290 | the `data += chunk` loop yields the latin-1 decoding of all bytes received, in order, and re-encoding it gives exactly those bytes |
| `Chunks.LowBytesOfLatin1` | src/internals/OAuth1HttpClient.ts:227 | `Buffer.from(s, 'binary')` of a latin-1 decoded string gives back the original bytes |
| `Chunks.Latin1Append` | src/internals/OAuth1HttpClient.ts:287-289 | decoding chunk by chunk equals decoding the concatenated bytes |
| `Client.OAuth1HttpClient.CreateHttpClientWithProxySupport` | src/internals/OAuth1HttpClient.ts:484-503 | HTTPS iff `sslEnabled`; the agent is attached iff one is set; host, port, path, method and headers are passed unchanged |

## Findings

| source | as written | input that shows it | evidently intended | confidence | as-written member | corrected member |
|---|---|---|---|---|---|---|
| src/internals/OAuth1HttpClient.ts:253-257 | The header-copy loop, copied from the OAuth library, iterates over `this._headers`. There `this` is the client object, which has no `_headers` property, so nothing is copied. | `writeBinaryResponseToStream("/Invoices/1", "application/pdf", sink)`: the request headers are only Authorization, Host and Content-length, so the PDF Accept header built into the download's library instance (line 215) is never sent | copy the headers of the download's library instance (`oauthForBinary`): Accept = the MIME type, plus User-Agent | medium; not executed | `Headers.BinaryHeadersAsWritten` (shown by `Headers.BinaryDownloadOmitsAccept`) | `Headers.BinaryDownloadCarriesAccept`; `Client.OAuth1HttpClient.WriteBinaryResponseToStream` sends these corrected headers |

## Left out

- Request signing is left out. The signature base string, percent-encoding, parameter ordering, HMAC-SHA1/RSA-SHA1 and the Authorization header all happen inside the external `oauth` package. The binary download receives the Authorization value from an `authorize` parameter. Other calls record the token pair, URL, headers and body handed to the library.
- The library's internals are left out: its request-token and access-token requests, its own connection factory, and its parsing of the token responses. They are not part of this model. The replies are parameters.
- Real I/O is left out: `http.request`/`https.request`, sockets, the proxy agent's behaviour, event-listener wiring, and `fs` stream semantics. One example is the error `fs` raises when writing after `end()`. The sink is a record of its writes, `end()` calls and `close()`.
- The clock, `URL.parse` and `querystring.parse` are parameters (`nowMs`, `parse`, `parseForm`).
- JSON is left out. `JSON.stringify` of a request body is taken as a string from the caller. `JSON.parse` is the symbolic `Payload.Parsed(text)`. A body that is not valid JSON makes `JSON.parse` throw inside the callback; that is not modelled.
- Credentials.ExpiresAt: the expiry window is an integer number of seconds. A fractional `oauth_expires_in` (a non-integer millisecond offset) is not modelled.
- Client.OAuth1HttpClient.ReadStreamToRequest: the read stream is assumed to deliver its chunks and end. A read stream that never ends leaves the promise pending, and one that errors raises an unhandled 'error' event, since the stream has no 'error' listener; neither is modelled.
- Client.OAuth1HttpClient.WriteBinaryResponseToStream: the request carries the corrected headers of the finding above (Accept and User-Agent of the download's library instance). The code as written copies nothing and sends only Authorization, Host and Content-length; that request is `Client.BinaryRequest` with no copied headers, whose headers are `Headers.BinaryHeadersAsWritten`.
- Client.OAuth1HttpClient.WriteBinaryResponseToStream: a response that closes without an 'end' event leaves the promise pending, because the 'close' handler is commented out. That is not modelled.
- Client.OAuth1HttpClient.WriteUTF8ResponseToStream: the request has no 'error' listener, so a request error is an unhandled event; that is not modelled.
- Concurrency and promise scheduling are left out: refresh de-duplication and concurrent access to the credential state. The code does none of this serialisation, and calls are modelled as sequential.
- The sharing of the default-header object by reference in `resetToDefaultHeaders` is left out. Headers are values here.
- A caller-supplied library factory (the constructor's third parameter) is left out. Only the default factory is modelled.
- The integration tests and the response fixtures are left out. They exercise the resource wrappers against a live service, not this client.
