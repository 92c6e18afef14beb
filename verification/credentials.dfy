/** The credential state: the access token record, its shallow merge, the
    access-token check every signed call makes, and the expiry arithmetic. */
module Credentials {
  import opened JsValues
  import opened Responses

  /** A token pair produced by the first handshake step. */
  datatype RequestToken = RequestToken(oauthToken: string, oauthTokenSecret: string)

  /** A JavaScript `Date`: a millisecond timestamp, or the invalid date that
      arithmetic on a missing or non-numeric value produces. */
  datatype Instant = At(ms: int) | InvalidDate

  /** The stored access token. Each field may be absent, `undefined` or set;
      the state as a whole may be `null` (`None`). */
  datatype AccessToken = AccessToken(
    oauthToken: Field<string>,
    oauthTokenSecret: Field<string>,
    oauthSessionHandle: Field<string>,
    oauthExpiresAt: Field<Instant>)

  const NoFields: AccessToken := AccessToken(Absent, Absent, Absent, Absent)

  /** A record that sets every key (possibly to `undefined`). */
  predicate Complete(t: AccessToken) {
    !t.oauthToken.Absent? && !t.oauthTokenSecret.Absent? && !t.oauthSessionHandle.Absent? && !t.oauthExpiresAt.Absent?
  }

  function Overlay<T>(prior: Field<T>, update: Field<T>): Field<T>
  {
    if update.Absent? then prior else update
  }

  /** `{ ...state, ...update }`: a key the update has (even set to `undefined`)
      wins, any other key keeps its prior value, and a `null` state
      contributes nothing. */
  function Merge(state: Option<AccessToken>, update: AccessToken): AccessToken
  {
    var prior := if state.Some? then state.value else NoFields;
    AccessToken(
      Overlay(prior.oauthToken, update.oauthToken),
      Overlay(prior.oauthTokenSecret, update.oauthTokenSecret),
      Overlay(prior.oauthSessionHandle, update.oauthSessionHandle),
      Overlay(prior.oauthExpiresAt, update.oauthExpiresAt))
  }

  /** Merging into an empty state yields exactly the update. */
  lemma MergeIntoNull(update: AccessToken)
    ensures Merge(None, update) == update
  {
  }

  /** Keys missing from the update keep their prior values; keys it has win. */
  lemma MergeKeepsUnsetFields(prior: AccessToken, update: AccessToken)
    ensures var m := Merge(Some(prior), update);
      && (update.oauthToken.Absent? ==> m.oauthToken == prior.oauthToken)
      && (update.oauthTokenSecret.Absent? ==> m.oauthTokenSecret == prior.oauthTokenSecret)
      && (update.oauthSessionHandle.Absent? ==> m.oauthSessionHandle == prior.oauthSessionHandle)
      && (update.oauthExpiresAt.Absent? ==> m.oauthExpiresAt == prior.oauthExpiresAt)
      && (!update.oauthToken.Absent? ==> m.oauthToken == update.oauthToken)
      && (!update.oauthTokenSecret.Absent? ==> m.oauthTokenSecret == update.oauthTokenSecret)
      && (!update.oauthSessionHandle.Absent? ==> m.oauthSessionHandle == update.oauthSessionHandle)
      && (!update.oauthExpiresAt.Absent? ==> m.oauthExpiresAt == update.oauthExpiresAt)
  {
  }

  /** A record that sets every key replaces whatever was stored. */
  lemma MergeCompleteReplaces(state: Option<AccessToken>, update: AccessToken)
    requires Complete(update)
    ensures Merge(state, update) == update
  {
  }

  /** Applying the same update twice changes nothing more. */
  lemma MergeIdempotent(state: Option<AccessToken>, update: AccessToken)
    ensures Merge(Some(Merge(state, update)), update) == Merge(state, update)
  {
  }

  /** Two successive merges equal one merge of the merged updates. */
  lemma MergeAssociative(state: Option<AccessToken>, u1: AccessToken, u2: AccessToken)
    ensures Merge(Some(Merge(state, u1)), u2) == Merge(state, Merge(Some(u1), u2))
  {
  }

  /** The error a signed call fails with before reaching the library, or
      `None` when the stored token is truthy. A `null` state fails with the
      `TypeError` of reading `oauth_token` of `null`; an absent, `undefined`
      or empty token fails with `MissingAccessToken`. */
  function AccessTokenError(state: Option<AccessToken>): (e: Option<ClientError>)
    ensures e.None? <==> state.Some? && Truthy(Read(state.value.oauthToken))
    ensures state.None? ==> e == Some(TypeError("oauth_token"))
    ensures state.Some? && e.Some? ==> e.value == MissingAccessToken
  {
    if state.None? then Some(TypeError("oauth_token"))
    else if !Truthy(Read(state.value.oauthToken)) then Some(MissingAccessToken)
    else None
  }

  /** The largest distance from the epoch, in milliseconds, that a JavaScript
      `Date` can hold (100,000,000 days); beyond it a `Date` is invalid. */
  const MaxTimeMs := 8_640_000_000_000_000

  /** `new Date(now + expires_in * 1000)`, with `None` standing for a missing
      or non-numeric `expires_in`, which yields an invalid date, as does a
      time outside the range a `Date` can hold. */
  function ExpiresAt(nowMs: int, expiresIn: Option<int>): (at: Instant)
    ensures at.At? <==> expiresIn.Some? && -MaxTimeMs <= nowMs + expiresIn.value * 1000 <= MaxTimeMs
    ensures at.At? ==> at.ms - nowMs == expiresIn.value * 1000
    ensures at.At? ==> -MaxTimeMs <= at.ms <= MaxTimeMs
  {
    if expiresIn.None? then InvalidDate
    else
      var t := nowMs + expiresIn.value * 1000;
      if -MaxTimeMs <= t <= MaxTimeMs then At(t) else InvalidDate
  }

  /** Expiry moves forward with the clock and with the window: a token issued
      later, or with a longer window, never expires earlier, and once the
      earlier expiry is already past the largest valid date, the later one is
      invalid too. */
  lemma ExpiryMonotone(now1: int, now2: int, in1: int, in2: int)
    requires now1 <= now2 && in1 <= in2
    ensures ExpiresAt(now1, Some(in1)).At? && ExpiresAt(now2, Some(in2)).At? ==>
      ExpiresAt(now1, Some(in1)).ms <= ExpiresAt(now2, Some(in2)).ms
    ensures now1 + in1 * 1000 > MaxTimeMs ==> ExpiresAt(now2, Some(in2)).InvalidDate?
  {
  }

  /** What the access-token endpoint returned, after the library or the
      query-string parser read it; `None` for a key the response lacks. */
  datatype TokenResponse = TokenResponse(
    oauthToken: Option<string>,
    oauthTokenSecret: Option<string>,
    oauthSessionHandle: Option<string>,
    oauthExpiresIn: Option<int>)

  function Stored<T>(v: Option<T>): Field<T>
  {
    if v.Some? then Value(v.value) else Undefined
  }

  /** The record built after a swap or a refresh: it sets all four keys, each
      read back as the response's value (`undefined` where the response has
      none), and the expiry is now plus the window in milliseconds. */
  function IssuedToken(response: TokenResponse, nowMs: int): (t: AccessToken)
    ensures Complete(t)
    ensures Read(t.oauthToken) == response.oauthToken
    ensures Read(t.oauthTokenSecret) == response.oauthTokenSecret
    ensures Read(t.oauthSessionHandle) == response.oauthSessionHandle
    ensures t.oauthExpiresAt == Value(ExpiresAt(nowMs, response.oauthExpiresIn))
  {
    AccessToken(
      Stored(response.oauthToken),
      Stored(response.oauthTokenSecret),
      Stored(response.oauthSessionHandle),
      Value(ExpiresAt(nowMs, response.oauthExpiresIn)))
  }

  /** After a swap or refresh the stored state is exactly the returned record. */
  lemma StoredStateIsIssued(state: Option<AccessToken>, response: TokenResponse, nowMs: int)
    ensures Merge(state, IssuedToken(response, nowMs)) == IssuedToken(response, nowMs)
  {
    MergeCompleteReplaces(state, IssuedToken(response, nowMs));
  }

  /** A response without a session handle erases the stored one: the key is
      set to `undefined`, whatever the state held before. */
  lemma RefreshWithoutHandleErasesHandle(state: Option<AccessToken>, response: TokenResponse, nowMs: int)
    requires response.oauthSessionHandle.None?
    ensures Merge(state, IssuedToken(response, nowMs)).oauthSessionHandle == Undefined
  {
    StoredStateIsIssued(state, response, nowMs);
  }

  /** Signed calls may follow a swap or refresh iff the response's token was
      non-empty. */
  lemma IssuedTokenAuthorises(response: TokenResponse, nowMs: int)
    ensures AccessTokenError(Some(IssuedToken(response, nowMs))).None? <==> Truthy(response.oauthToken)
  {
  }
}
