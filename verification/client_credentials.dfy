/**
 * The client-credentials strategy: one access token kept as JSON under a
 * fixed cache key, reused until 60 seconds before it expires, and otherwise
 * fetched again with the client-credentials grant (section 4.4.2 of RFC 6749)
 * and Basic credentials (section 2 of RFC 7617). The clock is the `now`
 * parameter (milliseconds) and the token endpoint's reply is an input.
 */
module ClientCredentials {
  import opened Wrappers
  import opened Text
  import opened Json
  import opened Http
  import Base64
  import opened CacheSpec
  import opened MemoryCacheModule
  import Client

  /** The one key the strategy reads and writes. */
  const CacheKey: string := "spotify-sdk:ClientCredentials:accessToken"

  const TokenEndpoint: string := "https://accounts.spotify.com/api/token"

  /** A token is refreshed this many milliseconds before it expires. */
  const ExpiryMarginMs: int := 60 * 1000

  const TokenApiErrorPrefix: string := "Spotify token API error: "
  const InvalidTokenShapeMessage: string := "Invalid token response shape"

  /** `AccessToken`: the bearer token and its expiry instant in milliseconds. */
  datatype AccessToken = AccessToken(token: string, expiresAt: int)

  /**
   * How `getAccessToken` can fail: the transport failed, the reply body was not
   * JSON, a plain `Error` with a message, or the cached entry was not JSON at
   * all (`JSON.parse` throws inside `flatMap`, which `catchAll` does not catch).
   * `MissingExportDefect` is the defect of `new` applied to an error class name
   * that the errors module does not export (see `FetchNewTokenAsWritten`).
   */
  datatype TokenError =
    | FetchError
    | JsonError
    | PlainError(message: string)
    | CachedTokenDefect
    | MissingExportDefect(name: string)

  /** `isExpired`: due for refresh once `now` is within 60 seconds of the expiry instant. */
  predicate IsExpired(t: AccessToken, now: int)
  {
    now >= t.expiresAt - ExpiryMarginMs
  }

  /** A token 30 s or exactly 60 s from expiry is already refreshed; one 120 s away is not. */
  lemma ExpiryMargin(t: AccessToken, now: int)
    ensures t.expiresAt == now + 30 * 1000 ==> IsExpired(t, now)
    ensures t.expiresAt == now + 60 * 1000 ==> IsExpired(t, now)
    ensures t.expiresAt == now + 120 * 1000 ==> !IsExpired(t, now)
    ensures !IsExpired(t, now) <==> t.expiresAt - now > ExpiryMarginMs
  {
  }

  // ---------------------------------------------------------------------------
  // The cached entry
  // ---------------------------------------------------------------------------

  /** `JSON.stringify(token)`: the object literal `{ token, expiresAt }`. */
  function TokenJson(t: AccessToken): Json
  {
    JObj([Member("token", JStr(t.token)), Member("expiresAt", JNum(t.expiresAt))])
  }

  /** `Schema.decode(AccessTokenSchema)`: an object with a string `token` and a number `expiresAt`; other properties are ignored. */
  function DecodeAccessToken(j: Json): (r: Option<AccessToken>)
    ensures r.Some? <==> j.JObj? && Get(j.members, "token").Some? && Get(j.members, "token").value.JStr? &&
                          Get(j.members, "expiresAt").Some? && Get(j.members, "expiresAt").value.JNum?
  {
    match j
    case JObj(ms) =>
      (match (Get(ms, "token"), Get(ms, "expiresAt"))
       case (Some(JStr(token)), Some(JNum(expiresAt))) => Some(AccessToken(token, expiresAt))
       case _ => None)
    case _ => None
  }

  /** The text stored for a token reads back, through `JSON.parse` and the schema, as that token. */
  lemma TokenRoundTrip(t: AccessToken)
    ensures Parse(Serialize(TokenJson(t))) == Some(TokenJson(t))
    ensures DecodeAccessToken(TokenJson(t)) == Some(t)
  {
    ParseSerialize(TokenJson(t));
    var ms := [Member("token", JStr(t.token)), Member("expiresAt", JNum(t.expiresAt))];
    assert ms[..1] == [Member("token", JStr(t.token))];
    assert Get(ms, "token") == Some(JStr(t.token));
  }

  /**
   * `getCachedToken`: no token for an absent or empty entry and for JSON of the
   * wrong shape; a failure when the entry is not JSON.
   */
  function CachedTokenOf(raw: Option<string>): (r: Result<Option<AccessToken>, TokenError>)
    ensures r.Failure? <==> raw.Some? && raw.value != "" && Parse(raw.value).None?
    ensures r.Failure? ==> r.error == CachedTokenDefect
    ensures r.Success? && r.value.Some? ==>
      raw.Some? && Parse(raw.value).Some? && DecodeAccessToken(Parse(raw.value).value) == r.value
  {
    match raw
    case None => Success(None)
    case Some(text) =>
      if text == "" then Success(None)
      else
        match Parse(text)
        case None => Failure(CachedTokenDefect)
        case Some(j) => Success(DecodeAccessToken(j))
  }

  /** An absent entry, and one holding JSON of another shape, both count as no token. */
  lemma NoCachedToken(j: Json)
    requires DecodeAccessToken(j).None?
    ensures CachedTokenOf(None) == Success(None)
    ensures CachedTokenOf(Some("")) == Success(None)
    ensures CachedTokenOf(Some(Serialize(j))) == Success(None)
  {
    ParseSerialize(j);
  }

  // ---------------------------------------------------------------------------
  // The token request and its reply
  // ---------------------------------------------------------------------------

  /** What `fetchNewToken` sends: a form-encoded POST to the token endpoint. */
  datatype TokenRequest = TokenRequest(verb: Method, url: string, headers: Client.Headers, form: Params)

  /** `Basic` and the base64 of the UTF-8 bytes of `clientId:clientSecret` (`Buffer.from(...).toString("base64")`). */
  function BasicCredentials(clientId: string, clientSecret: string): string
  {
    "Basic " + Base64.Encode(Base64.Utf8(clientId + ":" + clientSecret))
  }

  function TokenRequestFor(clientId: string, clientSecret: string, scopes: seq<string>): TokenRequest
  {
    TokenRequest(POST, TokenEndpoint,
                 [("Authorization", BasicCredentials(clientId, clientSecret)),
                  ("Content-Type", "application/x-www-form-urlencoded")],
                 [("grant_type", "client_credentials"), ("scope", Join(scopes, " "))])
  }

  /**
   * The request carries the grant type, the scopes separated by single spaces
   * (they split back into the scopes when none contains a space), and Basic
   * credentials whose base64 decodes to `clientId:clientSecret`.
   */
  lemma TokenRequestContents(clientId: string, clientSecret: string, scopes: seq<string>)
    ensures var r := TokenRequestFor(clientId, clientSecret, scopes);
      r.verb == POST && r.url == TokenEndpoint &&
      r.form[0] == ("grant_type", "client_credentials") && r.form[1].0 == "scope" &&
      r.headers[0].0 == "Authorization" && r.headers[0].1[..6] == "Basic " &&
      Base64.Decode(r.headers[0].1[6..]) == Some(Base64.Utf8(clientId + ":" + clientSecret))
    ensures |scopes| > 0 && FreeOf(scopes, ' ') ==>
      Split(TokenRequestFor(clientId, clientSecret, scopes).form[1].1, " ") == scopes
  {
    var encoded := Base64.Encode(Base64.Utf8(clientId + ":" + clientSecret));
    assert ("Basic " + encoded)[6..] == encoded;
    Base64.DecodeEncode(Base64.Utf8(clientId + ":" + clientSecret));
    if |scopes| > 0 && FreeOf(scopes, ' ') {
      SplitJoin(scopes, " ");
    }
  }

  /**
   * What the token endpoint did: the transport failed, or it replied with a
   * status, a status text and a body that `response.json()` read (`None` when
   * it could not).
   */
  datatype TokenReply =
    | FetchFailed
    | Replied(status: int, statusText: string, body: Option<Json>)

  /** `Schema.decode(SpotifyRawTokenSchema)`: a string `access_token` and a number `expires_in`. */
  function DecodeRawToken(j: Json): Option<(string, int)>
  {
    match j
    case JObj(ms) =>
      (match (Get(ms, "access_token"), Get(ms, "expires_in"))
       case (Some(JStr(accessToken)), Some(JNum(expiresIn))) => Some((accessToken, expiresIn))
       case _ => None)
    case _ => None
  }

  /** `fetchNewToken` from the reply on; the token expires `expires_in` seconds after `now`. */
  function FetchNewToken(now: int, reply: TokenReply): Result<AccessToken, TokenError>
  {
    match reply
    case FetchFailed => Failure(FetchError)
    case Replied(status, statusText, body) =>
      if !IsOk(status) then
        Failure(PlainError(TokenApiErrorPrefix + IntToString(status) + " " + statusText))
      else
        match body
        case None => Failure(JsonError)
        case Some(j) =>
          match DecodeRawToken(j)
          case None => Failure(PlainError(InvalidTokenShapeMessage))
          case Some((accessToken, expiresIn)) => Success(AccessToken(accessToken, now + expiresIn * 1000))
  }

  /**
   * A fetch succeeds exactly when an OK reply carries a body with a string
   * `access_token` and a number `expires_in`; the token is that string and
   * expires `expires_in` seconds after `now`. A non-OK reply's message names its status.
   */
  lemma FetchNewTokenOutcome(now: int, reply: TokenReply)
    ensures FetchNewToken(now, reply).Success? <==>
      reply.Replied? && IsOk(reply.status) && reply.body.Some? && DecodeRawToken(reply.body.value).Some?
    ensures FetchNewToken(now, reply).Success? ==>
      var raw := DecodeRawToken(reply.body.value).value;
      FetchNewToken(now, reply).value == AccessToken(raw.0, now + raw.1 * 1000)
    ensures reply.FetchFailed? ==> FetchNewToken(now, reply) == Failure(FetchError)
    ensures reply.Replied? && !IsOk(reply.status) ==>
      FetchNewToken(now, reply).error.PlainError? &&
      var m := FetchNewToken(now, reply).error.message;
      var digits := IntToString(reply.status);
      m[..|TokenApiErrorPrefix|] == TokenApiErrorPrefix &&
      m[|TokenApiErrorPrefix|..|TokenApiErrorPrefix| + |digits|] == digits
    ensures reply.Replied? && IsOk(reply.status) && reply.body.None? ==> FetchNewToken(now, reply) == Failure(JsonError)
    ensures reply.Replied? && IsOk(reply.status) && reply.body.Some? && DecodeRawToken(reply.body.value).None? ==>
      FetchNewToken(now, reply) == Failure(PlainError(InvalidTokenShapeMessage))
    ensures FetchNewToken(now, reply).Failure? ==> !FetchNewToken(now, reply).error.MissingExportDefect?
  {
    if reply.Replied? && !IsOk(reply.status) {
      var digits := IntToString(reply.status);
      var m := TokenApiErrorPrefix + digits + " " + reply.statusText;
      assert m[..|TokenApiErrorPrefix|] == TokenApiErrorPrefix;
      assert m[|TokenApiErrorPrefix|..|TokenApiErrorPrefix| + |digits|] == digits;
    }
  }

  /**
   * The class names the errors module exports: the request engine's nine
   * tagged errors. `FetchError` and `JsonError`, which this file imports from
   * it, are not among them.
   */
  const ErrorsModuleExports: set<string> := {
    "NetworkError", "JsonParseError", "SchemaDecodeError", "BadRequestError", "ForbiddenError",
    "NotFoundError", "RateLimitError", "UnauthorizedError", "UnknownApiError"
  }

  /**
   * `new C()` for an imported class name: the typed error when the errors
   * module exports `C`; otherwise the binding is undefined, the `new` throws a
   * `TypeError` inside `tryPromise`'s `catch`, and Effect reports a defect.
   */
  function NewImportedError(name: string, typed: TokenError): TokenError
  {
    if name in ErrorsModuleExports then typed else MissingExportDefect(name)
  }

  /** `fetchNewToken` as written, with its two `new` expressions of names the errors module lacks. */
  function FetchNewTokenAsWritten(now: int, reply: TokenReply): Result<AccessToken, TokenError>
  {
    match reply
    case FetchFailed => Failure(NewImportedError("FetchError", FetchError))
    case Replied(status, _, body) =>
      if IsOk(status) && body.None? then Failure(NewImportedError("JsonError", JsonError))
      else FetchNewToken(now, reply)
  }

  /**
   * As written, a transport failure and an OK reply whose body is not JSON end
   * in defects instead of `FetchError` and `JsonError`; every other reply
   * behaves as in `FetchNewToken`.
   */
  lemma FetchNewTokenAsWrittenDefects(now: int, reply: TokenReply)
    ensures reply.FetchFailed? ==>
      FetchNewTokenAsWritten(now, reply) == Failure(MissingExportDefect("FetchError")) &&
      FetchNewToken(now, reply) == Failure(FetchError)
    ensures reply.Replied? && IsOk(reply.status) && reply.body.None? ==>
      FetchNewTokenAsWritten(now, reply) == Failure(MissingExportDefect("JsonError")) &&
      FetchNewToken(now, reply) == Failure(JsonError)
    ensures FetchNewTokenAsWritten(now, reply) != FetchNewToken(now, reply) <==>
      reply.FetchFailed? || (IsOk(reply.status) && reply.body.None?)
  {
    assert "FetchError" !in ErrorsModuleExports;
    assert "JsonError" !in ErrorsModuleExports;
  }

  // ---------------------------------------------------------------------------
  // getAccessToken
  // ---------------------------------------------------------------------------

  /** One call: its result, the cache afterwards, and the request sent, if any. */
  datatype Outcome = Outcome(result: Result<AccessToken, TokenError>, store: Store, sent: Option<TokenRequest>)

  /**
   * `getAccessToken` on a cache: a readable token that is not due for refresh
   * is returned as it is; otherwise a token is fetched and, only when that
   * succeeds, written under the key as JSON.
   */
  function GetAccessTokenStep(store: Store, now: int, request: TokenRequest, reply: TokenReply): Outcome
  {
    match CachedTokenOf(Lookup(store, CacheKey))
    case Failure(e) => Outcome(Failure(e), store, None)
    case Success(cached) =>
      if cached.Some? && !IsExpired(cached.value, now) then Outcome(Success(cached.value), store, None)
      else
        match FetchNewToken(now, reply)
        case Failure(e) => Outcome(Failure(e), store, Some(request))
        case Success(t) => Outcome(Success(t), store[CacheKey := Serialize(TokenJson(t))], Some(request))
  }

  /** A stored token that is not due for refresh is returned as it is, with no request and no write. */
  lemma FreshTokenReused(store: Store, t: AccessToken, now: int, request: TokenRequest, reply: TokenReply)
    requires Lookup(store, CacheKey) == Some(Serialize(TokenJson(t)))
    requires !IsExpired(t, now)
    ensures GetAccessTokenStep(store, now, request, reply) == Outcome(Success(t), store, None)
  {
    TokenRoundTrip(t);
  }

  /**
   * Whenever a request is sent and succeeds, the key then holds the JSON of the
   * token returned, which reads back as that token; every other key is untouched.
   */
  lemma FetchedTokenCached(store: Store, now: int, request: TokenRequest, reply: TokenReply)
    requires GetAccessTokenStep(store, now, request, reply).sent.Some?
    requires GetAccessTokenStep(store, now, request, reply).result.Success?
    ensures var o := GetAccessTokenStep(store, now, request, reply);
      Lookup(o.store, CacheKey) == Some(Serialize(TokenJson(o.result.value))) &&
      CachedTokenOf(Lookup(o.store, CacheKey)) == Success(Some(o.result.value)) &&
      forall k :: k != CacheKey ==> Lookup(o.store, k) == Lookup(store, k)
  {
    TokenRoundTrip(GetAccessTokenStep(store, now, request, reply).result.value);
  }

  /** A call that fails writes nothing; the cache is written only after a successful fetch. */
  lemma FailureLeavesCache(store: Store, now: int, request: TokenRequest, reply: TokenReply)
    ensures GetAccessTokenStep(store, now, request, reply).result.Failure? ==>
      GetAccessTokenStep(store, now, request, reply).store == store
    ensures GetAccessTokenStep(store, now, request, reply).store != store ==>
      GetAccessTokenStep(store, now, request, reply).sent.Some? &&
      FetchNewToken(now, reply).Success?
  {
  }

  /**
   * With no usable token stored (absent, empty, or JSON of another shape, see
   * `NoCachedToken`), the call fetches.
   */
  lemma MissingTokenFetched(store: Store, now: int, request: TokenRequest, reply: TokenReply)
    requires CachedTokenOf(Lookup(store, CacheKey)) == Success(None)
    ensures GetAccessTokenStep(store, now, request, reply).sent == Some(request)
    ensures GetAccessTokenStep(store, now, request, reply).result == FetchNewToken(now, reply)
  {
  }

  /** A stored token within the 60-second margin of its expiry is refreshed: the call fetches. */
  lemma ExpiredTokenRefetched(store: Store, t: AccessToken, now: int, request: TokenRequest, reply: TokenReply)
    requires Lookup(store, CacheKey) == Some(Serialize(TokenJson(t)))
    requires IsExpired(t, now)
    ensures GetAccessTokenStep(store, now, request, reply).sent == Some(request)
    ensures GetAccessTokenStep(store, now, request, reply).result == FetchNewToken(now, reply)
  {
    TokenRoundTrip(t);
  }

  /**
   * A request is sent exactly when the cache entry is readable and holds no
   * token, or a token due for refresh; a stored token 30 seconds from expiry
   * is refreshed.
   */
  lemma FetchWhenNoFreshToken(store: Store, t: AccessToken, now: int, request: TokenRequest, reply: TokenReply)
    ensures var c := CachedTokenOf(Lookup(store, CacheKey));
      GetAccessTokenStep(store, now, request, reply).sent.Some? <==>
        c.Success? && (c.value.None? || IsExpired(c.value.value, now))
    ensures Lookup(store, CacheKey) == Some(Serialize(TokenJson(t))) && t.expiresAt == now + 30 * 1000 ==>
      GetAccessTokenStep(store, now, request, reply).sent == Some(request)
  {
    if Lookup(store, CacheKey) == Some(Serialize(TokenJson(t))) && t.expiresAt == now + 30 * 1000 {
      ExpiryMargin(t, now);
      ExpiredTokenRefetched(store, t, now, request, reply);
    }
  }

  /**
   * After a fetch of a token that lives longer than the 60-second margin, a
   * second call at the same instant returns that token without a request,
   * whatever the endpoint would have replied.
   */
  lemma SecondCallReuses(store: Store, now: int, request: TokenRequest, reply: TokenReply, reply2: TokenReply)
    requires GetAccessTokenStep(store, now, request, reply).sent.Some?
    requires reply.Replied? && reply.body.Some? && DecodeRawToken(reply.body.value).Some?
    requires DecodeRawToken(reply.body.value).value.1 > 60
    requires GetAccessTokenStep(store, now, request, reply).result.Success?
    ensures var o := GetAccessTokenStep(store, now, request, reply);
      GetAccessTokenStep(o.store, now, request, reply2) == Outcome(o.result, o.store, None)
  {
    var o := GetAccessTokenStep(store, now, request, reply);
    FetchNewTokenOutcome(now, reply);
    var t := o.result.value;
    assert !IsExpired(t, now);
    FreshTokenReused(o.store, t, now, request, reply2);
  }

  /** The strategy object: the injected cache and the client's credentials. */
  class ClientCredentialsAuth {
    const cache: MemoryCache
    const clientId: string
    const clientSecret: string
    const scopes: seq<string>

    constructor (cache: MemoryCache, clientId: string, clientSecret: string, scopes: seq<string>)
      ensures this.cache == cache && this.clientId == clientId
      ensures this.clientSecret == clientSecret && this.scopes == scopes
    {
      this.cache := cache;
      this.clientId := clientId;
      this.clientSecret := clientSecret;
      this.scopes := scopes;
    }

    /** The request this client sends to the token endpoint. */
    function Request(): TokenRequest
    {
      TokenRequestFor(clientId, clientSecret, scopes)
    }

    /**
     * `getAccessToken` at time `now`; `reply` is what the endpoint answers if a
     * request is sent, and `sent` is that request.
     */
    method GetAccessToken(now: int, reply: TokenReply) returns (result: Result<AccessToken, TokenError>, sent: Option<TokenRequest>)
      modifies cache
      ensures var o := GetAccessTokenStep(old(cache.store), now, Request(), reply);
        result == o.result && cache.store == o.store && sent == o.sent
    {
      var raw := cache.Get(CacheKey);
      var cached := CachedTokenOf(raw);
      if cached.Failure? {
        return Failure(cached.error), None;
      }
      if cached.value.Some? && !IsExpired(cached.value.value, now) {
        return Success(cached.value.value), None;
      }
      result := FetchAndCacheToken(now, reply);
      sent := Some(Request());
    }

    /** `fetchAndCacheToken`: the key is written only when the fetch succeeds. */
    method FetchAndCacheToken(now: int, reply: TokenReply) returns (result: Result<AccessToken, TokenError>)
      modifies cache
      ensures result == FetchNewToken(now, reply)
      ensures result.Success? ==> cache.store == old(cache.store)[CacheKey := Serialize(TokenJson(result.value))]
      ensures result.Failure? ==> cache.store == old(cache.store)
    {
      result := FetchNewToken(now, reply);
      if result.Success? {
        cache.Set(CacheKey, Serialize(TokenJson(result.value)));
      }
    }
  }
}
