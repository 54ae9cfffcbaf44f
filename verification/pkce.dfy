/**
 * The PKCE authorization-code flow (RFC 7636 sections 4.2 to 4.5, RFC 6749
 * sections 4.1.1 and 4.1.3) over a cache, per user: the verifier waits under
 * `verifier:<user>` between the authorization URL and the code exchange, and
 * the token reply is kept as JSON under `token:<user>`. SHA-256 is a parameter
 * of the model, the random octets and the token endpoint's reply are inputs.
 */
module Pkce {
  import opened Wrappers
  import opened Text
  import opened Json
  import opened Http
  import opened Base64
  import opened PkceUtils
  import opened CacheSpec
  import opened MemoryCacheModule

  const AuthorizeEndpoint: string := "https://accounts.spotify.com/authorize"
  const TokenEndpoint: string := "https://accounts.spotify.com/api/token"

  const MissingVerifierMessage: string := "Missing PKCE verifier for user"
  const ExchangeFailedPrefix: string := "Token exchange failed: "
  const InvalidTokenFormatMessage: string := "Invalid token format in cache"

  /** A SHA-256 digest: 32 octets. */
  type Digest = d: seq<byte> | |d| == 32 witness seq(32, _ => 0)

  /** `crypto.subtle.digest("SHA-256", ...)`, applied to the UTF-8 bytes of its input. */
  type Sha256 = seq<byte> -> Digest

  /** `SpotifyAuthConfig`. */
  datatype AuthConfig = AuthConfig(clientId: string, redirectUri: string, scope: string)

  datatype PkcePair = PkcePair(verifier: string, challenge: string)

  // ---------------------------------------------------------------------------
  // Keys
  // ---------------------------------------------------------------------------

  function VerifierKey(user: string): string
  {
    "verifier:" + user
  }

  function TokenKey(user: string): string
  {
    "token:" + user
  }

  /** Every user has their own two keys, and a verifier key is never a token key. */
  lemma KeysDistinct(u: string, v: string)
    ensures VerifierKey(u) != TokenKey(v)
    ensures VerifierKey(u) == VerifierKey(v) ==> u == v
    ensures TokenKey(u) == TokenKey(v) ==> u == v
  {
    assert VerifierKey(u)[0] == 'v' && TokenKey(v)[0] == 't';
    if VerifierKey(u) == VerifierKey(v) {
      assert u == VerifierKey(u)[9..] && v == VerifierKey(v)[9..];
    }
    if TokenKey(u) == TokenKey(v) {
      assert u == TokenKey(u)[6..] && v == TokenKey(v)[6..];
    }
  }

  // ---------------------------------------------------------------------------
  // generatePKCE
  // ---------------------------------------------------------------------------

  /** The S256 challenge of a verifier: base64url of the SHA-256 of its UTF-8 bytes. */
  function Challenge(sha256: Sha256, verifier: string): string
  {
    Base64Url(sha256(Utf8(verifier)))
  }

  /** `generatePKCE`: a 128-character verifier from the random octets, and its challenge. */
  function GeneratePkce(sha256: Sha256, random: RandomSource): PkcePair
  {
    var verifier := GenerateRandomString(DefaultVerifierLength, random);
    PkcePair(verifier, Challenge(sha256, verifier))
  }

  /**
   * The pair belongs together: the challenge is computed from that same
   * verifier; the verifier is 128 printable ASCII characters (so its UTF-8
   * bytes are its code points) and the challenge 43 URL-safe characters.
   */
  lemma GeneratedPair(sha256: Sha256, random: RandomSource)
    ensures var p := GeneratePkce(sha256, random);
      p.challenge == Base64Url(sha256(Utf8(p.verifier))) &&
      |p.verifier| == 128 && IsPrintableAscii(p.verifier) &&
      Utf8(p.verifier) == seq(128, i requires 0 <= i < 128 => p.verifier[i] as int) &&
      |p.challenge| == 43 &&
      (forall i :: 0 <= i < |p.challenge| ==> IsUrlSafeChar(p.challenge[i]))
  {
    var p := GeneratePkce(sha256, random);
    GeneratedString(DefaultVerifierLength, random);
    Utf8OfAscii(p.verifier);
    DigestChallengeLength(sha256(Utf8(p.verifier)));
    Base64UrlAlphabet(sha256(Utf8(p.verifier)));
  }

  // ---------------------------------------------------------------------------
  // createAuthorizationUrl
  // ---------------------------------------------------------------------------

  /** The search parameters of the authorization URL, in order. */
  function AuthorizationParams(config: AuthConfig, challenge: string): Params
  {
    [("client_id", config.clientId), ("response_type", "code"), ("redirect_uri", config.redirectUri),
     ("code_challenge_method", "S256"), ("code_challenge", challenge), ("scope", config.scope)]
  }

  /** `createAuthorizationUrl` on a cache: the URL returned and the cache afterwards. */
  function AuthorizeStep(store: Store, config: AuthConfig, sha256: Sha256, user: string, random: RandomSource): (Url, Store)
  {
    var pair := GeneratePkce(sha256, random);
    (Url(AuthorizeEndpoint, AuthorizationParams(config, pair.challenge)), store[VerifierKey(user) := pair.verifier])
  }

  /**
   * The verifier is stored under the user's key, replacing any earlier one,
   * and the URL carries the challenge of exactly that verifier; no other key changes.
   */
  lemma AuthorizationStoresVerifier(store: Store, config: AuthConfig, sha256: Sha256, user: string, random: RandomSource)
    ensures var (url, after) := AuthorizeStep(store, config, sha256, user, random);
      var v := GeneratePkce(sha256, random).verifier;
      Lookup(after, VerifierKey(user)) == Some(v) &&
      url.address == AuthorizeEndpoint &&
      url.query == AuthorizationParams(config, Challenge(sha256, v)) &&
      url.query[1] == ("response_type", "code") && url.query[3] == ("code_challenge_method", "S256") &&
      url.query[4] == ("code_challenge", Challenge(sha256, v)) &&
      forall k :: k != VerifierKey(user) ==> Lookup(after, k) == Lookup(store, k)
  {
  }

  // ---------------------------------------------------------------------------
  // exchangeCodeForToken
  // ---------------------------------------------------------------------------

  /** The form body of the exchange, in order. */
  function ExchangeParams(config: AuthConfig, code: string, verifier: string): Params
  {
    [("client_id", config.clientId), ("grant_type", "authorization_code"), ("code", code),
     ("redirect_uri", config.redirectUri), ("code_verifier", verifier)]
  }

  /**
   * What the token endpoint did: `fetch` rejected (with the text `String(err)`
   * gives), or it replied with a status and a body that `response.json()` read
   * or rejected with some text.
   */
  datatype ExchangeReply =
    | Thrown(description: string)
    | Replied(status: int, body: Result<Json, string>)

  /** The `tryPromise` around the fetch: every rejection becomes `Token exchange failed: ` and its text. */
  function ExchangeResult(reply: ExchangeReply): (r: Result<Json, string>)
    ensures r.Success? <==> reply.Replied? && IsOk(reply.status) && reply.body.Success?
    ensures r.Success? ==> r.value == reply.body.value
    ensures r.Failure? ==> |r.error| >= |ExchangeFailedPrefix| && r.error[..|ExchangeFailedPrefix|] == ExchangeFailedPrefix
  {
    match reply
    case Thrown(description) => Failure(ExchangeFailedPrefix + description)
    case Replied(status, body) =>
      if !IsOk(status) then Failure(ExchangeFailedPrefix + "Error: HTTP " + IntToString(status))
      else
        match body
        case Failure(description) => Failure(ExchangeFailedPrefix + description)
        case Success(j) => Success(j)
  }

  /** One exchange: its result, the cache afterwards, and the form body sent, if any. */
  datatype ExchangeOutcome = ExchangeOutcome(result: Result<Json, string>, store: Store, sent: Option<Params>)

  /**
   * `exchangeCodeForToken` on a cache: without a verifier nothing is sent;
   * otherwise the verifier is sent with the code, and only a successful reply
   * removes it and stores the reply as JSON.
   */
  function ExchangeStep(store: Store, config: AuthConfig, user: string, code: string, reply: ExchangeReply): ExchangeOutcome
  {
    match Lookup(store, VerifierKey(user))
    case None => ExchangeOutcome(Failure(MissingVerifierMessage), store, None)
    case Some(verifier) =>
      if verifier == "" then ExchangeOutcome(Failure(MissingVerifierMessage), store, None)
      else
        var params := ExchangeParams(config, code, verifier);
        match ExchangeResult(reply)
        case Failure(message) => ExchangeOutcome(Failure(message), store, Some(params))
        case Success(tokenResponse) =>
          var removed := Apply(store, Delete(VerifierKey(user)));
          ExchangeOutcome(Success(tokenResponse), Apply(removed, Put(TokenKey(user), Serialize(tokenResponse))), Some(params))
  }

  /** No verifier, or an empty one: the exchange fails before any request and changes nothing. */
  lemma MissingVerifierFails(store: Store, config: AuthConfig, user: string, code: string, reply: ExchangeReply)
    requires Lookup(store, VerifierKey(user)) in {None, Some("")}
    ensures ExchangeStep(store, config, user, code, reply) == ExchangeOutcome(Failure(MissingVerifierMessage), store, None)
  {
  }

  /** The body sent carries the code and, as `code_verifier`, the verifier cached for the user. */
  lemma ExchangeSendsVerifier(store: Store, config: AuthConfig, user: string, code: string, reply: ExchangeReply)
    ensures var o := ExchangeStep(store, config, user, code, reply);
      o.sent.Some? <==> Lookup(store, VerifierKey(user)).Some? && Lookup(store, VerifierKey(user)).value != ""
    ensures var o := ExchangeStep(store, config, user, code, reply);
      o.sent.Some? ==>
        o.sent.value[1] == ("grant_type", "authorization_code") && o.sent.value[2] == ("code", code) &&
        o.sent.value == ExchangeParams(config, code, store[VerifierKey(user)]) &&
        o.sent.value[4] == ("code_verifier", store[VerifierKey(user)])
  {
  }

  /**
   * After a successful exchange the user's verifier is gone and their token
   * key holds the JSON of the reply; no other key changes.
   */
  lemma ExchangeSuccessStores(store: Store, config: AuthConfig, user: string, code: string, reply: ExchangeReply)
    requires ExchangeStep(store, config, user, code, reply).result.Success?
    ensures var o := ExchangeStep(store, config, user, code, reply);
      Lookup(o.store, VerifierKey(user)) == None &&
      Lookup(o.store, TokenKey(user)) == Some(Serialize(o.result.value)) &&
      forall k :: k != VerifierKey(user) && k != TokenKey(user) ==> Lookup(o.store, k) == Lookup(store, k)
  {
    KeysDistinct(user, user);
  }

  /** A failed exchange (missing verifier, transport failure, non-OK status, unreadable body) changes no entry; the verifier stays. */
  lemma ExchangeFailureKeeps(store: Store, config: AuthConfig, user: string, code: string, reply: ExchangeReply)
    requires ExchangeStep(store, config, user, code, reply).result.Failure?
    ensures ExchangeStep(store, config, user, code, reply).store == store
    ensures reply.Replied? && !IsOk(reply.status) && Lookup(store, VerifierKey(user)).Some? &&
            Lookup(store, VerifierKey(user)).value != "" ==>
      ExchangeStep(store, config, user, code, reply).result.error ==
        ExchangeFailedPrefix + "Error: HTTP " + IntToString(reply.status)
  {
  }

  /** A code can be exchanged once: a second exchange finds no verifier and fails, whatever the reply. */
  lemma SecondExchangeFails(store: Store, config: AuthConfig, user: string, code: string, reply: ExchangeReply,
                            code2: string, reply2: ExchangeReply)
    requires ExchangeStep(store, config, user, code, reply).result.Success?
    ensures var after := ExchangeStep(store, config, user, code, reply).store;
      ExchangeStep(after, config, user, code2, reply2) == ExchangeOutcome(Failure(MissingVerifierMessage), after, None)
  {
    ExchangeSuccessStores(store, config, user, code, reply);
  }

  /** Another user's verifier and token are untouched by this user's authorization and exchange. */
  lemma OtherUsersUntouched(store: Store, config: AuthConfig, sha256: Sha256, user: string, other: string,
                            random: RandomSource, code: string, reply: ExchangeReply)
    requires other != user
    ensures var after := AuthorizeStep(store, config, sha256, user, random).1;
      Lookup(after, VerifierKey(other)) == Lookup(store, VerifierKey(other)) &&
      Lookup(after, TokenKey(other)) == Lookup(store, TokenKey(other))
    ensures var after := ExchangeStep(store, config, user, code, reply).store;
      Lookup(after, VerifierKey(other)) == Lookup(store, VerifierKey(other)) &&
      Lookup(after, TokenKey(other)) == Lookup(store, TokenKey(other))
  {
    KeysDistinct(user, other);
    KeysDistinct(other, user);
  }

  /**
   * The whole round: after the authorization URL is created, an exchange for
   * the same user sends as `code_verifier` the verifier whose challenge the
   * URL carried, which is what the authorization server checks.
   */
  lemma AuthorizeThenExchange(store: Store, config: AuthConfig, sha256: Sha256, user: string, random: RandomSource,
                              code: string, reply: ExchangeReply)
    ensures var (url, s1) := AuthorizeStep(store, config, sha256, user, random);
      var o := ExchangeStep(s1, config, user, code, reply);
      o.sent.Some? &&
      o.sent.value[4].0 == "code_verifier" &&
      url.query[4] == ("code_challenge", Challenge(sha256, o.sent.value[4].1))
  {
    GeneratedString(DefaultVerifierLength, random);
  }

  // ---------------------------------------------------------------------------
  // getStoredToken
  // ---------------------------------------------------------------------------

  /** `getStoredToken`: nothing for an absent or empty entry, the parsed JSON, or a failure when it is not JSON. */
  function StoredToken(store: Store, user: string): (r: Result<Option<Json>, string>)
    ensures r.Success? && r.value.None? <==> Lookup(store, TokenKey(user)) in {None, Some("")}
    ensures r.Success? && r.value.Some? ==> Parse(store[TokenKey(user)]) == r.value
    ensures r.Failure? <==> TokenKey(user) in store && store[TokenKey(user)] != "" && Parse(store[TokenKey(user)]).None?
    ensures r.Failure? ==> r.error == InvalidTokenFormatMessage
  {
    match Lookup(store, TokenKey(user))
    case None => Success(None)
    case Some(text) =>
      if text == "" then Success(None)
      else
        match Parse(text)
        case None => Failure(InvalidTokenFormatMessage)
        case Some(j) => Success(Some(j))
  }

  /** The token stored by a successful exchange reads back as the reply itself. */
  lemma ExchangedTokenReadsBack(store: Store, config: AuthConfig, user: string, code: string, reply: ExchangeReply)
    requires ExchangeStep(store, config, user, code, reply).result.Success?
    ensures var o := ExchangeStep(store, config, user, code, reply);
      StoredToken(o.store, user) == Success(Some(o.result.value))
  {
    var o := ExchangeStep(store, config, user, code, reply);
    ExchangeSuccessStores(store, config, user, code, reply);
    ParseSerialize(o.result.value);
  }

  /** The handler: configuration, the injected cache and the hash it uses. */
  class PkceAuth {
    const config: AuthConfig
    const cache: MemoryCache
    const sha256: Sha256

    constructor (config: AuthConfig, cache: MemoryCache, sha256: Sha256)
      ensures this.config == config && this.cache == cache && this.sha256 == sha256
    {
      this.config := config;
      this.cache := cache;
      this.sha256 := sha256;
    }

    /** `generatePKCE`: the random string, its digest, and the base64url encoding of the digest. */
    method GeneratePkcePair(random: RandomSource) returns (pair: PkcePair)
      ensures pair == GeneratePkce(sha256, random)
      ensures pair.challenge == Base64Url(sha256(Utf8(pair.verifier)))
    {
      var verifier := GenerateRandomString(DefaultVerifierLength, random);
      var hash := sha256(Utf8(verifier));
      var challenge := EncodeBase64Url(hash);
      pair := PkcePair(verifier, challenge);
    }

    /** `createAuthorizationUrl(user)`: stores the fresh verifier, then builds the URL. */
    method CreateAuthorizationUrl(user: string, random: RandomSource) returns (url: Url)
      modifies cache
      ensures (url, cache.store) == AuthorizeStep(old(cache.store), config, sha256, user, random)
    {
      var pair := GeneratePkcePair(random);
      cache.Set(VerifierKey(user), pair.verifier);
      url := Url(AuthorizeEndpoint, AuthorizationParams(config, pair.challenge));
    }

    /** `exchangeCodeForToken(user, code)`; `reply` is what the endpoint answers if the body `sent` is posted. */
    method ExchangeCodeForToken(user: string, code: string, reply: ExchangeReply)
      returns (result: Result<Json, string>, sent: Option<Params>)
      modifies cache
      ensures var o := ExchangeStep(old(cache.store), config, user, code, reply);
        result == o.result && cache.store == o.store && sent == o.sent
    {
      var verifier := cache.Get(VerifierKey(user));
      if verifier.None? || verifier.value == "" {
        return Failure(MissingVerifierMessage), None;
      }
      var params := ExchangeParams(config, code, verifier.value);
      sent := Some(params);
      result := ExchangeResult(reply);
      if result.Success? {
        cache.Remove(VerifierKey(user));
        cache.Set(TokenKey(user), Serialize(result.value));
      }
    }

    /** `getStoredToken(user)`: reads the cache and changes nothing. */
    method GetStoredToken(user: string) returns (r: Result<Option<Json>, string>)
      ensures r == StoredToken(cache.store, user)
    {
      var text := cache.Get(TokenKey(user));
      if text.None? || text.value == "" {
        return Success(None);
      }
      match Parse(text.value)
      case None => r := Failure(InvalidTokenFormatMessage);
      case Some(j) => r := Success(Some(j));
    }
  }
}
