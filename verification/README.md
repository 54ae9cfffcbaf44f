# A Dafny model of the spotify-ts-sdk core

The SDK is a TypeScript client for the Spotify Web API. It has three parts, and this project models all of them:

- **The service functions.** Each one (`albums.get`, `playlists.remove`, `players.setPlaybackVolume`, …) either throws an `IllegalArgumentException` before any request is made, or builds one call: a verb, a route relative to `https://api.spotify.com/v1/`, a response schema, the caller's options, an optional body and headers.
- **`makeRequest`.** It turns that call into an HTTP request: the URL with the options appended as query entries, the merged headers, and the body. It then reads the reply and produces either the decoded value or one of the SDK's tagged errors.
- **The authenticators and the caches.** The client-credentials authenticator keeps one token in a cache and refreshes it when it is close to expiry. The PKCE authenticator generates a verifier and challenge, stores the verifier per user, exchanges the authorisation code, and stores the token.

Each file of the model is one module:

| file | module | models |
|---|---|---|
| `wrappers.dfy` | `Wrappers` | `Option` and `Result` |
| `text.dfy` | `Text` | `trim`, `split`, `join`, decimal text of integers |
| `json.dfy` | `Json` | `JSON.stringify` / `JSON.parse` on JSON values with integer numbers |
| `base64.dfy` | `Base64` | UTF-8 and the base64 of RFC 4648 section 4 (`btoa`, `Buffer.toString("base64")`) |
| `cache_spec.dfy` | `CacheSpec` | the key/value store both caches keep, as a `map` |
| `in_memory_cache.dfy`, `memory_cache.dfy` | `InMemoryCacheModule`, `MemoryCacheModule` | the two cache classes, whose methods update a map field in place |
| `http.dfy`, `errors.dfy` | `Http`, `Errors` | requests, replies, URLs, headers; the SDK's error classes |
| `client.dfy` | `Client` | `makeRequest` |
| `pkce_utils.dfy` | `PkceUtils` | `generateRandomString`, `encodeBase64Url` |
| `client_credentials.dfy` | `ClientCredentials` | `withClientCredentials` |
| `pkce.dfy` | `Pkce` | `withPKCE` |
| `service_common.dfy` | `ServiceCommon` | the ID-list guard and join, and a reader that takes a route back to its path segments and query entries |
| `albums.dfy` … `searches.dfy` | one module per service file | the calls each service function builds |

The model takes things as parameters where the source calls something it cannot see:

- The HTTP reply, or the transport failure, is a parameter.
- The clock (`Date.now()`) is a parameter `now`.
- The random octets of `crypto.getRandomValues` are a function from index to octet.
- SHA-256 is a function parameter.

A service result is the call it would hand to `makeRequest`. The route reader `Segments`/`ParamsOf` makes each route lemma state which path and which query entries the server receives. Most properties are stated in those terms, rather than by comparing route strings with the source's string templates.

## Model

| member | source | states |
|---|---|---|
| Client.QueryParams | src/core/client.ts:34-46 | `undefined` and `null` options are skipped, so there are never more entries than options |
| Client.AppendQueryParams | src/core/client.ts:34-46 | the `forEach` loop appends exactly the entries `QueryParams` specifies, in option order |
| Client.QueryParamsAppend | src/core/client.ts:35-45 | the options are handled one at a time: the entries of a concatenation are the concatenation of the entries |
| Client.QueryParamFor | src/core/client.ts:36-43 | an entry (key, value) is in the query iff some option with that key is present and renders to that value (if and only if) |
| Client.FalsyOptionsKept | src/core/client.ts:36 | `0`, `""` and `false` are kept and rendered as "0", "" and "false"; only `undefined` and `null` are dropped |
| Client.ListParamRoundTrip | src/core/client.ts:37-41 | an array option is sent as its trimmed items joined by "%2C", and splitting at "%2C" gives the trimmed items back |
| Client.HeaderValue | src/core/client.ts:48-51 | a header lookup finds nothing exactly when no header has that name |
| Client.AssignValue | src/core/client.ts:48-51 | assigning a key in a header object keeps the keys unique, sets that key, leaves every other key and keeps the first key first |
| Client.SpreadValue | src/core/client.ts:48-51 | in `{...target, ...source}` the source's value wins for its own keys, the target's stays for the rest, and keys stay unique |
| Client.MergeHeadersValues | src/core/client.ts:48-51 | `Authorization` comes first; a caller's header of the same name overrides it; all other custom headers are sent unchanged |
| Client.SentBody | src/core/client.ts:59 | a body is sent iff one is given and it is non-empty (`...(body ? { body } : undefined)`) |
| Client.BuildRequest | src/core/client.ts:31-59 | the request has the call's verb, the URL `BaseUrl + route` with the query entries, the merged headers and the body that is sent |
| Client.EnvelopeRoundTrip | src/core/client.ts:79-89 | a serialised error envelope `{error: {status, message}}` parses and decodes back to the same status and message |
| Client.RetryDelay | src/core/client.ts:101-113 | the `Retry-After` delay is the header's number of seconds, and 15 when the header is absent |
| Client.Classify | src/core/client.ts:89-122 | 400, 401, 403, 404 and 429 each map to exactly their error class, every other status to `UnknownApiError`; the cause is the envelope message; a rate-limit error carries the `Retry-After` delay |
| Client.MakeRequestSucceeds | src/core/client.ts:52-133 | the request succeeds iff the transport delivers a reply, the status is OK, `response.json()` gives a value and the schema decodes it; the value is that decode |
| Client.MakeRequestFailures | src/core/client.ts:53-133 | a transport failure gives `NetworkError` with the request URL; a body `response.json()` rejects gives `JsonParseError`; a non-OK reply whose JSON decodes as an error envelope gives the classification of that envelope; a non-OK reply with no valid envelope, or an OK reply the schema rejects, gives `SchemaDecodeError` with the source's message |
| Client.ErrorReplyClassified | src/core/client.ts:78-122 | for any non-OK reply whose JSON decodes as an error envelope (extra properties ignored), the error is the classification of the envelope's status, whatever the HTTP status was, and its cause is the envelope's message |
| Client.WrittenEnvelopeClassified | src/core/client.ts:78-122 | an envelope written as JSON and read back by the client is classified by its own status and message |
| Client.RateLimitDelay | src/core/client.ts:100-119 | a 429 envelope gives `RateLimitError` whose delay is the header's value (0 included), and 15 with no header |
| CacheSpec.Lookup | src/cache/inMemoryCache.ts:7-10 | a lookup returns a value exactly for the stored keys, and that value is the stored one |
| CacheSpec.GetAfterSet | src/cache/memoryCache.ts:11-15 | reading a key right after setting it gives the value set |
| CacheSpec.GetAfterRemove | src/cache/memoryCache.ts:17-21 | reading a key right after removing it gives nothing; removing an absent key changes nothing |
| CacheSpec.WriteKeepsOtherKeys | src/cache/inMemoryCache.ts:12-18 | a set or a remove leaves every other key as it was |
| CacheSpec.LookupAfterReplay | src/cache/inMemoryCache.ts:7-18 | after any sequence of sets and removes, a key reads as the most recent write to it, or its initial value if there was none |
| InMemoryCacheModule.InMemoryCache.constructor | src/cache/inMemoryCache.ts:5 | a new cache is empty |
| InMemoryCacheModule.InMemoryCache.Get | src/cache/inMemoryCache.ts:7-10 | returns the stored value, and a value exactly when the key is present; the cache is unchanged |
| InMemoryCacheModule.InMemoryCache.Set | src/cache/inMemoryCache.ts:12-14 | the map becomes the old map with the key set to the value; no other key changes |
| InMemoryCacheModule.InMemoryCache.Remove | src/cache/inMemoryCache.ts:16-18 | the map becomes the old map without the key; no other key changes |
| MemoryCacheModule.MemoryCache.constructor | src/cache/memoryCache.ts:5 | a new store is empty |
| MemoryCacheModule.MemoryCache.Get | src/cache/memoryCache.ts:7-9 | returns the stored value, and a value exactly when the key is present; the store is unchanged |
| MemoryCacheModule.MemoryCache.Set | src/cache/memoryCache.ts:11-15 | the store becomes the old store with the key set to the value; no other key changes |
| MemoryCacheModule.MemoryCache.Remove | src/cache/memoryCache.ts:17-21 | the store becomes the old store without the key; no other key changes |
| PkceUtils.PrintableChar | src/auth/pkceUtils.ts:12-14 | each random octet becomes character 33 + octet mod 94, one of the printable ASCII characters '!' to '~' |
| PkceUtils.RandomString | src/auth/pkceUtils.ts:6-15 | one character per octet, in order |
| PkceUtils.GeneratedString | src/auth/pkceUtils.ts:6-15 | a generated string has exactly the requested length, only printable ASCII, and character i is fixed by random octet i |
| PkceUtils.Latin1 | src/auth/pkceUtils.ts:38-41 | the binary string has one character per octet, with that octet's code |
| PkceUtils.Btoa | src/auth/pkceUtils.ts:42 | `btoa` accepts the string iff every code point is below 256 |
| PkceUtils.BtoaOfLatin1 | src/auth/pkceUtils.ts:38-42 | `btoa` of the binary string of some octets never throws, and gives the base64 of the octets |
| PkceUtils.StripPadding | src/auth/pkceUtils.ts:43 | the result is a prefix of the input and does not end in '=' |
| PkceUtils.EncodeBase64Url | src/auth/pkceUtils.ts:34-44 | the loop, `btoa` and the three replacements compute the unpadded URL-safe base64 of the octets |
| PkceUtils.Base64UrlAlphabet | src/auth/pkceUtils.ts:43 | a code challenge uses only 'A'-'Z', 'a'-'z', '0'-'9', '-' and '_', and never '=' (RFC 7636 appendix A) |
| PkceUtils.Base64UrlLength | src/auth/pkceUtils.ts:42-43 | the length is 4 characters per full group of 3 octets, plus 2 or 3 for a final group of 1 or 2 octets |
| PkceUtils.DigestChallengeLength | src/auth/pkceUtils.ts:20-44 | a 32-octet SHA-256 digest gives a 43-character challenge |
| PkceUtils.Base64UrlRoundTrip | src/auth/pkceUtils.ts:34-44 | re-padding, restoring '+' and '/' and decoding gives back the original octets |
| Base64.Utf8OfAscii | src/auth/pkceUtils.ts:23-24 | the UTF-8 encoding of an ASCII string is one octet per character, with the character's code |
| Base64.StdValue | src/auth/withClientCredentials.ts:102-104 | a character has a base64 value iff it is in the standard alphabet, and that value encodes back to the character |
| Base64.Encode | src/auth/withClientCredentials.ts:102-104 | base64 output has 4 characters per started group of 3 octets |
| Base64.EncodeShape | src/auth/pkceUtils.ts:42 | base64 output is standard-alphabet characters followed by exactly the padding for the last group (0, 1 or 2 '=') |
| Base64.DecodeEncode | src/auth/withClientCredentials.ts:102-104 | decoding the base64 encoding of any octets gives the octets back (RFC 4648 section 4) |
| Json.Serialize | src/auth/withClientCredentials.ts:80 | serialised JSON is never empty and never starts with whitespace |
| Json.Get | src/core/client.ts:79-89 | a member lookup finds a value iff some member has that key, and the value found is that of the last member with the key, as `JSON.parse` keeps it |
| Json.GetObjectOf | src/auth/withClientCredentials.ts:92-95 | with distinct field names, an object built from fields answers each key with that field's value (`JSON.stringify` dropping `undefined` fields) |
| Json.StringRoundTrip | src/auth/withPKCE.ts:127 | parsing a string's escaped form gives the string back and leaves the text after it |
| Json.NumberRoundTrip | src/auth/withClientCredentials.ts:80 | parsing the decimal text of any integer gives that integer back |
| Json.ValueRoundTrip | src/auth/withClientCredentials.ts:64 | parsing the serialisation of any JSON value, followed by anything that may follow a value, gives back the value and the rest |
| Json.ParseSerialize | src/auth/withPKCE.ts:125-151 | `JSON.parse(JSON.stringify(v))` equals `v` for every JSON value: what is cached reads back unchanged |
| Text.TrimStart | src/services/albums.ts:66 | the result is a suffix of the input, what it drops is all whitespace, and it does not start with whitespace |
| Text.TrimEnd | src/services/albums.ts:66 | the result is a prefix of the input, what it drops is all whitespace, and it does not end with whitespace |
| Text.TrimSplitsInput | src/services/albums.ts:45 | the input is whitespace, then the trimmed text, then whitespace, and the trimmed text neither starts nor ends with whitespace |
| Text.TrimIdempotent | src/core/client.ts:39 | trimming twice is trimming once |
| Text.TrimAll | src/core/client.ts:38-39 | `map(x => x.trim())` keeps the length and trims each item in place |
| Text.IndexOf | src/core/client.ts:32 | the route reader's search, as `new URL` splits the route at its first '?': the position found holds the separator, no earlier position does, and the length is returned when there is none |
| Text.SplitJoin | src/core/client.ts:37-41 | splitting a join at its separator gives back the parts, when no part contains the separator's first character |
| Text.JoinTrimmedRoundTrip | src/services/albums.ts:66 | the "%2C"-joined trimmed IDs split back into the trimmed IDs |
| Text.ParseNatToString | src/core/client.ts:43 | the decimal text `String(n)` of a natural number reads back as that number |
| Text.NatToStringInjective | src/core/client.ts:43 | different numbers have different decimal texts |
| ClientCredentials.ExpiryMargin | src/auth/withClientCredentials.ts:146-148 | a token counts as valid iff it expires more than 60 seconds from now: 30 s and exactly 60 s left are expired, 120 s is not |
| ClientCredentials.DecodeAccessToken | src/auth/withClientCredentials.ts:64 | an access token decodes iff the JSON is an object with a string `token` and a number `expiresAt` |
| ClientCredentials.TokenRoundTrip | src/auth/withClientCredentials.ts:60-85 | a cached token serialises, parses and decodes back to itself |
| ClientCredentials.CachedTokenOf | src/auth/withClientCredentials.ts:60-69 | a missing or empty entry, or JSON that is not a token, means no cached token; a non-empty entry that is not JSON is the one failure (`JSON.parse` throws); a token found is the entry's decode |
| ClientCredentials.NoCachedToken | src/auth/withClientCredentials.ts:63-67 | no entry, an empty entry and JSON of the wrong shape all give "no cached token" |
| ClientCredentials.TokenRequestContents | src/auth/withClientCredentials.ts:90-108 | the token request is a POST to the token endpoint with `grant_type=client_credentials`, the scopes joined by spaces (splitting back into the scopes), and Basic credentials that decode to the UTF-8 of `clientId:clientSecret` |
| ClientCredentials.FetchNewTokenOutcome | src/auth/withClientCredentials.ts:90-140 | a new token succeeds iff the reply is OK with a body of the right shape; the token is `access_token`, expiring `expires_in` seconds after now; a transport failure gives `FetchError`, a non-OK status a message that carries the status, a body that is not JSON `JsonError` and a body of the wrong shape the source's message; none of these is a defect |
| ClientCredentials.FetchNewTokenAsWrittenDefects | src/auth/withClientCredentials.ts:97-122 | as written, `new FetchError()` and `new JsonError()` name classes the errors module (src/errors/index.ts) does not export, so a transport failure and an OK reply with a non-JSON body end in defects; the two outcomes differ from the intended `FetchNewToken` on exactly those replies |
| ClientCredentials.FreshTokenReused | src/auth/withClientCredentials.ts:41-51 | a cached token that is not expired is returned, with no request and no cache change |
| ClientCredentials.MissingTokenFetched | src/auth/withClientCredentials.ts:41-51 | whenever the cache entry reads as no token (absent, empty, or JSON of the wrong shape), the token request is sent and the result is the fetch's outcome |
| ClientCredentials.ExpiredTokenRefetched | src/auth/withClientCredentials.ts:41-51 | a stored token within 60 seconds of its expiry is not used: the token request is sent and the result is the fetch's outcome |
| ClientCredentials.FetchWhenNoFreshToken | src/auth/withClientCredentials.ts:41-51 | the token request is sent iff the cache entry reads as no token or as an expired one; a token 30 seconds from expiry already counts as expired, under the 60-second margin |
| ClientCredentials.FetchedTokenCached | src/auth/withClientCredentials.ts:74-85 | after a successful fetch the cache holds the new token under the cache key, which reads back as that token; no other key changes |
| ClientCredentials.FailureLeavesCache | src/auth/withClientCredentials.ts:74-85 | a failed call leaves the cache unchanged; the cache changes only when a fetch succeeds |
| ClientCredentials.SecondCallReuses | src/auth/withClientCredentials.ts:41-51 | right after a fetch of a token living more than 60 seconds, a second call returns the same token without a request |
| ClientCredentials.ClientCredentialsAuth.constructor | src/auth/withClientCredentials.ts:29-36 | the authenticator keeps its cache, client ID, client secret and scopes |
| ClientCredentials.ClientCredentialsAuth.GetAccessToken | src/auth/withClientCredentials.ts:41-51 | the result, the request sent and the new cache are those of the specified step from the old cache |
| ClientCredentials.ClientCredentialsAuth.FetchAndCacheToken | src/auth/withClientCredentials.ts:74-85 | the result is the fetch's; on success the cache key holds the serialised token, and on failure the cache is unchanged |
| Pkce.KeysDistinct | src/auth/withPKCE.ts:69-151 | a `verifier:` key and a `token:` key never collide, and each is a different key for each user |
| Pkce.GeneratedPair | src/auth/withPKCE.ts:49-61 | the challenge is the URL-safe base64 of the SHA-256 of the verifier's UTF-8; the verifier has 128 printable ASCII characters (one octet each in UTF-8); the challenge has 43 URL-safe characters |
| Pkce.AuthorizationStoresVerifier | src/auth/withPKCE.ts:69-86 | the authorisation URL goes to the authorise endpoint with exactly the source's parameter list, in order, among them `response_type=code`, `code_challenge_method=S256` and the challenge of the verifier now stored for this user; no other cache key changes |
| Pkce.ExchangeResult | src/auth/withPKCE.ts:111-124 | the exchange succeeds iff the reply is OK with a JSON body, and the result is that body; every failure message starts with "Token exchange failed: " |
| Pkce.MissingVerifierFails | src/auth/withPKCE.ts:96-101 | with no verifier (or an empty one) stored, the exchange fails with the source's message, sends nothing and changes nothing |
| Pkce.ExchangeSendsVerifier | src/auth/withPKCE.ts:95-110 | a request is sent iff a non-empty verifier is stored, and its body is exactly the source's form, in order: client id, `grant_type=authorization_code`, the code, the redirect URI and that verifier |
| Pkce.ExchangeSuccessStores | src/auth/withPKCE.ts:125-128 | a successful exchange removes the verifier and stores the serialised token; no other key changes |
| Pkce.ExchangeFailureKeeps | src/auth/withPKCE.ts:111-124 | a failed exchange leaves the cache unchanged, so the verifier stays for a retry |
| Pkce.SecondExchangeFails | src/auth/withPKCE.ts:95-128 | after a successful exchange, a second exchange for the same user fails as "verifier not found": a verifier is used once |
| Pkce.OtherUsersUntouched | src/auth/withPKCE.ts:69-128 | authorising or exchanging for one user leaves every other user's verifier and token as they were |
| Pkce.AuthorizeThenExchange | src/auth/withPKCE.ts:69-128 | after authorising, the exchange sends a verifier whose challenge is the one in the authorisation URL (the PKCE binding of RFC 7636) |
| Pkce.StoredToken | src/auth/withPKCE.ts:140-151 | no token for a missing or empty entry; the parsed JSON for a JSON entry; the failure "Invalid token format in cache" exactly for a non-empty entry that is not JSON |
| Pkce.ExchangedTokenReadsBack | src/auth/withPKCE.ts:125-151 | after a successful exchange, the stored token reads back as the token the exchange returned |
| Pkce.PkceAuth.constructor | src/auth/withPKCE.ts:37-42 | the authenticator keeps its configuration, its cache and its digest |
| Pkce.PkceAuth.GeneratePkcePair | src/auth/withPKCE.ts:49-61 | the pair is the specified one, and its challenge is the URL-safe base64 of the verifier's digest |
| Pkce.PkceAuth.CreateAuthorizationUrl | src/auth/withPKCE.ts:69-86 | the URL and the new cache are those of the authorisation step from the old cache |
| Pkce.PkceAuth.ExchangeCodeForToken | src/auth/withPKCE.ts:95-132 | the result, the request sent and the new cache are those of the exchange step from the old cache |
| Pkce.PkceAuth.GetStoredToken | src/auth/withPKCE.ts:140-151 | the result is the stored-token reading of the current cache |
| ServiceCommon.EncodeIds | src/services/albums.ts:63-66 | an ID list is accepted iff it has at most `limit` IDs, otherwise it fails with `IllegalArgumentException` carrying the message; accepted IDs are joined trimmed |
| ServiceCommon.RouteRoundTrip | src/core/client.ts:32 | a route built from path segments and query entries reads back as exactly those segments and entries |
| ServiceCommon.IdRoute | src/services/albums.ts:45 | "prefix/" plus a plain ID reads as the prefix's segments then the ID, with no query |
| ServiceCommon.IdListRoute | src/services/albums.ts:66-70 | "path?key=" plus joined plain IDs reads as the path's segments and the one entry (key, joined IDs) |
| ServiceCommon.BareIdListRoute | src/services/tracks.ts:141 | "path?" plus joined IDs reads as one entry whose name is the joined IDs and whose value is empty |
| ServiceCommon.JoinedListHasSeparator | src/services/albums.ts:66 | two or more joined IDs contain "%", so the joined list is never the word "ids" |
| ServiceCommon.JsonBodyField | src/services/playlists.ts:70-76 | a body built from fields with distinct names carries each field's value, and nothing for a field left `undefined` |
| Albums.GetMany | src/services/albums.ts:57-75 | accepted iff at most 20 IDs; otherwise "Maximum 20 IDs allowed per request" |
| Albums.Save | src/services/albums.ts:120-135 | accepted iff at most 20 IDs; otherwise the same exception |
| Albums.Remove | src/services/albums.ts:143-158 | accepted iff at most 20 IDs; otherwise the same exception |
| Albums.CheckSaved | src/services/albums.ts:166-180 | accepted iff at most 20 IDs; otherwise the same exception |
| Albums.GetRoute | src/services/albums.ts:39-49 | a GET of `albums/<trimmed id>` with the caller's options and no body |
| Albums.GetTracksRoute | src/services/albums.ts:83-96 | a GET of `albums/<trimmed id>/tracks`, decoded as a page of tracks |
| Albums.GetManyRoute | src/services/albums.ts:57-75 | a GET of `albums` whose only entry is `ids`: the trimmed IDs joined by "%2C" |
| Albums.SaveRemoveRoutes | src/services/albums.ts:120-158 | save is a PUT and remove a DELETE of the same `me/albums` route with the one `ids` entry |
| Albums.CheckSavedRoute | src/services/albums.ts:166-180 | a GET of `me/albums/contains` with the `ids` entry, decoded as an array of booleans |
| Albums.GuardBoundary | src/services/albums.ts:63-64 | the limit is inclusive: 20 IDs pass every guarded call, 21 are refused with the exact message |
| Artists.GetMany | src/services/artists.ts:46-60 | accepted iff at most 50 IDs; otherwise "Maximum 50 IDs allowed per request" |
| Artists.GetRoute | src/services/artists.ts:29-38 | a GET of `artists/<trimmed id>` with no options |
| Artists.GetManyRoute | src/services/artists.ts:46-60 | a GET of `artists` with the one `ids` entry and no options |
| Artists.ArtistItemRoutes | src/services/artists.ts:68-102 | albums and top tracks are `artists/<id>/albums` and `artists/<id>/top-tracks`, with the caller's options |
| Artists.GuardBoundary | src/services/artists.ts:49-50 | 50 IDs pass and 51 are refused with the exact message |
| Audiobooks.GetMany | src/services/audiobooks.ts:77-95 | accepted iff at most 50 IDs; otherwise the exception |
| Audiobooks.Save | src/services/audiobooks.ts:148-163 | accepted iff at most 50 IDs; otherwise the exception |
| Audiobooks.Remove | src/services/audiobooks.ts:171-186 | accepted iff at most 50 IDs; otherwise the exception |
| Audiobooks.CheckSaved | src/services/audiobooks.ts:194-208 | accepted iff at most 50 IDs; otherwise the exception |
| Audiobooks.SingleAudiobookRoutes | src/services/audiobooks.ts:45-124 | `audiobooks/<id>` and `audiobooks/<id>/chapters` (a page of chapters), with the caller's options |
| Audiobooks.GetManyRoute | src/services/audiobooks.ts:77-95 | a GET of `audiobooks` with the one `ids` entry |
| Audiobooks.SaveRemoveRoutes | src/services/audiobooks.ts:148-186 | PUT and DELETE of the same `me/audiobooks` route with the `ids` entry |
| Audiobooks.CheckSavedRoute | src/services/audiobooks.ts:194-208 | a GET of `me/audiobooks/contains` with the `ids` entry, decoded as booleans |
| Audiobooks.GuardBoundary | src/services/audiobooks.ts:83-84 | 50 IDs pass every guarded call and 51 are refused |
| Chapters.GetMany | src/services/chapters.ts:56-74 | accepted iff at most 50 IDs; otherwise the exception |
| Chapters.GetRoute | src/services/chapters.ts:27-40 | a GET of `chapters/<trimmed id>` with the caller's options |
| Chapters.GetManyRoute | src/services/chapters.ts:56-74 | a GET of `chapters` with the `ids` entry and the caller's options |
| Chapters.GuardBoundary | src/services/chapters.ts:62-63 | 50 IDs pass and 51 are refused |
| Episodes.GetMany | src/services/episodes.ts:40-58 | accepted iff at most 50 IDs; otherwise the exception |
| Episodes.GetRoute | src/services/episodes.ts:19-32 | a GET of `episodes/<trimmed id>` with the caller's options |
| Episodes.GetManyRoute | src/services/episodes.ts:40-58 | a GET of `episodes` with the `ids` entry and the caller's options |
| Episodes.GuardBoundary | src/services/episodes.ts:46-47 | 50 IDs pass and 51 are refused |
| Shows.GetMany | src/services/shows.ts:57-75 | accepted iff at most 50 IDs; otherwise the exception |
| Shows.Save | src/services/shows.ts:120-135 | accepted iff at most 50 IDs; otherwise the exception |
| Shows.Remove | src/services/shows.ts:143-158 | accepted iff at most 50 IDs; otherwise the exception |
| Shows.CheckSaved | src/services/shows.ts:166-180 | accepted iff at most 50 IDs; otherwise the exception |
| Shows.SingleShowRoutes | src/services/shows.ts:39-96 | `shows/<id>` and `shows/<id>/episodes` (a page of episodes), with the caller's options |
| Shows.GetManyRoute | src/services/shows.ts:57-75 | as written: one query entry named by the joined IDs, with an empty value |
| Shows.GetManyLosesIdsKey | src/services/shows.ts:70 | with two or more IDs no query entry is named `ids` |
| Shows.GetManyIntendedRoute | src/services/shows.ts:57-75 | corrected: a GET of `shows` with the one `ids` entry |
| Shows.SaveRemoveRoutes | src/services/shows.ts:120-158 | PUT and DELETE of the same `me/shows` route with the `ids` entry |
| Shows.CheckSavedRoute | src/services/shows.ts:166-180 | as written: one entry named by the joined IDs, with an empty value |
| Shows.CheckSavedLosesIdsKey | src/services/shows.ts:176 | with two or more IDs no query entry is named `ids` |
| Shows.CheckSavedIntendedRoute | src/services/shows.ts:166-180 | corrected: `me/shows/contains` with the one `ids` entry |
| Shows.GuardBoundary | src/services/shows.ts:63-64 | 50 IDs pass every guarded call and 51 are refused |
| Tracks.GetMany | src/services/tracks.ts:43-61 | accepted iff at most 50 IDs; otherwise the exception |
| Tracks.Save | src/services/tracks.ts:85-100 | accepted iff at most 50 IDs; otherwise the exception |
| Tracks.Remove | src/services/tracks.ts:108-123 | accepted iff at most 50 IDs; otherwise the exception |
| Tracks.CheckSaved | src/services/tracks.ts:131-145 | accepted iff at most 50 IDs; otherwise the exception |
| Tracks.GetRoute | src/services/tracks.ts:25-35 | a GET of `tracks/<trimmed id>` with the caller's options |
| Tracks.GetManyRoute | src/services/tracks.ts:43-61 | a GET of `tracks` with the one `ids` entry |
| Tracks.SaveRemoveRoutes | src/services/tracks.ts:85-123 | PUT and DELETE of the same `me/tracks` route with the `ids` entry |
| Tracks.CheckSavedRoute | src/services/tracks.ts:131-145 | as written: one entry named by the joined IDs, with an empty value |
| Tracks.CheckSavedLosesIdsKey | src/services/tracks.ts:141 | with two or more IDs no query entry is named `ids` |
| Tracks.CheckSavedIntendedRoute | src/services/tracks.ts:131-145 | corrected: `me/tracks/contains` with the one `ids` entry |
| Tracks.GuardBoundary | src/services/tracks.ts:49-50 | 50 IDs pass every guarded call and 51 are refused |
| Users.Follow | src/services/users.ts:149-164 | accepted iff at most 50 IDs; otherwise the exception |
| Users.Unfollow | src/services/users.ts:172-187 | accepted iff at most 50 IDs; otherwise the exception |
| Users.CheckFollowed | src/services/users.ts:195-209 | accepted iff at most 50 IDs; otherwise the exception |
| Users.TopItemsRoute | src/services/users.ts:51-67 | `me/top/<type>`, decoded as a page of tracks iff the type is tracks and of artists iff it is artists |
| Users.GetUserRoute | src/services/users.ts:75-81 | a GET of `users/<trimmed id>` with no options |
| Users.FollowPlaylistRoutes | src/services/users.ts:89-120 | follow is a PUT and unfollow a DELETE of the same `playlists/<id>/followers`; follow's body carries `public`, unfollow sends none |
| Users.FollowedArtistsRoute | src/services/users.ts:128-141 | `me/following` with the one entry `type=artist` and the caller's options |
| Users.FollowRoutes | src/services/users.ts:149-187 | PUT and DELETE of the same `me/following` with the entries `type` then `ids` |
| Users.CheckFollowedRoute | src/services/users.ts:195-209 | `me/following/contains` with `type` then `ids`, decoded as booleans |
| Users.IsFollowingPlaylistRoute | src/services/users.ts:217-228 | as written the first segment is "playlist", not the "playlists" that follow and unfollow use |
| Users.IsFollowingPlaylistIntendedRoute | src/services/users.ts:217-228 | corrected: a GET of `playlists/<id>/followers/contains`, the same collection as follow |
| Users.GuardBoundary | src/services/users.ts:152-153 | 50 IDs pass every guarded call and 51 are refused |
| Playlists.TrackObjects | src/services/playlists.ts:181-184 | the tracks to remove become one `{uri}` object per URI, in order |
| Playlists.Remove | src/services/playlists.ts:167-187 | refused iff tracks are given and there are more than 100, with "Maximum 100 objects allowed per request" |
| Playlists.PlaylistRoute | src/services/playlists.ts:43-56 | a GET of `playlists/<trimmed id>` with the caller's options |
| Playlists.ChangeDetailsBody | src/services/playlists.ts:64-80 | a PUT of the playlist's route whose body carries each given detail and omits the rest |
| Playlists.GetItemsRoute | src/services/playlists.ts:88-101 | a GET of `playlists/<id>/tracks` |
| Playlists.ItemsRoutes | src/services/playlists.ts:113-187 | update is a PUT and remove a DELETE of the same items route |
| Playlists.UpdateItemsBody | src/services/playlists.ts:113-137 | the body carries exactly the given fields under their names |
| Playlists.RemoveBody | src/services/playlists.ts:167-187 | within the limit the body carries the track objects and the snapshot ID |
| Playlists.RemoveGuardBoundary | src/services/playlists.ts:170-174 | 100 tracks pass, 101 are refused with the exact message, and no tracks at all skips the guard |
| Playlists.AddBody | src/services/playlists.ts:145-159 | the body carries `position` and `uris` when given |
| Playlists.AddRouteUntrimmed | src/services/playlists.ts:151 | as written the ID is not trimmed, so an ID with surrounding spaces gives a route other than the items route |
| Playlists.AddIntendedRoute | src/services/playlists.ts:145-159 | corrected: the trimmed items route, the same one update uses |
| Playlists.GetPlaylistsRoute | src/services/playlists.ts:195-203 | a GET of `me/playlists` with the caller's options |
| Playlists.UsersPlaylistsRoute | src/services/playlists.ts:211-224 | a GET of `users/<trimmed id>/playlists` |
| Playlists.CreateBody | src/services/playlists.ts:232-248 | a POST whose body carries `name` and the given details, as `changeDetails` does |
| Playlists.CreateRouteUntrimmed | src/services/playlists.ts:238 | as written the user ID is not trimmed, so surrounding spaces give a route other than the user's playlists |
| Playlists.CreateIntendedRoute | src/services/playlists.ts:232-248 | corrected: the trimmed `users/<id>/playlists` route |
| Playlists.CoverImageRoute | src/services/playlists.ts:256-285 | a GET of `playlists/<id>/images`; the upload is a PUT of the same route |
| Playlists.CoverImageUpload | src/services/playlists.ts:273-285 | the upload sends the trimmed image data, if any, with `Content-Type: image/jpeg` and the `Authorization` header kept |
| Players.PlaybackStateRoute | src/services/players.ts:41-70 | the state is a GET and a transfer a PUT of `me/player` |
| Players.TransferBody | src/services/players.ts:56-70 | the transfer body carries the one trimmed device ID and the `play` flag when given |
| Players.DevicesRoute | src/services/players.ts:79-86 | a GET of `me/player/devices` decoded as an array of devices |
| Players.CurrentlyPlayingRoute | src/services/players.ts:94-104 | a GET of `me/player/currently-playing` with the caller's options |
| Players.RecentlyPlayedRoute | src/services/players.ts:287-295 | a GET of `me/player/recently-played` with the caller's options |
| Players.GetQueueRoute | src/services/players.ts:303-307 | a GET of `me/player/queue` |
| Players.PauseRoute | src/services/players.ts:140-152 | a PUT of `me/player/pause`; a `device_id` entry iff a non-empty device ID is given |
| Players.NextRoute | src/services/players.ts:161-173 | a POST of `me/player/next`; `device_id` iff a non-empty device ID is given |
| Players.PreviousRoute | src/services/players.ts:182-194 | a POST of `me/player/previous`; `device_id` iff given |
| Players.SeekRoute | src/services/players.ts:203-215 | a PUT of `me/player/seek` with `position_ms`, then `device_id` iff given |
| Players.RepeatRoute | src/services/players.ts:224-236 | a PUT of `me/player/repeat` with `state`, then `device_id` iff given |
| Players.VolumeRoute | src/services/players.ts:245-257 | a PUT of `me/player/volume` with `volume_percent`, then `device_id` iff given |
| Players.ShuffleRoute | src/services/players.ts:266-278 | a PUT of `me/player/shuffle` with `state` "true"/"false", then `device_id` iff given |
| Players.QueueRoute | src/services/players.ts:316-328 | a POST of `me/player/queue` with `uri`, then `device_id` iff given |
| Players.StartRouteLeadingSlash | src/services/players.ts:119-121 | as written the route starts with '/', so the URL holds "v1//me/player/play" and the path starts with an empty segment |
| Players.StartIntendedRoute | src/services/players.ts:113-131 | corrected: a PUT of `me/player/play`, with `device_id` iff given |
| Players.StartBody | src/services/players.ts:124-129 | the body carries `position_ms`, and `context_uri`, `uris` and `offset` exactly as given (the offset as its JSON object), each absent when not given; the as-written and corrected calls send the same body |
| Searches.SearchRoute | src/services/searches.ts:16-33 | a GET of `search` with `q` (the trimmed query) then `type` (the types joined by "%2C", splitting back into the types), and the caller's options |
| Searches.EncodedIsPlain | src/services/searches.ts:28 | an encoded query component has no '&' and no '=' |
| Searches.DecodeEncode | src/services/searches.ts:28 | decoding an encoded query component gives the text back |
| Searches.SearchQueryInjects | src/services/searches.ts:28 | as written, a query `a&k=v` reaches the server as `q=a` plus an extra entry `k=v` |
| Searches.SearchIntendedRoute | src/services/searches.ts:16-33 | corrected: `q` holds the encoded query, which decodes back to the trimmed query |

## Left out

- The retry wrapper of `makeRequest` (src/core/client.ts:134-144) is not modelled: each call is one attempt. `RateLimitError` carries the `retryAfter` the source computes; the schedule built by `Schedule.fromFunction` does not use it as a delay and is not modelled.
- `URL.searchParams.append` serialisation is not modelled (percent-encoding of entries, and the second encoding of an array option's "%2C"). Query entries are kept as (name, value) pairs, and the route reader does no percent-decoding.
- The bearer value `Config.redacted("SPOTIFY_API_KEY")` is a parameter `authorization`.
- Client.RetryDelay: the model takes the `Retry-After` header as an already parsed optional whole number of seconds. A header that is not a number makes the source fail with a parse error, and a fractional or negative value that `Schema.NumberFromString` accepts is carried through by the source; neither is modelled.
- Client.MakeRequest: the reply body is the value `response.json()` gives, a parameter. JSON values carry integer numbers only, so a reply holding fractions or exponents is outside the model.
- Json: numbers are integers; fractions, exponents and surrogate-pair escapes are not parsed. `Parse` and `Serialize` serve the JSON the SDK itself writes and reads back (the cache entries); replies from the API arrive as already parsed values.
- Response schemas (`Schema.decodeUnknown`) are an abstract decoder parameter for `makeRequest`, or a schema name on each call. The schema files are not part of this model.
- SHA-256 (`crypto.subtle.digest`), `crypto.getRandomValues`, `Date.now()`, `fetch` and its replies are parameters. The rejection path of `sha256` is not modelled.
- The upper-case service classes (`AlbumService.ts` …), `markets.ts` and `categories.ts` are not part of this model.
- The Effect runtime, concurrency and interleaving of cache calls are left out. Each authenticator step runs to completion on one cache state.
- The route lemmas require plain IDs: once trimmed, no '/', '?' or '&' (and no '=' where the list is read as a name). The route functions and guards take any strings.
- Searches.EncodeChar: the corrected query encoding escapes only '%', '&', '=', '+' and '#', not the full `encodeURIComponent` set.
- Players.SeekRoute: the position is a whole number of milliseconds. The source's `positionMs` is a `number` and may be fractional.
- Players.VolumeRoute: the volume is a whole percentage from 0 to 100. The source's `number` may be any float.
- Searches.SearchRoute: the search types are an enumeration of the seven values the API accepts, rather than free strings.
- ClientCredentials.FetchNewTokenAsWritten: the missing binding is taken as `undefined` at run time, as a TypeScript build to CommonJS leaves it. Under native ES module linking the module would not load at all; that is not modelled.
- ClientCredentials.CachedTokenOf: a non-empty cached string that is not JSON makes `JSON.parse` throw inside `flatMap`. Effect turns that into a defect that `catchAll` does not catch. The model reports it as the failure `CachedTokenDefect` rather than falling back to "no cached token".

## Findings

| source | as written | input that shows it | evidently intended | confidence | as-written member | corrected member |
|---|---|---|---|---|---|---|
| src/services/tracks.ts:141 | `me/tracks/contains?${encodedIds}`: no `ids=` | `checkSaved(["a", "b"])` sends the one entry named "a%2Cb" with no value | `me/tracks/contains?ids=${encodedIds}`, as `save` uses | high, not executed | Tracks.CheckSavedLosesIdsKey | Tracks.CheckSavedIntendedRoute |
| src/services/shows.ts:70 | `shows?${encodedIds}`: no `ids=` | `getMany(["a", "b"])` sends no `ids` entry | `shows?ids=${encodedIds}` | high, not executed | Shows.GetManyLosesIdsKey | Shows.GetManyIntendedRoute |
| src/services/shows.ts:176 | `me/shows/contains?${encodedIds}`: no `ids=` | `checkSaved(["a", "b"])` sends no `ids` entry | `me/shows/contains?ids=${encodedIds}` | high, not executed | Shows.CheckSavedLosesIdsKey | Shows.CheckSavedIntendedRoute |
| src/services/users.ts:224 | `playlist/${id}/followers/contains` | any ID: the path starts with "playlist", while follow uses "playlists" | `playlists/${id}/followers/contains` | high, not executed | Users.IsFollowingPlaylistRoute | Users.IsFollowingPlaylistIntendedRoute |
| src/services/players.ts:119-121 | route `/me/player/play` with a leading '/' | any call: the URL is `https://api.spotify.com/v1//me/player/play` | `me/player/play`, like every other route | medium, not executed | Players.StartRouteLeadingSlash | Players.StartIntendedRoute |
| src/services/playlists.ts:151 | `playlists/${id}/tracks` with the ID untrimmed | ID `" p "` gives a route other than `updateItems` for the same playlist | `${id.trim()}`, as every other playlist route does | medium, not executed | Playlists.AddRouteUntrimmed | Playlists.AddIntendedRoute |
| src/services/playlists.ts:238 | `users/${userId}/playlists` with the ID untrimmed | user ID `" u "` gives a route other than `getUsersPlaylists` for the same user | `${userId.trim()}` | medium, not executed | Playlists.CreateRouteUntrimmed | Playlists.CreateIntendedRoute |
| src/auth/withClientCredentials.ts:8 | imports `FetchError` and `JsonError` from "../errors", which exports neither, and builds them at lines 109 and 121 | a `fetch` that rejects: the `catch` callback throws a `TypeError`, so the call dies with a defect that no `catchAll` sees | typed `FetchError` and `JsonError` failures, declared in the errors module | high, not executed | ClientCredentials.FetchNewTokenAsWrittenDefects | ClientCredentials.FetchNewTokenOutcome |
| src/services/searches.ts:28 | `search?q=${query.trim()}` with no encoding | query `"a&k=v"` sends the extra entry `k=v` and `q=a` | `encodeURIComponent(query.trim())` | high, not executed | Searches.SearchQueryInjects | Searches.SearchIntendedRoute |
