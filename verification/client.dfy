/**
 * The request engine `makeRequest`: it turns a route, query options, custom
 * headers and a body into a request, and turns the outcome of sending it into
 * either the caller's decoded value or exactly one error of the taxonomy.
 * Sending is not modelled: its outcome is the `Response` input.
 */
module Client {
  import opened Wrappers
  import opened Text
  import opened Json
  import opened Http
  import opened Errors

  const BaseUrl: string := "https://api.spotify.com/v1/"

  /** The delay, in seconds, of a 429 reply that carries no `Retry-After` header. */
  const DefaultRetryAfterSeconds: nat := 15

  const NetworkFailedMessage: string := "Network request failed"
  const JsonFailedMessage: string := "Failed to transform Spotify response to JSON"
  const ErrorDecodeFailedMessage: string := "Failed to decode Spotify error response"
  const ResponseDecodeFailedMessage: string := "Failed to decode Spotify response to provided schema"

  // ---------------------------------------------------------------------------
  // Query options
  // ---------------------------------------------------------------------------

  /** The value of one query option. */
  datatype OptionValue =
    | Undefined
    | Null
    | Str(s: string)
    | Num(n: int)
    | Bool(b: bool)
    | List(items: seq<string>)

  /** The entries of an options object, in `Object.entries` order. */
  type Options = seq<(string, OptionValue)>

  /** Only `undefined` and `null` are skipped; `0`, `""` and `false` are kept. */
  predicate IsPresent(v: OptionValue)
  {
    !v.Undefined? && !v.Null?
  }

  /** `String(value)`, where an array value is first trimmed element-wise and joined with "%2C". */
  function ParamValue(v: OptionValue): string
    requires IsPresent(v)
  {
    match v
    case Str(s) => s
    case Num(n) => IntToString(n)
    case Bool(b) => if b then "true" else "false"
    case List(items) => JoinTrimmed(items)
  }

  /** The search parameters the options produce: one per present entry, in entry order. */
  function QueryParams(options: Options): (r: Params)
    ensures |r| <= |options|
    decreases |options|
  {
    if options == [] then []
    else
      var last := options[|options| - 1];
      QueryParams(options[..|options| - 1]) + (if IsPresent(last.1) then [(last.0, ParamValue(last.1))] else [])
  }

  /** The `forEach` over the option entries that appends to `url.searchParams`. */
  method AppendQueryParams(options: Options) returns (params: Params)
    ensures params == QueryParams(options)
    ensures |params| <= |options|
  {
    params := [];
    var i := 0;
    while i < |options|
      invariant 0 <= i <= |options|
      invariant params == QueryParams(options[..i])
    {
      var (key, value) := options[i];
      if value != Undefined && value != Null {
        params := params + [(key, ParamValue(value))];
      }
      assert options[..i + 1][..i] == options[..i];
      i := i + 1;
    }
    assert options[..|options|] == options;
  }

  /** The parameters of a concatenation of option lists are those of each part, in order. */
  lemma {:induction false} QueryParamsAppend(a: Options, b: Options)
    ensures QueryParams(a + b) == QueryParams(a) + QueryParams(b)
    decreases |b|
  {
    if b == [] {
      assert a + b == a;
    } else {
      var init := b[..|b| - 1];
      QueryParamsAppend(a, init);
      assert (a + b)[..|a + b| - 1] == a + init;
      assert (a + b)[|a + b| - 1] == b[|b| - 1];
    }
  }

  /**
   * A pair `(key, value)` is among the search parameters exactly when some
   * option entry has that key, is neither `undefined` nor `null`, and
   * stringifies to that value.
   */
  lemma {:induction false} QueryParamFor(options: Options, key: string, value: string)
    ensures (key, value) in QueryParams(options) <==>
      exists i :: 0 <= i < |options| && options[i].0 == key && IsPresent(options[i].1) && ParamValue(options[i].1) == value
    decreases |options|
  {
    if options != [] {
      var init := options[..|options| - 1];
      var last := options[|options| - 1];
      QueryParamFor(init, key, value);
      if (key, value) in QueryParams(options) {
        if (key, value) in QueryParams(init) {
          var i :| 0 <= i < |init| && init[i].0 == key && IsPresent(init[i].1) && ParamValue(init[i].1) == value;
          assert options[i] == init[i];
        } else {
          assert options[|options| - 1] == last;
        }
      }
      if exists i :: 0 <= i < |options| && options[i].0 == key && IsPresent(options[i].1) && ParamValue(options[i].1) == value {
        var i :| 0 <= i < |options| && options[i].0 == key && IsPresent(options[i].1) && ParamValue(options[i].1) == value;
        if i < |options| - 1 {
          assert init[i] == options[i];
        }
      }
    }
  }

  /** Defined falsy values still produce a parameter: `0`, `""` and `false` become "0", "" and "false". */
  lemma FalsyOptionsKept(key: string)
    ensures QueryParams([(key, Num(0))]) == [(key, "0")]
    ensures QueryParams([(key, Str(""))]) == [(key, "")]
    ensures QueryParams([(key, Bool(false))]) == [(key, "false")]
    ensures QueryParams([(key, Undefined)]) == [] && QueryParams([(key, Null)]) == []
  {
    assert [(key, Num(0))][..0] == [];
    assert [(key, Str(""))][..0] == [];
    assert [(key, Bool(false))][..0] == [];
    assert [(key, Undefined)][..0] == [];
    assert [(key, Null)][..0] == [];
  }

  /**
   * An array option is one parameter whose value splits back at "%2C" into
   * its trimmed elements, in order (when no trimmed element holds '%').
   */
  lemma ListParamRoundTrip(items: seq<string>)
    requires |items| > 0
    requires FreeOf(TrimAll(items), '%')
    ensures Split(ParamValue(List(items)), EncodedComma) == TrimAll(items)
  {
    JoinTrimmedRoundTrip(items);
  }

  // ---------------------------------------------------------------------------
  // Headers
  // ---------------------------------------------------------------------------

  /** The entries of a plain object in insertion order. */
  type Headers = seq<(string, string)>

  predicate UniqueKeys(h: Headers)
  {
    forall i, j :: 0 <= i < j < |h| ==> h[i].0 != h[j].0
  }

  /** The value held for `key`. */
  function HeaderValue(h: Headers, key: string): (r: Option<string>)
    ensures r.None? <==> forall i :: 0 <= i < |h| ==> h[i].0 != key
    decreases |h|
  {
    if h == [] then None
    else if h[0].0 == key then Some(h[0].1)
    else HeaderValue(h[1..], key)
  }

  /** Setting a property: an existing key keeps its place and takes the new value; a new key goes last. */
  function Assign(h: Headers, key: string, value: string): (r: Headers)
    ensures |r| == |h| || |r| == |h| + 1
    decreases |h|
  {
    if h == [] then [(key, value)]
    else if h[0].0 == key then [(key, value)] + h[1..]
    else [h[0]] + Assign(h[1..], key, value)
  }

  /** `{...target, ...source}`: every entry of `source` assigned in order. */
  function Spread(target: Headers, source: Headers): Headers
    decreases |source|
  {
    if source == [] then target else Spread(Assign(target, source[0].0, source[0].1), source[1..])
  }

  /** `{ Authorization: authorization, ...customHeaders }`. */
  function MergeHeaders(authorization: string, custom: Headers): Headers
  {
    Spread([("Authorization", authorization)], custom)
  }

  lemma {:induction false} AssignValue(h: Headers, key: string, value: string, k: string)
    requires UniqueKeys(h)
    ensures UniqueKeys(Assign(h, key, value))
    ensures HeaderValue(Assign(h, key, value), k) == if k == key then Some(value) else HeaderValue(h, k)
    ensures |h| > 0 ==> |Assign(h, key, value)| > 0 && Assign(h, key, value)[0].0 == h[0].0
  {
    AssignLookup(h, key, value, k);
    AssignUnique(h, key, value);
  }

  /** After an assignment `key` reads the new value and every other key what it read before. */
  lemma {:induction false} AssignLookup(h: Headers, key: string, value: string, k: string)
    ensures HeaderValue(Assign(h, key, value), k) == if k == key then Some(value) else HeaderValue(h, k)
    decreases |h|
  {
    if h != [] && h[0].0 != key {
      AssignLookup(h[1..], key, value, k);
      assert Assign(h, key, value)[1..] == Assign(h[1..], key, value);
    } else if h != [] {
      assert Assign(h, key, value)[1..] == h[1..];
    }
  }

  /** An assignment keeps the keys distinct and the first key in place. */
  lemma {:induction false} AssignUnique(h: Headers, key: string, value: string)
    requires UniqueKeys(h)
    ensures UniqueKeys(Assign(h, key, value))
    ensures |h| > 0 ==> |Assign(h, key, value)| > 0 && Assign(h, key, value)[0].0 == h[0].0
    decreases |h|
  {
    if h != [] && h[0].0 != key {
      var t := Assign(h[1..], key, value);
      AssignUnique(h[1..], key, value);
      assert Assign(h, key, value) == [h[0]] + t;
      assert HeaderValue(h[1..], h[0].0).None?;
      AssignLookup(h[1..], key, value, h[0].0);
      assert forall i :: 0 <= i < |t| ==> t[i].0 != h[0].0;
    } else if h != [] {
      var r := Assign(h, key, value);
      assert r[1..] == h[1..];
    }
  }

  /** The value a header list gives `key` after `source` is spread over `target`: `source` wins. */
  lemma {:induction false} SpreadValue(target: Headers, source: Headers, k: string)
    requires UniqueKeys(target) && UniqueKeys(source)
    ensures UniqueKeys(Spread(target, source))
    ensures HeaderValue(Spread(target, source), k) ==
      if HeaderValue(source, k).Some? then HeaderValue(source, k) else HeaderValue(target, k)
    ensures |target| > 0 ==> |Spread(target, source)| > 0 && Spread(target, source)[0].0 == target[0].0
    decreases |source|
  {
    if source != [] {
      var t := Assign(target, source[0].0, source[0].1);
      AssignValue(target, source[0].0, source[0].1, k);
      SpreadValue(t, source[1..], k);
      if source[0].0 == k {
        assert HeaderValue(source[1..], k).None?;
      }
    }
  }

  /**
   * The merged headers start with `Authorization`, hold each custom header's
   * value unchanged, and give `Authorization` the caller's value when the
   * custom headers name it.
   */
  lemma MergeHeadersValues(authorization: string, custom: Headers, k: string)
    requires UniqueKeys(custom)
    ensures UniqueKeys(MergeHeaders(authorization, custom))
    ensures |MergeHeaders(authorization, custom)| > 0 && MergeHeaders(authorization, custom)[0].0 == "Authorization"
    ensures HeaderValue(MergeHeaders(authorization, custom), k) ==
      if HeaderValue(custom, k).Some? then HeaderValue(custom, k)
      else if k == "Authorization" then Some(authorization)
      else None
  {
    SpreadValue([("Authorization", authorization)], custom, k);
  }

  // ---------------------------------------------------------------------------
  // The request
  // ---------------------------------------------------------------------------

  datatype Request = Request(verb: Method, url: Url, headers: Headers, body: Option<string>)

  /** `...(body ? { body } : undefined)`: an empty body is not sent. */
  function SentBody(body: Option<string>): (r: Option<string>)
    ensures r.Some? <==> body.Some? && body.value != ""
    ensures r.Some? ==> r == body
  {
    if body.Some? && body.value != "" then body else None
  }

  /**
   * Builds what `makeRequest` sends: the base URL followed by the route, the
   * search parameters of the options, the merged headers and the body.
   */
  method BuildRequest(verb: Method, route: string, options: Options, customHeaders: Headers,
                      body: Option<string>, authorization: string) returns (req: Request)
    ensures req.verb == verb
    ensures req.url == Url(BaseUrl + route, QueryParams(options))
    ensures req.headers == MergeHeaders(authorization, customHeaders)
    ensures req.body == SentBody(body)
  {
    var params := AppendQueryParams(options);
    req := Request(verb, Url(BaseUrl + route, params), MergeHeaders(authorization, customHeaders), SentBody(body));
  }

  // ---------------------------------------------------------------------------
  // The outcome
  // ---------------------------------------------------------------------------

  /**
   * What sending produced: a transport failure, or a status, what
   * `response.json()` gave (`None` when it rejected the body) and the
   * `Retry-After` header as a number of seconds, when there is one.
   */
  datatype Response =
    | TransportFailure
    | Received(status: int, json: Option<Json>, retryAfterSeconds: Option<nat>)

  /** The `{ error: { status, message } }` body of a Spotify error reply. */
  datatype Envelope = Envelope(status: int, message: string)

  /** Decoding a body with the error-envelope schema; other properties are ignored. */
  function DecodeEnvelope(j: Json): (r: Option<Envelope>)
    ensures r.Some? ==> j.JObj? && Get(j.members, "error").Some?
  {
    match j
    case JObj(ms) =>
      (match Get(ms, "error")
       case Some(JObj(inner)) =>
         (match (Get(inner, "status"), Get(inner, "message"))
          case (Some(JNum(status)), Some(JStr(message))) => Some(Envelope(status, message))
          case _ => None)
       case _ => None)
    case _ => None
  }

  /** The JSON of an error envelope, as the API writes it. */
  function EnvelopeJson(e: Envelope): Json
  {
    JObj([Member("error", JObj([Member("status", JNum(e.status)), Member("message", JStr(e.message))]))])
  }

  /** An error reply written from an envelope is read back as that envelope. */
  lemma EnvelopeRoundTrip(e: Envelope)
    ensures Parse(Serialize(EnvelopeJson(e))).Some?
    ensures DecodeEnvelope(Parse(Serialize(EnvelopeJson(e))).value) == Some(e)
  {
    ParseSerialize(EnvelopeJson(e));
    var inner := [Member("status", JNum(e.status)), Member("message", JStr(e.message))];
    assert inner[..1] == [Member("status", JNum(e.status))];
    assert Get(inner, "status") == Some(JNum(e.status));
    assert Get(inner, "message") == Some(JStr(e.message));
    assert Get([Member("error", JObj(inner))], "error") == Some(JObj(inner));
  }

  /** The delay of a 429 reply: the `Retry-After` seconds, or 15 when the header is absent. */
  function RetryDelay(retryAfterSeconds: Option<nat>): (d: nat)
    ensures retryAfterSeconds.Some? ==> d == retryAfterSeconds.value
    ensures retryAfterSeconds.None? ==> d == DefaultRetryAfterSeconds
  {
    match retryAfterSeconds
    case Some(s) => s
    case None => DefaultRetryAfterSeconds
  }

  /** The `switch` on the envelope status: one variant per status, each carrying the envelope message. */
  function Classify(e: Envelope, retryAfterSeconds: Option<nat>): (r: ApiError)
    ensures r.IsApiStatusError() && r.cause == e.message
    ensures r.BadRequestError? <==> e.status == 400
    ensures r.UnauthorizedError? <==> e.status == 401
    ensures r.ForbiddenError? <==> e.status == 403
    ensures r.NotFoundError? <==> e.status == 404
    ensures r.RateLimitError? <==> e.status == 429
    ensures r.UnknownApiError? <==> e.status !in {400, 401, 403, 404, 429}
    ensures r.RateLimitError? ==> r.retryAfterSeconds == RetryDelay(retryAfterSeconds)
  {
    if e.status == 400 then BadRequestError(e.message)
    else if e.status == 401 then UnauthorizedError(e.message)
    else if e.status == 403 then ForbiddenError(e.message)
    else if e.status == 404 then NotFoundError(e.message)
    else if e.status == 429 then RateLimitError(e.message, RetryDelay(retryAfterSeconds))
    else UnknownApiError(e.message)
  }

  /**
   * `makeRequest` from the response on: the body is read as JSON before the
   * status is looked at; a non-OK reply is classified by its envelope; an OK
   * reply is decoded with the caller's schema, given here as `decode`.
   */
  function MakeRequest<T>(req: Request, resp: Response, decode: Json -> Option<T>): Result<T, ApiError>
  {
    match resp
    case TransportFailure => Failure(NetworkError(NetworkFailedMessage, req.url))
    case Received(status, json, retryAfterSeconds) =>
      match json
      case None => Failure(JsonParseError(JsonFailedMessage))
      case Some(j) =>
        if !IsOk(status) then
          match DecodeEnvelope(j)
          case None => Failure(SchemaDecodeError(ErrorDecodeFailedMessage))
          case Some(e) => Failure(Classify(e, retryAfterSeconds))
        else
          match decode(j)
          case None => Failure(SchemaDecodeError(ResponseDecodeFailedMessage))
          case Some(v) => Success(v)
  }

  /**
   * The call succeeds exactly when a reply arrived with an OK status, its body
   * is JSON and the caller's schema decodes it; the value is that decoding,
   * never anything partial.
   */
  lemma MakeRequestSucceeds<T>(req: Request, resp: Response, decode: Json -> Option<T>)
    ensures MakeRequest(req, resp, decode).Success? <==>
      resp.Received? && IsOk(resp.status) && resp.json.Some? && decode(resp.json.value).Some?
    ensures MakeRequest(req, resp, decode).Success? ==>
      MakeRequest(req, resp, decode).value == decode(resp.json.value).value
  {
  }

  /** The failure is decided by the first step that fails: transport, then JSON, then the schema. */
  lemma MakeRequestFailures<T>(req: Request, resp: Response, decode: Json -> Option<T>)
    ensures resp.TransportFailure? ==>
      MakeRequest(req, resp, decode) == Failure(NetworkError(NetworkFailedMessage, req.url))
    ensures resp.Received? && resp.json.None? ==>
      MakeRequest(req, resp, decode) == Failure(JsonParseError(JsonFailedMessage))
    ensures (resp.Received? && resp.json.Some? && !IsOk(resp.status) &&
             DecodeEnvelope(resp.json.value).None?) ==>
      MakeRequest(req, resp, decode) == Failure(SchemaDecodeError(ErrorDecodeFailedMessage))
    ensures (resp.Received? && resp.json.Some? && !IsOk(resp.status) &&
             DecodeEnvelope(resp.json.value).Some?) ==>
      MakeRequest(req, resp, decode) == Failure(Classify(DecodeEnvelope(resp.json.value).value, resp.retryAfterSeconds))
    ensures (resp.Received? && resp.json.Some? && IsOk(resp.status) &&
             decode(resp.json.value).None?) ==>
      MakeRequest(req, resp, decode) == Failure(SchemaDecodeError(ResponseDecodeFailedMessage))
  {
  }

  /**
   * A non-OK reply whose body decodes as an envelope (other properties
   * ignored) fails with the variant the envelope's own status selects,
   * carrying its message, whatever the HTTP status was; only a 429 envelope
   * looks at `Retry-After`.
   */
  lemma ErrorReplyClassified<T>(req: Request, status: int, j: Json, e: Envelope, retryAfterSeconds: Option<nat>,
                                decode: Json -> Option<T>)
    requires !IsOk(status) && DecodeEnvelope(j) == Some(e)
    ensures MakeRequest(req, Received(status, Some(j), retryAfterSeconds), decode) ==
      Failure(Classify(e, retryAfterSeconds))
    ensures MakeRequest(req, Received(status, Some(j), retryAfterSeconds), decode).error.cause == e.message
  {
  }

  /**
   * The envelope as the API writes it, sent back as the body of an error
   * reply, is classified by its status, whatever the HTTP status was.
   */
  lemma WrittenEnvelopeClassified<T>(req: Request, status: int, e: Envelope, retryAfterSeconds: Option<nat>,
                                     decode: Json -> Option<T>)
    requires !IsOk(status)
    ensures MakeRequest(req, Received(status, Parse(Serialize(EnvelopeJson(e))), retryAfterSeconds), decode) ==
      Failure(Classify(e, retryAfterSeconds))
  {
    EnvelopeRoundTrip(e);
    ErrorReplyClassified(req, status, Parse(Serialize(EnvelopeJson(e))).value, e, retryAfterSeconds, decode);
  }

  /** Examples of the 429 delay: the header's value when present, 15 seconds when absent. */
  lemma RateLimitDelay(message: string)
    ensures Classify(Envelope(429, message), Some(3)) == RateLimitError(message, 3)
    ensures Classify(Envelope(429, message), None) == RateLimitError(message, 15)
    ensures Classify(Envelope(429, message), Some(0)) == RateLimitError(message, 0)
  {
  }
}
