/**
 * What every resource service hands to `makeRequest`, the guard on ID lists
 * they share, and a reader for the routes they write: the path cut at '/' and
 * the query cut at '&' into `name=value` pairs (no percent-decoding). Routes
 * are written by string concatenation in the services; the lemmas here say
 * what such a route reads back as.
 */
module ServiceCommon {
  import opened Wrappers
  import opened Text
  import opened Json
  import opened Http
  import opened Client

  /** The schema a call decodes its reply with, by name; the schemas themselves are not modelled. */
  datatype Schema =
    | Named(name: string)
    | ArrayOf(item: Schema)
    | PageOf(item: Schema)
    | VoidSchema
    | StringSchema
    | BooleanSchema

  /** The arguments of one `makeRequest` call. */
  datatype Call = Call(verb: Method, route: string, schema: Schema, options: Options, headers: Headers, body: Option<string>)

  /** `IllegalArgumentException`, thrown before any request is made. */
  datatype ServiceError = IllegalArgumentException(message: string)

  /** A call with neither custom headers nor a body. */
  function Plain(verb: Method, route: string, schema: Schema, options: Options): Call
  {
    Call(verb, route, schema, options, [], None)
  }

  /**
   * The guard `ids.length > limit`, which throws the service's message before
   * any request, and otherwise the joined IDs the route carries.
   */
  function EncodeIds(ids: seq<string>, limit: nat, message: string): (r: Result<string, ServiceError>)
    ensures r.Success? <==> |ids| <= limit
    ensures r.Failure? ==> r.error == IllegalArgumentException(message)
    ensures r.Success? ==> r.value == JoinTrimmed(ids)
  {
    if |ids| > limit then Failure(IllegalArgumentException(message)) else Success(JoinTrimmed(ids))
  }

  // ---------------------------------------------------------------------------
  // Reading a route
  // ---------------------------------------------------------------------------

  /** The route up to its first '?'. */
  function PathOf(route: string): string
  {
    route[..IndexOf(route, "?")]
  }

  /** What follows the first '?', if there is one. */
  function QueryOf(route: string): Option<string>
  {
    var q := IndexOf(route, "?");
    if q == |route| then None else Some(route[q + 1..])
  }

  /** The path segments: the path cut at every '/'. */
  function Segments(route: string): seq<string>
  {
    Split(PathOf(route), "/")
  }

  /** One query entry: the name up to the first '=' and the value after it; no '=' means an empty value. */
  function ParsePair(part: string): (string, string)
  {
    var e := IndexOf(part, "=");
    if e == |part| then (part, "") else (part[..e], part[e + 1..])
  }

  /** The query entries in order. */
  function ParamsOf(route: string): Params
  {
    match QueryOf(route)
    case None => []
    case Some(q) =>
      var parts := Split(q, "&");
      seq(|parts|, i requires 0 <= i < |parts| => ParsePair(parts[i]))
  }

  // ---------------------------------------------------------------------------
  // Writing a route
  // ---------------------------------------------------------------------------

  function PairText(p: (string, string)): string
  {
    p.0 + "=" + p.1
  }

  function PairsText(ps: Params): (r: seq<string>)
    ensures |r| == |ps|
    ensures forall i :: 0 <= i < |ps| ==> r[i] == PairText(ps[i])
  {
    seq(|ps|, i requires 0 <= i < |ps| => PairText(ps[i]))
  }

  /** Segments joined by '/', then, when there are parameters, '?' and the `name=value` entries joined by '&'. */
  function RouteText(segments: seq<string>, ps: Params): string
  {
    Join(segments, "/") + (if ps == [] then "" else "?" + Join(PairsText(ps), "&"))
  }

  /** Segments that can be read back: none contains '/' or '?'. */
  predicate PlainSegments(segments: seq<string>)
  {
    |segments| > 0 && FreeOf(segments, '/') && FreeOf(segments, '?')
  }

  /** Entries that can be read back: no name contains '=' or '&', no value contains '&'. */
  predicate PlainParams(ps: Params)
  {
    forall i :: 0 <= i < |ps| ==> '=' !in ps[i].0 && '&' !in ps[i].0 && '&' !in ps[i].1
  }

  /** A string joined from parts none of which contains `c`, with a separator without `c`, has no `c`. */
  lemma {:induction false} JoinExcludes(parts: seq<string>, sep: string, c: char)
    requires FreeOf(parts, c) && c !in sep
    ensures c !in Join(parts, sep)
    decreases |parts|
  {
    if |parts| > 1 {
      assert FreeOf(parts[1..], c) by {
        forall k, m | 0 <= k < |parts[1..]| && 0 <= m < |parts[1..][k]|
          ensures parts[1..][k][m] != c
        {
          assert parts[1..][k] == parts[k + 1];
        }
      }
      JoinExcludes(parts[1..], sep, c);
      assert forall m :: 0 <= m < |parts[0]| ==> parts[0][m] != c;
      assert c !in parts[0];
    } else if |parts| == 1 {
      assert forall m :: 0 <= m < |parts[0]| ==> parts[0][m] != c;
    }
  }

  /** Two or more IDs are joined with "%2C", so the joined text holds a '%' and is not the word "ids". */
  lemma JoinedListHasSeparator(ids: seq<string>)
    requires |ids| >= 2
    ensures '%' in JoinTrimmed(ids) && JoinTrimmed(ids) != "ids"
  {
    var parts := TrimAll(ids);
    var j := JoinTrimmed(ids);
    assert j == parts[0] + EncodedComma + Join(parts[1..], EncodedComma);
    assert j[|parts[0]|] == '%';
    assert '%' !in "ids";
  }

  /** The joined IDs of a list whose trimmed IDs contain no '&'. */
  lemma JoinTrimmedExcludes(ids: seq<string>, c: char)
    requires FreeOf(TrimAll(ids), c) && c !in EncodedComma
    ensures c !in JoinTrimmed(ids)
  {
    JoinExcludes(TrimAll(ids), EncodedComma, c);
  }

  lemma ParsePairText(p: (string, string))
    requires '=' !in p.0
    ensures ParsePair(PairText(p)) == p
  {
    var t := PairText(p);
    assert t == p.0 + ("=" + p.1);
    IndexOfAfterFreePrefix(p.0, "=" + p.1, "=");
    assert ("=" + p.1)[..1] == "=";
    assert t[..|p.0|] == p.0;
    assert t[|p.0| + 1..] == p.1;
  }

  lemma PairsFreeOfAmpersand(ps: Params)
    requires PlainParams(ps)
    ensures FreeOf(PairsText(ps), '&')
  {
    forall k, m | 0 <= k < |ps| && 0 <= m < |PairsText(ps)[k]|
      ensures PairsText(ps)[k][m] != '&'
    {
      var p := ps[k];
      var t := PairText(p);
      if m < |p.0| {
        assert t[m] == p.0[m];
      } else if m > |p.0| {
        assert t[m] == p.1[m - |p.0| - 1];
      }
    }
  }

  /** The path of a written route reads back as its segments, and its query as its entries. */
  lemma RouteRoundTrip(segments: seq<string>, ps: Params)
    requires PlainSegments(segments) && PlainParams(ps)
    ensures Segments(RouteText(segments, ps)) == segments
    ensures ParamsOf(RouteText(segments, ps)) == ps
  {
    var path := Join(segments, "/");
    var rest := if ps == [] then "" else "?" + Join(PairsText(ps), "&");
    var route := RouteText(segments, ps);
    JoinExcludes(segments, "/", '?');
    IndexOfAfterFreePrefix(path, rest, "?");
    assert route[..|path|] == path;
    SplitJoin(segments, "/");
    if ps != [] {
      var q := Join(PairsText(ps), "&");
      assert rest[..1] == "?";
      assert route[|path| + 1..] == q;
      PairsFreeOfAmpersand(ps);
      SplitJoin(PairsText(ps), "&");
      forall i | 0 <= i < |ps|
        ensures ParsePair(PairsText(ps)[i]) == ps[i]
      {
        ParsePairText(ps[i]);
      }
    }
  }

  /** Joins of one to four parts, spelled out. */
  lemma JoinTwo(a: string, b: string, sep: string)
    ensures Join([a], sep) == a
    ensures Join([a, b], sep) == a + sep + b
  {
    assert [a, b][1..] == [b];
  }

  lemma JoinThree(a: string, b: string, c: string, sep: string)
    ensures Join([a, b, c], sep) == a + sep + b + sep + c
  {
    assert [a, b, c][1..] == [b, c];
    JoinTwo(b, c, sep);
  }

  lemma JoinFour(a: string, b: string, c: string, d: string, sep: string)
    ensures Join([a, b, c, d], sep) == a + sep + b + sep + c + sep + d
  {
    assert [a, b, c, d][1..] == [b, c, d];
    JoinThree(b, c, d, sep);
  }

  /** An ID that can stand as a path segment: once trimmed, it has no '/' and no '?'. */
  predicate PlainId(id: string)
  {
    '/' !in Trim(id) && '?' !in Trim(id)
  }

  /** IDs that can stand in a query value: once trimmed, none has '&'. */
  predicate PlainIds(ids: seq<string>)
  {
    FreeOf(TrimAll(ids), '&')
  }

  /** A route of fixed segments and no query reads back as those segments and no entries. */
  lemma FixedRoute(route: string, segments: seq<string>)
    requires PlainSegments(segments) && route == Join(segments, "/")
    ensures Segments(route) == segments && ParamsOf(route) == []
  {
    assert RouteText(segments, []) == route;
    RouteRoundTrip(segments, []);
  }

  /** Joining two non-empty lists is joining each and putting the separator between. */
  lemma {:induction false} JoinAppend(a: seq<string>, b: seq<string>, sep: string)
    requires |a| > 0 && |b| > 0
    ensures Join(a + b, sep) == Join(a, sep) + sep + Join(b, sep)
    decreases |a|
  {
    if |a| == 1 {
      assert (a + b)[1..] == b;
    } else {
      assert (a + b)[1..] == a[1..] + b;
      JoinAppend(a[1..], b, sep);
    }
  }

  lemma FreeOfAppend(a: seq<string>, b: seq<string>, c: char)
    requires FreeOf(a, c) && FreeOf(b, c)
    ensures FreeOf(a + b, c)
  {
    forall k, m | 0 <= k < |a + b| && 0 <= m < |(a + b)[k]|
      ensures (a + b)[k][m] != c
    {
      if k >= |a| {
        assert (a + b)[k] == b[k - |a|];
      }
    }
  }

  /** A route of fixed segments followed by one ID segment reads back as all of them, with no entries. */
  lemma IdRoute(route: string, prefix: string, head: seq<string>, t: string)
    requires PlainSegments(head) && prefix == Join(head, "/") + "/"
    requires '/' !in t && '?' !in t
    requires route == prefix + t
    ensures Segments(route) == head + [t] && ParamsOf(route) == []
    ensures |head| == 1 ==> Segments(route) == [head[0], t]
    ensures |head| == 2 ==> Segments(route) == [head[0], head[1], t]
  {
    FrontSegments(prefix, head, t);
    FixedRoute(route, head + [t]);
    if |head| == 1 {
      assert head + [t] == [head[0], t];
    } else if |head| == 2 {
      assert head + [t] == [head[0], head[1], t];
    }
  }

  /** A route of fixed segments, one ID segment and more fixed segments reads back as all of them, in order, with no entries. */
  lemma IdPathRoute(route: string, prefix: string, head: seq<string>, t: string, suffix: string, tail: seq<string>)
    requires PlainSegments(head) && prefix == Join(head, "/") + "/"
    requires '/' !in t && '?' !in t
    requires PlainSegments(tail) && suffix == "/" + Join(tail, "/")
    requires route == prefix + t + suffix
    ensures Segments(route) == head + [t] + tail && ParamsOf(route) == []
    ensures |head| == 1 && |tail| == 1 ==> Segments(route) == [head[0], t, tail[0]]
    ensures |head| == 1 && |tail| == 2 ==> Segments(route) == [head[0], t, tail[0], tail[1]]
  {
    IdPathJoin(route, prefix, head, t, suffix, tail);
    FixedRoute(route, head + [t] + tail);
    SegmentsShape(head, t, tail);
  }

  lemma IdPathJoin(route: string, prefix: string, head: seq<string>, t: string, suffix: string, tail: seq<string>)
    requires PlainSegments(head) && prefix == Join(head, "/") + "/"
    requires '/' !in t && '?' !in t
    requires PlainSegments(tail) && suffix == "/" + Join(tail, "/")
    requires route == prefix + t + suffix
    ensures PlainSegments(head + [t] + tail) && Join(head + [t] + tail, "/") == route
  {
    var front := head + [t];
    FrontSegments(prefix, head, t);
    FreeOfAppend(front, tail, '/');
    FreeOfAppend(front, tail, '?');
    JoinAppend(front, tail, "/");
  }

  lemma SegmentsShape(head: seq<string>, t: string, tail: seq<string>)
    ensures |head| == 1 && |tail| == 1 ==> head + [t] + tail == [head[0], t, tail[0]]
    ensures |head| == 1 && |tail| == 2 ==> head + [t] + tail == [head[0], t, tail[0], tail[1]]
  {
  }

  /** Fixed segments and an ID segment: readable, and joined as the prefix followed by the ID. */
  lemma FrontSegments(prefix: string, head: seq<string>, t: string)
    requires PlainSegments(head) && prefix == Join(head, "/") + "/"
    requires '/' !in t && '?' !in t
    ensures PlainSegments(head + [t]) && Join(head + [t], "/") == prefix + t
  {
    assert FreeOf([t], '/') && FreeOf([t], '?');
    FreeOfAppend(head, [t], '/');
    FreeOfAppend(head, [t], '?');
    JoinAppend(head, [t], "/");
    assert Join([t], "/") == t;
  }

  /** A route of fixed segments and one parameter reads back as both. */
  lemma OneParamRoute(prefix: string, segments: seq<string>, key: string, value: string)
    requires PlainSegments(segments) && prefix == Join(segments, "/") + "?" + key + "="
    requires '=' !in key && '&' !in key && '&' !in value
    ensures Segments(prefix + value) == segments
    ensures ParamsOf(prefix + value) == [(key, value)]
  {
    var ps := [(key, value)];
    assert PairsText(ps) == [key + "=" + value];
    JoinTwo(key + "=" + value, "", "&");
    assert RouteText(segments, ps) == prefix + value;
    RouteRoundTrip(segments, ps);
  }

  /** A route of fixed segments and one ID-list parameter reads back as both. */
  lemma IdListRoute(prefix: string, segments: seq<string>, key: string, ids: seq<string>)
    requires PlainSegments(segments) && prefix == Join(segments, "/") + "?" + key + "="
    requires PlainIds(ids) && '=' !in key && '&' !in key
    ensures Segments(prefix + JoinTrimmed(ids)) == segments
    ensures ParamsOf(prefix + JoinTrimmed(ids)) == [(key, JoinTrimmed(ids))]
  {
    JoinTrimmedExcludes(ids, '&');
    OneParamRoute(prefix, segments, key, JoinTrimmed(ids));
  }

  /** A route of fixed segments and two parameters reads back as the segments and both entries, in that order. */
  lemma TwoParamRoute(lead: string, segments: seq<string>, k1: string, v1: string, mid: string, k2: string, v2: string)
    requires PlainSegments(segments) && lead == Join(segments, "/") + "?" + k1 + "=" && mid == "&" + k2 + "="
    requires '=' !in k1 && '&' !in k1 && '&' !in v1
    requires '=' !in k2 && '&' !in k2 && '&' !in v2
    ensures Segments(lead + v1 + mid + v2) == segments
    ensures ParamsOf(lead + v1 + mid + v2) == [(k1, v1), (k2, v2)]
  {
    var ps := [(k1, v1), (k2, v2)];
    assert PlainParams(ps);
    assert PairsText(ps) == [k1 + "=" + v1, k2 + "=" + v2];
    JoinTwo(k1 + "=" + v1, k2 + "=" + v2, "&");
    assert RouteText(segments, ps) == lead + v1 + mid + v2;
    RouteRoundTrip(segments, ps);
  }

  /** The fixed words of a `type` and `ids` query. */
  lemma TypeIdsKeys()
    ensures '=' !in "type" && '&' !in "type" && '=' !in "ids" && '&' !in "ids"
    ensures "&ids=" == "&" + "ids" + "="
  {
  }

  /** A route of fixed segments, a `type` entry and an `ids` entry, in that order. */
  lemma TypedIdListRoute(lead: string, segments: seq<string>, typeText: string, joined: string)
    requires PlainSegments(segments) && lead == Join(segments, "/") + "?" + "type" + "="
    requires '&' !in typeText && '&' !in joined
    ensures Segments(lead + typeText + "&ids=" + joined) == segments
    ensures ParamsOf(lead + typeText + "&ids=" + joined) == [("type", typeText), ("ids", joined)]
  {
    TypeIdsKeys();
    TwoParamRoute(lead, segments, "type", typeText, "&ids=", "ids", joined);
  }

  /**
   * A route whose query is a bare value with no '=' and no '&' reads back as
   * one entry named by the whole value, with an empty value.
   */
  lemma BareQueryRoute(prefix: string, segments: seq<string>, value: string)
    requires PlainSegments(segments) && prefix == Join(segments, "/") + "?"
    requires '=' !in value && '&' !in value
    ensures Segments(prefix + value) == segments
    ensures ParamsOf(prefix + value) == [(value, "")]
  {
    PathAndQuery(prefix + value, segments, value);
    SplitJoin(segments, "/");
    NotFound(value, "&");
    NotFound(value, "=");
  }

  /** The path and query of a route written as the joined segments, '?' and a query. */
  lemma PathAndQuery(route: string, segments: seq<string>, query: string)
    requires PlainSegments(segments) && route == Join(segments, "/") + "?" + query
    ensures PathOf(route) == Join(segments, "/") && QueryOf(route) == Some(query)
  {
    var path := Join(segments, "/");
    assert route == path + ("?" + query);
    JoinExcludes(segments, "/", '?');
    IndexOfAfterFreePrefix(path, "?" + query, "?");
    assert ("?" + query)[..1] == "?";
    assert route[..|path|] == path;
    assert route[|path| + 1..] == query;
  }

  /** A one-character separator that does not occur is not found: nothing is split and no '=' is cut. */
  lemma NotFound(s: string, sep: string)
    requires |sep| == 1 && sep[0] !in s
    ensures IndexOf(s, sep) == |s| && Split(s, sep) == [s]
    ensures sep == "=" ==> ParsePair(s) == (s, "")
  {
    IndexOfAfterFreePrefix(s, [], sep);
    assert s + [] == s;
  }

  /** A route of fixed segments and a bare ID list after the '?' reads back as one entry named by the joined list. */
  lemma BareIdListRoute(prefix: string, segments: seq<string>, ids: seq<string>)
    requires PlainSegments(segments) && prefix == Join(segments, "/") + "?"
    requires PlainIds(ids) && FreeOf(TrimAll(ids), '=')
    ensures Segments(prefix + JoinTrimmed(ids)) == segments
    ensures ParamsOf(prefix + JoinTrimmed(ids)) == [(JoinTrimmed(ids), "")]
  {
    JoinTrimmedExcludes(ids, '&');
    JoinTrimmedExcludes(ids, '=');
    BareQueryRoute(prefix, segments, JoinTrimmed(ids));
  }

  /** A number written in decimal has no '&' and no '='. */
  lemma NumberText(i: int)
    ensures '&' !in IntToString(i) && '=' !in IntToString(i)
  {
    var d := NatToString(if i < 0 then -i else i);
    assert '&' !in d && '=' !in d by {
      assert forall k :: 0 <= k < |d| ==> IsDigit(d[k]);
    }
  }

  // ---------------------------------------------------------------------------
  // JSON bodies
  // ---------------------------------------------------------------------------

  /** `JSON.stringify` of an object literal; `undefined` fields are left out. */
  function JsonBody(fields: Fields): string
  {
    Serialize(JObj(ObjectOf(fields)))
  }

  /** What a request body holds under `key` once parsed: `None` for no body, a body that is not an object, or a missing key. */
  function BodyField(body: Option<string>, key: string): Option<Json>
  {
    if body.None? then None
    else match Parse(body.value)
      case Some(JObj(ms)) => Get(ms, key)
      case _ => None
  }

  /**
   * A body written from an object literal with distinct names parses back as
   * that object, and each key holds the literal's value (`None` when it was
   * `undefined`, which `JSON.stringify` leaves out).
   */
  lemma JsonBodyField(fields: Fields, key: string)
    requires DistinctNames(fields)
    ensures Parse(JsonBody(fields)) == Some(JObj(ObjectOf(fields)))
    ensures BodyField(Some(JsonBody(fields)), key) == Field(fields, key)
  {
    ParseSerialize(JObj(ObjectOf(fields)));
    GetObjectOf(fields, key);
  }

  /** The body of an object literal with distinct names holds, under the name at position `i`, that field's value. */
  lemma BodyFieldAt(fields: Fields, i: nat)
    requires DistinctNames(fields) && i < |fields|
    ensures BodyField(Some(JsonBody(fields)), fields[i].0) == fields[i].1
  {
    JsonBodyField(fields, fields[i].0);
    FieldAt(fields, i);
  }

  function OptString(s: Option<string>): Option<Json>
  {
    match s
    case None => None
    case Some(v) => Some(JStr(v))
  }

  function OptBool(b: Option<bool>): Option<Json>
  {
    match b
    case None => None
    case Some(v) => Some(JBool(v))
  }

  function OptNumber(n: Option<int>): Option<Json>
  {
    match n
    case None => None
    case Some(v) => Some(JNum(v))
  }

  function Strings(xs: seq<string>): Json
  {
    JArr(seq(|xs|, i requires 0 <= i < |xs| => JStr(xs[i])))
  }

  function OptStrings(xs: Option<seq<string>>): Option<Json>
  {
    match xs
    case None => None
    case Some(v) => Some(Strings(v))
  }
}
