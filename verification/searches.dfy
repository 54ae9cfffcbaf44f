/**
 * `SearchService` (searches.ts): the search call. The query text goes into
 * the route after trimming only, so a '&' in it ends the `q` entry; the
 * corrected call percent-encodes it first.
 */
module Searches {
  import opened Wrappers
  import opened Text
  import opened Http
  import opened Client
  import opened ServiceCommon

  /** The item types a search may ask for. */
  datatype SearchType = Album | Artist | Playlist | Track | Show | Episode | Audiobook

  function TypeText(t: SearchType): string
  {
    match t
    case Album => "album"
    case Artist => "artist"
    case Playlist => "playlist"
    case Track => "track"
    case Show => "show"
    case Episode => "episode"
    case Audiobook => "audiobook"
  }

  function TypeTexts(types: seq<SearchType>): (r: seq<string>)
    ensures |r| == |types| && forall k :: 0 <= k < |types| ==> r[k] == TypeText(types[k])
  {
    seq(|types|, k requires 0 <= k < |types| => TypeText(types[k]))
  }

  /** `search` as written: the trimmed query, then the trimmed types joined by "%2C". */
  function Search(query: string, types: seq<SearchType>, options: Options): Call
  {
    Plain(GET, "search?q=" + Trim(query) + "&type=" + JoinTrimmed(TypeTexts(types)), Named("SearchResultsMap"), options)
  }

  // ---------------------------------------------------------------------------
  // Percent-encoding of the characters that change how a query reads
  // ---------------------------------------------------------------------------

  /** `encodeURIComponent` restricted to '%', '&', '=', '+' and '#'; every other character is kept. */
  function EncodeChar(c: char): (r: string)
    ensures '&' !in r && '=' !in r
  {
    if c == '%' then "%25"
    else if c == '&' then "%26"
    else if c == '=' then "%3D"
    else if c == '+' then "%2B"
    else if c == '#' then "%23"
    else [c]
  }

  function EncodeComponent(s: string): (r: string)
    decreases |s|
  {
    if s == [] then [] else EncodeChar(s[0]) + EncodeComponent(s[1..])
  }

  /** The character a "%XY" escape of `EncodeChar` stands for, if it is one. */
  function Unescape(x: char, y: char): Option<char>
  {
    if x == '2' && y == '5' then Some('%')
    else if x == '2' && y == '6' then Some('&')
    else if x == '3' && y == 'D' then Some('=')
    else if x == '2' && y == 'B' then Some('+')
    else if x == '2' && y == '3' then Some('#')
    else None
  }

  /** `decodeURIComponent` for the escapes `EncodeChar` writes. */
  function DecodeComponent(s: string): string
    decreases |s|
  {
    if |s| >= 3 && s[0] == '%' && Unescape(s[1], s[2]).Some? then [Unescape(s[1], s[2]).value] + DecodeComponent(s[3..])
    else if s == [] then []
    else [s[0]] + DecodeComponent(s[1..])
  }

  /** An encoded text holds no '&' and no '=', so it stays one query value. */
  lemma {:induction false} EncodedIsPlain(s: string)
    ensures '&' !in EncodeComponent(s) && '=' !in EncodeComponent(s)
    decreases |s|
  {
    if s != [] {
      EncodedIsPlain(s[1..]);
    }
  }

  /** Decoding one encoded character in front of any text. */
  lemma DecodeEncodedChar(c: char, rest: string)
    ensures DecodeComponent(EncodeChar(c) + rest) == [c] + DecodeComponent(rest)
  {
    var e := EncodeChar(c) + rest;
    if c == '%' || c == '&' || c == '=' || c == '+' || c == '#' {
      assert e[3..] == rest;
    } else {
      assert e[1..] == rest;
    }
  }

  /** Decoding undoes encoding. */
  lemma {:induction false} DecodeEncode(s: string)
    ensures DecodeComponent(EncodeComponent(s)) == s
    decreases |s|
  {
    if s != [] {
      DecodeEncodedChar(s[0], EncodeComponent(s[1..]));
      DecodeEncode(s[1..]);
      assert [s[0]] + s[1..] == s;
    }
  }

  /** `search` as evidently intended: the trimmed query percent-encoded. */
  function SearchIntended(query: string, types: seq<SearchType>, options: Options): Call
  {
    Plain(GET, "search?q=" + EncodeComponent(Trim(query)) + "&type=" + JoinTrimmed(TypeTexts(types)), Named("SearchResultsMap"), options)
  }

  // ---------------------------------------------------------------------------
  // What the route reads back as
  // ---------------------------------------------------------------------------

  lemma SearchLiterals()
    ensures PlainSegments(["search"])
    ensures "search?q=" == Join(["search"], "/") + "?" + "q" + "="
    ensures "&type=" == "&" + "type" + "="
  {
  }

  predicate Lowercase(s: string)
  {
    |s| > 0 && forall i :: 0 <= i < |s| ==> 'a' <= s[i] <= 'z'
  }

  /** A word of lower-case letters is its own trimmed text and holds none of '%', '&' and '='. */
  lemma LowercasePlain(s: string)
    requires Lowercase(s)
    ensures Trim(s) == s
    ensures '%' !in s && '&' !in s && '=' !in s
  {
    assert !IsWhitespace(s[0]) && !IsWhitespace(s[|s| - 1]);
    assert TrimStart(s) == s;
  }

  /** A type's name is plain lower-case letters: trimming keeps it and it holds none of '%', '&' and '='. */
  lemma TypeTextPlain(t: SearchType)
    ensures Trim(TypeText(t)) == TypeText(t)
    ensures '%' !in TypeText(t) && '&' !in TypeText(t) && '=' !in TypeText(t)
  {
    assert Lowercase(TypeText(t));
    LowercasePlain(TypeText(t));
  }

  /** The type names, trimmed, are the names themselves, and none holds '%' or '&'. */
  lemma TypeListPlain(types: seq<SearchType>)
    ensures TrimAll(TypeTexts(types)) == TypeTexts(types)
    ensures FreeOf(TypeTexts(types), '%') && FreeOf(TypeTexts(types), '&')
  {
    var xs := TypeTexts(types);
    forall k | 0 <= k < |xs|
      ensures Trim(xs[k]) == xs[k]
      ensures forall m :: 0 <= m < |xs[k]| ==> xs[k][m] != '%' && xs[k][m] != '&'
    {
      TypeTextPlain(types[k]);
    }
    assert TrimAll(xs) == xs;
  }

  /** The search route reads back as "search" with `q` then `type`, for any values free of '&'. */
  lemma QueryTypeRoute(q: string, t: string)
    requires '&' !in q && '&' !in t
    ensures Segments("search?q=" + q + "&type=" + t) == ["search"]
    ensures ParamsOf("search?q=" + q + "&type=" + t) == [("q", q), ("type", t)]
  {
    SearchLiterals();
    TwoParamRoute("search?q=", ["search"], "q", q, "&type=", "type", t);
  }

  /**
   * When the trimmed query holds no '&', `search` reads back as "search" with
   * `q`, the trimmed query, then `type`, which splits at "%2C" into the
   * requested types' names in order (and is empty when no type is asked for).
   */
  lemma SearchRoute(query: string, types: seq<SearchType>, options: Options)
    requires '&' !in Trim(query)
    ensures Search(query, types, options).verb == GET && Search(query, types, options).options == options
    ensures Segments(Search(query, types, options).route) == ["search"]
    ensures ParamsOf(Search(query, types, options).route) == [("q", Trim(query)), ("type", JoinTrimmed(TypeTexts(types)))]
    ensures |types| > 0 ==> Split(JoinTrimmed(TypeTexts(types)), EncodedComma) == TypeTexts(types)
    ensures types == [] ==> JoinTrimmed(TypeTexts(types)) == ""
  {
    TypeListPlain(types);
    JoinTrimmedExcludes(TypeTexts(types), '&');
    QueryTypeRoute(Trim(query), JoinTrimmed(TypeTexts(types)));
    if |types| > 0 {
      JoinTrimmedRoundTrip(TypeTexts(types));
    }
  }

  /** A route of fixed segments and three parameters reads back as the segments and the three entries, in order. */
  lemma ThreeParamRoute(lead: string, segments: seq<string>, k1: string, v1: string, k2: string, v2: string, k3: string, v3: string)
    requires PlainSegments(segments) && lead == Join(segments, "/") + "?" + k1 + "="
    requires '=' !in k1 && '&' !in k1 && '&' !in v1
    requires '=' !in k2 && '&' !in k2 && '&' !in v2
    requires '=' !in k3 && '&' !in k3 && '&' !in v3
    ensures ParamsOf(lead + v1 + ("&" + k2 + "=" + v2) + ("&" + k3 + "=") + v3) == [(k1, v1), (k2, v2), (k3, v3)]
  {
    var ps := [(k1, v1), (k2, v2), (k3, v3)];
    assert PlainParams(ps);
    assert PairsText(ps) == [k1 + "=" + v1, k2 + "=" + v2, k3 + "=" + v3];
    JoinThree(k1 + "=" + v1, k2 + "=" + v2, k3 + "=" + v3, "&");
    assert RouteText(segments, ps) == lead + v1 + ("&" + k2 + "=" + v2) + ("&" + k3 + "=") + v3;
    RouteRoundTrip(segments, ps);
  }

  /** The search route whose query value is `a&k=v`, written out as three entries. */
  lemma InjectedRoute(a: string, k: string, v: string, t: string)
    requires '&' !in a && '=' !in k && '&' !in k && '&' !in v && '&' !in t
    ensures ParamsOf("search?q=" + (a + ("&" + k + "=" + v)) + "&type=" + t) == [("q", a), (k, v), ("type", t)]
  {
    SearchLiterals();
    var x := "&" + k + "=" + v;
    assert "search?q=" + (a + x) + "&type=" + t == "search?q=" + a + x + ("&" + "type" + "=") + t;
    ThreeParamRoute("search?q=", ["search"], "q", a, k, v, "type", t);
  }

  /**
   * As written, a query whose trimmed text is `a&k=v` reads back as three
   * entries: `q` holds only `a`, and `k=v` becomes an entry of its own before
   * `type`, so the query text can add or repeat parameters.
   */
  lemma SearchQueryInjects(query: string, a: string, k: string, v: string, types: seq<SearchType>, options: Options)
    requires Trim(query) == a + ("&" + k + "=" + v)
    requires '&' !in a && '=' !in k && '&' !in k && '&' !in v
    ensures ParamsOf(Search(query, types, options).route) == [("q", a), (k, v), ("type", JoinTrimmed(TypeTexts(types)))]
    ensures ParamsOf(Search(query, types, options).route)[0] != ("q", Trim(query))
  {
    TypeListPlain(types);
    JoinTrimmedExcludes(TypeTexts(types), '&');
    InjectedRoute(a, k, v, JoinTrimmed(TypeTexts(types)));
    assert |Trim(query)| > |a|;
  }

  /**
   * Corrected, every query reads back as the one `q` entry, which decodes to
   * the trimmed query, followed by the `type` entry.
   */
  lemma SearchIntendedRoute(query: string, types: seq<SearchType>, options: Options)
    ensures Segments(SearchIntended(query, types, options).route) == ["search"]
    ensures ParamsOf(SearchIntended(query, types, options).route) == [("q", EncodeComponent(Trim(query))), ("type", JoinTrimmed(TypeTexts(types)))]
    ensures DecodeComponent(ParamsOf(SearchIntended(query, types, options).route)[0].1) == Trim(query)
  {
    TypeListPlain(types);
    EncodedIsPlain(Trim(query));
    DecodeEncode(Trim(query));
    JoinTrimmedExcludes(TypeTexts(types), '&');
    QueryTypeRoute(EncodeComponent(Trim(query)), JoinTrimmed(TypeTexts(types)));
  }
}
