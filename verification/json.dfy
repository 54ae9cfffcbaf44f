/**
 * JSON values as the SDK exchanges them: `JSON.stringify` (compact form, no
 * whitespace) and `JSON.parse`, with the round trip between the two proved.
 * Numbers are integers in this model.
 */
module Json {
  import opened Wrappers
  import opened Text

  datatype Json =
    | JNull
    | JBool(b: bool)
    | JNum(n: int)
    | JStr(s: string)
    | JArr(items: seq<Json>)
    | JObj(members: seq<Member>)

  /** One `"key": value` pair of an object, in text order. */
  datatype Member = Member(key: string, value: Json)

  // ---------------------------------------------------------------------------
  // JSON.stringify
  // ---------------------------------------------------------------------------

  function HexDigit(d: nat): char
    requires d < 16
  {
    if d < 10 then ('0' as int + d) as char else ('a' as int + d - 10) as char
  }

  /** How `JSON.stringify` writes one character inside a string literal. */
  function EscapeChar(c: char): string
  {
    if c == '"' then "\\\""
    else if c == '\\' then "\\\\"
    else if c == '\U{0008}' then "\\b"
    else if c == '\t' then "\\t"
    else if c == '\n' then "\\n"
    else if c == '\U{000C}' then "\\f"
    else if c == '\r' then "\\r"
    else if c < ' ' then "\\u00" + [HexDigit(c as int / 16), HexDigit(c as int % 16)]
    else [c]
  }

  function Escape(s: string): string
    decreases |s|
  {
    if s == [] then "" else EscapeChar(s[0]) + Escape(s[1..])
  }

  /** A string literal: the escaped characters between double quotes. */
  function Quote(s: string): string
  {
    "\"" + Escape(s) + "\""
  }

  /** `JSON.stringify(j)`. Every serialised value starts with a non-whitespace character. */
  function Serialize(j: Json): (r: string)
    ensures |r| > 0 && !IsJsonWhitespace(r[0])
    decreases j, 1
  {
    match j
    case JNull => "null"
    case JBool(b) => if b then "true" else "false"
    case JNum(n) => IntToString(n)
    case JStr(s) => Quote(s)
    case JArr(items) => "[" + SerializeItems(items) + "]"
    case JObj(ms) => "{" + SerializeMembers(ms) + "}"
  }

  /** The elements of an array, separated by commas. */
  function SerializeItems(items: seq<Json>): string
    decreases items, 0
  {
    if items == [] then ""
    else Serialize(items[0]) + (if |items| == 1 then "" else "," + SerializeItems(items[1..]))
  }

  /** The members of an object, `"key":value`, separated by commas. */
  function SerializeMembers(ms: seq<Member>): string
    decreases ms, 0
  {
    if ms == [] then ""
    else
      var m := ms[0];
      assert m.value < m;
      Quote(m.key) + ":" + Serialize(m.value) + (if |ms| == 1 then "" else "," + SerializeMembers(ms[1..]))
  }

  // ---------------------------------------------------------------------------
  // JSON.parse
  // ---------------------------------------------------------------------------

  /** The four whitespace characters JSON allows between tokens. */
  predicate IsJsonWhitespace(c: char)
  {
    c == ' ' || c == '\t' || c == '\n' || c == '\r'
  }

  function SkipWhitespace(s: string): (r: string)
    ensures |r| <= |s|
    decreases |s|
  {
    if |s| > 0 && IsJsonWhitespace(s[0]) then SkipWhitespace(s[1..]) else s
  }

  function HexValue(c: char): Option<nat>
  {
    if '0' <= c <= '9' then Some(c as int - '0' as int)
    else if 'a' <= c <= 'f' then Some(c as int - 'a' as int + 10)
    else if 'A' <= c <= 'F' then Some(c as int - 'A' as int + 10)
    else None
  }

  /** The code unit written by the four hex digits of a `\uXXXX` escape. */
  function HexQuad(h: string): Option<nat>
    requires |h| == 4
  {
    match (HexValue(h[0]), HexValue(h[1]), HexValue(h[2]), HexValue(h[3]))
    case (Some(a), Some(b), Some(c), Some(d)) => Some(((a * 16 + b) * 16 + c) * 16 + d)
    case _ => None
  }

  /**
   * One escape sequence, given the text after its backslash: the character it
   * stands for and the text after it.
   */
  function ParseEscape(e: string): (r: Option<(char, string)>)
    ensures r.Some? ==> |r.value.1| < |e|
  {
    if |e| == 0 then None
    else if e[0] == '"' then Some(('"', e[1..]))
    else if e[0] == '\\' then Some(('\\', e[1..]))
    else if e[0] == '/' then Some(('/', e[1..]))
    else if e[0] == 'b' then Some(('\U{0008}', e[1..]))
    else if e[0] == 'f' then Some(('\U{000C}', e[1..]))
    else if e[0] == 'n' then Some(('\n', e[1..]))
    else if e[0] == 'r' then Some(('\r', e[1..]))
    else if e[0] == 't' then Some(('\t', e[1..]))
    else if e[0] == 'u' && |e| >= 5 then
      match HexQuad(e[1..5])
      case Some(v) => if v < 0xD800 || 0xDFFF < v then Some((v as char, e[5..])) else None
      case None => None
    else None
  }

  /** The characters of a string literal up to its closing quote, and the text after that quote. */
  function ParseStringBody(s: string): (r: Option<(string, string)>)
    ensures r.Some? ==> |r.value.1| < |s|
    decreases |s|
  {
    if |s| == 0 then None
    else if s[0] == '"' then Some(("", s[1..]))
    else if s[0] == '\\' then
      match ParseEscape(s[1..])
      case None => None
      case Some((c, after)) =>
        match ParseStringBody(after)
        case None => None
        case Some((str, rest)) => Some(([c] + str, rest))
    else if s[0] < ' ' then None
    else
      match ParseStringBody(s[1..])
      case None => None
      case Some((str, rest)) => Some(([s[0]] + str, rest))
  }

  /** The longest run of decimal digits at the start of `s`. */
  function DigitPrefix(s: string): (r: string)
    ensures |r| <= |s| && r == s[..|r|] && AllDigits(r)
    decreases |s|
  {
    if |s| > 0 && IsDigit(s[0]) then [s[0]] + DigitPrefix(s[1..]) else ""
  }

  /**
   * An integer literal: an optional minus sign and digits without a leading zero.
   * A fraction or an exponent is outside this model and is rejected.
   */
  function ParseNumber(s: string): (r: Option<(Json, string)>)
    ensures r.Some? ==> |r.value.1| < |s|
  {
    var neg := |s| > 0 && s[0] == '-';
    var t := if neg then s[1..] else s;
    var ds := DigitPrefix(t);
    var rest := t[|ds|..];
    if |ds| == 0 || (ds[0] == '0' && |ds| > 1) then None
    else if |rest| > 0 && (rest[0] == '.' || rest[0] == 'e' || rest[0] == 'E') then None
    else
      var v: int := DigitsValue(ds);
      Some((JNum(if neg then -v else v), rest))
  }

  function ParseLiteral(s: string, word: string, j: Json): (r: Option<(Json, string)>)
    requires |word| > 0
    ensures r.Some? ==> |r.value.1| < |s|
  {
    if |s| >= |word| && s[..|word|] == word then Some((j, s[|word|..])) else None
  }

  /** One JSON value at the very start of `s`, and the text after it. */
  function ParseValue(s: string): (r: Option<(Json, string)>)
    ensures r.Some? ==> |r.value.1| < |s|
    decreases |s|, 0
  {
    if |s| == 0 then None
    else if s[0] == 'n' then ParseLiteral(s, "null", JNull)
    else if s[0] == 't' then ParseLiteral(s, "true", JBool(true))
    else if s[0] == 'f' then ParseLiteral(s, "false", JBool(false))
    else if s[0] == '"' then
      match ParseStringBody(s[1..])
      case None => None
      case Some((str, rest)) => Some((JStr(str), rest))
    else if s[0] == '-' || IsDigit(s[0]) then ParseNumber(s)
    else if s[0] == '[' then ParseArray(SkipWhitespace(s[1..]))
    else if s[0] == '{' then ParseObject(SkipWhitespace(s[1..]))
    else None
  }

  /** The rest of an array after `[` and whitespace. */
  function ParseArray(t: string): (r: Option<(Json, string)>)
    ensures r.Some? ==> |r.value.1| < |t|
    decreases |t|, 2
  {
    if |t| > 0 && t[0] == ']' then Some((JArr([]), t[1..]))
    else
      match ParseElements(t)
      case None => None
      case Some((items, rest)) => Some((JArr(items), rest))
  }

  /** `value (, value)* ]`, with whitespace around every token. */
  function ParseElements(t: string): (r: Option<(seq<Json>, string)>)
    ensures r.Some? ==> |r.value.1| < |t|
    decreases |t|, 1
  {
    match ParseValue(t)
    case None => None
    case Some((v, after)) =>
      var u := SkipWhitespace(after);
      if |u| > 0 && u[0] == ']' then Some(([v], u[1..]))
      else if |u| > 0 && u[0] == ',' then
        match ParseElements(SkipWhitespace(u[1..]))
        case None => None
        case Some((vs, rest)) => Some(([v] + vs, rest))
      else None
  }

  /** The rest of an object after `{` and whitespace. */
  function ParseObject(t: string): (r: Option<(Json, string)>)
    ensures r.Some? ==> |r.value.1| < |t|
    decreases |t|, 2
  {
    if |t| > 0 && t[0] == '}' then Some((JObj([]), t[1..]))
    else
      match ParseMembers(t)
      case None => None
      case Some((ms, rest)) => Some((JObj(ms), rest))
  }

  /** `"key" : value (, "key" : value)* }`, with whitespace around every token. */
  function ParseMembers(t: string): (r: Option<(seq<Member>, string)>)
    ensures r.Some? ==> |r.value.1| < |t|
    decreases |t|, 1
  {
    if |t| == 0 || t[0] != '"' then None
    else
      match ParseStringBody(t[1..])
      case None => None
      case Some((key, afterKey)) =>
        var colon := SkipWhitespace(afterKey);
        if |colon| == 0 || colon[0] != ':' then None
        else
          match ParseValue(SkipWhitespace(colon[1..]))
          case None => None
          case Some((v, after)) =>
            var u := SkipWhitespace(after);
            if |u| > 0 && u[0] == '}' then Some(([Member(key, v)], u[1..]))
            else if |u| > 0 && u[0] == ',' then
              match ParseMembers(SkipWhitespace(u[1..]))
              case None => None
              case Some((ms, rest)) => Some(([Member(key, v)] + ms, rest))
            else None
  }

  /** `JSON.parse(s)`: a whole text holding exactly one value, or `None` where it throws. */
  function Parse(s: string): Option<Json>
  {
    match ParseValue(SkipWhitespace(s))
    case None => None
    case Some((j, rest)) => if SkipWhitespace(rest) == "" then Some(j) else None
  }


  // ---------------------------------------------------------------------------
  // Objects
  // ---------------------------------------------------------------------------

  /** The value `JSON.parse` keeps for `key`: the last member with that key. */
  function Get(ms: seq<Member>, key: string): (r: Option<Json>)
    ensures r.Some? <==> exists k :: 0 <= k < |ms| && ms[k].key == key
    ensures r.Some? ==>
      exists k :: (0 <= k < |ms| && ms[k].key == key && ms[k].value == r.value &&
                   forall m :: k < m < |ms| ==> ms[m].key != key)
    decreases |ms|
  {
    if ms == [] then None
    else if ms[|ms| - 1].key == key then Some(ms[|ms| - 1].value)
    else Get(ms[..|ms| - 1], key)
  }

  /** The fields of an object literal: a name and a value that may be `undefined`. */
  type Fields = seq<(string, Option<Json>)>

  /** An object literal never names the same field twice. */
  predicate DistinctNames(fields: Fields)
  {
    forall i, j :: 0 <= i < j < |fields| ==> fields[i].0 != fields[j].0
  }

  /** The value an object literal gives `key`, or `None` when it is `undefined` or not named. */
  function Field(fields: Fields, key: string): Option<Json>
    decreases |fields|
  {
    if fields == [] then None
    else if fields[|fields| - 1].0 == key then fields[|fields| - 1].1
    else Field(fields[..|fields| - 1], key)
  }

  /** The members `JSON.stringify` writes for an object literal: fields whose value is `undefined` are left out. */
  function ObjectOf(fields: Fields): (r: seq<Member>)
    ensures |r| <= |fields|
    decreases |fields|
  {
    if fields == [] then []
    else
      var init := ObjectOf(fields[..|fields| - 1]);
      var last := fields[|fields| - 1];
      match last.1
      case Some(v) => init + [Member(last.0, v)]
      case None => init
  }

  lemma {:induction false} FieldAbsent(fields: Fields, key: string)
    requires forall i :: 0 <= i < |fields| ==> fields[i].0 != key
    ensures Field(fields, key) == None
    ensures Get(ObjectOf(fields), key) == None
    decreases |fields|
  {
    if fields != [] {
      var init := fields[..|fields| - 1];
      FieldAbsent(init, key);
      var last := fields[|fields| - 1];
      if last.1.Some? {
        var r := ObjectOf(fields);
        assert r[..|r| - 1] == ObjectOf(init);
      }
    }
  }

  /** In a literal with distinct names, the field at position `i` is the one its name reads. */
  lemma {:induction false} FieldAt(fields: Fields, i: nat)
    requires DistinctNames(fields) && i < |fields|
    ensures Field(fields, fields[i].0) == fields[i].1
    decreases |fields|
  {
    if i < |fields| - 1 {
      var init := fields[..|fields| - 1];
      assert init[i] == fields[i];
      FieldAt(init, i);
    }
  }

  /**
   * Reading a key back from the object written for a literal with distinct
   * names gives the literal's value for it, and nothing for an `undefined` field.
   */
  lemma {:induction false} GetObjectOf(fields: Fields, key: string)
    requires DistinctNames(fields)
    ensures Get(ObjectOf(fields), key) == Field(fields, key)
    decreases |fields|
  {
    if fields != [] {
      var init := fields[..|fields| - 1];
      var last := fields[|fields| - 1];
      var r := ObjectOf(fields);
      if last.0 == key {
        FieldAbsent(init, key);
        if last.1.Some? {
          assert r[|r| - 1] == Member(key, last.1.value);
        }
      } else {
        GetObjectOf(init, key);
        if last.1.Some? {
          assert r[..|r| - 1] == ObjectOf(init);
        }
      }
    }
  }

  // ---------------------------------------------------------------------------
  // Round trip: JSON.parse(JSON.stringify(j)) == j
  // ---------------------------------------------------------------------------

  /** What may follow a value in serialised text: nothing, or a comma or closing bracket. */
  predicate Follows(rest: string)
  {
    rest == [] || rest[0] == ',' || rest[0] == ']' || rest[0] == '}'
  }

  lemma SkipNothing(s: string)
    requires s == [] || !IsJsonWhitespace(s[0])
    ensures SkipWhitespace(s) == s
  {
  }

  lemma HexRoundTrip(d: nat)
    requires d < 16
    ensures HexValue(HexDigit(d)) == Some(d)
  {
  }

  /** One escaped character is read back as that character, and reading goes on after it. */
  lemma EscapeCharRoundTrip(c: char, t: string)
    requires ParseStringBody(t).Some?
    ensures ParseStringBody(EscapeChar(c) + t) ==
      Some(([c] + ParseStringBody(t).value.0, ParseStringBody(t).value.1))
  {
    if IsNamedEscape(c) {
      NamedEscapeRoundTrip(c, t);
    } else if c < ' ' {
      UnicodeEscapeRoundTrip(c, t);
    } else {
      var s := EscapeChar(c) + t;
      assert EscapeChar(c) == [c];
      assert s[1..] == t;
    }
  }

  /** The characters `JSON.stringify` writes as a backslash and one letter. */
  predicate IsNamedEscape(c: char)
  {
    c == '"' || c == '\\' || c == '\U{0008}' || c == '\t' || c == '\n' || c == '\U{000C}' || c == '\r'
  }

  lemma NamedEscapeRoundTrip(c: char, t: string)
    requires IsNamedEscape(c) && ParseStringBody(t).Some?
    ensures ParseStringBody(EscapeChar(c) + t) ==
      Some(([c] + ParseStringBody(t).value.0, ParseStringBody(t).value.1))
  {
    var x := EscapeChar(c)[1];
    assert EscapeChar(c) == ['\\', x];
    assert ParseEscape([x] + t) == Some((c, t)) by {
      assert ([x] + t)[1..] == t;
    }
    TwoCharEscape(c, x, t);
  }

  /** A backslash and an escape that stands for `c` and ends where `t` begins. */
  lemma EscapeThen(c: char, x: string, t: string)
    requires ParseStringBody(t).Some? && ParseEscape(x + t) == Some((c, t))
    ensures ParseStringBody(['\\'] + x + t) ==
      Some(([c] + ParseStringBody(t).value.0, ParseStringBody(t).value.1))
  {
    var s := ['\\'] + x + t;
    assert s[1..] == x + t;
  }

  lemma TwoCharEscape(c: char, x: char, t: string)
    requires ParseStringBody(t).Some? && ParseEscape([x] + t) == Some((c, t))
    ensures ParseStringBody(['\\', x] + t) ==
      Some(([c] + ParseStringBody(t).value.0, ParseStringBody(t).value.1))
  {
    assert ['\\', x] + t == ['\\'] + [x] + t;
    EscapeThen(c, [x], t);
  }

  /** Two hex digits after "00" read back as the code unit below 256 they write. */
  lemma HexPairQuad(k: nat)
    requires k < 256
    ensures HexQuad(['0', '0', HexDigit(k / 16), HexDigit(k % 16)]) == Some(k)
  {
    HexRoundTrip(k / 16);
    HexRoundTrip(k % 16);
  }

  lemma UnicodeEscapeTail(c: char, t: string)
    requires c < ' '
    ensures ParseEscape(['u', '0', '0', HexDigit(c as int / 16), HexDigit(c as int % 16)] + t) == Some((c, t))
  {
    var k := c as int;
    var x := ['u', '0', '0', HexDigit(k / 16), HexDigit(k % 16)] + t;
    HexPairQuad(k);
    assert x[1..5] == ['0', '0', HexDigit(k / 16), HexDigit(k % 16)];
    assert x[5..] == t;
  }

  lemma UnicodeEscapeRoundTrip(c: char, t: string)
    requires !IsNamedEscape(c) && c < ' ' && ParseStringBody(t).Some?
    ensures ParseStringBody(EscapeChar(c) + t) ==
      Some(([c] + ParseStringBody(t).value.0, ParseStringBody(t).value.1))
  {
    var x := ['u', '0', '0', HexDigit(c as int / 16), HexDigit(c as int % 16)];
    assert EscapeChar(c) == ['\\'] + x;
    UnicodeEscapeTail(c, t);
    EscapeThen(c, x, t);
  }

  lemma {:induction false} StringRoundTrip(s: string, rest: string)
    ensures ParseStringBody(Escape(s) + "\"" + rest) == Some((s, rest))
    decreases |s|
  {
    if s == [] {
      assert Escape(s) + "\"" + rest == "\"" + rest;
    } else {
      var t := Escape(s[1..]) + "\"" + rest;
      StringRoundTrip(s[1..], rest);
      assert Escape(s) + "\"" + rest == EscapeChar(s[0]) + t;
      EscapeCharRoundTrip(s[0], t);
      assert [s[0]] + s[1..] == s;
    }
  }

  lemma {:induction false} DigitPrefixOf(ds: string, rest: string)
    requires AllDigits(ds)
    requires rest == [] || !IsDigit(rest[0])
    ensures DigitPrefix(ds + rest) == ds
    decreases |ds|
  {
    if ds == [] {
      assert ds + rest == rest;
    } else {
      assert (ds + rest)[1..] == ds[1..] + rest;
      DigitPrefixOf(ds[1..], rest);
      assert [ds[0]] + ds[1..] == ds;
    }
  }

  lemma NumberRoundTrip(n: int, rest: string)
    requires Follows(rest)
    ensures ParseNumber(IntToString(n) + rest) == Some((JNum(n), rest))
  {
    if n < 0 {
      var ds := NatToString(-n);
      DigitsRoundTrip(-n, rest);
      assert IntToString(n) + rest == "-" + (ds + rest);
      SignedDigits(ds, rest);
    } else {
      var ds := NatToString(n);
      DigitsRoundTrip(n, rest);
      assert IntToString(n) == ds;
      UnsignedDigits(ds, rest);
    }
  }

  /** A digit run without a leading zero, before text that cannot continue a number, reads as its value. */
  lemma UnsignedDigits(ds: string, rest: string)
    requires |ds| > 0 && AllDigits(ds) && (ds[0] == '0' ==> |ds| == 1) && Follows(rest)
    requires DigitPrefix(ds + rest) == ds && (ds + rest)[|ds|..] == rest && (ds + rest)[0] != '-'
    ensures ParseNumber(ds + rest) == Some((JNum(DigitsValue(ds)), rest))
  {
  }

  /** The same run after a minus sign reads as the negated value. */
  lemma SignedDigits(ds: string, rest: string)
    requires |ds| > 0 && AllDigits(ds) && (ds[0] == '0' ==> |ds| == 1) && Follows(rest)
    requires DigitPrefix(ds + rest) == ds && (ds + rest)[|ds|..] == rest
    ensures ParseNumber("-" + (ds + rest)) == Some((JNum(-(DigitsValue(ds) as int)), rest))
  {
    var s := "-" + (ds + rest);
    assert s[1..] == ds + rest;
  }

  /** The digits of a number, before text that cannot continue a number, read back as the number and that text. */
  lemma DigitsRoundTrip(m: nat, rest: string)
    requires Follows(rest)
    ensures var ds := NatToString(m);
      DigitPrefix(ds + rest) == ds && (ds + rest)[|ds|..] == rest && DigitsValue(ds) == m &&
      (ds + rest)[0] != '-'
  {
    var ds := NatToString(m);
    DigitsValueOfNatToString(m);
    DigitPrefixOf(ds, rest);
    assert IsDigit((ds + rest)[0]);
  }

  /** Which reader a value's first character selects. */
  lemma ValueAt(s: string)
    requires |s| > 0
    ensures s[0] == '[' ==> ParseValue(s) == ParseArray(SkipWhitespace(s[1..]))
    ensures s[0] == '{' ==> ParseValue(s) == ParseObject(SkipWhitespace(s[1..]))
    ensures s[0] == '"' && ParseStringBody(s[1..]).Some? ==>
      ParseValue(s) == Some((JStr(ParseStringBody(s[1..]).value.0), ParseStringBody(s[1..]).value.1))
  {
  }

  lemma LiteralRoundTrip(word: string, j: Json, rest: string)
    requires word == "null" || word == "true" || word == "false"
    requires j == (if word == "null" then JNull else JBool(word == "true"))
    ensures ParseValue(word + rest) == Some((j, rest))
  {
    var s := word + rest;
    assert s[..|word|] == word && s[|word|..] == rest;
  }

  lemma NumValueRoundTrip(n: int, rest: string)
    requires Follows(rest)
    ensures ParseValue(IntToString(n) + rest) == Some((JNum(n), rest))
  {
    NumberRoundTrip(n, rest);
    var t := IntToString(n);
    assert t[0] == '-' || IsDigit(t[0]) by {
      if n >= 0 {
        assert t == NatToString(n);
        assert IsDigit(t[0]);
      }
    }
    assert (t + rest)[0] == t[0];
  }

  lemma StrValueRoundTrip(str: string, rest: string)
    ensures ParseValue(Quote(str) + rest) == Some((JStr(str), rest))
  {
    var s := Quote(str) + rest;
    assert s == "\"" + (Escape(str) + "\"" + rest);
    assert s[1..] == Escape(str) + "\"" + rest;
    StringRoundTrip(str, rest);
    ValueAt(s);
  }

  /** A literal, number or string followed by `rest` is read back, leaving `rest`. */
  lemma LeafRoundTrip(j: Json, rest: string)
    requires !j.JArr? && !j.JObj?
    requires Follows(rest)
    ensures ParseValue(Serialize(j) + rest) == Some((j, rest))
  {
    match j
    case JNull => LiteralRoundTrip("null", j, rest);
    case JBool(b) => LiteralRoundTrip(if b then "true" else "false", j, rest);
    case JNum(n) => NumValueRoundTrip(n, rest);
    case JStr(str) => StrValueRoundTrip(str, rest);
  }

  /** The last element of an array: a value directly followed by `]`. */
  lemma ElementsLast(t: string, v: Json, after: string)
    requires ParseValue(t) == Some((v, after))
    requires |after| > 0 && after[0] == ']'
    ensures ParseElements(t) == Some(([v], after[1..]))
  {
    SkipNothing(after);
  }

  /** An element followed by `,` and the remaining elements. */
  lemma ElementsMore(t: string, v: Json, after: string, vs: seq<Json>, rest: string)
    requires ParseValue(t) == Some((v, after))
    requires |after| > 0 && after[0] == ','
    requires after[1..] == [] || !IsJsonWhitespace(after[1])
    requires ParseElements(after[1..]) == Some((vs, rest))
    ensures ParseElements(t) == Some(([v] + vs, rest))
  {
    SkipNothing(after);
    SkipNothing(after[1..]);
  }

  /** The last member of an object: `"key":value` directly followed by `}`. */
  lemma MembersLast(t: string, key: string, afterKey: string, v: Json, after: string)
    requires |t| > 0 && t[0] == '"' && ParseStringBody(t[1..]) == Some((key, afterKey))
    requires |afterKey| > 1 && afterKey[0] == ':' && !IsJsonWhitespace(afterKey[1])
    requires ParseValue(afterKey[1..]) == Some((v, after))
    requires |after| > 0 && after[0] == '}'
    ensures ParseMembers(t) == Some(([Member(key, v)], after[1..]))
  {
    SkipNothing(afterKey);
    SkipNothing(afterKey[1..]);
    SkipNothing(after);
  }

  /** A member followed by `,` and the remaining members. */
  lemma MembersMore(t: string, key: string, afterKey: string, v: Json, after: string, ms: seq<Member>, rest: string)
    requires |t| > 0 && t[0] == '"' && ParseStringBody(t[1..]) == Some((key, afterKey))
    requires |afterKey| > 1 && afterKey[0] == ':' && !IsJsonWhitespace(afterKey[1])
    requires ParseValue(afterKey[1..]) == Some((v, after))
    requires |after| > 1 && after[0] == ',' && !IsJsonWhitespace(after[1])
    requires ParseMembers(after[1..]) == Some((ms, rest))
    ensures ParseMembers(t) == Some(([Member(key, v)] + ms, rest))
  {
    SkipNothing(afterKey);
    SkipNothing(afterKey[1..]);
    SkipNothing(after);
    SkipNothing(after[1..]);
  }

  lemma {:induction false} ValueRoundTrip(j: Json, rest: string)
    requires Follows(rest)
    ensures ParseValue(Serialize(j) + rest) == Some((j, rest))
    decreases j, 2
  {
    match j
    case JArr(items) => ArrayRoundTrip(items, rest);
    case JObj(ms) => ObjectRoundTrip(ms, rest);
    case _ => LeafRoundTrip(j, rest);
  }

  lemma {:induction false} ArrayRoundTrip(items: seq<Json>, rest: string)
    requires Follows(rest)
    ensures ParseValue(Serialize(JArr(items)) + rest) == Some((JArr(items), rest))
    decreases items, 2
  {
    var body := SerializeItems(items) + "]" + rest;
    assert Serialize(JArr(items)) + rest == "[" + body;
    if items == [] {
      assert body == "]" + rest;
      SkipNothing(body);
    } else {
      ArrayBodyRoundTrip(items, rest);
    }
    ArrayAt(body);
  }

  /** A '[' selects the array reader for the text after it. */
  lemma ArrayAt(body: string)
    ensures ParseValue("[" + body) == ParseArray(SkipWhitespace(body))
  {
    var s := "[" + body;
    assert s[1..] == body;
    ValueAt(s);
  }

  /** The text after the '[' of a non-empty array: its elements and the closing bracket. */
  lemma {:induction false} ArrayBodyRoundTrip(items: seq<Json>, rest: string)
    requires items != [] && Follows(rest)
    ensures ParseArray(SkipWhitespace(SerializeItems(items) + "]" + rest)) == Some((JArr(items), rest))
    decreases items, 1
  {
    var body := SerializeItems(items) + "]" + rest;
    assert body[0] == Serialize(items[0])[0];
    SkipNothing(body);
    ItemsRoundTrip(items, rest);
  }

  lemma {:induction false} ItemsRoundTrip(items: seq<Json>, rest: string)
    requires items != []
    requires Follows(rest)
    ensures ParseElements(SerializeItems(items) + "]" + rest) == Some((items, rest))
    decreases items, 0
  {
    if |items| == 1 {
      ValueRoundTrip(items[0], "]" + rest);
      LastItemRoundTrip(items, rest);
    } else {
      var tail := SerializeItems(items[1..]) + "]" + rest;
      ValueRoundTrip(items[0], "," + tail);
      ItemsRoundTrip(items[1..], rest);
      NextItemRoundTrip(items, rest);
    }
  }

  /** The last element, followed by the closing bracket. */
  lemma {:induction false} LastItemRoundTrip(items: seq<Json>, rest: string)
    requires |items| == 1
    requires ParseValue(Serialize(items[0]) + ("]" + rest)) == Some((items[0], "]" + rest))
    ensures ParseElements(SerializeItems(items) + "]" + rest) == Some((items, rest))
  {
    var head := Serialize(items[0]);
    var after := "]" + rest;
    assert SerializeItems(items) + "]" + rest == head + after;
    ElementsLast(head + after, items[0], after);
    assert after[1..] == rest;
    assert [items[0]] == items;
  }

  /** An element, a comma, and the remaining elements that already parse back. */
  lemma {:induction false} NextItemRoundTrip(items: seq<Json>, rest: string)
    requires |items| > 1
    requires var tail := SerializeItems(items[1..]) + "]" + rest;
      ParseValue(Serialize(items[0]) + ("," + tail)) == Some((items[0], "," + tail))
    requires ParseElements(SerializeItems(items[1..]) + "]" + rest) == Some((items[1..], rest))
    ensures ParseElements(SerializeItems(items) + "]" + rest) == Some((items, rest))
  {
    var head := Serialize(items[0]);
    var tail := SerializeItems(items[1..]) + "]" + rest;
    var after := "," + tail;
    assert SerializeItems(items) + "]" + rest == head + after;
    assert after[1..] == tail;
    assert tail[0] == Serialize(items[1])[0];
    ElementsMore(head + after, items[0], after, items[1..], rest);
    assert [items[0]] + items[1..] == items;
  }

  lemma {:induction false} ObjectRoundTrip(ms: seq<Member>, rest: string)
    requires Follows(rest)
    ensures ParseValue(Serialize(JObj(ms)) + rest) == Some((JObj(ms), rest))
    decreases ms, 2
  {
    var body := SerializeMembers(ms) + "}" + rest;
    assert Serialize(JObj(ms)) + rest == "{" + body;
    if ms == [] {
      assert body == "}" + rest;
      SkipNothing(body);
    } else {
      assert body[0] == '"';
      SkipNothing(body);
      MembersRoundTrip(ms, rest);
    }
    ObjectAt(body);
  }

  /** A '{' selects the object reader for the text after it. */
  lemma ObjectAt(body: string)
    ensures ParseValue("{" + body) == ParseObject(SkipWhitespace(body))
  {
    var s := "{" + body;
    assert s[1..] == body;
    ValueAt(s);
  }

  /** The key of a member is read back, leaving the colon and the value's text. */
  lemma KeyRoundTrip(key: string, afterKey: string)
    ensures var s := Quote(key) + afterKey;
      |s| > 0 && s[0] == '"' && ParseStringBody(s[1..]) == Some((key, afterKey))
  {
    var s := Quote(key) + afterKey;
    assert s == "\"" + (Escape(key) + "\"" + afterKey);
    assert s[1..] == Escape(key) + "\"" + afterKey;
    StringRoundTrip(key, afterKey);
  }

  /** The text after a key: a colon directly followed by the value's text. */
  lemma ColonText(v: string, after: string)
    requires |v| > 0
    ensures var afterKey := ":" + (v + after);
      |afterKey| > 1 && afterKey[0] == ':' && afterKey[1] == v[0] && afterKey[1..] == v + after
  {
  }

  /** A member whose value text `v` reads back as `j`, followed by `}`. */
  lemma MemberThenClose(key: string, v: string, j: Json, after: string)
    requires |v| > 0 && !IsJsonWhitespace(v[0])
    requires ParseValue(v + after) == Some((j, after))
    requires |after| > 0 && after[0] == '}'
    ensures ParseMembers(Quote(key) + (":" + (v + after))) == Some(([Member(key, j)], after[1..]))
  {
    var afterKey := ":" + (v + after);
    ColonText(v, after);
    KeyRoundTrip(key, afterKey);
    MembersLast(Quote(key) + afterKey, key, afterKey, j, after);
  }

  /** A member whose value text `v` reads back as `j`, followed by `,` and members that read back. */
  lemma MemberThenMore(key: string, v: string, j: Json, after: string, ms: seq<Member>, rest: string)
    requires |v| > 0 && !IsJsonWhitespace(v[0])
    requires ParseValue(v + after) == Some((j, after))
    requires |after| > 1 && after[0] == ',' && after[1] == '"'
    requires ParseMembers(after[1..]) == Some((ms, rest))
    ensures ParseMembers(Quote(key) + (":" + (v + after))) == Some(([Member(key, j)] + ms, rest))
  {
    var afterKey := ":" + (v + after);
    ColonText(v, after);
    KeyRoundTrip(key, afterKey);
    MembersMore(Quote(key) + afterKey, key, afterKey, j, after, ms, rest);
  }

  lemma Regroup5(a: string, b: string, c: string, d: string, e: string)
    ensures a + b + c + d + e == a + (b + (c + (d + e)))
  {
  }

  lemma Regroup7(a: string, b: string, c: string, d: string, e: string, f: string, g: string)
    ensures a + b + c + (d + e) + f + g == a + (b + (c + (d + (e + f + g))))
  {
  }

  /** How the text of two or more members and what follows them splits up. */
  lemma MembersText(ms: seq<Member>, rest: string)
    requires |ms| > 1
    ensures SerializeMembers(ms) + "}" + rest ==
      Quote(ms[0].key) + (":" + (Serialize(ms[0].value) + ("," + (SerializeMembers(ms[1..]) + "}" + rest))))
  {
    var q, v, t := Quote(ms[0].key), Serialize(ms[0].value), SerializeMembers(ms[1..]);
    assert SerializeMembers(ms) == q + ":" + v + ("," + t);
    Regroup7(q, ":", v, ",", t, "}", rest);
  }

  /** How the text of one member and what follows it splits up. */
  lemma MemberText(ms: seq<Member>, rest: string)
    requires |ms| == 1
    ensures SerializeMembers(ms) + "}" + rest == Quote(ms[0].key) + (":" + (Serialize(ms[0].value) + ("}" + rest)))
  {
    var q, v := Quote(ms[0].key), Serialize(ms[0].value);
    assert SerializeMembers(ms) == q + ":" + v;
    Regroup5(q, ":", v, "}", rest);
  }

  lemma {:induction false} MembersRoundTrip(ms: seq<Member>, rest: string)
    requires ms != []
    requires Follows(rest)
    ensures ParseMembers(SerializeMembers(ms) + "}" + rest) == Some((ms, rest))
    decreases ms, 1
  {
    if |ms| == 1 {
      LastMemberRoundTrip(ms, rest);
    } else {
      MembersRoundTrip(ms[1..], rest);
      NextMemberRoundTrip(ms, rest);
    }
  }

  lemma {:induction false} LastMemberRoundTrip(ms: seq<Member>, rest: string)
    requires |ms| == 1
    requires Follows(rest)
    ensures ParseMembers(SerializeMembers(ms) + "}" + rest) == Some((ms, rest))
    decreases ms, 0
  {
    var m := ms[0];
    assert m.value < m;
    var after := "}" + rest;
    MemberText(ms, rest);
    ValueRoundTrip(m.value, after);
    MemberThenClose(m.key, Serialize(m.value), m.value, after);
    assert after[1..] == rest;
    assert [Member(m.key, m.value)] == ms;
  }

  lemma {:induction false} NextMemberRoundTrip(ms: seq<Member>, rest: string)
    requires |ms| > 1
    requires Follows(rest)
    requires ParseMembers(SerializeMembers(ms[1..]) + "}" + rest) == Some((ms[1..], rest))
    ensures ParseMembers(SerializeMembers(ms) + "}" + rest) == Some((ms, rest))
    decreases ms, 0
  {
    var m := ms[0];
    assert m.value < m;
    var tail := SerializeMembers(ms[1..]) + "}" + rest;
    var after := "," + tail;
    MembersText(ms, rest);
    ValueRoundTrip(m.value, after);
    assert after[1..] == tail;
    assert tail[0] == '"';
    MemberThenMore(m.key, Serialize(m.value), m.value, after, ms[1..], rest);
    assert [Member(m.key, m.value)] + ms[1..] == ms;
  }

  /** `JSON.parse(JSON.stringify(j))` gives back `j`. */
  lemma ParseSerialize(j: Json)
    ensures Parse(Serialize(j)) == Some(j)
  {
    SkipNothing(Serialize(j));
    ValueRoundTrip(j, "");
    assert Serialize(j) + "" == Serialize(j);
  }
}
