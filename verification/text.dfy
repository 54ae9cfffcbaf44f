/**
 * String helpers that the SDK takes from JavaScript: `String.prototype.trim`,
 * `Array.prototype.join`, the `encodeURIComponent(",")` separator and decimal
 * number formatting (`String(n)`) with its inverse.
 */
module Text {
  import opened Wrappers

  /** `encodeURIComponent(",")`: the separator every ID list is joined with. */
  const EncodedComma: string := "%2C"

  /**
   * The characters JavaScript's `trim` removes: the WhiteSpace set (tab, vertical
   * tab, form feed, no-break space, byte-order mark and every space separator)
   * and the LineTerminator set (LF, CR, line and paragraph separators).
   */
  predicate IsWhitespace(c: char)
  {
    var k := c as int;
    k == 0x09 || k == 0x0A || k == 0x0B || k == 0x0C || k == 0x0D || k == 0x20 ||
    k == 0xA0 || k == 0x1680 || (0x2000 <= k <= 0x200A) || k == 0x2028 || k == 0x2029 ||
    k == 0x202F || k == 0x205F || k == 0x3000 || k == 0xFEFF
  }

  predicate AllWhitespace(s: string)
  {
    forall k :: 0 <= k < |s| ==> IsWhitespace(s[k])
  }

  lemma AllWhitespaceConcat(a: string, b: string)
    requires AllWhitespace(a) && AllWhitespace(b)
    ensures AllWhitespace(a + b)
  {
    forall k | 0 <= k < |a + b|
      ensures IsWhitespace((a + b)[k])
    {
      if k < |a| {
        assert (a + b)[k] == a[k];
      } else {
        assert (a + b)[k] == b[k - |a|];
      }
    }
  }

  /** Drops leading whitespace: the result is the suffix of `s` that starts at its first non-whitespace character. */
  function TrimStart(s: string): (r: string)
    ensures |r| <= |s| && r == s[|s| - |r|..]
    ensures AllWhitespace(s[..|s| - |r|])
    ensures r == [] || !IsWhitespace(r[0])
    decreases |s|
  {
    if |s| > 0 && IsWhitespace(s[0]) then
      var r := TrimStart(s[1..]);
      assert s[..|s| - |r|] == [s[0]] + s[1..][..|s| - 1 - |r|];
      AllWhitespaceConcat([s[0]], s[1..][..|s| - 1 - |r|]);
      r
    else s
  }

  /** Drops trailing whitespace: the result is the prefix of `s` that ends at its last non-whitespace character. */
  function TrimEnd(s: string): (r: string)
    ensures |r| <= |s| && r == s[..|r|]
    ensures AllWhitespace(s[|r|..])
    ensures r == [] || !IsWhitespace(r[|r| - 1])
    decreases |s|
  {
    if |s| > 0 && IsWhitespace(s[|s| - 1]) then
      var r := TrimEnd(s[..|s| - 1]);
      assert s[|r|..] == s[..|s| - 1][|r|..] + [s[|s| - 1]];
      AllWhitespaceConcat(s[..|s| - 1][|r|..], [s[|s| - 1]]);
      r
    else s
  }

  /** `s.trim()`. */
  function Trim(s: string): string
  {
    TrimEnd(TrimStart(s))
  }

  /**
   * `trim` removes only surrounding whitespace: the input is whitespace, then the
   * result, then whitespace, and the result neither starts nor ends with whitespace.
   */
  lemma {:induction false} TrimSplitsInput(s: string)
    ensures exists i, j :: SurroundedBy(s, Trim(s), i, j)
    ensures Trim(s) == [] || (!IsWhitespace(Trim(s)[0]) && !IsWhitespace(Trim(s)[|Trim(s)| - 1]))
  {
    var t := TrimStart(s);
    var r := TrimEnd(t);
    assert Trim(s) == r;
    TrimEndWithin(s, t, r);
    assert SurroundedBy(s, r, |s| - |t|, |s| - |t| + |r|);
  }

  /** `s` is whitespace, then `r` from position `i` to position `j`, then whitespace. */
  predicate SurroundedBy(s: string, r: string, i: nat, j: nat)
  {
    i <= j <= |s| && r == s[i..j] && AllWhitespace(s[..i]) && AllWhitespace(s[j..])
  }

  /** The trailing trim of a suffix `t` of `s`, seen as a slice of `s`. */
  lemma {:induction false} TrimEndWithin(s: string, t: string, r: string)
    requires |t| <= |s| && t == s[|s| - |t|..] && AllWhitespace(s[..|s| - |t|])
    requires t == [] || !IsWhitespace(t[0])
    requires |r| <= |t| && r == t[..|r|] && AllWhitespace(t[|r|..])
    requires r == [] || !IsWhitespace(r[|r| - 1])
    ensures var i := |s| - |t|; var j := i + |r|;
      r == s[i..j] && AllWhitespace(s[..i]) && AllWhitespace(s[j..])
    ensures r == [] || !IsWhitespace(r[0])
  {
    var i := |s| - |t|;
    var j := i + |r|;
    assert s[j..] == t[|r|..];
    if r != [] {
      assert r[0] == t[0];
    }
  }

  /** Trimming twice is trimming once. */
  lemma {:induction false} TrimIdempotent(s: string)
    ensures Trim(Trim(s)) == Trim(s)
  {
    var r := Trim(s);
    TrimSplitsInput(s);
    assert TrimStart(r) == r;
    assert TrimEnd(r) == r;
  }

  /** `xs.map((x) => x.trim())`. */
  function TrimAll(xs: seq<string>): (r: seq<string>)
    ensures |r| == |xs|
    ensures forall k :: 0 <= k < |xs| ==> r[k] == Trim(xs[k])
  {
    seq(|xs|, k requires 0 <= k < |xs| => Trim(xs[k]))
  }

  /** `parts.join(sep)`: the parts in order with `sep` between neighbours. */
  function Join(parts: seq<string>, sep: string): string
    decreases |parts|
  {
    if |parts| == 0 then ""
    else if |parts| == 1 then parts[0]
    else parts[0] + sep + Join(parts[1..], sep)
  }

  /** `xs.map((x) => x.trim()).join(encodeURIComponent(","))`: the form every ID list takes in a route. */
  function JoinTrimmed(xs: seq<string>): string
  {
    Join(TrimAll(xs), EncodedComma)
  }

  /** `sep` occurs in `s` at position `j`. */
  predicate OccursAt(s: string, sep: string, j: nat)
  {
    j + |sep| <= |s| && s[j..j + |sep|] == sep
  }

  /** Index of the first occurrence of `sep` in `s`, or `|s|` when there is none. */
  function IndexOf(s: string, sep: string): (i: nat)
    requires |sep| > 0
    ensures i <= |s|
    ensures i < |s| ==> OccursAt(s, sep, i)
    ensures forall j :: 0 <= j < i ==> !OccursAt(s, sep, j)
    decreases |s|
  {
    if |s| < |sep| then |s|
    else if s[..|sep|] == sep then 0
    else
      var k := IndexOf(s[1..], sep);
      assert forall j: nat :: 1 <= j <= |s| ==> (OccursAt(s, sep, j) <==> OccursAt(s[1..], sep, j - 1)) by {
        forall j: nat | 1 <= j <= |s| {
          OccursAtTail(s, sep, j);
        }
      }
      1 + k
  }

  /** An occurrence at `j > 0` is an occurrence at `j - 1` once the first character is dropped. */
  lemma OccursAtTail(s: string, sep: string, j: nat)
    requires 1 <= j <= |s|
    ensures OccursAt(s, sep, j) <==> OccursAt(s[1..], sep, j - 1)
  {
    if j + |sep| <= |s| {
      var a, b := s[j..j + |sep|], s[1..][j - 1..j - 1 + |sep|];
      assert |a| == |b|;
      assert forall m :: 0 <= m < |a| ==> a[m] == s[j + m] == b[m];
      assert a == b;
    }
  }

  /** Cuts `s` at every occurrence of `sep`, left to right (the inverse of `Join`). */
  function Split(s: string, sep: string): (r: seq<string>)
    requires |sep| > 0
    ensures |r| > 0
    decreases |s|
  {
    var i := IndexOf(s, sep);
    if i == |s| then [s] else [s[..i]] + Split(s[i + |sep|..], sep)
  }

  /** No part contains the first character of the separator. */
  predicate FreeOf(parts: seq<string>, c: char)
  {
    forall k, m :: 0 <= k < |parts| && 0 <= m < |parts[k]| ==> parts[k][m] != c
  }

  lemma {:induction false} IndexOfAfterFreePrefix(a: string, t: string, sep: string)
    requires |sep| > 0
    requires forall m :: 0 <= m < |a| ==> a[m] != sep[0]
    ensures IndexOf(a + t, sep) == |a| + IndexOf(t, sep)
    decreases |a|
  {
    if a != [] {
      if |a + t| >= |sep| {
        assert (a + t)[..|sep|][0] == a[0] != sep[0];
      }
      assert (a + t)[1..] == a[1..] + t;
      IndexOfAfterFreePrefix(a[1..], t, sep);
    } else {
      assert a + t == t;
    }
  }

  /**
   * Joining and splitting are inverse: a non-empty list of parts none of which
   * contains the separator's first character splits back into the same parts.
   */
  lemma {:induction false} SplitJoin(parts: seq<string>, sep: string)
    requires |sep| > 0 && |parts| > 0
    requires FreeOf(parts, sep[0])
    ensures Split(Join(parts, sep), sep) == parts
    decreases |parts|
  {
    var p := parts[0];
    assert forall m :: 0 <= m < |p| ==> p[m] != sep[0];
    if |parts| == 1 {
      SplitLone(p, sep);
    } else {
      var rest := Join(parts[1..], sep);
      assert Join(parts, sep) == p + (sep + rest);
      SplitAfterPart(p, rest, sep);
      assert FreeOf(parts[1..], sep[0]);
      SplitJoin(parts[1..], sep);
      assert [p] + parts[1..] == parts;
    }
  }

  /** A text without the separator's first character is one part. */
  lemma {:induction false} SplitLone(p: string, sep: string)
    requires |sep| > 0
    requires forall m :: 0 <= m < |p| ==> p[m] != sep[0]
    ensures Split(p, sep) == [p]
  {
    IndexOfAfterFreePrefix(p, [], sep);
    assert p + [] == p;
  }

  /** Such a text, then the separator: the first part, and splitting goes on after the separator. */
  lemma {:induction false} SplitAfterPart(p: string, rest: string, sep: string)
    requires |sep| > 0
    requires forall m :: 0 <= m < |p| ==> p[m] != sep[0]
    ensures Split(p + (sep + rest), sep) == [p] + Split(rest, sep)
  {
    IndexOfAfterFreePrefix(p, sep + rest, sep);
    IndexOfLeading(sep, rest);
    SplitConcat(p, sep, rest);
  }

  /** Where the first separator follows `p`, splitting yields `p` and goes on after that separator. */
  lemma {:induction false} SplitConcat(p: string, sep: string, rest: string)
    requires |sep| > 0 && IndexOf(p + (sep + rest), sep) == |p|
    ensures Split(p + (sep + rest), sep) == [p] + Split(rest, sep)
  {
    SplitAt(p + (sep + rest), sep, |p|);
    ConcatSlices(p, sep, rest);
  }

  lemma ConcatSlices(p: string, sep: string, rest: string)
    ensures (p + (sep + rest))[..|p|] == p
    ensures (p + (sep + rest))[|p| + |sep|..] == rest
  {
  }

  /** A text that starts with the separator has it at index 0. */
  lemma {:induction false} IndexOfLeading(sep: string, rest: string)
    requires |sep| > 0
    ensures IndexOf(sep + rest, sep) == 0
  {
    assert (sep + rest)[..|sep|] == sep;
  }

  /** Splitting at the first occurrence of the separator. */
  lemma {:induction false} SplitAt(s: string, sep: string, i: nat)
    requires |sep| > 0 && i < |s| && IndexOf(s, sep) == i
    ensures Split(s, sep) == [s[..i]] + Split(s[i + |sep|..], sep)
  {
  }

  /**
   * The ID-list value of a route splits back into the trimmed IDs, in input order,
   * when there is at least one ID and no trimmed ID contains '%'.
   */
  lemma JoinTrimmedRoundTrip(xs: seq<string>)
    requires |xs| > 0
    requires FreeOf(TrimAll(xs), '%')
    ensures Split(JoinTrimmed(xs), EncodedComma) == TrimAll(xs)
  {
    SplitJoin(TrimAll(xs), EncodedComma);
  }

  // ---------------------------------------------------------------------------
  // Decimal numbers
  // ---------------------------------------------------------------------------

  predicate IsDigit(c: char)
  {
    '0' <= c <= '9'
  }

  predicate AllDigits(s: string)
  {
    forall k :: 0 <= k < |s| ==> IsDigit(s[k])
  }

  function DigitChar(d: nat): (c: char)
    requires d < 10
    ensures IsDigit(c)
  {
    ('0' as int + d) as char
  }

  /** `String(n)` for a non-negative integer: its decimal digits, with no leading zero. */
  function NatToString(n: nat): (r: string)
    ensures |r| > 0 && AllDigits(r)
    ensures r[0] == '0' ==> n == 0 && |r| == 1
    decreases n
  {
    if n < 10 then [DigitChar(n)] else NatToString(n / 10) + [DigitChar(n % 10)]
  }

  /** `String(i)` for an integer: a minus sign before the digits of a negative value. */
  function IntToString(i: int): (r: string)
    ensures |r| > 0
    ensures i < 0 <==> r[0] == '-'
  {
    if i < 0 then "-" + NatToString(-i) else NatToString(i)
  }

  /** The value of a string of decimal digits, most significant first. */
  function DigitsValue(ds: string): nat
    requires AllDigits(ds)
    decreases |ds|
  {
    if ds == [] then 0
    else DigitsValue(ds[..|ds| - 1]) * 10 + (ds[|ds| - 1] as int - '0' as int)
  }

  /** A non-empty run of decimal digits read as a number; anything else is rejected. */
  function ParseNat(s: string): (r: Option<nat>)
    ensures r.Some? <==> |s| > 0 && AllDigits(s)
  {
    if |s| > 0 && AllDigits(s) then Some(DigitsValue(s)) else None
  }

  lemma {:induction false} DigitsValueOfNatToString(n: nat)
    ensures DigitsValue(NatToString(n)) == n
    decreases n
  {
    var r := NatToString(n);
    if n >= 10 {
      DigitsValueOfNatToString(n / 10);
      assert r[..|r| - 1] == NatToString(n / 10);
    }
  }

  /** Reading back what `NatToString` printed gives the number printed. */
  lemma ParseNatToString(n: nat)
    ensures ParseNat(NatToString(n)) == Some(n)
  {
    DigitsValueOfNatToString(n);
  }

  /** Different numbers print differently. */
  lemma NatToStringInjective(m: nat, n: nat)
    requires NatToString(m) == NatToString(n)
    ensures m == n
  {
    ParseNatToString(m);
    ParseNatToString(n);
  }
}
