/**
 * Octets, the UTF-8 encoding of a string, and the standard base64 encoding of
 * RFC 4648 section 4 with its decoder. The SDK uses base64 for the HTTP Basic
 * credentials of the token request and, in its URL-safe form, for the PKCE
 * code challenge.
 */
module Base64 {
  import opened Wrappers

  /** An octet, as held by a `Uint8Array`. */
  type byte = b: int | 0 <= b < 256

  /** A base64 digit value. */
  type sextet = s: int | 0 <= s < 64

  // ---------------------------------------------------------------------------
  // UTF-8 (what `TextEncoder` and `Buffer.from(string)` produce)
  // ---------------------------------------------------------------------------

  /** The UTF-8 encoding of one Unicode scalar value: one to four octets. */
  function Utf8Char(c: char): (r: seq<byte>)
    ensures 1 <= |r| <= 4
    ensures (c as int < 0x80) <==> |r| == 1
    ensures |r| == 1 ==> r[0] == c as int
  {
    var k := c as int;
    if k < 0x80 then [k]
    else if k < 0x800 then [0xC0 + k / 64, 0x80 + k % 64]
    else if k < 0x10000 then [0xE0 + k / 4096, 0x80 + (k / 64) % 64, 0x80 + k % 64]
    else [0xF0 + k / 262144, 0x80 + (k / 4096) % 64, 0x80 + (k / 64) % 64, 0x80 + k % 64]
  }

  function Utf8(s: string): (r: seq<byte>)
    ensures |r| >= |s|
    decreases |s|
  {
    if s == [] then [] else Utf8Char(s[0]) + Utf8(s[1..])
  }

  predicate IsAscii(s: string)
  {
    forall k :: 0 <= k < |s| ==> s[k] as int < 0x80
  }

  /** An ASCII string encodes to its own character codes, one octet each. */
  lemma {:induction false} Utf8OfAscii(s: string)
    requires IsAscii(s)
    ensures |Utf8(s)| == |s|
    ensures forall k :: 0 <= k < |s| ==> Utf8(s)[k] == s[k] as int
    decreases |s|
  {
    if s != [] {
      Utf8OfAscii(s[1..]);
      assert Utf8(s) == [s[0] as int] + Utf8(s[1..]);
    }
  }

  // ---------------------------------------------------------------------------
  // The base64 alphabet (RFC 4648, table 1)
  // ---------------------------------------------------------------------------

  const Pad: char := '='

  function StdChar(v: sextet): (c: char)
  {
    if v < 26 then ('A' as int + v) as char
    else if v < 52 then ('a' as int + v - 26) as char
    else if v < 62 then ('0' as int + v - 52) as char
    else if v == 62 then '+'
    else '/'
  }

  predicate IsStdChar(c: char)
  {
    'A' <= c <= 'Z' || 'a' <= c <= 'z' || '0' <= c <= '9' || c == '+' || c == '/'
  }

  /** The value of an alphabet character; `None` for anything else, padding included. */
  function StdValue(c: char): (r: Option<sextet>)
    ensures r.Some? <==> IsStdChar(c)
    ensures r.Some? ==> StdChar(r.value) == c
  {
    if 'A' <= c <= 'Z' then Some(c as int - 'A' as int)
    else if 'a' <= c <= 'z' then Some(c as int - 'a' as int + 26)
    else if '0' <= c <= '9' then Some(c as int - '0' as int + 52)
    else if c == '+' then Some(62)
    else if c == '/' then Some(63)
    else None
  }

  /** Every digit value has its own character, and that character reads back as the value. */
  lemma StdValueOfChar(v: sextet)
    ensures IsStdChar(StdChar(v))
    ensures StdValue(StdChar(v)) == Some(v)
  {
  }

  // ---------------------------------------------------------------------------
  // Encoding
  // ---------------------------------------------------------------------------

  /** The four digits of a 24-bit group `a b c`. */
  function Quantum(a: byte, b: byte, c: byte): string
  {
    [StdChar(a / 4), StdChar((a % 4) * 16 + b / 16), StdChar((b % 16) * 4 + c / 64), StdChar(c % 64)]
  }

  /**
   * Base64 of `bs`: a 24-bit group becomes four digits; a final group of one
   * or two octets is zero-filled to two or three digits and padded with `=`
   * to four (RFC 4648 section 4).
   */
  function Encode(bs: seq<byte>): (r: string)
    ensures |r| == 4 * ((|bs| + 2) / 3)
    decreases |bs|
  {
    if |bs| == 0 then ""
    else if |bs| == 1 then [StdChar(bs[0] / 4), StdChar((bs[0] % 4) * 16), Pad, Pad]
    else if |bs| == 2 then [StdChar(bs[0] / 4), StdChar((bs[0] % 4) * 16 + bs[1] / 16), StdChar((bs[1] % 16) * 4), Pad]
    else Quantum(bs[0], bs[1], bs[2]) + Encode(bs[3..])
  }

  /** How many `=` end the encoding of `n` octets. */
  function PadCount(n: nat): nat
  {
    if n % 3 == 0 then 0 else 3 - n % 3
  }

  /** Alphabet characters, then exactly `p` padding characters. */
  predicate StdThenPad(r: string, p: nat)
  {
    p <= |r| &&
    (forall k :: 0 <= k < |r| - p ==> IsStdChar(r[k])) &&
    (forall k :: |r| - p <= k < |r| ==> r[k] == Pad)
  }

  /** A full group more does not change the padding. */
  lemma PadCountStep(n: nat)
    requires n >= 3
    ensures PadCount(n - 3) == PadCount(n)
  {
    assert n % 3 == (n - 3) % 3;
  }

  /** The encoding is alphabet characters followed by exactly `PadCount` padding characters. */
  lemma {:induction false} EncodeShape(bs: seq<byte>)
    ensures StdThenPad(Encode(bs), PadCount(|bs|))
    decreases |bs|
  {
    if 1 <= |bs| <= 2 {
      ShortShape(bs);
    } else if |bs| > 2 {
      EncodeShape(bs[3..]);
      GroupThenShape(bs);
    }
  }

  /** A final group of one or two octets: two or three digits, then padding. */
  lemma {:induction false} ShortShape(bs: seq<byte>)
    requires 1 <= |bs| <= 2
    ensures StdThenPad(Encode(bs), PadCount(|bs|))
  {
    if |bs| == 1 {
      StdValueOfChar(bs[0] / 4);
      StdValueOfChar((bs[0] % 4) * 16);
    } else {
      StdValueOfChar(bs[0] / 4);
      StdValueOfChar((bs[0] % 4) * 16 + bs[1] / 16);
      StdValueOfChar((bs[1] % 16) * 4);
    }
  }

  /** The four digits of a full group are alphabet characters. */
  lemma QuantumStd(a: byte, b: byte, c: byte)
    ensures forall k :: 0 <= k < 4 ==> IsStdChar(Quantum(a, b, c)[k])
  {
    StdValueOfChar(a / 4);
    StdValueOfChar((a % 4) * 16 + b / 16);
    StdValueOfChar((b % 16) * 4 + c / 64);
    StdValueOfChar(c % 64);
  }

  /** A full group in front keeps the shape of the rest's encoding. */
  lemma {:induction false} GroupThenShape(bs: seq<byte>)
    requires |bs| > 2
    requires StdThenPad(Encode(bs[3..]), PadCount(|bs| - 3))
    ensures StdThenPad(Encode(bs), PadCount(|bs|))
  {
    var q := Quantum(bs[0], bs[1], bs[2]);
    QuantumStd(bs[0], bs[1], bs[2]);
    PadCountStep(|bs|);
    EncodeStep(bs);
    AppendShape(q, Encode(bs[3..]), PadCount(|bs|));
  }

  /** Four standard digits before a text of digits then `p` padding characters keep that shape. */
  lemma AppendShape(q: string, t: string, p: nat)
    requires |q| == 4 && forall k :: 0 <= k < 4 ==> IsStdChar(q[k])
    requires StdThenPad(t, p)
    ensures StdThenPad(q + t, p)
  {
    var r := q + t;
    forall k | 0 <= k < |r| - p
      ensures IsStdChar(r[k])
    {
      if k >= 4 {
        assert r[k] == t[k - 4];
      }
    }
    forall k | |r| - p <= k < |r|
      ensures r[k] == Pad
    {
      assert r[k] == t[k - 4];
    }
  }

  // ---------------------------------------------------------------------------
  // Decoding
  // ---------------------------------------------------------------------------

  /** The octets a group of digits spells: six bits of one digit and the high bits of the next. */
  function First(s0: sextet, s1: sextet): byte
  {
    (s0 as int) * 4 + (s1 as int) / 16
  }

  function Second(s1: sextet, s2: sextet): byte
  {
    ((s1 as int) % 16) * 16 + (s2 as int) / 4
  }

  function Third(s2: sextet, s3: sextet): byte
  {
    ((s2 as int) % 4) * 64 + s3 as int
  }

  /** Four alphabet digits: three octets. */
  function DecodeQuantum(q: string): Option<seq<byte>>
    requires |q| == 4
  {
    match (StdValue(q[0]), StdValue(q[1]), StdValue(q[2]), StdValue(q[3]))
    case (Some(s0), Some(s1), Some(s2), Some(s3)) => Some([First(s0, s1), Second(s1, s2), Third(s2, s3)])
    case _ => None
  }

  /** The last group: four digits, or two or three digits padded with `=`. */
  function DecodeFinal(q: string): Option<seq<byte>>
    requires |q| == 4
  {
    if q[2] == Pad && q[3] == Pad then
      match (StdValue(q[0]), StdValue(q[1]))
      case (Some(s0), Some(s1)) => Some([First(s0, s1)])
      case _ => None
    else if q[3] == Pad then
      match (StdValue(q[0]), StdValue(q[1]), StdValue(q[2]))
      case (Some(s0), Some(s1), Some(s2)) => Some([First(s0, s1), Second(s1, s2)])
      case _ => None
    else DecodeQuantum(q)
  }

  /** The octets a padded base64 text stands for; `None` for a text that is not one. */
  function Decode(s: string): Option<seq<byte>>
    decreases |s|
  {
    if |s| == 0 then Some([])
    else if |s| < 4 then None
    else if |s| == 4 then DecodeFinal(s)
    else
      match DecodeQuantum(s[..4])
      case None => None
      case Some(bs) =>
        match Decode(s[4..])
        case None => None
        case Some(rest) => Some(bs + rest)
  }

  lemma QuantumDigits(a: byte, b: byte, c: byte)
    ensures (a / 4) * 4 + ((a % 4) * 16 + b / 16) / 16 == a
    ensures (((a % 4) * 16 + b / 16) % 16) * 16 + ((b % 16) * 4 + c / 64) / 4 == b
    ensures (((b % 16) * 4 + c / 64) % 4) * 64 + c % 64 == c
  {
    var x := (a % 4) * 16 + b / 16;
    assert x / 16 == a % 4 && x % 16 == b / 16;
    var y := (b % 16) * 4 + c / 64;
    assert y / 4 == b % 16 && y % 4 == c / 64;
  }

  lemma DecodeQuantumOf(a: byte, b: byte, c: byte)
    ensures DecodeQuantum(Quantum(a, b, c)) == Some([a, b, c])
    ensures DecodeFinal(Quantum(a, b, c)) == Some([a, b, c])
  {
    StdValueOfChar(a / 4);
    StdValueOfChar((a % 4) * 16 + b / 16);
    StdValueOfChar((b % 16) * 4 + c / 64);
    StdValueOfChar(c % 64);
    QuantumDigits(a, b, c);
  }

  lemma DecodeOne(a: byte)
    ensures Decode(Encode([a])) == Some([a])
  {
    StdValueOfChar(a / 4);
    StdValueOfChar((a % 4) * 16);
    QuantumDigits(a, 0, 0);
  }

  lemma DecodeTwo(a: byte, b: byte)
    ensures Decode(Encode([a, b])) == Some([a, b])
  {
    var x, y, z := a / 4, (a % 4) * 16 + b / 16, (b % 16) * 4;
    assert Encode([a, b]) == [StdChar(x), StdChar(y), StdChar(z), Pad];
    DecodePaddedThree(x, y, z);
    QuantumDigits(a, b, 0);
  }

  /** Three digits and one `=` decode to the two octets the digits spell. */
  lemma DecodePaddedThree(x: sextet, y: sextet, z: sextet)
    ensures Decode([StdChar(x), StdChar(y), StdChar(z), Pad]) == Some([First(x, y), Second(y, z)])
  {
    StdValueOfChar(x);
    StdValueOfChar(y);
    StdValueOfChar(z);
  }

  lemma DecodeThree(a: byte, b: byte, c: byte)
    ensures Decode(Encode([a, b, c])) == Some([a, b, c])
  {
    DecodeQuantumOf(a, b, c);
    assert Encode([a, b, c]) == Quantum(a, b, c) + Encode([]);
  }

  lemma DecodeGroupThenRest(q: string, t: string)
    requires |q| == 4 && |t| > 0
    requires DecodeQuantum(q).Some? && Decode(t).Some?
    ensures Decode(q + t) == Some(DecodeQuantum(q).value + Decode(t).value)
  {
    var s := q + t;
    assert s[..4] == q && s[4..] == t;
  }

  /** Decoding the encoding of any octets gives those octets back (RFC 4648 section 4). */
  lemma {:induction false} DecodeEncode(bs: seq<byte>)
    ensures Decode(Encode(bs)) == Some(bs)
    decreases |bs|
  {
    if 1 <= |bs| <= 3 {
      DecodeEncodeShort(bs);
    } else if |bs| > 3 {
      DecodeEncode(bs[3..]);
      DecodeGroupThenEncoded(bs);
    }
  }

  lemma {:induction false} DecodeEncodeShort(bs: seq<byte>)
    requires 1 <= |bs| <= 3
    ensures Decode(Encode(bs)) == Some(bs)
  {
    if |bs| == 1 {
      DecodeOne(bs[0]);
      assert [bs[0]] == bs;
    } else if |bs| == 2 {
      DecodeTwo(bs[0], bs[1]);
      assert [bs[0], bs[1]] == bs;
    } else {
      DecodeThree(bs[0], bs[1], bs[2]);
      assert [bs[0], bs[1], bs[2]] == bs;
    }
  }

  /** A full group in front of octets whose encoding decodes back: the whole decodes back. */
  lemma {:induction false} DecodeGroupThenEncoded(bs: seq<byte>)
    requires |bs| > 3 && Decode(Encode(bs[3..])) == Some(bs[3..])
    ensures Decode(Encode(bs)) == Some(bs)
  {
    var head, tail := [bs[0], bs[1], bs[2]], bs[3..];
    var q := Quantum(bs[0], bs[1], bs[2]);
    var t := Encode(tail);
    assert |t| > 0;
    EncodeStep(bs);
    DecodeQuantumOf(bs[0], bs[1], bs[2]);
    DecodeGroupThenRest(q, t);
    assert head + tail == bs;
  }

  /** A full group is encoded in front of the rest's encoding. */
  lemma EncodeStep(bs: seq<byte>)
    requires |bs| > 2
    ensures Encode(bs) == Quantum(bs[0], bs[1], bs[2]) + Encode(bs[3..])
  {
  }
}
