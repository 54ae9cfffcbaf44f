/**
 * The PKCE helpers: the random verifier string, one printable character per
 * random octet, and the URL-safe unpadded base64 of RFC 4648 section 5 that
 * RFC 7636 (appendix A) uses for the code challenge. Random octets come in as
 * a parameter; the SHA-256 digest is not computed here.
 */
module PkceUtils {
  import opened Wrappers
  import opened Base64

  /** The verifier length `generateRandomString` uses when none is given. */
  const DefaultVerifierLength: nat := 128

  /** The values `crypto.getRandomValues` writes into the array, by index. */
  type RandomSource = nat -> byte

  // ---------------------------------------------------------------------------
  // generateRandomString
  // ---------------------------------------------------------------------------

  /** `String.fromCharCode(33 + (x % 94))`: one of the 94 printable ASCII characters '!' to '~'. */
  function PrintableChar(x: byte): (c: char)
    ensures 33 <= c as int <= 126
    ensures c as int == 33 + x % 94
  {
    (33 + x % 94) as char
  }

  /** One character per octet, in order. */
  function RandomString(bytes: seq<byte>): (r: string)
    ensures |r| == |bytes|
    ensures forall i :: 0 <= i < |bytes| ==> r[i] == PrintableChar(bytes[i])
  {
    seq(|bytes|, i requires 0 <= i < |bytes| => PrintableChar(bytes[i]))
  }

  /** `generateRandomString(length)`: the array of `length` random octets mapped to characters. */
  function GenerateRandomString(length: nat, random: RandomSource): string
  {
    RandomString(seq(length, i requires 0 <= i < length => random(i)))
  }

  predicate IsPrintableAscii(s: string)
  {
    forall i :: 0 <= i < |s| ==> 33 <= s[i] as int <= 126
  }

  /**
   * A generated string has exactly the requested length, every character is
   * printable ASCII, and character `i` is fixed by octet `i` alone.
   */
  lemma GeneratedString(length: nat, random: RandomSource)
    ensures |GenerateRandomString(length, random)| == length
    ensures IsPrintableAscii(GenerateRandomString(length, random))
    ensures forall i :: 0 <= i < length ==> GenerateRandomString(length, random)[i] as int == 33 + random(i) % 94
    ensures IsAscii(GenerateRandomString(length, random))
  {
  }

  // ---------------------------------------------------------------------------
  // encodeBase64Url
  // ---------------------------------------------------------------------------

  /** `String.fromCharCode(byte)` for each octet: a string of code points 0-255. */
  function Latin1(bytes: seq<byte>): (r: string)
    ensures |r| == |bytes|
    ensures forall i :: 0 <= i < |bytes| ==> r[i] as int == bytes[i]
  {
    seq(|bytes|, i requires 0 <= i < |bytes| => bytes[i] as char)
  }

  /** `btoa(s)`: base64 of the code points of `s`; `None` where `btoa` throws (a code point above 255). */
  function Btoa(s: string): (r: Option<string>)
    ensures r.Some? <==> forall i :: 0 <= i < |s| ==> s[i] as int < 256
  {
    if forall i :: 0 <= i < |s| ==> s[i] as int < 256 then
      Some(Encode(seq(|s|, i requires 0 <= i < |s| => s[i] as int)))
    else None
  }

  /** `s.replace(/x/g, y)` for single characters. */
  function ReplaceAll(s: string, x: char, y: char): (r: string)
    ensures |r| == |s|
    ensures forall i :: 0 <= i < |s| ==> r[i] == if s[i] == x then y else s[i]
  {
    seq(|s|, i requires 0 <= i < |s| => if s[i] == x then y else s[i])
  }

  /** `.replace(/\+/g, "-").replace(/\//g, "_")`. */
  function ToUrlSafe(s: string): string
  {
    ReplaceAll(ReplaceAll(s, '+', '-'), '/', '_')
  }

  /** `.replace(/=+$/, "")`: the run of '=' at the end is dropped. */
  function StripPadding(s: string): (r: string)
    ensures |r| <= |s| && r == s[..|r|]
    ensures r == [] || r[|r| - 1] != Pad
    decreases |s|
  {
    if |s| > 0 && s[|s| - 1] == Pad then StripPadding(s[..|s| - 1]) else s
  }

  /** The code challenge encoding: base64 in the URL-safe alphabet without padding (RFC 4648 section 5). */
  function Base64Url(bytes: seq<byte>): string
  {
    StripPadding(ToUrlSafe(Encode(bytes)))
  }

  /** `encodeBase64Url`: the loop that builds a binary string, then `btoa` and the three replacements. */
  method EncodeBase64Url(bytes: seq<byte>) returns (r: string)
    ensures r == Base64Url(bytes)
  {
    var str := "";
    var i := 0;
    while i < |bytes|
      invariant 0 <= i <= |bytes|
      invariant str == Latin1(bytes[..i])
    {
      str := str + [bytes[i] as char];
      i := i + 1;
    }
    assert bytes[..|bytes|] == bytes;
    BtoaOfLatin1(bytes);
    var base64 := Btoa(str).value;
    r := StripPadding(ReplaceAll(ReplaceAll(base64, '+', '-'), '/', '_'));
  }

  /** `btoa` of the binary string of some octets is the base64 of those octets. */
  lemma BtoaOfLatin1(bytes: seq<byte>)
    ensures Btoa(Latin1(bytes)) == Some(Encode(bytes))
  {
    var s := Latin1(bytes);
    assert seq(|s|, i requires 0 <= i < |s| => s[i] as int) == bytes;
  }

  predicate IsUrlSafeChar(c: char)
  {
    'A' <= c <= 'Z' || 'a' <= c <= 'z' || '0' <= c <= '9' || c == '-' || c == '_'
  }

  /** Drops the trailing padding of a text that is `body` followed by '=' characters only. */
  lemma {:induction false} StripPaddingOf(body: string, pads: string)
    requires body == [] || body[|body| - 1] != Pad
    requires forall i :: 0 <= i < |pads| ==> pads[i] == Pad
    ensures StripPadding(body + pads) == body
    decreases |pads|
  {
    if pads == [] {
      assert body + pads == body;
    } else {
      var s := body + pads;
      assert s[..|s| - 1] == body + pads[..|pads| - 1];
      StripPaddingOf(body, pads[..|pads| - 1]);
    }
  }

  /** The URL-safe replacements leave trailing padding as it is. */
  lemma ToUrlSafeOfPadded(body: string, pads: string)
    requires forall i :: 0 <= i < |pads| ==> pads[i] == Pad
    ensures ToUrlSafe(body + pads) == ToUrlSafe(body) + pads
  {
    var s, r := body + pads, ToUrlSafe(body) + pads;
    assert forall i :: 0 <= i < |body| ==> ToUrlSafe(s)[i] == r[i];
    assert forall i :: |body| <= i < |s| ==> ToUrlSafe(s)[i] == r[i];
  }

  /** The encoding split at its padding: the URL-safe digits, and the padding that is stripped. */
  lemma Base64UrlParts(bytes: seq<byte>)
    ensures var e := Encode(bytes); var n := |e| - PadCount(|bytes|);
      0 <= n <= |e| &&
      Base64Url(bytes) == ToUrlSafe(e[..n]) &&
      |Base64Url(bytes)| == n &&
      (forall i :: 0 <= i < n ==> IsStdChar(e[i])) &&
      (forall i :: n <= i < |e| ==> e[i] == Pad)
  {
    EncodeShape(bytes);
    var e := Encode(bytes);
    var n := |e| - PadCount(|bytes|);
    var body, pads := e[..n], e[n..];
    assert e == body + pads;
    ToUrlSafeOfPadded(body, pads);
    var u := ToUrlSafe(body);
    assert u == [] || u[|u| - 1] != Pad by {
      if u != [] {
        assert IsStdChar(body[|u| - 1]);
      }
    }
    StripPaddingOf(u, pads);
  }

  /** Four characters per started group of three octets, less the padding. */
  lemma UnpaddedLength(k: nat)
    ensures 4 * ((k + 2) / 3) - PadCount(k) == 4 * (k / 3) + (if k % 3 == 0 then 0 else k % 3 + 1)
  {
    var q, r := k / 3, k % 3;
    assert k == 3 * q + r;
    assert (k + 2) / 3 == q + (r + 2) / 3;
  }

  /**
   * The challenge alphabet: only 'A'-'Z', 'a'-'z', '0'-'9', '-' and '_' occur,
   * so in particular no '=' (RFC 4648 section 5, RFC 7636 appendix A).
   */
  lemma Base64UrlAlphabet(bytes: seq<byte>)
    ensures forall i :: 0 <= i < |Base64Url(bytes)| ==> IsUrlSafeChar(Base64Url(bytes)[i])
    ensures Pad !in Base64Url(bytes)
  {
    Base64UrlParts(bytes);
  }

  /** Unpadded length: four characters per full group, then two or three for a final group of one or two octets. */
  lemma Base64UrlLength(bytes: seq<byte>)
    ensures var n := |bytes|;
      |Base64Url(bytes)| == 4 * (n / 3) + (if n % 3 == 0 then 0 else n % 3 + 1)
  {
    Base64UrlParts(bytes);
    UnpaddedLength(|bytes|);
  }

  /** A SHA-256 digest (32 octets) gives a 43-character challenge. */
  lemma DigestChallengeLength(digest: seq<byte>)
    requires |digest| == 32
    ensures |Base64Url(digest)| == 43
  {
    Base64UrlLength(digest);
  }

  /** Undoes `ToUrlSafe`. */
  function FromUrlSafe(s: string): string
  {
    ReplaceAll(ReplaceAll(s, '-', '+'), '_', '/')
  }

  /** Appends '=' up to a multiple of four characters. */
  function RePad(s: string): (r: string)
    ensures |r| % 4 == 0
  {
    var p := (4 - |s| % 4) % 4;
    PadToFour(|s|);
    s + seq(p, _ => Pad)
  }

  /** Adding the missing padding reaches the next multiple of four. */
  lemma PadToFour(n: nat)
    ensures (n + (4 - n % 4) % 4) % 4 == 0
  {
    var q, m := n / 4, n % 4;
    assert n == 4 * q + m;
    if m == 0 {
      assert n + (4 - m) % 4 == 4 * q;
    } else {
      assert n + (4 - m) % 4 == 4 * (q + 1);
    }
  }

  /** Re-padding a text of `4 * g - p` characters, `p < 4`, appends exactly `p` padding characters. */
  lemma RePadCount(u: string, g: nat, p: nat)
    requires p < 4 && |u| + p == 4 * g
    ensures RePad(u) == u + seq(p, _ => Pad)
  {
    if p == 0 {
      assert |u| % 4 == 0;
    } else {
      assert |u| == 4 * (g - 1) + (4 - p);
      assert |u| % 4 == 4 - p;
    }
  }

  /** Back to the standard alphabet: a text of standard characters followed by padding is restored. */
  lemma FromUrlSafeOf(body: string, pads: string)
    requires forall i :: 0 <= i < |body| ==> IsStdChar(body[i])
    requires forall i :: 0 <= i < |pads| ==> pads[i] == Pad
    ensures FromUrlSafe(ToUrlSafe(body) + pads) == body + pads
  {
    var s := ToUrlSafe(body) + pads;
    var r := FromUrlSafe(s);
    assert forall i :: 0 <= i < |body| ==> r[i] == body[i];
    assert forall i :: |body| <= i < |s| ==> r[i] == pads[i - |body|];
  }

  /**
   * Re-padding the URL-safe text, going back to the standard alphabet and
   * decoding gives the original octets.
   */
  lemma Base64UrlRoundTrip(bytes: seq<byte>)
    ensures Decode(FromUrlSafe(RePad(Base64Url(bytes)))) == Some(bytes)
  {
    Base64UrlParts(bytes);
    var e := Encode(bytes);
    var n := |e| - PadCount(|bytes|);
    var u := Base64Url(bytes);
    var pads := seq(PadCount(|bytes|), _ => Pad);
    assert e[n..] == pads;
    RePadCount(u, (|bytes| + 2) / 3, PadCount(|bytes|));
    FromUrlSafeOf(e[..n], pads);
    assert e[..n] + pads == e;
    DecodeEncode(bytes);
  }
}
