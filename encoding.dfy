/** The byte-string conversions the client relies on: PHP's `utf8_encode`
    (ISO-8859-1 to UTF-8, following section 3 of RFC 3629), `urlencode` as
    used by `http_build_query`, and `ucfirst`. Each comes with the inverse
    it is checked against. */
module Encoding {
  import opened Php

  /* ---------- utf8_encode ---------- */

  /** Number of bytes at or above 0x80, i.e. those that need two bytes in UTF-8. */
  function HighCount(s: Bytes): nat
  {
    if s == [] then 0 else (if s[0] >= 0x80 then 1 else 0) + HighCount(s[1..])
  }

  /** One ISO-8859-1 byte as UTF-8: below 0x80 it stands for itself, otherwise
      it becomes 110000xx 10xxxxxx. */
  function EncodeLatin1Byte(b: byte): Bytes
  {
    if b < 0x80 then [b]
    else [(0xC0 + b as int / 64) as byte, (0x80 + b as int % 64) as byte]
  }

  /** PHP `utf8_encode`. */
  function Utf8Encode(s: Bytes): (r: Bytes)
    ensures |r| == |s| + HighCount(s)
  {
    if s == [] then [] else EncodeLatin1Byte(s[0]) + Utf8Encode(s[1..])
  }

  /** Strict UTF-8 back to ISO-8859-1, the inverse `Utf8Encode` is checked
      against. It accepts only ASCII bytes and two-byte sequences whose lead
      byte is 0xC2 or 0xC3 (the code points U+0080 to U+00FF) followed by a
      continuation byte in 0x80..0xBF; anything else is `None`. */
  function Utf8DecodeLatin1(s: Bytes): Option<Bytes>
    decreases |s|
  {
    if s == [] then Some([])
    else if s[0] < 0x80 then
      match Utf8DecodeLatin1(s[1..])
      case None => None
      case Some(rest) => Some([s[0]] + rest)
    else if |s| >= 2 && 0xC2 <= s[0] <= 0xC3 && 0x80 <= s[1] <= 0xBF then
      match Utf8DecodeLatin1(s[2..])
      case None => None
      case Some(rest) => Some([((s[0] as int - 0xC0) * 64 + (s[1] as int - 0x80)) as byte] + rest)
    else None
  }

  /** The output of `utf8_encode` is well-formed UTF-8 of the above shape, and
      decodes back to the input. */
  lemma {:induction false} Utf8RoundTrip(s: Bytes)
    ensures Utf8DecodeLatin1(Utf8Encode(s)) == Some(s)
  {
    if s != [] {
      var rest := Utf8Encode(s[1..]);
      var e := EncodeLatin1Byte(s[0]) + rest;
      assert Utf8Encode(s) == e;
      Utf8RoundTrip(s[1..]);
      if s[0] >= 0x80 {
        assert e[2..] == rest;
      } else {
        assert e[1..] == rest;
      }
      assert s == [s[0]] + s[1..];
    }
  }

  lemma {:induction false} HighCountZero(s: Bytes)
    ensures HighCount(s) == 0 <==> forall i :: 0 <= i < |s| ==> s[i] < 0x80
  {
    if s != [] {
      HighCountZero(s[1..]);
      assert forall i :: 1 <= i < |s| ==> s[i] == s[1..][i - 1];
    }
  }

  lemma {:induction false} Utf8EncodeAscii(s: Bytes)
    requires forall i :: 0 <= i < |s| ==> s[i] < 0x80
    ensures Utf8Encode(s) == s
  {
    if s != [] {
      Utf8EncodeAscii(s[1..]);
      assert s == [s[0]] + s[1..];
    }
  }

  /** `utf8_encode` leaves a string unchanged exactly when it is plain ASCII. */
  lemma Utf8EncodeFixesExactlyAscii(s: Bytes)
    ensures Utf8Encode(s) == s <==> forall i :: 0 <= i < |s| ==> s[i] < 0x80
  {
    HighCountZero(s);
    if forall i :: 0 <= i < |s| ==> s[i] < 0x80 {
      Utf8EncodeAscii(s);
    }
  }

  /* ---------- urlencode / urldecode ---------- */

  /** Bytes `urlencode` keeps as they are: letters, digits, '-', '_' and '.'. */
  predicate Unreserved(b: byte)
  {
    (48 <= b <= 57) || (65 <= b <= 90) || (97 <= b <= 122) || b == 45 || b == 95 || b == 46
  }

  const Plus: byte := 43
  const Percent: byte := 37
  const Space: byte := 32
  const Ampersand: byte := 38
  const EqualsSign: byte := 61
  const QuestionMark: byte := 63

  /** Upper-case hexadecimal digit. */
  function HexDigit(n: int): (d: byte)
    requires 0 <= n < 16
  {
    if n < 10 then (48 + n) as byte else (55 + n) as byte
  }

  predicate IsHexDigit(b: byte)
  {
    (48 <= b <= 57) || (65 <= b <= 70) || (97 <= b <= 102)
  }

  function HexValue(b: byte): (n: int)
    requires IsHexDigit(b)
    ensures 0 <= n < 16
  {
    if b <= 57 then b as int - 48 else if b <= 70 then b as int - 55 else b as int - 87
  }

  function UrlEncodeByte(b: byte): Bytes
  {
    if Unreserved(b) then [b]
    else if b == Space then [Plus]
    else [Percent, HexDigit(b as int / 16), HexDigit(b as int % 16)]
  }

  /** PHP `urlencode`. */
  function UrlEncode(s: Bytes): (r: Bytes)
    ensures forall i :: 0 <= i < |r| ==> r[i] != Ampersand && r[i] != EqualsSign
  {
    if s == [] then [] else UrlEncodeByte(s[0]) + UrlEncode(s[1..])
  }

  /** PHP `urldecode`: '+' is a space, '%' with two hexadecimal digits is the
      byte they spell, anything else stands for itself. */
  function UrlDecode(s: Bytes): Bytes
    decreases |s|
  {
    if s == [] then []
    else if s[0] == Plus then [Space] + UrlDecode(s[1..])
    else if s[0] == Percent && |s| >= 3 && IsHexDigit(s[1]) && IsHexDigit(s[2]) then
      [(HexValue(s[1]) * 16 + HexValue(s[2])) as byte] + UrlDecode(s[3..])
    else [s[0]] + UrlDecode(s[1..])
  }

  lemma {:induction false} UrlRoundTrip(s: Bytes)
    ensures UrlDecode(UrlEncode(s)) == s
  {
    if s != [] {
      var b, rest := s[0], UrlEncode(s[1..]);
      var e := UrlEncodeByte(b) + rest;
      assert UrlEncode(s) == e;
      UrlRoundTrip(s[1..]);
      if Unreserved(b) {
        assert e[1..] == rest;
      } else if b == Space {
        assert e[1..] == rest;
      } else {
        assert e[3..] == rest;
        assert HexValue(HexDigit(b as int / 16)) == b as int / 16;
        assert HexValue(HexDigit(b as int % 16)) == b as int % 16;
      }
    }
  }

  /** Decoding a string that holds no '+' and no '%' changes nothing. */
  lemma {:induction false} UrlDecodePlain(s: Bytes)
    requires forall i :: 0 <= i < |s| ==> s[i] != Plus && s[i] != Percent
    ensures UrlDecode(s) == s
  {
    if s != [] {
      UrlDecodePlain(s[1..]);
      assert s == [s[0]] + s[1..];
    }
  }

  /* ---------- ucfirst ---------- */

  /** PHP `ucfirst`: an initial ASCII lower-case letter becomes upper case. */
  function Ucfirst(s: Bytes): (r: Bytes)
    ensures |r| == |s|
    ensures forall i :: 1 <= i < |s| ==> r[i] == s[i]
    ensures |s| > 0 && 97 <= s[0] <= 122 ==> r[0] as int == s[0] as int - 32
    ensures |s| > 0 && !(97 <= s[0] <= 122) ==> r == s
  {
    if |s| > 0 && 97 <= s[0] <= 122 then [s[0] - 32] + s[1..] else s
  }
}
