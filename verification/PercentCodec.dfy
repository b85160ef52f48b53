// Percent-encoding of one path segment over UTF-8, and its decoding (sections 2.1 and 2.3 of RFC
// 3986). A Dafny character is a Unicode scalar value, so the lone surrogates encodeURIComponent
// refuses do not arise.
module PercentCodec {
  import opened Common

  predicate Unreserved(c: char) {
    || 'A' <= c <= 'Z' || 'a' <= c <= 'z' || '0' <= c <= '9'
    || c == '-' || c == '_' || c == '.' || c == '~'
  }

  type Octet = b: int | 0 <= b < 256
  type Nibble = h: int | 0 <= h < 16

  function HexDigit(h: Nibble): char {
    if h < 10 then '0' + h as char else 'A' + (h - 10) as char
  }

  function HexValue(c: char): Option<Nibble> {
    if '0' <= c <= '9' then Some(c as int - '0' as int)
    else if 'A' <= c <= 'F' then Some(c as int - 'A' as int + 10)
    else if 'a' <= c <= 'f' then Some(c as int - 'a' as int + 10)
    else None
  }

  function Escape(b: Octet): string { ['%', HexDigit(b / 16), HexDigit(b % 16)] }

  function Escapes(bytes: seq<Octet>): string {
    if bytes == [] then "" else Escape(bytes[0]) + Escapes(bytes[1..])
  }

  function Utf8(c: char): seq<Octet> {
    var v := c as int;
    if v < 0x80 then [v]
    else if v < 0x800 then [0xC0 + v / 64, 0x80 + v % 64]
    else if v < 0x10000 then [0xE0 + v / 4096, 0x80 + v / 64 % 64, 0x80 + v % 64]
    else [0xF0 + v / 262144, 0x80 + v / 4096 % 64, 0x80 + v / 64 % 64, 0x80 + v % 64]
  }

  function EncodeChar(c: char): string { if Unreserved(c) then [c] else Escapes(Utf8(c)) }

  function Encode(s: string): string {
    if s == "" then "" else EncodeChar(s[0]) + Encode(s[1..])
  }

  // The byte escaped at `i`.
  function ByteAt(s: string, i: nat): Option<Octet> {
    if i + 3 <= |s| && s[i] == '%' && HexValue(s[i + 1]).Some? && HexValue(s[i + 2]).Some?
    then Some(16 * HexValue(s[i + 1]).value + HexValue(s[i + 2]).value) else None
  }

  // The six payload bits of the continuation byte escaped at `i`.
  function PayloadAt(s: string, i: nat): Option<int> {
    match ByteAt(s, i)
    case Some(b) => if 0x80 <= b < 0xC0 then Some(b - 0x80) else None
    case None => None
  }

  datatype Scalar = Scalar(value: int, length: nat)

  // The code point escaped at `i`, if its bytes are well-formed UTF-8.
  function ScalarAt(s: string, i: nat): (r: Option<Scalar>)
    ensures r.Some? ==> 3 <= r.value.length && i + r.value.length <= |s|
    ensures r.Some? ==> 0 <= r.value.value < 0xD800 || 0xE000 <= r.value.value < 0x110000
  {
    match ByteAt(s, i)
    case None => None
    case Some(b) =>
      if b < 0x80 then Some(Scalar(b, 3))
      else if 0xC0 <= b < 0xE0 then
        match PayloadAt(s, i + 3)
        case None => None
        case Some(p) =>
          var v := (b - 0xC0) * 64 + p;
          if v >= 0x80 then Some(Scalar(v, 6)) else None
      else if 0xE0 <= b < 0xF0 then
        match (PayloadAt(s, i + 3), PayloadAt(s, i + 6))
        case (Some(p), Some(q)) =>
          var v := (b - 0xE0) * 4096 + p * 64 + q;
          if v >= 0x800 && !(0xD800 <= v < 0xE000) then Some(Scalar(v, 9)) else None
        case _ => None
      else if 0xF0 <= b < 0xF8 then
        match (PayloadAt(s, i + 3), PayloadAt(s, i + 6), PayloadAt(s, i + 9))
        case (Some(p), Some(q), Some(r)) =>
          var v := (b - 0xF0) * 262144 + p * 4096 + q * 64 + r;
          if 0x10000 <= v < 0x110000 then Some(Scalar(v, 12)) else None
        case _ => None
      else None
  }

  // decodeURIComponent: None where it throws.
  function Decode(s: string): Option<string> {
    if s == "" then Some("")
    else if s[0] != '%' then Prepend(s[0], Decode(s[1..]))
    else match ScalarAt(s, 0)
         case None => None
         case Some(v) => Prepend(v.value as char, Decode(s[v.length..]))
  }

  function Prepend(c: char, r: Option<string>): Option<string> {
    match r
    case None => None
    case Some(t) => Some([c] + t)
  }

  // ---- the round trip ----

  lemma ByteRoundTrip(b: Octet, before: string, rest: string)
    ensures ByteAt(before + Escape(b) + rest, |before|) == Some(b)
  {
    var s := before + Escape(b) + rest;
    assert s[|before|] == '%' && s[|before| + 1] == HexDigit(b / 16) && s[|before| + 2] == HexDigit(b % 16);
    HexRoundTrip(b / 16);
    HexRoundTrip(b % 16);
  }

  lemma HexRoundTrip(h: Nibble)
    ensures HexValue(HexDigit(h)) == Some(h)
  {
  }

  // Every byte of a run of escapes reads back where it was written.
  lemma {:induction false} EscapesRoundTrip(bytes: seq<Octet>, before: string, rest: string, k: nat)
    requires k < |bytes|
    ensures |Escapes(bytes)| == 3 * |bytes|
    ensures ByteAt(before + Escapes(bytes) + rest, |before| + 3 * k) == Some(bytes[k])
  {
    var tail := Escapes(bytes[1..]);
    if |bytes| > 1 {
      EscapesRoundTrip(bytes[1..], before + Escape(bytes[0]), rest, if k > 0 then k - 1 else 0);
    }
    assert before + Escapes(bytes) + rest == before + Escape(bytes[0]) + (tail + rest);
    if k == 0 {
      ByteRoundTrip(bytes[0], before, tail + rest);
    } else {
      assert before + Escapes(bytes) + rest == (before + Escape(bytes[0])) + tail + rest;
    }
  }

  lemma TwoBytes(s: string, v: int)
    requires 0x80 <= v < 0x800 && ByteAt(s, 0) == Some(0xC0 + v / 64) && ByteAt(s, 3) == Some(0x80 + v % 64)
    ensures ScalarAt(s, 0) == Some(Scalar(v, 6))
  {
    hide ByteAt;
  }

  lemma ThreeBytes(s: string, v: int)
    requires 0x800 <= v < 0x10000 && !(0xD800 <= v < 0xE000)
    requires ByteAt(s, 0) == Some(0xE0 + v / 4096)
    requires ByteAt(s, 3) == Some(0x80 + v / 64 % 64) && ByteAt(s, 6) == Some(0x80 + v % 64)
    ensures ScalarAt(s, 0) == Some(Scalar(v, 9))
  {
    hide ByteAt;
    assert PayloadAt(s, 3) == Some(v / 64 % 64) && PayloadAt(s, 6) == Some(v % 64);
    hide PayloadAt;
    assert v == v / 4096 * 4096 + v / 64 % 64 * 64 + v % 64;
  }

  lemma FourBytes(s: string, v: int)
    requires 0x10000 <= v < 0x110000 && ByteAt(s, 0) == Some(0xF0 + v / 262144)
    requires ByteAt(s, 3) == Some(0x80 + v / 4096 % 64) && ByteAt(s, 6) == Some(0x80 + v / 64 % 64)
    requires ByteAt(s, 9) == Some(0x80 + v % 64)
    ensures ScalarAt(s, 0) == Some(Scalar(v, 12))
  {
    hide ByteAt;
    assert PayloadAt(s, 3) == Some(v / 4096 % 64) && PayloadAt(s, 6) == Some(v / 64 % 64) && PayloadAt(s, 9) == Some(v % 64);
    hide PayloadAt;
    assert v == v / 262144 * 262144 + v / 4096 % 64 * 4096 + v / 64 % 64 * 64 + v % 64;
  }

  lemma ScalarRoundTrip(c: char, rest: string)
    ensures ScalarAt(Escapes(Utf8(c)) + rest, 0) == Some(Scalar(c as int, |Escapes(Utf8(c))|))
  {
    var bytes, v := Utf8(c), c as int;
    var s := Escapes(bytes) + rest;
    assert "" + Escapes(bytes) + rest == s;
    forall k | 0 <= k < |bytes| ensures |Escapes(bytes)| == 3 * |bytes| && ByteAt(s, 3 * k) == Some(bytes[k]) {
      EscapesRoundTrip(bytes, "", rest, k);
    }
    hide ByteAt, Escapes;
    assert ByteAt(s, 3 * 0) == Some(bytes[0]);
    if v >= 0x80 {
      assert ByteAt(s, 3 * 1) == Some(bytes[1]);
      if v < 0x800 {
        TwoBytes(s, v);
      } else {
        assert ByteAt(s, 3 * 2) == Some(bytes[2]);
        if v < 0x10000 {
          ThreeBytes(s, v);
        } else {
          assert ByteAt(s, 3 * 3) == Some(bytes[3]);
          FourBytes(s, v);
        }
      }
    }
  }

  // What one encoded character in front of an encoded text decodes to.
  lemma DecodeChar(c: char, rest: string)
    ensures Decode(EncodeChar(c) + rest) == Prepend(c, Decode(rest))
  {
    var s := EncodeChar(c) + rest;
    if Unreserved(c) {
      assert s[1..] == rest;
    } else {
      ScalarRoundTrip(c, rest);
      EscapesRoundTrip(Utf8(c), "", rest, 0);
      assert Escapes(Utf8(c))[0] == '%';
      assert s[|EncodeChar(c)|..] == rest;
    }
  }

  // Decoding undoes encoding, in front of any text.
  lemma {:induction false} DecodeEncode(t: string, rest: string)
    requires Decode(rest).Some?
    ensures Decode(Encode(t) + rest) == Some(t + Decode(rest).value)
  {
    hide Decode, EncodeChar;
    if t == "" {
      assert Encode(t) + rest == rest && t + Decode(rest).value == Decode(rest).value;
    } else {
      var c, tail := t[0], t[1..];
      DecodeEncode(tail, rest);
      DecodeChar(c, Encode(tail) + rest);
      assert EncodeChar(c) + Encode(tail) + rest == EncodeChar(c) + (Encode(tail) + rest);
      var d := Decode(rest).value;
      assert [c] + (tail + d) == t + d;
    }
  }

  predicate Encoded(c: char) { Unreserved(c) || c == '%' }

  // Encoded text holds nothing but unreserved characters and percent signs.
  lemma {:induction false} EncodeAlphabet(t: string)
    ensures forall i :: 0 <= i < |Encode(t)| ==> Encoded(Encode(t)[i])
  {
    if t != "" {
      EncodeAlphabet(t[1..]);
      EscapesAlphabet(Utf8(t[0]));
    }
  }

  lemma {:induction false} EscapesAlphabet(bytes: seq<Octet>)
    ensures forall i :: 0 <= i < |Escapes(bytes)| ==> Encoded(Escapes(bytes)[i])
  {
    if bytes != [] {
      EscapesAlphabet(bytes[1..]);
    }
  }
}
