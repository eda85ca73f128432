/** `encodeURIComponent` and `decodeURIComponent` (section 19.2.6 of
    ECMA-262): every character outside the unescaped set becomes the
    percent-encoded octets of its UTF-8 form (section 2.1 of RFC 3986, with
    upper-case hexadecimal digits). */
module UriEncoding {
  import opened Common
  import Base64

  type Byte = Base64.Byte

  /** The characters `encodeURIComponent` leaves alone: letters, digits and
      `- _ . ! ~ * ' ( )`. */
  predicate IsUnescaped(c: char) {
    ('A' <= c <= 'Z') || ('a' <= c <= 'z') || ('0' <= c <= '9') ||
    c == '-' || c == '_' || c == '.' || c == '!' || c == '~' || c == '*' || c == '\'' || c == '(' || c == ')'
  }

  /** The UTF-8 octets of a Unicode scalar value. */
  function Utf8(c: char): (r: seq<Byte>)
    ensures 1 <= |r| <= 4
    ensures |r| == 1 <==> c as int < 0x80
  {
    var cp := c as int;
    if cp < 0x80 then [cp]
    else if cp < 0x800 then [0xC0 + cp / 64, 0x80 + cp % 64]
    else if cp < 0x10000 then [0xE0 + cp / 4096, 0x80 + (cp / 64) % 64, 0x80 + cp % 64]
    else [0xF0 + cp / 262144, 0x80 + (cp / 4096) % 64, 0x80 + (cp / 64) % 64, 0x80 + cp % 64]
  }

  function HexDigit(v: int): (c: char)
    requires 0 <= v < 16
    ensures HexValue(c) == Some(v)
  {
    if v < 10 then ('0' as int + v) as char else ('A' as int + v - 10) as char
  }

  /** The value of a hexadecimal digit of either case. */
  function HexValue(c: char): (r: Option<int>)
    ensures r.Some? ==> 0 <= r.value < 16
  {
    if '0' <= c <= '9' then Some(c as int - '0' as int)
    else if 'A' <= c <= 'F' then Some(c as int - 'A' as int + 10)
    else if 'a' <= c <= 'f' then Some(c as int - 'a' as int + 10)
    else None
  }

  /** `%XY` for one octet. */
  function PercentByte(b: Byte): (r: string)
    ensures |r| == 3 && r[0] == '%'
  {
    ['%', HexDigit(b / 16), HexDigit(b % 16)]
  }

  function PercentBytes(bs: seq<Byte>): (r: string)
    ensures |r| == 3 * |bs|
  {
    if bs == [] then "" else PercentByte(bs[0]) + PercentBytes(bs[1..])
  }

  function EncodeChar(c: char): string {
    if IsUnescaped(c) then [c] else PercentBytes(Utf8(c))
  }

  /** `encodeURIComponent(s)`. */
  function EncodeUriComponent(s: string): (r: string)
    ensures |r| >= |s|
  {
    if s == "" then "" else EncodeChar(s[0]) + EncodeUriComponent(s[1..])
  }

  /** The octet written as `%XY` at the start of `s`, if there is one. */
  function ParseByteAt(s: string): (r: Option<Byte>)
  {
    if |s| < 3 || s[0] != '%' then None
    else match (HexValue(s[1]), HexValue(s[2]))
      case (Some(h), Some(l)) => Some(16 * h + l)
      case _ => None
  }

  /** `n` consecutive `%XY` octets at the start of `s`. */
  function ParseBytes(s: string, n: nat): (r: Option<seq<Byte>>)
    ensures r.Some? ==> |r.value| == n && 3 * n <= |s|
  {
    if n == 0 then Some([])
    else match ParseByteAt(s)
      case None => None
      case Some(b) =>
        match ParseBytes(s[3..], n - 1)
        case None => None
        case Some(rest) => Some([b] + rest)
  }

  /** How many octets a UTF-8 sequence with this lead octet has, 0 when the
      octet cannot lead one. */
  function LeadLength(b: Byte): nat {
    if 0xC0 <= b < 0xE0 then 2 else if 0xE0 <= b < 0xF0 then 3 else if 0xF0 <= b < 0xF8 then 4 else 0
  }

  predicate IsContinuation(b: Byte) {
    0x80 <= b < 0xC0
  }

  /** The scalar value a multi-octet UTF-8 sequence stands for, rejecting
      overlong forms, surrogates and values past U+10FFFF. */
  function DecodeUtf8(bs: seq<Byte>): (r: Option<char>)
    requires 2 <= |bs| <= 4 && LeadLength(bs[0]) == |bs|
  {
    if exists k :: 1 <= k < |bs| && !IsContinuation(bs[k]) then None
    else if |bs| == 2 then
      var cp := (bs[0] as int - 0xC0) * 64 + (bs[1] as int - 0x80);
      if cp < 0x80 then None else Some(cp as char)
    else if |bs| == 3 then
      var cp := (bs[0] as int - 0xE0) * 4096 + (bs[1] as int - 0x80) * 64 + (bs[2] as int - 0x80);
      if cp < 0x800 || (0xD800 <= cp < 0xE000) then None else Some(cp as char)
    else
      var cp := (bs[0] as int - 0xF0) * 262144 + (bs[1] as int - 0x80) * 4096 + (bs[2] as int - 0x80) * 64 + (bs[3] as int - 0x80);
      if cp < 0x10000 || cp > 0x10FFFF then None else Some(cp as char)
  }

  function Prepend(c: char, o: Option<string>): Option<string> {
    match o
    case None => None
    case Some(t) => Some([c] + t)
  }

  /** `decodeURIComponent(s)`; `None` where it throws a `URIError`. */
  function DecodeUriComponent(s: string): (r: Option<string>)
    decreases |s|
  {
    if s == "" then Some("")
    else if s[0] != '%' then Prepend(s[0], DecodeUriComponent(s[1..]))
    else match ParseByteAt(s)
      case None => None
      case Some(b) =>
        if b < 0x80 then Prepend(b as char, DecodeUriComponent(s[3..]))
        else
          var n := LeadLength(b);
          if n == 0 then None
          else match ParseBytes(s, n)
            case None => None
            case Some(bs) =>
              match DecodeUtf8(bs)
              case None => None
              case Some(c) => Prepend(c, DecodeUriComponent(s[3 * n..]))
  }

  lemma ParsePercentByte(b: Byte, rest: string)
    ensures ParseByteAt(PercentByte(b) + rest) == Some(b)
  {
    var s := PercentByte(b) + rest;
    assert s[1] == HexDigit(b / 16) && s[2] == HexDigit(b % 16);
  }

  lemma {:induction false} ParsePercentBytes(bs: seq<Byte>, rest: string)
    ensures ParseBytes(PercentBytes(bs) + rest, |bs|) == Some(bs)
  {
    if bs != [] {
      var s := PercentBytes(bs) + rest;
      assert s == PercentByte(bs[0]) + (PercentBytes(bs[1..]) + rest);
      ParsePercentByte(bs[0], PercentBytes(bs[1..]) + rest);
      assert s[3..] == PercentBytes(bs[1..]) + rest;
      ParsePercentBytes(bs[1..], rest);
      assert [bs[0]] + bs[1..] == bs;
    }
  }

  lemma Utf8TwoRoundTrip(c: char)
    requires 0x80 <= c as int < 0x800
    ensures LeadLength(Utf8(c)[0]) == 2
    ensures DecodeUtf8(Utf8(c)) == Some(c)
  {
    var cp := c as int;
    var bs := Utf8(c);
    assert bs == [0xC0 + cp / 64, 0x80 + cp % 64];
    assert (bs[0] as int - 0xC0) * 64 + (bs[1] as int - 0x80) == cp;
  }

  lemma Utf8ThreeRoundTrip(c: char)
    requires 0x800 <= c as int < 0x10000
    ensures LeadLength(Utf8(c)[0]) == 3
    ensures DecodeUtf8(Utf8(c)) == Some(c)
  {
    var cp := c as int;
    var bs := Utf8(c);
    assert bs == [0xE0 + cp / 4096, 0x80 + (cp / 64) % 64, 0x80 + cp % 64];
    Split12(cp);
    assert (bs[0] as int - 0xE0) * 4096 + (bs[1] as int - 0x80) * 64 + (bs[2] as int - 0x80) == cp;
  }

  lemma Utf8FourRoundTrip(c: char)
    requires 0x10000 <= c as int
    ensures LeadLength(Utf8(c)[0]) == 4
    ensures DecodeUtf8(Utf8(c)) == Some(c)
  {
    var cp := c as int;
    var bs := Utf8(c);
    assert cp <= 0x10FFFF;
    assert bs == [0xF0 + cp / 262144, 0x80 + (cp / 4096) % 64, 0x80 + (cp / 64) % 64, 0x80 + cp % 64];
    Split12(cp);
    Split18(cp);
    assert (bs[0] as int - 0xF0) * 262144 + (bs[1] as int - 0x80) * 4096 == (cp / 4096) * 4096;
    assert (bs[2] as int - 0x80) * 64 + (bs[3] as int - 0x80) == cp % 4096;
  }

  /** Splitting a code point into two 6-bit digits and the rest. */
  lemma Split12(n: nat)
    ensures n / 4096 == (n / 64) / 64
    ensures n % 4096 == ((n / 64) % 64) * 64 + n % 64
  {
  }

  /** Splitting a code point into three 6-bit digits and the rest. */
  lemma Split18(n: nat)
    ensures n / 262144 == (n / 4096) / 64
    ensures n % 262144 == ((n / 4096) % 64) * 4096 + n % 4096
  {
  }

  /** Decoding the encoding of one character, followed by anything, yields
      that character in front of the decoding of the rest. */
  lemma DecodeEncodeChar(c: char, rest: string)
    ensures DecodeUriComponent(EncodeChar(c) + rest) == Prepend(c, DecodeUriComponent(rest))
  {
    var s := EncodeChar(c) + rest;
    if IsUnescaped(c) {
      assert s[0] == c && s[1..] == rest;
    } else {
      var bs := Utf8(c);
      ParsePercentBytes(bs, rest);
      assert PercentBytes(bs) == PercentByte(bs[0]) + PercentBytes(bs[1..]);
      ParsePercentByte(bs[0], PercentBytes(bs[1..]) + rest);
      assert s[0] == '%';
      assert s[3 * |bs|..] == rest;
      if c as int < 0x80 {
        assert ParseByteAt(s) == Some(c as int);
      } else if c as int < 0x800 {
        Utf8TwoRoundTrip(c);
      } else if c as int < 0x10000 {
        Utf8ThreeRoundTrip(c);
      } else {
        Utf8FourRoundTrip(c);
      }
    }
  }

  /** `decodeURIComponent(encodeURIComponent(s)) == s`. */
  lemma {:induction false} DecodeEncode(s: string)
    ensures DecodeUriComponent(EncodeUriComponent(s)) == Some(s)
  {
    if s != "" {
      DecodeEncodeChar(s[0], EncodeUriComponent(s[1..]));
      DecodeEncode(s[1..]);
      assert [s[0]] + s[1..] == s;
    }
  }

  /** Characters that need no escaping: ASCII letters, digits and `-`, the
      alphabet of generated certificate ids. */
  predicate IsIdChar(c: char) {
    ('A' <= c <= 'Z') || ('a' <= c <= 'z') || ('0' <= c <= '9') || c == '-'
  }

  /** An id over `[A-Za-z0-9-]` is its own encoding. */
  lemma {:induction false} EncodeIdIsIdentity(s: string)
    requires forall i :: 0 <= i < |s| ==> IsIdChar(s[i])
    ensures EncodeUriComponent(s) == s
  {
    if s != "" {
      EncodeIdIsIdentity(s[1..]);
      assert [s[0]] + s[1..] == s;
    }
  }

  /** The encoding never contains a character a query string reserves: no
      `&`, `=`, `#`, `+` or space survives. */
  lemma {:induction false} EncodedIsQuerySafe(s: string)
    ensures forall i :: 0 <= i < |EncodeUriComponent(s)| ==> IsUnescaped(EncodeUriComponent(s)[i]) || EncodeUriComponent(s)[i] == '%'
  {
    if s != "" {
      EncodedIsQuerySafe(s[1..]);
      PercentBytesSafe(Utf8(s[0]));
    }
  }

  lemma {:induction false} PercentBytesSafe(bs: seq<Byte>)
    ensures forall i :: 0 <= i < |PercentBytes(bs)| ==> IsUnescaped(PercentBytes(bs)[i]) || PercentBytes(bs)[i] == '%'
  {
    if bs != [] {
      PercentBytesSafe(bs[1..]);
    }
  }
}
