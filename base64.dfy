/** The browser's `btoa` and `atob`: base64 with the alphabet and `=` padding
    of section 4 of RFC 4648, over "binary strings" whose characters carry
    one byte each. */
module Base64 {
  import opened Common

  type Byte = b: int | 0 <= b < 256

  /** A sextet, the value one base64 character carries. */
  type Sextet = s: int | 0 <= s < 64

  /** The character for a sextet (Table 1 of RFC 4648). */
  function SextetChar(s: Sextet): (c: char)
    ensures IsBase64Char(c) && SextetValue(c) == s
  {
    if s < 26 then ('A' as int + s) as char
    else if s < 52 then ('a' as int + s - 26) as char
    else if s < 62 then ('0' as int + s - 52) as char
    else if s == 62 then '+'
    else '/'
  }

  predicate IsBase64Char(c: char) {
    ('A' <= c <= 'Z') || ('a' <= c <= 'z') || ('0' <= c <= '9') || c == '+' || c == '/'
  }

  function SextetValue(c: char): (s: Sextet)
    requires IsBase64Char(c)
  {
    if 'A' <= c <= 'Z' then c as int - 'A' as int
    else if 'a' <= c <= 'z' then c as int - 'a' as int + 26
    else if '0' <= c <= '9' then c as int - '0' as int + 52
    else if c == '+' then 62
    else 63
  }

  /** Three bytes as four characters. */
  function EncodeTriple(b0: Byte, b1: Byte, b2: Byte): (r: string)
    ensures |r| == 4
  {
    [SextetChar(b0 / 4), SextetChar((b0 % 4) * 16 + b1 / 16),
     SextetChar((b1 % 16) * 4 + b2 / 64), SextetChar(b2 % 64)]
  }

  /** The base64 text of a byte sequence, padded with `=` to a multiple of four. */
  function EncodeBytes(b: seq<Byte>): string
    decreases |b|
  {
    if |b| == 0 then ""
    else if |b| == 1 then EncodeSingle(b[0])
    else if |b| == 2 then EncodePair(b[0], b[1])
    else EncodeTriple(b[0], b[1], b[2]) + EncodeBytes(b[3..])
  }

  /** A last byte alone, padded with `==`. */
  function EncodeSingle(b0: Byte): string {
    [SextetChar(b0 / 4), SextetChar((b0 % 4) * 16), '=', '=']
  }

  /** Two last bytes, padded with `=`. */
  function EncodePair(b0: Byte, b1: Byte): string {
    [SextetChar(b0 / 4), SextetChar((b0 % 4) * 16 + b1 / 16), SextetChar((b1 % 16) * 4), '=']
  }

  /** Four characters for every started group of three bytes. */
  lemma {:induction false} EncodedLength(b: seq<Byte>)
    ensures |EncodeBytes(b)| == 4 * ((|b| + 2) / 3)
    decreases |b|
  {
    if |b| >= 3 {
      EncodedLength(b[3..]);
      assert (|b| + 2) / 3 == (|b[3..]| + 2) / 3 + 1;
    }
  }

  lemma WholeGroupMore(n: nat)
    requires n % 4 == 0
    ensures (4 + n) % 4 == 0
  {
  }

  /** The text is whole groups of four. */
  lemma {:induction false} EncodedWhole(b: seq<Byte>)
    ensures |EncodeBytes(b)| % 4 == 0
    decreases |b|
  {
    if |b| >= 3 {
      EncodedWhole(b[3..]);
      WholeGroupMore(|EncodeBytes(b[3..])|);
    }
  }

  /** Four characters back to bytes; the last group of the text may end in
      `=` or `==`, and the bits that padding leaves over are dropped. */
  function DecodeQuad(q: string, last: bool): (r: Option<seq<Byte>>)
    requires |q| == 4
  {
    if !IsBase64Char(q[0]) || !IsBase64Char(q[1]) then None
    else
      var s0, s1 := SextetValue(q[0]), SextetValue(q[1]);
      var first: Byte := s0 * 4 + s1 / 16;
      if last && q[2] == '=' && q[3] == '=' then Some([first])
      else if !IsBase64Char(q[2]) then None
      else
        var s2 := SextetValue(q[2]);
        var second: Byte := (s1 % 16) * 16 + s2 / 4;
        if last && q[3] == '=' then Some([first, second])
        else if !IsBase64Char(q[3]) then None
        else
          var s3 := SextetValue(q[3]);
          Some([first, second, (s2 % 4) * 64 + s3])
  }

  /** Base64 text back to bytes, or `None` when it is not base64 text. */
  function DecodeBytes(s: string): (r: Option<seq<Byte>>)
    decreases |s|
  {
    if |s| % 4 != 0 then None
    else if s == "" then Some([])
    else
      match DecodeQuad(s[..4], |s| == 4)
      case None => None
      case Some(head) =>
        match DecodeBytes(s[4..])
        case None => None
        case Some(tail) => Some(head + tail)
  }

  lemma TripleRoundTrip(b0: Byte, b1: Byte, b2: Byte, last: bool)
    ensures DecodeQuad(EncodeTriple(b0, b1, b2), last) == Some([b0, b1, b2])
  {
    var q := EncodeTriple(b0, b1, b2);
    var s0, s1, s2, s3 := b0 / 4, (b0 % 4) * 16 + b1 / 16, (b1 % 16) * 4 + b2 / 64, b2 % 64;
    assert SextetValue(q[0]) == s0;
    assert SextetValue(q[1]) == s1;
    assert SextetValue(q[2]) == s2;
    assert SextetValue(q[3]) == s3;
    SextetsCarryBytes(b0, b1, b2);
  }

  /** The four sextets of a triple give its three bytes back. */
  lemma SextetsCarryBytes(b0: Byte, b1: Byte, b2: Byte)
    ensures var s1, s2 := (b0 % 4) * 16 + b1 / 16, (b1 % 16) * 4 + b2 / 64;
            (b0 / 4) * 4 + s1 / 16 == b0 && (s1 % 16) * 16 + s2 / 4 == b1 && (s2 % 4) * 64 + b2 % 64 == b2
  {
    var s1, s2 := (b0 % 4) * 16 + b1 / 16, (b1 % 16) * 4 + b2 / 64;
    assert s1 / 16 == b0 % 4 && s1 % 16 == b1 / 16;
    assert s2 / 4 == b1 % 16 && s2 % 4 == b2 / 64;
  }

  lemma SingleRoundTrip(b0: Byte)
    ensures |EncodeSingle(b0)| == 4 && DecodeQuad(EncodeSingle(b0), true) == Some([b0])
  {
    var q := EncodeSingle(b0);
    assert SextetValue(q[0]) == b0 / 4;
    assert SextetValue(q[1]) == (b0 % 4) * 16;
  }

  lemma PairRoundTrip(b0: Byte, b1: Byte)
    ensures |EncodePair(b0, b1)| == 4 && DecodeQuad(EncodePair(b0, b1), true) == Some([b0, b1])
  {
    var q := EncodePair(b0, b1);
    var s1 := (b0 % 4) * 16 + b1 / 16;
    assert SextetValue(q[0]) == b0 / 4;
    assert SextetValue(q[1]) == s1;
    assert SextetValue(q[2]) == (b1 % 16) * 4;
    assert q[2] != '=';
    assert s1 % 16 == b1 / 16;
    assert ((b1 % 16) * 4) / 4 == b1 % 16;
  }

  /** Decoding the encoding gives the bytes back. */
  lemma {:induction false} DecodeEncode(b: seq<Byte>)
    ensures DecodeBytes(EncodeBytes(b)) == Some(b)
    decreases |b|
  {
    if |b| == 1 {
      assert b == [b[0]];
      DecodeEncodeSingle(b[0]);
    } else if |b| == 2 {
      assert b == [b[0], b[1]];
      DecodeEncodePair(b[0], b[1]);
    } else if |b| >= 3 {
      DecodeEncode(b[3..]);
      assert b == [b[0], b[1], b[2]] + b[3..];
      DecodeEncodeGroup(b[0], b[1], b[2], b[3..]);
    }
  }

  /** A group of three bytes in front of a text that round-trips. */
  lemma DecodeEncodeGroup(b0: Byte, b1: Byte, b2: Byte, tail: seq<Byte>)
    requires DecodeBytes(EncodeBytes(tail)) == Some(tail)
    ensures DecodeBytes(EncodeBytes([b0, b1, b2] + tail)) == Some([b0, b1, b2] + tail)
  {
    var b := [b0, b1, b2] + tail;
    assert b[0] == b0 && b[1] == b1 && b[2] == b2 && b[3..] == tail;
    var e := EncodeBytes(b);
    var rest := EncodeBytes(tail);
    var triple := EncodeTriple(b0, b1, b2);
    assert e == EncodeTriple(b[0], b[1], b[2]) + EncodeBytes(b[3..]);
    assert e == triple + rest;
    assert e[..4] == triple && e[4..] == rest;
    assert |e| == 4 + |rest|;
    TripleRoundTrip(b0, b1, b2, |e| == 4);
    EncodedWhole(tail);
    WholeGroupMore(|rest|);
    DecodeGroups(e, [b0, b1, b2], tail);
  }

  /** A text of one group more decodes to that group's bytes followed by
      the rest. */
  lemma DecodeGroups(e: string, head: seq<Byte>, tail: seq<Byte>)
    requires |e| >= 4 && |e| % 4 == 0
    requires DecodeQuad(e[..4], |e| == 4) == Some(head)
    requires DecodeBytes(e[4..]) == Some(tail)
    ensures DecodeBytes(e) == Some(head + tail)
  {
  }

  /** A text of a single group decodes to that group's bytes. */
  lemma DecodeSingleGroup(e: string, head: seq<Byte>)
    requires |e| == 4 && DecodeQuad(e, true) == Some(head)
    ensures DecodeBytes(e) == Some(head)
  {
    assert e[..4] == e;
    assert e[4..] == "";
    assert head + [] == head;
  }

  /** A last byte alone makes one group padded with `==`. */
  lemma DecodeEncodeSingle(b0: Byte)
    ensures DecodeBytes(EncodeBytes([b0])) == Some([b0])
  {
    assert EncodeBytes([b0]) == EncodeSingle(b0);
    SingleRoundTrip(b0);
    DecodeSingleGroup(EncodeSingle(b0), [b0]);
  }

  /** Two last bytes make one group padded with `=`. */
  lemma DecodeEncodePair(b0: Byte, b1: Byte)
    ensures DecodeBytes(EncodeBytes([b0, b1])) == Some([b0, b1])
  {
    assert EncodeBytes([b0, b1]) == EncodePair(b0, b1);
    PairRoundTrip(b0, b1);
    DecodeSingleGroup(EncodePair(b0, b1), [b0, b1]);
  }

  /** A binary string: every character a byte value. */
  predicate IsBinaryString(s: string) {
    forall i :: 0 <= i < |s| ==> s[i] as int < 256
  }

  /** The character codes of a binary string. */
  function CharCodes(s: string): (r: seq<Byte>)
    requires IsBinaryString(s)
    ensures |r| == |s| && forall i :: 0 <= i < |s| ==> r[i] == s[i] as int
  {
    seq(|s|, i requires 0 <= i < |s| => s[i] as int as Byte)
  }

  /** `String.fromCharCode` applied to each byte. */
  function FromCharCodes(b: seq<Byte>): (r: string)
    ensures |r| == |b| && IsBinaryString(r)
    ensures forall i :: 0 <= i < |b| ==> r[i] as int == b[i]
  {
    seq(|b|, i requires 0 <= i < |b| => b[i] as char)
  }

  lemma CharCodesFromCharCodes(b: seq<Byte>)
    ensures CharCodes(FromCharCodes(b)) == b
  {
  }

  const BtoaError := "The string to be encoded contains characters outside of the Latin1 range."
  const AtobError := "The string to be decoded is not correctly encoded."

  /** `btoa`: base64 of a binary string; any character above U+00FF throws. */
  function Btoa(s: string): (r: Result<string>)
    ensures r.Ok? <==> IsBinaryString(s)
    ensures r.Ok? ==> r.value == EncodeBytes(CharCodes(s))
    ensures r.Err? ==> r.error == BtoaError
  {
    if IsBinaryString(s) then Ok(EncodeBytes(CharCodes(s))) else Err(BtoaError)
  }

  /** `atob`: the binary string that base64 text stands for. */
  function Atob(s: string): (r: Result<string>)
    ensures r.Ok? <==> DecodeBytes(s).Some?
    ensures r.Ok? ==> IsBinaryString(r.value) && CharCodes(r.value) == DecodeBytes(s).value
    ensures r.Err? ==> r.error == AtobError
  {
    match DecodeBytes(s)
    case Some(b) => CharCodesFromCharCodes(b); Ok(FromCharCodes(b))
    case None => Err(AtobError)
  }

  /** `atob(btoa(s)) == s` for every binary string. */
  lemma AtobBtoa(s: string)
    requires IsBinaryString(s)
    ensures Btoa(s).Ok? && Atob(Btoa(s).value) == Ok(s)
  {
    DecodeEncode(CharCodes(s));
    assert FromCharCodes(CharCodes(s)) == s;
  }
}
