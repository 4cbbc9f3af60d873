/**
 * `encodeURIComponent` as the search bar applies it to a search term, and the
 * percent-decoding that reverses it for whoever reads the `query` parameter
 * back: UTF-8 bytes written as `%XY` with upper-case hexadecimal digits,
 * except for the unreserved characters.
 */
module Uri {
  import opened Wrappers

  /** The characters `encodeURIComponent` leaves as they are. */
  predicate Unreserved(c: char) {
    ('A' <= c <= 'Z') || ('a' <= c <= 'z') || ('0' <= c <= '9')
    || c == '-' || c == '_' || c == '.' || c == '!' || c == '~' || c == '*'
    || c == '\'' || c == '(' || c == ')'
  }

  /** The upper-case hexadecimal digit for `0 <= k < 16`. */
  function HexDigit(k: int): (c: char)
    requires 0 <= k < 16
    ensures ('0' <= c <= '9') || ('A' <= c <= 'F')
  {
    if k < 10 then ('0' as int + k) as char else ('A' as int + k - 10) as char
  }

  /** Every character an encoded component can contain. */
  predicate UriSafe(c: char) {
    Unreserved(c) || c == '%'
  }

  /** The UTF-8 encoding of one Unicode scalar value. */
  function Utf8(c: char): (bytes: seq<int>)
    ensures 1 <= |bytes| <= 4
    ensures forall i :: 0 <= i < |bytes| ==> 0 <= bytes[i] < 256
    ensures forall i :: 1 <= i < |bytes| ==> 0x80 <= bytes[i] < 0xC0
  {
    var cp := c as int;
    if cp < 0x80 then [cp]
    else if cp < 0x800 then [0xC0 + cp / 64, 0x80 + cp % 64]
    else if cp < 0x1_0000 then [0xE0 + cp / 64 / 64, 0x80 + cp / 64 % 64, 0x80 + cp % 64]
    else [0xF0 + cp / 64 / 64 / 64, 0x80 + cp / 64 / 64 % 64, 0x80 + cp / 64 % 64, 0x80 + cp % 64]
  }

  /** One byte as `%XY`. */
  function PctByte(b: int): (r: string)
    requires 0 <= b < 256
    ensures |r| == 3 && r[0] == '%'
  {
    ['%', HexDigit(b / 16), HexDigit(b % 16)]
  }

  function PctBytes(bytes: seq<int>): (r: string)
    requires forall i :: 0 <= i < |bytes| ==> 0 <= bytes[i] < 256
    ensures |r| == 3 * |bytes|
  {
    if bytes == [] then [] else PctByte(bytes[0]) + PctBytes(bytes[1..])
  }

  function EncodeChar(c: char): string {
    if Unreserved(c) then [c] else PctBytes(Utf8(c))
  }

  /** `encodeURIComponent(s)`. */
  function EncodeUriComponent(s: string): string {
    if s == [] then [] else EncodeChar(s[0]) + EncodeUriComponent(s[1..])
  }

  function HexValue(c: char): Option<int> {
    if '0' <= c <= '9' then Some(c as int - '0' as int)
    else if 'A' <= c <= 'F' then Some(c as int - 'A' as int + 10)
    else if 'a' <= c <= 'f' then Some(c as int - 'a' as int + 10)
    else None
  }

  /** The byte written as `%XY` at the start of `s`, in either case of hexadecimal digit. */
  function ReadByte(s: string): (r: Option<int>)
    ensures r.Some? ==> |s| >= 3 && 0 <= r.value < 256
  {
    if |s| < 3 || s[0] != '%' then None
    else match (HexValue(s[1]), HexValue(s[2]))
      case (Some(h), Some(l)) =>
        assert 0 <= h < 16 && 0 <= l < 16;
        Some(h * 16 + l)
      case _ => None
  }

  /** The low six bits of a UTF-8 continuation byte `%XY` at the start of `s`. */
  function ReadContinuation(s: string): (r: Option<int>)
    ensures r.Some? ==> |s| >= 3 && 0 <= r.value < 64
  {
    match ReadByte(s)
    case Some(b) => if 0x80 <= b < 0xC0 then Some(b - 0x80) else None
    case None => None
  }

  predicate IsScalar(cp: int) {
    (0 <= cp < 0xD800) || (0xE000 <= cp < 0x11_0000)
  }

  /** Decodes the first character of a non-empty `s`, with the number of characters it took. */
  function DecodeFirst(s: string): (r: Option<(char, nat)>)
    requires s != []
    ensures r.Some? ==> 1 <= r.value.1 <= |s|
  {
    if s[0] != '%' then Some((s[0], 1))
    else match ReadByte(s)
      case None => None
      case Some(b0) =>
        if b0 < 0x80 then Some((b0 as char, 3))
        else if 0xC0 <= b0 < 0xE0 then DecodeTwo(b0, s)
        else if 0xE0 <= b0 < 0xF0 then DecodeThree(b0, s)
        else if 0xF0 <= b0 < 0xF8 then DecodeFour(b0, s)
        else None
  }

  /** A two-byte sequence led by `b0`; the shortest form only. */
  function DecodeTwo(b0: int, s: string): (r: Option<(char, nat)>)
    requires 0xC0 <= b0 < 0xE0 && |s| >= 3
    ensures r.Some? ==> r.value.1 == 6 <= |s|
  {
    match ReadContinuation(s[3..])
    case None => None
    case Some(x1) =>
      var cp := (b0 - 0xC0) * 64 + x1;
      if 0x80 <= cp then Some((cp as char, 6)) else None
  }

  /** A three-byte sequence led by `b0`; the shortest form of a scalar value only. */
  function DecodeThree(b0: int, s: string): (r: Option<(char, nat)>)
    requires 0xE0 <= b0 < 0xF0 && |s| >= 3
    ensures r.Some? ==> r.value.1 == 9 <= |s|
  {
    match (ReadContinuation(s[3..]), if |s| >= 6 then ReadContinuation(s[6..]) else None)
    case (Some(x1), Some(x2)) =>
      var cp := ((b0 - 0xE0) * 64 + x1) * 64 + x2;
      if 0x800 <= cp && IsScalar(cp) then Some((cp as char, 9)) else None
    case _ => None
  }

  /** A four-byte sequence led by `b0`; the shortest form of a scalar value only. */
  function DecodeFour(b0: int, s: string): (r: Option<(char, nat)>)
    requires 0xF0 <= b0 < 0xF8 && |s| >= 3
    ensures r.Some? ==> r.value.1 == 12 <= |s|
  {
    match (ReadContinuation(s[3..]), if |s| >= 6 then ReadContinuation(s[6..]) else None,
           if |s| >= 9 then ReadContinuation(s[9..]) else None)
    case (Some(x1), Some(x2), Some(x3)) =>
      var cp := (((b0 - 0xF0) * 64 + x1) * 64 + x2) * 64 + x3;
      if 0x1_0000 <= cp && IsScalar(cp) then Some((cp as char, 12)) else None
    case _ => None
  }

  /** `decodeURIComponent(s)`; `None` where it throws `URIError` (malformed or overlong escapes). */
  function DecodeUriComponent(s: string): Option<string>
    decreases |s|
  {
    if s == [] then Some([])
    else match DecodeFirst(s)
      case None => None
      case Some((c, n)) =>
        match DecodeUriComponent(s[n..])
        case None => None
        case Some(t) => Some([c] + t)
  }

  lemma HexRoundTrip(b: int, t: string)
    requires 0 <= b < 256
    ensures ReadByte(PctByte(b) + t) == Some(b)
  {
    var s := PctByte(b) + t;
    assert s[1] == HexDigit(b / 16) && s[2] == HexDigit(b % 16);
    assert HexValue(HexDigit(b / 16)) == Some(b / 16);
    assert HexValue(HexDigit(b % 16)) == Some(b % 16);
  }

  /** The `k`-th `%XY` of an encoded byte sequence reads back as the `k`-th byte. */
  lemma {:induction false} ReadPctBytes(bytes: seq<int>, rest: string, k: nat)
    requires forall i :: 0 <= i < |bytes| ==> 0 <= bytes[i] < 256
    requires k < |bytes|
    ensures |PctBytes(bytes) + rest| >= 3 * k + 3
    ensures ReadByte((PctBytes(bytes) + rest)[3 * k..]) == Some(bytes[k])
  {
    var tail := PctBytes(bytes[1..]) + rest;
    assert PctBytes(bytes) + rest == PctByte(bytes[0]) + tail;
    if k == 0 {
      HexRoundTrip(bytes[0], tail);
    } else {
      ReadPctBytes(bytes[1..], rest, k - 1);
      assert (PctByte(bytes[0]) + tail)[3 * k..] == tail[3 * (k - 1)..];
    }
  }

  /** The six-bit groups of a code point put back together. */
  lemma SixBitGroups(cp: int)
    requires 0 <= cp
    ensures ((cp / 64 / 64 / 64 * 64 + cp / 64 / 64 % 64) * 64 + cp / 64 % 64) * 64 + cp % 64 == cp
    ensures (cp / 64 / 64 * 64 + cp / 64 % 64) * 64 + cp % 64 == cp
  {
    var a := cp / 64;
    var b := a / 64;
    assert cp == a * 64 + cp % 64;
    assert a == b * 64 + a % 64;
    assert b == b / 64 * 64 + b % 64;
  }

  /** The bytes of a four-byte encoding carry the code point's bits back. */
  lemma FourByteBits(c: char)
    requires 0x1_0000 <= c as int
    ensures var bs := Utf8(c);
      |bs| == 4 && 0xF0 <= bs[0] < 0xF8
      && (((bs[0] - 0xF0) * 64 + (bs[1] - 0x80)) * 64 + (bs[2] - 0x80)) * 64 + (bs[3] - 0x80) == c as int
  {
    SixBitGroups(c as int);
  }

  /** The bytes of a three-byte encoding carry the code point's bits back. */
  lemma ThreeByteBits(c: char)
    requires 0x800 <= c as int < 0x1_0000
    ensures var bs := Utf8(c);
      |bs| == 3 && 0xE0 <= bs[0] < 0xF0
      && ((bs[0] - 0xE0) * 64 + (bs[1] - 0x80)) * 64 + (bs[2] - 0x80) == c as int
  {
    SixBitGroups(c as int);
  }

  /** `%XY` at offsets 3, 6 and 9 read as continuation bytes of a multi-byte encoding. */
  lemma ReadContinuations(c: char, rest: string, k: nat)
    requires 0x80 <= c as int && 1 <= k < |Utf8(c)|
    ensures |PctBytes(Utf8(c)) + rest| >= 3 * k + 3
    ensures ReadContinuation((PctBytes(Utf8(c)) + rest)[3 * k..]) == Some(Utf8(c)[k] - 0x80)
  {
    ReadPctBytes(Utf8(c), rest, k);
  }

  lemma DecodeFirstTwoBytes(c: char, rest: string)
    requires 0x80 <= c as int < 0x800
    ensures |PctBytes(Utf8(c))| == 6
    ensures DecodeFirst(PctBytes(Utf8(c)) + rest) == Some((c, 6))
  {
    var bs, s, cp := Utf8(c), PctBytes(Utf8(c)) + rest, c as int;
    ReadPctBytes(bs, rest, 0);
    ReadContinuations(c, rest, 1);
    assert s[0] == '%';
    assert DecodeFirst(s) == DecodeTwo(bs[0], s);
    assert cp == (cp / 64) * 64 + cp % 64;
  }

  lemma DecodeFirstThreeBytes(c: char, rest: string)
    requires 0x800 <= c as int < 0x1_0000
    ensures |PctBytes(Utf8(c))| == 9
    ensures DecodeFirst(PctBytes(Utf8(c)) + rest) == Some((c, 9))
  {
    var bs, s, cp := Utf8(c), PctBytes(Utf8(c)) + rest, c as int;
    ReadPctBytes(bs, rest, 0);
    ReadContinuations(c, rest, 1);
    ReadContinuations(c, rest, 2);
    assert s[0] == '%';
    ThreeByteBits(c);
    assert DecodeFirst(s) == DecodeThree(bs[0], s);
  }

  lemma DecodeFirstFourBytes(c: char, rest: string)
    requires 0x1_0000 <= c as int
    ensures |PctBytes(Utf8(c))| == 12
    ensures DecodeFirst(PctBytes(Utf8(c)) + rest) == Some((c, 12))
  {
    var bs, s, cp := Utf8(c), PctBytes(Utf8(c)) + rest, c as int;
    ReadPctBytes(bs, rest, 0);
    ReadContinuations(c, rest, 1);
    ReadContinuations(c, rest, 2);
    ReadContinuations(c, rest, 3);
    assert s[0] == '%';
    FourByteBits(c);
    assert DecodeFirst(s) == DecodeFour(bs[0], s);
  }

  lemma DecodeFirstOneByte(c: char, rest: string)
    requires c as int < 0x80
    ensures |PctBytes(Utf8(c))| == 3
    ensures DecodeFirst(PctBytes(Utf8(c)) + rest) == Some((c, 3))
  {
    ReadPctBytes(Utf8(c), rest, 0);
  }

  /** The first character of an encoded string decodes back, consuming exactly its encoding. */
  lemma DecodeFirstEncodeChar(c: char, rest: string)
    ensures EncodeChar(c) + rest != []
    ensures DecodeFirst(EncodeChar(c) + rest) == Some((c, |EncodeChar(c)|))
  {
    var cp := c as int;
    if Unreserved(c) {
      assert (EncodeChar(c) + rest)[0] == c;
    } else if cp < 0x80 {
      DecodeFirstOneByte(c, rest);
    } else if cp < 0x800 {
      DecodeFirstTwoBytes(c, rest);
    } else if cp < 0x1_0000 {
      DecodeFirstThreeBytes(c, rest);
    } else {
      DecodeFirstFourBytes(c, rest);
    }
  }

  /** A component of unreserved characters only, such as a word of ASCII letters, is passed unchanged. */
  predicate AllUnreserved(s: string) {
    forall i :: 0 <= i < |s| ==> Unreserved(s[i])
  }

  lemma {:induction false} EncodeUnreservedIsIdentity(s: string)
    requires AllUnreserved(s)
    ensures EncodeUriComponent(s) == s
  {
    if s != [] {
      EncodeUnreservedIsIdentity(s[1..]);
      assert [s[0]] + s[1..] == s;
    }
  }

  /** Decoding an encoded component gives the component back. */
  lemma {:induction false} DecodeEncode(s: string)
    ensures DecodeUriComponent(EncodeUriComponent(s)) == Some(s)
  {
    if s != [] {
      var e := EncodeChar(s[0]);
      var tail := EncodeUriComponent(s[1..]);
      DecodeFirstEncodeChar(s[0], tail);
      assert (e + tail)[|e|..] == tail;
      DecodeEncode(s[1..]);
      assert [s[0]] + s[1..] == s;
    }
  }

  lemma {:induction false} PctBytesSafe(bytes: seq<int>)
    requires forall i :: 0 <= i < |bytes| ==> 0 <= bytes[i] < 256
    ensures forall i :: 0 <= i < |PctBytes(bytes)| ==> UriSafe(PctBytes(bytes)[i])
  {
    if bytes != [] {
      PctBytesSafe(bytes[1..]);
      var p := PctByte(bytes[0]);
      assert forall i :: 0 <= i < 3 ==> UriSafe(p[i]);
    }
  }

  /**
   * An encoded component holds only unreserved characters and `%`: none of the
   * `&`, `=`, `#`, `+` or spaces that would end or alter a query parameter.
   */
  lemma {:induction false} EncodeIsUriSafe(s: string)
    ensures forall i :: 0 <= i < |EncodeUriComponent(s)| ==> UriSafe(EncodeUriComponent(s)[i])
  {
    if s != [] {
      EncodeIsUriSafe(s[1..]);
      if !Unreserved(s[0]) {
        PctBytesSafe(Utf8(s[0]));
      }
    }
  }
}
