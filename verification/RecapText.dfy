/**
 * The capability review's own text decoder for ReCap payloads: base64url
 * groups to bytes, then UTF-8 (section 3 of RFC 3629) to UTF-16 code units.
 */
module RecapText {
  import opened Wrappers
  import opened Bytes
  import B = Base64Url

  /** A Unicode scalar value: a code point that is not a surrogate. */
  type Scalar = x: int | 0 <= x < 0xD800 || 0xE000 <= x < 0x110000

  // ---- what the encodings are ----

  function Utf8Char(c: Scalar): seq<Byte> {
    if c < 0x80 then [c]
    else if c < 0x800 then [0xC0 + c / 64, 0x80 + c % 64]
    else if c < 0x10000 then [0xE0 + c / 4096, 0x80 + c / 64 % 64, 0x80 + c % 64]
    else [0xF0 + c / 262144, 0x80 + c / 4096 % 64, 0x80 + c / 64 % 64, 0x80 + c % 64]
  }

  function Utf16Char(c: Scalar): seq<Unit> {
    if c < 0x10000 then [c] else [0xD800 + (c - 0x10000) / 1024, 0xDC00 + (c - 0x10000) % 1024]
  }

  function Utf8(text: seq<Scalar>): seq<Byte> {
    if text == [] then [] else Utf8Char(text[0]) + Utf8(text[1..])
  }

  function Utf16(text: seq<Scalar>): seq<Unit> {
    if text == [] then [] else Utf16Char(text[0]) + Utf16(text[1..])
  }

  // ---- bytes to code units ----

  /** `String.fromCharCode` keeps the low 16 bits. */
  function FromCharCode(code: int): Unit {
    code % 0x10000
  }

  datatype Char = Char(units: seq<Unit>, length: nat)

  /** One character off the front, by its lead byte; continuation bytes are masked, not checked. */
  function FirstChar(bytes: seq<Byte>): (r: Option<Char>)
    requires bytes != []
    ensures r.Some? ==> 0 < r.value.length <= |bytes|
  {
    var b0 := bytes[0] as int;
    if b0 < 0x80 then Some(Char([b0], 1))
    else if 0xC0 <= b0 < 0xE0 then
      if |bytes| < 2 then None else Some(Char([FromCharCode(b0 % 32 * 64 + bytes[1] as int % 64)], 2))
    else if 0xE0 <= b0 < 0xF0 then
      if |bytes| < 3 then None
      else Some(Char([FromCharCode(b0 % 16 * 4096 + bytes[1] as int % 64 * 64 + bytes[2] as int % 64)], 3))
    else if 0xF0 <= b0 < 0xF8 then
      if |bytes| < 4 then None
      else
        var cp := b0 % 8 * 262144 + bytes[1] as int % 64 * 4096 + bytes[2] as int % 64 * 64 + bytes[3] as int % 64 - 0x10000;
        Some(Char([FromCharCode(0xD800 + cp / 1024), FromCharCode(0xDC00 + cp % 1024)], 4))
    else None
  }

  function Prepend<T>(front: seq<T>, rest: Option<seq<T>>): Option<seq<T>> {
    match rest
    case None => None
    case Some(more) => Some(front + more)
  }

  function Units(bytes: seq<Byte>): Option<seq<Unit>> {
    if bytes == [] then Some([])
    else
      match FirstChar(bytes)
      case None => None
      case Some(first) => Prepend(first.units, Units(bytes[first.length..]))
  }

  lemma PrependNothing<T>(rest: Option<seq<T>>)
    ensures Prepend([], rest) == rest
  {
    if rest.Some? {
      assert [] + rest.value == rest.value;
    }
  }

  lemma PrependTwice<T>(a: seq<T>, b: seq<T>, rest: Option<seq<T>>)
    ensures Prepend(a, Prepend(b, rest)) == Prepend(a + b, rest)
  {
    if rest.Some? {
      assert a + (b + rest.value) == a + b + rest.value;
    }
  }

  method Utf8BytesToString(bytes: seq<Byte>) returns (out: Option<seq<Unit>>)
    ensures out == Units(bytes)
  {
    var units: seq<Unit> := [];
    var i := 0;
    assert bytes[0..] == bytes;
    PrependNothing(Units(bytes));
    while i < |bytes|
      invariant 0 <= i <= |bytes|
      invariant Units(bytes) == Prepend(units, Units(bytes[i..]))
    {
      var first := FirstChar(bytes[i..]);
      if first.None? {
        return None;
      }
      assert bytes[i..][first.value.length..] == bytes[i + first.value.length..];
      PrependTwice(units, first.value.units, Units(bytes[i + first.value.length..]));
      units := units + first.value.units;
      i := i + first.value.length;
    }
    assert bytes[i..] == [] && units + [] == units;
    out := Some(units);
  }

  /** Masking a lead or continuation byte gives back the bits that were put in it. */
  lemma Masked(mark: int, m: int, bits: int)
    requires 0 <= bits < m && m > 0 && mark % m == 0
    ensures (mark + bits) % m == bits
  {
    B.Divide(mark + bits, m, mark / m, bits);
  }

  lemma TwoBytes(c: Scalar, rest: seq<Byte>)
    requires 0x80 <= c < 0x800
    ensures FirstChar(Utf8Char(c) + rest) == Some(Char([c], 2))
  {
    Masked(0xC0, 32, c / 64);
    Masked(0x80, 64, c % 64);
  }

  lemma ThreeBytes(c: Scalar, rest: seq<Byte>)
    requires 0x800 <= c < 0x10000
    ensures FirstChar(Utf8Char(c) + rest) == Some(Char([c], 3))
  {
    Masked(0xE0, 16, c / 4096);
    Masked(0x80, 64, c / 64 % 64);
    Masked(0x80, 64, c % 64);
    assert c / 4096 == c / 64 / 64;
  }

  lemma FourParts(a: int, b: int, d: int, e: int, rest: seq<Byte>)
    requires 0 <= a < 8 && 0 <= b < 64 && 0 <= d < 64 && 0 <= e < 64
    requires 0x10000 <= a * 262144 + b * 4096 + d * 64 + e < 0x110000
    ensures FirstChar([0xF0 + a, 0x80 + b, 0x80 + d, 0x80 + e] + rest)
         == Some(Char(Utf16Char(a * 262144 + b * 4096 + d * 64 + e), 4))
  {
    Masked(0xF0, 8, a);
    Masked(0x80, 64, b);
    Masked(0x80, 64, d);
    Masked(0x80, 64, e);
  }

  lemma FourBytes(c: Scalar, rest: seq<Byte>)
    requires 0x10000 <= c
    ensures FirstChar(Utf8Char(c) + rest) == Some(Char(Utf16Char(c), 4))
  {
    var a, b, d, e := c / 262144, c / 4096 % 64, c / 64 % 64, c % 64;
    B.Divide(c, 4096, c / 64 / 64, c / 64 % 64 * 64 + c % 64);
    B.Divide(c, 262144, c / 4096 / 64, c / 4096 % 64 * 4096 + c % 4096);
    assert c == c / 64 * 64 + e && c / 64 == c / 4096 * 64 + d && c / 4096 == a * 64 + b;
    FourParts(a, b, d, e, rest);
  }

  lemma FirstCharOfScalar(c: Scalar, rest: seq<Byte>)
    ensures FirstChar(Utf8Char(c) + rest) == Some(Char(Utf16Char(c), |Utf8Char(c)|))
  {
    if c < 0x80 {
    } else if c < 0x800 {
      TwoBytes(c, rest);
    } else if c < 0x10000 {
      ThreeBytes(c, rest);
    } else {
      FourBytes(c, rest);
    }
  }

  /** The decoder inverts UTF-8: every text comes back as its UTF-16 code units, surrogate pairs included. */
  lemma {:induction false} UnitsOfUtf8(text: seq<Scalar>)
    ensures Units(Utf8(text)) == Some(Utf16(text))
  {
    if text != [] {
      FirstCharOfScalar(text[0], Utf8(text[1..]));
      assert Utf8(text)[|Utf8Char(text[0])|..] == Utf8(text[1..]);
      UnitsOfUtf8(text[1..]);
    }
  }

  // ---- base64url groups to bytes ----

  /** Two to four characters of a group; a `=` in third or fourth place ends the text. */
  datatype Quad = Bad | Last(bytes: seq<Byte>) | Full(bytes: seq<Byte>)

  function QuadOf(c0: char, c1: char, c2: char, c3: char): Quad {
    var v0, v1, v2, v3 := B.IndexOf(c0), B.IndexOf(c1), B.IndexOf(c2), B.IndexOf(c3);
    if v0.None? || v1.None? then Bad
    else
      var first: Byte := v0.value as int * 4 + v1.value as int / 16;
      if c2 == '=' then Last([first])
      else if v2.None? then Bad
      else
        var second: Byte := v1.value as int % 16 * 16 + v2.value as int / 4;
        if c3 == '=' then Last([first, second])
        else if v3.None? then Bad
        else Full([first, second, v2.value as int % 4 * 64 + v3.value as int])
  }

  /** Whole groups only: padded text has no others. */
  function Quads(b64: string): Option<seq<Byte>> {
    if |b64| < 4 then Some([])
    else
      match QuadOf(b64[0], b64[1], b64[2], b64[3])
      case Bad => None
      case Last(bytes) => Some(bytes)
      case Full(bytes) => Prepend(bytes, Quads(b64[4..]))
  }

  /** The alphabet made plain and the padding put back; a length of one over a multiple of four is refused. */
  function Padded(input: string): (b64: Option<string>)
    ensures b64.Some? ==> |b64.value| % 4 == 0
  {
    var plain := B.Each(input, B.FromUrl);
    if |plain| % 4 == 2 then Some(plain + "==")
    else if |plain| % 4 == 3 then Some(plain + "=")
    else if |plain| % 4 == 0 then Some(plain)
    else None
  }

  function DecodedText(input: string): Option<seq<Unit>> {
    match Padded(input)
    case None => None
    case Some(b64) =>
      match Quads(b64)
      case None => None
      case Some(bytes) => Units(bytes)
  }

  lemma QuadsStep(b64: string, i: nat, bytes: seq<Byte>, quad: Quad)
    requires i + 4 <= |b64| && quad == QuadOf(b64[i], b64[i + 1], b64[i + 2], b64[i + 3])
    ensures Prepend(bytes, Quads(b64[i..])) ==
            match quad
            case Bad => None
            case Last(more) => Some(bytes + more)
            case Full(more) => Prepend(bytes + more, Quads(b64[i + 4..]))
  {
    var here := b64[i..];
    assert here[4..] == b64[i + 4..];
    assert here[0] == b64[i] && here[1] == b64[i + 1] && here[2] == b64[i + 2] && here[3] == b64[i + 3];
    if quad.Full? {
      PrependTwice(bytes, quad.bytes, Quads(b64[i + 4..]));
    }
  }

  method DecodeBase64Url(input: string) returns (text: Option<seq<Unit>>)
    ensures text == DecodedText(input)
  {
    var padded := Padded(input);
    if padded.None? {
      return None;
    }
    var b64 := padded.value;
    var bytes: seq<Byte> := [];
    var i := 0;
    var ended := false;
    ghost var left := |b64| / 4;
    assert b64[0..] == b64;
    PrependNothing(Quads(b64));
    while i < |b64| && !ended
      invariant 0 <= i && 0 <= left && |b64| == i + 4 * left
      invariant Quads(b64) == if ended then Some(bytes) else Prepend(bytes, Quads(b64[i..]))
      decreases left, if ended then 0 else 1
    {
      var quad := QuadOf(b64[i], b64[i + 1], b64[i + 2], b64[i + 3]);
      QuadsStep(b64, i, bytes, quad);
      match quad {
        case Bad => return None;
        case Last(more) =>
          bytes := bytes + more;
          ended := true;
        case Full(more) =>
          bytes := bytes + more;
          i := i + 4;
          left := left - 1;
      }
    }
    assert !ended ==> b64[i..] == [] && bytes + [] == bytes;
    text := Utf8BytesToString(bytes);
  }

  // ---- the whole decoder inverts base64url of UTF-8 ----

  lemma SymbolsRead(d: B.Sextet)
    ensures B.IndexOf(B.Symbol(d)) == Some(d) && B.Symbol(d) != '='
  {
  }

  /** Three bytes cut into four sextets and put together again. */
  lemma Reassembled(a: int, b: int, c: int)
    requires 0 <= a < 256 && 0 <= b < 256 && 0 <= c < 256
    ensures a / 4 * 4 + (a % 4 * 16 + b / 16) / 16 == a
    ensures (a % 4 * 16 + b / 16) % 16 * 16 + (b % 16 * 4 + c / 64) / 4 == b
    ensures (b % 16 * 4 + c / 64) % 4 * 64 + c % 64 == c
  {
    B.Divide(a % 4 * 16 + b / 16, 16, a % 4, b / 16);
    B.Divide(b % 16 * 4 + c / 64, 4, b % 16, c / 64);
  }

  lemma FullGroupReads(bytes: seq<Byte>)
    requires |bytes| == 3
    ensures var g := B.Group(bytes);
      QuadOf(B.Symbol(g[0]), B.Symbol(g[1]), B.Symbol(g[2]), B.Symbol(g[3])) == Full(bytes)
  {
    var g := B.Group(bytes);
    SymbolsRead(g[0]);
    SymbolsRead(g[1]);
    SymbolsRead(g[2]);
    SymbolsRead(g[3]);
    Reassembled(bytes[0], bytes[1], bytes[2]);
    assert bytes == [bytes[0], bytes[1], bytes[2]];
  }

  lemma CutGroupReads(bytes: seq<Byte>)
    requires 1 <= |bytes| <= 2
    ensures var g := B.Group(bytes);
      QuadOf(B.Symbol(g[0]), B.Symbol(g[1]), if |bytes| == 1 then '=' else B.Symbol(g[2]), '=') == Last(bytes)
  {
    var g := B.Group(bytes);
    SymbolsRead(g[0]);
    SymbolsRead(g[1]);
    if |bytes| == 2 {
      SymbolsRead(g[2]);
      assert bytes == [bytes[0], bytes[1]];
    } else {
      assert bytes == [bytes[0]];
    }
  }

  function PaddedLetters(bytes: seq<Byte>): string {
    B.Letters(B.Sextets(bytes)) + B.Equals(B.Missing(|bytes|))
  }

  lemma {:induction false} QuadsRead(bytes: seq<Byte>)
    ensures Quads(PaddedLetters(bytes)) == Some(bytes)
  {
    if bytes == [] {
    } else if |bytes| < 3 {
      ShortText(bytes);
      CutGroupReads(bytes);
    } else {
      var front, rest := bytes[..3], bytes[3..];
      LongText(bytes);
      FullGroupReads(front);
      QuadsRead(rest);
      assert bytes == front + rest;
    }
  }

  lemma ShortText(bytes: seq<Byte>)
    requires 1 <= |bytes| <= 2
    ensures var g := B.Group(bytes);
      PaddedLetters(bytes) == [B.Symbol(g[0]), B.Symbol(g[1]), if |bytes| == 1 then '=' else B.Symbol(g[2]), '=']
  {
  }

  lemma LongText(bytes: seq<Byte>)
    requires |bytes| >= 3
    ensures var g, text := B.Group(bytes[..3]), PaddedLetters(bytes);
      && |text| >= 4 && text[4..] == PaddedLetters(bytes[3..])
      && text[0] == B.Symbol(g[0]) && text[1] == B.Symbol(g[1]) && text[2] == B.Symbol(g[2]) && text[3] == B.Symbol(g[3])
  {
    B.LettersAppend(B.Group(bytes[..3]), B.Sextets(bytes[3..]));
    DropFour(B.Letters(B.Group(bytes[..3])), B.Letters(B.Sextets(bytes[3..])), B.Equals(B.Missing(|bytes| - 3)));
  }

  lemma DropFour(head: string, tail: string, padding: string)
    requires |head| == 4
    ensures (head + tail + padding)[4..] == tail + padding
    ensures forall k :: 0 <= k < 4 ==> (head + tail + padding)[k] == head[k]
  {
  }

  lemma PaddedEncoding(bytes: seq<Byte>)
    ensures Padded(B.Encoded(bytes)) == Some(PaddedLetters(bytes))
  {
    B.RequiredPadding(bytes);
    var plain := B.Letters(B.Sextets(bytes));
    assert B.Each(B.Encoded(bytes), B.FromUrl) == plain;
    assert B.Equals(0) == "" && B.Equals(1) == "=" && B.Equals(2) == "==";
    assert plain + "" == plain;
  }

  /** Every text: base64url of its UTF-8 decodes to exactly its UTF-16 code units. */
  lemma DecoderInverts(text: seq<Scalar>)
    ensures DecodedText(B.Encoded(Utf8(text))) == Some(Utf16(text))
  {
    PaddedEncoding(Utf8(text));
    QuadsRead(Utf8(text));
    UnitsOfUtf8(text);
  }
}
