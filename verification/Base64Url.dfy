/**
 * base64url (section 5 of RFC 4648) as the SDK core writes it by hand, with a
 * decoder whose accumulator is a 32-bit integer that is never masked, and the
 * Capacitor SDK's canonical-header check on top of it.
 */
module Base64Url {
  import opened Wrappers
  import opened Bytes

  type Sextet = x: int | 0 <= x < 64

  // ---- characters ----

  const BASE64_CHARS: string :=
    "ABCDEFGHIJKLM" + "NOPQRSTUVWXYZ" + "abcdefghijklm" + "nopqrstuvwxyz" + "0123456789" + "+/"

  /** The base64 alphabet by ranges. */
  function Symbol(d: Sextet): char {
    if d < 26 then 'A' + d as char
    else if d < 52 then 'a' + (d - 26) as char
    else if d < 62 then '0' + (d - 52) as char
    else if d == 62 then '+' else '/'
  }

  /** `BASE64_CHARS.indexOf`. */
  function IndexOf(c: char): Option<Sextet> {
    if 'A' <= c <= 'Z' then Some(c as int - 'A' as int)
    else if 'a' <= c <= 'z' then Some(c as int - 'a' as int + 26)
    else if '0' <= c <= '9' then Some(c as int - '0' as int + 52)
    else if c == '+' then Some(62)
    else if c == '/' then Some(63)
    else None
  }

  /** `Symbol` reads the alphabet string. */
  lemma AlphabetAt(d: Sextet)
    ensures |BASE64_CHARS| == 64 && BASE64_CHARS[d] == Symbol(d)
  {
  }

  function ToUrl(c: char): char {
    if c == '+' then '-' else if c == '/' then '_' else c
  }

  function FromUrl(c: char): char {
    if c == '-' then '+' else if c == '_' then '/' else c
  }

  function Each(s: string, f: char -> char): (r: string)
    ensures |r| == |s| && forall i :: 0 <= i < |s| ==> r[i] == f(s[i])
  {
    seq(|s|, i requires 0 <= i < |s| => f(s[i]))
  }

  function StripPadding(s: string): string {
    if s != "" && s[|s| - 1] == '=' then StripPadding(s[..|s| - 1]) else s
  }

  // ---- sextets as numbers ----

  /** The number a big-endian string of sextets spells. */
  function Number64(digits: seq<Sextet>): nat {
    if digits == [] then 0 else 64 * Number64(digits[..|digits| - 1]) + digits[|digits| - 1]
  }

  /** One group of section 4 of RFC 4648: up to three bytes, cut short by as many sextets as bytes are missing. */
  function Group(bytes: seq<Byte>): (digits: seq<Sextet>)
    requires 1 <= |bytes| <= 3
    ensures |digits| == |bytes| + 1
  {
    if |bytes| == 1 then [bytes[0] / 4, bytes[0] % 4 * 16]
    else if |bytes| == 2 then [bytes[0] / 4, bytes[0] % 4 * 16 + bytes[1] / 16, bytes[1] % 16 * 4]
    else [bytes[0] / 4, bytes[0] % 4 * 16 + bytes[1] / 16, bytes[1] % 16 * 4 + bytes[2] / 64, bytes[2] % 64]
  }

  /** The bits of the last sextet that belong to no byte. */
  function Over(n: nat): (bits: int)
    ensures bits in {0, 2, 4}
  {
    if n == 0 then 0 else if n == 1 then 4 else if n == 2 then 2 else Over(n - 3)
  }

  /** The `=` that fill up the last group. */
  function Missing(n: nat): (k: nat)
    ensures k == (3 - n % 3) % 3
  {
    if n == 0 then 0 else if n < 3 then 3 - n else Missing(n - 3)
  }

  function Sextets(bytes: seq<Byte>): (digits: seq<Sextet>)
    ensures 6 * |digits| == 8 * |bytes| + Over(|bytes|)
  {
    if bytes == [] then [] else if |bytes| < 3 then Group(bytes) else Group(bytes[..3]) + Sextets(bytes[3..])
  }

  function Text(digits: seq<Sextet>): (s: string)
    ensures |s| == |digits| && forall i :: 0 <= i < |s| ==> s[i] == ToUrl(Symbol(digits[i]))
  {
    seq(|digits|, i requires 0 <= i < |digits| => ToUrl(Symbol(digits[i])))
  }

  function Encoded(bytes: seq<Byte>): string {
    Text(Sextets(bytes))
  }

  /** The four sextets of a 24-bit group, cut out of it by shifts and masks. */
  function Quad(b0: Byte, b1: Byte, b2: Byte): (digits: seq<Sextet>)
    ensures digits == [b0 / 4, b0 % 4 * 16 + b1 / 16, b1 % 16 * 4 + b2 / 64, b2 % 64]
  {
    var triplet: int := b0 as int * 65536 + b1 as int * 256 + b2 as int;
    Shifts(b0, b1, b2);
    [triplet / 262144 % 64, triplet / 4096 % 64, triplet / 64 % 64, triplet % 64]
  }

  lemma Shifts(b0: int, b1: int, b2: int)
    requires 0 <= b0 < 256 && 0 <= b1 < 256 && 0 <= b2 < 256
    ensures var triplet := b0 * 65536 + b1 * 256 + b2;
      && triplet / 262144 % 64 == b0 / 4
      && triplet / 4096 % 64 == b0 % 4 * 16 + b1 / 16
      && triplet / 64 % 64 == b1 % 16 * 4 + b2 / 64
      && triplet % 64 == b2 % 64
  {
    var triplet := b0 * 65536 + b1 * 256 + b2;
    Divide(triplet, 262144, b0 / 4, b0 % 4 * 65536 + b1 * 256 + b2);
    Divide(triplet, 4096, b0 * 16 + b1 / 16, b1 % 16 * 256 + b2);
    Divide(triplet, 64, b0 * 1024 + b1 * 4 + b2 / 64, b2 % 64);
    Divide(b0 * 16 + b1 / 16, 64, b0 / 4, b0 % 4 * 16 + b1 / 16);
    Divide(b0 * 1024 + b1 * 4 + b2 / 64, 64, b0 * 16 + b1 / 16, b1 % 16 * 4 + b2 / 64);
    Divide(b0 / 4, 64, 0, b0 / 4);
  }

  lemma Divide(x: int, k: int, q: int, r: int)
    requires x == k * q + r && 0 <= r < k
    ensures x / k == q && x % k == r
  {
    var d := x / k - q;
    assert k * d == r - x % k;
    assert d >= 1 ==> k * d >= k;
    assert d <= -1 ==> k * d <= -k;
  }

  /** The digits in the plain base64 alphabet. */
  function Letters(digits: seq<Sextet>): (s: string)
    ensures |s| == |digits| && forall i :: 0 <= i < |s| ==> s[i] == Symbol(digits[i])
  {
    seq(|digits|, i requires 0 <= i < |digits| => Symbol(digits[i]))
  }

  lemma LettersAppend(a: seq<Sextet>, b: seq<Sextet>)
    ensures Letters(a + b) == Letters(a) + Letters(b)
  {
  }

  /** What one turn of the loop appends: absent bytes read as zero, and their sextets are left out. */
  function GroupText(bytes: seq<Byte>): string
    requires bytes != []
  {
    var quad := Quad(bytes[0], if 1 < |bytes| then bytes[1] else 0, if 2 < |bytes| then bytes[2] else 0);
    [Symbol(quad[0]), Symbol(quad[1])]
    + (if 1 < |bytes| then [Symbol(quad[2])] else "")
    + (if 2 < |bytes| then [Symbol(quad[3])] else "")
  }

  lemma GroupTextIsGroup(bytes: seq<Byte>)
    requires 1 <= |bytes| <= 3
    ensures GroupText(bytes) == Letters(Group(bytes))
  {
    assert |GroupText(bytes)| == |bytes| + 1;
  }

  lemma TurnOfTheLoop(rest: seq<Byte>)
    requires rest != []
    ensures Letters(Sextets(rest)) == GroupText(rest) + Letters(Sextets(if |rest| < 3 then [] else rest[3..]))
  {
    if |rest| < 3 {
      GroupTextIsGroup(rest);
    } else {
      GroupTextIsGroup(rest[..3]);
      LettersAppend(Group(rest[..3]), Sextets(rest[3..]));
    }
  }

  method Base64UrlEncode(buffer: seq<Byte>) returns (text: string)
    ensures text == Encoded(buffer)
  {
    var base64: string := "";
    var i := 0;
    assert From(buffer, 0) == buffer;
    while i < |buffer|
      invariant 0 <= i
      invariant base64 + Letters(Sextets(From(buffer, i))) == Letters(Sextets(buffer))
    {
      TurnOfTheLoop(From(buffer, i));
      NextGroup(buffer, i);
      Reassociate(base64, GroupText(From(buffer, i)), Letters(Sextets(From(buffer, i + 3))));
      base64 := base64 + GroupText(buffer[i..]);
      i := i + 3;
    }
    text := Each(base64, ToUrl);
  }

  function From(buffer: seq<Byte>, i: nat): seq<Byte> {
    if i <= |buffer| then buffer[i..] else []
  }

  lemma NextGroup(buffer: seq<Byte>, i: nat)
    requires i < |buffer|
    ensures From(buffer, i + 3) == if |buffer| - i < 3 then [] else From(buffer, i)[3..]
  {
  }

  lemma Reassociate<T>(a: seq<T>, b: seq<T>, c: seq<T>)
    ensures a + (b + c) == (a + b) + c
  {
  }

  // ---- the decoder ----

  const WORD: int := 0x1_0000_0000

  /** The signed 32-bit integer with the same low 32 bits. */
  function Int32(x: int): (r: int)
    ensures -0x8000_0000 <= r < 0x8000_0000
    ensures r % 64 == x % 64
  {
    var r := (x + 0x8000_0000) % WORD - 0x8000_0000;
    assert r == x - WORD * ((x + 0x8000_0000) / WORD);
    r
  }

  /** `(accumulator << 6) | value`: the shift wraps, and the or fills the six bits it cleared. */
  function ShiftIn(accumulator: int, value: Sextet): int {
    Int32(accumulator * 64) + value
  }

  /** 2 to the number of bits a byte boundary leaves over. */
  function Two(bits: int): (t: int)
    requires bits in {0, 2, 4, 6}
    ensures t in {1, 4, 16, 64}
  {
    if bits == 0 then 1 else if bits == 2 then 4 else if bits == 4 then 16 else 64
  }

  /** `bytes` are the whole bytes of the bits `digits` spell; the bits over are ignored. */
  ghost predicate Decodes(digits: seq<Sextet>, bytes: seq<Byte>) {
    |bytes| == 6 * |digits| / 8 && Number(bytes) == Number64(digits) / Two(6 * |digits| - 8 * |bytes|)
  }

  function Clean(input: string): string {
    StripPadding(Each(input, FromUrl))
  }

  predicate AllValid(clean: string) {
    forall i :: 0 <= i < |clean| ==> IndexOf(clean[i]).Some?
  }

  function Values(clean: string): (digits: seq<Sextet>)
    requires AllValid(clean)
    ensures |digits| == |clean| && forall i :: 0 <= i < |clean| ==> Some(digits[i]) == IndexOf(clean[i])
  {
    seq(|clean|, i requires 0 <= i < |clean| => IndexOf(clean[i]).value)
  }

  /** The wrapped accumulator differs from the unwrapped number by whole words, before the shift and after it. */
  lemma ShiftInWraps(accumulator: int, a: nat, words: int, value: Sextet) returns (words': int)
    requires accumulator == a - WORD * words
    ensures ShiftIn(accumulator, value) == 64 * a + value - WORD * words'
  {
    words' := 64 * words + (accumulator * 64 + 0x8000_0000) / WORD;
  }

  /** A byte cut out of the wrapped accumulator is the byte of the unwrapped number. */
  lemma ByteOf(a: nat, words: int, t: int, m: int)
    requires t in {1, 4, 16} && t * m == WORD
    ensures (a - WORD * words) / t % 256 == a / t % 256
  {
    if t == 1 {
      Divide(a - WORD * words, 256, a / 256 - 0x100_0000 * words, a % 256);
    } else if t == 4 {
      Divide(a - WORD * words, 4, a / 4 - 0x4000_0000 * words, a % 4);
      Divide(a / 4 - 0x4000_0000 * words, 256, a / 4 / 256 - 0x40_0000 * words, a / 4 % 256);
    } else {
      Divide(a - WORD * words, 16, a / 16 - 0x1000_0000 * words, a % 16);
      Divide(a / 16 - 0x1000_0000 * words, 256, a / 16 / 256 - 0x10_0000 * words, a / 16 % 256);
    }
  }

  /** Six more bits complete a byte: the bytes so far, and the byte, are the longer number cut at the new boundary. */
  lemma ByteCompleted(a: nat, value: Sextet, t: int)
    requires t in {1, 4, 16}
    ensures 256 * (a / (4 * t)) + (64 * a + value) / t % 256 == (64 * a + value) / t
  {
    var b := 64 * a + value;
    if t == 1 {
      Divide(b, 256, a / 4, 64 * (a % 4) + value);
    } else if t == 4 {
      Divide(b, 4, 256 * (a / 16) + (64 * (a % 16) + value) / 4, (64 * (a % 16) + value) % 4);
      Divide(b / 4, 256, a / 16, (64 * (a % 16) + value) / 4);
    } else {
      Divide(b, 16, 256 * (a / 64) + (64 * (a % 64) + value) / 16, (64 * (a % 64) + value) % 16);
      Divide(b / 16, 256, a / 64, (64 * (a % 64) + value) / 16);
    }
  }

  lemma NumberSnoc(bytes: seq<Byte>, b: Byte)
    ensures Number(bytes + [b]) == 256 * Number(bytes) + b
  {
    assert (bytes + [b])[..|bytes|] == bytes;
  }

  /** `written` are the whole bytes of the number `a`, cut `bits` bits above its end. */
  ghost predicate Cut(written: seq<Byte>, a: nat, bits: int) {
    bits in {0, 2, 4, 6} && Number(written) == a / Two(bits)
  }

  /** The next byte out of the accumulator. */
  function TopByte(accumulator: int, bits: int): Byte
    requires bits in {0, 2, 4, 6}
  {
    accumulator / Two(bits) % 256
  }

  /** One turn of the loop: either no byte is complete, or the one cut out of the accumulator is. */
  lemma BitsGained(written: seq<Byte>, a: nat, value: Sextet, bits: int, accumulator: int, words: int)
    requires Cut(written, a, bits) && accumulator == 64 * a + value - WORD * words
    ensures bits == 0 ==> Cut(written, 64 * a + value, 6)
    ensures bits > 0 ==> Cut(written + [TopByte(accumulator, bits - 2)], 64 * a + value, bits - 2)
  {
    if bits == 0 {
      Divide(64 * a + value, 64, a, value);
    } else {
      ByteOf(64 * a + value, words, Two(bits - 2), if bits == 2 then WORD else if bits == 4 then 0x4000_0000 else 0x1000_0000);
      ByteCompleted(a, value, Two(bits - 2));
      NumberSnoc(written, TopByte(accumulator, bits - 2));
    }
  }

  lemma ValuesGrow(clean: string, i: nat)
    requires i < |clean| && AllValid(clean[..i]) && IndexOf(clean[i]).Some?
    ensures AllValid(clean[..i + 1])
    ensures Number64(Values(clean[..i + 1])) == 64 * Number64(Values(clean[..i])) + IndexOf(clean[i]).value
  {
    assert AllValid(clean[..i + 1]);
    var digits := Values(clean[..i + 1]);
    assert digits[..|digits| - 1] == Values(clean[..i]);
  }

  lemma DecodeTurn(clean: string, i: nat, written: seq<Byte>, a: nat, bits: int, accumulator: int, words: int, value: Sextet)
      returns (words': int)
    requires i < |clean| && AllValid(clean[..i]) && a == Number64(Values(clean[..i])) && IndexOf(clean[i]) == Some(value)
    requires accumulator == a - WORD * words && Cut(written, a, bits)
    ensures AllValid(clean[..i + 1]) && Number64(Values(clean[..i + 1])) == 64 * a + value
    ensures ShiftIn(accumulator, value) == 64 * a + value - WORD * words'
    ensures bits == 0 ==> Cut(written, 64 * a + value, 6)
    ensures bits > 0 ==> Cut(written + [TopByte(ShiftIn(accumulator, value), bits - 2)], 64 * a + value, bits - 2)
  {
    ValuesGrow(clean, i);
    words' := ShiftInWraps(accumulator, a, words, value);
    BitsGained(written, a, value, bits, ShiftIn(accumulator, value), words');
  }

  /** None stands for the error thrown at a character outside the alphabet. */
  method Base64UrlDecode(input: string) returns (result: Option<seq<Byte>>)
    ensures result.Some? <==> AllValid(Clean(input))
    ensures result.Some? ==> Decodes(Values(Clean(input)), result.value)
  {
    var clean := Clean(input);
    var bytes := new Byte[|clean| * 6 / 8];
    var accumulator, bits, out := 0, 0, 0;
    ghost var words, a: nat, written: seq<Byte> := 0, 0, [];
    for i := 0 to |clean|
      invariant AllValid(clean[..i]) && a == Number64(Values(clean[..i]))
      invariant bits in {0, 2, 4, 6} && bits == 6 * i - 8 * out && 0 <= out <= bytes.Length
      invariant accumulator == a - WORD * words
      invariant bytes[..out] == written && Cut(written, a, bits)
    {
      var value := IndexOf(clean[i]);
      if value.None? {
        return None;
      }
      words := DecodeTurn(clean, i, written, a, bits, accumulator, words, value.value);
      accumulator := ShiftIn(accumulator, value.value);
      a := 64 * a + value.value;
      bits := bits + 6;
      if bits >= 8 {
        bits := bits - 8;
        bytes[out] := TopByte(accumulator, bits);
        written := written + [bytes[out]];
        out := out + 1;
      }
    }
    assert clean[..|clean|] == clean;
    result := Some(bytes[..out]);
  }

  // ---- round trip ----

  lemma {:induction false} Number64Append(a: seq<Sextet>, b: seq<Sextet>)
    ensures Number64(a + b) == Number64(a) * Power(64, |b|) + Number64(b)
  {
    if b == [] {
      assert a + b == a;
    } else {
      var b', d := b[..|b| - 1], b[|b| - 1];
      Number64Append(a, b');
      assert (a + b)[..|a + b| - 1] == a + b';
      Shifted(64, Number64(a), Power(64, |b'|), Number64(b'), d);
    }
  }

  lemma {:induction false} NumberAppend(a: seq<Byte>, b: seq<Byte>)
    ensures Number(a + b) == Number(a) * Power(256, |b|) + Number(b)
  {
    if b == [] {
      assert a + b == a;
    } else {
      var b', d := b[..|b| - 1], b[|b| - 1];
      NumberAppend(a, b');
      assert (a + b)[..|a + b| - 1] == a + b';
      Shifted(256, Number(a), Power(256, |b'|), Number(b'), d);
    }
  }

  lemma Shifted(base: nat, a: nat, p: nat, b: nat, d: nat)
    ensures base * (a * p + b) + d == a * (base * p) + (base * b + d)
  {
    assert base * (a * p) == a * (base * p);
  }

  /** The sextets' weight is the bytes' weight times that of the bits over. */
  lemma {:induction false} Weights(bytes: seq<Byte>)
    ensures Power(64, |Sextets(bytes)|) == Power(256, |bytes|) * Two(Over(|bytes|))
  {
    if bytes == [] {
    } else if |bytes| == 1 {
      assert Power(64, 2) == 4096 && Power(256, 1) == 256;
    } else if |bytes| == 2 {
      assert Power(64, 3) == 262144 && Power(256, 2) == 65536;
    } else {
      Weights(bytes[3..]);
      GroupWeights(|Sextets(bytes[3..])|, |bytes| - 3, Two(Over(|bytes|)));
    }
  }

  lemma GroupWeights(m: nat, n: nat, t: nat)
    requires Power(64, m) == Power(256, n) * t
    ensures Power(64, m + 4) == Power(256, n + 3) * t
  {
    var p, q := Power(64, m), Power(256, n);
    assert Power(64, m + 1) == 64 * p;
    assert Power(64, m + 2) == 4096 * p;
    assert Power(64, m + 3) == 262144 * p;
    assert Power(64, m + 4) == 16777216 * p;
    assert Power(256, n + 1) == 256 * q;
    assert Power(256, n + 2) == 65536 * q;
    assert Power(256, n + 3) == 16777216 * q;
    assert 16777216 * (q * t) == (16777216 * q) * t;
  }

  lemma Number64Of(g: seq<Sextet>)
    ensures |g| == 2 ==> Number64(g) == 64 * g[0] as int + g[1]
    ensures |g| == 3 ==> Number64(g) == 4096 * g[0] as int + 64 * g[1] as int + g[2]
    ensures |g| == 4 ==> Number64(g) == 262144 * g[0] as int + 4096 * g[1] as int + 64 * g[2] as int + g[3]
  {
    if 2 <= |g| <= 4 {
      assert g[..1][..0] == [] && Number64(g[..1]) == g[0];
      assert g[..2][..1] == g[..1] && Number64(g[..2]) == 64 * g[0] as int + g[1];
      if |g| == 2 {
        assert g[..2] == g;
      } else {
        assert g[..3][..2] == g[..2];
        if |g| == 3 { assert g[..3] == g; }
      }
    }
  }

  lemma NumberOf(b: seq<Byte>)
    ensures |b| == 1 ==> Number(b) == b[0]
    ensures |b| == 2 ==> Number(b) == 256 * b[0] as int + b[1]
    ensures |b| == 3 ==> Number(b) == 65536 * b[0] as int + 256 * b[1] as int + b[2]
  {
    if 1 <= |b| <= 3 {
      assert b[..1][..0] == [] && Number(b[..1]) == b[0];
      if |b| == 1 {
        assert b[..1] == b;
      } else {
        assert b[..2][..1] == b[..1];
        if |b| == 2 { assert b[..2] == b; }
      }
    }
  }

  lemma GroupSpells(b: seq<Byte>)
    requires 1 <= |b| <= 3
    ensures var g := Group(b);
      && (|b| == 1 ==> 64 * g[0] as int + g[1] == 16 * b[0] as int)
      && (|b| == 2 ==> 4096 * g[0] as int + 64 * g[1] as int + g[2] == 4 * (256 * b[0] as int + b[1]))
      && (|b| == 3 ==> 262144 * g[0] as int + 4096 * g[1] as int + 64 * g[2] as int + g[3]
                       == 65536 * b[0] as int + 256 * b[1] as int + b[2])
  {
  }

  lemma GroupNumber(bytes: seq<Byte>)
    requires 1 <= |bytes| <= 3
    ensures Number64(Group(bytes)) == Number(bytes) * Two(Over(|bytes|))
  {
    GroupSpells(bytes);
    Number64Of(Group(bytes));
    NumberOf(bytes);
    assert Over(3) == 0;
  }

  /** The sextets spell the bytes' number, shifted by the zero bits the last group adds. */
  lemma {:induction false} SextetsNumber(bytes: seq<Byte>)
    ensures Number64(Sextets(bytes)) == Number(bytes) * Two(Over(|bytes|))
  {
    if bytes == [] {
    } else if |bytes| < 3 {
      GroupNumber(bytes);
    } else {
      SextetsNumber(bytes[3..]);
      FrontNumber(bytes[..3], bytes[3..]);
      assert bytes == bytes[..3] + bytes[3..];
    }
  }

  lemma FrontNumber(front: seq<Byte>, rest: seq<Byte>)
    requires |front| == 3 && Number64(Sextets(rest)) == Number(rest) * Two(Over(|rest|))
    ensures Number64(Group(front) + Sextets(rest)) == Number(front + rest) * Two(Over(|rest|))
  {
    Weights(rest);
    GroupNumber(front);
    assert Over(3) == 0;
    Number64Append(Group(front), Sextets(rest));
    NumberAppend(front, rest);
    SameFactor(Number(front), Power(256, |rest|), Number(rest), Two(Over(|rest|)));
  }

  lemma SameFactor(a: nat, p: nat, b: nat, t: nat)
    ensures a * (p * t) + b * t == (a * p + b) * t
  {
    assert a * (p * t) == (a * p) * t;
  }

  function Equals(n: nat): (s: string)
    ensures |s| == n && forall i :: 0 <= i < n ==> s[i] == '='
  {
    seq(n, _ => '=')
  }

  lemma {:induction false} StripEquals(s: string, n: nat)
    requires s == "" || s[|s| - 1] != '='
    ensures StripPadding(s + Equals(n)) == s
  {
    if n == 0 {
      assert s + Equals(0) == s;
    } else {
      StripEquals(s, n - 1);
      assert (s + Equals(n))[..|s| + n - 1] == s + Equals(n - 1);
    }
  }

  /** The decoder sees the digits the encoder wrote, whatever padding follows. */
  lemma CleanEncoded(bytes: seq<Byte>, n: nat)
    ensures var clean := Clean(Encoded(bytes) + Equals(n)); AllValid(clean) && Values(clean) == Sextets(bytes)
  {
    var plain := Letters(Sextets(bytes));
    PlainEncoded(Sextets(bytes), n);
    LettersRead(Sextets(bytes));
    StripEquals(plain, n);
  }

  lemma PlainEncoded(digits: seq<Sextet>, n: nat)
    ensures Each(Text(digits) + Equals(n), FromUrl) == Letters(digits) + Equals(n)
  {
  }

  lemma LettersRead(digits: seq<Sextet>)
    ensures AllValid(Letters(digits)) && Values(Letters(digits)) == digits
    ensures Letters(digits) == "" || Letters(digits)[|digits| - 1] != '='
  {
    assert forall i :: 0 <= i < |digits| ==> IndexOf(Letters(digits)[i]) == Some(digits[i]);
  }

  lemma ExactQuotient(n: nat, m: nat, bits: int)
    requires bits in {0, 2, 4, 6} && n == m * Two(bits)
    ensures n / Two(bits) == m
  {
  }

  /** Only the bytes themselves decode their own encoding. */
  lemma DecodesEncoded(bytes: seq<Byte>, decoded: seq<Byte>)
    ensures Decodes(Sextets(bytes), decoded) <==> decoded == bytes
  {
    SextetsNumber(bytes);
    var digits := Sextets(bytes);
    Divide(6 * |digits|, 8, |bytes|, Over(|bytes|));
    ExactQuotient(Number64(digits), Number(bytes), Over(|bytes|));
    if Decodes(digits, decoded) {
      NumberIsInjective(decoded, bytes);
    }
  }

  /** Encode, then decode, with any number of trailing `=`: the identity on every byte string. */
  method RoundTrip(bytes: seq<Byte>, padding: nat) returns (result: Option<seq<Byte>>)
    ensures result == Some(bytes)
  {
    var text := Base64UrlEncode(bytes);
    CleanEncoded(bytes, padding);
    result := Base64UrlDecode(text + Equals(padding));
    DecodesEncoded(bytes, result.value);
  }

  lemma EncodingIsInjective(a: seq<Byte>, b: seq<Byte>)
    requires Encoded(a) == Encoded(b)
    ensures a == b
  {
    CleanEncoded(a, 0);
    CleanEncoded(b, 0);
    DecodesEncoded(a, a);
    DecodesEncoded(b, a);
  }

  // ---- the canonical-header check ----

  predicate IsUrlChar(c: char) {
    'A' <= c <= 'Z' || 'a' <= c <= 'z' || '0' <= c <= '9' || c == '_' || c == '-'
  }

  /** `^([A-Za-z0-9_-]+)(={1,2})?$`, the first group of a match. */
  function Unpadded(encoded: string): Option<string> {
    var unpadded := StripPadding(encoded);
    if unpadded != "" && (forall i :: 0 <= i < |unpadded| ==> IsUrlChar(unpadded[i])) && |encoded| - |unpadded| <= 2
    then Some(unpadded) else None
  }

  function Required(length: nat): nat {
    if length % 4 == 2 then 2 else if length % 4 == 3 then 1 else 0
  }

  /** The spellings the check is for: the encoding of some bytes, bare or with the exact padding. */
  ghost predicate Canonical(encoded: string, bytes: seq<Byte>) {
    && bytes != []
    && (encoded == Encoded(bytes) || encoded == Encoded(bytes) + Equals(Missing(|bytes|)))
  }

  lemma {:induction false} StripLength(s: string)
    ensures |StripPadding(s)| <= |s| && s == StripPadding(s) + Equals(|s| - |StripPadding(s)|)
    ensures StripPadding(s) == "" || StripPadding(s)[|StripPadding(s)| - 1] != '='
  {
    if s != "" && s[|s| - 1] == '=' {
      StripLength(s[..|s| - 1]);
    }
  }

  lemma UrlTextDecodes(unpadded: string)
    requires forall i :: 0 <= i < |unpadded| ==> IsUrlChar(unpadded[i])
    ensures AllValid(Clean(unpadded))
  {
    var plain := Each(unpadded, FromUrl);
    StripEquals(plain, 0);
    assert plain + Equals(0) == plain;
  }

  lemma QuarterRemainder(k: nat, r: nat)
    requires r < 4
    ensures (4 * k + r) % 4 == r
  {
  }

  lemma {:induction false} SextetsLength(bytes: seq<Byte>, k: nat, r: nat)
    requires |bytes| == 3 * k + r && r < 3
    ensures |Sextets(bytes)| == 4 * k + if r == 0 then 0 else r + 1
    ensures Missing(|bytes|) == if r == 0 then 0 else 3 - r
    decreases k
  {
    if k > 0 {
      SextetsLength(bytes[3..], k - 1, r);
    }
  }

  lemma RequiredPadding(bytes: seq<Byte>)
    ensures Required(|Encoded(bytes)|) == Missing(|bytes|) && |Encoded(bytes)| % 4 != 1
    ensures bytes != [] ==> Encoded(bytes) != ""
  {
    var k, r := |bytes| / 3, |bytes| % 3;
    SextetsLength(bytes, k, r);
    QuarterRemainder(k, if r == 0 then 0 else r + 1);
  }

  lemma CanonicalUnpadded(encoded: string, bytes: seq<Byte>)
    requires Canonical(encoded, bytes)
    ensures Unpadded(encoded) == Some(Encoded(bytes))
    ensures |encoded| == |Encoded(bytes)| || |encoded| - |Encoded(bytes)| == Required(|Encoded(bytes)|)
  {
    RequiredPadding(bytes);
    var text := Encoded(bytes);
    StripEquals(text, |encoded| - |text|);
    assert encoded == text + Equals(|encoded| - |text|);
  }

  /** Past the padding check, the header is canonical exactly when its bytes encode to it again. */
  lemma Reencodes(encoded: string, unpadded: string, bytes: seq<Byte>)
    requires Unpadded(encoded) == Some(unpadded)
    requires |encoded| == |unpadded| || |encoded| - |unpadded| == Required(|unpadded|)
    requires AllValid(Clean(unpadded)) && Decodes(Values(Clean(unpadded)), bytes)
    ensures Encoded(bytes) == unpadded ==> Canonical(encoded, bytes)
    ensures forall b :: Canonical(encoded, b) ==> b == bytes && Encoded(bytes) == unpadded
  {
    StripLength(encoded);
    RequiredPadding(bytes);
    assert unpadded + Equals(0) == unpadded;
    forall b | Canonical(encoded, b)
      ensures b == bytes && Encoded(bytes) == unpadded
    {
      CanonicalUnpadded(encoded, b);
      CleanEncoded(b, 0);
      DecodesEncoded(b, bytes);
    }
  }

  /** What the check makes of a header without a dot: the bytes it hashes, or a refusal. */
  method CheckHeader(encoded: string) returns (result: Option<seq<Byte>>)
    ensures forall bytes :: result == Some(bytes) <==> Canonical(encoded, bytes)
  {
    forall bytes | Canonical(encoded, bytes)
      ensures Unpadded(encoded) == Some(Encoded(bytes)) && |Encoded(bytes)| % 4 != 1
      ensures |encoded| == |Encoded(bytes)| || |encoded| - |Encoded(bytes)| == Required(|Encoded(bytes)|)
    {
      CanonicalUnpadded(encoded, bytes);
      RequiredPadding(bytes);
    }
    var matched := Unpadded(encoded);
    if matched.None? { return None; }
    var unpadded := matched.value;
    if |unpadded| % 4 == 1 { return None; }
    if |encoded| != |unpadded| && |encoded| - |unpadded| != Required(|unpadded|) { return None; }
    UrlTextDecodes(unpadded);
    var bytes := Base64UrlDecode(unpadded);
    var again := Base64UrlEncode(bytes.value);
    Reencodes(encoded, unpadded, bytes.value);
    result := if again == unpadded then bytes else None;
  }
}
