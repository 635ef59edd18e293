/**
 * The hand-written base58btc encoder behind `did:key` session identifiers:
 * in-place long division over little-endian digits.
 */
module Base58 {
  import opened Bytes

  type Digit = x: int | 0 <= x < 58

  const BASE58_ALPHABET: string :=
    "123456789" + "ABCDEFGH" + "JKLMN" + "PQRSTUVWXYZ" + "abcdefghijk" + "mnopqrstuvwxyz"

  // ---- what base58btc means ----

  /** The base-58 digits of a number, least significant first, none for zero. */
  function Digits(n: nat): seq<Digit> {
    if n == 0 then [] else [n % 58] + Digits(n / 58)
  }

  function LeadingZeros(bytes: seq<Byte>): (n: nat)
    ensures n <= |bytes|
    ensures forall i :: 0 <= i < n ==> bytes[i] == 0
    ensures n < |bytes| ==> bytes[n] != 0
  {
    if bytes == [] || bytes[0] != 0 then 0 else 1 + LeadingZeros(bytes[1..])
  }

  function Ones(n: nat): (s: string)
    ensures |s| == n && forall i :: 0 <= i < n ==> s[i] == '1'
  {
    seq(n, _ => '1')
  }

  /** The alphabet by ranges: no `0`, `I`, `O` or `l`. */
  function Symbol(d: Digit): char {
    if d < 9 then '1' + d as char
    else if d < 17 then 'A' + (d - 9) as char
    else if d < 22 then 'J' + (d - 17) as char
    else if d < 33 then 'P' + (d - 22) as char
    else if d < 44 then 'a' + (d - 33) as char
    else 'm' + (d - 44) as char
  }

  /** Little-endian digits written most significant first. */
  function Spell(digits: seq<Digit>): string {
    if digits == [] then "" else Spell(digits[1..]) + [Symbol(digits[0])]
  }

  /** Standard base58btc: a `1` for each leading zero byte, then the number. */
  function Standard(bytes: seq<Byte>): string {
    Ones(LeadingZeros(bytes)) + Spell(Digits(Number(bytes)))
  }

  /** What the encoder computes: it spells zero as one digit instead of none. */
  function Encoded(bytes: seq<Byte>): string {
    var n := Number(bytes);
    Ones(LeadingZeros(bytes)) + Spell(if n == 0 then [0] else Digits(n))
  }

  // ---- little-endian digit strings ----

  function Value(digits: seq<Digit>): nat {
    if digits == [] then 0 else digits[0] + 58 * Value(digits[1..])
  }

  ghost predicate Canonical(digits: seq<Digit>) {
    |digits| == 1 || (|digits| > 1 && digits[|digits| - 1] != 0)
  }

  lemma {:induction false} ValueOfAppend(digits: seq<Digit>, d: Digit)
    ensures Value(digits + [d]) == Value(digits) + Power(58, |digits|) * d
  {
    if digits != [] {
      ValueOfAppend(digits[1..], d);
      assert (digits + [d])[1..] == digits[1..] + [d];
      var v, p := Value(digits[1..]), Power(58, |digits| - 1);
      assert 58 * (v + p * d) == 58 * v + (58 * p) * d;
    }
  }

  /** A canonical digit string is the one `Digits` names. */
  lemma {:induction false} CanonicalIsUnique(digits: seq<Digit>)
    requires digits == [] || digits[|digits| - 1] != 0
    ensures digits == Digits(Value(digits))
  {
    if digits != [] {
      CanonicalIsUnique(digits[1..]);
      assert Value(digits) % 58 == digits[0] && Value(digits) / 58 == Value(digits[1..]);
      if |digits| > 1 {
        ValueIsPositive(digits[1..]);
      }
    }
  }

  lemma {:induction false} ValueIsPositive(digits: seq<Digit>)
    requires digits != [] && digits[|digits| - 1] != 0
    ensures Value(digits) > 0
  {
    if |digits| > 1 {
      ValueIsPositive(digits[1..]);
    }
  }

  // ---- the encoder ----

  /** One byte: `digits` becomes 256 times itself plus the byte, in place. */
  method MultiplyAdd(before: seq<Digit>, byte: Byte) returns (digits: seq<Digit>)
    requires Canonical(before)
    ensures Canonical(digits)
    ensures Value(digits) == 256 * Value(before) + byte
  {
    digits := before;
    var carry: nat := byte;
    for index := 0 to |before|
      invariant |digits| == |before|
      invariant forall k :: index <= k < |digits| ==> digits[k] == before[k]
      invariant Value(digits[..index]) + Power(58, index) * carry == 256 * Value(before[..index]) + byte
      invariant index == |before| && |before| > 1 ==> carry > 0
      invariant index == 0 ==> carry == byte
      invariant index == 1 && before == [0] && carry == 0 ==> digits == [byte]
    {
      var sum: nat := carry + before[index] as int * 256;
      var digit := Remainder(sum);
      DivisionStep(digits[..index], before[..index], before[index], carry, digit, sum / 58, byte);
      assert before[..index + 1] == before[..index] + [before[index]];
      assert digits[index := digit][..index + 1] == digits[..index] + [digit];
      digits := digits[index := digit];
      carry := sum / 58;
    }
    assert digits[..|before|] == digits && before[..|before|] == before;
    while carry > 0
      invariant digits != []
      invariant Value(digits) + Power(58, |digits|) * carry == 256 * Value(before) + byte
      invariant carry == 0 ==> Canonical(digits)
    {
      var digit := Remainder(carry);
      ValueOfAppend(digits, digit);
      CarryStep(Power(58, |digits|), carry, carry / 58, digit);
      digits := digits + [digit];
      carry := carry / 58;
    }
  }

  function Remainder(n: nat): (d: Digit)
    ensures n == 58 * (n / 58) + d
  {
    n % 58
  }

  lemma DivisionStep(done: seq<Digit>, source: seq<Digit>, digit: Digit, carry: nat, low: Digit, next: nat, byte: Byte)
    requires |done| == |source| && carry + digit as int * 256 == 58 * next + low
    requires Value(done) + Power(58, |done|) * carry == 256 * Value(source) + byte
    ensures Value(done + [low]) + Power(58, |done| + 1) * next == 256 * Value(source + [digit]) + byte
  {
    ValueOfAppend(done, low);
    ValueOfAppend(source, digit);
    CarryStep(Power(58, |done|), carry + digit as int * 256, next, low);
    Distribute(Power(58, |done|), carry, digit);
    Combine(Value(done), Value(source), Power(58, |done|), carry, digit, low, next, byte);
  }

  lemma Combine(a: nat, b: nat, p: nat, carry: nat, digit: nat, low: nat, next: nat, byte: nat)
    requires p * low + (58 * p) * next == p * (carry + digit * 256)
    requires p * (carry + digit * 256) == p * carry + 256 * (p * digit)
    requires a + p * carry == 256 * b + byte
    ensures (a + p * low) + (58 * p) * next == 256 * (b + p * digit) + byte
  {
  }

  lemma Distribute(p: nat, carry: nat, digit: nat)
    ensures p * (carry + digit * 256) == p * carry + 256 * (p * digit)
  {
    assert p * (digit * 256) == 256 * (p * digit);
  }

  lemma CarryStep(p: nat, carry: nat, next: nat, low: nat)
    requires carry == 58 * next + low
    ensures p * low + (58 * p) * next == p * carry
  {
    assert p * (58 * next + low) == (58 * p) * next + p * low;
  }

  lemma CanonicalSpelling(digits: seq<Digit>)
    requires Canonical(digits)
    ensures digits == if Value(digits) == 0 then [0] else Digits(Value(digits))
  {
    if digits != [0] {
      CanonicalIsUnique(digits);
      ValueIsPositive(digits);
    }
  }

  /** `Symbol` reads the alphabet string. */
  lemma AlphabetAt(d: Digit)
    ensures |BASE58_ALPHABET| == 58 && BASE58_ALPHABET[d] == Symbol(d)
  {
  }

  method Encode(bytes: seq<Byte>) returns (output: string)
    ensures output == Encoded(bytes)
  {
    var digits: seq<Digit> := [0];
    for i := 0 to |bytes|
      invariant Canonical(digits)
      invariant Value(digits) == Number(bytes[..i])
    {
      assert bytes[..i + 1][..i] == bytes[..i];
      digits := MultiplyAdd(digits, bytes[i]);
    }
    assert bytes[..|bytes|] == bytes;
    CanonicalSpelling(digits);
    output := "";
    var zero := 0;
    while zero < |bytes| && bytes[zero] == 0
      invariant zero <= |bytes| && output == Ones(zero)
      invariant forall k :: 0 <= k < zero ==> bytes[k] == 0
    {
      output := output + [Symbol(0)];
      zero := zero + 1;
    }
    assert zero == LeadingZeros(bytes);
    var index := |digits|;
    while index > 0
      invariant 0 <= index <= |digits|
      invariant output == Ones(zero) + Spell(digits[index..])
    {
      index := index - 1;
      assert digits[index..][1..] == digits[index + 1..];
      output := output + [Symbol(digits[index])];
    }
    assert digits[0..] == digits;
  }

  // ---- reading an encoding back ----

  function SymbolDigit(c: char): Digit {
    if '1' <= c <= '9' then c as int - '1' as int
    else if 'A' <= c <= 'H' then c as int - 'A' as int + 9
    else if 'J' <= c <= 'N' then c as int - 'J' as int + 17
    else if 'P' <= c <= 'Z' then c as int - 'P' as int + 22
    else if 'a' <= c <= 'k' then c as int - 'a' as int + 33
    else if 'm' <= c <= 'z' then c as int - 'm' as int + 44
    else 0
  }

  function SpelledValue(s: string): nat {
    if s == "" then 0 else 58 * SpelledValue(s[..|s| - 1]) + SymbolDigit(s[|s| - 1])
  }

  function LeadingOnes(s: string): (n: nat)
    ensures n <= |s|
  {
    if s == "" || s[0] != '1' then 0 else 1 + LeadingOnes(s[1..])
  }

  function BytesOf(n: nat): seq<Byte> {
    if n == 0 then [] else BytesOf(n / 256) + [n % 256]
  }

  function Zeros(n: nat): seq<Byte> {
    seq(n, _ => 0)
  }

  /** The byte string an encoding stands for; a string of ones is one byte shorter than itself. */
  function Decoded(s: string): seq<Byte> {
    var ones := LeadingOnes(s);
    if ones == |s| then Zeros(if |s| == 0 then 0 else |s| - 1)
    else Zeros(ones) + BytesOf(SpelledValue(s[ones..]))
  }

  lemma {:induction false} SpellRoundTrip(digits: seq<Digit>)
    ensures SpelledValue(Spell(digits)) == Value(digits) && |Spell(digits)| == |digits|
  {
    if digits != [] {
      SpellRoundTrip(digits[1..]);
      var s := Spell(digits);
      assert s[..|s| - 1] == Spell(digits[1..]);
    }
  }

  /** The digits of a positive number have it as their value, and start with a digit other than zero. */
  lemma {:induction false} DigitsRoundTrip(n: nat)
    requires n > 0
    ensures Value(Digits(n)) == n && Digits(n) != [] && Digits(n)[|Digits(n)| - 1] != 0
  {
    if n / 58 > 0 {
      DigitsRoundTrip(n / 58);
    }
  }

  lemma {:induction false} SpellStartsHigh(digits: seq<Digit>)
    requires digits != []
    ensures Spell(digits) != "" && Spell(digits)[0] == Symbol(digits[|digits| - 1])
  {
    if |digits| > 1 {
      SpellStartsHigh(digits[1..]);
    }
  }

  lemma {:induction false} OnesAhead(n: nat, s: string)
    requires s != "" && s[0] != '1'
    ensures LeadingOnes(Ones(n) + s) == n && (Ones(n) + s)[n..] == s
  {
    if n == 0 {
      assert Ones(0) + s == s;
    } else {
      OnesAhead(n - 1, s);
      assert (Ones(n) + s)[1..] == Ones(n - 1) + s;
    }
  }

  lemma {:induction false} AllOnes(n: nat)
    ensures LeadingOnes(Ones(n)) == n
  {
    if n > 0 {
      AllOnes(n - 1);
      assert Ones(n)[1..] == Ones(n - 1);
    }
  }

  lemma {:induction false} BytesRoundTrip(bytes: seq<Byte>)
    requires bytes == [] || bytes[0] != 0
    ensures BytesOf(Number(bytes)) == bytes && (bytes != [] ==> Number(bytes) > 0)
  {
    if |bytes| > 0 {
      BytesRoundTrip(bytes[..|bytes| - 1]);
      assert bytes == bytes[..|bytes| - 1] + [bytes[|bytes| - 1]];
    }
  }

  lemma {:induction false} LeadingZerosDoNotCount(bytes: seq<Byte>, n: nat)
    requires n <= |bytes| && forall i :: 0 <= i < n ==> bytes[i] == 0
    ensures Number(bytes) == Number(bytes[n..])
  {
    if |bytes| == n {
      if n > 0 {
        LeadingZerosDoNotCount(bytes[..n - 1], n - 1);
        assert bytes[..n - 1][n - 1..] == [] == bytes[n..];
      }
    } else {
      LeadingZerosDoNotCount(bytes[..|bytes| - 1], n);
      assert bytes[..|bytes| - 1][n..] == bytes[n..][..|bytes| - n - 1];
    }
  }

  lemma ZeroNumber(bytes: seq<Byte>)
    ensures Number(bytes) == 0 <==> LeadingZeros(bytes) == |bytes|
  {
    var z := LeadingZeros(bytes);
    LeadingZerosDoNotCount(bytes, z);
    BytesRoundTrip(bytes[z..]);
  }

  lemma ZeroRoundTrip(bytes: seq<Byte>)
    requires Number(bytes) == 0
    ensures Decoded(Encoded(bytes)) == bytes
  {
    var z := LeadingZeros(bytes);
    ZeroNumber(bytes);
    assert Spell([0]) == "1";
    assert Encoded(bytes) == Ones(z + 1);
    AllOnes(z + 1);
    assert bytes == Zeros(z);
  }

  lemma PositiveRoundTrip(bytes: seq<Byte>)
    requires Number(bytes) > 0
    ensures Decoded(Encoded(bytes)) == bytes
  {
    var z, digits := LeadingZeros(bytes), Digits(Number(bytes));
    DigitsRoundTrip(Number(bytes));
    SpellStartsHigh(digits);
    SpellRoundTrip(digits);
    OnesAhead(z, Spell(digits));
    LeadingZerosDoNotCount(bytes, z);
    BytesRoundTrip(bytes[z..]);
    ZerosAhead(bytes, z);
  }

  lemma ZerosAhead(bytes: seq<Byte>, z: nat)
    requires z <= |bytes| && forall i :: 0 <= i < z ==> bytes[i] == 0
    ensures bytes == Zeros(z) + bytes[z..]
  {
  }

  /** No two byte strings of any lengths share an encoding: it can be read back. */
  lemma EncodingRoundTrip(bytes: seq<Byte>)
    ensures Decoded(Encoded(bytes)) == bytes
  {
    if Number(bytes) == 0 { ZeroRoundTrip(bytes); } else { PositiveRoundTrip(bytes); }
  }

  lemma EncodingIsInjective(a: seq<Byte>, b: seq<Byte>)
    requires Encoded(a) == Encoded(b)
    ensures a == b
  {
    EncodingRoundTrip(a);
    EncodingRoundTrip(b);
  }

  /** The code's output is standard base58btc exactly when some byte is nonzero; otherwise it has one `1` too many. */
  lemma StandardExactly(bytes: seq<Byte>)
    ensures Encoded(bytes) == Standard(bytes) <==> exists i :: 0 <= i < |bytes| && bytes[i] != 0
    ensures (forall i :: 0 <= i < |bytes| ==> bytes[i] == 0) ==> Encoded(bytes) == Standard(bytes) + "1"
  {
    ZeroNumber(bytes);
    assert Spell([0]) == "1";
    if Number(bytes) == 0 {
      assert Standard(bytes) == Ones(|bytes|);
      assert |Encoded(bytes)| == |bytes| + 1;
    } else {
      assert bytes[LeadingZeros(bytes)] != 0;
    }
  }

  // ---- session identifiers ----

  datatype Did = Id(text: string) | WrongLength

  function SessionDid(publicKey: seq<Byte>): Did {
    if |publicKey| != 32 then WrongLength else Id("did:key:z" + Encoded([0xed, 0x01] + publicKey))
  }

  method SessionDidForPublicKey(publicKey: seq<Byte>) returns (did: Did)
    ensures did == SessionDid(publicKey)
  {
    if |publicKey| != 32 {
      return WrongLength;
    }
    var encoded := Encode([0xed, 0x01] + publicKey);
    did := Id("did:key:z" + encoded);
  }

  /** Two 32-byte keys never share a session identifier, and the identifier is the standard one. */
  lemma SessionDidIsInjective(a: seq<Byte>, b: seq<Byte>)
    requires |a| == |b| == 32
    ensures SessionDid(a) == SessionDid(b) ==> a == b
    ensures SessionDid(a) == Id("did:key:z" + Standard([0xed, 0x01] + a))
  {
    var x, y := [0xed, 0x01] + a, [0xed, 0x01] + b;
    StandardExactly(x);
    assert x[0] != 0;
    if SessionDid(a) == SessionDid(b) {
      assert ("did:key:z" + Encoded(x))[9..] == Encoded(x) && ("did:key:z" + Encoded(y))[9..] == Encoded(y);
      EncodingIsInjective(x, y);
      assert x[2..] == a && y[2..] == b;
    }
  }
}
