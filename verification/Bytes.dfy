/** Bytes, byte strings as big-endian numbers, UTF-16 code units and their hexadecimal escapes. */
module Bytes {
  type Byte = x: int | 0 <= x < 256

  type Unit = x: int | 0 <= x < 0x10000

  /** The number a big-endian byte string spells. */
  function Number(bytes: seq<Byte>): nat {
    if bytes == [] then 0 else 256 * Number(bytes[..|bytes| - 1]) + bytes[|bytes| - 1]
  }

  /** Byte strings of one length are equal when their numbers are. */
  lemma {:induction false} NumberIsInjective(a: seq<Byte>, b: seq<Byte>)
    requires |a| == |b| && Number(a) == Number(b)
    ensures a == b
  {
    if |a| > 0 {
      NumberIsInjective(a[..|a| - 1], b[..|b| - 1]);
      assert a == a[..|a| - 1] + [a[|a| - 1]] && b == b[..|b| - 1] + [b[|b| - 1]];
    }
  }

  function Power(base: nat, n: nat): nat {
    if n == 0 then 1 else base * Power(base, n - 1)
  }

  // ---- `\uXXXX` ----

  function HexDigit(d: int): Unit
    requires 0 <= d < 16
  {
    if d < 10 then 0x30 + d else 0x61 + (d - 10)
  }

  /** `\u` and four hexadecimal digits, most significant first. */
  function HexEscape(code: Unit): seq<Unit> {
    var high := code / 16 / 16;
    [0x5C, 0x75, HexDigit(high / 16), HexDigit(high % 16), HexDigit(code / 16 % 16), HexDigit(code % 16)]
  }

  /** The value of a digit in either case. */
  function HexValue(u: Unit): (d: int)
    ensures 0 <= d < 16
  {
    if 0x30 <= u <= 0x39 then u - 0x30
    else if 0x61 <= u <= 0x66 then u - 0x61 + 10
    else if 0x41 <= u <= 0x46 then u - 0x41 + 10
    else 0
  }

  lemma HexDigitReads(d: int)
    requires 0 <= d < 16
    ensures HexValue(HexDigit(d)) == d && (0x30 <= HexDigit(d) <= 0x39 || 0x61 <= HexDigit(d) <= 0x66)
  {
  }

  lemma HexParts(code: int)
    ensures var high := code / 16 / 16;
      high / 16 * 4096 + high % 16 * 256 + code / 16 % 16 * 16 + code % 16 == code
  {
  }
}
