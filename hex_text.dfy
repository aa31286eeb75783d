/**
 * Lower-case hexadecimal text as JavaScript produces it: `Number.prototype.toString(16)`
 * on a non-negative integer, and `padStart(2, '0')` on the rendering of one byte.
 */
module HexText {

  type byte = x: int | 0 <= x < 256

  predicate IsLowerHexDigit(c: char) {
    '0' <= c <= '9' || 'a' <= c <= 'f'
  }

  predicate IsLowerHex(s: string) {
    forall i :: 0 <= i < |s| ==> IsLowerHexDigit(s[i])
  }

  /** The digit for a value below sixteen. */
  function HexDigit(n: nat): (c: char)
    requires n < 16
    ensures IsLowerHexDigit(c)
    ensures c == '0' <==> n == 0
  {
    if n < 10 then ('0' as int + n) as char else ('a' as int + n - 10) as char
  }

  /** The value of a digit, the inverse of HexDigit; any other character reads as zero. */
  function DigitValue(c: char): (n: nat)
    ensures n < 16
    ensures IsLowerHexDigit(c) ==> HexDigit(n) == c
  {
    if '0' <= c <= '9' then c as int - '0' as int
    else if 'a' <= c <= 'f' then c as int - 'a' as int + 10
    else 0
  }

  lemma DigitValueOfHexDigit(n: nat)
    requires n < 16
    ensures DigitValue(HexDigit(n)) == n
  {
  }

  /** `n.toString(16)`: most significant digit first, no leading zero, "0" for zero. */
  function ToHexString(n: nat): (s: string)
    ensures |s| >= 1 && IsLowerHex(s)
    ensures s[0] == '0' ==> n == 0 && s == "0"
    decreases n
  {
    if n < 16 then [HexDigit(n)] else ToHexString(n / 16) + [HexDigit(n % 16)]
  }

  /** Reads lower-case hexadecimal text back into its value. */
  function ParseHex(s: string): (n: nat)
  {
    if s == [] then 0 else ParseHex(s[..|s| - 1]) * 16 + DigitValue(s[|s| - 1])
  }

  lemma {:induction false} ParseHexOfToHexString(n: nat)
    ensures ParseHex(ToHexString(n)) == n
    decreases n
  {
    var s := ToHexString(n);
    if n < 16 {
      DigitValueOfHexDigit(n);
    } else {
      assert s[..|s| - 1] == ToHexString(n / 16);
      ParseHexOfToHexString(n / 16);
      DigitValueOfHexDigit(n % 16);
    }
  }

  function Pow16(k: nat): (p: nat)
    ensures p >= 1
  {
    if k == 0 then 1 else 16 * Pow16(k - 1)
  }

  /** A value below 16^k is written with at most k digits. */
  lemma {:induction false} ToHexStringLength(n: nat, k: nat)
    requires 1 <= k && n < Pow16(k)
    ensures |ToHexString(n)| <= k
    decreases k
  {
    if n >= 16 {
      assert k >= 2;
      ToHexStringLength(n / 16, k - 1);
    }
  }

  /** `s.padStart(width, fill)`. */
  function PadStart(s: string, width: nat, fill: char): (r: string)
    ensures |r| == if |s| >= width then |s| else width
    ensures r[|r| - |s|..] == s
    ensures forall i :: 0 <= i < |r| - |s| ==> r[i] == fill
    decreases width - |s|
  {
    if |s| >= width then s else PadStart([fill] + s, width, fill)
  }

  /** The value of a two-digit rendering, high digit first. */
  function PairValue(high: char, low: char): (n: nat)
    ensures n < 256
  {
    DigitValue(high) * 16 + DigitValue(low)
  }

  /** The two digits of a byte, high digit first; they read back as the byte. */
  function ByteHex(b: byte): (s: string)
    ensures |s| == 2 && IsLowerHexDigit(s[0]) && IsLowerHexDigit(s[1])
    ensures PairValue(s[0], s[1]) == b
  {
    DigitValueOfHexDigit(b / 16);
    DigitValueOfHexDigit(b % 16);
    [HexDigit(b / 16), HexDigit(b % 16)]
  }

  /** `b.toString(16).padStart(2, '0')` is exactly the two digits of the byte. */
  lemma ByteHexIsPaddedRendering(b: byte)
    ensures PadStart(ToHexString(b), 2, '0') == ByteHex(b)
  {
    var digits := ToHexString(b);
    var hi, lo := b / 16, b % 16;
    var pair := [HexDigit(hi), HexDigit(lo)];
    assert ByteHex(b) == pair;
    if b < 16 {
      assert digits == [HexDigit(lo)] && hi == 0;
      assert PadStart(digits, 2, '0') == PadStart(['0'] + digits, 2, '0');
      assert ['0'] + digits == pair;
    } else {
      assert digits == ToHexString(hi) + [HexDigit(lo)];
      assert ToHexString(hi) == [HexDigit(hi)];
      assert digits == pair;
    }
  }

  /** The bytes rendered one after another, as `map(...).join('')` does. */
  function HexEncode(bytes: seq<byte>): (s: string)
    ensures |s| == 2 * |bytes|
  {
    if bytes == [] then [] else ByteHex(bytes[0]) + HexEncode(bytes[1..])
  }

  lemma LowerHexConcat(a: string, b: string)
    requires IsLowerHex(a) && IsLowerHex(b)
    ensures IsLowerHex(a + b)
  {
    forall i | 0 <= i < |a + b|
      ensures IsLowerHexDigit((a + b)[i])
    {
      if i >= |a| {
        assert (a + b)[i] == b[i - |a|];
      }
    }
  }

  /** The rendering uses lower-case hexadecimal digits only. */
  lemma {:induction false} HexEncodeIsLowerHex(bytes: seq<byte>)
    ensures IsLowerHex(HexEncode(bytes))
  {
    if bytes != [] {
      var head := ByteHex(bytes[0]);
      HexEncodeIsLowerHex(bytes[1..]);
      LowerHexConcat(head, HexEncode(bytes[1..]));
    }
  }

  /** Two digits per byte, a trailing odd digit ignored; the inverse of HexEncode. */
  function HexDecode(s: string): (bytes: seq<byte>)
    ensures 2 * |bytes| <= |s| < 2 * |bytes| + 2
  {
    if |s| < 2 then [] else [PairValue(s[0], s[1])] + HexDecode(s[2..])
  }

  /** Decoding reads the first two characters as one byte and goes on with the rest. */
  lemma HexDecodeCons(head: string, rest: string)
    requires |head| == 2
    ensures HexDecode(head + rest) == [PairValue(head[0], head[1])] + HexDecode(rest)
  {
    var s := head + rest;
    assert s[0] == head[0] && s[1] == head[1] && s[2..] == rest;
  }

  lemma {:induction false} HexDecodeOfHexEncode(bytes: seq<byte>)
    ensures HexDecode(HexEncode(bytes)) == bytes
  {
    if bytes != [] {
      var head, rest := ByteHex(bytes[0]), HexEncode(bytes[1..]);
      assert HexEncode(bytes) == head + rest;
      HexDecodeCons(head, rest);
      HexDecodeOfHexEncode(bytes[1..]);
      assert HexDecode(head + rest) == [bytes[0]] + bytes[1..];
      assert [bytes[0]] + bytes[1..] == bytes;
    }
  }

  /** Distinct byte strings never render to the same text. */
  lemma HexEncodeInjective(a: seq<byte>, b: seq<byte>)
    requires HexEncode(a) == HexEncode(b)
    ensures a == b
  {
    HexDecodeOfHexEncode(a);
    HexDecodeOfHexEncode(b);
  }
}
