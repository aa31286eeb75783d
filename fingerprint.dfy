/**
 * The invoice fingerprint of zatca-invoice-processor/index.ts: a rolling checksum over
 * the UTF-16 code units of six invoice properties, kept in a JavaScript 32-bit signed
 * integer and printed as the lower-case hexadecimal of its magnitude.
 */
module InvoiceFingerprint {
  import opened Wrappers
  import opened JsValues
  import opened Invoices
  import opened HexText

  /** A UTF-16 code unit, what `String.prototype.charCodeAt` returns. */
  type CodeUnit = x: int | 0 <= x < 0x1_0000

  const Modulus: int := 0x1_0000_0000
  const Half: int := 0x8000_0000

  predicate IsInt32(x: int) {
    -Half <= x < Half
  }

  /** ECMAScript's ToInt32: the value congruent to x modulo 2^32 in [-2^31, 2^31). */
  function ToInt32(x: int): (r: int)
    ensures IsInt32(r)
  {
    x - Modulus * ((x + Half) / Modulus)
  }

  lemma DivByModulus(y: int, q: int)
    requires q * Modulus <= y < q * Modulus + Modulus
    ensures y / Modulus == q
  {
  }

  /** Adding a multiple of 2^32 does not change the 32-bit value. */
  lemma ToInt32Congruent(x: int, k: int)
    ensures ToInt32(x + k * Modulus) == ToInt32(x)
  {
    var q := (x + Half) / Modulus;
    DivByModulus(x + Half + k * Modulus, q + k);
  }

  /** A value already in 32-bit range is kept as it is. */
  lemma ToInt32OfInt32(x: int)
    requires IsInt32(x)
    ensures ToInt32(x) == x
  {
    DivByModulus(x + Half, 0);
  }

  /** `x << 5`: both the operand and the result are taken through ToInt32. */
  function ShiftLeft5(x: int): (r: int)
    ensures IsInt32(r)
  {
    ToInt32(ToInt32(x) * 32)
  }

  /** One round of the loop body: `((hash << 5) - hash) + char`, then `hash & hash`. */
  function Step(hash: int, unit: CodeUnit): (r: int)
    ensures IsInt32(r)
  {
    ToInt32(ShiftLeft5(hash) - hash + unit)
  }

  /** The round multiplies by 31 and adds the code unit, modulo 2^32. */
  lemma StepIsTimes31(hash: int, unit: CodeUnit)
    requires IsInt32(hash)
    ensures Step(hash, unit) == ToInt32(31 * hash + unit)
  {
    ToInt32OfInt32(hash);
    var shifted := hash * 32;
    var k := (shifted + Half) / Modulus;
    assert ShiftLeft5(hash) == shifted - k * Modulus;
    ToInt32Congruent(31 * hash + unit, -k);
    assert ShiftLeft5(hash) - hash + unit == 31 * hash + unit + (-k) * Modulus;
  }

  /** The value of `hash` after the loop has consumed `units`, starting from 0. */
  function Checksum(units: seq<CodeUnit>): (r: int)
    ensures IsInt32(r)
  {
    if units == [] then 0 else Step(Checksum(units[..|units| - 1]), units[|units| - 1])
  }

  /** The polynomial sum of units[i] * 31^(n-1-i), with no wrap-around. */
  function Polynomial(units: seq<CodeUnit>): int {
    if units == [] then 0 else 31 * Polynomial(units[..|units| - 1]) + units[|units| - 1]
  }

  /** The checksum is the 32-bit value of the unwrapped polynomial. */
  lemma {:induction false} ChecksumIsPolynomial(units: seq<CodeUnit>)
    ensures Checksum(units) == ToInt32(Polynomial(units))
  {
    if units == [] {
      ToInt32OfInt32(0);
    } else {
      var prefix, last := units[..|units| - 1], units[|units| - 1];
      ChecksumIsPolynomial(prefix);
      var h, p := Checksum(prefix), Polynomial(prefix);
      StepIsTimes31(h, last);
      var k := (p + Half) / Modulus;
      assert h == p - k * Modulus;
      ToInt32Congruent(31 * p + last, -31 * k);
      assert 31 * h + last == 31 * p + last + (-31 * k) * Modulus;
    }
  }

  /** `Math.abs(hash)`. */
  function Magnitude(hash: int): (r: nat)
    ensures r == hash || r == -hash
  {
    if hash < 0 then -hash else hash
  }

  /** The hashed text: number, date, customer, VAT number, total and VAT amount, unseparated. */
  function HashText(invoice: InvoiceData, numberText: JsNumber -> string): string
  {
    ShowNumber(invoice.no, numberText) + Show(invoice.date) + Show(invoice.customer) +
    Show(invoice.vatNo) + ShowNumber(invoice.total, numberText) +
    ShowNumber(invoice.vatAmount, numberText)
  }

  /** UTF-16: one code unit below U+10000, a surrogate pair above. */
  function Utf16(s: string): (units: seq<CodeUnit>)
    ensures |s| <= |units| <= 2 * |s|
  {
    if s == [] then []
    else
      var c := s[0] as int;
      var head: seq<CodeUnit> :=
        if c < 0x1_0000 then [c]
        else [0xD800 + (c - 0x1_0000) / 0x400, 0xDC00 + (c - 0x1_0000) % 0x400];
      head + Utf16(s[1..])
  }

  /** Text without characters beyond U+FFFF has one code unit per character, its own code. */
  lemma {:induction false} Utf16OfBasicPlane(s: string)
    requires forall i :: 0 <= i < |s| ==> s[i] as int < 0x1_0000
    ensures |Utf16(s)| == |s|
    ensures forall i :: 0 <= i < |s| ==> Utf16(s)[i] == s[i] as int
  {
    if s != [] {
      Utf16OfBasicPlane(s[1..]);
      assert forall i :: 1 <= i < |s| ==> s[i] == s[1..][i - 1];
    }
  }

  /** The code units the loop of generateInvoiceHash reads. */
  function HashData(invoice: InvoiceData, numberText: JsNumber -> string): seq<CodeUnit>
  {
    Utf16(HashText(invoice, numberText))
  }

  /** The magnitude of a 32-bit value needs at most eight hexadecimal digits. */
  lemma MagnitudeDigits(hash: int)
    requires IsInt32(hash)
    ensures |ToHexString(Magnitude(hash))| <= 8
  {
    assert Pow16(8) == Modulus;
    ToHexStringLength(Magnitude(hash), 8);
  }

  /** The digest generateInvoiceHash returns for an invoice. */
  function InvoiceHash(invoice: InvoiceData, numberText: JsNumber -> string): string {
    ToHexString(Magnitude(Checksum(HashData(invoice, numberText))))
  }

  /**
   * generateInvoiceHash: the loop over the code units, then `Math.abs(hash).toString(16)`.
   * The digest is the hexadecimal magnitude of the wrapped polynomial of the hashed text.
   */
  method GenerateInvoiceHash(invoice: InvoiceData, numberText: JsNumber -> string)
    returns (digest: string)
    ensures digest == InvoiceHash(invoice, numberText)
    ensures 1 <= |digest| <= 8 && IsLowerHex(digest)
    ensures ParseHex(digest) == Magnitude(ToInt32(Polynomial(HashData(invoice, numberText))))
  {
    var hashData := HashData(invoice, numberText);
    var hash := 0;
    var i := 0;
    while i < |hashData|
      invariant 0 <= i <= |hashData|
      invariant hash == Checksum(hashData[..i])
    {
      var unit := hashData[i];
      hash := (ShiftLeft5(hash) - hash) + unit;
      hash := ToInt32(hash);
      i := i + 1;
      assert hashData[..i][..i - 1] == hashData[..i - 1];
    }
    assert hashData[..i] == hashData;
    digest := ToHexString(Magnitude(hash));
    MagnitudeDigits(hash);
    ParseHexOfToHexString(Magnitude(hash));
    ChecksumIsPolynomial(hashData);
  }
}
