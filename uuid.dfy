/**
 * generateUUID of zatca-invoice-processor/index.ts: every `x` and `y` of a version-4
 * template is replaced, left to right, by a hexadecimal digit drawn from a random
 * nibble. The nibbles `Math.random() * 16 | 0` yields are an input here.
 */
module InvoiceUuid {
  import opened HexText

  /** `Math.random() * 16 | 0`: an integer from 0 to 15. */
  type Nibble = x: int | 0 <= x < 16

  /** n placeholders `x` in a row. */
  function Run(n: nat): (r: string)
    ensures |r| == n && forall i :: 0 <= i < n ==> r[i] == 'x'
  {
    seq(n, _ => 'x')
  }

  /** `xxxxxxxx-xxxx-4xxx-yxxx-xxxxxxxxxxxx`, written group by group. */
  const Template: string := Run(8) + "-" + Run(4) + "-4" + Run(3) + "-y" + Run(3) + "-" + Run(12)

  /** The number of `x` and `y` placeholders the callback is invoked for. */
  function Placeholders(t: string): (n: nat)
    ensures n <= |t|
  {
    if t == [] then 0
    else (if t[0] == 'x' || t[0] == 'y' then 1 else 0) + Placeholders(t[1..])
  }

  /** `r & 0x3 | 0x8`, the value written for `y`. */
  function VariantNibble(r: Nibble): (v: Nibble)
    ensures v == 8 + r % 4
  {
    (((r as bv8) & 0x3) | 0x8) as int
  }

  /** The character the template position t asks for: a digit, a variant digit or itself. */
  predicate Matches(t: char, c: char) {
    if t == 'x' then IsLowerHexDigit(c)
    else if t == 'y' then c == '8' || c == '9' || c == 'a' || c == 'b'
    else c == t
  }

  /** `t.replace(/[xy]/g, ...)`: each placeholder consumes the next nibble. */
  function Fill(t: string, nibbles: seq<Nibble>): (u: string)
    requires |nibbles| == Placeholders(t)
    ensures |u| == |t|
    ensures forall i :: 0 <= i < |t| ==> Matches(t[i], u[i])
  {
    if t == [] then []
    else if t[0] == 'x' then [HexDigit(nibbles[0])] + Fill(t[1..], nibbles[1..])
    else if t[0] == 'y' then [HexDigit(VariantNibble(nibbles[0]))] + Fill(t[1..], nibbles[1..])
    else [t[0]] + Fill(t[1..], nibbles)
  }

  /** The nibbles a filled template keeps: all of them, but only the low two bits for `y`. */
  function Kept(t: string, nibbles: seq<Nibble>): (k: seq<Nibble>)
    requires |nibbles| == Placeholders(t)
    ensures |k| == |nibbles|
  {
    if t == [] then []
    else if t[0] == 'x' then [nibbles[0]] + Kept(t[1..], nibbles[1..])
    else if t[0] == 'y' then [nibbles[0] % 4] + Kept(t[1..], nibbles[1..])
    else Kept(t[1..], nibbles)
  }

  /** Reads the placeholder positions of a filled template back into nibbles. */
  function ReadBack(t: string, u: string): (k: seq<Nibble>)
    requires |u| == |t|
    ensures |k| == Placeholders(t)
  {
    if t == [] then []
    else if t[0] == 'x' then [DigitValue(u[0])] + ReadBack(t[1..], u[1..])
    else if t[0] == 'y' then [DigitValue(u[0]) % 4] + ReadBack(t[1..], u[1..])
    else ReadBack(t[1..], u[1..])
  }

  /** The filled template carries exactly the nibbles it kept. */
  lemma {:induction false} ReadBackOfFill(t: string, nibbles: seq<Nibble>)
    requires |nibbles| == Placeholders(t)
    ensures ReadBack(t, Fill(t, nibbles)) == Kept(t, nibbles)
  {
    if t != [] {
      var u := Fill(t, nibbles);
      if t[0] == 'x' || t[0] == 'y' {
        ReadBackOfFill(t[1..], nibbles[1..]);
        assert u[1..] == Fill(t[1..], nibbles[1..]);
        var v := if t[0] == 'x' then nibbles[0] else VariantNibble(nibbles[0]);
        DigitValueOfHexDigit(v);
      } else {
        ReadBackOfFill(t[1..], nibbles);
        assert u[1..] == Fill(t[1..], nibbles);
      }
    }
  }

  /** A version-4 UUID text: the template's hyphens and `4`, hex digits, variant 8 to b. */
  predicate IsUuidV4(u: string) {
    |u| == |Template| && forall i :: 0 <= i < |u| ==> Matches(Template[i], u[i])
  }

  const UuidNibbles: nat := 31

  lemma {:induction false} PlaceholdersConcat(a: string, b: string)
    ensures Placeholders(a + b) == Placeholders(a) + Placeholders(b)
  {
    if a != [] {
      assert (a + b)[0] == a[0] && (a + b)[1..] == a[1..] + b;
      PlaceholdersConcat(a[1..], b);
    } else {
      assert a + b == b;
    }
  }

  lemma {:induction false} PlaceholdersRun(n: nat)
    ensures Placeholders(Run(n)) == n
  {
    if n > 0 {
      assert Run(n)[1..] == Run(n - 1);
      PlaceholdersRun(n - 1);
    }
  }

  /** The template holds 30 `x`, one `y`, and is 36 characters long. */
  lemma TemplatePlaceholders()
    ensures |Template| == 36 && Placeholders(Template) == UuidNibbles
  {
    PlaceholdersRun(8);
    PlaceholdersRun(4);
    PlaceholdersRun(3);
    PlaceholdersRun(12);
    var p := Run(8);
    PlaceholdersConcat(p, "-");
    p := p + "-";
    assert Placeholders(p) == 8;
    PlaceholdersConcat(p, Run(4));
    p := p + Run(4);
    assert Placeholders(p) == 12;
    PlaceholdersConcat(p, "-4");
    p := p + "-4";
    assert Placeholders(p) == 12;
    PlaceholdersConcat(p, Run(3));
    p := p + Run(3);
    assert Placeholders(p) == 15;
    PlaceholdersConcat(p, "-y");
    p := p + "-y";
    assert Placeholders(p) == 16;
    PlaceholdersConcat(p, Run(3));
    p := p + Run(3);
    assert Placeholders(p) == 19;
    PlaceholdersConcat(p, "-");
    p := p + "-";
    assert Placeholders(p) == 19;
    PlaceholdersConcat(p, Run(12));
    p := p + Run(12);
    assert p == Template;
  }

  /** generateUUID, given the 31 random nibbles it draws. */
  function GenerateUuid(nibbles: seq<Nibble>): (u: string)
    requires |nibbles| == UuidNibbles
    ensures IsUuidV4(u)
  {
    TemplatePlaceholders();
    Fill(Template, nibbles)
  }

  /** The fixed characters: 36 long, hyphens at 8, 13, 18 and 23, version digit `4` at 14. */
  lemma UuidLayout(nibbles: seq<Nibble>)
    requires |nibbles| == UuidNibbles
    ensures var u := GenerateUuid(nibbles);
      |u| == 36 && u[8] == '-' && u[13] == '-' && u[18] == '-' && u[23] == '-' &&
      u[14] == '4' && (u[19] == '8' || u[19] == '9' || u[19] == 'a' || u[19] == 'b')
  {
    var u := GenerateUuid(nibbles);
    assert Matches(Template[8], u[8]) && Matches(Template[13], u[13]);
    assert Matches(Template[18], u[18]) && Matches(Template[23], u[23]);
    assert Matches(Template[14], u[14]) && Matches(Template[19], u[19]);
  }

  /** What a UUID retains of its draw: every nibble, the variant one reduced modulo 4. */
  function KeptNibbles(nibbles: seq<Nibble>): (k: seq<Nibble>)
    requires |nibbles| == UuidNibbles
    ensures |k| == UuidNibbles
  {
    TemplatePlaceholders();
    Kept(Template, nibbles)
  }

  /** Two draws give the same UUID exactly when they agree on every kept nibble. */
  lemma SameUuidIffSameKept(a: seq<Nibble>, b: seq<Nibble>)
    requires |a| == UuidNibbles && |b| == UuidNibbles
    ensures GenerateUuid(a) == GenerateUuid(b) <==> KeptNibbles(a) == KeptNibbles(b)
  {
    TemplatePlaceholders();
    ReadBackOfFill(Template, a);
    ReadBackOfFill(Template, b);
    if Kept(Template, a) == Kept(Template, b) {
      FillDeterminedByKept(Template, a, b);
    }
  }

  /** Nibbles that keep the same values fill the template identically. */
  lemma {:induction false} FillDeterminedByKept(t: string, a: seq<Nibble>, b: seq<Nibble>)
    requires |a| == Placeholders(t) && |b| == Placeholders(t)
    requires Kept(t, a) == Kept(t, b)
    ensures Fill(t, a) == Fill(t, b)
  {
    if t != [] {
      var ka, kb := Kept(t, a), Kept(t, b);
      if t[0] == 'x' || t[0] == 'y' {
        assert ka[0] == kb[0] && ka[1..] == kb[1..];
        FillDeterminedByKept(t[1..], a[1..], b[1..]);
      } else {
        FillDeterminedByKept(t[1..], a, b);
      }
    }
  }
}
