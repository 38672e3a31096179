/**
 * An exact model of what Python's `float(text)` accepts and what it is
 * compared against in the coordinate range check: an optional sign, digits,
 * one `.`, digits, with at least one digit in all.
 */
module Decimals {
  import opened Wrappers
  import opened Strings

  datatype Sign = Unsigned | Plus | Minus

  /** The literal `sign whole . fraction`. */
  datatype Decimal = Decimal(sign: Sign, whole: string, fraction: string)

  predicate WellFormed(d: Decimal) {
    AllDigits(d.whole) && AllDigits(d.fraction) && (d.whole != [] || d.fraction != [])
  }

  function SignText(s: Sign): string {
    match s
    case Unsigned => ""
    case Plus => "+"
    case Minus => "-"
  }

  /** The text of a decimal literal. */
  function Render(d: Decimal): string {
    SignText(d.sign) + d.whole + "." + d.fraction
  }

  /** The sign a literal starts with. */
  function LeadingSign(s: string): Sign {
    if s != [] && s[0] == '-' then Minus else if s != [] && s[0] == '+' then Plus else Unsigned
  }

  /** The literal without its sign. */
  function AfterSign(s: string): (body: string)
    ensures s == SignText(LeadingSign(s)) + body
  {
    if LeadingSign(s) == Unsigned then s else s[1..]
  }

  /** Reads a decimal literal; None where `float()` would raise ValueError. */
  function ParseDecimal(s: string): (r: Option<Decimal>)
    ensures r.Some? ==> WellFormed(r.value) && Render(r.value) == s
  {
    var parts := Split(AfterSign(s), '.');
    if |parts| == 2 && AllDigits(parts[0]) && AllDigits(parts[1]) && (parts[0] != [] || parts[1] != []) then
      SplitJoins(AfterSign(s), '.');
      RenderOfParts(s, parts);
      Some(Decimal(LeadingSign(s), parts[0], parts[1]))
    else
      None
  }

  lemma RenderOfParts(s: string, parts: seq<string>)
    requires |parts| == 2 && Join(parts, '.') == AfterSign(s)
    ensures Render(Decimal(LeadingSign(s), parts[0], parts[1])) == s
  {
    JoinOfTwo(parts, '.');
  }

  /** Every well-formed literal reads back as itself. */
  lemma ParseOfRender(d: Decimal)
    requires WellFormed(d)
    ensures ParseDecimal(Render(d)) == Some(d)
  {
    SignOfRender(d);
    SplitOfLiteral(d);
  }

  lemma SignOfRender(d: Decimal)
    requires WellFormed(d)
    ensures LeadingSign(Render(d)) == d.sign
    ensures AfterSign(Render(d)) == d.whole + "." + d.fraction
  {
    var body := d.whole + "." + d.fraction;
    assert Render(d) == SignText(d.sign) + body;
    match d.sign
    case Unsigned =>
      assert body[0] == (if d.whole != [] then d.whole[0] else '.');
      UnsignedBody(body);
    case Plus => SignedBody('+', body);
    case Minus => SignedBody('-', body);
  }

  lemma UnsignedBody(body: string)
    requires body != [] && body[0] != '-' && body[0] != '+'
    ensures LeadingSign(body) == Unsigned && AfterSign(body) == body
  {
  }

  lemma SignedBody(c: char, body: string)
    requires c == '-' || c == '+'
    ensures LeadingSign([c] + body) == (if c == '-' then Minus else Plus)
    ensures AfterSign([c] + body) == body
  {
    assert ([c] + body)[1..] == body;
  }

  lemma SplitOfLiteral(d: Decimal)
    requires WellFormed(d)
    ensures Split(d.whole + "." + d.fraction, '.') == [d.whole, d.fraction]
  {
    assert '.' !in d.whole && '.' !in d.fraction by {
      assert !IsDigit('.');
    }
    SplitOfJoin([d.whole, d.fraction], '.');
    JoinOfTwo([d.whole, d.fraction], '.');
  }

  function Pow10(k: nat): (r: nat)
    ensures r >= 1
  {
    if k == 0 then 1 else 10 * Pow10(k - 1)
  }

  /** The exact rational number a well-formed literal denotes. */
  ghost function Value(d: Decimal): real
    requires WellFormed(d)
  {
    var magnitude := DigitsValue(d.whole) as real + FractionValue(d.fraction);
    if d.sign == Minus then -magnitude else magnitude
  }

  /** The value of the digits after the point: below one, and zero exactly for a run of zeros. */
  ghost function FractionValue(f: string): (q: real)
    requires AllDigits(f)
    ensures 0.0 <= q < 1.0
    ensures q == 0.0 <==> AllZeros(f)
  {
    FractionValueBounds(f);
    DigitsValue(f) as real / Pow10(|f|) as real
  }

  predicate AllZeros(s: string) {
    forall i :: 0 <= i < |s| ==> s[i] == '0'
  }

  /**
   * `-bound <= float(text) <= bound`, decided on the digits: the whole part is
   * below the bound, or equal to it with a fraction of zeros only.
   */
  predicate WithinBound(d: Decimal, bound: nat)
    requires WellFormed(d)
  {
    DigitsValue(d.whole) < bound || (DigitsValue(d.whole) == bound && AllZeros(d.fraction))
  }

  lemma {:induction false} FractionBelowOne(f: string)
    requires AllDigits(f)
    ensures DigitsValue(f) < Pow10(|f|)
    ensures DigitsValue(f) == 0 <==> AllZeros(f)
  {
    if f != [] {
      var init := f[..|f| - 1];
      FractionBelowOne(init);
      assert DigitsValue(f) == DigitsValue(init) * 10 + DigitValue(f[|f| - 1]);
      if AllZeros(f) {
        assert AllZeros(init);
      }
      if DigitsValue(f) == 0 {
        assert DigitsValue(init) == 0 && f[|f| - 1] == '0';
        forall i | 0 <= i < |f| ensures f[i] == '0' {
          if i < |f| - 1 { assert f[i] == init[i]; }
        }
      }
    }
  }

  /** The digit-wise range test agrees with the exact value. */
  lemma WithinBoundIsExact(d: Decimal, bound: nat)
    requires WellFormed(d)
    ensures WithinBound(d, bound) <==> -(bound as real) <= Value(d) <= bound as real
  {
    var n := DigitsValue(d.whole);
    var q := FractionValue(d.fraction);
    assert Value(d) == if d.sign == Minus then -(n as real + q) else n as real + q;
    MagnitudeWithinBound(n, q, bound);
  }

  lemma FractionValueBounds(f: string)
    requires AllDigits(f)
    ensures 0.0 <= DigitsValue(f) as real / Pow10(|f|) as real < 1.0
    ensures DigitsValue(f) as real / Pow10(|f|) as real == 0.0 <==> AllZeros(f)
  {
    FractionBelowOne(f);
    QuotientBelowOne(DigitsValue(f) as real, Pow10(|f|) as real);
  }

  lemma QuotientBelowOne(x: real, p: real)
    requires 0.0 <= x < p
    ensures 0.0 <= x / p < 1.0
    ensures x / p == 0.0 <==> x == 0.0
  {
    var q := x / p;
    assert q * p == x;
    if q >= 1.0 {
      assert q * p - p == (q - 1.0) * p;
      ProductNonNegative(q - 1.0, p);
      assert false;
    }
    if q < 0.0 {
      ProductNonNegative(-q, p);
      assert false;
    }
  }

  lemma ProductNonNegative(a: real, b: real)
    requires a >= 0.0 && b >= 0.0
    ensures a * b >= 0.0
  {
  }

  lemma MagnitudeWithinBound(n: nat, q: real, bound: nat)
    requires 0.0 <= q < 1.0
    ensures (n < bound || (n == bound && q == 0.0)) <==> n as real + q <= bound as real
    ensures -(bound as real) <= -(n as real + q) <==> n as real + q <= bound as real
  {
  }
}
