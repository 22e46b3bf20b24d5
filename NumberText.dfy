/** How a number turns into text inside a template literal (`${num}`).
    A whole number of magnitude at most 2^53 is written as an optional minus
    sign followed by its decimal digits, without leading zeros, exactly as
    JavaScript writes it. Larger and fractional numbers follow the exact value
    here, not JavaScript's shortest round-trip digits. */
module NumberText {

  predicate IsDigit(c: char)
  {
    '0' <= c <= '9'
  }

  predicate AllDigits(s: string)
  {
    forall i :: 0 <= i < |s| ==> IsDigit(s[i])
  }

  /** A digit string in canonical form: non-empty and without a leading zero,
      except for "0" itself. */
  predicate Canonical(s: string)
  {
    |s| >= 1 && AllDigits(s) && (s[0] == '0' ==> s == "0")
  }

  function DigitChar(d: nat): (c: char)
    requires d < 10
    ensures IsDigit(c)
  {
    (48 + d) as char
  }

  function DigitValue(c: char): (d: nat)
    requires IsDigit(c)
    ensures d < 10
  {
    c as int - 48
  }

  lemma DigitValueOfDigitChar(d: nat)
    requires d < 10
    ensures DigitValue(DigitChar(d)) == d
  {
  }

  lemma DigitCharOfDigitValue(c: char)
    requires IsDigit(c)
    ensures DigitChar(DigitValue(c)) == c
  {
  }

  /** The decimal digits of a natural number, most significant first. */
  function NatToDecimal(n: nat): (s: string)
    ensures Canonical(s)
    ensures s[0] == '0' <==> n == 0
  {
    if n < 10 then [DigitChar(n)] else NatToDecimal(n / 10) + [DigitChar(n % 10)]
  }

  /** The natural number a digit string denotes. */
  function DecimalValue(s: string): nat
    requires AllDigits(s)
  {
    if s == [] then 0 else 10 * DecimalValue(s[..|s| - 1]) + DigitValue(s[|s| - 1])
  }

  /** Reading the rendered digits back gives the number. */
  lemma {:induction false} DecimalValueOfNatToDecimal(n: nat)
    ensures DecimalValue(NatToDecimal(n)) == n
  {
    var s := NatToDecimal(n);
    if n < 10 {
      assert s[..0] == [];
      DigitValueOfDigitChar(n);
    } else {
      var p := NatToDecimal(n / 10);
      assert s == p + [DigitChar(n % 10)];
      assert s[..|s| - 1] == p;
      DecimalValueOfNatToDecimal(n / 10);
      DigitValueOfDigitChar(n % 10);
    }
  }

  lemma {:induction false} LeadingDigitPositive(s: string)
    requires |s| >= 1 && AllDigits(s) && s[0] != '0'
    ensures DecimalValue(s) >= 1
  {
    if |s| == 1 {
      assert s[..0] == [];
    } else {
      var p := s[..|s| - 1];
      assert p[0] == s[0];
      LeadingDigitPositive(p);
    }
  }

  /** Every canonical digit string is the rendering of the number it denotes,
      so rendering is a bijection between naturals and canonical strings. */
  lemma {:induction false} NatToDecimalOfDecimalValue(s: string)
    requires Canonical(s)
    ensures NatToDecimal(DecimalValue(s)) == s
  {
    var p := s[..|s| - 1];
    var c := s[|s| - 1];
    DigitCharOfDigitValue(c);
    if |s| == 1 {
      assert p == [];
      assert s == [c];
    } else {
      assert p[0] == s[0];
      LeadingDigitPositive(p);
      NatToDecimalOfDecimalValue(p);
      var v := DecimalValue(s);
      assert v / 10 == DecimalValue(p) && v % 10 == DigitValue(c);
      assert s == p + [c];
    }
  }

  lemma NatToDecimalInjective(m: nat, n: nat)
    requires NatToDecimal(m) == NatToDecimal(n)
    ensures m == n
  {
    DecimalValueOfNatToDecimal(m);
    DecimalValueOfNatToDecimal(n);
  }

  /** The most fractional digits rendered for a number that is not whole. */
  const MaxFractionDigits: nat := 20

  /** The decimal expansion of a fraction strictly between 0 and 1, stopping when
      it terminates or after `fuel` digits. */
  function FractionDigits(f: real, fuel: nat): (s: string)
    requires 0.0 < f < 1.0
    ensures 1 <= |s| && AllDigits(s)
    decreases fuel
  {
    var d := (f * 10.0).Floor;
    var rest := f * 10.0 - d as real;
    [DigitChar(d)] + (if rest == 0.0 || fuel <= 1 then "" else FractionDigits(rest, fuel - 1))
  }

  function RenderNonNegative(x: real): string
    requires x >= 0.0
  {
    var whole := x.Floor;
    var frac := x - whole as real;
    NatToDecimal(whole) + (if frac == 0.0 then "" else "." + FractionDigits(frac, MaxFractionDigits))
  }

  /** The text `${x}` produces for the number `x`, for whole numbers of
      magnitude at most 2^53; beyond that it gives the exact digits. */
  function Render(x: real): string
  {
    if x < 0.0 then "-" + RenderNonNegative(-x) else RenderNonNegative(x)
  }

  /** A whole number renders as its sign followed by its canonical digits,
      and nothing else. */
  lemma RenderWhole(i: int)
    ensures i >= 0 ==> Render(i as real) == NatToDecimal(i)
    ensures i < 0 ==> Render(i as real) == "-" + NatToDecimal(-i)
  {
    if i >= 0 {
      assert (i as real).Floor == i;
    } else {
      assert (-(i as real)).Floor == -i;
    }
  }

  /** A rendered natural number contains no sign and no decimal point, and
      reading its digits back gives the number. */
  lemma RenderNatRoundTrip(n: nat)
    ensures AllDigits(Render(n as real))
    ensures DecimalValue(Render(n as real)) == n
  {
    RenderWhole(n);
    DecimalValueOfNatToDecimal(n);
  }
}
