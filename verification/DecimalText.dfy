/** Exact decimals and their text, as the decimal library prints them. */
module DecimalText {
  /** The number coef / 10^scale. */
  datatype Decimal = Decimal(coef: int, scale: nat)

  ghost function Value(d: Decimal): real
    decreases d.scale
  {
    if d.scale == 0 then d.coef as real else Value(Decimal(d.coef, d.scale - 1)) / 10.0
  }

  lemma {:induction false} ShiftKeepsValue(coef: int, scale: nat)
    ensures Value(Decimal(10 * coef, scale + 1)) == Value(Decimal(coef, scale))
    decreases scale
  {
    if scale > 0 {
      ShiftKeepsValue(coef, scale - 1);
    }
  }

  lemma {:induction false} NegatedValue(d: Decimal)
    ensures Value(Decimal(-d.coef, d.scale)) == -Value(d)
    decreases d.scale
  {
    if d.scale > 0 {
      NegatedValue(Decimal(d.coef, d.scale - 1));
    }
  }

  function Abs(n: int): nat {
    if n < 0 then -n else n
  }

  /** The same number without trailing zeros in its fraction. */
  function Normal(d: Decimal): Decimal
    decreases d.scale
  {
    if d.scale > 0 && d.coef % 10 == 0 then Normal(Decimal(d.coef / 10, d.scale - 1)) else d
  }

  lemma {:induction false} NormalKeepsValue(d: Decimal)
    ensures Value(Normal(d)) == Value(d)
    ensures Normal(d).coef < 0 <==> d.coef < 0
    decreases d.scale
  {
    if d.scale > 0 && d.coef % 10 == 0 {
      ShiftKeepsValue(d.coef / 10, d.scale - 1);
      NormalKeepsValue(Decimal(d.coef / 10, d.scale - 1));
    }
  }

  // ---------------------------------------------------------------- digits

  predicate IsDigit(c: char) {
    '0' <= c <= '9'
  }

  predicate AllDigits(s: string) {
    forall i :: 0 <= i < |s| ==> IsDigit(s[i])
  }

  function DigitChar(d: nat): (c: char)
    requires d < 10
    ensures IsDigit(c) && DigitValue(c) == d
  {
    '0' + d as char
  }

  function DigitValue(c: char): (d: nat)
    requires IsDigit(c)
    ensures d < 10
  {
    (c - '0') as nat
  }

  function NatText(n: nat): (s: string)
    ensures s != "" && AllDigits(s)
  {
    if n < 10 then [DigitChar(n)] else NatText(n / 10) + [DigitChar(n % 10)]
  }

  /** The last `width` digits of `n`, padded with zeros. */
  function PaddedText(n: nat, width: nat): (s: string)
    ensures |s| == width && AllDigits(s)
  {
    if width == 0 then "" else PaddedText(n / 10, width - 1) + [DigitChar(n % 10)]
  }

  function ReadNat(s: string): nat
    requires AllDigits(s)
  {
    if s == "" then 0 else ReadNat(s[..|s| - 1]) * 10 + DigitValue(s[|s| - 1])
  }

  lemma {:induction false} NatTextReadsBack(n: nat)
    ensures ReadNat(NatText(n)) == n
  {
    if n >= 10 {
      NatTextReadsBack(n / 10);
      assert NatText(n)[..|NatText(n)| - 1] == NatText(n / 10);
    } else {
      assert NatText(n)[..0] == "";
    }
  }

  /** `n` without its last `k` digits. */
  function DropDigits(n: nat, k: nat): nat
    decreases k
  {
    if k == 0 then n else DropDigits(n / 10, k - 1)
  }

  /** The leading digits of a number followed by its last ones spell the number. */
  lemma {:induction false} ReadPadded(a: string, n: nat, width: nat)
    requires AllDigits(a) && ReadNat(a) == DropDigits(n, width)
    ensures ReadNat(a + PaddedText(n, width)) == n
    decreases width
  {
    if width == 0 {
      assert a + PaddedText(n, width) == a;
    } else {
      ReadPadded(a, n / 10, width - 1);
      var s := a + PaddedText(n, width);
      assert s[..|s| - 1] == a + PaddedText(n / 10, width - 1);
    }
  }

  // ---------------------------------------------------------------- decimals

  /** The digits before the point. */
  function Whole(d: Decimal): (s: string)
    requires d.coef >= 0
    ensures s != "" && AllDigits(s)
  {
    NatText(DropDigits(d.coef, d.scale))
  }

  /** The digits after the point. */
  function Fraction(d: Decimal): (s: string)
    requires d.coef >= 0
    ensures |s| == d.scale && AllDigits(s)
  {
    PaddedText(d.coef, d.scale)
  }

  function UnsignedText(d: Decimal): string
    requires d.coef >= 0
  {
    if d.scale == 0 then Whole(d) else Whole(d) + "." + Fraction(d)
  }

  function DecimalString(d: Decimal): string {
    var n := Normal(d);
    (if n.coef < 0 then "-" else "") + UnsignedText(Decimal(Abs(n.coef), n.scale))
  }

  /** The digits of a printed decimal spell its coefficient. */
  lemma UnsignedDigits(d: Decimal)
    requires d.coef >= 0
    ensures ReadNat(Whole(d) + Fraction(d)) == d.coef
  {
    NatTextReadsBack(DropDigits(d.coef, d.scale));
    ReadPadded(Whole(d), d.coef, d.scale);
  }

  // ---------------------------------------------------------------- integers

  function IntText(n: int): string {
    (if n < 0 then "-" else "") + NatText(Abs(n))
  }

  lemma IntTextInjective(m: int, n: int)
    requires IntText(m) == IntText(n)
    ensures m == n
  {
    NatTextReadsBack(Abs(m));
    NatTextReadsBack(Abs(n));
    assert IsDigit(NatText(Abs(m))[0]) && IsDigit(NatText(Abs(n))[0]);
    if m < 0 {
      assert IntText(n)[0] == '-';
      assert IntText(m)[1..] == NatText(Abs(m)) && IntText(n)[1..] == NatText(Abs(n));
    } else {
      assert IntText(m) == NatText(Abs(m)) && IsDigit(IntText(n)[0]);
      assert IntText(n) == NatText(Abs(n));
    }
  }
}
