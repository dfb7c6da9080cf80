/**
 * Python's `decimal.Decimal` as far as the uploader uses it: finite values written as a
 * sign, a coefficient and a decimal exponent. Which texts `Decimal(text)` accepts is left
 * to an injected syntax; only the empty text, which it always rejects, is fixed here.
 */
module Numeric {
  import opened Wrappers
  import opened Text

  function Pow10(n: nat): (p: nat)
    ensures p >= 1
  {
    if n == 0 then 1 else 10 * Pow10(n - 1)
  }

  /** `10 ** e` as an exact rational, for any integer `e`. */
  function Scale(e: int): (s: real)
    ensures s > 0.0
  {
    if e >= 0 then Pow10(e) as real else 1.0 / Pow10(-e) as real
  }

  lemma ScaleStep(e: int)
    ensures Scale(e + 1) == 10.0 * Scale(e)
  {
    if e < 0 {
      var p := Pow10(-e - 1) as real;
      assert Pow10(-e) as real == 10.0 * p;
      assert Scale(e) * (10.0 * p) == 1.0;
    }
  }

  /** `x * 10 ** e`, reached one power of ten at a time. */
  function Scaled(x: real, e: int): real
    decreases if e >= 0 then e else -e
  {
    if e == 0 then x
    else if e > 0 then 10.0 * Scaled(x, e - 1)
    else Scaled(x, e + 1) / 10.0
  }

  lemma {:induction false} ScaledIsProduct(x: real, e: int)
    ensures Scaled(x, e) == x * Scale(e)
    decreases if e >= 0 then e else -e
  {
    if e > 0 {
      ScaledIsProduct(x, e - 1);
      ScaleStep(e - 1);
    } else if e < 0 {
      ScaledIsProduct(x, e + 1);
      ScaleStep(e);
    }
  }

  /** A finite Decimal: `(-1) ** negative * coefficient * 10 ** exponent`. */
  datatype Decimal = Decimal(negative: bool, coefficient: nat, exponent: int) {
    function Value(): real {
      var magnitude := Scaled(coefficient as real, exponent);
      if negative then -magnitude else magnitude
    }
  }

  /** `Decimal(text)`: the value the text denotes, or None when the constructor raises. */
  type DecimalSyntax = string -> Option<Decimal>

  function ParseDecimal(syntax: DecimalSyntax, text: string): (r: Option<Decimal>)
    ensures text == "" ==> r == None
    ensures text != "" ==> r == syntax(text)
  {
    if text == "" then None else syntax(text)
  }

  /** `to_integral_value(rounding=ROUND_HALF_UP)`: the nearest integer, ties away from zero. */
  function RoundHalfUp(x: real): (n: int)
    ensures x - 0.5 <= n as real <= x + 0.5
    ensures x >= 0.0 ==> x - n as real < 0.5
    ensures x < 0.0 ==> n as real - x < 0.5
  {
    if x >= 0.0 then (x + 0.5).Floor else -((-x + 0.5).Floor)
  }

  lemma RoundHalfUpOfInteger(n: int)
    ensures RoundHalfUp(n as real) == n
  {
  }

  /**
   * `Decimal.normalize()`: trailing zeros of the coefficient move into the exponent,
   * and a zero becomes a zero with exponent 0 (keeping its sign).
   */
  function Normalize(d: Decimal): (r: Decimal)
    ensures r.Value() == d.Value()
    ensures r.negative == d.negative
    ensures r.coefficient == 0 ==> r.exponent == 0
    ensures r.coefficient == 0 || r.coefficient % 10 != 0
    ensures r.coefficient == 0 <==> d.coefficient == 0
    decreases d.coefficient
  {
    if d.coefficient == 0 then
      ScaledIsProduct(0.0, d.exponent);
      Decimal(d.negative, 0, 0)
    else if d.coefficient % 10 == 0 then
      var next := Decimal(d.negative, d.coefficient / 10, d.exponent + 1);
      NormalizeStep(d);
      Normalize(next)
    else d
  }

  lemma NormalizeStep(d: Decimal)
    requires d.coefficient % 10 == 0
    ensures Decimal(d.negative, d.coefficient / 10, d.exponent + 1).Value() == d.Value()
  {
    ScaleStep(d.exponent);
    var q := (d.coefficient / 10) as real;
    ScaledIsProduct(q, d.exponent + 1);
    ScaledIsProduct(d.coefficient as real, d.exponent);
    assert d.coefficient as real == 10.0 * q;
    assert q * Scale(d.exponent + 1) == q * (10.0 * Scale(d.exponent));
  }

  function Zeros(n: nat): (z: string)
    ensures |z| == n
    ensures forall i :: 0 <= i < n ==> z[i] == '0'
  {
    if n == 0 then "" else "0" + Zeros(n - 1)
  }

  /** The digits of a coefficient with a decimal point `k` places from the right. */
  function PointInserted(digits: string, k: nat): (r: string)
    requires digits != [] && k >= 1
    ensures '.' in r
  {
    if |digits| > k then digits[..|digits| - k] + "." + digits[|digits| - k..]
    else "0." + Zeros(k - |digits|) + digits
  }

  /** `format(d, "f")` without the sign. */
  function UnsignedText(d: Decimal): (r: string)
    ensures r != [] && r[0] != '-'
  {
    if d.exponent >= 0 then NatToText(d.coefficient * Pow10(d.exponent))
    else PointInserted(NatToText(d.coefficient), -d.exponent)
  }

  /** `format(d, "f")`: fixed-point notation, never an exponent. */
  function FormatFixed(d: Decimal): (r: string)
    ensures r != [] && (r[0] == '-' <==> d.negative)
  {
    (if d.negative then "-" else "") + UnsignedText(d)
  }

  /** `format(d.normalize(), "f")`, the form `_format_money` and `_normalise_decimal` produce. */
  function FormatPlain(d: Decimal): (r: string)
    ensures FixedNotation(r)
    ensures ReadFixed(r).Value() == d.Value()
  {
    FormatFixedRoundTrip(Normalize(d));
    FormatFixed(Normalize(d))
  }

  /** The plain form carries no superfluous zero: a fraction never ends in 0. */
  lemma FormatPlainMinimal(d: Decimal)
    ensures '.' in FormatPlain(d) ==> FormatPlain(d)[|FormatPlain(d)| - 1] != '0'
  {
    FixedMinimal(Normalize(d));
  }

  /** A normalised Decimal written in fixed notation does not end its fraction with 0. */
  lemma FixedMinimal(n: Decimal)
    requires n.coefficient == 0 ==> n.exponent == 0
    requires n.coefficient == 0 || n.coefficient % 10 != 0
    ensures var r := FormatFixed(n); '.' in r ==> r[|r| - 1] != '0'
  {
    var sign := if n.negative then "-" else "";
    var u := UnsignedText(n);
    assert FormatFixed(n) == sign + u;
    if n.exponent >= 0 {
      var digits := NatToText(n.coefficient * Pow10(n.exponent));
      assert '.' !in digits;
    } else {
      var digits := NatToText(n.coefficient);
      NatToTextLast(n.coefficient);
      assert u[|u| - 1] == digits[|digits| - 1];
    }
  }

  lemma NatToTextLast(n: nat)
    ensures NatToText(n)[|NatToText(n)| - 1] == Digit(n % 10)
  {
  }

  // ---------------------------------------------------------------- reading fixed notation back

  /** Digits with an optional point between two non-empty runs of digits. */
  predicate UnsignedFixed(t: string) {
    if '.' in t then
      var i := IndexOf(t, '.');
      0 < i < |t| - 1 && IsDigits(t[..i]) && IsDigits(t[i + 1..])
    else t != [] && IsDigits(t)
  }

  /** Text in fixed-point notation: an optional minus sign and unsigned fixed notation. */
  predicate FixedNotation(t: string) {
    if t != [] && t[0] == '-' then UnsignedFixed(t[1..]) else UnsignedFixed(t)
  }

  /** Unsigned fixed notation read as a coefficient (the digits without the point) and a scale. */
  function ReadUnsigned(t: string): (r: Decimal)
    ensures !r.negative && r.exponent <= 0
  {
    if '.' in t then
      var i := IndexOf(t, '.');
      Decimal(false, DigitsValue(t[..i] + t[i + 1..]), -(|t| - i - 1))
    else Decimal(false, DigitsValue(t), 0)
  }

  /** Fixed notation read back as a Decimal, independently of how it was written. */
  function ReadFixed(t: string): (r: Decimal)
    ensures r.negative <==> t != [] && t[0] == '-'
  {
    var negative := t != [] && t[0] == '-';
    var u := ReadUnsigned(if negative then t[1..] else t);
    Decimal(negative, u.coefficient, u.exponent)
  }

  lemma {:induction false} DigitsValueAppend(a: string, b: string)
    ensures DigitsValue(a + b) == DigitsValue(a) * Pow10(|b|) + DigitsValue(b)
  {
    if b == [] {
      assert a + b == a;
    } else {
      var ab := a + b;
      var b' := b[..|b| - 1];
      assert ab[..|ab| - 1] == a + b';
      assert ab[|ab| - 1] == b[|b| - 1];
      DigitsValueAppend(a, b');
      ShiftDigit(DigitsValue(a), Pow10(|b'|), DigitsValue(b'), DigitValue(b[|b| - 1]));
    }
  }

  lemma ShiftDigit(x: nat, p: nat, y: nat, last: nat)
    ensures 10 * (x * p + y) + last == x * (10 * p) + (10 * y + last)
  {
  }

  lemma {:induction false} ZerosValue(n: nat)
    ensures DigitsValue(Zeros(n)) == 0
  {
    if n > 0 {
      assert Zeros(n) == Zeros(n - 1) + "0" by {
        ZerosSnoc(n - 1);
      }
      assert Zeros(n)[..n - 1] == Zeros(n - 1);
      ZerosValue(n - 1);
    }
  }

  lemma ZerosSnoc(n: nat)
    ensures Zeros(n + 1) == Zeros(n) + "0"
  {
  }

  /** Reading the fixed notation of a Decimal back gives a Decimal of the same value. */
  lemma FormatFixedRoundTrip(d: Decimal)
    ensures FixedNotation(FormatFixed(d))
    ensures ReadFixed(FormatFixed(d)).Value() == d.Value()
  {
    var t, u := FormatFixed(d), UnsignedText(d);
    UnsignedRoundTrip(d);
    if d.negative {
      assert t[1..] == u;
    } else {
      assert t == u;
    }
    var back := ReadUnsigned(u);
    SameMagnitude(d, back, ReadFixed(t));
  }

  lemma SameMagnitude(d: Decimal, magnitude: Decimal, r: Decimal)
    requires magnitude.Value() == Decimal(false, d.coefficient, d.exponent).Value()
    requires !magnitude.negative && r.negative == d.negative
    requires r.coefficient == magnitude.coefficient && r.exponent == magnitude.exponent
    ensures r.Value() == d.Value()
  {
  }

  lemma UnsignedRoundTrip(d: Decimal)
    ensures UnsignedFixed(UnsignedText(d))
    ensures ReadUnsigned(UnsignedText(d)).Value() == Decimal(false, d.coefficient, d.exponent).Value()
  {
    if d.exponent >= 0 {
      WholeRoundTrip(d.coefficient, d.exponent);
    } else {
      FractionRoundTrip(d.coefficient, -d.exponent);
      assert -((-d.exponent) as int) == d.exponent;
    }
  }

  lemma WholeRoundTrip(c: nat, e: nat)
    ensures UnsignedFixed(NatToText(c * Pow10(e)))
    ensures ReadUnsigned(NatToText(c * Pow10(e))).Value() == Decimal(false, c, e).Value()
  {
    var m := c * Pow10(e);
    NatTextRoundTrip(m);
    assert ReadUnsigned(NatToText(m)) == Decimal(false, m, 0);
    WholeValue(c, e);
  }

  lemma FractionRoundTrip(c: nat, k: nat)
    requires k >= 1
    ensures UnsignedFixed(PointInserted(NatToText(c), k))
    ensures ReadUnsigned(PointInserted(NatToText(c), k)) == Decimal(false, c, -(k as int))
  {
    if |NatToText(c)| > k {
      LongFractionRoundTrip(c, k);
    } else {
      ShortFractionRoundTrip(c, k);
    }
  }

  lemma WholeValue(c: nat, e: nat)
    ensures Decimal(false, c * Pow10(e), 0).Value() == Decimal(false, c, e).Value()
  {
    var p := Pow10(e);
    assert Decimal(false, c * p, 0).Value() == (c * p) as real;
    RealOfProduct(c, p);
    ScaledIsProduct(c as real, e);
    assert Scale(e) == p as real;
  }

  lemma RealOfProduct(a: nat, b: nat)
    ensures (a * b) as real == a as real * b as real
  {
  }

  /** The text of a natural number is unsigned fixed notation for that number. */
  lemma NatTextRoundTrip(n: nat)
    ensures UnsignedFixed(NatToText(n))
    ensures ReadUnsigned(NatToText(n)) == Decimal(false, n, 0)
  {
    var t := NatToText(n);
    NatToTextRoundTrip(n);
    assert '.' !in t by {
      assert forall i :: 0 <= i < |t| ==> t[i] != '.';
    }
  }

  /** Digits, a point and more digits read as all the digits, scaled by the fraction's length. */
  lemma PointSplit(whole: string, fraction: string)
    requires IsDigits(whole) && IsDigits(fraction) && whole != [] && fraction != []
    ensures UnsignedFixed(whole + "." + fraction)
    ensures ReadUnsigned(whole + "." + fraction) == Decimal(false, DigitsValue(whole + fraction), -|fraction|)
  {
    var u := whole + "." + fraction;
    var i := |whole|;
    assert u[..i] == whole && u[i] == '.' && u[i + 1..] == fraction;
    assert '.' !in whole;
    assert IndexOf(u, '.') == i;
    assert u[..i] + u[i + 1..] == whole + fraction;
  }

  lemma LongFractionRoundTrip(c: nat, k: nat)
    requires 1 <= k < |NatToText(c)|
    ensures UnsignedFixed(PointInserted(NatToText(c), k))
    ensures ReadUnsigned(PointInserted(NatToText(c), k)) == Decimal(false, c, -(k as int))
  {
    var digits := NatToText(c);
    NatToTextRoundTrip(c);
    LongFractionText(digits, k);
    PointSplit(digits[..|digits| - k], digits[|digits| - k..]);
  }

  /** A long coefficient is cut in two runs of digits around the point. */
  lemma LongFractionText(digits: string, k: nat)
    requires IsDigits(digits) && 1 <= k < |digits|
    ensures var whole, fraction := digits[..|digits| - k], digits[|digits| - k..];
      && IsDigits(whole) && IsDigits(fraction) && whole + fraction == digits
      && PointInserted(digits, k) == whole + "." + fraction
  {
    var whole, fraction := digits[..|digits| - k], digits[|digits| - k..];
    assert whole + fraction == digits;
  }

  lemma ShortFractionRoundTrip(c: nat, k: nat)
    requires 1 <= k && |NatToText(c)| <= k
    ensures UnsignedFixed(PointInserted(NatToText(c), k))
    ensures ReadUnsigned(PointInserted(NatToText(c), k)) == Decimal(false, c, -(k as int))
  {
    var digits := NatToText(c);
    NatToTextRoundTrip(c);
    ShortFractionText(digits, k);
    ShortFractionValue(k - |digits|, digits);
    PointSplit("0", Zeros(k - |digits|) + digits);
  }

  /** A short coefficient is written as "0.", padding zeros and its digits. */
  lemma ShortFractionText(digits: string, k: nat)
    requires digits != [] && 1 <= k && |digits| <= k
    ensures PointInserted(digits, k) == "0" + "." + (Zeros(k - |digits|) + digits)
  {
    assert "0." + Zeros(k - |digits|) + digits == "0" + "." + (Zeros(k - |digits|) + digits);
  }

  lemma ShortFractionValue(n: nat, digits: string)
    requires IsDigits(digits)
    ensures IsDigits(Zeros(n) + digits) && IsDigits("0" + (Zeros(n) + digits))
    ensures DigitsValue("0" + (Zeros(n) + digits)) == DigitsValue(digits)
  {
    var w := Zeros(n + 1);
    assert "0" + (Zeros(n) + digits) == w + digits;
    DigitsConcat(Zeros(n), digits);
    DigitsConcat(w, digits);
    DigitsValueAppend(w, digits);
    ZerosValue(n + 1);
  }

  lemma DigitsConcat(a: string, b: string)
    requires IsDigits(a) && IsDigits(b)
    ensures IsDigits(a + b)
  {
    assert forall i :: 0 <= i < |a + b| ==> (a + b)[i] == if i < |a| then a[i] else b[i - |a|];
  }
}
