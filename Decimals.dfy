/** java.math.BigDecimal as the order layer uses it: an unscaled integer and a
    scale, so that the value is unscaled / 10^scale. add and multiply are
    exact; nothing rounds. */
module Decimals {
  import opened JavaText

  datatype Decimal = Decimal(unscaled: int, scale: nat)

  function Pow10(k: nat): (p: nat)
    ensures p >= 1
  {
    if k == 0 then 1 else 10 * Pow10(k - 1)
  }

  lemma {:induction false} Pow10Add(a: nat, b: nat)
    ensures Pow10(a + b) == Pow10(a) * Pow10(b)
    decreases a
  {
    if a > 0 {
      Pow10Add(a - 1, b);
    }
  }

  /** The number a BigDecimal stands for. */
  function Value(d: Decimal): real
  {
    d.unscaled as real / Pow10(d.scale) as real
  }

  /** BigDecimal.valueOf(long): the number itself, scale 0. */
  function FromLong(n: int): (d: Decimal)
    ensures Value(d) == n as real
  {
    Decimal(n, 0)
  }

  /** BigDecimal.valueOf(double) of a whole number below 10^7, whose
      Double.toString is "n.0": one decimal place. */
  function FromWholeDouble(n: int): (d: Decimal)
    ensures Value(d) == n as real && d.scale == 1
  {
    Decimal(n * 10, 1)
  }

  lemma {:induction false} ScaledQuotient(u: int, p: nat, q: nat)
    requires p >= 1 && q >= 1
    ensures (u * q) as real / (p * q) as real == u as real / p as real
  {
    var pr, qr := p as real, q as real;
    assert (p * q) as real == pr * qr;
    assert (u * q) as real == u as real * qr;
    assert (u as real * qr) / (pr * qr) == u as real / pr;
  }

  lemma RealOfProduct(x: int, y: int)
    ensures (x * y) as real == x as real * y as real
  {
  }

  lemma QuotientOfProducts(x: real, y: real, p: real, q: real)
    requires p > 0.0 && q > 0.0
    ensures (x * y) / (p * q) == (x / p) * (y / q)
  {
    var a, b := x / p, y / q;
    assert x == a * p && y == b * q;
    assert x * y == (a * b) * (p * q);
  }

  lemma {:induction false} ProductValue(x: int, y: int, s: nat, t: nat)
    ensures (x * y) as real / Pow10(s + t) as real
         == (x as real / Pow10(s) as real) * (y as real / Pow10(t) as real)
  {
    Pow10Add(s, t);
    var p, q := Pow10(s), Pow10(t);
    RealOfProduct(p, q);
    RealOfProduct(x, y);
    QuotientOfProducts(x as real, y as real, p as real, q as real);
  }

  /** BigDecimal.multiply: the unscaled values multiply and the scales add,
      so the product is exact. */
  function Multiply(a: Decimal, b: Decimal): (r: Decimal)
    ensures r.scale == a.scale + b.scale
    ensures Value(r) == Value(a) * Value(b)
  {
    ProductValue(a.unscaled, b.unscaled, a.scale, b.scale);
    Decimal(a.unscaled * b.unscaled, a.scale + b.scale)
  }

  function Max(a: nat, b: nat): nat { if a < b then b else a }

  /** d rewritten at a larger scale, same value. */
  function Rescale(d: Decimal, s: nat): (r: Decimal)
    requires d.scale <= s
    ensures r.scale == s && Value(r) == Value(d)
  {
    Pow10Add(d.scale, s - d.scale);
    ScaledQuotient(d.unscaled, Pow10(d.scale), Pow10(s - d.scale));
    Decimal(d.unscaled * Pow10(s - d.scale), s)
  }

  /** BigDecimal.add: both operands brought to the larger scale, then the
      unscaled values added; exact. */
  function Add(a: Decimal, b: Decimal): (r: Decimal)
    ensures r.scale == Max(a.scale, b.scale)
    ensures Value(r) == Value(a) + Value(b)
  {
    var s := Max(a.scale, b.scale);
    var a', b' := Rescale(a, s), Rescale(b, s);
    SumQuotient(a'.unscaled, b'.unscaled, Pow10(s));
    Decimal(a'.unscaled + b'.unscaled, s)
  }

  lemma SumQuotient(x: int, y: int, p: nat)
    requires p >= 1
    ensures (x + y) as real / p as real == x as real / p as real + y as real / p as real
  {
    var pr := p as real;
    var a, b := x as real / pr, y as real / pr;
    assert x as real == a * pr && y as real == b * pr;
    assert (x + y) as real == (a + b) * pr;
  }

  lemma ValueSign(d: Decimal)
    ensures Value(d) >= 0.0 <==> d.unscaled >= 0
  {
  }

  // ---------------------------------------------------------------------
  // BigDecimal.toString

  function Zeros(k: nat): (s: string)
    ensures |s| == k && AllDigits(s)
  {
    if k == 0 then "" else "0" + Zeros(k - 1)
  }

  function Abs(n: int): nat { if n < 0 then -n else n }

  /** The digits with a decimal point placed `scale` digits from the right,
      padded as "0.00ddd" when there are not enough digits. */
  function PointText(digits: string, scale: nat): (s: string)
    requires |digits| >= 1 && AllDigits(digits) && scale >= 1
    ensures ',' !in s
  {
    if |digits| > scale then digits[..|digits| - scale] + "." + digits[|digits| - scale..]
    else "0." + Zeros(scale - |digits|) + digits
  }

  /** The scientific form "d.dddE-n" used when the adjusted exponent is
      below -6. */
  function ScientificText(digits: string, adjusted: int): (s: string)
    requires |digits| >= 1 && AllDigits(digits) && adjusted < 0
    ensures ',' !in s
  {
    [digits[0]] + (if |digits| > 1 then "." + digits[1..] else "") + "E-" + NatText(-adjusted)
  }

  /** BigDecimal.toString for a non-negative scale: the plain digits at scale
      0, a decimal point otherwise, and scientific notation once the adjusted
      exponent (number of digits - 1 - scale) drops below -6. */
  function DecimalText(d: Decimal): (s: string)
    ensures |s| >= 1 && ',' !in s
  {
    var digits := NatText(Abs(d.unscaled));
    var sign := if d.unscaled < 0 then "-" else "";
    var adjusted := |digits| - 1 - d.scale;
    if d.scale == 0 then sign + digits
    else if adjusted >= -6 then sign + PointText(digits, d.scale)
    else sign + ScientificText(digits, adjusted)
  }
}
