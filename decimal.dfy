/**
 * The numbers of the coordinator: `Number(text)` applied to the decimal
 * amount and limit strings, the `<` comparison between them, and
 * `toFixed(2)`. Decimal strings are modelled as exact decimals
 * `Dec(mant, scale)`, denoting mant / 10^scale; `NaN` is what `Number`
 * returns for text that is not a decimal literal.
 */
module Decimal {
  import opened Search

  datatype Num = NaN | Dec(mant: int, scale: nat)

  function Pow10(n: nat): (r: nat)
    ensures r >= 1
  {
    if n == 0 then 1 else 10 * Pow10(n - 1)
  }

  predicate IsDigit(c: char)
  {
    '0' <= c <= '9'
  }

  predicate AllDigits(s: string)
  {
    forall i :: 0 <= i < |s| ==> IsDigit(s[i])
  }

  function DigitValue(c: char): (d: nat)
    requires IsDigit(c)
    ensures d < 10
  {
    c as int - '0' as int
  }

  function DigitChar(d: nat): (c: char)
    requires d < 10
    ensures IsDigit(c) && DigitValue(c) == d
  {
    ('0' as int + d) as char
  }

  /** The value of a string of decimal digits, most significant first. */
  function DigitsValue(s: string): nat
    requires AllDigits(s)
  {
    if s == [] then 0 else DigitsValue(s[..|s| - 1]) * 10 + DigitValue(s[|s| - 1])
  }

  /** The decimal rendering of a natural number, without leading zeros. */
  function NatToString(n: nat): (r: string)
    ensures |r| > 0 && AllDigits(r)
  {
    if n < 10 then [DigitChar(n)] else NatToString(n / 10) + [DigitChar(n % 10)]
  }

  lemma {:induction false} NatToStringRoundTrip(n: nat)
    ensures DigitsValue(NatToString(n)) == n
  {
    if n >= 10 {
      var w := NatToString(n / 10);
      NatToStringRoundTrip(n / 10);
      assert (w + [DigitChar(n % 10)])[..|w|] == w;
    }
  }

  /** The value of a string of two digits. */
  lemma TwoDigitsValue(a: char, b: char)
    requires IsDigit(a) && IsDigit(b)
    ensures DigitsValue([a, b]) == DigitValue(a) * 10 + DigitValue(b)
  {
    var s := [a, b];
    assert s[..|s| - 1] == [a];
    assert [a][..0] == [];
    assert DigitsValue([a]) == DigitsValue([]) * 10 + DigitValue(a);
    assert DigitsValue(s) == DigitsValue([a]) * 10 + DigitValue(b);
  }

  /** `Number(s)` for a literal without sign: digits, optionally a point and more digits, at least one digit. */
  function ParseUnsigned(s: string): Num
  {
    var k := IndexOf(s, '.');
    var whole := s[..k];
    var frac := if k < |s| then s[k + 1..] else "";
    if AllDigits(whole) && AllDigits(frac) && |whole| + |frac| > 0
    then Dec(DigitsValue(whole) * Pow10(|frac|) + DigitsValue(frac), |frac|)
    else NaN
  }

  function Negate(x: Num): Num
  {
    match x
    case NaN => NaN
    case Dec(m, s) => Dec(-m, s)
  }

  /** `Number(s)`: the empty string is 0, an optional sign, then an unsigned decimal literal; anything else is NaN. */
  function ParseNumber(s: string): Num
  {
    if s == "" then Dec(0, 0)
    else if s[0] == '-' then Negate(ParseUnsigned(s[1..]))
    else if s[0] == '+' then ParseUnsigned(s[1..])
    else ParseUnsigned(s)
  }

  /** The rendering of a natural number reads back as that number. */
  lemma NatToStringParses(n: nat)
    ensures ParseNumber(NatToString(n)) == Dec(n, 0)
  {
    var w := NatToString(n);
    NatToStringRoundTrip(n);
    assert IndexOf(w, '.') == |w|;
    assert w[..|w|] == w;
    assert IsDigit(w[0]);
  }

  /** The exact rational value of a decimal. */
  function Value(x: Num): real
    requires x.Dec?
  {
    x.mant as real / Pow10(x.scale) as real
  }

  /** `a < b` on numbers: cross-multiplied exact comparison, false whenever either side is NaN. */
  predicate Less(a: Num, b: Num)
  {
    a.Dec? && b.Dec? && a.mant * Pow10(b.scale) < b.mant * Pow10(a.scale)
  }

  lemma ScaleOrder(a: real, b: real, k: real)
    requires k > 0.0
    ensures a < b <==> a * k < b * k
  {
  }

  /** Comparing two quotients with positive divisors by cross-multiplying. */
  lemma CrossMultiply(x: real, p: real, y: real, q: real)
    requires p > 0.0 && q > 0.0
    ensures x / p < y / q <==> x * q < y * p
  {
    var a := x / p;
    var b := y / q;
    assert x == a * p && y == b * q;
    assert x * q == a * (p * q) && y * p == b * (p * q);
    ScaleOrder(a, b, p * q);
  }

  /** `Less` compares the exact rational values, and NaN compares false both ways. */
  lemma LessMeansValueLess(a: Num, b: Num)
    ensures a.Dec? && b.Dec? ==> (Less(a, b) <==> Value(a) < Value(b))
    ensures a.NaN? || b.NaN? ==> !Less(a, b) && !Less(b, a)
  {
    if a.Dec? && b.Dec? {
      var p := Pow10(a.scale);
      var q := Pow10(b.scale);
      CrossMultiply(a.mant as real, p as real, b.mant as real, q as real);
      assert (a.mant * q) as real == a.mant as real * q as real;
      assert (b.mant * p) as real == b.mant as real * p as real;
    }
  }

  /** Division of naturals, rounding down. */
  function FloorDiv(x: nat, d: nat): (q: nat)
    requires d > 0
    ensures d * q <= x < d * q + d
  {
    x / d
  }

  /**
   * The number of hundredths nearest to a / 10^scale, ties rounding up: the
   * integer n of `toFixed(2)` for a non-negative value. With P = 10^scale,
   * n is the largest integer with n - 1/2 <= 100 a / P, that is
   * n - 1/2 <= 100 a / P < n + 1/2.
   */
  function RoundHundredths(a: nat, scale: nat): (n: nat)
    ensures (2 * Pow10(scale)) * n <= 200 * a + Pow10(scale) < (2 * Pow10(scale)) * n + 2 * Pow10(scale)
  {
    FloorDiv(200 * a + Pow10(scale), 2 * Pow10(scale))
  }

  function Abs(m: int): nat
  {
    if m < 0 then -m else m
  }

  /** The hundredths `toFixed(2)` keeps of a decimal's magnitude. */
  function Hundredths(x: Num): nat
    requires x.Dec?
  {
    RoundHundredths(Abs(x.mant), x.scale)
  }

  /**
   * `toFixed(2)`: "NaN" for NaN; otherwise a minus sign for a negative value,
   * the integer part, a point and exactly two fraction digits of the
   * magnitude rounded to the nearest hundredth, ties up.
   */
  function ToFixed2(x: Num): string
  {
    match x
    case NaN => "NaN"
    case Dec(m, s) =>
      (if m < 0 then "-" else "") + FixedDigits(Hundredths(x))
  }

  /** A count of hundredths written as its integer part, a point and two fraction digits. */
  function FixedDigits(n: nat): string
  {
    NatToString(n / 100) + "." + [DigitChar(n / 10 % 10), DigitChar(n % 10)]
  }

  /** The value of the text `q.ab` is q * 100 + a * 10 + b hundredths. */
  lemma {:induction false} FixedTextParses(q: nat, a: nat, b: nat)
    requires a < 10 && b < 10
    ensures ParseUnsigned(NatToString(q) + "." + [DigitChar(a), DigitChar(b)]) == Dec(q * 100 + a * 10 + b, 2)
  {
    var w := NatToString(q);
    var d := [DigitChar(a), DigitChar(b)];
    var t := w + "." + d;
    assert '.' !in w by {
      assert forall i :: 0 <= i < |w| ==> IsDigit(w[i]);
    }
    IndexOfAfter(w, '.', d);
    assert t[..|w|] == w;
    assert t[|w| + 1..] == d;
    NatToStringRoundTrip(q);
    TwoDigitsValue(d[0], d[1]);
    assert Pow10(2) == 100;
  }

  /** A number splits into its hundreds, its tens digit and its units digit. */
  lemma HundredthsDigits(n: nat)
    ensures (n / 100) * 100 + (n / 10 % 10) * 10 + n % 10 == n
  {
    assert n / 10 == (n / 100) * 10 + n / 10 % 10;
  }

  /** A text starting with a digit, signed or not, reads as its unsigned value, negated when signed. */
  lemma SignedParse(t: string, negative: bool)
    requires |t| > 0 && IsDigit(t[0])
    ensures ParseNumber((if negative then "-" else "") + t) == (if negative then Negate(ParseUnsigned(t)) else ParseUnsigned(t))
  {
    if negative {
      assert ("-" + t)[1..] == t;
    } else {
      assert "" + t == t;
    }
  }

  /** The fixed-point text of n hundredths starts with a digit and reads back as n hundredths. */
  lemma FixedDigitsParse(n: nat)
    ensures |FixedDigits(n)| > 0 && IsDigit(FixedDigits(n)[0])
    ensures ParseUnsigned(FixedDigits(n)) == Dec(n, 2)
  {
    FixedTextParses(n / 100, n / 10 % 10, n % 10);
    HundredthsDigits(n);
    assert FixedDigits(n)[0] == NatToString(n / 100)[0];
  }

  /**
   * `toFixed(2)` reads back, through `Number`, as the rounded value with
   * exactly two fraction digits and the sign of the input.
   */
  lemma {:induction false} ToFixed2RoundTrip(x: Num)
    requires x.Dec?
    ensures ParseNumber(ToFixed2(x)) == Dec(if x.mant < 0 then -(Hundredths(x) as int) else Hundredths(x), 2)
  {
    FixedDigitsParse(Hundredths(x));
    SignedParse(FixedDigits(Hundredths(x)), x.mant < 0);
  }



  /** For at most two fraction digits `toFixed(2)` rounds nothing away: it keeps the exact value. */
  lemma ToFixed2Exact(x: Num)
    requires x.Dec? && x.scale <= 2
    ensures Hundredths(x) == Abs(x.mant) * Pow10(2 - x.scale)
  {
    var a: int := Abs(x.mant);
    var n: int := Hundredths(x);
    assert Pow10(0) == 1 && Pow10(1) == 10 && Pow10(2) == 100;
    if x.scale == 0 {
      assert 2 * n <= 200 * a + 1 < 2 * n + 2;
    } else if x.scale == 1 {
      assert 20 * n <= 200 * a + 10 < 20 * n + 20;
    } else {
      assert 200 * n <= 200 * a + 100 < 200 * n + 200;
    }
  }

  /** `Number("12.5")` is exactly 12.5. */
  lemma ParseExample()
    ensures ParseNumber("12.5") == Dec(125, 1)
  {
    IndexOfAfter("12", '.', "5");
    assert "12.5"[..2] == "12";
    assert "12.5"[3..] == "5";
    TwoDigitsValue('1', '2');
    assert "5"[..0] == "";
    assert DigitsValue("5") == 5;
  }

  /** `(12.5).toFixed(2)` is "12.50". */
  lemma ToFixed2Example()
    ensures ToFixed2(Dec(125, 1)) == "12.50"
  {
    ToFixed2Exact(Dec(125, 1));
    assert NatToString(1) == "1";
    assert NatToString(12) == "12";
  }
}
