/**
 * Facts about the Python built-ins of `PyValues`: the two roundings, and that
 * what `f"{x:.Nf}"` prints reads back through `Decimal(...)` as the rounded
 * value.
 */
module PyValueFacts {
  import opened Wrappers
  import opened PyValues

  lemma {:induction false} DigitsOfNat(n: nat)
    ensures DigitsValue(NatToDigits(n)) == n
  {
    var s := NatToDigits(n);
    if n >= 10 {
      DigitsOfNat(n / 10);
      assert s[..|s| - 1] == NatToDigits(n / 10);
    }
  }

  lemma {:induction false} DigitsOfPad(n: nat, k: nat)
    ensures DigitsValue(PadDigits(n, k)) == Low(n, k)
  {
    if k > 0 {
      var s := PadDigits(n, k);
      assert s[..|s| - 1] == PadDigits(n / 10, k - 1);
      DigitsOfPad(n / 10, k - 1);
    }
  }

  lemma ShiftLowStep(n: nat, sh: nat, lo: nat, p: nat)
    requires n / 10 == sh * p + lo && lo < p
    ensures n == sh * (10 * p) + (lo * 10 + n % 10)
    ensures lo * 10 + n % 10 < 10 * p
  {
    assert sh * (10 * p) == 10 * (sh * p);
  }

  /** `Shift` and `Low` are the quotient and remainder of division by `10**k`. */
  lemma {:induction false} ShiftLow(n: nat, k: nat)
    ensures n == Shift(n, k) * Pow10(k) + Low(n, k)
    ensures Low(n, k) < Pow10(k)
  {
    if k > 0 {
      ShiftLow(n / 10, k - 1);
      ShiftLowStep(n, Shift(n / 10, k - 1), Low(n / 10, k - 1), Pow10(k - 1));
    }
  }

  lemma StripKeeps(s: string)
    requires |s| > 0 && !IsSpace(s[0]) && !IsSpace(s[|s| - 1])
    ensures Strip(s) == s
  {
  }

  lemma DigitIsPlain(c: char)
    requires DigitValue(c).Some?
    ensures !IsSpace(c) && c != '.' && c != '-' && c != '+'
  {
  }

  lemma AllDigitsTail(d: string)
    requires AllDigits(d) && |d| > 0
    ensures AllDigits(d[1..])
  {
    forall i | 0 <= i < |d| - 1 ensures DigitValue(d[1..][i]).Some? {
      assert d[1..][i] == d[i + 1];
    }
  }

  lemma FirstDotStep(d: string, rest: string)
    requires AllDigits(d) && |d| > 0
    ensures FirstDot(d + rest) == 1 + FirstDot(d[1..] + rest)
  {
    var s := d + rest;
    DigitIsPlain(d[0]);
    assert s[0] == d[0];
    assert s[1..] == d[1..] + rest;
  }

  lemma {:induction false} FirstDotAfter(d: string, rest: string)
    requires AllDigits(d)
    ensures FirstDot(d + rest) == |d| + FirstDot(rest)
  {
    if |d| > 0 {
      FirstDotStep(d, rest);
      AllDigitsTail(d);
      FirstDotAfter(d[1..], rest);
    } else {
      assert d + rest == rest;
    }
  }

  /** Digits, then optionally '.' and more digits, scan as that unsigned literal. */
  lemma ScanUnsignedPlain(negative: bool, d: string, f: string, dotted: bool)
    requires AllDigits(d) && AllDigits(f) && |d| > 0
    requires dotted || f == ""
    ensures ScanUnsigned(negative, d + (if dotted then "." + f else ""))
         == Some(DecimalLiteral(negative, d, f))
  {
    var tail := if dotted then "." + f else "";
    var body := d + tail;
    FirstDotAfter(d, tail);
    assert FirstDot(tail) == 0;
    assert body[..|d|] == d;
    if dotted {
      assert body[|d| + 1..] == f;
    }
  }

  lemma ScanStripped(s: string)
    requires |s| > 0 && Strip(s) == s
    ensures ScanDecimal(s) == (if s[0] == '-' || s[0] == '+' then ScanUnsigned(s[0] == '-', s[1..])
                               else ScanUnsigned(false, s))
  {
  }

  /** A string that starts with '-' or a digit and ends with a digit is its own `strip()`. */
  lemma PlainEnds(sign: string, body: string, d: string, f: string, dotted: bool)
    requires sign == "" || sign == "-"
    requires |d| > 0 && AllDigits(d) && AllDigits(f)
    requires dotted <==> |f| > 0
    requires body == d + (if dotted then "." + f else "")
    ensures Strip(sign + body) == sign + body
    ensures (sign + body)[0] == (if sign == "" then d[0] else '-')
  {
    var s := sign + body;
    assert s[|s| - 1] == body[|body| - 1];
    if dotted {
      assert body[|body| - 1] == f[|f| - 1];
      DigitIsPlain(f[|f| - 1]);
    } else {
      assert body[|body| - 1] == d[|d| - 1];
      DigitIsPlain(d[|d| - 1]);
    }
    DigitIsPlain(d[0]);
    StripKeeps(s);
  }

  /** An optional '-', digits, and optionally '.' and more digits, scan as that literal. */
  lemma ScanPlain(sign: string, d: string, f: string, dotted: bool)
    requires sign == "" || sign == "-"
    requires |d| > 0 && AllDigits(d) && AllDigits(f)
    requires dotted <==> |f| > 0
    ensures ScanDecimal(sign + (d + (if dotted then "." + f else "")))
         == Some(DecimalLiteral(sign == "-", d, f))
  {
    var body := d + (if dotted then "." + f else "");
    var s := sign + body;
    PlainEnds(sign, body, d, f, dotted);
    ScanStripped(s);
    DigitIsPlain(d[0]);
    if sign == "" {
      assert s == body;
    } else {
      assert s[1..] == body;
    }
    ScanUnsignedPlain(sign == "-", d, f, dotted);
  }

  /** What `f"{x:.{k}f}"` prints has no surrounding whitespace. */
  lemma FormatIsStripped(x: real, k: nat)
    ensures Strip(FormatFixed(x, k)) == FormatFixed(x, k)
  {
    var m := RoundHalfEvenNat(ScaledAbs(x, k));
    var sign := if x < 0.0 then "-" else "";
    var d := NatToDigits(Shift(m, k));
    var f := PadDigits(m, k);
    PlainEnds(sign, d + (if k > 0 then "." + f else ""), d, f, k > 0);
    assert FormatFixed(x, k) == sign + (d + (if k > 0 then "." + f else ""));
  }

  lemma CastProduct(q: int, p: int, r: int)
    ensures (q * p + r) as real == q as real * p as real + r as real
  {
  }

  lemma DivideSum(q: real, r: real, p: real)
    requires p > 0.0
    ensures (q * p + r) / p == q + r / p
  {
  }

  lemma MulDiv(a: real, p: real)
    requires p > 0.0
    ensures (a * p) / p == a
  {
  }

  lemma NegMul(x: real, p: real)
    ensures (-x) * p == -(x * p)
  {
  }

  /** `m / 10**k` is its whole part plus its last `k` digits scaled down. */
  lemma QuotientSplit(m: nat, k: nat)
    ensures Shift(m, k) as real + Low(m, k) as real / Pow10(k) as real == m as real / Pow10(k) as real
  {
    var q, r, p := Shift(m, k), Low(m, k), Pow10(k);
    ShiftLow(m, k);
    CastProduct(q, p, r);
    DivideSum(q as real, r as real, p as real);
  }

  /** The number a literal spelling `m / 10**k` denotes, with its sign. */
  lemma LiteralMagnitude(l: DecimalLiteral, m: nat, k: nat)
    requires AllDigits(l.intDigits) && AllDigits(l.fracDigits)
    requires DigitsValue(l.intDigits) == Shift(m, k) && DigitsValue(l.fracDigits) == Low(m, k)
    requires |l.fracDigits| == k
    ensures LiteralValue(l) == (if l.negative then -1.0 else 1.0) * (m as real / Pow10(k) as real)
  {
    QuotientSplit(m, k);
  }

  /** The literal that `f"{x:.{k}f}"` spells, read back by `Decimal`. */
  lemma FormatScans(x: real, k: nat)
    ensures ScanDecimal(FormatFixed(x, k))
         == Some(DecimalLiteral(x < 0.0,
                                NatToDigits(Shift(RoundHalfEvenNat(ScaledAbs(x, k)), k)),
                                PadDigits(RoundHalfEvenNat(ScaledAbs(x, k)), k)))
  {
    var m := RoundHalfEvenNat(ScaledAbs(x, k));
    var sign := if x < 0.0 then "-" else "";
    var d := NatToDigits(Shift(m, k));
    var f := PadDigits(m, k);
    ScanPlain(sign, d, f, k > 0);
    assert FormatFixed(x, k) == sign + (d + (if k > 0 then "." + f else ""));
  }

  /**
   * `Decimal(f"{x:.{k}f}")` is `x` rounded half-even to `k` places, and the
   * literal it reads has exactly `k` digits after the point.
   */
  lemma FormatParseRoundTrip(x: real, k: nat)
    ensures ScanDecimal(FormatFixed(x, k)).Some?
    ensures |ScanDecimal(FormatFixed(x, k)).value.fracDigits| == k
    ensures ParseDecimal(FormatFixed(x, k)) == Some(RoundHalfEven(x, k))
  {
    var m := RoundHalfEvenNat(ScaledAbs(x, k));
    var lit := DecimalLiteral(x < 0.0, NatToDigits(Shift(m, k)), PadDigits(m, k));
    var s := FormatFixed(x, k);
    FormatScans(x, k);
    assert ScanDecimal(s) == Some(lit);
    DigitsOfNat(Shift(m, k));
    DigitsOfPad(m, k);
    LiteralMagnitude(lit, m, k);
    assert LiteralValue(lit) == RoundHalfEven(x, k);
  }

  /**
   * `str()` of a Decimal reads back through `Decimal(...)` as that Decimal,
   * exponent included, whenever its value fits its places.
   */
  lemma StrDecimalRoundTrip(x: real, k: nat)
    requires HasPlaces(x, k)
    ensures TextToDecimal(PyStr(VDecimal(x, k))) == Some(VDecimal(x, k))
  {
    FormatParseRoundTrip(x, k);
    RoundHalfEvenKeepsPlaces(x, k);
  }

  /** `str()` of a Decimal with no places is the ASCII spelling of its value, with no point. */
  lemma StrWholeDecimal(n: nat)
    ensures PyStr(VDecimal(n as real, 0)) == NatToDigits(n)
  {
    assert ScaledAbs(n as real, 0) == n as real;
    assert RoundHalfEvenNat(n as real) == n;
  }

  lemma WholeOfInt(n: int)
    ensures IsWhole(n as real) && (n as real).Floor == n
  {
  }

  lemma WholeNeg(y: real)
    requires IsWhole(y)
    ensures IsWhole(-y)
  {
    assert -y == (-(y.Floor)) as real;
  }

  lemma WholeAdd(a: real, b: real)
    requires IsWhole(a) && IsWhole(b)
    ensures IsWhole(a + b)
  {
    assert a + b == (a.Floor + b.Floor) as real;
  }

  lemma WholeSub(a: real, b: real)
    requires IsWhole(a) && IsWhole(b)
    ensures IsWhole(a - b)
  {
    assert a - b == (a.Floor - b.Floor) as real;
  }

  lemma RoundWhole(y: real)
    requires y >= 0.0 && IsWhole(y)
    ensures RoundHalfEvenNat(y) as real == y && RoundHalfUpNat(y) as real == y
  {
    assert (y + 0.5).Floor == y.Floor;
  }

  /** `|x| * 10**k` is whole when `x * 10**k` is. */
  lemma ScaledAbsWhole(x: real, k: nat)
    requires HasPlaces(x, k)
    ensures IsWhole(ScaledAbs(x, k))
  {
    var y := x * (Pow10(k) as real);
    if x < 0.0 {
      assert ScaledAbs(x, k) == -y;
      WholeNeg(y);
    } else {
      assert ScaledAbs(x, k) == y;
    }
  }

  /** A value with at most `k` places prints and reads back unchanged. */
  lemma RoundHalfEvenKeepsPlaces(x: real, k: nat)
    requires HasPlaces(x, k)
    ensures RoundHalfEven(x, k) == x
  {
    var p := Pow10(k) as real;
    var y := ScaledAbs(x, k);
    ScaledAbsWhole(x, k);
    RoundWhole(y);
    MulDiv(Abs(x), p);
  }

  lemma Format2ParseRoundTrip(x: real)
    requires HasPlaces(x, 2)
    ensures ParseDecimal(FormatFixed2(x)) == Some(x)
  {
    FormatParseRoundTrip(x, 2);
    RoundHalfEvenKeepsPlaces(x, 2);
  }

  /** Half-up quantisation lands on two places. */
  lemma QuantizeHasPlaces(x: real)
    ensures HasPlaces(Quantize2HalfUp(x), 2)
  {
    var n := RoundHalfUpNat(ScaledAbs(x, 2));
    var q := Quantize2HalfUp(x);
    assert Pow10(2) as real == 100.0;
    assert q * 100.0 == Sign(x) * n as real;
    WholeOfInt(n);
    if x < 0.0 {
      WholeNeg(n as real);
    }
  }

  /** Half-up quantisation moves a value by at most half a cent. */
  lemma QuantizeClose(x: real)
    ensures Abs(Quantize2HalfUp(x) - x) <= 0.005
  {
    var y := ScaledAbs(x, 2);
    var n := RoundHalfUpNat(y);
    assert Pow10(2) as real == 100.0;
    assert y == Abs(x) * 100.0;
    assert Abs(n as real / 100.0 - Abs(x)) <= 0.005;
  }

  /** Half-up quantisation fixes values that already have two places. */
  lemma QuantizeKeepsPlaces(x: real)
    requires HasPlaces(x, 2)
    ensures Quantize2HalfUp(x) == x
  {
    var y := ScaledAbs(x, 2);
    ScaledAbsWhole(x, 2);
    RoundWhole(y);
    assert Pow10(2) as real == 100.0;
    MulDiv(Abs(x), 100.0);
  }

  /** Half-up quantisation is symmetric about zero. */
  lemma QuantizeOdd(x: real)
    ensures Quantize2HalfUp(-x) == -Quantize2HalfUp(x) || Quantize2HalfUp(x) == 0.0
  {
    assert Abs(-x) == Abs(x);
    assert ScaledAbs(-x, 2) == ScaledAbs(x, 2);
  }

  /** Ties are rounded away from zero: 0.125 becomes 0.13 and -0.125 becomes -0.13. */
  lemma QuantizeTiesAwayFromZero()
    ensures Quantize2HalfUp(0.125) == 0.13
    ensures Quantize2HalfUp(-0.125) == -0.13
  {
    assert RoundHalfUpNat(12.5) == 13;
  }

  /** `f"{x:.2f}"` rounds ties to even: 0.125 prints as "0.12" and 0.135 as "0.14". */
  lemma FormatTiesToEven()
    ensures RoundHalfEven(0.125, 2) == 0.12
    ensures RoundHalfEven(0.135, 2) == 0.14
  {
    assert Pow10(2) == 100;
    assert RoundHalfEvenNat(12.5) == 12;
    assert RoundHalfEvenNat(13.5) == 14;
  }

  lemma LiteralOfDigits(d: string)
    requires AllDigits(d)
    ensures LiteralValue(DecimalLiteral(false, d, "")) == DigitsValue(d) as real
  {
    assert DigitsValue("") == 0 && Pow10(0) == 1;
  }

  /** Digit-only text reads as the number its digits spell. */
  lemma NumericTextParses(s: string)
    requires IsNumeric(s)
    ensures ParseDecimal(s) == Some(DigitsValue(s) as real)
  {
    var lit := DecimalLiteral(false, s, "");
    assert ScanDecimal(s) == Some(lit) by {
      ScanPlain("", s, "", false);
      assert "" + (s + "") == s;
    }
    LiteralOfDigits(s);
  }

  lemma PlacesTwo(x: real)
    ensures HasPlaces(x, 2) <==> IsWhole(x * 100.0)
  {
    var p := Pow10(2) as real;
    assert p == 100.0;
    assert x * p == x * 100.0;
  }

  /** Sums, differences and negations of two-place values have two places. */
  lemma CentsClosed(a: real, b: real)
    requires HasPlaces(a, 2) && HasPlaces(b, 2)
    ensures HasPlaces(a + b, 2) && HasPlaces(a - b, 2) && HasPlaces(-a, 2)
  {
    PlacesTwo(a);
    PlacesTwo(b);
    PlacesTwo(a + b);
    PlacesTwo(a - b);
    PlacesTwo(-a);
    WholeAdd(a * 100.0, b * 100.0);
    WholeSub(a * 100.0, b * 100.0);
    WholeNeg(a * 100.0);
  }

  lemma WholeHasCents(n: int)
    ensures HasPlaces(n as real, 2)
  {
    PlacesTwo(n as real);
    WholeOfInt(n * 100);
  }
}
