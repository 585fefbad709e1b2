/**
 * The Python values that flow through the ledger: what a table cell stores
 * under its user role, what a dict sent to the persistence layer holds, and
 * the handful of Python built-ins the program applies to them (truthiness,
 * `==` against an int, `Decimal(...)`, `str(...)`, `len(...)`,
 * `str.isnumeric`, `str.strip`, `Decimal.quantize` and `f"{v:.Nf}"`).
 *
 * Money is an exact `real`, as `decimal.Decimal` is exact for the values the
 * program produces.
 */
module PyValues {
  import opened Wrappers

  /** A calendar date (`datetime.date`, `QDate`). */
  datatype Date = Date(year: int, month: int, day: int)

  /** Members of `models/constant.py` `PaymentStatus`. */
  datatype PaymentStatus = PENDING | COMPLETED | REFUSED

  /** Members of `models/constant.py` `OrderStatus`. */
  datatype OrderStatus = PENDING | COMPLETED | REFUSED

  /**
   * A Python value.
   * - `VList([])` is the `[]` the controllers put in place of a missing cell.
   * - `VRecord` is an ORM entity object; its `id` is `None` until it is flushed.
   * - `VFuture` is the handle that a thread-pool call returns instead of its result.
   * - `VSql` is a SQL expression evaluated by the database (`func.now()`).
   * - `VDecimal(d, k)` is a `Decimal` of value `d` whose exponent is `-k`: the
   *   `k` digits after its point are what `str()` prints. Two Decimals of the
   *   same value are equal in Python whatever their exponents (`PyEquals`).
   */
  datatype Value =
    | VNone
    | VBool(b: bool)
    | VInt(i: int)
    | VDecimal(d: real, places: nat)
    | VText(s: string)
    | VDate(date: Date)
    | VPayment(payment: PaymentStatus)
    | VOrder(order: OrderStatus)
    | VList(elems: seq<Value>)
    | VRecord(table: string, id: Option<int>)
    | VFuture
    | VSql(expr: string)

  /**
   * The Python exceptions that escape a modelled call. `DatabaseError`
   * stands for a failed flush or commit.
   */
  datatype PyError =
    | AttributeError
    | TypeError
    | ValueError
    | InvalidOperation
    | IndexError
    | KeyError
    | DatabaseError
    | Raised(message: string)

  /** Python truthiness (`bool(v)`); the program never takes the truth value of a `VSql`. */
  predicate Truthy(v: Value)
  {
    match v
    case VNone => false
    case VBool(b) => b
    case VInt(i) => i != 0
    case VDecimal(d, _) => d != 0.0
    case VText(s) => |s| > 0
    case VList(xs) => |xs| > 0
    case _ => true
  }

  /** Python `v == n` for an int literal `n`: only bool, int and Decimal can be equal to it. */
  predicate EqualsInt(v: Value, n: int)
  {
    match v
    case VBool(b) => (if b then 1 else 0) == n
    case VInt(i) => i == n
    case VDecimal(d, _) => d == n as real
    case _ => false
  }

  /** `len(v)`; `None` where Python raises `TypeError`. */
  function Len(v: Value): (r: Option<nat>)
    ensures r.Some? <==> v.VText? || v.VList?
  {
    match v
    case VText(s) => Some(|s|)
    case VList(xs) => Some(|xs|)
    case _ => None
  }

  // ---------------------------------------------------------------------
  // Characters and digits
  // ---------------------------------------------------------------------

  /** `str.isspace` for one character (the Unicode whitespace set Python strips). */
  predicate IsSpace(c: char)
  {
    ('\t' <= c <= '\r') || ('\U{1C}' <= c <= ' ') || c == '\U{85}' || c == '\U{A0}'
    || c == '\U{1680}' || ('\U{2000}' <= c <= '\U{200A}') || c == '\U{2028}' || c == '\U{2029}'
    || c == '\U{202F}' || c == '\U{205F}' || c == '\U{3000}'
  }

  /** The decimal digit value of a character: ASCII, Arabic-Indic and extended Arabic-Indic digits. */
  function DigitValue(c: char): (r: Option<nat>)
    ensures r.Some? ==> r.value < 10
  {
    if '0' <= c <= '9' then Some(c as nat - '0' as nat)
    else if '\U{0660}' <= c <= '\U{0669}' then Some(c as nat - '\U{0660}' as nat)
    else if '\U{06F0}' <= c <= '\U{06F9}' then Some(c as nat - '\U{06F0}' as nat)
    else None
  }

  /** The ASCII digit for `n`. */
  function DigitChar(n: nat): (c: char)
    requires n < 10
    ensures DigitValue(c) == Some(n)
    ensures '0' <= c <= '9'
  {
    (48 + n) as char
  }

  predicate AllDigits(s: string)
  {
    forall i :: 0 <= i < |s| ==> DigitValue(s[i]).Some?
  }

  /** `str.isnumeric`, restricted to the decimal digits of `DigitValue`. */
  predicate IsNumeric(s: string)
  {
    |s| > 0 && AllDigits(s)
  }

  /** The number a run of digits denotes, most significant first. */
  function DigitsValue(s: string): nat
    requires AllDigits(s)
  {
    if |s| == 0 then 0
    else DigitsValue(s[..|s| - 1]) * 10 + DigitValue(s[|s| - 1]).value
  }

  function Pow10(n: nat): (r: nat)
    ensures r >= 1
  {
    if n == 0 then 1 else 10 * Pow10(n - 1)
  }

  /** The shortest ASCII decimal spelling of `n`. */
  function NatToDigits(n: nat): (s: string)
    ensures |s| > 0 && AllDigits(s)
    ensures forall i :: 0 <= i < |s| ==> '0' <= s[i] <= '9'
  {
    if n < 10 then [DigitChar(n)] else NatToDigits(n / 10) + [DigitChar(n % 10)]
  }

  /** `n` with its last `k` decimal digits dropped (`n // 10**k`). */
  function Shift(n: nat, k: nat): nat
  {
    if k == 0 then n else Shift(n / 10, k - 1)
  }

  /** The last `k` decimal digits of `n` (`n % 10**k`). */
  function Low(n: nat, k: nat): nat
  {
    if k == 0 then 0 else Low(n / 10, k - 1) * 10 + n % 10
  }

  /** The last `k` ASCII digits of `n`, zero-padded on the left. */
  function PadDigits(n: nat, k: nat): (s: string)
    ensures |s| == k && AllDigits(s)
    ensures forall i :: 0 <= i < |s| ==> '0' <= s[i] <= '9'
  {
    if k == 0 then [] else PadDigits(n / 10, k - 1) + [DigitChar(n % 10)]
  }

  /** `str(i)` for an int. */
  function IntToText(i: int): string
  {
    if i < 0 then "-" + NatToDigits(-i) else NatToDigits(i)
  }

  // ---------------------------------------------------------------------
  // str.strip and Decimal(str)
  // ---------------------------------------------------------------------

  function TrimStart(s: string): (r: string)
    ensures |r| <= |s|
    ensures |r| > 0 ==> !IsSpace(r[0])
  {
    if |s| > 0 && IsSpace(s[0]) then TrimStart(s[1..]) else s
  }

  function TrimEnd(s: string): (r: string)
    ensures |r| <= |s|
    ensures |r| > 0 ==> !IsSpace(r[|r| - 1])
    ensures r == s[..|r|]
  {
    if |s| > 0 && IsSpace(s[|s| - 1]) then TrimEnd(s[..|s| - 1]) else s
  }

  /** `str.strip()`. */
  function Strip(s: string): (r: string)
    ensures |r| > 0 ==> !IsSpace(r[0]) && !IsSpace(r[|r| - 1])
  {
    TrimEnd(TrimStart(s))
  }

  /** Index of the first '.', or `|s|` when there is none. */
  function FirstDot(s: string): (k: nat)
    ensures k <= |s|
    ensures k < |s| ==> s[k] == '.'
    ensures forall i :: 0 <= i < k ==> s[i] != '.'
  {
    if |s| == 0 then 0 else if s[0] == '.' then 0 else 1 + FirstDot(s[1..])
  }

  /** A decimal literal `[sign] digits [. digits]` as `Decimal(str)` reads it. */
  datatype DecimalLiteral = DecimalLiteral(negative: bool, intDigits: string, fracDigits: string)

  /** The literal in `s` after stripping whitespace, or `None` where `Decimal(s)` raises. */
  function ScanDecimal(s: string): (r: Option<DecimalLiteral>)
    ensures r.Some? ==> AllDigits(r.value.intDigits) && AllDigits(r.value.fracDigits)
  {
    var t := Strip(s);
    if |t| == 0 then None
    else if t[0] == '-' || t[0] == '+' then ScanUnsigned(t[0] == '-', t[1..])
    else ScanUnsigned(false, t)
  }

  /** Digits with at most one '.', and at least one digit. */
  function ScanUnsigned(negative: bool, body: string): (r: Option<DecimalLiteral>)
    ensures r.Some? ==> AllDigits(r.value.intDigits) && AllDigits(r.value.fracDigits)
  {
    var k := FirstDot(body);
    var ip := body[..k];
    var fp := if k < |body| then body[k + 1..] else "";
    if AllDigits(ip) && AllDigits(fp) && |ip| + |fp| > 0
    then Some(DecimalLiteral(negative, ip, fp))
    else None
  }

  function LiteralValue(l: DecimalLiteral): real
    requires AllDigits(l.intDigits) && AllDigits(l.fracDigits)
  {
    var magnitude := DigitsValue(l.intDigits) as real
      + DigitsValue(l.fracDigits) as real / Pow10(|l.fracDigits|) as real;
    if l.negative then -magnitude else magnitude
  }

  /** `Decimal(s)` for a string; `None` where it raises `InvalidOperation`. */
  function ParseDecimal(s: string): Option<real>
  {
    match ScanDecimal(s)
    case None => None
    case Some(l) => Some(LiteralValue(l))
  }

  /** `Decimal(s)` as a value: the literal's value, with as many places as it has digits after its point. */
  function TextToDecimal(s: string): (r: Option<Value>)
    ensures r.Some? <==> ParseDecimal(s).Some?
    ensures r.Some? ==> r.value.VDecimal? && r.value.d == ParseDecimal(s).value
  {
    match ScanDecimal(s)
    case None => None
    case Some(l) => Some(VDecimal(LiteralValue(l), |l.fracDigits|))
  }

  function MaxNat(a: nat, b: nat): nat
  {
    if a < b then b else a
  }

  /**
   * The places of `Decimal(v)`: a Decimal's own, a literal's digits after its
   * point, none for an int or a bool.
   */
  function PlacesOf(v: Value): nat
  {
    match v
    case VDecimal(_, k) => k
    case VText(s) => if TextToDecimal(s).Some? then TextToDecimal(s).value.places else 0
    case _ => 0
  }

  /** A bool, an int or a Decimal, which Python compares by their value. */
  predicate ComparesByValue(v: Value)
  {
    v.VBool? || v.VInt? || v.VDecimal?
  }

  /** Python `a == b`: numbers compare by value, whatever their type and exponent; other values by what they hold. */
  predicate PyEquals(a: Value, b: Value)
  {
    if ComparesByValue(a) && ComparesByValue(b) then ToDecimal(a) == ToDecimal(b) else a == b
  }

  /** `Decimal(v)`; `None` where the constructor raises. */
  function ToDecimal(v: Value): (r: Option<real>)
    ensures v.VInt? ==> r == Some(v.i as real)
    ensures v.VDecimal? ==> r == Some(v.d)
    ensures v.VText? ==> r == ParseDecimal(v.s)
    ensures (v.VNone? || v.VDate? || v.VPayment? || v.VOrder? || v.VRecord?) ==> r.None?
  {
    match v
    case VBool(b) => Some(if b then 1.0 else 0.0)
    case VInt(i) => Some(i as real)
    case VDecimal(d, _) => Some(d)
    case VText(s) => ParseDecimal(s)
    case _ => None
  }

  // ---------------------------------------------------------------------
  // Rounding and fixed-point formatting
  // ---------------------------------------------------------------------

  function Abs(x: real): real { if x < 0.0 then -x else x }

  function Sign(x: real): real { if x < 0.0 then -1.0 else 1.0 }

  /** `x` is a whole number. */
  predicate IsWhole(x: real) { x.Floor as real == x }

  /** `x` has at most `k` digits after the point. */
  predicate HasPlaces(x: real, k: nat) { IsWhole(x * (Pow10(k) as real)) }

  /** `|x|` shifted `k` decimal places to the left. */
  function ScaledAbs(x: real, k: nat): (y: real)
    ensures y >= 0.0
  {
    var p := Pow10(k) as real;
    assert Abs(x) * p >= 0.0 by {
      assert Abs(x) >= 0.0 && p >= 1.0;
    }
    Abs(x) * p
  }

  /** Round a non-negative real to the nearest whole number, ties away from zero. */
  function RoundHalfUpNat(y: real): (n: nat)
    requires y >= 0.0
    ensures y - 0.5 < n as real <= y + 0.5
  {
    (y + 0.5).Floor
  }

  /** Round a non-negative real to the nearest whole number, ties to even. */
  function RoundHalfEvenNat(y: real): (n: nat)
    requires y >= 0.0
    ensures y - 0.5 <= n as real <= y + 0.5
  {
    var f := y.Floor;
    var frac := y - f as real;
    if frac < 0.5 then f
    else if frac > 0.5 then f + 1
    else if f % 2 == 0 then f else f + 1
  }

  /** `x.quantize(Decimal("0.01"), rounding=ROUND_HALF_UP)`. */
  function Quantize2HalfUp(x: real): real
  {
    Sign(x) * (RoundHalfUpNat(ScaledAbs(x, 2)) as real / 100.0)
  }

  /** The value `f"{x:.{k}f}"` denotes: `x` rounded to `k` places, ties to even. */
  function RoundHalfEven(x: real, k: nat): real
  {
    Sign(x) * (RoundHalfEvenNat(ScaledAbs(x, k)) as real / Pow10(k) as real)
  }

  /** The spelling of `m / 10**k`: the whole part, then `k` digits after a '.' when `k > 0`. */
  function FixedDigits(m: nat, k: nat): (s: string)
    ensures |s| > 0
  {
    NatToDigits(Shift(m, k)) + (if k == 0 then "" else "." + PadDigits(m, k))
  }

  /**
   * `f"{x:.{k}f}"` for a Decimal or an int: a '-' for a negative `x` (also when
   * it rounds to zero) and then `x` rounded half-even to `k` places. It is also
   * `str(x)` for a Decimal whose exponent is `-k`.
   */
  function FormatFixed(x: real, k: nat): (s: string)
    ensures |s| > 0
  {
    (if x < 0.0 then "-" else "") + FixedDigits(RoundHalfEvenNat(ScaledAbs(x, k)), k)
  }

  /** The program's `format_decimal`: `f"{x:.2f}"`. */
  function FormatFixed2(x: real): string
  {
    FormatFixed(x, 2)
  }

  // ---------------------------------------------------------------------
  // str() and dates
  // ---------------------------------------------------------------------

  function Pad2(n: int): string
  {
    if 0 <= n then PadDigits(n, 2) else IntToText(n)
  }

  /** `str(date)`, `date.isoformat()`. */
  function DateText(d: Date): string
  {
    (if 0 <= d.year then PadDigits(d.year, 4) else IntToText(d.year))
    + "-" + Pad2(d.month) + "-" + Pad2(d.day)
  }

  /**
   * `str(v)`. A Decimal prints as many digits after its point as its
   * exponent says (exponent notation is not modelled); an ORM object prints
   * its class name.
   */
  function PyStr(v: Value): string
  {
    match v
    case VNone => "None"
    case VBool(b) => if b then "True" else "False"
    case VInt(i) => IntToText(i)
    case VDecimal(d, k) => FormatFixed(d, k)
    case VText(s) => s
    case VDate(d) => DateText(d)
    case VPayment(p) => "PaymentStatus." + (match p case PENDING => "PENDING" case COMPLETED => "COMPLETED" case REFUSED => "REFUSED")
    case VOrder(o) => "OrderStatus." + (match o case PENDING => "PENDING" case COMPLETED => "COMPLETED" case REFUSED => "REFUSED")
    case VList(xs) => if |xs| == 0 then "[]" else "[...]"
    case VRecord(t, _) => "<" + t + " object>"
    case VFuture => "<Future>"
    case VSql(e) => e
  }

  predicate IsLeapYear(y: int)
  {
    (y % 4 == 0 && y % 100 != 0) || y % 400 == 0
  }

  function DaysInMonth(y: int, m: int): int
    requires 1 <= m <= 12
  {
    if m == 2 then (if IsLeapYear(y) then 29 else 28)
    else if m == 4 || m == 6 || m == 9 || m == 11 then 30
    else 31
  }

  /** A date `QDate.isValid` accepts: the proleptic Gregorian calendar has no year 0. */
  predicate ValidDate(d: Date)
  {
    d.year != 0 && 1 <= d.month <= 12 && 1 <= d.day <= DaysInMonth(d.year, d.month)
  }

  predicate AsciiDigits(s: string)
  {
    forall i :: 0 <= i < |s| ==> '0' <= s[i] <= '9'
  }

  function AsciiValue(s: string): nat
    requires AsciiDigits(s)
  {
    if |s| == 0 then 0 else AsciiValue(s[..|s| - 1]) * 10 + (s[|s| - 1] as nat - '0' as nat)
  }

  /** `QDate.fromString(s, "yyyy-MM-dd")` when the result `isValid()`, else `None`. */
  function ParseIsoDate(s: string): (r: Option<Date>)
    ensures r.Some? ==> ValidDate(r.value) && |s| == 10
  {
    if |s| == 10 && s[4] == '-' && s[7] == '-'
       && AsciiDigits(s[..4]) && AsciiDigits(s[5..7]) && AsciiDigits(s[8..])
    then
      var d := Date(AsciiValue(s[..4]), AsciiValue(s[5..7]), AsciiValue(s[8..]));
      if ValidDate(d) then Some(d) else None
    else None
  }

  /** Date order (`QDate` `<`). */
  predicate DateLess(a: Date, b: Date)
  {
    a.year < b.year || (a.year == b.year && (a.month < b.month || (a.month == b.month && a.day < b.day)))
  }
}
