/**
 * `controllers/home_page_controller.py`: the employees page. An edited cell
 * is classified, the row's amount-paid and remaining-salary cells are
 * recalculated from its text cells (`update_field_value`), and the row is
 * sent to the database as a new employee or as an update
 * (`update_employee_data`); then the sums are redone.
 *
 * The recalculation works on `Decimal`s read from cell texts and writes
 * `str()` of the result back. A `Decimal` is modelled as its value and its
 * number of places (its exponent negated): a sum or difference has the
 * larger number of places of its operands, and `str()` prints exactly that
 * many, so the text written reads back as the value computed.
 *
 * An exception that escapes a Qt slot ends the application; the model
 * returns it, with the cells as they were when it was raised.
 */
module HomePageControllers {
  import opened Wrappers
  import opened PyValues
  import opened PyValueFacts
  import opened Constant
  import opened Grid
  import opened TableWidgets
  import opened Persistence
  import opened EmployeeModels

  // Columns of the employees table, in the order of its headers.
  const ID_COLUMN := 0
  const NAME_COLUMN := 1
  const SALARY_COLUMN := 2
  const STATUS_COLUMN := 3
  const LOAN_COLUMN := 4
  const SETTLED_COLUMN := 5
  const REMAINING_COLUMN := 6
  const PAID_COLUMN := 7
  const LOAN_DATE_COLUMN := 8
  const PAYMENT_DATE_COLUMN := 9
  /** The number of names `update_employee_data` unpacks the row into. */
  const ROW_WIDTH := 10

  // ---------------------------------------------------------------------
  // Decimals and their text
  // ---------------------------------------------------------------------

  /** A `Decimal`: its value and the number of digits after its point. */
  datatype Dec = Dec(value: real, places: nat)

  /** The value is representable with `places` digits after the point, as a finite Decimal's is. */
  predicate Exact(d: Dec)
  {
    HasPlaces(d.value, d.places)
  }

  /** `str(d)`. */
  function DecText(d: Dec): string
  {
    FormatFixed(d.value, d.places)
  }

  /** `Decimal(s)`: the value and places of the literal, or `None` where it raises. */
  function ReadDec(s: string): (r: Option<Dec>)
    ensures r.Some? <==> ParseDecimal(s).Some?
    ensures r.Some? ==> r.value.value == ParseDecimal(s).value && Exact(r.value)
  {
    match ScanDecimal(s)
    case None => None
    case Some(l) => LiteralHasPlaces(l); Some(Dec(LiteralValue(l), |l.fracDigits|))
  }

  lemma ScaleBack(a: real, b: real, p: real)
    requires p > 0.0
    ensures (a + b / p) * p == a * p + b
  {
  }

  /** Wholeness carried across an equality the arithmetic solver knows but does not propagate. */
  lemma WholeEq(x: real, y: real)
    requires x == y && IsWhole(x)
    ensures IsWhole(y)
  {
  }

  /** `±(a + b / p) * p` is whole for naturals `a`, `b` and `p > 0`. */
  lemma ScaledWhole(v: real, a: nat, b: nat, p: nat)
    requires p > 0
    requires v == a as real + b as real / p as real || v == -(a as real + b as real / p as real)
    ensures IsWhole(v * (p as real))
  {
    var m := a as real + b as real / p as real;
    ScaleBack(a as real, b as real, p as real);
    CastProduct(a, p, b);
    WholeOfInt(a * p + b);
    WholeEq((a * p + b) as real, m * (p as real));
    if v == m {
      WholeEq(m * (p as real), v * (p as real));
    } else {
      NegMul(m, p as real);
      WholeNeg(m * (p as real));
      WholeEq(-(m * (p as real)), v * (p as real));
    }
  }

  lemma LiteralPlaces(v: real, a: nat, b: nat, k: nat)
    requires v == a as real + b as real / Pow10(k) as real || v == -(a as real + b as real / Pow10(k) as real)
    ensures HasPlaces(v, k)
  {
    ScaledWhole(v, a, b, Pow10(k));
  }

  /** A literal with `k` digits after its point denotes a value with `k` places. */
  lemma LiteralHasPlaces(l: DecimalLiteral)
    requires AllDigits(l.intDigits) && AllDigits(l.fracDigits)
    ensures HasPlaces(LiteralValue(l), |l.fracDigits|)
  {
    LiteralPlaces(LiteralValue(l), DigitsValue(l.intDigits), DigitsValue(l.fracDigits), |l.fracDigits|);
  }

  lemma TimesTen(x: real, q: real, q10: real)
    requires q10 == 10.0 * q
    ensures x * q10 == (x * q) * 10.0
  {
  }

  lemma WholeTimesTen(y: real)
    requires IsWhole(y)
    ensures IsWhole(y * 10.0)
  {
    assert y * 10.0 == (y.Floor * 10) as real;
  }

  lemma PlacesStep(x: real, k: nat)
    requires HasPlaces(x, k)
    ensures HasPlaces(x, k + 1)
  {
    TimesTen(x, Pow10(k) as real, Pow10(k + 1) as real);
    WholeTimesTen(x * (Pow10(k) as real));
    WholeEq((x * (Pow10(k) as real)) * 10.0, x * (Pow10(k + 1) as real));
  }

  /** A value with `k` places also has any larger number of places. */
  lemma {:induction false} PlacesWiden(x: real, k: nat, j: nat)
    requires HasPlaces(x, k) && k <= j
    ensures HasPlaces(x, j)
    decreases j - k
  {
    if k < j {
      PlacesStep(x, k);
      PlacesWiden(x, k + 1, j);
    }
  }

  lemma Distribute(a: real, b: real, q: real)
    ensures (a + b) * q == a * q + b * q && (a - b) * q == a * q - b * q
  {
  }

  /** Sums and differences of values with `k` places have `k` places. */
  lemma PlacesAddSub(a: real, b: real, k: nat)
    requires HasPlaces(a, k) && HasPlaces(b, k)
    ensures HasPlaces(a + b, k) && HasPlaces(a - b, k)
  {
    Distribute(a, b, Pow10(k) as real);
    WholeAdd(a * (Pow10(k) as real), b * (Pow10(k) as real));
    WholeSub(a * (Pow10(k) as real), b * (Pow10(k) as real));
    WholeEq(a * (Pow10(k) as real) + b * (Pow10(k) as real), (a + b) * (Pow10(k) as real));
    WholeEq(a * (Pow10(k) as real) - b * (Pow10(k) as real), (a - b) * (Pow10(k) as real));
  }

  function Max(a: nat, b: nat): nat
  {
    if a < b then b else a
  }

  /** `a + b` on Decimals: the exponent of the result is the smaller one. */
  function DecAdd(a: Dec, b: Dec): (c: Dec)
    ensures c.value == a.value + b.value && c.places >= a.places && c.places >= b.places
    ensures Exact(a) && Exact(b) ==> Exact(c)
  {
    var k := Max(a.places, b.places);
    if Exact(a) && Exact(b) then
      PlacesWiden(a.value, a.places, k);
      PlacesWiden(b.value, b.places, k);
      PlacesAddSub(a.value, b.value, k);
      Dec(a.value + b.value, k)
    else Dec(a.value + b.value, k)
  }

  /** `a - b` on Decimals. */
  function DecSub(a: Dec, b: Dec): (c: Dec)
    ensures c.value == a.value - b.value && c.places >= a.places && c.places >= b.places
    ensures Exact(a) && Exact(b) ==> Exact(c)
  {
    var k := Max(a.places, b.places);
    if Exact(a) && Exact(b) then
      PlacesWiden(a.value, a.places, k);
      PlacesWiden(b.value, b.places, k);
      PlacesAddSub(a.value, b.value, k);
      Dec(a.value - b.value, k)
    else Dec(a.value - b.value, k)
  }

  /** `str()` of an exact Decimal reads back as that Decimal, places included. */
  lemma DecTextRoundTrip(d: Dec)
    requires Exact(d)
    ensures ReadDec(DecText(d)) == Some(d)
  {
    FormatParseRoundTrip(d.value, d.places);
    RoundHalfEvenKeepsPlaces(d.value, d.places);
  }

  /** The int `0` the calculations return: `str(0)` is "0" and reads back as zero. */
  const ZERO := Dec(0.0, 0)

  // ---------------------------------------------------------------------
  // calculate_amount_paid and calculate_remaining_salary
  // ---------------------------------------------------------------------

  /**
   * `calculate_amount_paid(amount_settled, loan_from_salary)` on two cell
   * texts: an empty loan is replaced by 0, so the sum is taken only when
   * both texts are non-empty; otherwise the int 0.
   */
  function CalculateAmountPaid(settled: string, loan: string): (r: Result<Dec, PyError>)
    ensures r.Err? <==> settled != "" && loan != "" && (ParseDecimal(settled).None? || ParseDecimal(loan).None?)
    ensures r.Err? ==> r.error == InvalidOperation
    ensures r.Ok? ==> Exact(r.value)
    ensures r.Ok? && settled != "" && loan != "" ==> r.value.value == ParseDecimal(settled).value + ParseDecimal(loan).value
    ensures settled == "" || loan == "" ==> r == Ok(ZERO)
  {
    if settled != "" && loan != "" then
      match (ReadDec(settled), ReadDec(loan))
      case (Some(x), Some(y)) => Ok(DecAdd(x, y))
      case _ => Err(InvalidOperation)
    else Ok(ZERO)
  }

  /**
   * `calculate_remaining_salary(salary, loan_from_salary, amount_settled)`:
   * salary − loan − settled when the salary and loan texts are non-empty,
   * otherwise the int 0. The settled text is read even when it is empty,
   * and `Decimal("")` raises.
   */
  function CalculateRemainingSalary(salary: string, loan: string, settled: string): (r: Result<Dec, PyError>)
    ensures r.Err? <==> (salary != "" && loan != "" &&
      (ParseDecimal(salary).None? || ParseDecimal(loan).None? || ParseDecimal(settled).None?))
    ensures r.Err? ==> r.error == InvalidOperation
    ensures r.Ok? ==> Exact(r.value)
    ensures r.Ok? && salary != "" && loan != "" ==>
      r.value.value == ParseDecimal(salary).value - ParseDecimal(loan).value - ParseDecimal(settled).value
    ensures salary == "" || loan == "" ==> r == Ok(ZERO)
  {
    if salary != "" && loan != "" then
      match (ReadDec(salary), ReadDec(loan), ReadDec(settled))
      case (Some(x), Some(y), Some(z)) => Ok(DecSub(DecSub(x, y), z))
      case _ => Err(InvalidOperation)
    else Ok(ZERO)
  }

  /** What is paid and what remains make up the salary, whenever all three texts are read. */
  lemma PaidAndRemainingMakeSalary(salary: string, loan: string, settled: string)
    requires ParseDecimal(salary).Some? && ParseDecimal(loan).Some? && ParseDecimal(settled).Some?
    requires salary != "" && loan != "" && settled != ""
    ensures CalculateAmountPaid(settled, loan).Ok? && CalculateRemainingSalary(salary, loan, settled).Ok?
    ensures CalculateAmountPaid(settled, loan).value.value + CalculateRemainingSalary(salary, loan, settled).value.value
         == ParseDecimal(salary).value
  {
  }

  // ---------------------------------------------------------------------
  // update_field_value
  // ---------------------------------------------------------------------

  /** A cell after `if item and not item.text(): item.setText("0")`, which for the settled cell also stores 0. */
  function FillZero(it: Item, storeZero: bool): (it': Item)
    ensures it'.text != "" && it'.editable == it.editable
    ensures it.text != "" ==> it' == it
    ensures it.text == "" ==> it'.text == "0" && it'.stored == (if storeZero then VInt(0) else it.stored)
  {
    if it.text == "" then it.(text := "0", stored := if storeZero then VInt(0) else it.stored) else it
  }

  /** The row after the "0" fills of the salary, loan and settled cells that exist. */
  function Filled(cells: Row): (f: Row)
    ensures f.Keys == cells.Keys
    ensures forall c :: c in cells && c != SALARY_COLUMN && c != LOAN_COLUMN && c != SETTLED_COLUMN ==> f[c] == cells[c]
    ensures SALARY_COLUMN in cells ==> f[SALARY_COLUMN] == FillZero(cells[SALARY_COLUMN], false)
    ensures LOAN_COLUMN in cells ==> f[LOAN_COLUMN] == FillZero(cells[LOAN_COLUMN], false)
    ensures SETTLED_COLUMN in cells ==> f[SETTLED_COLUMN] == FillZero(cells[SETTLED_COLUMN], true)
  {
    var a := if SALARY_COLUMN in cells then cells[SALARY_COLUMN := FillZero(cells[SALARY_COLUMN], false)] else cells;
    var b := if LOAN_COLUMN in a then a[LOAN_COLUMN := FillZero(a[LOAN_COLUMN], false)] else a;
    if SETTLED_COLUMN in b then b[SETTLED_COLUMN := FillZero(b[SETTLED_COLUMN], true)] else b
  }

  /** An amount cell after `setText(str(d))` and `setData(UserRole, Decimal(str(d)))`. */
  function AmountWritten(it: Item, d: Dec): (it': Item)
    requires Exact(d)
    ensures it'.text == DecText(d) && it'.stored == VDecimal(d.value, d.places) && it'.editable == it.editable
  {
    DecTextRoundTrip(d);
    it.(text := DecText(d), stored := VDecimal(ReadDec(DecText(d)).value.value, ReadDec(DecText(d)).value.places))
  }

  /** The cells of a row after a step, and the exception the step raised, if any. */
  datatype Pass = Pass(cells: Row, error: Option<PyError>)

  /** The amount-paid step: settled + loan, written when the settled, paid and loan cells exist. */
  function PaidStep(f: Row): (p: Pass)
    ensures p.cells.Keys == f.Keys
    ensures forall c :: c in f && c != PAID_COLUMN ==> p.cells[c] == f[c]
    ensures p.error.Some? ==> p.cells == f
  {
    if SETTLED_COLUMN in f && PAID_COLUMN in f && LOAN_COLUMN in f then
      match CalculateAmountPaid(f[SETTLED_COLUMN].text, f[LOAN_COLUMN].text)
      case Err(e) => Pass(f, Some(e))
      case Ok(d) => Pass(f[PAID_COLUMN := AmountWritten(f[PAID_COLUMN], d)], None)
    else Pass(f, None)
  }

  /**
   * The remaining-salary step, taken when the remaining and salary cells
   * exist; the loan and settled cells are then read without a check, and
   * `None.text()` raises.
   */
  function RemainingStep(g: Row): (p: Pass)
    ensures p.cells.Keys == g.Keys
    ensures forall c :: c in g && c != REMAINING_COLUMN ==> p.cells[c] == g[c]
    ensures p.error.Some? ==> p.cells == g
  {
    if REMAINING_COLUMN in g && SALARY_COLUMN in g then
      if LOAN_COLUMN !in g || SETTLED_COLUMN !in g then Pass(g, Some(AttributeError))
      else match CalculateRemainingSalary(g[SALARY_COLUMN].text, g[LOAN_COLUMN].text, g[SETTLED_COLUMN].text)
        case Err(e) => Pass(g, Some(e))
        case Ok(d) => Pass(g[REMAINING_COLUMN := AmountWritten(g[REMAINING_COLUMN], d)], None)
    else Pass(g, None)
  }

  /**
   * The row after `update_field_value`. Its two date branches test `x and
   * not x` and never run.
   */
  function FieldValues(cells: Row): Pass
  {
    var p := PaidStep(Filled(cells));
    if p.error.Some? then p else RemainingStep(p.cells)
  }

  /** The text of a salary, loan or settled cell once the "0" fill has run. */
  function FilledText(it: Item): string
  {
    if it.text == "" then "0" else it.text
  }

  /** The recalculation touches only the salary, loan, settled, remaining and paid cells, and adds or removes none. */
  lemma FieldValuesKeepsOtherCells(cells: Row, c: int)
    requires c !in {SALARY_COLUMN, LOAN_COLUMN, SETTLED_COLUMN, REMAINING_COLUMN, PAID_COLUMN}
    ensures FieldValues(cells).cells.Keys == cells.Keys
    ensures c in cells ==> FieldValues(cells).cells[c] == cells[c]
  {
  }

  /**
   * With the settled, paid and loan cells present, the paid cell holds the
   * settled amount plus the loan, both read from the texts after the "0"
   * fill, so the `return 0` branch is never taken; a text `Decimal` cannot
   * read raises `InvalidOperation`.
   */
  lemma FieldValuesPaid(cells: Row)
    requires SETTLED_COLUMN in cells && PAID_COLUMN in cells && LOAN_COLUMN in cells
    ensures var x, y := ReadDec(FilledText(cells[SETTLED_COLUMN])), ReadDec(FilledText(cells[LOAN_COLUMN]));
      (x.None? || y.None? <==> FieldValues(cells).error == Some(InvalidOperation) && PaidStep(Filled(cells)).error.Some?) &&
      (x.Some? && y.Some? ==>
        FieldValues(cells).cells[PAID_COLUMN].stored == VDecimal(x.value.value + y.value.value, Max(x.value.places, y.value.places)))
  {
    var f := Filled(cells);
    assert f[SETTLED_COLUMN].text == FilledText(cells[SETTLED_COLUMN]);
    assert f[LOAN_COLUMN].text == FilledText(cells[LOAN_COLUMN]);
  }

  /** The remaining cell is read without checking the loan and settled cells: one of them missing raises. */
  lemma FieldValuesMissingOperand(cells: Row)
    requires REMAINING_COLUMN in cells && SALARY_COLUMN in cells
    requires LOAN_COLUMN !in cells || SETTLED_COLUMN !in cells
    ensures FieldValues(cells).error == Some(AttributeError)
  {
  }

  /**
   * After a recalculation of a row with all five cells that raises
   * nothing, the stored amount paid plus the stored remaining salary is
   * the salary the salary text spells.
   */
  lemma FieldValuesBalance(cells: Row)
    requires SALARY_COLUMN in cells && LOAN_COLUMN in cells && SETTLED_COLUMN in cells
    requires REMAINING_COLUMN in cells && PAID_COLUMN in cells
    requires FieldValues(cells).error.None?
    ensures var out := FieldValues(cells).cells;
      ParseDecimal(FilledText(cells[SALARY_COLUMN])).Some? &&
      out[PAID_COLUMN].stored.VDecimal? && out[REMAINING_COLUMN].stored.VDecimal? &&
      out[PAID_COLUMN].stored.d + out[REMAINING_COLUMN].stored.d == ParseDecimal(FilledText(cells[SALARY_COLUMN])).value
  {
    var f := Filled(cells);
    var p := PaidStep(f);
    var s, l, a := f[SALARY_COLUMN].text, f[LOAN_COLUMN].text, f[SETTLED_COLUMN].text;
    assert s != "" && l != "" && a != "";
    var paid := CalculateAmountPaid(a, l);
    assert p.cells == f[PAID_COLUMN := AmountWritten(f[PAID_COLUMN], paid.value)];
    var rem := CalculateRemainingSalary(s, l, a);
    assert rem.Ok?;
    PaidAndRemainingMakeSalary(s, l, a);
  }

  /** The "0" fill changes nothing once the salary, loan and settled texts are non-empty. */
  lemma FilledFixed(cells: Row)
    requires forall c :: c in cells && c in {SALARY_COLUMN, LOAN_COLUMN, SETTLED_COLUMN} ==> cells[c].text != ""
    ensures Filled(cells) == cells
  {
    var f := Filled(cells);
    forall c | c in cells
      ensures f[c] == cells[c]
    {
    }
  }

  lemma AmountWrittenTwice(it: Item, d: Dec)
    requires Exact(d)
    ensures AmountWritten(AmountWritten(it, d), d) == AmountWritten(it, d)
  {
  }

  /** The amount-paid step, repeated on a row with the same settled and loan texts and its result in the paid cell, changes nothing. */
  lemma PaidStepAgain(f: Row, h: Row)
    requires PaidStep(f).error.None? && h.Keys == f.Keys
    requires forall c :: c in f && c in {SETTLED_COLUMN, LOAN_COLUMN} ==> h[c].text == f[c].text
    requires PAID_COLUMN in f ==> h[PAID_COLUMN] == PaidStep(f).cells[PAID_COLUMN]
    ensures PaidStep(h) == Pass(h, None)
  {
    if SETTLED_COLUMN in f && PAID_COLUMN in f && LOAN_COLUMN in f {
      var d := CalculateAmountPaid(f[SETTLED_COLUMN].text, f[LOAN_COLUMN].text).value;
      AmountWrittenTwice(f[PAID_COLUMN], d);
      assert h[PAID_COLUMN := AmountWritten(h[PAID_COLUMN], d)] == h;
    }
  }

  /** Likewise the remaining-salary step. */
  lemma RemainingStepAgain(g: Row, h: Row)
    requires RemainingStep(g).error.None? && h.Keys == g.Keys
    requires forall c :: c in g && c in {SALARY_COLUMN, LOAN_COLUMN, SETTLED_COLUMN} ==> h[c].text == g[c].text
    requires REMAINING_COLUMN in g ==> h[REMAINING_COLUMN] == RemainingStep(g).cells[REMAINING_COLUMN]
    ensures RemainingStep(h) == Pass(h, None)
  {
    if REMAINING_COLUMN in g && SALARY_COLUMN in g {
      var d := CalculateRemainingSalary(g[SALARY_COLUMN].text, g[LOAN_COLUMN].text, g[SETTLED_COLUMN].text).value;
      AmountWrittenTwice(g[REMAINING_COLUMN], d);
      assert h[REMAINING_COLUMN := AmountWritten(h[REMAINING_COLUMN], d)] == h;
    }
  }

  /**
   * A second recalculation of a row whose first one raised nothing
   * changes nothing: the texts it reads are the ones the first pass read,
   * and it writes the same two cells again.
   */
  lemma FieldValuesIdempotent(cells: Row)
    requires FieldValues(cells).error.None?
    ensures FieldValues(FieldValues(cells).cells) == FieldValues(cells)
  {
    var f := Filled(cells);
    var p := PaidStep(f);
    var out := RemainingStep(p.cells).cells;
    assert FieldValues(cells) == Pass(out, None);
    FilledFixed(out);
    PaidStepAgain(f, out);
    RemainingStepAgain(p.cells, out);
  }

  // ---------------------------------------------------------------------
  // update_employee_data
  // ---------------------------------------------------------------------

  /** What `update_employee_data` sends to the database. */
  datatype EmployeeRequest =
    | AddEmployee(args: EmployeeAddArgs)
    | UpdateEmployee(fields: Record)
    | NoRequest

  /** The id after `if id_data is None or id_data is False: id_data = -1`. */
  function EmployeeId(id: Value): (v: Value)
    ensures id == VNone || id == VBool(false) ==> v == VInt(-1)
    ensures !(id == VNone || id == VBool(false)) ==> v == id
  {
    if id == VNone || id == VBool(false) then VInt(-1) else id
  }

  /** `PaymentStatus.get_status(status) if type(status) == str else status`. */
  function StatusArg(v: Value): (s: Value)
    ensures !v.VText? ==> s == v
    ensures v.VText? ==> s.VPayment? || s == VNone
  {
    if v.VText? then PaymentGetStatus(v) else v
  }

  /** The keys of the dict `update_existing_employee` passes to `Employee.update`. */
  const UPDATE_FIELDS: set<Field> :=
    {Id, Name, Salary, LoanFromSalary, LoanDate, PaymentDate, Field.PaymentStatus, AmountSettled}

  /**
   * The request for the row's stored values `d`: nothing for an empty
   * row; a `ValueError` when the row does not unpack into ten names; a new
   * employee for id -1 and a non-empty name (`len` of a name that is no
   * text raises `TypeError`); an update of the eight fields for any other
   * id.
   */
  function RequestOf(d: seq<Value>): (r: Result<EmployeeRequest, PyError>)
    ensures |d| == 0 ==> r == Ok(NoRequest)
    ensures |d| != 0 && |d| != ROW_WIDTH ==> r == Err(ValueError)
    ensures |d| == ROW_WIDTH ==>
      (r.Ok? && r.value.AddEmployee? <==>
        EqualsInt(EmployeeId(d[0]), -1) && Truthy(d[1]) && Len(d[1]).Some? && Len(d[1]).value > 0)
    ensures |d| == ROW_WIDTH ==> (r.Ok? && r.value.UpdateEmployee? <==> !EqualsInt(EmployeeId(d[0]), -1))
    ensures |d| == ROW_WIDTH && r.Err? ==> r.error == TypeError && Truthy(d[1]) && Len(d[1]).None?
    ensures r.Ok? && r.value.AddEmployee? ==>
      r.value.args == EmployeeAddArgs(d[1], d[2], d[4], d[5], d[8], d[9], StatusArg(d[3]))
    ensures r.Ok? && r.value.UpdateEmployee? ==>
      var fields := r.value.fields;
      fields.Keys == UPDATE_FIELDS && fields[Id] == EmployeeId(d[0]) && fields[Name] == d[1] &&
      fields[Salary] == d[2] && fields[LoanFromSalary] == d[4] && fields[AmountSettled] == d[5] &&
      fields[LoanDate] == d[8] && fields[PaymentDate] == d[9] && fields[Field.PaymentStatus] == StatusArg(d[3])
  {
    if |d| == 0 then Ok(NoRequest)
    else if |d| != ROW_WIDTH then Err(ValueError)
    else
      var id := EmployeeId(d[0]);
      var name := d[1];
      if EqualsInt(id, -1) && Truthy(name) then
        match Len(name)
        case None => Err(TypeError)
        case Some(n) =>
          if n > 0 then Ok(AddEmployee(EmployeeAddArgs(name, d[2], d[4], d[5], d[8], d[9], StatusArg(d[3]))))
          else Ok(NoRequest)
      else if !EqualsInt(id, -1) then
        Ok(UpdateEmployee(map[Id := id, Name := name, Salary := d[2], LoanFromSalary := d[4], LoanDate := d[8],
                              PaymentDate := d[9], Field.PaymentStatus := StatusArg(d[3]), AmountSettled := d[5]]))
      else Ok(NoRequest)
  }

  /**
   * An employee added from the page is stored as `PENDING` whatever its
   * status cell holds: the page turns the text into an enum member, and
   * `Employee.add` reads that member with `get_status` again, which takes
   * only texts.
   */
  lemma PageAddStoresPending(d: seq<Value>, id: int)
    requires RequestOf(d).Ok? && RequestOf(d).value.AddEmployee?
    ensures InsertedRow(EmployeeSchema, EmployeeAddValues(RequestOf(d).value.args), id)[Field.PaymentStatus]
         == VPayment(PaymentStatus.PENDING)
  {
    var args := RequestOf(d).value.args;
    EmployeeAddStatus(args, id);
    if args.paymentStatus.VPayment? {
      StatusOfMemberIsNone(args.paymentStatus);
    }
  }

  /** An update never names a key outside the table, and never sends the remaining or paid cells. */
  lemma PageUpdateKeysAreColumns(d: seq<Value>)
    requires RequestOf(d).Ok? && RequestOf(d).value.UpdateEmployee?
    ensures RequestOf(d).value.fields.Keys < EmployeeColumns
    ensures CreatedAt !in RequestOf(d).value.fields
  {
    assert CreatedAt in EmployeeColumns;
  }

  /**
   * A status cell holding the Arabic text of a member, sent by an update
   * that commits, leaves the employee with that member.
   */
  lemma PageUpdateStoresStatus(employees: map<int, Record>, d: seq<Value>, s: PaymentStatus)
    requires RequestOf(d).Ok? && RequestOf(d).value.UpdateEmployee?
    requires d[STATUS_COLUMN] == PaymentGetStr(VPayment(s))
    requires EmployeeUpdated(employees, RequestOf(d).value.fields).Ok?
    requires EmployeeUpdated(employees, RequestOf(d).value.fields).value.Some?
    ensures EmployeeUpdated(employees, RequestOf(d).value.fields).value.value.1[Field.PaymentStatus] == VPayment(s)
  {
    var fields := RequestOf(d).value.fields;
    PaymentStrThenStatus(s);
    assert fields[Field.PaymentStatus] == VPayment(s);
    EmployeeUpdateWrites(employees, fields, Field.PaymentStatus);
  }

  // ---------------------------------------------------------------------
  // The page controller
  // ---------------------------------------------------------------------

  /** The three `if not item.text(): item.setText("0")` fills, cell by cell. */
  method FillZeros(cells: Row) returns (f: Row)
    ensures f == Filled(cells)
  {
    f := cells;
    if SALARY_COLUMN in f && f[SALARY_COLUMN].text == "" {
      f := f[SALARY_COLUMN := f[SALARY_COLUMN].(text := "0")];
    }
    if LOAN_COLUMN in f && f[LOAN_COLUMN].text == "" {
      f := f[LOAN_COLUMN := f[LOAN_COLUMN].(text := "0")];
    }
    if SETTLED_COLUMN in f && f[SETTLED_COLUMN].text == "" {
      f := f[SETTLED_COLUMN := f[SETTLED_COLUMN].(text := "0", stored := VInt(0))];
    }
  }

  /** The amount-paid block of `update_field_value`. */
  method ApplyPaid(f: Row) returns (p: Pass)
    ensures p == PaidStep(f)
  {
    p := Pass(f, None);
    if SETTLED_COLUMN in f && PAID_COLUMN in f && LOAN_COLUMN in f {
      var paid := CalculateAmountPaid(f[SETTLED_COLUMN].text, f[LOAN_COLUMN].text);
      if paid.Err? {
        p := Pass(f, Some(paid.error));
      } else {
        p := Pass(f[PAID_COLUMN := AmountWritten(f[PAID_COLUMN], paid.value)], None);
      }
    }
  }

  /** The remaining-salary block of `update_field_value`. */
  method ApplyRemaining(g: Row) returns (p: Pass)
    ensures p == RemainingStep(g)
  {
    p := Pass(g, None);
    if REMAINING_COLUMN in g && SALARY_COLUMN in g {
      if LOAN_COLUMN !in g || SETTLED_COLUMN !in g {
        p := Pass(g, Some(AttributeError));
      } else {
        var rem := CalculateRemainingSalary(g[SALARY_COLUMN].text, g[LOAN_COLUMN].text, g[SETTLED_COLUMN].text);
        if rem.Err? {
          p := Pass(g, Some(rem.error));
        } else {
          p := Pass(g[REMAINING_COLUMN := AmountWritten(g[REMAINING_COLUMN], rem.value)], None);
        }
      }
    }
  }

  /**
   * The employees after `req` is sent: an add that inserts puts the new
   * row under the next id, an update that applies replaces the row it
   * names, and anything else leaves them as they were.
   */
  function SentEmployees(req: EmployeeRequest, employees: map<int, Record>, nextId: int): (r: map<int, Record>)
    ensures req.NoRequest? ==> r == employees
    ensures req.AddEmployee? ==> r.Keys == employees.Keys + (if EmployeeAddRow(req.args, nextId).Ok? then {nextId} else {})
    ensures forall id :: id in employees && id != nextId && !req.UpdateEmployee? ==> id in r && r[id] == employees[id]
  {
    match req
    case NoRequest => employees
    case UpdateEmployee(fields) =>
      (match EmployeeUpdated(employees, fields)
       case Ok(Some((id, rec))) => employees[id := rec]
       case _ => employees)
    case AddEmployee(args) =>
      (match EmployeeAddRow(args, nextId)
       case Ok(rec) => employees[nextId := rec]
       case Err(_) => employees)
  }

  /**
   * The table after `req` is sent for `row`: only an add that inserts
   * writes a cell, the new id into the stored value of the row's id cell.
   */
  function SentRows(req: EmployeeRequest, rows: seq<Row>, row: int, nextId: int): (r: seq<Row>)
    requires 0 <= row < |rows|
    ensures |r| == |rows|
    ensures !req.AddEmployee? ==> r == rows
    ensures forall i :: 0 <= i < |rows| && i != row ==> r[i] == rows[i]
    ensures forall c :: c in rows[row] && c != ID_COLUMN ==> c in r[row] && r[row][c] == rows[row][c]
  {
    if req.AddEmployee? && EmployeeAddRow(req.args, nextId).Ok? && ID_COLUMN in rows[row]
    then rows[row := rows[row][ID_COLUMN := rows[row][ID_COLUMN].(stored := VInt(nextId))]]
    else rows
  }

  class MainWindowController {
    /** `self.view.table_widget`. */
    const table: TableWidget
    /** The `employees` table behind `Employee`. */
    const db: EmployeeTable

    constructor(table: TableWidget, db: EmployeeTable)
      ensures this.table == table && this.db == db
    {
      this.table := table;
      this.db := db;
    }

    /** `update_field_value(row)`: the row's cells become `FieldValues` of them. */
    method UpdateFieldValue(row: int) returns (r: Result<(), PyError>)
      requires 0 <= row < |table.rows|
      modifies table
      ensures table.OnlyCellsChanged()
      ensures table.rows == old(table.rows)[row := FieldValues(old(table.rows)[row]).cells]
      ensures r.Err? <==> FieldValues(old(table.rows)[row]).error.Some?
      ensures r.Err? ==> FieldValues(old(table.rows)[row]).error == Some(r.error)
    {
      var filled := FillZeros(table.rows[row]);
      var pass := ApplyPaid(filled);
      if pass.error.None? {
        pass := ApplyRemaining(pass.cells);
      }
      table.rows := table.rows[row := pass.cells];
      r := if pass.error.Some? then Err(pass.error.value) else Ok(());
    }

    /**
     * `update_employee_data(row)`: the request `RequestOf` the row's stored
     * values, sent to `Employee`; a new employee's id is written to the
     * stored value of the id cell, its text left as it was.
     */
    method UpdateEmployeeData(row: int) returns (r: Result<(), PyError>)
      requires 0 <= row < |table.rows|
      requires db.Valid()
      modifies table, db
      ensures db.Valid() && table.OnlyCellsChanged()
      ensures var req := RequestOf(RowData(old(table.rows), row, table.columnCount));
        match req
        case Err(e) => r == Err(e) && table.rows == old(table.rows) && db.employees == old(db.employees) && db.nextId == old(db.nextId)
        case Ok(NoRequest) => r == Ok(()) && table.rows == old(table.rows) && db.employees == old(db.employees) && db.nextId == old(db.nextId)
        case Ok(UpdateEmployee(fields)) =>
          r == Ok(()) && table.rows == old(table.rows) && db.nextId == old(db.nextId) &&
          db.employees == (match EmployeeUpdated(old(db.employees), fields)
                           case Ok(Some((id, rec))) => old(db.employees)[id := rec]
                           case _ => old(db.employees))
        case Ok(AddEmployee(args)) =>
          match EmployeeAddRow(args, old(db.nextId))
          case Err(_) => r == Ok(()) && table.rows == old(table.rows) && db.employees == old(db.employees) && db.nextId == old(db.nextId)
          case Ok(rec) =>
            db.employees == old(db.employees)[old(db.nextId) := rec] && db.nextId == old(db.nextId) + 1 &&
            (ID_COLUMN in old(table.rows)[row] ==>
               r == Ok(()) &&
               table.rows == old(table.rows)[row := old(table.rows)[row][ID_COLUMN := old(table.rows)[row][ID_COLUMN].(stored := VInt(old(db.nextId)))]]) &&
            (ID_COLUMN !in old(table.rows)[row] ==> r == Err(AttributeError) && table.rows == old(table.rows))
    {
      var req := RequestOf(RowData(table.rows, row, table.columnCount));
      if req.Err? {
        return Err(req.error);
      }
      r := Ok(());
      match req.value
      case NoRequest =>
      case UpdateEmployee(fields) =>
        UpdateExistingEmployee(fields);
      case AddEmployee(args) =>
        var empId := AddNewEmployee(args);
        if Truthy(empId) {
          var cells := table.rows[row];
          if ID_COLUMN !in cells {
            return Err(AttributeError);
          }
          table.rows := table.rows[row := cells[ID_COLUMN := cells[ID_COLUMN].(stored := empId)]];
        }
    }

    /** `add_new_employee(...)`: the new employee's id, or `False`. */
    method AddNewEmployee(args: EmployeeAddArgs) returns (id: Value)
      requires db.Valid()
      modifies db
      ensures db.Valid()
      ensures match EmployeeAddRow(args, old(db.nextId))
        case Ok(rec) => id == VInt(old(db.nextId)) && Truthy(id) &&
          db.employees == old(db.employees)[old(db.nextId) := rec] && db.nextId == old(db.nextId) + 1
        case Err(_) => id == VBool(false) && db.employees == old(db.employees) && db.nextId == old(db.nextId)
    {
      ghost var inserted := EmployeeAddRow(args, db.nextId);
      assert db.nextId >= 1;
      var emp := db.Add(args);
      if emp.VRecord? {
        assert inserted.Ok?;
        return VInt(emp.id.value);
      }
      assert inserted.Err?;
      id := VBool(false);
    }

    /** `update_existing_employee(...)`: `Employee.update` with the dict; its result is dropped. */
    method UpdateExistingEmployee(fields: Record)
      requires db.Valid()
      modifies db
      ensures db.Valid() && db.nextId == old(db.nextId)
      ensures db.employees == match EmployeeUpdated(old(db.employees), fields)
        case Ok(Some((id, rec))) => old(db.employees)[id := rec]
        case _ => old(db.employees)
    {
      var _ := db.Update(fields);
    }

    /**
     * `on_item_changed(item)` for the item at (`row`, `col`): an editable
     * item is classified (column 1, the name, never as a number), the row
     * recalculated and sent; then the sums are redone. An exception stops
     * the handler where it is raised.
     */
    method OnItemChanged(row: int, col: int) returns (r: Result<(), PyError>)
      requires 0 <= row < |table.rows| && col in table.rows[row]
      requires db.Valid()
      modifies table, db
      ensures db.Valid() && |table.rows| > 0
      ensures table.hidden == old(table.hidden) && table.delegates == old(table.delegates)
      ensures !old(table.rows)[row][col].editable ==>
        && db.employees == old(db.employees) && db.nextId == old(db.nextId)
        && table.rows[..|table.rows| - 1] == WithoutSumRow(old(table.rows), old(table.sumRowIndex))
        && SumCells(table.rows[..|table.rows| - 1], table.columnCount, table.numericalColumns, table.ownerTable) ==
             (if r.Ok? then Ok(table.rows[|table.rows| - 1]) else Err(r.error))
      ensures old(table.rows)[row][col].editable ==>
        var edited := SetItem(old(table.rows), row, col, Reclassify(old(table.rows)[row][col], true, col != NAME_COLUMN));
        var p := FieldValues(edited[row]);
        && (p.error.Some? ==> r == Err(p.error.value) && table.rows == edited[row := p.cells] && db.employees == old(db.employees) && db.nextId == old(db.nextId))
        && (p.error.None? && RequestOf(RowData(edited[row := p.cells], row, table.columnCount)).Err? ==>
              r == Err(RequestOf(RowData(edited[row := p.cells], row, table.columnCount)).error) &&
              table.rows == edited[row := p.cells] && db.employees == old(db.employees) && db.nextId == old(db.nextId))
        && (p.error.None? && RequestOf(RowData(edited[row := p.cells], row, table.columnCount)).Ok? ==>
              var filled := edited[row := p.cells];
              var req := RequestOf(RowData(filled, row, table.columnCount)).value;
              var orphan := req.AddEmployee? && EmployeeAddRow(req.args, old(db.nextId)).Ok? && ID_COLUMN !in filled[row];
              && db.employees == SentEmployees(req, old(db.employees), old(db.nextId))
              && (orphan ==> r == Err(AttributeError) && table.rows == filled)
              && (!orphan ==>
                    && table.rows[..|table.rows| - 1] == WithoutSumRow(SentRows(req, filled, row, old(db.nextId)), old(table.sumRowIndex))
                    && SumCells(table.rows[..|table.rows| - 1], table.columnCount, table.numericalColumns, table.ownerTable) ==
                         (if r.Ok? then Ok(table.rows[|table.rows| - 1]) else Err(r.error))))
    {
      var it := table.rows[row][col];
      if it.editable {
        table.rows := SetItem(table.rows, row, col, Reclassify(it, true, col != NAME_COLUMN));
        r := UpdateFieldValue(row);
        if r.Err? {
          return;
        }
        r := UpdateEmployeeData(row);
        if r.Err? {
          return;
        }
      }
      r := table.UpdateSums();
    }
  }
}
