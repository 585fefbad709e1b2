/**
 * `models/employee.py`: the `employees` table with `Employee.add`,
 * `Employee.update` and the retrying `search`.
 *
 * `add` stores the new row or returns `False`. `update` writes every given
 * key, None included, then resets each NULL column that has a default to
 * that default, and commits. It returns `False` when no employee has the
 * id, and None otherwise, also when it rolled back.
 */
module EmployeeModels {
  import opened Wrappers
  import opened PyValues
  import opened Constant
  import opened Persistence
  import opened CompanyOwnerModels
  import opened Alchemy

  // ---------------------------------------------------------------------
  // The table
  // ---------------------------------------------------------------------

  /** The columns of the `employees` table; `updated_at` is not modelled. */
  const EmployeeColumns: set<Field> := {
    Id, Name, Salary, LoanFromSalary, AmountSettled, LoanDate, PaymentDate, Field.PaymentStatus, CreatedAt}

  /** The `employees` column `f`; `created_at` defaults to `func.now()`. */
  function EmployeeColumn(f: Field): Column
    requires f in EmployeeColumns
  {
    match f
    case Id => Column(IntegerCol, false, VNone)
    case Name => Column(StringCol, false, VNone)
    case Salary => Column(DecimalCol, false, VInt(0))
    case LoanFromSalary | AmountSettled => Column(DecimalCol, true, VInt(0))
    case LoanDate | PaymentDate => Column(DateCol, true, VNone)
    case PaymentStatus => Column(PaymentEnumCol, false, VPayment(PaymentStatus.PENDING))
    case CreatedAt => Column(DateTimeCol, true, VSql("now()"))
  }

  /** The `employees` table. */
  const EmployeeSchema: Schema := map f | f in EmployeeColumns :: EmployeeColumn(f)

  // ---------------------------------------------------------------------
  // Employee.add
  // ---------------------------------------------------------------------

  /** The arguments of `Employee.add`. */
  datatype EmployeeAddArgs = EmployeeAddArgs(
    name: Value, salary: Value, loanFromSalary: Value, amountSettled: Value,
    loanDate: Value, paymentDate: Value, paymentStatus: Value)

  /** The attribute `f` the new `Employee` is built with; `payment_status` goes through `get_status`. */
  function EmployeeAddValue(args: EmployeeAddArgs, f: Field): Value
  {
    match f
    case Name => args.name
    case Salary => args.salary
    case LoanFromSalary => args.loanFromSalary
    case AmountSettled => args.amountSettled
    case LoanDate => args.loanDate
    case PaymentDate => args.paymentDate
    case PaymentStatus => PaymentGetStatus(args.paymentStatus)
    case _ => VNone
  }

  function EmployeeAddValues(args: EmployeeAddArgs): Record
  {
    map f | f in EmployeeColumns :: EmployeeAddValue(args, f)
  }

  /** The row `Employee.add` commits under `id`, or the error that makes it return `False`. */
  function EmployeeAddRow(args: EmployeeAddArgs, id: int): Result<Record, PyError>
  {
    Insert(EmployeeSchema, EmployeeAddValues(args), id)
  }

  /**
   * A column of the row `add` tries to insert, other than `id`: the
   * attribute passed when it is not None, else the column default (0 for
   * the amounts, `func.now()` for `created_at`).
   */
  lemma EmployeeAddCell(args: EmployeeAddArgs, id: int, f: Field)
    requires f in EmployeeColumns && f != Id
    ensures var v := EmployeeAddValue(args, f);
      InsertedRow(EmployeeSchema, EmployeeAddValues(args), id)[f] == if v != VNone then v else EmployeeColumn(f).default
  {
    assert EmployeeSchema[f] == EmployeeColumn(f);
    assert EmployeeAddValues(args)[f] == EmployeeAddValue(args, f);
  }

  /**
   * The payment status is read by `get_status`, which takes only the
   * Arabic texts: any other argument, an enum member among them, stores
   * `PENDING`.
   */
  lemma EmployeeAddStatus(args: EmployeeAddArgs, id: int)
    ensures var row := InsertedRow(EmployeeSchema, EmployeeAddValues(args), id);
      row[Field.PaymentStatus] ==
        (if PaymentGetStatus(args.paymentStatus).VPayment? then PaymentGetStatus(args.paymentStatus) else VPayment(PaymentStatus.PENDING))
    ensures args.paymentStatus.VPayment? ==>
      InsertedRow(EmployeeSchema, EmployeeAddValues(args), id)[Field.PaymentStatus] == VPayment(PaymentStatus.PENDING)
  {
    EmployeeAddCell(args, id, Field.PaymentStatus);
  }

  /** The name is NOT NULL without a default: `add` succeeds only with a name that binds to text. */
  lemma EmployeeAddNeedsName(args: EmployeeAddArgs, id: int)
    ensures args.name == VNone ==> EmployeeAddRow(args, id) == Err(DatabaseError)
    ensures EmployeeAddRow(args, id).Ok? ==> Binds(StringCol, args.name) && args.name != VNone
  {
    EmployeeAddCell(args, id, Name);
    assert EmployeeSchema[Name] == EmployeeColumn(Name);
  }

  // ---------------------------------------------------------------------
  // Employee.update
  // ---------------------------------------------------------------------

  /** Whether the back-fill resets column `c` of `rec`: it is NULL and has a default. */
  predicate Resets(schema: Schema, rec: Record, c: Field)
  {
    c in rec && c in schema && rec[c] == VNone && schema[c].default != VNone
  }

  /**
   * The record after `for col_name, column in columns.items(): if
   * getattr(obj, col_name) is None and column.default is not None:
   * setattr(obj, col_name, column.default.arg)`.
   */
  function BackFilled(schema: Schema, rec: Record): (r: Record)
  {
    map c | c in rec.Keys :: if Resets(schema, rec, c) then schema[c].default else rec[c]
  }

  /**
   * The back-fill loop: after it, no column that has a default is NULL,
   * and every other value is as before.
   */
  method BackFillDefaults(schema: Schema, rec: Record) returns (r: Record)
    ensures r == BackFilled(schema, rec)
  {
    r := rec;
    var todo := schema.Keys;
    while todo != {}
      invariant todo <= schema.Keys
      invariant r.Keys == rec.Keys
      invariant forall c :: c in rec ==> r[c] == if Resets(schema, rec, c) && c !in todo then schema[c].default else rec[c]
      decreases |todo|
    {
      var c :| c in todo;
      if c in r && r[c] == VNone && schema[c].default != VNone {
        r := r[c := schema[c].default];
      }
      todo := todo - {c};
    }
  }

  /** After the back-fill no column that has a default is NULL; other columns keep their value. */
  lemma BackFillFills(schema: Schema, rec: Record)
    ensures BackFilled(schema, rec).Keys == rec.Keys
    ensures forall c :: c in rec && c in schema && schema[c].default != VNone ==> BackFilled(schema, rec)[c] != VNone
    ensures forall c :: c in rec && rec[c] != VNone ==> BackFilled(schema, rec)[c] == rec[c]
  {
  }

  /** Back-filling twice is back-filling once. */
  lemma BackFillIdempotent(schema: Schema, rec: Record)
    ensures BackFilled(schema, BackFilled(schema, rec)) == BackFilled(schema, rec)
  {
    var once := BackFilled(schema, rec);
    assert forall c :: c in once ==> !Resets(schema, once, c) by {
      forall c | c in once
        ensures !Resets(schema, once, c)
      {
        if Resets(schema, rec, c) {
          assert once[c] == schema[c].default;
        }
      }
    }
  }

  /** The record after the `setattr` loop over every key, then the back-fill. */
  function EmployeeMerged(rec: Record, fields: Record): Record
  {
    BackFilled(EmployeeSchema, Assign(rec, fields, false))
  }

  /**
   * `Employee.update(updated)`: `Ok(None)` when it returns `False` (no
   * employee has the id), `Ok(Some((id, rec)))` when it commits `rec`, and
   * the exception it logs and swallows: a missing `"id"` key, a key that
   * is no column, or a row the database refuses.
   */
  function EmployeeUpdated(employees: map<int, Record>, fields: Record): Result<Option<(int, Record)>, PyError>
  {
    match LookUp(employees, UpdateDict(fields, map[]))
    case Err(e) => Err(e)
    case Ok(None) => Ok(None)
    case Ok(Some(id)) =>
      if HasUnknownField(fields, EmployeeColumns) then Err(AttributeError)
      else
        var merged := EmployeeMerged(employees[id], fields);
        if Storable(EmployeeSchema, merged) then Ok(Some((id, merged))) else Err(DatabaseError)
  }

  /**
   * `update` returns `False` exactly when the id is given and SQLite's
   * `id == value` holds for no employee.
   */
  lemma EmployeeUpdateNotFound(employees: map<int, Record>, fields: Record)
    ensures EmployeeUpdated(employees, fields) == Ok(None) <==>
      Id in fields && SqlParameter(fields[Id]) && forall id :: id in employees ==> !SqlEqualsInt(fields[Id], id)
  {
    if Id in fields && SqlParameter(fields[Id]) && IdOf(fields[Id]).Some? && IdOf(fields[Id]).value in employees {
      assert SqlEqualsInt(fields[Id], IdOf(fields[Id]).value);
    }
  }

  /**
   * An id typed as text on the employees page, such as "7", finds employee
   * 7: `update` does not return `False`, and when it commits it overwrites
   * that employee, the text id being stored as the integer.
   */
  lemma TextIdFindsEmployee(employees: map<int, Record>, fields: Record)
    requires 7 in employees && Id in fields && fields[Id] == VText("7")
    ensures EmployeeUpdated(employees, fields) != Ok(None)
    ensures EmployeeUpdated(employees, fields).Ok? ==> EmployeeUpdated(employees, fields).value.value.0 == 7
  {
    assert IntegerText("7") == Some(7) by {
      assert AsciiDigits("7");
      assert AsciiValue("7") == AsciiValue("") * 10 + 7;
    }
  }

  /** A key that names no column makes `update` raise, whatever else the dict holds. */
  lemma EmployeeUpdateUnknownKeyFails(employees: map<int, Record>, fields: Record, k: Field)
    requires LookUp(employees, UpdateDict(fields, map[])).Ok? && LookUp(employees, UpdateDict(fields, map[])).value.Some?
    requires k in fields && k !in EmployeeColumns
    ensures EmployeeUpdated(employees, fields) == Err(AttributeError)
  {
  }

  /**
   * A column of the merged record: the given value, or the old one when
   * the key is not given, with None replaced by the column default.
   */
  lemma MergedCell(rec: Record, fields: Record, k: Field)
    requires k in EmployeeColumns && (k in fields || k in rec)
    ensures var before := if k in fields then fields[k] else rec[k];
      k in EmployeeMerged(rec, fields) && EmployeeMerged(rec, fields)[k] == if before == VNone then EmployeeColumn(k).default else before
  {
    assert EmployeeSchema[k] == EmployeeColumn(k);
    assert k in Assign(rec, fields, false);
  }

  /**
   * A committed update holds every given value, None included, except
   * that a None in a column with a default became that default; a column
   * not given keeps its value, or gets its default if it was NULL.
   */
  lemma EmployeeUpdateWrites(employees: map<int, Record>, fields: Record, k: Field)
    requires EmployeeUpdated(employees, fields).Ok? && EmployeeUpdated(employees, fields).value.Some?
    requires k in EmployeeColumns
    ensures var (id, rec) := EmployeeUpdated(employees, fields).value.value;
      id in employees && k in rec && (k in fields || k in employees[id]) &&
      rec[k] == (var before := if k in fields then fields[k] else employees[id][k];
                 if before == VNone then EmployeeColumn(k).default else before)
  {
    var id := EmployeeUpdated(employees, fields).value.value.0;
    var merged := EmployeeMerged(employees[id], fields);
    assert Storable(EmployeeSchema, merged);
    assert EmployeeSchema.Keys == EmployeeColumns;
    assert k in merged;
    MergedCell(employees[id], fields, k);
  }

  /** Setting the name to None cannot be committed: the column is NOT NULL and has no default. */
  lemma EmployeeUpdateNameNoneFails(employees: map<int, Record>, fields: Record)
    requires Name in fields && fields[Name] == VNone
    ensures EmployeeUpdated(employees, fields).Ok? ==> EmployeeUpdated(employees, fields).value.None?
  {
    if EmployeeUpdated(employees, fields).Ok? && EmployeeUpdated(employees, fields).value.Some? {
      EmployeeUpdateWrites(employees, fields, Name);
    }
  }

  // ---------------------------------------------------------------------
  // The stored employees
  // ---------------------------------------------------------------------

  class EmployeeTable {
    var employees: map<int, Record>
    /** The next primary key the database hands out. */
    var nextId: int

    /** Ids start at 1, every stored row fits the table, and every id in use is below `nextId`. */
    ghost predicate Valid()
      reads this
    {
      && nextId >= 1
      && forall id :: id in employees ==> id < nextId && Storable(EmployeeSchema, employees[id])
    }

    constructor()
      ensures Valid() && employees == map[]
    {
      employees := map[];
      nextId := 1;
    }

    /** `Employee.add(...)`: the new `Employee`, or `False`. */
    method Add(args: EmployeeAddArgs) returns (r: Value)
      requires Valid()
      modifies this
      ensures Valid()
      ensures match EmployeeAddRow(args, old(nextId))
        case Ok(row) => employees == old(employees)[old(nextId) := row] && r == VRecord("Employee", Some(old(nextId))) && nextId == old(nextId) + 1
        case Err(_) => employees == old(employees) && r == VBool(false) && nextId == old(nextId)
    {
      var row := Insert(EmployeeSchema, EmployeeAddValues(args), nextId);
      if row.Err? {
        return VBool(false);
      }
      employees := employees[nextId := row.value];
      r := VRecord("Employee", Some(nextId));
      nextId := nextId + 1;
    }

    /** `Employee.update(updated)`: `False` when no employee has the id, else None, having committed or rolled back. */
    method Update(fields: Record) returns (r: Value)
      requires Valid()
      modifies this
      ensures Valid()
      ensures nextId == old(nextId)
      ensures match EmployeeUpdated(old(employees), fields)
        case Err(_) => r == VNone && employees == old(employees)
        case Ok(None) => r == VBool(false) && employees == old(employees)
        case Ok(Some((id, rec))) => r == VNone && employees == old(employees)[id := rec]
    {
      var found := LookUp(employees, UpdateDict(fields, map[]));
      if found.Err? {
        return VNone;
      }
      if found.value.None? {
        return VBool(false);
      }
      var id := found.value.value;
      var bad := HasUnknownKey(fields.Keys, EmployeeColumns, {});
      if bad {
        return VNone;
      }
      var written := SetAttributes(employees[id], fields, false);
      var merged := BackFillDefaults(EmployeeSchema, written);
      if !Storable(EmployeeSchema, merged) {
        return VNone;
      }
      employees := employees[id := merged];
      r := VNone;
    }
  }

  // ---------------------------------------------------------------------
  // Employee.search
  // ---------------------------------------------------------------------

  /**
   * `Employee().search(column, value, operator, **kwargs)`: `where` with its
   * default ordering (newest `created_at` first, no limit), issued a second
   * time when the first finds nothing. Executing a query is not modelled:
   * `firstRows` and `secondRows` are what the database returns to the first
   * and to the second execution, and `issued` lists the queries executed.
   * When `where` raises (an unknown column or order column, or a filter
   * `_build_filter` refuses), the exception leaves the `with get_session()`
   * body; `get_session` rolls back, logs and does not re-raise, so the
   * context manager swallows it and `search` returns None.
   */
  method Search(attributes: set<string>, relationships: seq<string>, column: string, value: Value, operator: string,
                kwargs: map<string, Value>, firstRows: seq<Value>, secondRows: seq<Value>)
    returns (r: Option<seq<Value>>, issued: seq<Query>)
    ensures r.None? <==> column !in attributes || "created_at" !in attributes || BuildFilter(value, operator, kwargs).Err?
    ensures r.None? ==> issued == []
    ensures r.Some? ==>
      var q := Query(column, BuildFilter(value, operator, kwargs).value, "created_at", true, None, relationships);
      && issued == (if |firstRows| == 0 then [q, q] else [q])
      && r.value == (if |firstRows| == 0 then secondRows else firstRows)
  {
    assert Lower("desc") == "desc";
    issued := [];
    var first := Where(attributes, relationships, column, value, operator, "created_at", "desc", None, kwargs);
    if first.Err? {
      // get_session's handler: rollback and log, no re-raise
      return None, issued;
    }
    issued := issued + [first.value];
    var rows := firstRows;
    if |rows| == 0 {
      var second := Where(attributes, relationships, column, value, operator, "created_at", "desc", None, kwargs);
      issued := issued + [second.value];
      rows := secondRows;
    }
    r := Some(rows);
  }
}
