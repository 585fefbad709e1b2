/**
 * What the ORM does with the values handed to a mapped class: which values
 * a column accepts, which row an insert writes, and the two ways the models
 * copy an update dict onto a loaded record (`setattr` of every value, or of
 * the non-None ones only).
 *
 * A record is a map from column name to value. A flush or commit that the
 * database refuses is the error `DatabaseError`; the session is then rolled
 * back, so the stored rows stay as they were.
 */
module Persistence {
  import opened Wrappers
  import opened PyValues

  datatype ColumnType = IntegerCol | StringCol | DecimalCol | DateCol | DateTimeCol | PaymentEnumCol | OrderEnumCol

  /** A mapped column: its type, whether it takes NULL, and its `default=` (`VNone` for none). */
  datatype Column = Column(kind: ColumnType, nullable: bool, default: Value)

  /**
   * A column name, as an attribute of a mapped object and as a key of an
   * update dict: the columns of every mapped table, and `Other(name)` for a
   * name that is none of them.
   */
  datatype Field =
    | Id | CreatedAt
    // company_owner
    | StoreName | OrderNumber | OrderStatus | SallaTotal | Cost | TotalDemand | TotalProfit | TotalDiscount
    | PaymentStatus | RetrievedOrder | OrderDate | PaymentDate | CouponsId | ShippingId | PaymentId
    // companys
    | LoanAmount | DateOfDebt | PaidAmounts | RemAmounts | Note | MonthlyPaymentDueDate
    // employees
    | Name | Salary | LoanFromSalary | AmountSettled | LoanDate
    | Other(name: string)

  type Schema = map<Field, Column>

  type Record = map<Field, Value>

  /**
   * The integer an SQLite integer literal denotes: an optional sign, then
   * ASCII digits. A column of INTEGER affinity gives such a text operand
   * numeric affinity, so it compares and stores as that integer.
   */
  function IntegerText(s: string): (r: Option<int>)
    ensures r.Some? <==> (|s| > 0 && AsciiDigits(s)) || (|s| > 1 && (s[0] == '-' || s[0] == '+') && AsciiDigits(s[1..]))
  {
    if |s| > 0 && AsciiDigits(s) then Some(AsciiValue(s))
    else if |s| > 1 && s[0] == '-' && AsciiDigits(s[1..]) then Some(-(AsciiValue(s[1..]) as int))
    else if |s| > 1 && s[0] == '+' && AsciiDigits(s[1..]) then Some(AsciiValue(s[1..]))
    else None
  }

  /**
   * `Model.id == v` evaluated by SQLite: a number compares by value, and a
   * text that is an integer literal compares as that integer.
   */
  predicate SqlEqualsInt(v: Value, n: int)
  {
    EqualsInt(v, n) || (v.VText? && IntegerText(v.s) == Some(n))
  }

  /**
   * The values a column of type `kind` can be bound to on SQLite. `None`
   * binds everywhere; an ORM object, a future or a list binds nowhere. An
   * integer column takes numbers and integer literals (the text is stored
   * as the integer). A
   * decimal column converts with `float(v)`, so it takes numbers and
   * numeric text; `sqlite3` binds no `Decimal` to a text column; a date
   * column takes only dates and an enum column only members of its enum.
   */
  predicate Binds(kind: ColumnType, v: Value)
  {
    match v
    case VNone => true
    case VRecord(_, _) => false
    case VFuture => false
    case VList(_) => false
    case _ =>
      match kind
      case IntegerCol => v.VInt? || v.VBool? || (v.VText? && IntegerText(v.s).Some?)
      case StringCol => v.VText? || v.VInt? || v.VBool? || v.VDate?
      case DecimalCol => v.VDecimal? || v.VInt? || v.VBool? || FloatText(v)
      case DateCol => v.VDate?
      case DateTimeCol => v.VSql? || v.VDate?
      case PaymentEnumCol => v.VPayment?
      case OrderEnumCol => v.VOrder?
  }

  /** A text that `float()` accepts. */
  predicate FloatText(v: Value)
  {
    match v
    case VText(s) => ParseDecimal(s).Some?
    case _ => false
  }

  /** A row the database accepts: each column holds a value of its type, and no NOT NULL column is NULL. */
  predicate Storable(schema: Schema, row: Record)
  {
    forall c :: c in schema ==> c in row && Binds(schema[c].kind, row[c]) && (schema[c].nullable || row[c] != VNone)
  }

  /**
   * The row an insert writes. Attributes whose value is None are left out
   * of the INSERT, so each column gets its given value when that is not
   * None, and its default otherwise.
   */
  function InsertedRow(schema: Schema, values: Record, id: int): (row: Record)
    ensures forall c :: c in row <==> c in schema || c == Id
    ensures row[Id] == VInt(id)
    ensures forall c :: c in schema && c != Id && c in values && values[c] != VNone ==> row[c] == values[c]
    ensures forall c :: c in schema && c != Id && (c !in values || values[c] == VNone) ==> row[c] == schema[c].default
  {
    (map c | c in schema.Keys :: if c in values && values[c] != VNone then values[c] else schema[c].default)[Id := VInt(id)]
  }

  /** `session.add(obj); session.commit()`: the inserted row, or the error the database raises. */
  function Insert(schema: Schema, values: Record, id: int): (r: Result<Record, PyError>)
    ensures r.Ok? ==> r.value == InsertedRow(schema, values, id) && Storable(schema, r.value)
    ensures r.Err? ==> r.error == DatabaseError && !Storable(schema, InsertedRow(schema, values, id))
  {
    var row := InsertedRow(schema, values, id);
    if Storable(schema, row) then Ok(row) else Err(DatabaseError)
  }

  /** Whether `setattr(record, k, fields[k])` happens: always, or only for a non-None value. */
  predicate Written<K(!new)>(fields: map<K, Value>, k: K, skipNone: bool)
  {
    k in fields && (!skipNone || fields[k] != VNone)
  }

  /** The record after `setattr(record, k, v)` for the written entries of `fields`. */
  function Assign<K(!new)>(rec: map<K, Value>, fields: map<K, Value>, skipNone: bool): (r: map<K, Value>)
    ensures forall k :: k in r <==> k in rec || Written(fields, k, skipNone)
    ensures forall k :: Written(fields, k, skipNone) ==> r[k] == fields[k]
    ensures forall k :: k in rec && !Written(fields, k, skipNone) ==> r[k] == rec[k]
  {
    map k | k in rec.Keys + fields.Keys && (k in rec || Written(fields, k, skipNone)) ::
      if Written(fields, k, skipNone) then fields[k] else rec[k]
  }

  /** `fields` cut down to the keys in `keys`. */
  function Restrict<K(!new)>(fields: map<K, Value>, keys: set<K>): (r: map<K, Value>)
    ensures forall k :: k in r <==> k in fields && k in keys
    ensures forall k :: k in r ==> r[k] == fields[k]
  {
    map k | k in fields.Keys && k in keys :: fields[k]
  }

  /**
   * The `for key, value in updated.items(): setattr(...)` loop. Keys are
   * distinct, so the order in which they are visited does not matter.
   */
  method SetAttributes<K(!new)>(rec: map<K, Value>, fields: map<K, Value>, skipNone: bool) returns (r: map<K, Value>)
    ensures r == Assign(rec, fields, skipNone)
  {
    r := rec;
    var todo := fields.Keys;
    while todo != {}
      invariant todo <= fields.Keys
      invariant r == Assign(rec, Restrict(fields, fields.Keys - todo), skipNone)
      decreases |todo|
    {
      var k :| k in todo;
      assert fields.Keys - (todo - {k}) == (fields.Keys - todo) + {k};
      AssignStep(rec, fields, fields.Keys - todo, k, skipNone);
      if Written(fields, k, skipNone) {
        r := r[k := fields[k]];
      }
      todo := todo - {k};
    }
    assert fields.Keys - todo == fields.Keys;
    RestrictAll(fields);
  }

  lemma AssignStep<K(!new)>(rec: map<K, Value>, fields: map<K, Value>, done: set<K>, k: K, skipNone: bool)
    requires k in fields && k !in done
    ensures var before := Assign(rec, Restrict(fields, done), skipNone);
      Assign(rec, Restrict(fields, done + {k}), skipNone) ==
        if Written(fields, k, skipNone) then before[k := fields[k]] else before
  {
    var before := Assign(rec, Restrict(fields, done), skipNone);
    var after := Assign(rec, Restrict(fields, done + {k}), skipNone);
    var expected := if Written(fields, k, skipNone) then before[k := fields[k]] else before;
    forall j
      ensures j in after <==> j in expected
      ensures j in after ==> after[j] == expected[j]
    {
      assert Written(Restrict(fields, done + {k}), j, skipNone) <==>
        Written(Restrict(fields, done), j, skipNone) || (j == k && Written(fields, k, skipNone));
    }
    assert after == expected;
  }

  lemma RestrictAll<K(!new)>(fields: map<K, Value>)
    ensures Restrict(fields, fields.Keys) == fields
  {
  }

  /**
   * The key check before the `setattr` loop: whether some key of the
   * update dict is neither a column nor one of the relation keys.
   */
  method HasUnknownKey(keys: set<Field>, columns: set<Field>, relations: set<Field>) returns (bad: bool)
    ensures bad <==> exists k :: k in keys && k !in columns && k !in relations
  {
    var todo := keys;
    while todo != {}
      invariant todo <= keys
      invariant forall k :: k in keys && k !in todo ==> k in columns || k in relations
      decreases |todo|
    {
      var k :| k in todo;
      if k !in columns && k !in relations {
        return true;
      }
      todo := todo - {k};
    }
    return false;
  }
}
