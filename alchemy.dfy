/**
 * `models/alchemy.py`: the column lists the views use per model, the
 * blank row `sqlalchemy_to_python_type` builds from a table's columns, and
 * the query `DynamicSearch.where` puts together from a column, a value and
 * an operator name. Running the query is not modelled; what the filter
 * selects is given for the equality-based operators by `Matches`.
 */
module Alchemy {
  import opened Wrappers
  import opened PyValues
  import opened Constant

  // ---------------------------------------------------------------------
  // get_columns_name
  // ---------------------------------------------------------------------

  /** What `isinstance` finds the argument of `get_columns_name` to be. */
  datatype ModelKind = EmployeeModel | CompanyModel | FreeLancerModel | CompanyOwnerModel | OtherModel

  /** `get_columns_name(model)`: the column keys of the model's table view, or the exception for any other object. */
  function ColumnsName(model: ModelKind): (r: Result<seq<string>, PyError>)
    ensures r.Err? <==> model == OtherModel
    ensures r.Ok? ==> |r.value| > 0 && r.value[0] == "id"
    ensures model == EmployeeModel ==> |r.value| == 10
    ensures model == CompanyModel ==> |r.value| == 8
    ensures model == FreeLancerModel ==> |r.value| == 5
    ensures model == CompanyOwnerModel ==> |r.value| == 16
  {
    match model
    case EmployeeModel => Ok(["id", "name", "salary", "payment_status", "loan_from_salary", "rem_from_salary",
                              "amount_paid", "amount_settled", "loan_date", "payment_date"])
    case CompanyModel => Ok(["id", "shipping_id", "loan_amount", "date_of_debt", "paid_amounts", "rem_amounts",
                             "note", "monthly_payment_due_date"])
    case FreeLancerModel => Ok(["id", "other_costs", "amount", "note", "date"])
    case CompanyOwnerModel => Ok(["id", "payment_date", "order_date", "payment_status", "total_profit_from_order",
                                  "total_discount", "retrieved_order", "coupon_code", "payment_method", "total_demand",
                                  "shipping_company", "salla_total", "cost", "order_status", "order_number", "store_name"])
    case OtherModel => Err(Raised("There's name class named"))
  }

  // ---------------------------------------------------------------------
  // sqlalchemy_to_python_type
  // ---------------------------------------------------------------------

  /** `column.type.python_type`. */
  datatype PyType = IntType | StrType | DecimalType | DateTimeType | DateType | PaymentEnumType | OrderEnumType | OtherType

  datatype TableColumn = TableColumn(name: string, pyType: PyType)

  /** The columns the blank row leaves out. */
  predicate Excluded(name: string)
  {
    name in ["updated_at", "created_at", "updated_at"]
  }

  /**
   * The blank value of a column of type `t`: integers get `Decimal(0)`, a
   * datetime the text `"YYYY-MM-DD"` (a `strftime` format with no
   * directive), a date today's date, and the enums their PENDING text;
   * None for a type with no rule.
   */
  function BlankValue(t: PyType, today: Date): (v: Option<Value>)
    ensures v.None? <==> t == OtherType
    ensures t == IntType || t == DecimalType ==> v == Some(VDecimal(0.0, 0))
    ensures t == DateTimeType ==> v == Some(VText("YYYY-MM-DD"))
  {
    match t
    case IntType => Some(VDecimal(0.0, 0))
    case StrType => Some(VText(""))
    case DecimalType => Some(VDecimal(0.0, 0))
    case DateTimeType => Some(VText("YYYY-MM-DD"))
    case DateType => Some(VDate(today))
    case PaymentEnumType => Some(PaymentGetStr(VPayment(PaymentStatus.PENDING)))
    case OrderEnumType => Some(OrderGetStr(VOrder(OrderStatus.PENDING)))
    case OtherType => None
  }

  /** Whether a column the loop reaches has a type with no rule. */
  predicate Untyped(columns: seq<TableColumn>)
  {
    exists i :: 0 <= i < |columns| && !Excluded(columns[i].name) && columns[i].pyType == OtherType
  }

  /**
   * `sqlalchemy_to_python_type(obj)` for a table with the given columns
   * (their names are distinct): each column but the timestamps mapped to
   * its blank value, then `"id"` set to -1; the exception when a column
   * has a type with no rule.
   */
  method BlankRow(columns: seq<TableColumn>, today: Date) returns (r: Result<map<string, Value>, PyError>)
    requires forall i, j :: 0 <= i < j < |columns| ==> columns[i].name != columns[j].name
    ensures r.Err? <==> Untyped(columns)
    ensures r.Ok? ==> r.value.Keys == (set i | 0 <= i < |columns| && !Excluded(columns[i].name) :: columns[i].name) + {"id"}
    ensures r.Ok? ==> r.value["id"] == VInt(-1)
    ensures r.Ok? ==> forall i :: 0 <= i < |columns| && !Excluded(columns[i].name) && columns[i].name != "id" ==>
      r.value[columns[i].name] == BlankValue(columns[i].pyType, today).value
  {
    var defaults: map<string, Value> := map[];
    var k := 0;
    while k < |columns|
      invariant 0 <= k <= |columns|
      invariant !Untyped(columns[..k])
      invariant defaults.Keys == set i | 0 <= i < k && !Excluded(columns[i].name) :: columns[i].name
      invariant forall i :: 0 <= i < k && !Excluded(columns[i].name) ==>
        BlankValue(columns[i].pyType, today).Some? && defaults[columns[i].name] == BlankValue(columns[i].pyType, today).value
    {
      var column := columns[k];
      if Excluded(column.name) {
        k := k + 1;
        assert columns[..k] == columns[..k - 1] + [column];
        continue;
      }
      var v := BlankValue(column.pyType, today);
      if v.None? {
        assert Untyped(columns) by {
          assert columns[k].pyType == OtherType;
        }
        return Err(Raised("Type not found for column"));
      }
      defaults := defaults[column.name := v.value];
      k := k + 1;
      assert columns[..k] == columns[..k - 1] + [column];
    }
    assert columns[..k] == columns;
    r := Ok(defaults["id" := VInt(-1)]);
  }

  // ---------------------------------------------------------------------
  // DynamicSearch._build_filter
  // ---------------------------------------------------------------------

  /** A SQL filter on one column, as SQLAlchemy builds it. */
  datatype Filter =
    | Eq(value: Value)
    | Neq(value: Value)
    | Like(pattern: string)
    | ILike(pattern: string)
    | In(values: seq<Value>)
    | Gt(value: Value)
    | Gte(value: Value)
    | Lt(value: Value)
    | Lte(value: Value)
    | Between(start: Value, end: Value)
    | Or(filters: seq<Filter>)

  /**
   * `str.lower()` restricted to ASCII: the letters A-Z are lowered and every
   * other character is kept. Python also lowers the other cased letters, and
   * two of them lower to ASCII (the Kelvin sign to "k", and U+0130 to "i"
   * followed by a combining dot, which changes the length); those are not
   * modelled.
   */
  function Lower(s: string): (r: string)
  {
    if s == [] then [] else
      [if 'A' <= s[0] <= 'Z' then (s[0] as int + 32) as char else s[0]] + Lower(s[1..])
  }

  /** Lowering keeps the length, leaves no capital behind, and lowering again changes nothing. */
  lemma {:induction false} LowerFacts(s: string)
    ensures |Lower(s)| == |s|
    ensures forall i :: 0 <= i < |s| ==> !('A' <= Lower(s)[i] <= 'Z')
    ensures Lower(Lower(s)) == Lower(s)
    decreases |s|
  {
    if s != [] {
      LowerFacts(s[1..]);
      var c := if 'A' <= s[0] <= 'Z' then (s[0] as int + 32) as char else s[0];
      assert Lower(s) == [c] + Lower(s[1..]);
      assert Lower(s)[1..] == Lower(s[1..]);
      forall i | 0 <= i < |s|
        ensures !('A' <= Lower(s)[i] <= 'Z')
      {
        if i > 0 {
          assert Lower(s)[i] == Lower(s[1..])[i - 1];
        }
      }
    }
  }

  /** The operators `_build_filter` knows. */
  datatype Operator = OpEq | OpNeq | OpLike | OpILike | OpIn | OpGt | OpGte | OpLt | OpLte | OpBetween | OpOr

  /** The lower-case name the source compares against. */
  function OperatorName(o: Operator): string
  {
    match o
    case OpEq => "eq"
    case OpNeq => "neq"
    case OpLike => "like"
    case OpILike => "ilike"
    case OpIn => "in"
    case OpGt => "gt"
    case OpGte => "gte"
    case OpLt => "lt"
    case OpLte => "lte"
    case OpBetween => "between"
    case OpOr => "or"
  }

  /** The operator an already lower-cased name names, in the order the source tests them. */
  function OperatorNamed(name: string): (r: Option<Operator>)
    ensures r.Some? ==> OperatorName(r.value) == name
  {
    if name == "eq" then Some(OpEq)
    else if name == "neq" then Some(OpNeq)
    else if name == "like" then Some(OpLike)
    else if name == "ilike" then Some(OpILike)
    else if name == "in" then Some(OpIn)
    else if name == "gt" then Some(OpGt)
    else if name == "gte" then Some(OpGte)
    else if name == "lt" then Some(OpLt)
    else if name == "lte" then Some(OpLte)
    else if name == "between" then Some(OpBetween)
    else if name == "or" then Some(OpOr)
    else None
  }

  /** Every operator is found by its name: the names are distinct. */
  lemma OperatorNameRoundTrip(o: Operator)
    ensures OperatorNamed(OperatorName(o)) == Some(o)
  {
    match o
    case OpEq =>
    case OpNeq =>
    case OpLike =>
    case OpILike =>
    case OpIn =>
    case OpGt =>
    case OpGte =>
    case OpLt =>
    case OpLte =>
    case OpBetween =>
    case OpOr =>
  }

  /** `isinstance(v, (datetime.date, datetime.datetime))`. */
  predicate IsDateLike(v: Value) { v.VDate? }

  /** `isinstance(v, (int, float))`; a bool is an int. */
  predicate IsNumber(v: Value) { v.VInt? || v.VBool? }

  /** The branch of `_build_filter` for operator `o`. */
  function OperatorFilter(o: Operator, value: Value, kwargs: map<string, Value>): (r: Result<Filter, PyError>)
    ensures r.Err? ==> r.error == ValueError && o in {OpBetween, OpOr}
  {
    match o
    case OpEq => Ok(Eq(value))
    case OpNeq => Ok(Neq(value))
    case OpLike => Ok(Like("%" + PyStr(value) + "%"))
    case OpILike => Ok(ILike("%" + PyStr(value) + "%"))
    case OpIn => Ok(In(if value.VList? then value.elems else [value]))
    case OpGt => Ok(Gt(value))
    case OpGte => Ok(Gte(value))
    case OpLt => Ok(Lt(value))
    case OpLte => Ok(Lte(value))
    case OpBetween =>
      if "start" !in kwargs || "end" !in kwargs then Err(ValueError)
      else if IsDateLike(kwargs["start"]) && IsDateLike(kwargs["end"]) then Ok(Between(kwargs["start"], kwargs["end"]))
      else if IsNumber(kwargs["start"]) && IsNumber(kwargs["end"]) then Ok(Between(kwargs["start"], kwargs["end"]))
      else Err(ValueError)
    case OpOr =>
      if value.VList? then Ok(Or(seq(|value.elems|, i requires 0 <= i < |value.elems| => Eq(value.elems[i]))))
      else Err(ValueError)
  }

  /**
   * `_build_filter(column_attr, value, operator, **kwargs)`: the filter the
   * lower-cased operator names, or the `ValueError` for an unknown
   * operator.
   */
  function BuildFilter(value: Value, operator: string, kwargs: map<string, Value>): (r: Result<Filter, PyError>)
    ensures OperatorNamed(Lower(operator)).None? ==> r == Err(ValueError)
    ensures OperatorNamed(Lower(operator)).Some? ==> r == OperatorFilter(OperatorNamed(Lower(operator)).value, value, kwargs)
  {
    match OperatorNamed(Lower(operator))
    case None => Err(ValueError)
    case Some(o) => OperatorFilter(o, value, kwargs)
  }

  /**
   * Whether a row whose column holds `x` passes an equality-based filter.
   * SQLAlchemy turns `== None` into `IS NULL` and `!= None` into
   * `IS NOT NULL`; otherwise a NULL column satisfies no comparison, and a
   * NULL inside `IN (...)` matches nothing. Numbers compare by value.
   * An `or_()` with no conditions renders as no WHERE clause at all, so it
   * keeps every row.
   */
  predicate Matches(f: Filter, x: Value)
    requires f.Eq? || f.Neq? || f.In? || (f.Or? && forall g :: g in f.filters ==> g.Eq?)
  {
    match f
    case Eq(v) => if v == VNone then x == VNone else x != VNone && PyEquals(x, v)
    case Neq(v) => if v == VNone then x != VNone else x != VNone && !PyEquals(x, v)
    case In(vs) => x != VNone && exists v :: v in vs && PyEquals(x, v)
    case Or(gs) => gs == [] || exists g :: g in gs && Matches(g, x)
    case _ => false
  }

  /** The operator name is matched case-insensitively: an operator written in any case builds the same filter. */
  lemma OperatorCaseInsensitive(value: Value, operator: string, kwargs: map<string, Value>)
    ensures BuildFilter(value, operator, kwargs) == BuildFilter(value, Lower(operator), kwargs)
  {
    LowerFacts(operator);
  }

  /** Each operator's own name selects its branch. */
  lemma BuildFilterByName(o: Operator, value: Value, kwargs: map<string, Value>)
    ensures BuildFilter(value, OperatorName(o), kwargs) == OperatorFilter(o, value, kwargs)
  {
    OperatorNameRoundTrip(o);
    LowerFacts(OperatorName(o));
    assert Lower(OperatorName(o)) == OperatorName(o) by {
      match o
      case OpEq => assert Lower("eq") == "eq";
      case OpNeq => assert Lower("neq") == "neq";
      case OpLike => assert Lower("like") == "like";
      case OpILike => assert Lower("ilike") == "ilike";
      case OpIn => assert Lower("in") == "in";
      case OpGt => assert Lower("gt") == "gt";
      case OpGte => assert Lower("gte") == "gte";
      case OpLt => assert Lower("lt") == "lt";
      case OpLte => assert Lower("lte") == "lte";
      case OpBetween => assert Lower("between") == "between";
      case OpOr => assert Lower("or") == "or";
    }
  }

  /**
   * `or` over a non-empty list keeps exactly the rows whose column equals
   * one of its values, NULL included; over the empty list it keeps every row.
   */
  lemma OrSelectsMembers(vs: seq<Value>, kwargs: map<string, Value>, x: Value)
    ensures OperatorFilter(OpOr, VList(vs), kwargs).Ok?
    ensures Matches(OperatorFilter(OpOr, VList(vs), kwargs).value, x) <==>
      vs == [] || exists v :: v in vs && PyEquals(x, v)
  {
    var f := OperatorFilter(OpOr, VList(vs), kwargs).value;
    if vs == [] {
      assert f.filters == [];
      return;
    }
    if v :| v in vs && PyEquals(x, v) {
      var i :| 0 <= i < |vs| && vs[i] == v;
      assert f.filters[i] == Eq(v) && Matches(f.filters[i], x);
    }
    if Matches(f, x) {
      var g :| g in f.filters && Matches(g, x);
      var i :| 0 <= i < |f.filters| && f.filters[i] == g;
      assert g == Eq(vs[i]);
      assert vs[i] in vs && PyEquals(x, vs[i]);
    }
  }

  /**
   * `in` over the same list keeps the same rows except those whose column
   * is NULL; a value that is not a list is wrapped, so `in` then selects
   * like `eq` on any value but None.
   */
  lemma InSelects(value: Value, kwargs: map<string, Value>, x: Value)
    ensures OperatorFilter(OpIn, value, kwargs).Ok?
    ensures Matches(OperatorFilter(OpIn, value, kwargs).value, x) <==>
      x != VNone && (if value.VList? then exists v :: v in value.elems && PyEquals(x, v) else PyEquals(x, value))
    ensures !value.VList? && value != VNone ==>
      (Matches(OperatorFilter(OpIn, value, kwargs).value, x) <==> Matches(OperatorFilter(OpEq, value, kwargs).value, x))
  {
  }

  /**
   * `or []` builds an empty `or_()`, which filters nothing, while `in []`
   * matches no row.
   */
  lemma EmptyOrKeepsAll(kwargs: map<string, Value>, x: Value)
    ensures Matches(OperatorFilter(OpOr, VList([]), kwargs).value, x)
    ensures !Matches(OperatorFilter(OpIn, VList([]), kwargs).value, x)
  {
    OrSelectsMembers([], kwargs, x);
  }

  /** `in [None]` matches no row, while `or [None]` matches the rows whose column is NULL. */
  lemma NullInListOrOr(kwargs: map<string, Value>)
    ensures !Matches(OperatorFilter(OpIn, VList([VNone]), kwargs).value, VNone)
    ensures Matches(OperatorFilter(OpOr, VList([VNone]), kwargs).value, VNone)
  {
    OrSelectsMembers([VNone], kwargs, VNone);
    assert VNone in [VNone] && PyEquals(VNone, VNone);
  }

  /** `between` takes two dates or two numbers, and nothing else. */
  lemma BetweenBounds(value: Value, kwargs: map<string, Value>)
    ensures OperatorFilter(OpBetween, value, kwargs).Ok? <==>
      "start" in kwargs && "end" in kwargs &&
      ((IsDateLike(kwargs["start"]) && IsDateLike(kwargs["end"])) || (IsNumber(kwargs["start"]) && IsNumber(kwargs["end"])))
    ensures OperatorFilter(OpBetween, value, kwargs).Ok? ==>
      OperatorFilter(OpBetween, value, kwargs).value == Between(kwargs["start"], kwargs["end"])
  {
  }

  /** An operator whose lower-cased name is none of the eleven is refused. */
  lemma UnknownOperator(value: Value, kwargs: map<string, Value>, operator: string)
    requires forall o: Operator :: Lower(operator) != OperatorName(o)
    ensures BuildFilter(value, operator, kwargs) == Err(ValueError)
  {
  }

  // ---------------------------------------------------------------------
  // DynamicSearch.where
  // ---------------------------------------------------------------------

  /** The query `where` hands to `query.all()`. */
  datatype Query = Query(column: string, filter: Filter, orderBy: string, descending: bool, limit: Option<int>, eagerLoads: seq<string>)

  /** Why `where` raised; the source re-raises each as `Exception("Search error in ...")`. */
  datatype WhereError = ColumnNotFound | OrderColumnNotFound | FilterRefused(error: PyError)

  /**
   * `Model.where(column, value, session, operator, order_by,
   * order_direction, limit, **kwargs)` for a model whose attributes are
   * `attributes` and whose relationships are `relationships`: the checks,
   * then the query built step by step.
   */
  method Where(attributes: set<string>, relationships: seq<string>, column: string, value: Value, operator: string,
               orderBy: string, orderDirection: string, limit: Option<int>, kwargs: map<string, Value>)
    returns (r: Result<Query, WhereError>)
    ensures column !in attributes ==> r == Err(ColumnNotFound)
    ensures column in attributes && orderBy !in attributes ==> r == Err(OrderColumnNotFound)
    ensures column in attributes && orderBy in attributes && BuildFilter(value, operator, kwargs).Err? ==>
      r == Err(FilterRefused(ValueError))
    ensures r.Ok? <==> column in attributes && orderBy in attributes && BuildFilter(value, operator, kwargs).Ok?
    ensures r.Ok? ==> (column in attributes && orderBy in attributes && BuildFilter(value, operator, kwargs).Ok?
      && r.value == Query(column, BuildFilter(value, operator, kwargs).value, orderBy,
                          Lower(orderDirection) == "desc", limit, relationships))
  {
    if column !in attributes {
      return Err(ColumnNotFound);
    }
    if orderBy !in attributes {
      return Err(OrderColumnNotFound);
    }
    var filter := BuildFilter(value, operator, kwargs);
    if filter.Err? {
      return Err(FilterRefused(filter.error));
    }
    var query := Query(column, filter.value, orderBy, false, None, []);
    if Lower(orderDirection) == "desc" {
      query := query.(descending := true);
    }
    if limit.Some? {
      query := query.(limit := limit);
    }
    var i := 0;
    while i < |relationships|
      invariant 0 <= i <= |relationships|
      invariant query.eagerLoads == relationships[..i]
      invariant query == Query(column, filter.value, orderBy, Lower(orderDirection) == "desc", limit, relationships[..i])
    {
      query := query.(eagerLoads := query.eagerLoads + [relationships[i]]);
      i := i + 1;
    }
    assert relationships[..i] == relationships;
    r := Ok(query);
  }
}
