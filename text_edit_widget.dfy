/**
 * `view/widgets/text_edit_widget.py`: the search panel beside a page's
 * table. It holds
 * - `RangeCalendar`, a pop-up calendar that turns two clicks into a date
 *   range;
 * - the list of columns offered for a search, built from the page's headers
 *   minus the amount columns;
 * - the rows a search found, turned into table items for the page's model
 *   and loaded into the table.
 *
 * The queries themselves run in the models: here a search result is a
 * parameter, and the panel records which query it asked for.
 */
module TextEditWidgets {
  import opened Wrappers
  import opened PyValues
  import opened Constant
  import opened Grid
  import opened Persistence
  import opened TableWidgets
  import CompanyOwnerModels

  // ---------------------------------------------------------------------
  // RangeCalendar
  // ---------------------------------------------------------------------

  /**
   * The two clicked dates as a range, earlier date first: they are swapped
   * when the first click is the later date.
   */
  function OrderedRange(first: Date, second: Date): (r: (Date, Date))
    ensures r == (first, second) || r == (second, first)
    ensures !DateLess(r.1, r.0)
    ensures r.0 == first <== !DateLess(second, first)
  {
    if DateLess(second, first) then (second, first) else (first, second)
  }

  /** The range does not depend on the order of the two clicks. */
  lemma OrderedRangeSymmetric(a: Date, b: Date)
    ensures OrderedRange(a, b) == OrderedRange(b, a)
  {
    if !DateLess(a, b) && !DateLess(b, a) {
      assert a.year == b.year && a.month == b.month && a.day == b.day;
    }
  }

  /**
   * `RangeCalendar`. A clicked date is always a valid `QDate`, and a valid
   * `QDate` is truthy, so `not self.start_date` is the test for None.
   */
  class RangeCalendar {
    var startDate: Option<Date>
    var endDate: Option<Date>
    /**
     * What the slot connected to `range_selected` gets from
     * `getCurrentDate()` at each emission, oldest first.
     */
    var selections: seq<(Date, Date)>
    /** Whether the pop-up is shown. */
    var visible: bool

    /** Between clicks no end date is held: it lives only until the range is emitted. */
    predicate Valid()
      reads this
    {
      endDate.None?
    }

    constructor()
      ensures Valid() && startDate.None? && selections == [] && !visible
    {
      startDate := None;
      endDate := None;
      selections := [];
      visible := false;
    }

    /** `clearSelection()`. */
    method ClearSelection()
      modifies this
      ensures startDate.None? && endDate.None? && Valid()
      ensures selections == old(selections) && visible == old(visible)
    {
      startDate := None;
      endDate := None;
    }

    /** `getCurrentDate()`: both dates, or `AttributeError` from `None.toPyDate()`. */
    function GetCurrentDate(): (r: Result<(Date, Date), PyError>)
      reads this
      ensures r.Ok? <==> startDate.Some? && endDate.Some?
      ensures r.Ok? ==> r.value == (startDate.value, endDate.value)
      ensures r.Err? ==> r.error == AttributeError
    {
      if startDate.Some? && endDate.Some? then Ok((startDate.value, endDate.value)) else Err(AttributeError)
    }

    /**
     * `handle_date_click(date)`: the first click starts a range; the second
     * ends it, orders it, emits it (its slot reads it with
     * `getCurrentDate()`), clears both dates and closes the pop-up.
     */
    method HandleDateClick(date: Date)
      requires Valid()
      modifies this
      ensures Valid()
      ensures old(startDate).None? ==>
        startDate == Some(date) && selections == old(selections) && visible == old(visible)
      ensures old(startDate).Some? ==>
        && selections == old(selections) + [OrderedRange(old(startDate).value, date)]
        && startDate.None? && !visible
    {
      if startDate.None? {
        startDate := Some(date);
        endDate := None;
      } else {
        endDate := Some(date);
        if DateLess(endDate.value, startDate.value) {
          startDate, endDate := endDate, startDate;
        }
        var range := GetCurrentDate();
        selections := selections + [range.value];
        ClearSelection();
        visible := false;
      }
    }
  }

  /**
   * Two clicks on a calendar with no start date emit exactly one range: the
   * two dates in order. The calendar is then ready for a new range.
   */
  method TwoClicks(c: RangeCalendar, a: Date, b: Date)
    requires c.Valid() && c.startDate.None?
    modifies c
    ensures c.selections == old(c.selections) + [OrderedRange(a, b)]
    ensures c.Valid() && c.startDate.None? && !c.visible
    ensures !DateLess(c.selections[|c.selections| - 1].1, c.selections[|c.selections| - 1].0)
  {
    c.HandleDateClick(a);
    c.HandleDateClick(b);
  }

  // ---------------------------------------------------------------------
  // The columns offered for a search
  // ---------------------------------------------------------------------

  /**
   * The user-role header names that are not offered. `retrieved_order` is
   * spelt 'retrevied_order' here, so it stays searchable.
   */
  const EXCLUDED_COLUMNS: set<string> := {
    "total_profit", "total_discount", "total_demand", "salla_total", "cost", "amount", "salary",
    "loan_from_salary", "amount_paid", "rem_from_salary", "amount_settled", "loan_amount",
    "paid_amounts", "retrevied_order", "rem_amounts"
  }

  /** The extra entry of the company-owner page: search by order number and mark the found orders completed. */
  const ORDER_NUMBER_WITH_UPDATE: string := "رقم الطلب مع التحديث"

  predicate Distinct(xs: seq<string>)
  {
    forall i, j :: 0 <= i < j < |xs| ==> xs[i] != xs[j]
  }

  /** `xs` without the elements in `gone`, in order. */
  function Without(xs: seq<string>, gone: set<string>): (r: seq<string>)
    ensures forall x :: x in r <==> x in xs && x !in gone
    ensures |r| <= |xs|
  {
    if |xs| == 0 then [] else (if xs[0] in gone then [] else [xs[0]]) + Without(xs[1..], gone)
  }

  /** The labels whose user-role name (at the same position) is not excluded. */
  function KeptLabels(labels: seq<string>, names: seq<string>): (r: seq<string>)
    requires |labels| == |names|
    ensures |r| == |Without(names, EXCLUDED_COLUMNS)|
  {
    if |names| == 0 then []
    else (if names[0] in EXCLUDED_COLUMNS then [] else [labels[0]]) + KeptLabels(labels[1..], names[1..])
  }

  /** `xs.remove(x)`: the first occurrence of `x` taken out, or `ValueError`. */
  function RemoveFirst(xs: seq<string>, x: string): (r: Result<seq<string>, PyError>)
    ensures r.Err? <==> x !in xs
    ensures r.Err? ==> r.error == ValueError
    ensures r.Ok? ==> r.value == xs[..IndexOf(xs, x)] + xs[IndexOf(xs, x) + 1..]
  {
    if |xs| == 0 then Err(ValueError)
    else if xs[0] == x then Ok(xs[1..])
    else
      match RemoveFirst(xs[1..], x)
      case Err(e) => Err(e)
      case Ok(t) =>
        RemoveLater(xs, x);
        Ok([xs[0]] + t)
  }

  /** Past a different head, the first occurrence is one further on, and the pieces around it extend by that head. */
  lemma RemoveLater(xs: seq<string>, x: string)
    requires |xs| > 0 && xs[0] != x && x in xs[1..]
    ensures x in xs && IndexOf(xs, x) == IndexOf(xs[1..], x) + 1
    ensures xs[..IndexOf(xs, x)] + xs[IndexOf(xs, x) + 1..]
      == [xs[0]] + (xs[1..][..IndexOf(xs[1..], x)] + xs[1..][IndexOf(xs[1..], x) + 1..])
  {
    var i := IndexOf(xs[1..], x);
    assert xs[..i + 1] == [xs[0]] + xs[1..][..i];
    assert xs[i + 2..] == xs[1..][i + 1..];
  }

  /**
   * `[names.index(x) for x in names[from:] if x in exculded_columns]`: the
   * position of the first occurrence of each excluded name.
   */
  function RemovedIndex(names: seq<string>, from: nat): (r: seq<nat>)
    requires from <= |names|
    ensures forall t :: 0 <= t < |r| ==> r[t] < |names|
    decreases |names| - from
  {
    if from == |names| then []
    else (if names[from] in EXCLUDED_COLUMNS then [IndexOf(names, names[from])] else []) + RemovedIndex(names, from + 1)
  }

  /** With distinct names the removed positions are the excluded ones, each once, in increasing order. */
  lemma {:induction false} RemovedIndexPositions(names: seq<string>, from: nat)
    requires from <= |names| && Distinct(names)
    ensures var r := RemovedIndex(names, from);
      && (forall t :: 0 <= t < |r| ==> from <= r[t])
      && (forall t, u :: 0 <= t < u < |r| ==> r[t] < r[u])
      && (forall k :: from <= k < |names| ==> (k in r <==> names[k] in EXCLUDED_COLUMNS))
    decreases |names| - from
  {
    if from < |names| {
      RemovedIndexPositions(names, from + 1);
      if names[from] in EXCLUDED_COLUMNS {
        var i := IndexOf(names, names[from]);
        assert names[i] == names[from];
      }
    }
  }

  /** Taking out a name that occurs once and is still there extends `gone` by that name. */
  lemma {:induction false} RemoveFromWithout(xs: seq<string>, gone: set<string>, x: string)
    requires Distinct(xs) && x in xs && x !in gone
    ensures RemoveFirst(Without(xs, gone), x) == Ok(Without(xs, gone + {x}))
  {
    var w := Without(xs[1..], gone);
    if xs[0] == x {
      assert Without(xs, gone) == [x] + w;
      assert ([x] + w)[1..] == w;
      assert Without(xs, gone + {x}) == Without(xs[1..], gone + {x});
      assert x !in xs[1..] by {
        forall k | 0 <= k < |xs[1..]|
          ensures xs[1..][k] != x
        {
          assert xs[1..][k] == xs[k + 1];
        }
      }
      WithoutSame(xs[1..], gone, gone + {x});
    } else {
      assert Distinct(xs[1..]) by {
        forall i, j | 0 <= i < j < |xs[1..]|
          ensures xs[1..][i] != xs[1..][j]
        {
          assert xs[1..][i] == xs[i + 1] && xs[1..][j] == xs[j + 1];
        }
      }
      RemoveFromWithout(xs[1..], gone, x);
      if xs[0] !in gone {
        assert Without(xs, gone) == [xs[0]] + w;
        assert ([xs[0]] + w)[1..] == w;
        assert Without(xs, gone + {x}) == [xs[0]] + Without(xs[1..], gone + {x});
      } else {
        assert Without(xs, gone) == w;
        assert Without(xs, gone + {x}) == Without(xs[1..], gone + {x});
      }
    }
  }

  /** `Without` looks at `gone` only on the elements of `xs`. */
  lemma {:induction false} WithoutSame(xs: seq<string>, g1: set<string>, g2: set<string>)
    requires forall k :: 0 <= k < |xs| ==> (xs[k] in g1 <==> xs[k] in g2)
    ensures Without(xs, g1) == Without(xs, g2)
  {
    if |xs| > 0 {
      assert forall k :: 0 <= k < |xs[1..]| ==> xs[1..][k] == xs[k + 1];
      WithoutSame(xs[1..], g1, g2);
    }
  }

  /** Nothing gone, nothing removed. */
  lemma {:induction false} WithoutNothing(xs: seq<string>)
    ensures Without(xs, {}) == xs
  {
    if |xs| > 0 {
      WithoutNothing(xs[1..]);
      assert xs == [xs[0]] + xs[1..];
    }
  }

  /** Removing the labels of the excluded names by value leaves the kept labels. */
  lemma {:induction false} WithoutLabels(labels: seq<string>, names: seq<string>, gone: set<string>)
    requires |labels| == |names|
    requires forall k :: 0 <= k < |labels| ==> (labels[k] in gone <==> names[k] in EXCLUDED_COLUMNS)
    ensures Without(labels, gone) == KeptLabels(labels, names)
  {
    if |labels| > 0 {
      assert forall k :: 0 <= k < |labels[1..]| ==> labels[1..][k] == labels[k + 1] && names[1..][k] == names[k + 1];
      WithoutLabels(labels[1..], names[1..], gone);
    }
  }

  /** `get_column_headers()[1:]`: a slice, empty for an empty list. */
  function Tail(labels: seq<string>): seq<string>
  {
    if |labels| == 0 then [] else labels[1..]
  }

  /**
   * The header part of `TextEditWidget.__init__`, given the page's shown
   * headers (the first one is "id") and its user-role names (without id):
   * the shown headers lose their first entry, and for each excluded name
   * both the name and the label at its position are removed by value.
   * For header lists whose names and labels are distinct and line up one to
   * one after "id", as every page's do, the result is the labels and the
   * names of the columns that are not excluded, in their order.
   */
  method FilterHeaders(labels: seq<string>, names: seq<string>) returns (r: Result<(seq<string>, seq<string>), PyError>)
    ensures Distinct(names) && Distinct(Tail(labels)) && |labels| == |names| + 1 ==>
      r == Ok((KeptLabels(Tail(labels), names), Without(names, EXCLUDED_COLUMNS)))
  {
    var shown := Tail(labels);
    var removed := RemovedIndex(names, 0);
    r := RemoveExcluded(names, shown, removed);
    if Distinct(names) && Distinct(shown) && |shown| == |names| {
      assert removed[..0] == [] && removed[0..] == removed;
      WithoutNothing(names);
      WithoutNothing(shown);
      RemoveAtAligned(names, shown, removed, 0);
      FilterEnd(names, shown);
    }
  }

  /**
   * The removal loop of `__init__`: for each listed position `i`,
   * `headers_user.remove(names[i])` and `headers_display.remove(shown[i])`;
   * the first call to raise ends the constructor.
   */
  method RemoveExcluded(names: seq<string>, shown: seq<string>, removed: seq<nat>)
    returns (r: Result<(seq<string>, seq<string>), PyError>)
    ensures r == RemoveAt(names, shown, names, shown, removed)
  {
    var display := shown;
    var user := names;
    var j := 0;
    while j < |removed|
      invariant 0 <= j <= |removed|
      invariant RemoveAt(names, shown, names, shown, removed) == RemoveAt(user, display, names, shown, removed[j..])
    {
      var i := removed[j];
      assert removed[j..][1..] == removed[j + 1..];
      if i >= |names| {
        return Err(IndexError);
      }
      var u := RemoveFirst(user, names[i]);
      if u.Err? {
        return Err(u.error);
      }
      if i >= |shown| {
        return Err(IndexError);
      }
      var d := RemoveFirst(display, shown[i]);
      if d.Err? {
        return Err(d.error);
      }
      user, display := u.value, d.value;
      j := j + 1;
    }
    r := Ok((display, user));
  }

  /**
   * What the removal loop leaves of `user` and `display` (display first)
   * after removing, for each position `i` of `idx` in turn, `names[i]`
   * from `user` and `shown[i]` from `display`.
   */
  function RemoveAt(user: seq<string>, display: seq<string>, names: seq<string>, shown: seq<string>, idx: seq<nat>)
    : (r: Result<(seq<string>, seq<string>), PyError>)
    ensures r.Ok? ==> |r.value.0| == |display| - |idx| && |r.value.1| == |user| - |idx|
    decreases |idx|
  {
    if |idx| == 0 then Ok((display, user))
    else
      var i := idx[0];
      if i >= |names| then Err(IndexError)
      else match RemoveFirst(user, names[i])
        case Err(e) => Err(e)
        case Ok(u) =>
          if i >= |shown| then Err(IndexError)
          else match RemoveFirst(display, shown[i])
            case Err(e) => Err(e)
            case Ok(d) => RemoveAt(u, d, names, shown, idx[1..])
  }

  /** A turn of the loop in which both removals succeed goes on with what they leave. */
  lemma RemoveAtStep(user: seq<string>, display: seq<string>, names: seq<string>, shown: seq<string>, idx: seq<nat>,
                     user': seq<string>, display': seq<string>)
    requires |idx| > 0 && idx[0] < |names| && idx[0] < |shown|
    requires RemoveFirst(user, names[idx[0]]) == Ok(user')
    requires RemoveFirst(display, shown[idx[0]]) == Ok(display')
    ensures RemoveAt(user, display, names, shown, idx) == RemoveAt(user', display', names, shown, idx[1..])
  {
  }

  /**
   * On distinct, aligned header lists the loop never raises: it removes
   * exactly the names, and the labels, at the listed positions.
   */
  lemma {:induction false} RemoveAtAligned(names: seq<string>, shown: seq<string>, removed: seq<nat>, j: nat)
    requires Distinct(names) && Distinct(shown) && |shown| == |names|
    requires removed == RemovedIndex(names, 0) && j <= |removed|
    ensures RemoveAt(Without(names, NamesAt(names, removed[..j])), Without(shown, NamesAt(shown, removed[..j])),
                     names, shown, removed[j..])
      == Ok((Without(shown, NamesAt(shown, removed)), Without(names, NamesAt(names, removed))))
    decreases |removed| - j
  {
    if j == |removed| {
      assert removed[..j] == removed;
    } else {
      var rest := removed[j..];
      FilterStep(names, shown, removed, j);
      RemoveAtStep(Without(names, NamesAt(names, removed[..j])), Without(shown, NamesAt(shown, removed[..j])),
                   names, shown, rest,
                   Without(names, NamesAt(names, removed[..j + 1])), Without(shown, NamesAt(shown, removed[..j + 1])));
      assert rest[1..] == removed[j + 1..];
      RemoveAtAligned(names, shown, removed, j + 1);
    }
  }

  /** The values of `xs` at the positions `idx`. */
  ghost function NamesAt(xs: seq<string>, idx: seq<nat>): set<string>
  {
    if |idx| == 0 then {}
    else NamesAt(xs, idx[..|idx| - 1]) + (if idx[|idx| - 1] < |xs| then {xs[idx[|idx| - 1]]} else {})
  }

  /** With distinct values, a value is at one of the positions exactly when its position is one of them. */
  lemma {:induction false} NamesAtPositions(xs: seq<string>, idx: seq<nat>)
    requires Distinct(xs)
    ensures forall k :: 0 <= k < |xs| ==> (xs[k] in NamesAt(xs, idx) <==> k in idx)
  {
    if |idx| > 0 {
      var init := idx[..|idx| - 1];
      NamesAtPositions(xs, init);
      assert idx == init + [idx[|idx| - 1]];
      forall k | 0 <= k < |xs|
        ensures xs[k] in NamesAt(xs, idx) <==> k in idx
      {
        if idx[|idx| - 1] < |xs| && k != idx[|idx| - 1] {
          assert xs[k] != xs[idx[|idx| - 1]];
        }
      }
    }
  }

  /** Each position at most once, in increasing order. */
  ghost predicate Increasing(removed: seq<nat>)
  {
    forall t, u :: 0 <= t < u < |removed| ==> removed[t] < removed[u]
  }

  /** One removal from a list of distinct values: the value at the next position is still there and goes. */
  lemma TrackedStep(xs: seq<string>, removed: seq<nat>, j: nat)
    requires Distinct(xs) && Increasing(removed) && j < |removed| && removed[j] < |xs|
    ensures RemoveFirst(Without(xs, NamesAt(xs, removed[..j])), xs[removed[j]])
      == Ok(Without(xs, NamesAt(xs, removed[..j + 1])))
  {
    var i := removed[j];
    assert removed[..j + 1][..j] == removed[..j];
    assert i !in removed[..j];
    NamesAtPositions(xs, removed[..j]);
    RemoveFromWithout(xs, NamesAt(xs, removed[..j]), xs[i]);
  }

  /** A turn of the loop on aligned header lists: both removals succeed and extend the removed positions by one. */
  lemma FilterStep(names: seq<string>, shown: seq<string>, removed: seq<nat>, j: nat)
    requires Distinct(names) && Distinct(shown) && |shown| == |names|
    requires removed == RemovedIndex(names, 0) && j < |removed|
    ensures removed[j] < |shown|
    ensures RemoveFirst(Without(names, NamesAt(names, removed[..j])), names[removed[j]])
      == Ok(Without(names, NamesAt(names, removed[..j + 1])))
    ensures RemoveFirst(Without(shown, NamesAt(shown, removed[..j])), shown[removed[j]])
      == Ok(Without(shown, NamesAt(shown, removed[..j + 1])))
  {
    RemovedIndexPositions(names, 0);
    TrackedStep(names, removed, j);
    TrackedStep(shown, removed, j);
  }

  /** After every removal, the names and labels left are the kept ones. */
  lemma FilterEnd(names: seq<string>, shown: seq<string>)
    requires Distinct(names) && Distinct(shown) && |shown| == |names|
    ensures var removed := RemovedIndex(names, 0);
      && Without(names, NamesAt(names, removed)) == Without(names, EXCLUDED_COLUMNS)
      && Without(shown, NamesAt(shown, removed)) == KeptLabels(shown, names)
  {
    var removed := RemovedIndex(names, 0);
    RemovedIndexPositions(names, 0);
    NamesAtPositions(names, removed);
    NamesAtPositions(shown, removed);
    WithoutSame(names, NamesAt(names, removed), EXCLUDED_COLUMNS);
    WithoutLabels(shown, names, NamesAt(shown, removed));
  }

  /**
   * The combobox entries: the kept labels, then, on the company-owner page,
   * the order-number-with-update entry.
   */
  function SearchEntries(kept: seq<string>, ownerPage: bool): (entries: seq<string>)
    ensures |entries| == |kept| + (if ownerPage then 1 else 0)
    ensures entries[..|kept|] == kept
    ensures ownerPage ==> entries[|kept|] == ORDER_NUMBER_WITH_UPDATE
  {
    kept + (if ownerPage then [ORDER_NUMBER_WITH_UPDATE] else [])
  }

  /** No excluded name is offered, every other one is, and `retrieved_order` is one of those. */
  lemma SearchableNames(names: seq<string>)
    ensures forall x :: x in Without(names, EXCLUDED_COLUMNS) <==> x in names && x !in EXCLUDED_COLUMNS
    ensures "retrieved_order" in names ==> "retrieved_order" in Without(names, EXCLUDED_COLUMNS)
  {
  }

  // ---------------------------------------------------------------------
  // Table items for the rows a search found
  // ---------------------------------------------------------------------

  /** The class of the page's `current_model_object`. */
  datatype ModelKind = EmployeeModel | CompanyOwnerModel | CompanyModel | FreeLancerModel | OtherModel(name: string)

  /**
   * A row loaded by the ORM: its column attributes, and the coupon, shipping
   * company and payment method it links to (`None` where it links to none).
   * The freelancers' columns are `Other("other_costs")`, `Other("amount")`,
   * `Note` and `Other("date")`.
   */
  datatype LoadedRow = LoadedRow(fields: Record, coupon: Option<CompanyOwnerModels.Linked>,
                                 shipping: Option<CompanyOwnerModels.Linked>, payment: Option<CompanyOwnerModels.Linked>)

  /** `row.<column>`; a column the record does not hold reads as None. */
  function Attr(row: LoadedRow, f: Field): Value
  {
    if f in row.fields then row.fields[f] else VNone
  }

  /**
   * `create_table_item(for_display, for_edit)`: an editable item showing
   * `for_display`, which is a `str` or `None` at every call (`None` shows
   * nothing), and holding `for_edit`.
   */
  function TableItem(display: Value, stored: Value): (it: Item)
    ensures it.stored == stored && it.editable
  {
    Item(if display.VText? then display.s else "", stored, true)
  }

  /** `create_table_item(str(v), v)`. */
  function Cell(v: Value): (it: Item)
    ensures it.text == PyStr(v) && it.stored == v && it.editable
  {
    TableItem(VText(PyStr(v)), v)
  }

  /** A linked record's cell: its key shown and its amount held, or "" and 0 without one. */
  function LinkedCell(l: Option<CompanyOwnerModels.Linked>): (it: Item)
    ensures l.None? ==> it == Item("", VInt(0), true)
    ensures l.Some? ==> it.text == PyStr(l.value.key) && it.stored == l.value.amount
  {
    if l.Some? then TableItem(VText(PyStr(l.value.key)), l.value.amount) else TableItem(VText(""), VInt(0))
  }

  /** A loaded number (int or Decimal) as a real. */
  function Number(v: Value): Option<real>
  {
    match v
    case VBool(b) => Some(if b then 1.0 else 0.0)
    case VInt(i) => Some(i as real)
    case VDecimal(d, _) => Some(d)
    case _ => None
  }

  /** `a - b` on loaded numbers, a Decimal with the larger number of places; anything else (None) raises `TypeError`. */
  function Minus(a: Value, b: Value): (r: Result<Value, PyError>)
    ensures r.Ok? <==> Number(a).Some? && Number(b).Some?
    ensures r.Ok? ==> r.value == VDecimal(Number(a).value - Number(b).value, MaxNat(PlacesOf(a), PlacesOf(b)))
    ensures r.Err? ==> r.error == TypeError
  {
    if Number(a).Some? && Number(b).Some? then Ok(VDecimal(Number(a).value - Number(b).value, MaxNat(PlacesOf(a), PlacesOf(b)))) else Err(TypeError)
  }

  /** `Decimal(v)`, or the error it raises. */
  function DecimalOf(v: Value): (r: Result<real, PyError>)
    ensures r.Ok? <==> ToDecimal(v).Some?
    ensures r.Ok? ==> r.value == ToDecimal(v).value
    ensures r.Err? ==> r.error == (if v.VText? then InvalidOperation else TypeError)
  {
    match ToDecimal(v)
    case Some(x) => Ok(x)
    case None => Err(if v.VText? then InvalidOperation else TypeError)
  }

  /**
   * `calculate_amount_paid(amount_settled, loan_from_salary)` on loaded
   * values: a falsy loan is replaced by 0, so the sum is taken only when
   * both are truthy; otherwise the int 0.
   */
  function AmountPaid(settled: Value, loan: Value): (r: Result<Value, PyError>)
    ensures !(Truthy(settled) && Truthy(loan)) ==> r == Ok(VInt(0))
    ensures Truthy(settled) && Truthy(loan) ==>
      (r.Ok? <==> ToDecimal(settled).Some? && ToDecimal(loan).Some?)
    ensures r.Ok? && Truthy(settled) && Truthy(loan) ==>
      r.value == VDecimal(ToDecimal(settled).value + ToDecimal(loan).value, MaxNat(PlacesOf(settled), PlacesOf(loan)))
  {
    var loan' := if Truthy(loan) then loan else VInt(0);
    if Truthy(settled) && Truthy(loan') then
      match (DecimalOf(settled), DecimalOf(loan'))
      case (Ok(x), Ok(y)) => Ok(VDecimal(x + y, MaxNat(PlacesOf(settled), PlacesOf(loan'))))
      case (Err(e), _) => Err(e)
      case (_, Err(e)) => Err(e)
    else Ok(VInt(0))
  }

  /**
   * The items of an employee row: id, name, salary, payment status (its
   * text shown), loan, remaining (salary − loan − settled), paid (settled +
   * loan), settled, loan date and payment date.
   */
  function EmployeeItems(row: LoadedRow): Result<seq<Item>, PyError>
  {
    var salary := Attr(row, Salary);
    var loan := Attr(row, LoanFromSalary);
    var settled := Attr(row, AmountSettled);
    var status := Attr(row, PaymentStatus);
    match Minus(salary, loan)
    case Err(e) => Err(e)
    case Ok(partial) =>
      match Minus(partial, settled)
      case Err(e) => Err(e)
      case Ok(remaining) =>
        match AmountPaid(settled, loan)
        case Err(e) => Err(e)
        case Ok(paid) =>
          Ok([Cell(Attr(row, Id)), Cell(Attr(row, Name)), Cell(salary), TableItem(PaymentGetStr(status), status),
              Cell(loan), Cell(remaining), Cell(paid), Cell(settled),
              Cell(Attr(row, LoanDate)), Cell(Attr(row, PaymentDate))])
  }

  /**
   * The items of a company-owner row. A missing coupon, shipping company or
   * payment method shows "" and holds 0; a falsy total demand is held as 0.
   */
  function OwnerItems(row: LoadedRow): seq<Item>
  {
    var demand := Attr(row, TotalDemand);
    var status := Attr(row, OrderStatus);
    var payment := Attr(row, PaymentStatus);
    [Cell(Attr(row, Id)), Cell(Attr(row, PaymentDate)), Cell(Attr(row, OrderDate)),
     TableItem(PaymentGetStr(payment), payment),
     Cell(Attr(row, TotalDiscount)), Cell(Attr(row, RetrievedOrder)), Cell(Attr(row, TotalProfit)),
     LinkedCell(row.coupon), LinkedCell(row.payment),
     TableItem(VText(PyStr(demand)), if Truthy(demand) then demand else VInt(0)),
     LinkedCell(row.shipping), Cell(Attr(row, SallaTotal)), Cell(Attr(row, Cost)),
     TableItem(OrderGetStr(status), status),
     Cell(Attr(row, OrderNumber)), Cell(Attr(row, StoreName))]
  }

  /**
   * The items of a company row: the loan held as `Decimal(loan)`, the paid
   * amount held as is unless `Decimal(paid)` is zero (then 0), the remaining
   * amount held as `Decimal(rem)` when it is truthy (else 0). Each
   * `Decimal(...)` raises for a value it cannot read, None included.
   */
  function CompanyItems(row: LoadedRow): Result<seq<Item>, PyError>
  {
    var loan := Attr(row, LoanAmount);
    var paid := Attr(row, PaidAmounts);
    var rem := Attr(row, RemAmounts);
    match DecimalOf(loan)
    case Err(e) => Err(e)
    case Ok(l) =>
      match DecimalOf(paid)
      case Err(e) => Err(e)
      case Ok(p) =>
        match (if Truthy(rem) then DecimalOf(rem) else Ok(0.0))
        case Err(e) => Err(e)
        case Ok(m) =>
          Ok([Cell(Attr(row, Id)), LinkedCell(row.shipping),
              TableItem(VText(PyStr(loan)), VDecimal(l, PlacesOf(loan))), Cell(Attr(row, DateOfDebt)),
              TableItem(VText(PyStr(paid)), if p != 0.0 then paid else VInt(0)),
              TableItem(VText(PyStr(rem)), if Truthy(rem) then VDecimal(m, PlacesOf(rem)) else VInt(0)),
              Cell(Attr(row, Note)), Cell(Attr(row, MonthlyPaymentDueDate))])
  }

  /** The items of a freelancer row; its other costs and note are shown as they are. */
  function FreelancerItems(row: LoadedRow): seq<Item>
  {
    var otherCosts := Attr(row, Other("other_costs"));
    var note := Attr(row, Note);
    [Cell(Attr(row, Id)), TableItem(otherCosts, otherCosts), Cell(Attr(row, Other("amount"))),
     TableItem(note, note), Cell(Attr(row, Other("date")))]
  }

  /** The width of a page's table. */
  function Width(model: ModelKind): nat
  {
    match model
    case EmployeeModel => 10
    case CompanyOwnerModel => 16
    case CompanyModel => 8
    case FreeLancerModel => 5
    case OtherModel(_) => 0
  }

  /**
   * `create_row_items(row)`: one item per column of the page's table, or the
   * error raised on the way; a model that is none of the four raises.
   */
  function RowItems(model: ModelKind, row: LoadedRow): (r: Result<seq<Item>, PyError>)
    ensures r.Ok? ==> |r.value| == Width(model)
    ensures model.OtherModel? ==> r == Err(Raised("There's no model named " + model.name))
    ensures model.CompanyOwnerModel? || model.FreeLancerModel? ==> r.Ok?
    ensures model.EmployeeModel? ==> (r.Err? <==>
      Number(Attr(row, Salary)).None? || Number(Attr(row, LoanFromSalary)).None? || Number(Attr(row, AmountSettled)).None? ||
      (Truthy(Attr(row, AmountSettled)) && Truthy(Attr(row, LoanFromSalary)) &&
       (ToDecimal(Attr(row, AmountSettled)).None? || ToDecimal(Attr(row, LoanFromSalary)).None?)))
    ensures model.CompanyModel? ==> (r.Err? <==>
      ToDecimal(Attr(row, LoanAmount)).None? || ToDecimal(Attr(row, PaidAmounts)).None? ||
      (Truthy(Attr(row, RemAmounts)) && ToDecimal(Attr(row, RemAmounts)).None?))
  {
    match model
    case EmployeeModel => EmployeeItems(row)
    case CompanyOwnerModel => Ok(OwnerItems(row))
    case CompanyModel => CompanyItems(row)
    case FreeLancerModel => Ok(FreelancerItems(row))
    case OtherModel(name) => Err(Raised("There's no model named " + name))
  }

  /**
   * An employee row of two-place Decimals, as the `DECIMAL(10, 2)` columns
   * load them, shows, from column 5 on, the remaining
   * amount, the paid amount and the settled amount: remaining and loan and
   * settled make up the salary, and paid is settled plus loan when both are
   * non-zero.
   */
  lemma EmployeeAmounts(row: LoadedRow, salary: real, loan: real, settled: real)
    requires Attr(row, Salary) == VDecimal(salary, 2) && Attr(row, LoanFromSalary) == VDecimal(loan, 2)
    requires Attr(row, AmountSettled) == VDecimal(settled, 2)
    ensures RowItems(EmployeeModel, row).Ok?
    ensures var items := RowItems(EmployeeModel, row).value;
      && items[5].stored.VDecimal? && items[5].stored.d + loan + settled == salary
      && items[5].stored.places == 2
      && items[6].stored == (if settled != 0.0 && loan != 0.0 then VDecimal(settled + loan, 2) else VInt(0))
      && items[7].stored == VDecimal(settled, 2)
  {
    var remaining := VDecimal(salary - loan - settled, 2);
    assert Minus(Attr(row, Salary), Attr(row, LoanFromSalary)) == Ok(VDecimal(salary - loan, 2));
    assert Minus(VDecimal(salary - loan, 2), Attr(row, AmountSettled)) == Ok(remaining);
    var paid := AmountPaid(Attr(row, AmountSettled), Attr(row, LoanFromSalary));
    assert paid == Ok(if settled != 0.0 && loan != 0.0 then VDecimal(settled + loan, 2) else VInt(0));
    assert EmployeeItems(row).Ok? && EmployeeItems(row).value[5] == Cell(remaining)
      && EmployeeItems(row).value[6] == Cell(paid.value) && EmployeeItems(row).value[7] == Cell(Attr(row, AmountSettled));
  }

  /** A company-owner row without a coupon, payment method or shipping company shows "" and holds 0 there. */
  lemma OwnerMissingLinks(row: LoadedRow)
    ensures var items := RowItems(CompanyOwnerModel, row).value;
      && (row.coupon.None? ==> items[7] == Item("", VInt(0), true))
      && (row.payment.None? ==> items[8] == Item("", VInt(0), true))
      && (row.shipping.None? ==> items[10] == Item("", VInt(0), true))
      && (row.coupon.Some? ==> items[7].stored == row.coupon.value.amount)
  {
  }

  // ---------------------------------------------------------------------
  // Searching
  // ---------------------------------------------------------------------

  /** A query `updateDatabaseRows` asks of the page's model. */
  datatype Query =
    | ColumnSearch(column: string, value: Value)      // search(column, value)
    | RelationSearch(path: string, value: Value)      // search_with_relations({path: value})

  /** The names searched through a linked table. */
  const RELATION_COLUMNS: set<string> := {"coupon_code", "payment_method", "shipping_company", "shipping_id"}

  /** The query for a search of `selected` for `value`. */
  function QueryFor(selected: string, value: Value): (q: Query)
    ensures q.value == value
    ensures q.RelationSearch? <==> selected in RELATION_COLUMNS
    ensures q.ColumnSearch? ==> q.column == selected
    ensures q.RelationSearch? ==> q.path in {"coupons.code", "shippings.name", "payments.name"}
  {
    if selected == "coupon_code" then RelationSearch("coupons.code", value)
    else if selected == "shipping_company" || selected == "shipping_id" then RelationSearch("shippings.name", value)
    else if selected == "payment_method" then RelationSearch("payments.name", value)
    else ColumnSearch(selected, value)
  }

  /** The searched value as it was typed: a status member becomes its text. */
  function TypedValue(searched: Value): (v: Value)
  {
    if searched.VPayment? then PaymentGetStr(searched)
    else if searched.VOrder? then OrderGetStr(searched)
    else searched
  }

  /**
   * `searched_text.remove(value)`, and `searched_text.pop(0)` when that
   * raises: the typed line is taken out, or else the first line; a list with
   * no line left raises `IndexError`.
   */
  function ConsumeSearched(texts: seq<string>, searched: Value): (r: Result<seq<string>, PyError>)
    ensures r.Err? <==> |texts| == 0
    ensures r.Err? ==> r.error == IndexError
    ensures r.Ok? ==> |r.value| + 1 == |texts|
    ensures r.Ok? && TypedValue(searched).VText? && TypedValue(searched).s in texts ==>
      var i := IndexOf(texts, TypedValue(searched).s);
      r.value == texts[..i] + texts[i + 1..]
    ensures r.Ok? && !(TypedValue(searched).VText? && TypedValue(searched).s in texts) ==> r.value == texts[1..]
  {
    var v := TypedValue(searched);
    if v.VText? && v.s in texts then RemoveFirst(texts, v.s)
    else if |texts| == 0 then Err(IndexError)
    else Ok(texts[1..])
  }

  /** `"\n".join(lines)`. */
  function JoinLines(lines: seq<string>): string
  {
    if |lines| == 0 then "" else if |lines| == 1 then lines[0] else lines[0] + "\n" + JoinLines(lines[1..])
  }

  /** The search button's two texts. */
  const SEARCH: string := "Search"
  const BACK: string := "Back"

  /** The cells of a loaded row after `update_column_status(3)`, when it runs. */
  function StatusMarked(row: Row, mark: bool, columnCount: nat): Row
  {
    if mark && 3 < columnCount then row[3 := CompletedCell(row, 3)] else row
  }

  /** `TextEditWidget`: the search panel of one page. */
  class TextEditWidget {
    const table: TableWidget
    const model: ModelKind
    /** `self.rows`: the rows found since the table was last filled. */
    var rows: seq<LoadedRow>
    /** The queries asked of the model, oldest first. */
    var queries: seq<Query>
    /** The text box's text. */
    var plainText: string
    /** The search button's text. */
    var buttonText: string
    /** The combobox entries, and the user-role names of the searchable columns. */
    var entries: seq<string>
    var headersUser: seq<string>
    /** The entry the user has selected in the combobox. */
    var currentEntry: string

    constructor(table: TableWidget, model: ModelKind)
      ensures this.table == table && this.model == model
      ensures rows == [] && queries == [] && plainText == "" && buttonText == SEARCH
      ensures entries == [] && headersUser == [] && currentEntry == ""
    {
      this.table := table;
      this.model := model;
      rows := [];
      queries := [];
      plainText := "";
      buttonText := SEARCH;
      entries := [];
      headersUser := [];
      currentEntry := "";
    }

    /**
     * The header part of `__init__`: the searchable columns, listed in the
     * combobox (which then shows its first entry), with the extra entry on
     * the company-owner page.
     */
    method BuildSearchColumns(labels: seq<string>, names: seq<string>) returns (r: Result<(), PyError>)
      modifies this
      ensures rows == old(rows) && queries == old(queries) && plainText == old(plainText) && buttonText == old(buttonText)
      ensures r.Err? ==> entries == old(entries) && headersUser == old(headersUser) && currentEntry == old(currentEntry)
      ensures Distinct(names) && Distinct(Tail(labels)) && |labels| == |names| + 1 ==>
        && r.Ok?
        && headersUser == Without(names, EXCLUDED_COLUMNS)
        && entries == SearchEntries(KeptLabels(Tail(labels), names), model.CompanyOwnerModel?)
        && currentEntry == (if |entries| > 0 then entries[0] else "")
    {
      var h := FilterHeaders(labels, names);
      if h.Err? {
        return Err(h.error);
      }
      headersUser := h.value.1;
      entries := SearchEntries(h.value.0, model.CompanyOwnerModel?);
      currentEntry := if |entries| > 0 then entries[0] else "";
      r := Ok(());
    }

    /**
     * `updateDatabaseRows(selected_item, searched_value, searched_text)`,
     * given what the query returns: `None` where `search` swallowed the
     * exception of a refused query, in which case `len(db)` raises
     * TypeError before anything else changes. A non-empty result is
     * appended to `rows`: the guard `db not in self.rows` compares the
     * result list with the rows, which are records, so it always holds. The
     * typed line is then taken out of the searched lines. The text box shows
     * the lines left; the answer is whether `rows` holds anything.
     */
    method UpdateDatabaseRows(selected: string, searched: Value, searchedText: seq<string>, found: Option<seq<LoadedRow>>)
      returns (r: Result<bool, PyError>, texts: seq<string>)
      modifies this
      ensures queries == old(queries) + [QueryFor(selected, searched)]
      ensures buttonText == old(buttonText) && entries == old(entries) && headersUser == old(headersUser)
      ensures currentEntry == old(currentEntry)
      ensures found.None? ==> r == Err(TypeError) && rows == old(rows) && plainText == old(plainText) && texts == searchedText
      ensures found.Some? ==> rows == old(rows) + found.value
      ensures found.Some? && |found.value| == 0 ==> r.Ok? && texts == searchedText
      ensures found.Some? && |found.value| > 0 ==> match ConsumeSearched(searchedText, searched)
        case Ok(t) => r.Ok? && texts == t
        case Err(e) => r == Err(e) && plainText == old(plainText)
      ensures r.Ok? ==> plainText == JoinLines(texts) && (r.value <==> |rows| > 0)
    {
      queries := queries + [QueryFor(selected, searched)];
      texts := searchedText;
      if found.None? {
        return Err(TypeError), texts;
      }
      if |found.value| > 0 {
        rows := rows + found.value;
        var t := ConsumeSearched(texts, searched);
        if t.Err? {
          return Err(t.error), texts;
        }
        texts := t.value;
      }
      plainText := JoinLines(texts);
      r := Ok(|rows| > 0);
    }

    /** `removeDatabaseRows()`. */
    method RemoveDatabaseRows()
      modifies this
      ensures rows == []
      ensures queries == old(queries) && plainText == old(plainText) && buttonText == old(buttonText)
      ensures entries == old(entries) && headersUser == old(headersUser) && currentEntry == old(currentEntry)
    {
      rows := [];
    }

    /** `create_table_items(rows)`: the items of each row in turn; the first row that raises stops it. */
    method CreateTableItems(found: seq<LoadedRow>) returns (r: Result<seq<seq<Item>>, PyError>)
      ensures r.Ok? <==> forall i :: 0 <= i < |found| ==> RowItems(model, found[i]).Ok?
      ensures r.Ok? ==> |r.value| == |found| && forall i :: 0 <= i < |found| ==> r.value[i] == RowItems(model, found[i]).value
      ensures r.Err? ==> exists i :: 0 <= i < |found| && RowItems(model, found[i]) == Err(r.error)
    {
      var items: seq<seq<Item>> := [];
      var i := 0;
      while i < |found|
        invariant 0 <= i <= |found| && |items| == i
        invariant forall j :: 0 <= j < i ==> RowItems(model, found[j]).Ok? && items[j] == RowItems(model, found[j]).value
      {
        var row := RowItems(model, found[i]);
        if row.Err? {
          return Err(row.error);
        }
        items := items + [row.value];
        i := i + 1;
      }
      r := Ok(items);
    }

    /**
     * `updateTable()`: with rows found, their items fill the table (with
     * the payment status of every row marked completed when the
     * order-number-with-update entry is selected on the company-owner page),
     * the button turns to "Back" and the found rows are forgotten; with none,
     * nothing happens.
     */
    method UpdateTable() returns (r: Result<(), PyError>)
      modifies this, table
      ensures queries == old(queries) && plainText == old(plainText) && entries == old(entries)
      ensures headersUser == old(headersUser) && currentEntry == old(currentEntry)
      ensures |old(rows)| == 0 ==> r.Ok? && rows == old(rows) && buttonText == old(buttonText) && table.rows == old(table.rows)
      ensures (exists i :: 0 <= i < |old(rows)| && RowItems(model, old(rows)[i]).Err?) ==> r.Err? && table.rows == old(table.rows)
      ensures r.Err? ==> rows == old(rows) && buttonText == old(buttonText)
      ensures r.Ok? && |old(rows)| > 0 ==>
        && rows == [] && buttonText == BACK && |table.rows| == |old(rows)| + 1
        && forall i :: 0 <= i < |old(rows)| ==>
             table.rows[i] == StatusMarked(LoadRow(RowItems(model, old(rows)[i]).value, table.columnCount, table.readOnlyColumns),
                                           model.CompanyOwnerModel? && currentEntry == ORDER_NUMBER_WITH_UPDATE, table.columnCount)
    {
      if |rows| == 0 {
        return Ok(());
      }
      var items := CreateTableItems(rows);
      if items.Err? {
        return Err(items.error);
      }
      r := table.AddRows(items.value);
      if r.Err? {
        return;
      }
      if model.CompanyOwnerModel? && currentEntry == ORDER_NUMBER_WITH_UPDATE {
        table.UpdateColumnStatus(3);
      }
      buttonText := BACK;
      RemoveDatabaseRows();
    }
  }
}
