/**
 * `controllers/freelancer_page_controller.py`: the freelancers page. An
 * edited cell is classified and the row is sent to `FreeLancer` as a new
 * freelancer or as an update (`update_or_add_freelancer`); then the sums
 * are redone. A new freelancer's id comes back through a callback,
 * `set_item_id`, run on the database's worker once `FreeLancer.add` is
 * done.
 *
 * `FreeLancer` itself is not part of this model: the page records the
 * calls it makes on it, and the callback takes the result as a parameter.
 */
module FreelancerPageControllers {
  import opened Wrappers
  import opened PyValues
  import opened Grid
  import opened TableWidgets
  import OwnerPage = CompanyOwnerControllers

  // Columns of the freelancers table, in the order `update_or_add_freelancer` unpacks them.
  const ID_COLUMN := 0
  const OTHER_COSTS_COLUMN := 1
  const AMOUNT_COLUMN := 2
  const NOTE_COLUMN := 3
  const DATE_COLUMN := 4
  const ROW_WIDTH := 5

  /** A call `update_or_add_freelancer` makes on `FreeLancer`, with its arguments. */
  datatype FreelancerCall =
    | AddFreelancer(otherCosts: Value, amount: Value, note: Value, date: Value)
    | UpdateFreelancer(id: Value, otherCosts: Value, amount: Value, note: Value, date: Value)

  /**
   * The call for an unpacked row `d`: an id of None or 0 becomes -1; -1
   * with other costs whose `str()` is not empty is an `add`, any other id
   * an `update` of all five fields; the other costs and the note are sent
   * as `str()` of them.
   */
  function Request(d: seq<Value>): Option<FreelancerCall>
    requires |d| == ROW_WIDTH
  {
    var id := OwnerPage.NormalizeId(d[ID_COLUMN]);
    var otherCosts := VText(PyStr(d[OTHER_COSTS_COLUMN]));
    var note := VText(PyStr(d[NOTE_COLUMN]));
    if EqualsInt(id, -1) && |PyStr(d[OTHER_COSTS_COLUMN])| > 0 then
      Some(AddFreelancer(otherCosts, d[AMOUNT_COLUMN], note, d[DATE_COLUMN]))
    else if !EqualsInt(id, -1) then
      Some(UpdateFreelancer(id, otherCosts, d[AMOUNT_COLUMN], note, d[DATE_COLUMN]))
    else None
  }

  /**
   * `update_or_add_freelancer(row)`: the row's stored values are unpacked
   * (a width other than 5 raises `ValueError`) and the call decided from
   * them.
   */
  function FreelancerUpsert(rows: seq<Row>, row: int, columnCount: nat): Result<Option<FreelancerCall>, PyError>
  {
    if columnCount != ROW_WIDTH then Err(ValueError) else Ok(Request(RowData(rows, row, ROW_WIDTH)))
  }

  /** `str(v)` is empty only for the empty text (or an empty SQL expression). */
  lemma StrEmpty(v: Value)
    ensures |PyStr(v)| == 0 <==> v == VText("") || v == VSql("")
  {
    match v
    case VInt(i) =>
    case VDecimal(d, _) =>
    case VDate(d) =>
    case _ =>
  }

  /**
   * The choice: an add exactly when the id is None, 0 or -1 and the other
   * costs are anything but the empty text (None, a missing cell's `[]` and
   * every number included); nothing when the id is such and they are the
   * empty text; otherwise an update. A row of the wrong width raises
   * `ValueError`.
   */
  lemma UpsertChoice(rows: seq<Row>, row: int, columnCount: nat)
    ensures var r := FreelancerUpsert(rows, row, columnCount);
      var d := RowData(rows, row, ROW_WIDTH);
      var id := OwnerPage.NormalizeId(d[ID_COLUMN]);
      var empty := d[OTHER_COSTS_COLUMN] == VText("") || d[OTHER_COSTS_COLUMN] == VSql("");
      && (r.Err? <==> columnCount != ROW_WIDTH)
      && (r.Err? ==> r.error == ValueError)
      && (r.Ok? ==>
            && (r.value.Some? && r.value.value.AddFreelancer? <==> EqualsInt(id, -1) && !empty)
            && (r.value.None? <==> EqualsInt(id, -1) && empty)
            && (r.value.Some? && r.value.value.UpdateFreelancer? <==> !EqualsInt(id, -1)))
  {
    StrEmpty(RowData(rows, row, ROW_WIDTH)[OTHER_COSTS_COLUMN]);
  }

  /**
   * A call carries the row's amount and date as stored, and `str()` of its
   * other costs and note; an update names the row's stored id.
   */
  lemma UpsertCallArgs(rows: seq<Row>, row: int)
    requires FreelancerUpsert(rows, row, ROW_WIDTH).Ok? && FreelancerUpsert(rows, row, ROW_WIDTH).value.Some?
    ensures var c := FreelancerUpsert(rows, row, ROW_WIDTH).value.value;
      var d := RowData(rows, row, ROW_WIDTH);
      && c.otherCosts == VText(PyStr(d[OTHER_COSTS_COLUMN]))
      && c.amount == d[AMOUNT_COLUMN]
      && c.note == VText(PyStr(d[NOTE_COLUMN]))
      && c.date == d[DATE_COLUMN]
      && (c.UpdateFreelancer? ==> c.id == d[ID_COLUMN] && !EqualsInt(c.id, -1))
  {
  }

  // ---------------------------------------------------------------------
  // The controller
  // ---------------------------------------------------------------------

  class FreelancerPageController {
    const table: TableWidget
    /** Whether `on_item_changed` is connected to the table's `itemChanged` signal. */
    var connected: bool
    /** The calls made on `FreeLancer`, oldest first. */
    var calls: seq<FreelancerCall>

    /** The page connects `on_item_changed` when it builds the table. */
    constructor(table: TableWidget)
      ensures this.table == table && connected && calls == []
    {
      this.table := table;
      connected := true;
      calls := [];
    }

    /** `update_or_add_freelancer(row)`: the call `FreelancerUpsert` decides is made. */
    method UpdateOrAddFreelancer(row: int) returns (r: Result<(), PyError>)
      modifies this
      ensures connected == old(connected)
      ensures match FreelancerUpsert(table.rows, row, table.columnCount)
        case Err(e) => r == Err(e) && calls == old(calls)
        case Ok(None) => r.Ok? && calls == old(calls)
        case Ok(Some(c)) => r.Ok? && calls == old(calls) + [c]
    {
      if table.columnCount != ROW_WIDTH {
        return Err(ValueError);
      }
      var d := RowData(table.rows, row, ROW_WIDTH);
      var id := d[ID_COLUMN];
      if id == VNone || EqualsInt(id, 0) {
        id := VInt(-1);
      }
      var otherCosts := PyStr(d[OTHER_COSTS_COLUMN]);
      if EqualsInt(id, -1) && |otherCosts| > 0 {
        calls := calls + [AddFreelancer(VText(otherCosts), d[AMOUNT_COLUMN], VText(PyStr(d[NOTE_COLUMN])), d[DATE_COLUMN])];
      } else if !EqualsInt(id, -1) {
        calls := calls + [UpdateFreelancer(id, VText(otherCosts), d[AMOUNT_COLUMN], VText(PyStr(d[NOTE_COLUMN])), d[DATE_COLUMN])];
      }
      r := Ok(());
    }

    /**
     * `set_item_id(result, error, row)`: raises a given error; otherwise
     * writes `result.id` to the stored and the shown value of the row's id
     * cell.
     */
    method SetItemId(result: Value, error: Option<PyError>, row: int) returns (r: Result<(), PyError>)
      modifies table
      ensures table.OnlyCellsChanged()
      ensures error.Some? ==> r == Err(error.value) && table.rows == old(table.rows)
      ensures error.None? && ItemAt(old(table.rows), row, ID_COLUMN).Some? && OwnerPage.ResultId(result).Ok? ==>
        r.Ok? && table.rows == SetItem(old(table.rows), row, ID_COLUMN,
          OwnerPage.IdItem(old(table.rows)[row][ID_COLUMN], OwnerPage.ResultId(result).value))
      ensures error.None? && !(ItemAt(old(table.rows), row, ID_COLUMN).Some? && OwnerPage.ResultId(result).Ok?) ==>
        r == Err(AttributeError) && table.rows == old(table.rows)
    {
      if error.Some? {
        return Err(error.value);
      }
      var item := ItemAt(table.rows, row, ID_COLUMN);
      if item.None? {
        return Err(AttributeError);
      }
      var id := OwnerPage.ResultId(result);
      if id.Err? {
        return Err(AttributeError);
      }
      table.rows := SetItem(table.rows, row, ID_COLUMN, OwnerPage.IdItem(item.value, id.value));
      r := Ok(());
    }

    /**
     * The callback of `FreeLancer.add` on the worker, given the add's
     * result: `set_item_id(result, None, row)`, and when that raises,
     * `set_item_id(None, error, row)`, which raises the error again. The
     * add returns the new id as an int, or `False`, and neither has an
     * `id`: the id cell is never written and the worker ends with
     * `AttributeError`.
     */
    method AddFinished(result: Value, row: int) returns (r: Result<(), PyError>)
      modifies table
      ensures table.OnlyCellsChanged()
      ensures (result.VInt? || result.VBool?) ==> r == Err(AttributeError) && table.rows == old(table.rows)
      ensures r.Ok? <==> ItemAt(old(table.rows), row, ID_COLUMN).Some? && OwnerPage.ResultId(result).Ok?
      ensures r.Ok? ==> table.rows == SetItem(old(table.rows), row, ID_COLUMN,
        OwnerPage.IdItem(old(table.rows)[row][ID_COLUMN], OwnerPage.ResultId(result).value))
    {
      r := SetItemId(result, None, row);
      if r.Err? {
        r := SetItemId(VNone, Some(r.error), row);
      }
    }

    /**
     * `on_item_changed(item)` for the item at (`row`, `col`): the handler
     * disconnects itself, classifies the item, sends the row and redoes the
     * sums, then connects itself again; an exception on the way leaves it
     * disconnected.
     */
    method OnItemChanged(row: int, col: int) returns (r: Result<(), PyError>)
      requires connected
      requires 0 <= row < |table.rows| && col in table.rows[row]
      modifies this, table
      ensures connected <==> r.Ok?
      ensures table.hidden == old(table.hidden) && table.delegates == old(table.delegates)
      ensures var edited := SetItem(old(table.rows), row, col, Reclassify(old(table.rows)[row][col], true, true));
        match FreelancerUpsert(edited, row, table.columnCount)
        case Err(e) => r == Err(e) && table.rows == edited && calls == old(calls)
        case Ok(c) =>
          && calls == old(calls) + (if c.Some? then [c.value] else [])
          && |table.rows| > 0 && table.rows[..|table.rows| - 1] == WithoutSumRow(edited, old(table.sumRowIndex))
          && table.sumRowIndex == Some(|table.rows| - 1)
          && table.numericalColumns == old(table.numericalColumns) + NumericalOf(table.delegates)
          && SumCells(table.rows[..|table.rows| - 1], table.columnCount, table.numericalColumns, table.ownerTable) ==
               (if r.Ok? then Ok(table.rows[|table.rows| - 1]) else Err(r.error))
    {
      connected := false;
      var it := table.rows[row][col];
      table.rows := SetItem(table.rows, row, col, Reclassify(it, true, true));
      r := UpdateOrAddFreelancer(row);
      if r.Err? {
        return;
      }
      r := table.UpdateSums();
      if r.Err? {
        return;
      }
      connected := true;
    }
  }
}
