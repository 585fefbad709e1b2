/**
 * `controllers/company_page_controller.py`: the shipping companies' debt
 * page. An edited cell is classified, the row's remaining-amount cell is
 * rewritten from its loan and paid cells (`update_field_value`), and the
 * row is sent to `Company` as a new company or as an update
 * (`update_or_add_company`); then the sums are redone.
 *
 * Amounts are read with the same `get_numeric_data` as the order ledger's
 * (`Grid.NumericData`).
 */
module CompanyPageControllers {
  import opened Wrappers
  import opened PyValues
  import opened PyValueFacts
  import opened Grid
  import opened TableWidgets
  import opened Persistence
  import opened CompanyOwnerModels
  import OwnerPage = CompanyOwnerControllers

  // Columns of the companies table, in the order `update_or_add_company` unpacks them.
  const ID_COLUMN := 0
  const SHIPPING_COLUMN := 1
  const LOAN_COLUMN := 2
  const DATE_OF_DEBT_COLUMN := 3
  const PAID_COLUMN := 4
  const REMAINING_COLUMN := 5
  const NOTE_COLUMN := 6
  const DUE_DATE_COLUMN := 7
  const ROW_WIDTH := 8

  // ---------------------------------------------------------------------
  // update_field_value
  // ---------------------------------------------------------------------

  /**
   * The remaining-amount cell after `update_field_value`: it shows loan
   * minus paid with two places, and stores what it read as before the
   * edit.
   */
  function RemainingCell(rem: Item, loan: Option<Item>, paid: Option<Item>): (it: Item)
    ensures it.editable == rem.editable
  {
    rem.(text := FormatFixed2(NumericData(loan) - NumericData(paid)), stored := VDecimal(NumericData(Some(rem)), NumericPlaces(Some(rem))))
  }

  /**
   * The table after `update_field_value(row)`: only the remaining-amount
   * cell changes, and a row without one raises `AttributeError`.
   */
  function RemainingRows(rows: seq<Row>, row: int): (r: Result<seq<Row>, PyError>)
    ensures r.Ok? <==> ItemAt(rows, row, REMAINING_COLUMN).Some?
    ensures r.Err? ==> r.error == AttributeError
    ensures r.Ok? ==> |r.value| == |rows|
    ensures r.Ok? ==> forall i, c :: (i, c) != (row, REMAINING_COLUMN) ==> ItemAt(r.value, i, c) == ItemAt(rows, i, c)
  {
    match ItemAt(rows, row, REMAINING_COLUMN)
    case None => Err(AttributeError)
    case Some(rem) =>
      Ok(SetItem(rows, row, REMAINING_COLUMN,
        RemainingCell(rem, ItemAt(rows, row, LOAN_COLUMN), ItemAt(rows, row, PAID_COLUMN))))
  }

  /**
   * The remaining-amount cell shows loan minus paid, which its text reads
   * back as; its own reading stays what it was, unless that was 0, when
   * the shown difference is read instead.
   */
  lemma RemainingCellReadsBack(rem: Item, loan: Option<Item>, paid: Option<Item>)
    ensures var rem' := RemainingCell(rem, loan, paid);
      var before := NumericData(Some(rem));
      && ParseDecimal(Strip(rem'.text)) == Some(NumericData(loan) - NumericData(paid))
      && NumericData(Some(rem')) == (if before != 0.0 then before else NumericData(loan) - NumericData(paid))
  {
    NumericDataCents(loan);
    NumericDataCents(paid);
    NumericDataCents(Some(rem));
    CentsClosed(NumericData(loan), NumericData(paid));
    ShownAndStored(RemainingCell(rem, loan, paid), NumericData(Some(rem)), NumericData(loan) - NumericData(paid));
  }

  /**
   * A cell that stores the two-place `x` and shows the two-place `y` reads
   * as `x`, or as `y` when `x` is 0; its text parses as `y`.
   */
  lemma ShownAndStored(it: Item, x: real, y: real)
    requires it.stored.VDecimal? && it.stored.d == x && it.text == FormatFixed2(y)
    requires HasPlaces(x, 2) && HasPlaces(y, 2)
    ensures ParseDecimal(Strip(it.text)) == Some(y)
    ensures NumericData(Some(it)) == if x != 0.0 then x else y
  {
    FormatIsStripped(y, 2);
    Format2ParseRoundTrip(y);
    if x != 0.0 {
      NumericDataOfStored(it, x);
    } else {
      NumericDataOfText(it, y);
    }
  }

  /**
   * One pass does not settle the stored value: a cell that read as 0 keeps
   * storing 0 while it shows a non-zero difference, and the next pass
   * stores that difference.
   */
  lemma RemainingFirstPassUnsettled(rem: Item, loan: Option<Item>, paid: Option<Item>)
    requires NumericData(Some(rem)) == 0.0 && NumericData(loan) != NumericData(paid)
    ensures RemainingCell(rem, loan, paid).stored.d == 0.0
    ensures RemainingCell(RemainingCell(rem, loan, paid), loan, paid).stored.d == NumericData(loan) - NumericData(paid)
  {
    RemainingCellReadsBack(rem, loan, paid);
  }

  /** A cell rewritten twice is settled: a third rewrite changes nothing. */
  lemma RemainingCellSettles(rem: Item, loan: Option<Item>, paid: Option<Item>)
    ensures var twice := RemainingCell(RemainingCell(rem, loan, paid), loan, paid);
      RemainingCell(twice, loan, paid) == twice
  {
    var once := RemainingCell(rem, loan, paid);
    var twice := RemainingCell(once, loan, paid);
    RemainingCellReadsBack(rem, loan, paid);
    RemainingCellReadsBack(once, loan, paid);
  }

  /** Two passes settle the row: a third changes nothing. */
  lemma RemainingSettlesAfterTwoPasses(rows: seq<Row>, row: int)
    requires RemainingRows(rows, row).Ok?
    ensures var once := RemainingRows(rows, row).value;
      var twice := RemainingRows(once, row).value;
      RemainingRows(twice, row) == Ok(twice)
  {
    var loan, paid := ItemAt(rows, row, LOAN_COLUMN), ItemAt(rows, row, PAID_COLUMN);
    var once := RemainingRows(rows, row).value;
    var twice := RemainingRows(once, row).value;
    assert ItemAt(once, row, LOAN_COLUMN) == loan && ItemAt(once, row, PAID_COLUMN) == paid;
    assert ItemAt(twice, row, LOAN_COLUMN) == loan && ItemAt(twice, row, PAID_COLUMN) == paid;
    RemainingCellSettles(rows[row][REMAINING_COLUMN], loan, paid);
    var thrice := RemainingRows(twice, row).value;
    assert thrice[row] == twice[row][REMAINING_COLUMN := twice[row][REMAINING_COLUMN]];
    assert thrice[row] == twice[row];
    assert thrice == twice;
  }

  // ---------------------------------------------------------------------
  // update_or_add_company
  // ---------------------------------------------------------------------

  /** What `update_or_add_company` sends to `Company`. */
  datatype CompanyRequest =
    | AddCompany(args: CompanyAddArgs)
    | UpdateCompany(upd: UpdateDict)
    | NoRequest

  /** The plain keys of every update dict the page sends. */
  const UPDATE_FIELDS: set<Field> := {Id, LoanAmount, DateOfDebt, PaidAmounts, RemAmounts, Note, MonthlyPaymentDueDate}

  /**
   * The request for an unpacked row `d` and the shipping cell's text (None
   * for a missing cell) and stored percentage: an id of None or 0 becomes
   * -1; -1 with a non-empty shipping name is an `add`; any other id an
   * `update`, whose shipping part may raise.
   */
  function Request(d: seq<Value>, name: Value, percentage: Value): Result<CompanyRequest, PyError>
    requires |d| == ROW_WIDTH
  {
    var id := OwnerPage.NormalizeId(d[ID_COLUMN]);
    if EqualsInt(id, -1) && Truthy(name) && name.VText? && |name.s| > 0 then
      Ok(AddCompany(CompanyAddArgs(
        d[LOAN_COLUMN], d[DATE_OF_DEBT_COLUMN], d[PAID_COLUMN], d[REMAINING_COLUMN],
        VText(PyStr(d[NOTE_COLUMN])), d[DUE_DATE_COLUMN], name, percentage)))
    else if !EqualsInt(id, -1) then
      var fields: Record := map[
        Id := id,
        LoanAmount := d[LOAN_COLUMN],
        DateOfDebt := d[DATE_OF_DEBT_COLUMN],
        PaidAmounts := d[PAID_COLUMN],
        RemAmounts := d[REMAINING_COLUMN],
        Note := VText(PyStr(d[NOTE_COLUMN])),
        MonthlyPaymentDueDate := d[DUE_DATE_COLUMN]
      ];
      match OwnerPage.RelationPart(name, percentage)
      case Err(e) => Err(e)
      case Ok(ship) => Ok(UpdateCompany(UpdateDict(fields, OwnerPage.WithRelation(map[], Shippings, ship))))
    else Ok(NoRequest)
  }

  /**
   * `update_or_add_company(row)`: the row's stored values are unpacked (a
   * width other than 8 raises `ValueError`) and the request decided from
   * them and from the shipping cell.
   */
  function CompanyUpsert(rows: seq<Row>, row: int, columnCount: nat): Result<CompanyRequest, PyError>
  {
    if columnCount != ROW_WIDTH then Err(ValueError)
    else Request(RowData(rows, row, ROW_WIDTH), DisplayAt(rows, row, SHIPPING_COLUMN), StoredAt(rows, row, SHIPPING_COLUMN))
  }

  /**
   * The choice: an add exactly when the id is None, 0 or -1 and the
   * shipping cell shows a name; nothing when the id is such and it does
   * not; otherwise an update, or the error `Decimal(percentage)` raises. A
   * row of the wrong width raises `ValueError`.
   */
  lemma UpsertChoice(rows: seq<Row>, row: int, columnCount: nat)
    ensures var r := CompanyUpsert(rows, row, columnCount);
      var id := OwnerPage.NormalizeId(StoredAt(rows, row, ID_COLUMN));
      var named := ItemAt(rows, row, SHIPPING_COLUMN).Some? && ItemAt(rows, row, SHIPPING_COLUMN).value.text != "";
      && (columnCount != ROW_WIDTH ==> r == Err(ValueError))
      && (columnCount == ROW_WIDTH && ItemAt(rows, row, ID_COLUMN).Some? ==>
            && (r.Ok? && r.value.AddCompany? <==> EqualsInt(id, -1) && named)
            && (r.Ok? && r.value.NoRequest? <==> EqualsInt(id, -1) && !named)
            && (!EqualsInt(id, -1) ==> r.Err? || r.value.UpdateCompany?))
      && (columnCount == ROW_WIDTH && ItemAt(rows, row, ID_COLUMN).None? ==> r.Err? || r.value.UpdateCompany?)
      && (columnCount == ROW_WIDTH && r.Err? ==> r.error == InvalidOperation || r.error == TypeError)
  {
  }

  /**
   * An add carries the row's stored values, `str()` of its note, the name
   * the shipping cell shows and the percentage it stores.
   */
  lemma UpsertAddArgs(rows: seq<Row>, row: int)
    requires CompanyUpsert(rows, row, ROW_WIDTH).Ok? && CompanyUpsert(rows, row, ROW_WIDTH).value.AddCompany?
    ensures var args := CompanyUpsert(rows, row, ROW_WIDTH).value.args;
      && args.loanAmount == RowData(rows, row, ROW_WIDTH)[LOAN_COLUMN]
      && args.dateOfDebt == RowData(rows, row, ROW_WIDTH)[DATE_OF_DEBT_COLUMN]
      && args.paidAmounts == RowData(rows, row, ROW_WIDTH)[PAID_COLUMN]
      && args.remAmounts == RowData(rows, row, ROW_WIDTH)[REMAINING_COLUMN]
      && args.note == VText(PyStr(RowData(rows, row, ROW_WIDTH)[NOTE_COLUMN]))
      && args.monthlyPaymentDueDate == RowData(rows, row, ROW_WIDTH)[DUE_DATE_COLUMN]
      && args.shippingName == VText(rows[row][SHIPPING_COLUMN].text) && args.shippingName != VText("")
      && args.shippingPercentage == StoredAt(rows, row, SHIPPING_COLUMN)
  {
  }

  /**
   * An update always carries the seven plain fields, the note as text, and
   * a shipping part exactly when the shipping cell's name and percentage
   * are truthy; a part's percentage is the stored one when `Decimal` of it
   * is non-zero.
   */
  lemma UpsertUpdateDict(rows: seq<Row>, row: int)
    requires CompanyUpsert(rows, row, ROW_WIDTH).Ok? && CompanyUpsert(rows, row, ROW_WIDTH).value.UpdateCompany?
    ensures var upd := CompanyUpsert(rows, row, ROW_WIDTH).value.upd;
      var name := DisplayAt(rows, row, SHIPPING_COLUMN);
      var percentage := StoredAt(rows, row, SHIPPING_COLUMN);
      && upd.fields.Keys == UPDATE_FIELDS
      && upd.fields[Id] == RowData(rows, row, ROW_WIDTH)[ID_COLUMN]
      && upd.fields[LoanAmount] == RowData(rows, row, ROW_WIDTH)[LOAN_COLUMN]
      && upd.fields[PaidAmounts] == RowData(rows, row, ROW_WIDTH)[PAID_COLUMN]
      && upd.fields[RemAmounts] == RowData(rows, row, ROW_WIDTH)[REMAINING_COLUMN]
      && upd.fields[Note] == VText(PyStr(RowData(rows, row, ROW_WIDTH)[NOTE_COLUMN]))
      && upd.relations.Keys <= {Shippings}
      && (Shippings in upd.relations <==> Truthy(name) && Truthy(percentage))
      && (Shippings in upd.relations ==> upd.relations[Shippings].key == name)
      && (Shippings in upd.relations && ToDecimal(percentage).value != 0.0 ==> upd.relations[Shippings].amount == percentage)
  {
    var d := RowData(rows, row, ROW_WIDTH);
    OwnerPage.RelationPartPresent(DisplayAt(rows, row, SHIPPING_COLUMN), StoredAt(rows, row, SHIPPING_COLUMN));
  }

  /**
   * Every key the page sends is one `Company.update` accepts: the update
   * never fails its key check.
   */
  lemma UpsertUpdateKeysKnown(rows: seq<Row>, row: int, today: Date)
    requires CompanyUpsert(rows, row, ROW_WIDTH).Ok? && CompanyUpsert(rows, row, ROW_WIDTH).value.UpdateCompany?
    ensures var upd := CompanyUpsert(rows, row, ROW_WIDTH).value.upd;
      !HasUnknownField(upd.fields, CompanySchema(today).Keys) && upd.relations.Keys - {Shippings} == {}
  {
    UpsertUpdateDict(rows, row);
    var upd := CompanyUpsert(rows, row, ROW_WIDTH).value.upd;
    assert upd.fields.Keys <= CompanySchema(today).Keys;
  }

  // ---------------------------------------------------------------------
  // The controller
  // ---------------------------------------------------------------------

  /**
   * The companies after `req` is sent: an add that inserts puts the new
   * row under the next id, an update that applies replaces the row it
   * names, and anything else leaves them as they were.
   */
  function SentCompanies(req: CompanyRequest, companies: map<int, Record>, shippings: seq<Linked>, today: Date, nextId: int): (r: map<int, Record>)
    ensures req.NoRequest? ==> r == companies
    ensures req.AddCompany? ==> r.Keys == companies.Keys + (if CompanyAddRow(req.args, shippings, today, nextId).Ok? then {nextId} else {})
    ensures forall id :: id in companies && id != nextId && !req.UpdateCompany? ==> id in r && r[id] == companies[id]
  {
    match req
    case AddCompany(args) =>
      (match CompanyAddRow(args, shippings, today, nextId)
       case Ok(rec) => companies[nextId := rec]
       case Err(_) => companies)
    case UpdateCompany(upd) =>
      (match CompanyUpdated(companies, shippings, today, upd)
       case Ok(Updated(id, rec, _, _)) => companies[id := rec]
       case _ => companies)
    case NoRequest => companies
  }

  /**
   * The table after `req` is sent for `row`: only an add writes a cell,
   * the future `Company.add` returns stored in the row's id cell, whether
   * or not the insert will succeed.
   */
  function SentRows(req: CompanyRequest, rows: seq<Row>, row: int): (r: seq<Row>)
    ensures |r| == |rows|
    ensures !req.AddCompany? ==> r == rows
    ensures forall i :: 0 <= i < |rows| && i != row ==> r[i] == rows[i]
  {
    if req.AddCompany? && ItemAt(rows, row, ID_COLUMN).Some?
    then SetItem(rows, row, ID_COLUMN, rows[row][ID_COLUMN].(stored := VFuture))
    else rows
  }

  class CompanyPageController {
    const table: TableWidget
    /** The database behind `Company` and `ShippingCompany`. */
    const db: Database
    /** Whether `on_item_changed` is connected to the table's `itemChanged` signal. */
    var connected: bool

    /** The page connects `on_item_changed` when it builds the table. */
    constructor(table: TableWidget, db: Database)
      ensures this.table == table && this.db == db && connected
    {
      this.table := table;
      this.db := db;
      connected := true;
    }

    /** `update_field_value(row)`: the table becomes `RemainingRows` of it. */
    method UpdateFieldValue(row: int) returns (r: Result<(), PyError>)
      modifies table
      ensures table.OnlyCellsChanged()
      ensures match RemainingRows(old(table.rows), row)
        case Ok(rows') => r.Ok? && table.rows == rows'
        case Err(e) => r == Err(e) && table.rows == old(table.rows)
    {
      var paid := ItemAt(table.rows, row, PAID_COLUMN);
      var loan := ItemAt(table.rows, row, LOAN_COLUMN);
      var rem := ItemAt(table.rows, row, REMAINING_COLUMN);
      if rem.None? {
        return Err(AttributeError);
      }
      table.rows := SetItem(table.rows, row, REMAINING_COLUMN, RemainingCell(rem.value, loan, paid));
      r := Ok(());
    }

    /**
     * What sending `req` for `row` did to the companies and the id cell:
     * an add inserts the company (or fails in its worker thread) and writes
     * the future `Company.add` returns to the id cell's stored value; an
     * update changes the company it names; no request changes nothing. The
     * other tables never change.
     */
    twostate predicate Sent(req: CompanyRequest, row: int)
      reads this, table, db
    {
      && db.coupons == old(db.coupons) && db.shippings == old(db.shippings)
      && db.payments == old(db.payments) && db.owners == old(db.owners)
      && db.companies == SentCompanies(req, old(db.companies), old(db.shippings), db.today, old(db.nextId))
      && table.rows == SentRows(req, old(table.rows), row)
      && db.nextId == old(db.nextId) + (if req.AddCompany? && CompanyAddRow(req.args, old(db.shippings), db.today, old(db.nextId)).Ok? then 1 else 0)
    }

    /** The request is sent: `Company.add` or `Company.update`, each run on the database's worker. */
    method Send(req: CompanyRequest, row: int) returns (r: Result<(), PyError>)
      requires db.Valid()
      modifies table, db
      ensures db.Valid()
      ensures Sent(req, row)
      ensures r.Err? <==> req.AddCompany? && ItemAt(old(table.rows), row, ID_COLUMN).None?
      ensures r.Err? ==> r.error == AttributeError
      ensures table.OnlyCellsChanged()
    {
      r := Ok(());
      match req {
        case AddCompany(args) =>
          // What the add raises stays in the future it returns.
          var _ := db.CompanyAdd(args);
          if ItemAt(table.rows, row, ID_COLUMN).None? {
            return Err(AttributeError);
          }
          table.rows := SetItem(table.rows, row, ID_COLUMN, table.rows[row][ID_COLUMN].(stored := VFuture));
        case UpdateCompany(upd) =>
          var _ := db.CompanyUpdate(upd);
        case NoRequest =>
      }
    }

    /**
     * `update_or_add_company(row)`: the request is decided, and sent
     * unless deciding it raised; a missing id cell raises once the add is
     * under way.
     */
    method UpdateOrAddCompany(row: int) returns (r: Result<(), PyError>)
      requires db.Valid()
      modifies table, db
      ensures db.Valid()
      ensures table.OnlyCellsChanged()
      ensures match CompanyUpsert(old(table.rows), row, table.columnCount)
        case Err(e) =>
          && r == Err(e) && table.rows == old(table.rows)
          && db.companies == old(db.companies) && db.nextId == old(db.nextId)
          && db.coupons == old(db.coupons) && db.shippings == old(db.shippings)
          && db.payments == old(db.payments) && db.owners == old(db.owners)
        case Ok(req) =>
          && Sent(req, row)
          && (r.Err? <==> req.AddCompany? && ItemAt(old(table.rows), row, ID_COLUMN).None?)
          && (r.Err? ==> r.error == AttributeError)
    {
      var req := CompanyUpsert(table.rows, row, table.columnCount);
      if req.Err? {
        return Err(req.error);
      }
      r := Send(req.value, row);
    }

    /**
     * `on_item_changed(item)` for the item at (`row`, `col`): the handler
     * disconnects itself, classifies the item unless it is in the shipping
     * column, rewrites the remaining amount, sends the row and redoes the
     * sums, then connects itself again; an exception on the way leaves it
     * disconnected.
     */
    method OnItemChanged(row: int, col: int) returns (r: Result<(), PyError>)
      requires connected
      requires 0 <= row < |table.rows| && col in table.rows[row]
      requires db.Valid()
      modifies this, table, db
      ensures db.Valid()
      ensures connected <==> r.Ok?
      ensures table.hidden == old(table.hidden) && table.delegates == old(table.delegates)
      ensures var edited := SetItem(old(table.rows), row, col, Reclassify(old(table.rows)[row][col], col != SHIPPING_COLUMN, true));
        && (RemainingRows(edited, row).Err? ==>
              r == Err(AttributeError) && table.rows == edited
              && db.companies == old(db.companies) && db.nextId == old(db.nextId))
        && (RemainingRows(edited, row).Ok? && CompanyUpsert(RemainingRows(edited, row).value, row, table.columnCount).Err? ==>
              r == Err(CompanyUpsert(RemainingRows(edited, row).value, row, table.columnCount).error)
              && table.rows == RemainingRows(edited, row).value
              && db.companies == old(db.companies) && db.nextId == old(db.nextId))
        && (RemainingRows(edited, row).Ok? && CompanyUpsert(RemainingRows(edited, row).value, row, table.columnCount).Ok? ==>
              var rem := RemainingRows(edited, row).value;
              var req := CompanyUpsert(rem, row, table.columnCount).value;
              && db.companies == SentCompanies(req, old(db.companies), old(db.shippings), db.today, old(db.nextId))
              && (req.AddCompany? && ItemAt(rem, row, ID_COLUMN).None? ==> r == Err(AttributeError) && table.rows == rem)
              && (!(req.AddCompany? && ItemAt(rem, row, ID_COLUMN).None?) ==>
                    && |table.rows| > 0
                    && table.rows[..|table.rows| - 1] == WithoutSumRow(SentRows(req, rem, row), old(table.sumRowIndex))
                    && table.sumRowIndex == Some(|table.rows| - 1)
                    && SumCells(table.rows[..|table.rows| - 1], table.columnCount, table.numericalColumns, table.ownerTable) ==
                         (if r.Ok? then Ok(table.rows[|table.rows| - 1]) else Err(r.error))))
    {
      connected := false;
      var it := table.rows[row][col];
      table.rows := SetItem(table.rows, row, col, Reclassify(it, col != SHIPPING_COLUMN, true));
      r := UpdateFieldValue(row);
      if r.Err? {
        return;
      }
      r := UpdateOrAddCompany(row);
      if r.Err? {
        return;
      }
      r := table.UpdateSums();
      if r.Err? {
        return;
      }
      connected := true;
    }
  }
}
