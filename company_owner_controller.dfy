/**
 * `controllers/company_owner_controller.py`: what happens to an order row
 * when one of its cells is edited. The row is recalculated in place
 * (`update_field_value`, with its per-row memo `rows_data`), then sent to
 * the database as a new order or as an update (`update_or_add_company`),
 * and the sums are redone.
 *
 * Two column orders meet here. The recalculation reads the columns in the
 * order of the page's headers (coupon 6, payment method 7, total of orders
 * 8, retrieved 9); `update_or_add_company` unpacks the row in the order the
 * loader fills it (retrieved 6, coupon 7, payment method 8, total demand
 * 9). Both are kept as written.
 *
 * An exception that escapes a Qt slot ends the application, so after an
 * error the model does not say what the table holds.
 */
module CompanyOwnerControllers {
  import opened Wrappers
  import opened PyValues
  import opened PyValueFacts
  import opened Constant
  import opened Grid
  import opened TableWidgets
  import opened Persistence
  import opened CompanyOwnerModels

  // Columns as the recalculation and the headers number them.
  const GROSS_PROFIT := 4
  const TOTAL_DISCOUNT := 5
  const COUPON := 6
  const PAYMENT_METHOD := 7
  const TOTAL_OF_ORDERS := 8
  const RETRIEVED := 9
  const SHIPPING := 10
  const SALLA_TOTAL := 11
  const COST := 12
  const ORDER_STATUS := 13

  // Columns as `update_or_add_company` unpacks the row (the loader's order).
  const UNPACK_ID := 0
  const UNPACK_PAYMENT_DATE := 1
  const UNPACK_ORDER_DATE := 2
  const UNPACK_PAYMENT_STATUS := 3
  const UNPACK_TOTAL_DISCOUNT := 5
  const UNPACK_RETRIEVED := 6
  const UNPACK_TOTAL_DEMAND := 9
  const UNPACK_SALLA_TOTAL := 11
  const UNPACK_COST := 12
  const UNPACK_ORDER_STATUS := 13
  const UNPACK_ORDER_NUMBER := 14
  const UNPACK_STORE_NAME := 15
  const UNPACK_WIDTH := 16

  /** The columns `on_item_changed` does not reclassify. */
  const UnclassifiedColumns: set<int> := {6, 10, 7, 3, 13}

  /** A `rows_data[row]` entry. */
  datatype Memo = Memo(
    sallaTotalDiscount: real,
    totalOfOrdersDiscount: real,
    coupon: string,
    payment: string,
    shipping: string,
    preCalculated: bool,
    totalDiscountValue: real,
    totalGrossProfit: real)

  /** The memo a row gets on first touch: zeros, empty texts, not pre-calculated. */
  const FreshMemo := Memo(0.0, 0.0, "", "", "", false, 0.0, 0.0)

  /** The `db_values` dict `update_field_value` returns. */
  datatype DbValues = DbValues(totalGrossProfit: real, totalDiscount: real)

  /** The six amounts `update_field_value` reads before it writes anything. */
  datatype Readings = Readings(coupon: real, payment: real, shipping: real, totalOfOrders: real, sallaTotal: real, cost: real)

  // ---------------------------------------------------------------------
  // update_field_value as a function of the table and the memo
  // ---------------------------------------------------------------------

  /**
   * The cells of a row `update_field_value` touches without checking for
   * None: 4, 5, 6, 8, 11 and 13; 7 too when the row has a memo, and 9 when
   * the status cell shows text.
   */
  predicate RowCells(r: Row, hasMemo: bool)
  {
    && GROSS_PROFIT in r && TOTAL_DISCOUNT in r && COUPON in r
    && TOTAL_OF_ORDERS in r && SALLA_TOTAL in r && ORDER_STATUS in r
    && (hasMemo ==> PAYMENT_METHOD in r)
    && (|r[ORDER_STATUS].text| > 0 ==> RETRIEVED in r)
  }

  /** The row exists and has the cells `update_field_value` needs. */
  predicate CellsPresent(rows: seq<Row>, memos: map<int, Memo>, row: int)
  {
    0 <= row < |rows| && RowCells(rows[row], row in memos)
  }

  function ReadAll(rows: seq<Row>, row: int): Readings
  {
    Readings(
      NumericData(ItemAt(rows, row, COUPON)),
      NumericData(ItemAt(rows, row, PAYMENT_METHOD)),
      NumericData(ItemAt(rows, row, SHIPPING)),
      NumericData(ItemAt(rows, row, TOTAL_OF_ORDERS)),
      NumericData(ItemAt(rows, row, SALLA_TOTAL)),
      NumericData(ItemAt(rows, row, COST)))
  }

  /**
   * The memo step: an existing memo is marked pre-calculated unless its
   * payment and coupon texts are those of the row; a row without one
   * replaces the whole dict by a dict holding only its fresh memo.
   */
  function MemoStep(memos: map<int, Memo>, r: Row, row: int): (memos': map<int, Memo>)
    requires row in memos ==> PAYMENT_METHOD in r && COUPON in r
    ensures row in memos'
  {
    if row in memos then
      var m := memos[row];
      memos[row := m.(preCalculated := !(m.payment == r[PAYMENT_METHOD].text && m.coupon == r[COUPON].text))]
    else map[row := FreshMemo]
  }

  /** `amount - (amount - pct / 100 * amount)`: the discount `pct` percent gives on `amount`. */
  function PercentOff(amount: real, pct: real): real
  {
    amount - (amount - pct / 100.0 * amount)
  }

  /**
   * The discount steps on the row's memo. The payment-method branch is
   * guarded by a Decimal compared with a text, which is always unequal, so
   * it always runs, and it stores the coupon text under 'payment'. The
   * coupon branch runs when the coupon text changed or the cached discount
   * is not positive. The total is taken when not pre-calculated.
   */
  function Discounts(m: Memo, couponText: string, rd: Readings): Memo
  {
    var t := rd.totalOfOrders;
    var s := rd.sallaTotal;
    var m1 := m.(payment := couponText, totalOfOrdersDiscount := PercentOff(t, rd.payment), preCalculated := false);
    var m2 :=
      if m1.coupon != couponText || m1.sallaTotalDiscount <= 0.0 then
        m1.(coupon := couponText, sallaTotalDiscount := PercentOff(s, rd.coupon), preCalculated := false)
      else m1;
    if !m2.preCalculated then m2.(totalDiscountValue := m2.sallaTotalDiscount + m2.totalOfOrdersDiscount) else m2
  }

  /** `order_status_enum is OrderStatus.REFUSED`. */
  predicate Refused(r: Row)
    requires ORDER_STATUS in r
  {
    r[ORDER_STATUS].stored == VOrder(OrderStatus.REFUSED)
  }

  /** Gross profit: salla total less cost and total discount, negated for a refused order. */
  function Profit(rd: Readings, totalDiscount: real, refused: bool): real
  {
    var p := rd.sallaTotal - (rd.cost + totalDiscount);
    if refused then -p else p
  }

  /** The retrieved cell when the status shows text: the salla total if refused, else 0. */
  function RetrievedItem(r: Row, sallaTotal: real): Item
    requires ORDER_STATUS in r && RETRIEVED in r
  {
    if Refused(r) then Amount(r[RETRIEVED], sallaTotal) else r[RETRIEVED].(text := "0", stored := VInt(0))
  }

  /**
   * The cells `update_field_value` writes, in its order: 9 (when the status
   * shows text), 11, 8, 5 and 4. Every other cell is as it was.
   */
  function WriteRow(r: Row, rd: Readings, totalDiscount: real, profit: real): (r': Row)
    requires RowCells(r, false)
    ensures r'.Keys == r.Keys
    ensures r'[GROSS_PROFIT] == Amount(r[GROSS_PROFIT], profit)
    ensures r'[TOTAL_DISCOUNT] == Amount(r[TOTAL_DISCOUNT], totalDiscount)
    ensures r'[TOTAL_OF_ORDERS] == Amount(r[TOTAL_OF_ORDERS], rd.sallaTotal + rd.shipping)
    ensures r'[SALLA_TOTAL] == r[SALLA_TOTAL].(text := FormatFixed2(rd.sallaTotal))
    ensures |r[ORDER_STATUS].text| > 0 ==> r'[RETRIEVED] == RetrievedItem(r, rd.sallaTotal)
    ensures forall c ::
      (c in r && c != GROSS_PROFIT && c != TOTAL_DISCOUNT && c != TOTAL_OF_ORDERS && c != SALLA_TOTAL &&
       (c != RETRIEVED || |r[ORDER_STATUS].text| == 0)) ==> r'[c] == r[c]
  {
    var s := rd.sallaTotal;
    var r1 := if |r[ORDER_STATUS].text| > 0 then r[RETRIEVED := RetrievedItem(r, s)] else r;
    var r2 := Reformat(r1, s);
    var r3 := PutAmount(r2, TOTAL_OF_ORDERS, s + rd.shipping);
    var r4 := PutAmount(r3, TOTAL_DISCOUNT, totalDiscount);
    PutAmount(r4, GROSS_PROFIT, profit)
  }

  /** The salla-total cell shown as `format_decimal(s)`, its stored value kept. */
  function Reformat(r: Row, s: real): Row
    requires SALLA_TOTAL in r
  {
    r[SALLA_TOTAL := r[SALLA_TOTAL].(text := FormatFixed2(s))]
  }

  /** Cell `c` given the amount `x`. */
  function PutAmount(r: Row, c: int, x: real): Row
    requires c in r
  {
    r[c := Amount(r[c], x)]
  }

  /** What one `update_field_value(row)` leaves: the table, the memo dict, and `db_values`. */
  datatype Pass = Pass(rows: seq<Row>, memos: map<int, Memo>, db: DbValues)

  /** The row's memo after the pass. */
  function NewMemo(rows: seq<Row>, memos: map<int, Memo>, row: int): Memo
    requires CellsPresent(rows, memos, row)
  {
    Discounts(MemoStep(memos, rows[row], row)[row], rows[row][COUPON].text, ReadAll(rows, row))
  }

  /** One row recalculated: its cells, its memo, and `db_values`. */
  datatype Recalculated = Recalculated(cells: Row, memo: Memo, db: DbValues)

  /**
   * The recalculation of a row's cells from its memo (after the memo step)
   * and the readings taken before anything is written.
   */
  function RecalcRow(cells: Row, memo: Memo, rd: Readings): Recalculated
    requires RowCells(cells, false)
  {
    var m := Discounts(memo, cells[COUPON].text, rd);
    var profit := Profit(rd, m.totalDiscountValue, Refused(cells));
    Recalculated(WriteRow(cells, rd, m.totalDiscountValue, profit), m, DbValues(profit, m.totalDiscountValue))
  }

  /** `update_field_value(row)` on a row that has the cells it needs. */
  function Recalc(rows: seq<Row>, memos: map<int, Memo>, row: int): Pass
    requires CellsPresent(rows, memos, row)
  {
    var memos' := MemoStep(memos, rows[row], row);
    var rr := RecalcRow(rows[row], memos'[row], ReadAll(rows, row));
    Pass(rows[row := rr.cells], memos'[row := rr.memo], rr.db)
  }

  // ---------------------------------------------------------------------
  // Properties of one pass
  // ---------------------------------------------------------------------

  /**
   * First touch of a row replaces `rows_data` by a dict holding only that
   * row; a row with a memo keeps every other row's memo.
   */
  lemma RecalcMemoRows(rows: seq<Row>, memos: map<int, Memo>, row: int)
    requires CellsPresent(rows, memos, row)
    ensures row !in memos ==> Recalc(rows, memos, row).memos.Keys == {row}
    ensures row in memos ==> Recalc(rows, memos, row).memos.Keys == memos.Keys
    ensures row in memos ==> forall r :: r in memos && r != row ==> Recalc(rows, memos, row).memos[r] == memos[r]
  {
    RecalcMemos(rows, memos, row);
    var out := MemoStep(memos, rows[row], row)[row := NewMemo(rows, memos, row)];
    if row in memos {
      assert out.Keys == memos.Keys;
      assert forall r :: r in memos && r != row ==> out[r] == memos[r];
    } else {
      assert out.Keys == {row};
    }
  }

  /** The memo dict a pass leaves: the memo step, then the row's new memo. */
  lemma RecalcMemos(rows: seq<Row>, memos: map<int, Memo>, row: int)
    requires CellsPresent(rows, memos, row)
    ensures Recalc(rows, memos, row).memos == MemoStep(memos, rows[row], row)[row := NewMemo(rows, memos, row)]
  {
    assert RowCells(rows[row], false);
  }

  /**
   * The discount steps: the payment-method discount is always recomputed
   * and 'payment' gets the coupon text; the coupon discount is kept when
   * the memo's coupon is the row's and its cached value is positive, and
   * recomputed otherwise; the total is their sum.
   */
  lemma DiscountsSteps(m: Memo, couponText: string, rd: Readings)
    ensures var m' := Discounts(m, couponText, rd);
      var t := rd.totalOfOrders;
      var s := rd.sallaTotal;
      && m'.totalOfOrdersDiscount == PercentOff(t, rd.payment)
      && m'.payment == couponText && m'.coupon == couponText
      && !m'.preCalculated
      && m'.sallaTotalDiscount ==
           (if m.coupon == couponText && m.sallaTotalDiscount > 0.0 then m.sallaTotalDiscount else PercentOff(s, rd.coupon))
      && m'.totalDiscountValue == m'.sallaTotalDiscount + m'.totalOfOrdersDiscount
  {
  }

  /**
   * The payment-method discount is always recomputed, from the
   * total-of-orders amount read before this pass rewrites it; 'payment'
   * gets the coupon text, and the memo ends not pre-calculated.
   */
  lemma RecalcPaymentDiscount(rows: seq<Row>, memos: map<int, Memo>, row: int)
    requires CellsPresent(rows, memos, row)
    ensures var m := Recalc(rows, memos, row).memos[row];
      var t := ReadAll(rows, row).totalOfOrders;
      && m.totalOfOrdersDiscount == PercentOff(t, ReadAll(rows, row).payment)
      && m.payment == rows[row][COUPON].text
      && !m.preCalculated
  {
    var rd := ReadAll(rows, row);
    var m0 := MemoStep(memos, rows[row], row)[row];
    var p := Recalc(rows, memos, row);
    assert RowCells(rows[row], false);
    var rr := RecalcRow(rows[row], m0, rd);
    assert p.rows[row] == rr.cells && p.memos[row] == rr.memo && |p.rows| == |rows|;
    assert rr.cells[TOTAL_OF_ORDERS] == Amount(rows[row][TOTAL_OF_ORDERS], rd.sallaTotal + rd.shipping)
        && rr.memo.totalDiscountValue == rr.memo.sallaTotalDiscount + rr.memo.totalOfOrdersDiscount
        && rr.cells[TOTAL_DISCOUNT] == Amount(rows[row][TOTAL_DISCOUNT], rr.memo.totalDiscountValue)
        && rr.cells[SALLA_TOTAL] == rows[row][SALLA_TOTAL].(text := FormatFixed2(rd.sallaTotal)) by {
      RowTotals(rows[row], m0, rd);
    }
  }

  /**
   * The coupon discount is kept from the memo when the memo's coupon text
   * is the row's and the cached value is positive, even if the salla total
   * changed; otherwise it is recomputed.
   */
  lemma RecalcCouponDiscount(rows: seq<Row>, memos: map<int, Memo>, row: int)
    requires CellsPresent(rows, memos, row)
    ensures var m := Recalc(rows, memos, row).memos[row];
      var s := ReadAll(rows, row).sallaTotal;
      var c := ReadAll(rows, row).coupon;
      && m.coupon == rows[row][COUPON].text
      && m.sallaTotalDiscount ==
           if row in memos && memos[row].coupon == rows[row][COUPON].text && memos[row].sallaTotalDiscount > 0.0
           then memos[row].sallaTotalDiscount
           else PercentOff(s, c)
  {
    DiscountsSteps(MemoStep(memos, rows[row], row)[row], rows[row][COUPON].text, ReadAll(rows, row));
  }

  /**
   * The retrieved cell follows the status cell when that shows text: the
   * salla total for a refused order, else "0" storing 0; with no status
   * text it is left as it was.
   */
  lemma RecalcRetrieved(rows: seq<Row>, memos: map<int, Memo>, row: int)
    requires CellsPresent(rows, memos, row)
    ensures var out := Recalc(rows, memos, row).rows;
      var s := ReadAll(rows, row).sallaTotal;
      && (|rows[row][ORDER_STATUS].text| > 0 && Refused(rows[row]) ==>
            ItemAt(out, row, RETRIEVED) == Some(rows[row][RETRIEVED].(text := FormatFixed2(s), stored := VDecimal(s, 2))))
      && (|rows[row][ORDER_STATUS].text| > 0 && !Refused(rows[row]) ==>
            ItemAt(out, row, RETRIEVED) == Some(rows[row][RETRIEVED].(text := "0", stored := VInt(0))))
      && (|rows[row][ORDER_STATUS].text| == 0 ==> ItemAt(out, row, RETRIEVED) == ItemAt(rows, row, RETRIEVED))
  {
  }

  /**
   * Total of orders becomes salla total plus shipping, stored exactly and
   * shown with two places; the total discount is the sum of the two cached
   * discounts, written to its cell and cached; the salla-total cell is
   * reformatted and keeps its stored value.
   */
  lemma RecalcTotals(rows: seq<Row>, memos: map<int, Memo>, row: int)
    requires CellsPresent(rows, memos, row)
    ensures var p := Recalc(rows, memos, row);
      var s := ReadAll(rows, row).sallaTotal;
      var sum := s + ReadAll(rows, row).shipping;
      var m := p.memos[row];
      && ItemAt(p.rows, row, TOTAL_OF_ORDERS) == Some(Amount(rows[row][TOTAL_OF_ORDERS], sum))
      && m.totalDiscountValue == m.sallaTotalDiscount + m.totalOfOrdersDiscount
      && ItemAt(p.rows, row, TOTAL_DISCOUNT) == Some(Amount(rows[row][TOTAL_DISCOUNT], m.totalDiscountValue))
      && ItemAt(p.rows, row, SALLA_TOTAL) == Some(rows[row][SALLA_TOTAL].(text := FormatFixed2(s)))
  {
    RecalcOrdersTotal(rows, memos, row);
    RecalcDiscountTotal(rows, memos, row);
    RecalcSallaTotal(rows, memos, row);
  }

  /** The total-of-orders part of `RecalcTotals`. */
  lemma RecalcOrdersTotal(rows: seq<Row>, memos: map<int, Memo>, row: int)
    requires CellsPresent(rows, memos, row)
    ensures ItemAt(Recalc(rows, memos, row).rows, row, TOTAL_OF_ORDERS) ==
      Some(Amount(rows[row][TOTAL_OF_ORDERS], ReadAll(rows, row).sallaTotal + ReadAll(rows, row).shipping))
  {
  }

  /** The total-discount part of `RecalcTotals`. */
  lemma RecalcDiscountTotal(rows: seq<Row>, memos: map<int, Memo>, row: int)
    requires CellsPresent(rows, memos, row)
    ensures var m := Recalc(rows, memos, row).memos[row];
      && m.totalDiscountValue == m.sallaTotalDiscount + m.totalOfOrdersDiscount
      && ItemAt(Recalc(rows, memos, row).rows, row, TOTAL_DISCOUNT) == Some(Amount(rows[row][TOTAL_DISCOUNT], m.totalDiscountValue))
  {
    DiscountsSteps(MemoStep(memos, rows[row], row)[row], rows[row][COUPON].text, ReadAll(rows, row));
  }

  /** The salla-total part of `RecalcTotals`. */
  lemma RecalcSallaTotal(rows: seq<Row>, memos: map<int, Memo>, row: int)
    requires CellsPresent(rows, memos, row)
    ensures ItemAt(Recalc(rows, memos, row).rows, row, SALLA_TOTAL) ==
      Some(rows[row][SALLA_TOTAL].(text := FormatFixed2(ReadAll(rows, row).sallaTotal)))
  {
  }

  /** `RecalcTotals` for one row and its memo. */
  lemma RowTotals(cells: Row, memo: Memo, rd: Readings)
    requires RowCells(cells, false)
    ensures var rr := RecalcRow(cells, memo, rd);
      && rr.cells[TOTAL_OF_ORDERS] == Amount(cells[TOTAL_OF_ORDERS], rd.sallaTotal + rd.shipping)
      && rr.memo.totalDiscountValue == rr.memo.sallaTotalDiscount + rr.memo.totalOfOrdersDiscount
      && rr.cells[TOTAL_DISCOUNT] == Amount(cells[TOTAL_DISCOUNT], rr.memo.totalDiscountValue)
      && rr.cells[SALLA_TOTAL] == cells[SALLA_TOTAL].(text := FormatFixed2(rd.sallaTotal))
  {
    DiscountsSteps(memo, cells[COUPON].text, rd);
  }

  /**
   * Gross profit is salla total less cost and the cached total discount,
   * negated for a refused order; it is written to its cell, and `db_values`
   * carries it with the total discount.
   */
  lemma RecalcProfit(rows: seq<Row>, memos: map<int, Memo>, row: int)
    requires CellsPresent(rows, memos, row)
    ensures var p := Recalc(rows, memos, row);
      var s := ReadAll(rows, row).sallaTotal;
      var cost := ReadAll(rows, row).cost;
      var tdv := p.memos[row].totalDiscountValue;
      && p.db.totalDiscount == tdv
      && p.db.totalGrossProfit == (if Refused(rows[row]) then -(s - (cost + tdv)) else s - (cost + tdv))
      && ItemAt(p.rows, row, GROSS_PROFIT) == Some(rows[row][GROSS_PROFIT].(text := FormatFixed2(p.db.totalGrossProfit), stored := VDecimal(p.db.totalGrossProfit, 2)))
  {
  }

  /** Only cells 4, 5, 8, 9 and 11 of the edited row change. */
  lemma RecalcFrame(rows: seq<Row>, memos: map<int, Memo>, row: int)
    requires CellsPresent(rows, memos, row)
    ensures var out := Recalc(rows, memos, row).rows;
      && |out| == |rows|
      && (forall r :: 0 <= r < |rows| && r != row ==> out[r] == rows[r])
      && out[row].Keys == rows[row].Keys
      && (forall c :: c in rows[row] && c !in {4, 5, 8, 9, 11} ==> out[row][c] == rows[row][c])
      && (forall c :: c in rows[row] ==> out[row][c].editable == rows[row][c].editable)
  {
  }

  // ---------------------------------------------------------------------
  // Repeated passes
  // ---------------------------------------------------------------------

  /**
   * After one pass every reading of the row is what it was, except the
   * total of orders, which reads as salla total plus shipping.
   */
  lemma ReadingsAfterPass(rows: seq<Row>, memos: map<int, Memo>, row: int)
    requires CellsPresent(rows, memos, row)
    ensures var rd := ReadAll(rows, row);
      ReadAll(Recalc(rows, memos, row).rows, row) == rd.(totalOfOrders := rd.sallaTotal + rd.shipping)
  {
    var rd := ReadAll(rows, row);
    var out := Recalc(rows, memos, row).rows;
    NumericDataCents(ItemAt(rows, row, SALLA_TOTAL));
    NumericDataCents(ItemAt(rows, row, SHIPPING));
    var tdv := NewMemo(rows, memos, row).totalDiscountValue;
    WrittenRowReads(rows[row], rd, tdv, Profit(rd, tdv, Refused(rows[row])));
    assert out[row] == WriteRow(rows[row], rd, tdv, Profit(rd, tdv, Refused(rows[row])));
    PassKeepsInputs(rows, memos, row);
  }

  /** The coupon, payment, shipping and cost cells are not written by a pass. */
  lemma PassKeepsInputs(rows: seq<Row>, memos: map<int, Memo>, row: int)
    requires CellsPresent(rows, memos, row)
    ensures var out := Recalc(rows, memos, row).rows;
      && ItemAt(out, row, COUPON) == ItemAt(rows, row, COUPON)
      && ItemAt(out, row, PAYMENT_METHOD) == ItemAt(rows, row, PAYMENT_METHOD)
      && ItemAt(out, row, SHIPPING) == ItemAt(rows, row, SHIPPING)
      && ItemAt(out, row, COST) == ItemAt(rows, row, COST)
  {
    RecalcFrame(rows, memos, row);
  }

  /**
   * The salla-total cell as a pass rewrites it reads as before, and the
   * total-of-orders cell reads as the sum the pass wrote.
   */
  lemma WrittenRowReads(r: Row, rd: Readings, totalDiscount: real, profit: real)
    requires RowCells(r, false)
    requires rd.sallaTotal == NumericData(Some(r[SALLA_TOTAL]))
    requires HasPlaces(rd.sallaTotal, 2) && HasPlaces(rd.shipping, 2)
    ensures NumericData(Some(WriteRow(r, rd, totalDiscount, profit)[SALLA_TOTAL])) == rd.sallaTotal
    ensures NumericData(Some(WriteRow(r, rd, totalDiscount, profit)[TOTAL_OF_ORDERS])) == rd.sallaTotal + rd.shipping
  {
    NumericDataStable(r[SALLA_TOTAL]);
    CentsClosed(rd.sallaTotal, rd.shipping);
    NumericDataOfAmount(r[TOTAL_OF_ORDERS], rd.sallaTotal + rd.shipping);
  }

  /**
   * Writing a row twice with the same salla total and shipping is writing
   * it once with the second discount and profit: cells 8, 9 and 11 come
   * out as the first write left them.
   */
  lemma WriteRowTwice(r: Row, rd: Readings, totalDiscount: real, profit: real, rd': Readings, totalDiscount': real, profit': real)
    requires RowCells(r, false)
    requires rd'.sallaTotal == rd.sallaTotal && rd'.shipping == rd.shipping
    ensures RowCells(WriteRow(r, rd, totalDiscount, profit), false)
    ensures WriteRow(WriteRow(r, rd, totalDiscount, profit), rd', totalDiscount', profit') == WriteRow(r, rd, totalDiscount', profit')
  {
    var r1 := WriteRow(r, rd, totalDiscount, profit);
    assert r1[ORDER_STATUS] == r[ORDER_STATUS];
    var x := WriteRow(r1, rd', totalDiscount', profit');
    var y := WriteRow(r, rd, totalDiscount', profit');
    forall c | c in r
      ensures x[c] == y[c]
    {
      if c == GROSS_PROFIT || c == TOTAL_DISCOUNT || c == TOTAL_OF_ORDERS {
        WriteRowTwiceAmount(r, rd, totalDiscount, profit, rd', totalDiscount', profit', c);
      } else if c == RETRIEVED && |r[ORDER_STATUS].text| > 0 {
        WriteRowTwiceRetrieved(r, rd, totalDiscount, profit, rd', totalDiscount', profit');
      }
    }
    assert x.Keys == y.Keys;
    assert x == y;
  }

  /** `WriteRowTwice` on a cell the write gives an amount: the second amount wins. */
  lemma WriteRowTwiceAmount(r: Row, rd: Readings, totalDiscount: real, profit: real, rd': Readings, totalDiscount': real, profit': real, c: int)
    requires RowCells(r, false) && (c == GROSS_PROFIT || c == TOTAL_DISCOUNT || c == TOTAL_OF_ORDERS)
    requires rd'.sallaTotal == rd.sallaTotal && rd'.shipping == rd.shipping
    requires RowCells(WriteRow(r, rd, totalDiscount, profit), false)
    ensures WriteRow(WriteRow(r, rd, totalDiscount, profit), rd', totalDiscount', profit')[c] == WriteRow(r, rd, totalDiscount', profit')[c]
  {
    var r1 := WriteRow(r, rd, totalDiscount, profit);
    var x := if c == GROSS_PROFIT then profit else if c == TOTAL_DISCOUNT then totalDiscount else rd.sallaTotal + rd.shipping;
    var x' := if c == GROSS_PROFIT then profit' else if c == TOTAL_DISCOUNT then totalDiscount' else rd.sallaTotal + rd.shipping;
    assert r1[c] == Amount(r[c], x);
    assert WriteRow(r1, rd', totalDiscount', profit')[c] == Amount(r1[c], x');
    assert WriteRow(r, rd, totalDiscount', profit')[c] == Amount(r[c], x');
    AmountTwice(r[c], x, x');
  }

  /** `WriteRowTwice` on the retrieved cell when the status shows text: the status is not rewritten. */
  lemma WriteRowTwiceRetrieved(r: Row, rd: Readings, totalDiscount: real, profit: real, rd': Readings, totalDiscount': real, profit': real)
    requires RowCells(r, false) && |r[ORDER_STATUS].text| > 0
    requires rd'.sallaTotal == rd.sallaTotal && rd'.shipping == rd.shipping
    requires RowCells(WriteRow(r, rd, totalDiscount, profit), false)
    ensures WriteRow(WriteRow(r, rd, totalDiscount, profit), rd', totalDiscount', profit')[RETRIEVED] == WriteRow(r, rd, totalDiscount', profit')[RETRIEVED]
  {
    var r1 := WriteRow(r, rd, totalDiscount, profit);
    assert r1[ORDER_STATUS] == r[ORDER_STATUS];
    if Refused(r) {
      AmountTwice(r[RETRIEVED], rd.sallaTotal, rd.sallaTotal);
    }
  }

  /** A second discount step with the same readings changes nothing. */
  lemma DiscountsSettle(m: Memo, m': Memo, couponText: string, rd: Readings)
    requires m' == Discounts(m, couponText, rd).(preCalculated := m'.preCalculated)
    ensures Discounts(m', couponText, rd) == Discounts(m, couponText, rd)
  {
  }

  /**
   * A second pass over a row nobody edited in between changes only its
   * gross-profit and total-discount cells, because the payment-method
   * discount now uses the total of orders the first pass wrote.
   */
  lemma SecondPassCells(rows: seq<Row>, memos: map<int, Memo>, row: int)
    requires CellsPresent(rows, memos, row) && PAYMENT_METHOD in rows[row]
    ensures var p1 := Recalc(rows, memos, row);
      && CellsPresent(p1.rows, p1.memos, row)
      && var p2 := Recalc(p1.rows, p1.memos, row);
      && p2.rows[row].Keys == p1.rows[row].Keys
      && (forall c :: c in p1.rows[row] && c != GROSS_PROFIT && c != TOTAL_DISCOUNT ==> p2.rows[row][c] == p1.rows[row][c])
  {
    assert RowCells(rows[row], false);
    var p1 := Recalc(rows, memos, row);
    var rd := ReadAll(rows, row);
    var rr1 := RecalcRow(rows[row], MemoStep(memos, rows[row], row)[row], rd);
    assert p1.rows == rows[row := rr1.cells];
    ReadingsAfterPass(rows, memos, row);
    var rd1 := ReadAll(p1.rows, row);
    SecondRecalcRow(rows[row], MemoStep(memos, rows[row], row)[row], rd,
                    MemoStep(p1.memos, p1.rows[row], row)[row], rd1);
    assert PAYMENT_METHOD in rr1.cells;
    var rr2 := RecalcRow(p1.rows[row], MemoStep(p1.memos, p1.rows[row], row)[row], rd1);
    assert Recalc(p1.rows, p1.memos, row).rows == p1.rows[row := rr2.cells];
  }

  /**
   * `SecondPassCells` for one row's cells: recalculating twice, the second
   * time with the same salla total and shipping, rewrites only the
   * gross-profit and total-discount cells of the first result.
   */
  lemma SecondRecalcRow(cells: Row, memo: Memo, rd: Readings, memo': Memo, rd': Readings)
    requires RowCells(cells, false)
    requires rd'.sallaTotal == rd.sallaTotal && rd'.shipping == rd.shipping
    ensures var c1 := RecalcRow(cells, memo, rd).cells;
      && RowCells(c1, false)
      && var c2 := RecalcRow(c1, memo', rd').cells;
      && c2.Keys == c1.Keys
      && (forall c :: c in c1 && c != GROSS_PROFIT && c != TOTAL_DISCOUNT ==> c2[c] == c1[c])
  {
    var m1 := Discounts(memo, cells[COUPON].text, rd);
    var p1 := Profit(rd, m1.totalDiscountValue, Refused(cells));
    var c1 := WriteRow(cells, rd, m1.totalDiscountValue, p1);
    assert c1[ORDER_STATUS] == cells[ORDER_STATUS] && c1[COUPON] == cells[COUPON];
    var m2 := Discounts(memo', c1[COUPON].text, rd');
    var p2 := Profit(rd', m2.totalDiscountValue, Refused(c1));
    WriteRowTwice(cells, rd, m1.totalDiscountValue, p1, rd', m2.totalDiscountValue, p2);
  }

  /**
   * A pass over a row whose total of orders already reads as salla total
   * plus shipping is a fixed point: repeating it changes nothing.
   */
  lemma SettledPassRepeats(rows: seq<Row>, memos: map<int, Memo>, row: int)
    requires CellsPresent(rows, memos, row) && PAYMENT_METHOD in rows[row]
    requires ReadAll(rows, row).totalOfOrders == ReadAll(rows, row).sallaTotal + ReadAll(rows, row).shipping
    ensures var p := Recalc(rows, memos, row);
      && CellsPresent(p.rows, p.memos, row)
      && Recalc(p.rows, p.memos, row) == p
  {
    var rd := ReadAll(rows, row);
    var p := Recalc(rows, memos, row);
    RecalcFrame(rows, memos, row);
    ReadingsAfterPass(rows, memos, row);
    assert ReadAll(p.rows, row) == rd;
    var r := rows[row];
    var r1 := p.rows[row];
    assert r1[ORDER_STATUS] == r[ORDER_STATUS] && r1[COUPON] == r[COUPON];
    assert CellsPresent(p.rows, p.memos, row);
    var text := r[COUPON].text;
    var m' := MemoStep(memos, r, row)[row];
    var m := Discounts(m', text, rd);
    assert p.memos[row] == m;
    var m1' := MemoStep(p.memos, r1, row)[row];
    assert m1' == m.(preCalculated := m1'.preCalculated);
    DiscountsSettle(m', m1', text, rd);
    assert NewMemo(p.rows, p.memos, row) == Discounts(m1', text, rd);
    var b := Profit(rd, m.totalDiscountValue, Refused(r));
    assert r1 == WriteRow(r, rd, m.totalDiscountValue, b);
    WriteRowTwice(r, rd, m.totalDiscountValue, b, rd, m.totalDiscountValue, b);
    var p1 := Recalc(p.rows, p.memos, row);
    assert Refused(r1) == Refused(r);
    assert p1.db == p.db;
    RowsSettle(p.rows, row, WriteRow(r1, rd, m.totalDiscountValue, b));
    MemosSettle(p.memos, r1, row, m);
  }

  /** Writing a row with what it already holds leaves the table as it is. */
  lemma RowsSettle(rows: seq<Row>, row: int, r: Row)
    requires 0 <= row < |rows| && rows[row] == r
    ensures rows[row := r] == rows
  {
  }

  /**
   * The memo step and then the memo the row already has leave the memo
   * dict as it is.
   */
  lemma MemosSettle(memos: map<int, Memo>, r: Row, row: int, m: Memo)
    requires PAYMENT_METHOD in r && COUPON in r
    requires row in memos && memos[row] == m
    ensures MemoStep(memos, r, row)[row := m] == memos
  {
  }

  /**
   * One pass is not enough, but two are: a third pass over a row nobody
   * edited gives exactly what the second gave.
   */
  lemma RecalcSettlesAfterTwoPasses(rows: seq<Row>, memos: map<int, Memo>, row: int)
    requires CellsPresent(rows, memos, row) && PAYMENT_METHOD in rows[row]
    ensures var p1 := Recalc(rows, memos, row);
      && CellsPresent(p1.rows, p1.memos, row)
      && var p2 := Recalc(p1.rows, p1.memos, row);
      && CellsPresent(p2.rows, p2.memos, row)
      && Recalc(p2.rows, p2.memos, row) == p2
  {
    var p1 := Recalc(rows, memos, row);
    SecondPassCells(rows, memos, row);
    RecalcFrame(rows, memos, row);
    ReadingsAfterPass(rows, memos, row);
    SettledPassRepeats(p1.rows, p1.memos, row);
  }

  /**
   * Two discount steps whose readings differ only in the total of orders:
   * the coupon discount stays, and the total discount moves by the payment
   * discount on the new total of orders less that on the old.
   */
  lemma DiscountsTwice(m: Memo, m': Memo, couponText: string, rd: Readings, rd': Readings, total: real)
    requires m' == Discounts(m, couponText, rd).(preCalculated := m'.preCalculated)
    requires rd' == rd.(totalOfOrders := total)
    ensures Discounts(m', couponText, rd').totalDiscountValue ==
      Discounts(m, couponText, rd).totalDiscountValue + PercentOff(total, rd.payment) - PercentOff(rd.totalOfOrders, rd.payment)
  {
    DiscountsSteps(m, couponText, rd);
    DiscountsSteps(m', couponText, rd');
  }

  /**
   * What the second pass changes: the total discount moves by the
   * payment-method discount on salla total plus shipping less that on the
   * total of orders the first pass read. A single pass therefore settles
   * only when those two discounts agree.
   */
  lemma SecondPassDiscount(rows: seq<Row>, memos: map<int, Memo>, row: int)
    requires CellsPresent(rows, memos, row) && PAYMENT_METHOD in rows[row]
    ensures var rd := ReadAll(rows, row);
      var p1 := Recalc(rows, memos, row);
      && CellsPresent(p1.rows, p1.memos, row)
      && Recalc(p1.rows, p1.memos, row).db.totalDiscount ==
           p1.db.totalDiscount + PercentOff(rd.sallaTotal + rd.shipping, rd.payment) - PercentOff(rd.totalOfOrders, rd.payment)
  {
    var rd := ReadAll(rows, row);
    var p1 := Recalc(rows, memos, row);
    SecondPassCells(rows, memos, row);
    ReadingsAfterPass(rows, memos, row);
    RecalcFrame(rows, memos, row);
    var text := rows[row][COUPON].text;
    assert p1.rows[row][COUPON].text == text;
    var m0 := MemoStep(memos, rows[row], row)[row];
    var m1 := Discounts(m0, text, rd);
    var m1' := MemoStep(p1.memos, p1.rows[row], row)[row];
    assert m1' == m1.(preCalculated := m1'.preCalculated);
    var rd1 := ReadAll(p1.rows, row);
    assert rd1 == rd.(totalOfOrders := rd.sallaTotal + rd.shipping);
    DiscountsTwice(m0, m1', text, rd, rd1, rd.sallaTotal + rd.shipping);
    assert NewMemo(p1.rows, p1.memos, row) == Discounts(m1', text, rd1);
    assert p1.db.totalDiscount == m1.totalDiscountValue;
  }

  // ---------------------------------------------------------------------
  // update_or_add_company
  // ---------------------------------------------------------------------

  /** What `update_or_add_company` sends to the database. */
  datatype OwnerRequest =
    | AddOwner(args: OwnerAddArgs)
    | UpdateOwner(upd: UpdateDict)
    | NoRequest

  /** The id after the sentinel step: None and 0 become -1. */
  function NormalizeId(id: Value): (v: Value)
    ensures id == VNone || EqualsInt(id, 0) ==> v == VInt(-1)
    ensures !(id == VNone || EqualsInt(id, 0)) ==> v == id
  {
    if id == VNone || EqualsInt(id, 0) then VInt(-1) else id
  }

  /** `get_status(x) if type(x) == str else x`. */
  function OrderStatusArg(v: Value): Value
  {
    if v.VText? then OrderGetStatus(v) else v
  }

  function PaymentStatusArg(v: Value): Value
  {
    if v.VText? then PaymentGetStatus(v) else v
  }

  /**
   * A `shippings`/`coupons`/`payments` part: present when the name and the
   * amount are truthy and the name non-empty; the amount is sent as is when
   * `Decimal(amount)` is non-zero, as 0 otherwise, and `Decimal(amount)`
   * raises for a value it cannot read.
   */
  function RelationPart(name: Value, amount: Value): (r: Result<Option<Relation>, PyError>)
    ensures r.Ok? && r.value.Some? <==> Truthy(name) && Truthy(amount) && Len(name).Some? && Len(name).value > 0 && ToDecimal(amount).Some?
    ensures r.Ok? && r.value.Some? ==> r.value.value.key == name
    ensures r.Ok? && r.value.Some? && ToDecimal(amount).value != 0.0 ==> r.value.value.amount == amount
  {
    if Truthy(name) && Truthy(amount) && Len(name).Some? && Len(name).value > 0 then
      match ToDecimal(amount)
      case None => Err(if amount.VText? then InvalidOperation else TypeError)
      case Some(x) => Ok(Some(Relation(name, if x != 0.0 then amount else VInt(0))))
    else Ok(None)
  }

  function WithRelation(rels: map<LinkedKind, Relation>, kind: LinkedKind, part: Option<Relation>): map<LinkedKind, Relation>
  {
    if part.Some? then rels[kind := part.value] else rels
  }

  /**
   * The plain fields of an update: twelve unpacked values, then
   * `total_profit` added and `total_discount` replaced from `db_values`.
   */
  function UpdateFields(d: seq<Value>, id: Value, db: DbValues): (f: Record)
    requires |d| == UNPACK_WIDTH
    ensures f.Keys == {Id, Cost, SallaTotal, StoreName, OrderNumber, Field.OrderStatus,
                       TotalDemand, TotalDiscount, RetrievedOrder, Field.PaymentStatus,
                       OrderDate, PaymentDate, TotalProfit}
  {
    var fields: Record := map[
      Id := id,
      Cost := d[UNPACK_COST],
      SallaTotal := d[UNPACK_SALLA_TOTAL],
      StoreName := VText(PyStr(d[UNPACK_STORE_NAME])),
      OrderNumber := VText(PyStr(d[UNPACK_ORDER_NUMBER])),
      Field.OrderStatus := OrderStatusArg(d[UNPACK_ORDER_STATUS]),
      TotalDemand := d[UNPACK_TOTAL_DEMAND],
      TotalDiscount := d[UNPACK_TOTAL_DISCOUNT],
      RetrievedOrder := d[UNPACK_RETRIEVED],
      Field.PaymentStatus := PaymentStatusArg(d[UNPACK_PAYMENT_STATUS]),
      OrderDate := d[UNPACK_ORDER_DATE],
      PaymentDate := d[UNPACK_PAYMENT_DATE]
    ];
    fields[TotalProfit := VDecimal(db.totalGrossProfit, 2)][TotalDiscount := VDecimal(db.totalDiscount, 2)]
  }

  /** The relation parts that are present, each under its kind. */
  function Relations(ship: Option<Relation>, coupon: Option<Relation>, pay: Option<Relation>): (rels: map<LinkedKind, Relation>)
    ensures Shippings in rels <==> ship.Some?
    ensures Coupons in rels <==> coupon.Some?
    ensures Payments in rels <==> pay.Some?
  {
    WithRelation(WithRelation(WithRelation(map[], Shippings, ship), Coupons, coupon), Payments, pay)
  }

  /**
   * For a cell's text (or None for a missing cell) and its stored value, a
   * part that does not raise is present exactly when both are truthy.
   */
  lemma RelationPartPresent(name: Value, amount: Value)
    requires name.VText? || name == VNone
    requires RelationPart(name, amount).Ok?
    ensures RelationPart(name, amount).value.Some? <==> Truthy(name) && Truthy(amount)
  {
  }

  /** The texts and stored values of the coupon, shipping and payment-method cells. */
  datatype LinkCells = LinkCells(
    couponCode: Value, couponDiscount: Value,
    shippingName: Value, shippingPercentage: Value,
    paymentName: Value, paymentPercentage: Value)

  /** `item(row, c).data(DisplayRole)` and `.data(UserRole)` for the three linked columns. */
  function LinkCellsAt(rows: seq<Row>, row: int): LinkCells
  {
    LinkCells(
      DisplayAt(rows, row, COUPON), StoredAt(rows, row, COUPON),
      DisplayAt(rows, row, SHIPPING), StoredAt(rows, row, SHIPPING),
      DisplayAt(rows, row, PAYMENT_METHOD), StoredAt(rows, row, PAYMENT_METHOD))
  }

  /**
   * The request for an unpacked row `d` and its linked cells: an id of
   * None or 0 becomes -1; -1 with a truthy store name is an `add`, any
   * other id an `update`, whose relation parts may raise.
   */
  function Request(d: seq<Value>, links: LinkCells, db: DbValues): Result<OwnerRequest, PyError>
    requires |d| == UNPACK_WIDTH
  {
    var id := NormalizeId(d[UNPACK_ID]);
    var storeName := d[UNPACK_STORE_NAME];
    if EqualsInt(id, -1) && Truthy(storeName) && |PyStr(storeName)| > 0 then
      Ok(AddOwner(OwnerAddArgs(
        VText(PyStr(storeName)), VText(PyStr(d[UNPACK_ORDER_NUMBER])), d[UNPACK_COST],
        OrderStatusArg(d[UNPACK_ORDER_STATUS]), d[UNPACK_SALLA_TOTAL], d[UNPACK_TOTAL_DEMAND],
        d[UNPACK_RETRIEVED], VDecimal(db.totalGrossProfit, 2), VDecimal(db.totalDiscount, 2),
        PaymentStatusArg(d[UNPACK_PAYMENT_STATUS]), d[UNPACK_ORDER_DATE], d[UNPACK_PAYMENT_DATE],
        links.couponCode, links.couponDiscount, links.shippingName, links.shippingPercentage,
        links.paymentName, links.paymentPercentage)))
    else if !EqualsInt(id, -1) then
      match RelationPart(links.shippingName, links.shippingPercentage)
      case Err(e) => Err(e)
      case Ok(ship) =>
        match RelationPart(links.couponCode, links.couponDiscount)
        case Err(e) => Err(e)
        case Ok(coupon) =>
          match RelationPart(links.paymentName, links.paymentPercentage)
          case Err(e) => Err(e)
          case Ok(pay) => Ok(UpdateOwner(UpdateDict(UpdateFields(d, id, db), Relations(ship, coupon, pay))))
    else Ok(NoRequest)
  }

  /**
   * `update_or_add_company(row, db_values)`: the row's stored values are
   * unpacked in the loader's order (a width other than 16 raises
   * `ValueError`), and the request is decided from them.
   */
  function OwnerUpsert(rows: seq<Row>, row: int, columnCount: nat, db: DbValues): Result<OwnerRequest, PyError>
  {
    if columnCount != UNPACK_WIDTH then Err(ValueError)
    else Request(RowData(rows, row, UNPACK_WIDTH), LinkCellsAt(rows, row), db)
  }

  /**
   * The choice: an add exactly when the id is None, 0 or -1 and the store
   * name is truthy with a non-empty `str`; nothing when the id is such but
   * the store name is not; otherwise an update, or the error of a
   * relation part.
   */
  lemma RequestChoice(d: seq<Value>, links: LinkCells, db: DbValues)
    requires |d| == UNPACK_WIDTH
    ensures var r := Request(d, links, db);
      var id := NormalizeId(d[UNPACK_ID]);
      var store := d[UNPACK_STORE_NAME];
      && (r.Ok? && r.value.AddOwner? <==> EqualsInt(id, -1) && Truthy(store) && |PyStr(store)| > 0)
      && (r.Ok? && r.value.NoRequest? <==> EqualsInt(id, -1) && !(Truthy(store) && |PyStr(store)| > 0))
      && (!EqualsInt(id, -1) ==> r.Err? || r.value.UpdateOwner?)
  {
  }

  /**
   * The upsert choice on the table: as `RequestChoice`, and a missing id
   * cell unpacks as `[]`, which is neither None nor 0, so it is an update.
   */
  lemma UpsertChoice(rows: seq<Row>, row: int, db: DbValues)
    ensures var r := OwnerUpsert(rows, row, UNPACK_WIDTH, db);
      var id := NormalizeId(RowData(rows, row, UNPACK_WIDTH)[UNPACK_ID]);
      var store := RowData(rows, row, UNPACK_WIDTH)[UNPACK_STORE_NAME];
      && (r.Ok? && r.value.AddOwner? <==> EqualsInt(id, -1) && Truthy(store) && |PyStr(store)| > 0)
      && (r.Ok? && r.value.NoRequest? <==> EqualsInt(id, -1) && !(Truthy(store) && |PyStr(store)| > 0))
      && (!EqualsInt(id, -1) ==> r.Err? || r.value.UpdateOwner?)
      && (ItemAt(rows, row, UNPACK_ID).None? ==> r.Err? || r.value.UpdateOwner?)
  {
    RequestChoice(RowData(rows, row, UNPACK_WIDTH), LinkCellsAt(rows, row), db);
  }

  /**
   * An update carries the twelve plain fields plus the profit, with the
   * total discount taken from `db_values`, and the relation parts that are
   * present; the amount sent as `retrieved_order` is the unpacked column 6
   * and the one sent as `total_demand` the unpacked column 9.
   */
  lemma RequestUpdateFields(d: seq<Value>, links: LinkCells, db: DbValues)
    requires |d| == UNPACK_WIDTH
    requires Request(d, links, db).Ok? && Request(d, links, db).value.UpdateOwner?
    ensures var upd := Request(d, links, db).value.upd;
      && upd.fields.Keys == {Id, Cost, SallaTotal, StoreName, OrderNumber, Field.OrderStatus,
                             TotalDemand, TotalDiscount, RetrievedOrder, Field.PaymentStatus,
                             OrderDate, PaymentDate, TotalProfit}
      && upd.fields[TotalProfit] == VDecimal(db.totalGrossProfit, 2)
      && upd.fields[TotalDiscount] == VDecimal(db.totalDiscount, 2)
      && upd.fields[RetrievedOrder] == d[UNPACK_RETRIEVED]
      && upd.fields[TotalDemand] == d[UNPACK_TOTAL_DEMAND]
      && RelationPart(links.shippingName, links.shippingPercentage).Ok?
      && RelationPart(links.couponCode, links.couponDiscount).Ok?
      && RelationPart(links.paymentName, links.paymentPercentage).Ok?
      && (Shippings in upd.relations <==> RelationPart(links.shippingName, links.shippingPercentage).value.Some?)
      && (Coupons in upd.relations <==> RelationPart(links.couponCode, links.couponDiscount).value.Some?)
      && (Payments in upd.relations <==> RelationPart(links.paymentName, links.paymentPercentage).value.Some?)
  {
  }

  /**
   * On the table: an update always carries the twelve plain fields plus the
   * profit, with the total discount taken from `db_values`; a relation part
   * is present only when its name and amount are truthy.
   */
  lemma UpsertUpdateFields(rows: seq<Row>, row: int, db: DbValues)
    requires OwnerUpsert(rows, row, UNPACK_WIDTH, db).Ok?
    requires OwnerUpsert(rows, row, UNPACK_WIDTH, db).value.UpdateOwner?
    ensures var upd := OwnerUpsert(rows, row, UNPACK_WIDTH, db).value.upd;
      && upd.fields.Keys == {Id, Cost, SallaTotal, StoreName, OrderNumber, Field.OrderStatus,
                             TotalDemand, TotalDiscount, RetrievedOrder, Field.PaymentStatus,
                             OrderDate, PaymentDate, TotalProfit}
      && upd.fields[TotalProfit] == VDecimal(db.totalGrossProfit, 2)
      && upd.fields[TotalDiscount] == VDecimal(db.totalDiscount, 2)
      && (Shippings in upd.relations <==> Truthy(DisplayAt(rows, row, SHIPPING)) && Truthy(StoredAt(rows, row, SHIPPING)))
      && (Coupons in upd.relations <==> Truthy(DisplayAt(rows, row, COUPON)) && Truthy(StoredAt(rows, row, COUPON)))
      && (Payments in upd.relations <==> Truthy(DisplayAt(rows, row, PAYMENT_METHOD)) && Truthy(StoredAt(rows, row, PAYMENT_METHOD)))
  {
    var links := LinkCellsAt(rows, row);
    RequestUpdateFields(RowData(rows, row, UNPACK_WIDTH), links, db);
    RelationPartPresent(links.shippingName, links.shippingPercentage);
    RelationPartPresent(links.couponCode, links.couponDiscount);
    RelationPartPresent(links.paymentName, links.paymentPercentage);
  }

  /**
   * The two column orders disagree: the amount sent as `retrieved_order` is
   * the stored value of the coupon column, and the one sent as
   * `total_demand` is that of the retrieved column.
   */
  lemma UpsertSendsCouponAsRetrieved(rows: seq<Row>, row: int, db: DbValues)
    requires OwnerUpsert(rows, row, UNPACK_WIDTH, db).Ok?
    requires OwnerUpsert(rows, row, UNPACK_WIDTH, db).value.UpdateOwner?
    requires ItemAt(rows, row, COUPON).Some? && ItemAt(rows, row, RETRIEVED).Some?
    ensures var upd := OwnerUpsert(rows, row, UNPACK_WIDTH, db).value.upd;
      && upd.fields[RetrievedOrder] == StoredAt(rows, row, COUPON)
      && upd.fields[TotalDemand] == StoredAt(rows, row, RETRIEVED)
  {
    RequestUpdateFields(RowData(rows, row, UNPACK_WIDTH), LinkCellsAt(rows, row), db);
  }

  /** The new id as `set_item_id` reads it: `result.id`, which only an ORM object has. */
  function ResultId(result: Value): (r: Result<Value, PyError>)
    ensures result.VRecord? <==> r.Ok?
  {
    match result
    case VRecord(_, id) => Ok(if id.Some? then VInt(id.value) else VNone)
    case _ => Err(AttributeError)
  }

  /** The id cell after `setData(UserRole, id)` and `setData(DisplayRole, id)`. */
  function IdItem(it: Item, id: Value): (it': Item)
    ensures it'.stored == id && it'.editable == it.editable
  {
    it.(stored := id, text := if id.VInt? then IntToText(id.i) else "")
  }

  /**
   * The discount steps of `update_field_value` on the row's memo, in the
   * order of the source; the total is taken once the memo is not
   * pre-calculated.
   */
  method UpdateDiscounts(memo: Memo, couponText: string, readings: Readings) returns (m: Memo)
    ensures m == Discounts(memo, couponText, readings)
    ensures !m.preCalculated
  {
    // The payment-method discount: its guard compares a Decimal with text.
    m := memo.(payment := couponText, totalOfOrdersDiscount := PercentOff(readings.totalOfOrders, readings.payment), preCalculated := false);
    // The coupon discount.
    if m.coupon != couponText || m.sallaTotalDiscount <= 0.0 {
      m := m.(coupon := couponText, sallaTotalDiscount := PercentOff(readings.sallaTotal, readings.coupon), preCalculated := false);
    }
    if !m.preCalculated {
      m := m.(totalDiscountValue := m.sallaTotalDiscount + m.totalOfOrdersDiscount);
    }
  }

  /**
   * The writes of cells 11, 8, 5 and 4, in the order of the source; a
   * missing cell raises `AttributeError`.
   */
  method WriteTotals(row: Row, rd: Readings, m: Memo, profit: real) returns (r: Result<Row, PyError>)
    requires !m.preCalculated
    ensures r.Ok? <==> SALLA_TOTAL in row && TOTAL_OF_ORDERS in row && TOTAL_DISCOUNT in row && GROSS_PROFIT in row
    ensures r.Err? ==> r.error == AttributeError
    ensures r.Ok? ==> r.value == PutAmount(PutAmount(PutAmount(Reformat(row, rd.sallaTotal), TOTAL_OF_ORDERS, rd.sallaTotal + rd.shipping),
                                                     TOTAL_DISCOUNT, m.totalDiscountValue), GROSS_PROFIT, profit)
  {
    if SALLA_TOTAL !in row {
      return Err(AttributeError);
    }
    var w := Reformat(row, rd.sallaTotal);
    if TOTAL_OF_ORDERS !in w {
      return Err(AttributeError);
    }
    w := PutAmount(w, TOTAL_OF_ORDERS, rd.sallaTotal + rd.shipping);
    if !m.preCalculated {
      if TOTAL_DISCOUNT !in w {
        return Err(AttributeError);
      }
      w := PutAmount(w, TOTAL_DISCOUNT, m.totalDiscountValue);
    }
    if GROSS_PROFIT !in w {
      return Err(AttributeError);
    }
    r := Ok(PutAmount(w, GROSS_PROFIT, profit));
  }

  /**
   * The part of `update_field_value` after the memo step, on the row's
   * cells, its memo and the readings taken from them: the cells are
   * written and the memo updated in the order of the source, and a missing
   * cell is an `AttributeError`.
   */
  method RecalcCells(cells: Row, memo: Memo, readings: Readings) returns (r: Result<Recalculated, PyError>)
    ensures r.Ok? <==> RowCells(cells, false)
    ensures r.Err? ==> r.error == AttributeError
    ensures r.Ok? ==> r.value == RecalcRow(cells, memo, readings)
  {
    var shipping, salla, cost := readings.shipping, readings.sallaTotal, readings.cost;
    var row := cells;
    // The retrieved cell follows the status.
    if ORDER_STATUS !in row {
      return Err(AttributeError);
    }
    var status := row[ORDER_STATUS];
    var refused := status.stored == VOrder(OrderStatus.REFUSED);
    if |status.text| > 0 {
      if RETRIEVED !in row {
        return Err(AttributeError);
      }
      row := row[RETRIEVED := RetrievedItem(row, salla)];
    }
    ghost var retrieved := row;
    assert retrieved == if |cells[ORDER_STATUS].text| > 0 then cells[RETRIEVED := RetrievedItem(cells, salla)] else cells;
    if COUPON !in row {
      return Err(AttributeError);
    }
    assert row[COUPON] == cells[COUPON];
    var m := UpdateDiscounts(memo, row[COUPON].text, readings);
    var profit := salla - (cost + m.totalDiscountValue);
    profit := if refused then -profit else profit;
    var written := WriteTotals(row, readings, m, profit);
    if written.Err? {
      return Err(written.error);
    }
    row := written.value;
    assert profit == Profit(readings, m.totalDiscountValue, Refused(cells));
    assert RowCells(cells, false);
    assert row == WriteRow(cells, readings, m.totalDiscountValue, profit);
    r := Ok(Recalculated(row, m, DbValues(profit, m.totalDiscountValue)));
  }

  // ---------------------------------------------------------------------
  // The controller
  // ---------------------------------------------------------------------

  /**
   * The owners after `req` is sent: an add that inserts puts the new row
   * under the next id, an update that applies replaces the row it names,
   * and anything else leaves the owners as they were.
   */
  function SentOwners(req: OwnerRequest, owners: map<int, Record>, coupons: seq<Linked>, shippings: seq<Linked>,
                      payments: seq<Linked>, nextId: int): (r: map<int, Record>)
    ensures req.NoRequest? ==> r == owners
    ensures req.AddOwner? ==> r.Keys == owners.Keys + (if OwnerAddRow(req.args, coupons, shippings, payments, nextId).Ok? then {nextId} else {})
    ensures forall id :: id in owners && id != nextId && !req.UpdateOwner? ==> id in r && r[id] == owners[id]
  {
    match req
    case AddOwner(args) =>
      var added := OwnerAddRow(args, coupons, shippings, payments, nextId);
      if added.Ok? then owners[nextId := added.value] else owners
    case UpdateOwner(upd) =>
      var updated := OwnerUpdated(owners, coupons, shippings, payments, nextId, upd);
      if updated.Ok? && updated.value.Updated? then owners[updated.value.id := updated.value.rec] else owners
    case NoRequest => owners
  }

  /**
   * The table after `req` is sent for `row`: only an add that inserts
   * writes a cell, the new id into the row's id cell when it has one.
   */
  function SentRows(req: OwnerRequest, rows: seq<Row>, row: int, coupons: seq<Linked>, shippings: seq<Linked>,
                    payments: seq<Linked>, nextId: int): (r: seq<Row>)
    ensures |r| == |rows|
    ensures !req.AddOwner? ==> r == rows
    ensures forall i :: 0 <= i < |rows| && i != row ==> r[i] == rows[i]
  {
    if req.AddOwner? && OwnerAddRow(req.args, coupons, shippings, payments, nextId).Ok? && ItemAt(rows, row, UNPACK_ID).Some?
    then SetItem(rows, row, UNPACK_ID, IdItem(rows[row][UNPACK_ID], VInt(nextId)))
    else rows
  }

  class CompanyOwnerController {
    const table: TableWidget
    const db: Database
    var rowsData: map<int, Memo>

    constructor(table: TableWidget, db: Database)
      ensures this.table == table && this.db == db && rowsData == map[]
    {
      this.table := table;
      this.db := db;
      rowsData := map[];
    }

    /**
     * The first part of `update_field_value(row)`: an existing memo is
     * marked pre-calculated unless its payment and coupon texts are those of
     * the row (the coupon cell is read only when the payment texts agree); a
     * row without one replaces the whole dict.
     */
    method StepMemo(cells: Row, row: int) returns (r: Result<(), PyError>)
      modifies this
      ensures r.Ok? <==>
        (row in old(rowsData) ==>
           (PAYMENT_METHOD in cells && (old(rowsData)[row].payment == cells[PAYMENT_METHOD].text ==> COUPON in cells)))
      ensures r.Err? ==> r.error == AttributeError
      ensures r.Ok? ==> row in rowsData
      ensures r.Ok? && (row in old(rowsData) ==> COUPON in cells) ==> rowsData == MemoStep(old(rowsData), cells, row)
    {
      if row in rowsData {
        if PAYMENT_METHOD !in cells {
          return Err(AttributeError);
        }
        var m := rowsData[row];
        var same := m.payment == cells[PAYMENT_METHOD].text;
        if same && COUPON !in cells {
          return Err(AttributeError);
        }
        same := same && m.coupon == cells[COUPON].text;
        rowsData := rowsData[row := m.(preCalculated := !same)];
      } else {
        rowsData := map[row := FreshMemo];
      }
      r := Ok(());
    }

    /**
     * `update_field_value(row)`: the memo step on `rows_data`, then the
     * row's recalculation; an error is the `AttributeError` of a missing
     * cell.
     */
    method UpdateFieldValue(row: int) returns (r: Result<DbValues, PyError>)
      modifies this, table
      ensures r.Ok? <==> CellsPresent(old(table.rows), old(rowsData), row)
      ensures r.Err? ==> r.error == AttributeError
      ensures r.Ok? ==> Pass(table.rows, rowsData, r.value) == Recalc(old(table.rows), old(rowsData), row)
      ensures table.OnlyCellsChanged()
    {
      if !(0 <= row < |table.rows|) {
        return Err(AttributeError);
      }
      var cells := table.rows[row];
      var stepped := StepMemo(cells, row);
      if stepped.Err? {
        return Err(stepped.error);
      }
      r := ApplyRecalc(row);
    }

    /**
     * The rest of `update_field_value(row)` once the memo step is done: the
     * row's cells and memo are rewritten by the recalculation, or a missing
     * cell raises.
     */
    method ApplyRecalc(row: int) returns (r: Result<DbValues, PyError>)
      requires 0 <= row < |table.rows| && row in rowsData
      modifies this, table
      ensures r.Ok? <==> RowCells(old(table.rows)[row], false)
      ensures r.Err? ==> r.error == AttributeError
      ensures r.Ok? ==>
        var rr := RecalcRow(old(table.rows)[row], old(rowsData)[row], ReadAll(old(table.rows), row));
        && table.rows == old(table.rows)[row := rr.cells] && rowsData == old(rowsData)[row := rr.memo] && r.value == rr.db
      ensures table.OnlyCellsChanged()
    {
      var readings := ReadAll(table.rows, row);
      var done := RecalcCells(table.rows[row], rowsData[row], readings);
      if done.Err? {
        return Err(done.error);
      }
      table.rows, rowsData := table.rows[row := done.value.cells], rowsData[row := done.value.memo];
      r := Ok(done.value.db);
    }

    /**
     * `set_item_id(result, error, row)`: raises a given error; otherwise
     * writes `result.id` to the stored and the shown value of the row's id
     * cell.
     */
    method SetItemId(result: Value, error: Option<PyError>, row: int) returns (r: Result<(), PyError>)
      modifies table
      ensures error.Some? ==> r == Err(error.value) && table.rows == old(table.rows)
      ensures error.None? && (ItemAt(old(table.rows), row, UNPACK_ID).None? || ResultId(result).Err?) ==>
        r == Err(AttributeError) && table.rows == old(table.rows)
      ensures error.None? && ItemAt(old(table.rows), row, UNPACK_ID).Some? && ResultId(result).Ok? ==>
        r.Ok? && table.rows == SetItem(old(table.rows), row, UNPACK_ID, IdItem(old(table.rows)[row][UNPACK_ID], ResultId(result).value))
      ensures table.OnlyCellsChanged()
    {
      if error.Some? {
        return Err(error.value);
      }
      if ItemAt(table.rows, row, UNPACK_ID).None? {
        return Err(AttributeError);
      }
      var id := ResultId(result);
      if id.Err? {
        return Err(AttributeError);
      }
      table.rows := SetItem(table.rows, row, UNPACK_ID, IdItem(table.rows[row][UNPACK_ID], id.value));
      r := Ok(());
    }

    /**
     * What sending `req` for `row` did: an add inserts the owner and writes
     * its new id to the row's id cell (nothing is written when the insert
     * fails or the cell is missing); an update changes the owner it names
     * and no cell; no request changes nothing.
     */
    twostate predicate Sent(req: OwnerRequest, row: int)
      reads this, table, db
    {
      && table.rows == SentRows(req, old(table.rows), row, old(db.coupons), old(db.shippings), old(db.payments), old(db.nextId))
      && db.owners == SentOwners(req, old(db.owners), old(db.coupons), old(db.shippings), old(db.payments), old(db.nextId))
      && (req.NoRequest? ==> unchanged(db))
    }

    /**
     * The second half of `update_or_add_company`: the request is sent. An
     * `add` calls back `set_item_id` with its result; when that raises (the
     * result is `False`) it is called back again with the error, which it
     * raises. Those raises end in the worker thread, and so does whatever
     * `update` raises.
     */
    method Send(req: OwnerRequest, row: int)
      requires db.Valid()
      modifies table, db
      ensures db.Valid()
      ensures Sent(req, row)
      ensures table.OnlyCellsChanged()
    {
      match req {
        case AddOwner(args) =>
          var result := db.OwnerAdd(args);
          var done := SetItemId(result, None, row);
          if done.Err? {
            done := SetItemId(VNone, Some(done.error), row);
          }
        case UpdateOwner(upd) =>
          var _ := db.OwnerUpdate(upd);
        case NoRequest =>
      }
    }

    /**
     * `update_or_add_company(row, db_values)`: the request is decided, and
     * sent unless deciding it raised.
     */
    method UpdateOrAddCompany(row: int, values: DbValues) returns (r: Result<OwnerRequest, PyError>)
      requires db.Valid()
      modifies table, db
      ensures db.Valid()
      ensures r == OwnerUpsert(old(table.rows), row, table.columnCount, values)
      ensures r.Err? ==> table.rows == old(table.rows) && unchanged(db)
      ensures r.Ok? ==> Sent(r.value, row)
      ensures table.OnlyCellsChanged()
    {
      r := OwnerUpsert(table.rows, row, table.columnCount, values);
      if r.Ok? {
        Send(r.value, row);
      }
    }

    /**
     * `on_item_changed(item)` for the item at (`row`, `col`): the item is
     * reclassified unless its column holds a coupon, payment method,
     * shipping company or status; the row is recalculated, sent to the
     * database, and the sums are redone.
     */
    method OnItemChanged(row: int, col: int) returns (r: Result<(), PyError>)
      requires 0 <= row < |table.rows| && col in table.rows[row]
      requires db.Valid()
      modifies this, table, db
      ensures db.Valid()
      ensures var edited := SetItem(old(table.rows), row, col, Reclassify(old(table.rows)[row][col], col !in UnclassifiedColumns, true));
        && (!CellsPresent(edited, old(rowsData), row) ==> r == Err(AttributeError))
        && (CellsPresent(edited, old(rowsData), row) ==>
              var p := Recalc(edited, old(rowsData), row);
              && rowsData == p.memos
              && (OwnerUpsert(p.rows, row, table.columnCount, p.db).Err? ==> r == Err(OwnerUpsert(p.rows, row, table.columnCount, p.db).error))
              && (OwnerUpsert(p.rows, row, table.columnCount, p.db).Ok? ==>
                    var req := OwnerUpsert(p.rows, row, table.columnCount, p.db).value;
                    && db.owners == SentOwners(req, old(db.owners), old(db.coupons), old(db.shippings), old(db.payments), old(db.nextId))
                    && |table.rows| > 0
                    && table.rows[..|table.rows| - 1] ==
                         WithoutSumRow(SentRows(req, p.rows, row, old(db.coupons), old(db.shippings), old(db.payments), old(db.nextId)), old(table.sumRowIndex))
                    && table.sumRowIndex == Some(|table.rows| - 1)
                    && SumCells(table.rows[..|table.rows| - 1], table.columnCount, table.numericalColumns, table.ownerTable) ==
                         (if r.Ok? then Ok(table.rows[|table.rows| - 1]) else Err(r.error))))
    {
      var it := table.rows[row][col];
      table.rows := SetItem(table.rows, row, col, Reclassify(it, col !in UnclassifiedColumns, true));
      var values := UpdateFieldValue(row);
      if values.Err? {
        return Err(values.error);
      }
      var sent := UpdateOrAddCompany(row, values.value);
      if sent.Err? {
        return Err(sent.error);
      }
      var summed := table.UpdateSums();
      if summed.Err? {
        return Err(summed.error);
      }
      r := Ok(());
    }
  }
}
