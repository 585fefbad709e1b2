/**
 * `view/widgets/table_widget.py`: the table every page shows. Besides the
 * cells it keeps the index of the trailing sum row, the set of hidden
 * columns and the columns whose delegate is numerical, and it updates all
 * of them in place.
 */
module TableWidgets {
  import opened Wrappers
  import opened PyValues
  import opened Constant
  import opened Grid

  /** The delegate kinds the sum row tells apart: only numerical columns get a sum. */
  datatype Delegate = NumericalDelegate | OtherDelegate

  /** Columns whose cells a refused order does not add to (total profit, total discount, total of orders). */
  const RefusedExcludedColumns: set<int> := {4, 5, 8}

  /** The company-owner table's order-status column. */
  const OrderStatusColumn: int := 13

  /** A status cell's stored value names a refused order, read through `get_status` when it is text. */
  predicate IsRefused(status: Value)
  {
    (if status.VText? then OrderGetStatus(status) else status) == VOrder(OrderStatus.REFUSED)
  }

  /**
   * What row `r` adds to the sum of column `col`: nothing for a missing
   * cell or a falsy stored value; text is read with `Decimal(...)` first;
   * in the company-owner table a refused order adds nothing to columns 4, 5
   * and 8; a value `Decimal` cannot be added to raises `TypeError`.
   */
  function Contribution(rows: seq<Row>, r: int, col: int, owner: bool): Result<real, PyError>
    requires 0 <= r < |rows|
  {
    if col !in rows[r] || !Truthy(rows[r][col].stored) then Ok(0.0)
    else
      var v := rows[r][col].stored;
      if v.VText? && ParseDecimal(v.s).None? then Err(InvalidOperation)
      else if owner && OrderStatusColumn !in rows[r] then Err(AttributeError)
      else if owner && IsRefused(rows[r][OrderStatusColumn].stored) && col in RefusedExcludedColumns then Ok(0.0)
      else if ToDecimal(v).None? then Err(TypeError)
      else Ok(ToDecimal(v).value)
  }

  /** The sum of column `col` over rows `0 .. n-1`, or the first exception a row raises. */
  function ColumnSum(rows: seq<Row>, n: nat, col: int, owner: bool): Result<real, PyError>
    requires n <= |rows|
  {
    if n == 0 then Ok(0.0)
    else match ColumnSum(rows, n - 1, col, owner)
      case Err(e) => Err(e)
      case Ok(t) =>
        match Contribution(rows, n - 1, col, owner)
        case Err(e) => Err(e)
        case Ok(x) => Ok(t + x)
  }

  /** The data rows `calculate_column_sum` scans: all rows but the last. */
  function DataRows(rowCount: nat): nat
  {
    if rowCount > 0 then rowCount - 1 else 0
  }

  /** `f"{total:.2f}"`, or the exception. */
  function SumText(r: Result<real, PyError>): Result<string, PyError>
  {
    match r
    case Ok(t) => Ok(FormatFixed2(t))
    case Err(e) => Err(e)
  }

  /** The table without its sum row, when the recorded index is in range. */
  function WithoutSumRow(rows: seq<Row>, sumRowIndex: Option<int>): (base: seq<Row>)
    ensures |base| == |rows| || |base| == |rows| - 1
  {
    if sumRowIndex.Some? && 0 <= sumRowIndex.value < |rows| then
      rows[..sumRowIndex.value] + rows[sumRowIndex.value + 1..]
    else rows
  }

  /**
   * The cells of columns `0 .. n-1` of a new sum row over `base`: each
   * read-only, storing nothing, and showing the column sum in numerical
   * columns; or the exception the first failing column sum raises.
   */
  function SumCells(base: seq<Row>, n: nat, numerical: set<int>, owner: bool): Result<Row, PyError>
  {
    if n == 0 then Ok(map[])
    else match SumCells(base, n - 1, numerical, owner)
      case Err(e) => Err(e)
      case Ok(row) =>
        if n - 1 in numerical then
          match SumText(ColumnSum(base, |base|, n - 1, owner))
          case Err(e) => Err(e)
          case Ok(s) => Ok(row[n - 1 := Item(s, VNone, false)])
        else Ok(row[n - 1 := Item("", VNone, false)])
  }

  /** The columns whose delegate is numerical. */
  function NumericalOf(delegates: seq<(int, Delegate)>): (cols: set<int>)
    ensures forall c :: c in cols <==> exists i :: 0 <= i < |delegates| && delegates[i] == (c, NumericalDelegate)
  {
    set i | 0 <= i < |delegates| && delegates[i].1 == NumericalDelegate :: delegates[i].0
  }

  /** One loaded row: the given items, empty items past their end, read-only columns not editable. */
  function LoadRow(items: seq<Item>, columnCount: nat, readOnly: seq<int>): (row: Row)
    ensures forall c :: c in row <==> 0 <= c < columnCount
    ensures forall c :: 0 <= c < columnCount && c < |items| && c !in readOnly ==> row[c] == items[c]
    ensures forall c :: 0 <= c < columnCount && c in readOnly ==> !row[c].editable
    ensures forall c :: 0 <= c < columnCount ==> row[c].text == (if c < |items| then items[c].text else "")
    ensures forall c :: 0 <= c < columnCount ==> row[c].stored == (if c < |items| then items[c].stored else VNone)
  {
    map c | 0 <= c < columnCount ::
      var it := if c < |items| then items[c] else EmptyItem;
      if c in readOnly then it.(editable := false) else it
  }

  /** How many of columns `lo .. hi-1` are hidden. */
  function CountHidden(hidden: set<int>, lo: int, hi: int): nat
    decreases hi - lo
  {
    if hi <= lo then 0 else CountHidden(hidden, lo, hi - 1) + (if hi - 1 in hidden then 1 else 0)
  }

  /** The cell `update_column_status` leaves: a completed payment, shown by its text. */
  function CompletedCell(row: Row, col: int): Item
  {
    var it := if col in row then row[col] else EmptyItem;
    it.(text := PAYMENT_COMPLETED_TEXT, stored := VPayment(PaymentStatus.COMPLETED))
  }

  function IndexOf(xs: seq<string>, x: string): (i: nat)
    requires x in xs
    ensures i < |xs| && xs[i] == x
    ensures forall j :: 0 <= j < i ==> xs[j] != x
  {
    if xs[0] == x then 0 else 1 + IndexOf(xs[1..], x)
  }

  class TableWidget {
    var rows: seq<Row>
    const columnCount: nat
    /** `hidden_column_index`: the position of the "id" header. */
    const hiddenColumnIndex: int
    /** Whether `methods.current_object` is a `CompanyOwner`. */
    const ownerTable: bool
    var hidden: set<int>
    var sumRowIndex: Option<int>
    var delegates: seq<(int, Delegate)>
    var numericalColumns: set<int>
    var readOnlyColumns: seq<int>
    /** The id texts passed to `current_object.remove`, oldest first. */
    var removedIds: seq<string>

    /** Only the cells changed: every other part of the widget is as it was. */
    twostate predicate OnlyCellsChanged()
      reads this
    {
      && hidden == old(hidden) && sumRowIndex == old(sumRowIndex) && delegates == old(delegates)
      && numericalColumns == old(numericalColumns) && readOnlyColumns == old(readOnlyColumns)
      && removedIds == old(removedIds)
    }

    /** `TableWidget(columns, ...)`: the id column starts hidden and the table empty. */
    constructor(columns: seq<string>, owner: bool)
      requires "id" in columns
      ensures columnCount == |columns| && hiddenColumnIndex == IndexOf(columns, "id")
      ensures ownerTable == owner && hidden == {hiddenColumnIndex}
      ensures rows == [] && sumRowIndex == None && delegates == [] && numericalColumns == {}
      ensures readOnlyColumns == [] && removedIds == []
    {
      rows := [];
      columnCount := |columns|;
      hiddenColumnIndex := IndexOf(columns, "id");
      ownerTable := owner;
      hidden := {IndexOf(columns, "id")};
      sumRowIndex := None;
      delegates := [];
      numericalColumns := {};
      readOnlyColumns := [];
      removedIds := [];
    }

    /** `add_delegate`: the column's delegate is recorded. */
    method AddDelegate(column: int, kind: Delegate)
      modifies this
      ensures delegates == old(delegates) + [(column, kind)]
      ensures rows == old(rows) && hidden == old(hidden) && sumRowIndex == old(sumRowIndex)
      ensures numericalColumns == old(numericalColumns) && readOnlyColumns == old(readOnlyColumns)
      ensures removedIds == old(removedIds)
    {
      delegates := delegates + [(column, kind)];
    }

    /** `setReadOnlyColumns`. */
    method SetReadOnlyColumns(cols: seq<int>)
      modifies this
      ensures readOnlyColumns == cols
      ensures rows == old(rows) && hidden == old(hidden) && sumRowIndex == old(sumRowIndex)
      ensures numericalColumns == old(numericalColumns) && delegates == old(delegates)
      ensures removedIds == old(removedIds)
    {
      readOnlyColumns := cols;
    }

    /**
     * `calculate_column_sum(col)`: the sum over every row but the last,
     * formatted with two places, or the exception a row raises.
     */
    method CalculateColumnSum(col: int) returns (r: Result<string, PyError>)
      ensures r == SumText(ColumnSum(rows, DataRows(|rows|), col, ownerTable))
    {
      var n := DataRows(|rows|);
      var total := 0.0;
      var row := 0;
      while row < n
        invariant 0 <= row <= n
        invariant ColumnSum(rows, row, col, ownerTable) == Ok(total)
      {
        var value := RowValue(row, col);
        if value.Err? {
          ErrorPersists(rows, row + 1, n, col, ownerTable);
          return Err(value.error);
        }
        total := total + value.value;
        row := row + 1;
      }
      r := Ok(FormatFixed2(total));
    }

    /** One pass of `calculate_column_sum`'s loop: what row `row` adds to column `col`. */
    method RowValue(row: int, col: int) returns (r: Result<real, PyError>)
      requires 0 <= row < |rows|
      ensures r == Contribution(rows, row, col, ownerTable)
    {
      if col !in rows[row] || !Truthy(rows[row][col].stored) {
        return Ok(0.0);
      }
      var value := rows[row][col].stored;
      if value.VText? {
        match TextToDecimal(value.s)
        case None =>
          return Err(InvalidOperation);
        case Some(d) =>
          value := d;
      }
      if ownerTable {
        if OrderStatusColumn !in rows[row] {
          return Err(AttributeError);
        }
        var status := rows[row][OrderStatusColumn].stored;
        if status.VText? {
          status := OrderGetStatus(status);
        }
        if status == VOrder(OrderStatus.REFUSED) && col in RefusedExcludedColumns {
          return Ok(0.0);
        }
      }
      match ToDecimal(value)
      case None =>
        r := Err(TypeError);
      case Some(x) =>
        r := Ok(x);
    }

    /**
     * `add_sum_row`: the numerical delegates' columns join
     * `numerical_columns`; the old sum row, when its index is in range, is
     * removed; a new row is appended and its index recorded; its cells are
     * filled column by column. A failing column sum escapes and leaves the
     * row filled up to that column.
     */
    method AddSumRow() returns (r: Result<(), PyError>)
      modifies this
      ensures numericalColumns == old(numericalColumns) + NumericalOf(delegates)
      ensures |rows| == |WithoutSumRow(old(rows), old(sumRowIndex))| + 1
      ensures rows[..|rows| - 1] == WithoutSumRow(old(rows), old(sumRowIndex))
      ensures sumRowIndex == Some(|rows| - 1)
      ensures r.Ok? <==> SumCells(rows[..|rows| - 1], columnCount, numericalColumns, ownerTable).Ok?
      ensures r.Ok? ==> SumCells(rows[..|rows| - 1], columnCount, numericalColumns, ownerTable) == Ok(rows[|rows| - 1])
      ensures r.Err? ==> SumCells(rows[..|rows| - 1], columnCount, numericalColumns, ownerTable) == Err(r.error)
      ensures hidden == old(hidden) && delegates == old(delegates) && readOnlyColumns == old(readOnlyColumns)
      ensures removedIds == old(removedIds)
    {
      numericalColumns := numericalColumns + NumericalOf(delegates);
      var base := WithoutSumRow(rows, sumRowIndex);
      rows := base;
      sumRowIndex := Some(|rows|);
      var sumRow: Row := map[];
      rows := base + [sumRow];
      var col := 0;
      while col < columnCount
        invariant 0 <= col <= columnCount
        invariant rows == base + [sumRow] && sumRowIndex == Some(|base|)
        invariant SumCells(base, col, numericalColumns, ownerTable) == Ok(sumRow)
        invariant numericalColumns == old(numericalColumns) + NumericalOf(delegates)
        invariant hidden == old(hidden) && delegates == old(delegates) && readOnlyColumns == old(readOnlyColumns)
        invariant removedIds == old(removedIds)
      {
        var text := "";
        if col in numericalColumns {
          ColumnSumPrefix(rows, base, |base|, col, ownerTable);
          assert rows[..|base|] == base;
          var s := CalculateColumnSum(col);
          assert s == SumText(ColumnSum(base, |base|, col, ownerTable));
          if s.Err? {
            assert SumCells(base, col + 1, numericalColumns, ownerTable) == Err(s.error);
            SumCellsErrorPersists(base, col + 1, columnCount, numericalColumns, ownerTable);
            assert rows[..|rows| - 1] == base;
            return Err(s.error);
          }
          text := s.value;
        }
        assert SumCells(base, col + 1, numericalColumns, ownerTable) == Ok(sumRow[col := Item(text, VNone, false)]);
        sumRow := sumRow[col := Item(text, VNone, false)];
        rows := base + [sumRow];
        col := col + 1;
      }
      assert rows[..|rows| - 1] == base;
      r := Ok(());
    }

    /** `update_sums`. */
    method UpdateSums() returns (r: Result<(), PyError>)
      modifies this
      ensures numericalColumns == old(numericalColumns) + NumericalOf(delegates)
      ensures |rows| == |WithoutSumRow(old(rows), old(sumRowIndex))| + 1
      ensures rows[..|rows| - 1] == WithoutSumRow(old(rows), old(sumRowIndex))
      ensures sumRowIndex == Some(|rows| - 1)
      ensures r.Ok? ==> SumCells(rows[..|rows| - 1], columnCount, numericalColumns, ownerTable) == Ok(rows[|rows| - 1])
      ensures r.Err? ==> SumCells(rows[..|rows| - 1], columnCount, numericalColumns, ownerTable) == Err(r.error)
      ensures hidden == old(hidden) && delegates == old(delegates) && readOnlyColumns == old(readOnlyColumns)
      ensures removedIds == old(removedIds)
    {
      r := AddSumRow();
    }

    /**
     * `add_rows(items)`: the sum row index is forgotten, the table gets one
     * row per given row with every column filled, and a sum row is added.
     */
    method AddRows(items: seq<seq<Item>>) returns (r: Result<(), PyError>)
      modifies this
      ensures |rows| == |items| + 1 && sumRowIndex == Some(|items|)
      ensures forall i :: 0 <= i < |items| ==> rows[i] == LoadRow(items[i], columnCount, readOnlyColumns)
      ensures numericalColumns == old(numericalColumns) + NumericalOf(delegates)
      ensures r.Ok? ==> SumCells(rows[..|items|], columnCount, numericalColumns, ownerTable) == Ok(rows[|items|])
      ensures r.Err? ==> SumCells(rows[..|items|], columnCount, numericalColumns, ownerTable) == Err(r.error)
      ensures hidden == old(hidden) && delegates == old(delegates) && readOnlyColumns == old(readOnlyColumns)
      ensures removedIds == old(removedIds)
    {
      sumRowIndex := None;
      var loaded: seq<Row> := [];
      var i := 0;
      while i < |items|
        invariant 0 <= i <= |items| && |loaded| == i
        invariant forall j :: 0 <= j < i ==> loaded[j] == LoadRow(items[j], columnCount, readOnlyColumns)
      {
        loaded := loaded + [LoadRow(items[i], columnCount, readOnlyColumns)];
        i := i + 1;
      }
      rows := loaded;
      r := AddSumRow();
      assert rows[..|items|] == loaded;
    }

    /**
     * `remove_action_handler` for an item in row `itemRow`: the sum row is
     * never removed. Otherwise the row's id text is passed to `remove` (the
     * `!= -1` guard compares text with an int and always holds), the row is
     * removed, the sum row index moves up by one and the sums are redone.
     */
    method RemoveActionHandler(itemRow: int) returns (r: Result<(), PyError>)
      requires 0 <= itemRow < |rows|
      modifies this
      ensures old(sumRowIndex) == Some(itemRow) ==> r.Ok? && rows == old(rows) && removedIds == old(removedIds)
      ensures old(sumRowIndex) != Some(itemRow) && hiddenColumnIndex !in old(rows)[itemRow] ==>
        r == Err(AttributeError) && rows == old(rows) && removedIds == old(removedIds)
      ensures old(sumRowIndex) != Some(itemRow) && hiddenColumnIndex in old(rows)[itemRow] ==>
        removedIds == old(removedIds) + [old(rows)[itemRow][hiddenColumnIndex].text]
      ensures old(sumRowIndex) != Some(itemRow) && hiddenColumnIndex in old(rows)[itemRow] && old(sumRowIndex).None? ==>
        r == Err(TypeError) && rows == old(rows)[..itemRow] + old(rows)[itemRow + 1..]
      ensures old(sumRowIndex) != Some(itemRow) && hiddenColumnIndex in old(rows)[itemRow] && old(sumRowIndex).Some? ==>
        && |rows| >= 1 && rows[..|rows| - 1] == WithoutSumRow(old(rows)[..itemRow] + old(rows)[itemRow + 1..], Some(old(sumRowIndex).value - 1))
        && sumRowIndex == Some(|rows| - 1)
        && numericalColumns == old(numericalColumns) + NumericalOf(delegates)
        && SumCells(rows[..|rows| - 1], columnCount, numericalColumns, ownerTable) == (if r.Ok? then Ok(rows[|rows| - 1]) else Err(r.error))
      ensures hidden == old(hidden) && delegates == old(delegates) && readOnlyColumns == old(readOnlyColumns)
    {
      if sumRowIndex == Some(itemRow) {
        return Ok(());
      }
      if hiddenColumnIndex !in rows[itemRow] {
        return Err(AttributeError);
      }
      removedIds := removedIds + [rows[itemRow][hiddenColumnIndex].text];
      rows := rows[..itemRow] + rows[itemRow + 1..];
      if sumRowIndex.None? {
        return Err(TypeError);
      }
      sumRowIndex := Some(sumRowIndex.value - 1);
      r := UpdateSums();
    }

    /**
     * `hide_action(column)`: refused when at least `columnCount - 2` of
     * columns `1 ..` are already hidden; otherwise the column is hidden.
     */
    method HideAction(column: int) returns (done: bool)
      modifies this
      ensures done <==> CountHidden(old(hidden), 1, columnCount) < columnCount - 2
      ensures hidden == if done then old(hidden) + {column} else old(hidden)
      ensures rows == old(rows) && sumRowIndex == old(sumRowIndex) && delegates == old(delegates)
      ensures numericalColumns == old(numericalColumns) && readOnlyColumns == old(readOnlyColumns)
      ensures removedIds == old(removedIds)
    {
      var total := 0;
      var col := 1;
      while col < columnCount
        invariant 1 <= col <= columnCount || (columnCount < 1 && col == 1)
        invariant total == CountHidden(hidden, 1, col)
      {
        if col in hidden {
          total := total + 1;
        }
        col := col + 1;
      }
      if total >= columnCount - 2 {
        return false;
      }
      hidden := hidden + {column};
      done := true;
    }

    /** `show_all_action`: every column from 1 on except the id column is shown. */
    method ShowAllAction()
      modifies this
      ensures forall c :: c in hidden <==> c in old(hidden) && !(1 <= c < columnCount && c != hiddenColumnIndex)
      ensures rows == old(rows) && sumRowIndex == old(sumRowIndex) && delegates == old(delegates)
      ensures numericalColumns == old(numericalColumns) && readOnlyColumns == old(readOnlyColumns)
      ensures removedIds == old(removedIds)
    {
      var shown := hidden;
      var col := 1;
      while col < columnCount
        invariant 1 <= col <= columnCount || (columnCount < 1 && col == 1)
        invariant forall c :: c in shown <==> c in hidden && !(1 <= c < col && c != hiddenColumnIndex)
      {
        if col != hiddenColumnIndex && col in shown {
          shown := shown - {col};
        }
        col := col + 1;
      }
      hidden := shown;
    }

    /**
     * `update_column_status(col)`: when `col` is a column of the table,
     * every row's cell in it, created when missing, becomes a completed
     * payment, shown by its Arabic text.
     */
    method UpdateColumnStatus(col: int)
      modifies this
      ensures |rows| == |old(rows)|
      ensures forall r :: 0 <= r < |rows| ==>
        rows[r] == if 0 <= col < columnCount then old(rows)[r][col := CompletedCell(old(rows)[r], col)] else old(rows)[r]
      ensures hidden == old(hidden) && sumRowIndex == old(sumRowIndex) && delegates == old(delegates)
      ensures numericalColumns == old(numericalColumns) && readOnlyColumns == old(readOnlyColumns)
      ensures removedIds == old(removedIds)
    {
      if |rows| > 0 {
        var updated := rows;
        var row := 0;
        while row < |rows|
          invariant 0 <= row <= |rows| && |updated| == |rows|
          invariant forall r :: 0 <= r < row ==>
            updated[r] == if 0 <= col < columnCount then rows[r][col := CompletedCell(rows[r], col)] else rows[r]
          invariant forall r :: row <= r < |rows| ==> updated[r] == rows[r]
        {
          if 0 <= col < columnCount {
            updated := updated[row := updated[row][col := CompletedCell(updated[row], col)]];
          }
          row := row + 1;
        }
        rows := updated;
      }
    }
  }

  // ---------------------------------------------------------------------
  // Facts
  // ---------------------------------------------------------------------

  /** Once a row raises, the sum over any longer prefix raises the same exception. */
  lemma {:induction false} ErrorPersists(rows: seq<Row>, k: nat, n: nat, col: int, owner: bool)
    requires k <= n <= |rows|
    requires ColumnSum(rows, k, col, owner).Err?
    ensures ColumnSum(rows, n, col, owner) == ColumnSum(rows, k, col, owner)
  {
    if n > k {
      ErrorPersists(rows, k, n - 1, col, owner);
    }
  }

  lemma {:induction false} SumCellsErrorPersists(base: seq<Row>, k: nat, n: nat, numerical: set<int>, owner: bool)
    requires k <= n
    requires SumCells(base, k, numerical, owner).Err?
    ensures SumCells(base, n, numerical, owner) == SumCells(base, k, numerical, owner)
  {
    if n > k {
      SumCellsErrorPersists(base, k, n - 1, numerical, owner);
    }
  }

  /**
   * A column sum reads only the rows it scans: rows from `n` on, the sum
   * row among them, never change it.
   */
  lemma {:induction false} ColumnSumPrefix(rows: seq<Row>, rows': seq<Row>, n: nat, col: int, owner: bool)
    requires n <= |rows| && n <= |rows'| && rows[..n] == rows'[..n]
    ensures ColumnSum(rows, n, col, owner) == ColumnSum(rows', n, col, owner)
  {
    if n > 0 {
      assert rows[n - 1] == rows[..n][n - 1] == rows'[n - 1];
      assert rows[..n - 1] == rows[..n][..n - 1];
      assert rows'[..n - 1] == rows'[..n][..n - 1];
      ColumnSumPrefix(rows, rows', n - 1, col, owner);
    }
  }

  /**
   * In the company-owner table a refused order's total profit, total
   * discount and total of orders are not counted: whatever the row stores
   * there, the sum is the same as with the cell removed.
   */
  lemma {:induction false} RefusedRowNotCounted(rows: seq<Row>, n: nat, r: nat, col: int, it: Item)
    requires r < n <= |rows|
    requires col in RefusedExcludedColumns && OrderStatusColumn in rows[r] && IsRefused(rows[r][OrderStatusColumn].stored)
    requires !it.stored.VText? || ParseDecimal(it.stored.s).Some?
    ensures ColumnSum(rows[r := rows[r][col := it]], n, col, true) == ColumnSum(rows[r := rows[r] - {col}], n, col, true)
  {
    var a := rows[r := rows[r][col := it]];
    var b := rows[r := rows[r] - {col}];
    if n - 1 == r {
      assert a[..r] == rows[..r] == b[..r];
      ColumnSumPrefix(a, b, r, col, true);
      assert Contribution(a, r, col, true) == Ok(0.0) == Contribution(b, r, col, true);
    } else {
      RefusedRowNotCounted(rows, n - 1, r, col, it);
      assert Contribution(a, n - 1, col, true) == Contribution(b, n - 1, col, true);
    }
  }

  /**
   * The sum row's shape: exactly columns `0 .. n-1`, none editable, none
   * storing a value, numerical columns showing `f"{sum:.2f}"` and the
   * others empty.
   */
  lemma {:induction false} SumCellsShape(base: seq<Row>, n: nat, numerical: set<int>, owner: bool)
    requires SumCells(base, n, numerical, owner).Ok?
    ensures var row := SumCells(base, n, numerical, owner).value;
      (forall c :: c in row <==> 0 <= c < n)
      && (forall c :: c in row ==> !row[c].editable && row[c].stored == VNone)
      && (forall c :: c in row && c !in numerical ==> row[c].text == "")
      && (forall c :: c in row && c in numerical ==>
            ColumnSum(base, |base|, c, owner).Ok? && row[c].text == FormatFixed2(ColumnSum(base, |base|, c, owner).value))
  {
    if n > 0 {
      SumCellsShape(base, n - 1, numerical, owner);
    }
  }

  /** A sum row in range is replaced, not duplicated: removing it and appending keeps the row count. */
  lemma SumRowReplaced(rows: seq<Row>, i: int)
    requires 0 <= i < |rows|
    ensures |WithoutSumRow(rows, Some(i))| + 1 == |rows|
    ensures WithoutSumRow(rows, None) == rows
  {
  }

  lemma {:induction false} CountHiddenBound(hidden: set<int>, lo: int, hi: int)
    decreases hi - lo
    ensures CountHidden(hidden, lo, hi) <= (if hi <= lo then 0 else hi - lo)
  {
    if hi > lo {
      CountHiddenBound(hidden, lo, hi - 1);
    }
  }

  lemma {:induction false} CountHiddenAddOne(hidden: set<int>, x: int, lo: int, hi: int)
    decreases hi - lo
    ensures CountHidden(hidden + {x}, lo, hi) <= CountHidden(hidden, lo, hi) + 1
    ensures x in hidden ==> CountHidden(hidden + {x}, lo, hi) == CountHidden(hidden, lo, hi)
  {
    if hi > lo {
      CountHiddenAddOne(hidden, x, lo, hi - 1);
      if hi - 1 == x && x !in hidden {
        CountHiddenNotIn(hidden, x, lo, hi - 1);
      }
    }
  }

  lemma {:induction false} CountHiddenNotIn(hidden: set<int>, x: int, lo: int, hi: int)
    decreases hi - lo
    requires hi <= x
    ensures CountHidden(hidden + {x}, lo, hi) == CountHidden(hidden, lo, hi)
  {
    if hi > lo {
      CountHiddenNotIn(hidden, x, lo, hi - 1);
    }
  }

  /** Fewer hidden columns than columns means some column is visible. */
  lemma {:induction false} SomeColumnVisible(hidden: set<int>, lo: int, hi: int)
    requires lo < hi && CountHidden(hidden, lo, hi) < hi - lo
    ensures exists c :: lo <= c < hi && c !in hidden
    decreases hi - lo
  {
    if hi - 1 in hidden {
      CountHiddenBound(hidden, lo, hi - 1);
      SomeColumnVisible(hidden, lo, hi - 1);
    }
  }

  /**
   * `hide_action` never hides the last visible column of `1 ..`: when it
   * hides, at most `columnCount - 2` of them are hidden afterwards, so one
   * is still shown.
   */
  lemma HideLeavesAColumn(before: set<int>, column: int, n: int)
    requires CountHidden(before, 1, n) < n - 2
    ensures CountHidden(before + {column}, 1, n) < n - 1
    ensures exists c :: 1 <= c < n && c !in before + {column}
  {
    CountHiddenAddOne(before, column, 1, n);
    SomeColumnVisible(before + {column}, 1, n);
  }

  /** After `update_column_status`, each cell's text reads back as the status it stores. */
  lemma CompletedCellConsistent(row: Row, col: int)
    ensures PaymentGetStatus(VText(CompletedCell(row, col).text)) == CompletedCell(row, col).stored
    ensures PaymentGetStr(CompletedCell(row, col).stored) == VText(CompletedCell(row, col).text)
  {
  }
}
