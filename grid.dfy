/**
 * The cells of a `QTableWidget` as the controllers see them, and the two
 * routines every page applies to a cell: the classification of freshly
 * edited text into a stored value (`on_item_changed`), and the reading of a
 * cell as a two-place amount (`get_numeric_data`).
 *
 * A row is a map from column to item, so a cell that was never set is
 * absent, as `table_widget.item(row, col)` is then `None`.
 */
module Grid {
  import opened Wrappers
  import opened PyValues
  import opened PyValueFacts

  /** A `QTableWidgetItem`: its DisplayRole text, its UserRole value and its ItemIsEditable flag. */
  datatype Item = Item(text: string, stored: Value, editable: bool)

  /** `QTableWidgetItem()`: no text, no stored value, editable. */
  const EmptyItem := Item("", VNone, true)

  type Row = map<int, Item>

  /** `table_widget.item(r, c)`. */
  function ItemAt(rows: seq<Row>, r: int, c: int): (o: Option<Item>)
    ensures o.Some? <==> 0 <= r < |rows| && c in rows[r]
    ensures o.Some? ==> o.value == rows[r][c]
  {
    if 0 <= r < |rows| && c in rows[r] then Some(rows[r][c]) else None
  }

  /** `table_widget.setItem(r, c, it)` (or a write through an item already there). */
  function SetItem(rows: seq<Row>, r: int, c: int, it: Item): (rows': seq<Row>)
    requires 0 <= r < |rows|
    ensures |rows'| == |rows|
    ensures ItemAt(rows', r, c) == Some(it)
    ensures forall r', c' :: (r', c') != (r, c) ==> ItemAt(rows', r', c') == ItemAt(rows, r', c')
  {
    rows[r := rows[r][c := it]]
  }

  /**
   * The controllers' `row_data`: `item(row, c).data(Qt.UserRole)` for each
   * column `c < n`, and `[]` where there is no item.
   */
  function RowData(rows: seq<Row>, r: int, n: nat): (d: seq<Value>)
    ensures |d| == n
    ensures forall c :: 0 <= c < n ==>
      d[c] == (if ItemAt(rows, r, c).Some? then ItemAt(rows, r, c).value.stored else VList([]))
  {
    seq(n, c requires 0 <= c < n =>
      if ItemAt(rows, r, c).Some? then ItemAt(rows, r, c).value.stored else VList([]))
  }

  /** `item(r, c).data(Qt.DisplayRole)` where the item exists, else `None`. */
  function DisplayAt(rows: seq<Row>, r: int, c: int): (v: Value)
    ensures v.VText? <==> ItemAt(rows, r, c).Some?
  {
    if ItemAt(rows, r, c).Some? then VText(ItemAt(rows, r, c).value.text) else VNone
  }

  /** `item(r, c).data(Qt.UserRole)` where the item exists, else `None`. */
  function StoredAt(rows: seq<Row>, r: int, c: int): (v: Value)
    ensures ItemAt(rows, r, c).None? ==> v == VNone
  {
    if ItemAt(rows, r, c).Some? then ItemAt(rows, r, c).value.stored else VNone
  }

  // ---------------------------------------------------------------------
  // on_item_changed: what an edited cell stores
  // ---------------------------------------------------------------------

  /**
   * The value an edited cell stores: `Decimal(text)` for digit-only text
   * when the cell stored nothing truthy and the column takes numbers, else
   * the date `text` spells in yyyy-MM-dd form, else the text itself.
   */
  function Classify(text: string, stored: Value, numericAllowed: bool): (v: Value)
    ensures v.VDecimal? || v.VDate? || v.VText?
    ensures v.VText? ==> v.s == text
  {
    if IsNumeric(text) && !Truthy(stored) && numericAllowed then VDecimal(DigitsValue(text) as real, 0)
    else if ParseIsoDate(text).Some? then VDate(ParseIsoDate(text).value)
    else VText(text)
  }

  /**
   * The edited item after `on_item_changed` classified it: its text is
   * written back unchanged and, when the column is classified, it stores
   * `Classify(...)`.
   */
  function Reclassify(it: Item, classified: bool, numericAllowed: bool): (it': Item)
    ensures it'.text == it.text && it'.editable == it.editable
    ensures !classified ==> it' == it
  {
    if classified then it.(stored := Classify(it.text, it.stored, numericAllowed)) else it
  }

  /** Digit-only text is stored as the Decimal that `Decimal(text)` reads. */
  lemma ClassifyNumericIsDecimal(text: string, stored: Value)
    requires IsNumeric(text) && !Truthy(stored)
    ensures ToDecimal(Classify(text, stored, true)) == ParseDecimal(text)
    ensures Classify(text, stored, true).VDecimal?
  {
    NumericTextParses(text);
  }

  /**
   * `str()` of a typed number is its digits without a point: the Decimal
   * `Decimal("1001")` has no places, so `str` gives "1001" back.
   */
  lemma ClassifiedNumberStr(text: string, stored: Value)
    requires IsNumeric(text) && !Truthy(stored)
    ensures PyStr(Classify(text, stored, true)) == NatToDigits(DigitsValue(text))
  {
    StrWholeDecimal(DigitsValue(text));
  }

  /** The order number typed as "1001" is sent as "1001", not "1001.00". */
  lemma TypedOrderNumberStr(stored: Value)
    requires !Truthy(stored)
    ensures PyStr(Classify("1001", stored, true)) == "1001"
  {
    var t := "1001";
    assert t[..3] == "100" && t[..3][..2] == "10" && t[..3][..2][..1] == "1";
    assert DigitsValue("1") == 1;
    assert DigitsValue("10") == 10;
    assert DigitsValue("100") == 100;
    assert DigitsValue(t) == 1001;
    ClassifiedNumberStr(t, stored);
    assert NatToDigits(1001) == NatToDigits(100) + ['1'];
  }

  /**
   * A date is stored only for text that is not taken as a number, and its
   * ISO form is the edited text again.
   */
  lemma ClassifyDateRoundTrip(text: string, stored: Value, numericAllowed: bool)
    requires Classify(text, stored, numericAllowed).VDate?
    ensures !(IsNumeric(text) && !Truthy(stored) && numericAllowed)
    ensures DateText(Classify(text, stored, numericAllowed).date) == text
  {
    var d := ParseIsoDate(text).value;
    AsciiPadRoundTrip(text[..4]);
    AsciiPadRoundTrip(text[5..7]);
    AsciiPadRoundTrip(text[8..]);
    assert text == text[..4] + "-" + text[5..7] + "-" + text[8..];
  }

  lemma {:induction false} AsciiPadRoundTrip(s: string)
    requires AsciiDigits(s)
    ensures PadDigits(AsciiValue(s), |s|) == s
  {
    if |s| > 0 {
      var n := AsciiValue(s);
      var init := s[..|s| - 1];
      assert AsciiDigits(init);
      AsciiPadRoundTrip(init);
      assert n / 10 == AsciiValue(init);
      assert DigitChar(n % 10) == s[|s| - 1];
      assert s == init + [s[|s| - 1]];
    }
  }

  // ---------------------------------------------------------------------
  // get_numeric_data
  // ---------------------------------------------------------------------

  /**
   * `get_numeric_data(item)`: 0 for a missing cell; else the stored value
   * when it is truthy and `Decimal` accepts it; else the stripped text when
   * it is non-empty and `Decimal` accepts it; else 0. The value taken is
   * quantised to two places, rounding half up.
   */
  function NumericData(item: Option<Item>): real
  {
    match item
    case None => 0.0
    case Some(it) =>
      if Truthy(it.stored) && ToDecimal(it.stored).Some? then Quantize2HalfUp(ToDecimal(it.stored).value)
      else if Strip(it.text) != "" && ParseDecimal(Strip(it.text)).Some? then Quantize2HalfUp(ParseDecimal(Strip(it.text)).value)
      else 0.0
  }

  /** The places of the Decimal `get_numeric_data` returns: two after a quantize, none for its `Decimal(0)`. */
  function NumericPlaces(item: Option<Item>): nat
  {
    match item
    case None => 0
    case Some(it) =>
      if (Truthy(it.stored) && ToDecimal(it.stored).Some?) || (Strip(it.text) != "" && ParseDecimal(Strip(it.text)).Some?)
      then 2 else 0
  }

  /** Every reading has at most two places, and is within half a cent of what the cell holds. */
  lemma NumericDataCents(item: Option<Item>)
    ensures HasPlaces(NumericData(item), 2)
    ensures item.Some? && Truthy(item.value.stored) && ToDecimal(item.value.stored).Some? ==>
      Abs(NumericData(item) - ToDecimal(item.value.stored).value) <= 0.005
  {
    WholeHasCents(0);
    match item
    case None =>
    case Some(it) =>
      if Truthy(it.stored) && ToDecimal(it.stored).Some? {
        QuantizeHasPlaces(ToDecimal(it.stored).value);
        QuantizeClose(ToDecimal(it.stored).value);
      } else if Strip(it.text) != "" && ParseDecimal(Strip(it.text)).Some? {
        QuantizeHasPlaces(ParseDecimal(Strip(it.text)).value);
      }
  }

  /** A cell that stores a non-zero two-place Decimal reads as exactly that amount. */
  lemma NumericDataOfStored(it: Item, x: real)
    requires it.stored.VDecimal? && it.stored.d == x && x != 0.0 && HasPlaces(x, 2)
    ensures NumericData(Some(it)) == x
  {
    QuantizeKeepsPlaces(x);
  }

  /**
   * A cell that stores nothing truthy and shows `f"{x:.2f}"` for a
   * two-place `x` reads as `x`.
   */
  lemma NumericDataOfText(it: Item, x: real)
    requires !Truthy(it.stored) && it.text == FormatFixed2(x) && HasPlaces(x, 2)
    ensures NumericData(Some(it)) == x
  {
    FormatIsStripped(x, 2);
    Format2ParseRoundTrip(x);
    QuantizeKeepsPlaces(x);
  }

  /**
   * Rewriting a cell's text with `format_decimal` of its own reading does
   * not change the reading.
   */
  lemma NumericDataStable(it: Item)
    ensures NumericData(Some(it.(text := FormatFixed2(NumericData(Some(it)))))) == NumericData(Some(it))
  {
    var x := NumericData(Some(it));
    var it' := it.(text := FormatFixed2(x));
    if !(Truthy(it.stored) && ToDecimal(it.stored).Some?) {
      NumericDataCents(Some(it));
      FormatIsStripped(x, 2);
      Format2ParseRoundTrip(x);
      QuantizeKeepsPlaces(x);
      assert Strip(it'.text) == FormatFixed2(x);
    }
  }

  /** A cell given an amount: `setText(format_decimal(x))` and `setData(UserRole, x)`. */
  function Amount(it: Item, x: real): Item
  {
    it.(text := FormatFixed2(x), stored := VDecimal(x, 2))
  }

  /** A second amount replaces the first. */
  lemma AmountTwice(it: Item, x: real, y: real)
    ensures Amount(Amount(it, x), y) == Amount(it, y)
  {
  }

  /** A cell given a two-place amount reads back as that amount, zero included. */
  lemma NumericDataOfAmount(it: Item, x: real)
    requires HasPlaces(x, 2)
    ensures NumericData(Some(Amount(it, x))) == x
  {
    if x != 0.0 {
      NumericDataOfStored(Amount(it, x), x);
    } else {
      NumericDataOfText(Amount(it, x), x);
    }
  }
}
