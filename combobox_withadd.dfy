/**
 * `view/widgets/combobox_withadd_widget.py`: the drop-down that lists the
 * coupons, payment methods or shipping companies of a cell and ends with an
 * "add" entry, which its item delegate remembers as `add_item_index`.
 *
 * The item list is the combobox's model; `currentIndex` follows Qt's rules
 * for a list that grows at the end and loses rows. The dialog and the
 * confirmation box are answers handed in; painting, sizing and the popup
 * are not modelled.
 */
module ComboBoxWithAddWidget {
  import opened Wrappers
  import opened PyValues
  import opened CompanyOwnerModels

  /** An entry: its display text and the value under `Qt.UserRole`. */
  datatype ComboItem = ComboItem(text: string, data: Value)

  const ADD_ERROR := Raised("error in line 151 combobx_withadd_widget")
  const REMOVE_ERROR := Raised("error when remove the combobox item selected")

  /** The text of the "add" entry. */
  const ADD_ITEM_TEXT: string := "اضافة"

  const COUPON_COLUMN: string := "كوبون الخصم"
  const PAYMENT_COLUMN: string := "وسيلة الدفع"
  const SHIPPING_COLUMN: string := "شركة الشحن"

  /** The table a column's combobox edits; the other column names have none. */
  function ColumnTable(columnName: string): (k: Option<LinkedKind>)
    ensures k == Some(Coupons) <==> columnName == COUPON_COLUMN
    ensures k == Some(Payments) <==> columnName == PAYMENT_COLUMN
    ensures k == Some(Shippings) <==> columnName == SHIPPING_COLUMN
  {
    if columnName == COUPON_COLUMN then Some(Coupons)
    else if columnName == PAYMENT_COLUMN then Some(Payments)
    else if columnName == SHIPPING_COLUMN then Some(Shippings)
    else None
  }

  /** The "add" entry; it carries no data. */
  const AddEntry := ComboItem(ADD_ITEM_TEXT, VNone)

  /** The entries after `add_delegate_index` when the delegate remembered `addItemIndex`. */
  function Reanchored(items: seq<ComboItem>, addItemIndex: int): (r: seq<ComboItem>)
    ensures addItemIndex != -1 ==> |r| > 0 && r[|r| - 1] == AddEntry
    ensures addItemIndex != -1 && 0 <= addItemIndex < |items| ==> |r| == |items|
  {
    if addItemIndex == -1 then items
    else if 0 <= addItemIndex < |items| then items[..addItemIndex] + items[addItemIndex + 1..] + [AddEntry]
    else items + [AddEntry]
  }

  /**
   * An entry appended after the "add" entry ends up just before the fresh
   * "add" entry, and every other entry keeps its place.
   */
  lemma AppendThenReanchor(items: seq<ComboItem>, x: ComboItem)
    requires |items| > 0 && items[|items| - 1] == AddEntry
    ensures Reanchored(items + [x], |items| - 1) == items[..|items| - 1] + [x, AddEntry]
  {
    assert (items + [x])[..|items| - 1] == items[..|items| - 1];
    assert (items + [x])[|items|..] == [x];
  }

  /** `TwoInputDialog`: cancelled, or accepted with the first text and the second when the validator accepts it. */
  datatype DialogAnswer = Rejected | Accepted(first: string, second: Option<string>)

  /** `text1 and text2` after an accepted dialog. */
  predicate Filled(answer: DialogAnswer)
  {
    answer.Accepted? && answer.first != "" && answer.second.Some? && answer.second.value != ""
  }

  /** A table after `add` of a key and amount that both came from the dialog. */
  function TableAfterAdd(t: seq<Linked>, id: int, key: Value, amount: Value): seq<Linked>
  {
    match AddLinked(t, id, key, amount)
    case Some(t') => t'
    case None => t
  }

  /**
   * The current index after row `i` of `count` rows is removed: a row
   * before it shifts it down; removing the current row makes the nearest
   * remaining row current, or none when the list is empty.
   */
  function IndexAfterRemoval(current: int, i: nat, count: nat): (c: int)
    requires i < count && -1 <= current < count
    ensures -1 <= c < count - 1
    ensures c == -1 <==> current == -1 || count == 1
  {
    if current == -1 then -1
    else if i < current then current - 1
    else if i > current then current
    else if count == 1 then -1
    else if i < count - 1 then i else i - 1
  }

  /**
   * The current index after `add_delegate_index` on `count` entries when the
   * delegate remembered `addItemIndex`: the remembered entry is removed and
   * a fresh "add" entry appended, which makes it current when the list had
   * become empty.
   */
  function ReanchoredIndex(current: int, count: nat, addItemIndex: int): (c: int)
    requires -1 <= current < count
    ensures -1 <= c <= count
    ensures addItemIndex == -1 ==> c == current
    ensures 0 <= addItemIndex < count && 0 <= current < count && current != addItemIndex ==>
      c == (if addItemIndex < current then current - 1 else current)
    ensures 0 <= addItemIndex < count - 1 && current == addItemIndex ==> c == addItemIndex
  {
    if addItemIndex == -1 then current
    else if 0 <= addItemIndex < count then (if count == 1 then 0 else IndexAfterRemoval(current, addItemIndex, count))
    else if count == 0 then 0
    else current
  }

  /**
   * An entry added while the "add" entry is last and remembered: a
   * selected entry stays selected, and when the "add" entry itself was
   * selected the new entry takes its place and becomes selected.
   */
  lemma AddWhileAnchored(items: seq<ComboItem>, current: int, x: ComboItem)
    requires |items| > 0 && items[|items| - 1] == AddEntry && -1 <= current < |items|
    ensures var c := ReanchoredIndex(current, |items| + 1, |items| - 1);
      var r := Reanchored(items + [x], |items| - 1);
      && -1 <= c < |r|
      && (current < |items| - 1 ==> c == current && (current >= 0 ==> r[c] == items[current]))
      && (current == |items| - 1 ==> c == current && r[c] == x)
  {
    AppendThenReanchor(items, x);
  }

  /** The first index whose text is `text`, as `findText` matches: exactly. */
  function FindText(items: seq<ComboItem>, text: string): (i: int)
    ensures -1 <= i < |items|
    ensures i >= 0 ==> items[i].text == text && forall j :: 0 <= j < i ==> items[j].text != text
    ensures i == -1 ==> forall j :: 0 <= j < |items| ==> items[j].text != text
  {
    if |items| == 0 then -1
    else if items[0].text == text then 0
    else var j := FindText(items[1..], text); if j == -1 then -1 else j + 1
  }

  class ComboBoxWithAdd {
    var items: seq<ComboItem>
    var currentIndex: int
    /** The delegate's `add_item_index`: where it believes the "add" entry is. */
    var addItemIndex: int
    const columnName: string
    const db: Database

    /** Qt keeps the current index on an entry, or at -1. */
    ghost predicate Valid()
      reads this, db
    {
      && -1 <= currentIndex < |items|
      && db.Valid()
    }

    /** The "add" entry is last and the delegate points at it. */
    predicate Anchored()
      reads this
    {
      |items| > 0 && addItemIndex == |items| - 1 && items[addItemIndex].text == ADD_ITEM_TEXT
    }

    constructor(columnName: string, db: Database)
      requires db.Valid()
      ensures Valid() && this.db == db && this.columnName == columnName
      ensures items == [] && currentIndex == -1 && addItemIndex == -1
    {
      items := [];
      currentIndex := -1;
      addItemIndex := -1;
      this.columnName := columnName;
      this.db := db;
    }

    /** `insertItem(count(), ...)`: appended; the first row of an empty list becomes current. */
    method Append(item: ComboItem)
      requires Valid()
      modifies this
      ensures Valid()
      ensures items == old(items) + [item]
      ensures currentIndex == if old(items) == [] then 0 else old(currentIndex)
      ensures addItemIndex == old(addItemIndex)
    {
      if items == [] {
        currentIndex := 0;
      }
      items := items + [item];
    }

    /** `removeItem(i)`: nothing for an index out of range. */
    method RemoveItem(i: int)
      requires Valid()
      modifies this
      ensures Valid()
      ensures 0 <= i < old(|items|) ==>
        items == old(items[..i] + items[i + 1..]) && currentIndex == IndexAfterRemoval(old(currentIndex), i, old(|items|))
      ensures !(0 <= i < old(|items|)) ==> items == old(items) && currentIndex == old(currentIndex)
      ensures addItemIndex == old(addItemIndex)
    {
      if 0 <= i < |items| {
        currentIndex := IndexAfterRemoval(currentIndex, i, |items|);
        items := items[..i] + items[i + 1..];
      }
    }

    /** `setCurrentIndex(i)`: an index out of range selects nothing. */
    method SetCurrentIndex(i: int)
      requires Valid()
      modifies this
      ensures Valid()
      ensures items == old(items) && addItemIndex == old(addItemIndex)
      ensures currentIndex == if 0 <= i < |items| then i else -1
    {
      currentIndex := if 0 <= i < |items| then i else -1;
    }

    /**
     * `add_delegate_index`: a remembered "add" entry is removed and a fresh
     * one appended; then the delegate points at the last entry.
     */
    method AddDelegateIndex()
      requires Valid()
      modifies this
      ensures Valid()
      ensures items == Reanchored(old(items), old(addItemIndex))
      ensures addItemIndex == |items| - 1
      ensures currentIndex == ReanchoredIndex(old(currentIndex), old(|items|), old(addItemIndex))
    {
      if addItemIndex != -1 {
        RemoveItem(addItemIndex);
        Append(AddEntry);
      }
      addItemIndex := |items| - 1;
    }

    /** `add_item(display_data, hidden_data)`: appended with the value on the user role. */
    method AddItem(display: string, hidden: Value)
      requires Valid()
      modifies this
      ensures Valid()
      ensures items == old(items) + [ComboItem(display, hidden)]
      ensures addItemIndex == old(addItemIndex)
      ensures currentIndex == if old(items) == [] then 0 else old(currentIndex)
    {
      Append(ComboItem(display, hidden));
    }

    /**
     * `handle_add_new_item`: when the dialog is accepted with two truthy
     * texts, the entry is appended, the record added to the column's table
     * and the "add" entry re-anchored. `Decimal(text2)` of a text it cannot
     * read raises before anything changes; a column with no table raises
     * after the entry is appended.
     */
    method HandleAddNewItem(answer: DialogAnswer) returns (r: Result<(), PyError>)
      requires Valid()
      modifies this, db
      ensures Valid()
      ensures !Filled(answer) ==>
        r.Ok? && items == old(items) && currentIndex == old(currentIndex) && addItemIndex == old(addItemIndex)
        && unchanged(db)
      ensures Filled(answer) && ParseDecimal(answer.second.value).None? ==>
        r == Err(InvalidOperation) && items == old(items) && unchanged(db)
        && currentIndex == old(currentIndex) && addItemIndex == old(addItemIndex)
      ensures Filled(answer) && ParseDecimal(answer.second.value).Some? && ColumnTable(columnName).None? ==>
        r == Err(ADD_ERROR) && unchanged(db)
        && items == old(items) + [ComboItem(answer.first, TextToDecimal(answer.second.value).value)]
        && currentIndex == (if old(items) == [] then 0 else old(currentIndex)) && addItemIndex == old(addItemIndex)
      ensures Filled(answer) && ParseDecimal(answer.second.value).Some? && ColumnTable(columnName).Some? ==>
        r.Ok? && addItemIndex == |items| - 1
        && items == Reanchored(old(items) + [ComboItem(answer.first, TextToDecimal(answer.second.value).value)], old(addItemIndex))
        && currentIndex == ReanchoredIndex(if old(items) == [] then 0 else old(currentIndex), |old(items)| + 1, old(addItemIndex))
      ensures Filled(answer) && ParseDecimal(answer.second.value).Some? && ColumnTable(columnName).Some? ==>
        var kind := ColumnTable(columnName).value;
        var added := AddLinked(old(db.Table(kind)), old(db.nextId), VText(answer.first), VText(answer.second.value));
        && db.Table(kind) == TableAfterAdd(old(db.Table(kind)), old(db.nextId), VText(answer.first), VText(answer.second.value))
        && (forall k :: k != kind ==> db.Table(k) == old(db.Table(k)))
        && db.owners == old(db.owners) && db.companies == old(db.companies)
        && db.nextId == old(db.nextId) + (if added.Some? then 1 else 0)
    {
      if !Filled(answer) {
        return Ok(());
      }
      var amount := TextToDecimal(answer.second.value);
      if amount.None? {
        return Err(InvalidOperation);
      }
      AddItem(answer.first, amount.value);
      var kind := ColumnTable(columnName);
      if kind.None? {
        return Err(ADD_ERROR);
      }
      var added := db.AddLinkedRecord(kind.value, VText(answer.first), VText(answer.second.value));
      AddDelegateIndex();
      r := Ok(());
    }

    /**
     * `_handle_activation(index)`: activating the "add" entry selects the
     * entry before it (none when it is alone) and opens the dialog; any
     * other index changes nothing.
     */
    method HandleActivation(index: int, answer: DialogAnswer) returns (r: Result<(), PyError>)
      requires Valid()
      modifies this, db
      ensures Valid()
      ensures index != old(addItemIndex) ==>
        r.Ok? && items == old(items) && currentIndex == old(currentIndex) && addItemIndex == old(addItemIndex) && unchanged(db)
      ensures index == old(addItemIndex) && !Filled(answer) ==>
        r.Ok? && items == old(items) && addItemIndex == old(addItemIndex) && unchanged(db)
        && currentIndex == (if |items| > 1 then |items| - 2 else -1)
      ensures index == old(addItemIndex) && Filled(answer) && ParseDecimal(answer.second.value).None? ==>
        r == Err(InvalidOperation) && items == old(items) && addItemIndex == old(addItemIndex) && unchanged(db)
        && currentIndex == (if |items| > 1 then |items| - 2 else -1)
      ensures index == old(addItemIndex) && Filled(answer) && ParseDecimal(answer.second.value).Some? ==>
        var selected := if |old(items)| > 1 then |old(items)| - 2 else -1;
        var grown := old(items) + [ComboItem(answer.first, TextToDecimal(answer.second.value).value)];
        && (ColumnTable(columnName).None? ==>
              r == Err(ADD_ERROR) && unchanged(db) && items == grown && addItemIndex == old(addItemIndex)
              && currentIndex == (if old(items) == [] then 0 else selected))
        && (ColumnTable(columnName).Some? ==>
              var kind := ColumnTable(columnName).value;
              var added := AddLinked(old(db.Table(kind)), old(db.nextId), VText(answer.first), VText(answer.second.value));
              && r.Ok? && items == Reanchored(grown, old(addItemIndex)) && addItemIndex == |items| - 1
              && currentIndex == ReanchoredIndex(if old(items) == [] then 0 else selected, |old(items)| + 1, old(addItemIndex))
              && db.Table(kind) == TableAfterAdd(old(db.Table(kind)), old(db.nextId), VText(answer.first), VText(answer.second.value))
              && (forall k :: k != kind ==> db.Table(k) == old(db.Table(k)))
              && db.owners == old(db.owners) && db.companies == old(db.companies)
              && db.nextId == old(db.nextId) + (if added.Some? then 1 else 0))
    {
      if index != addItemIndex {
        return Ok(());
      }
      if |items| > 1 {
        SetCurrentIndex(|items| - 2);
      } else {
        SetCurrentIndex(-1);
      }
      r := HandleAddNewItem(answer);
    }

    /** `currentData()`: the user-role value of the current entry, None when there is none. */
    function CurrentData(): (v: Value)
      requires -1 <= currentIndex < |items|
      reads this
      ensures currentIndex == -1 ==> v == VNone
      ensures currentIndex != -1 ==> v == items[currentIndex].data
    {
      if currentIndex != -1 then items[currentIndex].data else VNone
    }

    /** `setCurrentText(text)`: selects the first entry with that text; none leaves the selection alone. */
    method SetCurrentText(text: string)
      requires Valid()
      modifies this
      ensures Valid()
      ensures items == old(items) && addItemIndex == old(addItemIndex)
      ensures (forall j :: 0 <= j < |items| ==> items[j].text != text) ==> currentIndex == old(currentIndex)
      ensures (exists j :: 0 <= j < |items| && items[j].text == text) ==>
        0 <= currentIndex < |items| && items[currentIndex].text == text
        && forall j :: 0 <= j < currentIndex ==> items[j].text != text
    {
      var index := FindText(items, text);
      if index != -1 {
        SetCurrentIndex(index);
      }
    }

    /**
     * `remove_current_item`: with an entry selected and the user answering
     * Yes, the record with its text is removed from the column's table (a
     * column with no table raises first) and the entry from the list. The
     * delegate's `add_item_index` is left as it was.
     */
    method RemoveCurrentItem(yes: bool) returns (r: Result<(), PyError>)
      requires Valid()
      modifies this, db
      ensures Valid()
      ensures addItemIndex == old(addItemIndex)
      ensures old(currentIndex) < 0 || !yes ==> r.Ok? && items == old(items) && currentIndex == old(currentIndex) && unchanged(db)
      ensures old(currentIndex) >= 0 && yes && ColumnTable(columnName).None? ==>
        r == Err(REMOVE_ERROR) && items == old(items) && unchanged(db)
      ensures old(currentIndex) >= 0 && yes && ColumnTable(columnName).Some? ==>
        r.Ok? && items == old(items[..currentIndex] + items[currentIndex + 1..])
        && currentIndex == IndexAfterRemoval(old(currentIndex), old(currentIndex), old(|items|))
        && db.nextId == old(db.nextId)
        && (forall k :: k != ColumnTable(columnName).value ==> db.Table(k) == old(db.Table(k)))
        && (var kind := ColumnTable(columnName).value;
            var t := old(db.Table(kind)); var i := FindIndex(t, VText(old(items[currentIndex].text)));
            if i < |t| then
              && db.Table(kind) == t[..i] + t[i + 1..]
              && db.owners == Detach(old(db.owners), OwnerForeignKey(kind), t[i].id)
              && db.companies == (if kind == Shippings then Detach(old(db.companies), OwnerForeignKey(Shippings), t[i].id) else old(db.companies))
            else
              db.Table(kind) == t && db.owners == old(db.owners) && db.companies == old(db.companies))
      ensures old(Anchored()) && 0 <= old(currentIndex) < old(addItemIndex) && yes && ColumnTable(columnName).Some? ==>
        !Anchored() && addItemIndex == |items|
    {
      if currentIndex < 0 || !yes {
        return Ok(());
      }
      var text := items[currentIndex].text;
      var kind := ColumnTable(columnName);
      if kind.None? {
        return Err(REMOVE_ERROR);
      }
      db.RemoveLinkedRecord(kind.value, VText(text));
      RemoveItem(currentIndex);
      r := Ok(());
    }
  }
}
