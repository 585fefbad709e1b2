# PyQt-Billmate ledger core, modelled in Dafny

PyQt-Billmate is a desktop bookkeeping application for a small online
shop. It keeps an order ledger (store orders with their coupon, shipping
company and payment method), a debt ledger of the shipping companies, the
freelancers' costs and the employees' salaries. Each ledger is a Qt table:
editing a cell reclassifies the typed text, recalculates the derived
amounts of the row, sends the row to the SQLAlchemy models as a new record
or as an update, and redoes the sum row at the bottom.

This project models that core:

- `py_values.dfy`, `py_value_facts.dfy`: the Python values a cell or an
  update dict holds, and the built-ins the program applies to them
  (truthiness, `Decimal(...)`, `str.strip`, `str.isnumeric`,
  `Decimal.quantize` with half-up rounding, `f"{v:.2f}"` with half-even
  rounding), with the facts that a formatted amount reads back as the
  rounded value.
- `constant.dfy`: the payment and order status enums, their Arabic texts,
  and the user roles.
- `grid.dfy`: the table cells, the classification of edited text into a
  stored value, and `get_numeric_data`.
- `persistence.dfy`, `company_owner.dfy`, `employee.dfy`: the ORM tables
  as maps from id to record, with the `get`, `add` and `update` operations
  of coupons, shipping companies, payment methods, orders, companies and
  employees. A refused flush or commit rolls the session back.
- `alchemy.dfy`: the column lists, the blank row of a table and the filter
  that `DynamicSearch.where` builds.
- `company_owner_controller.dfy`, `company_page_controller.dfy`,
  `freelancer_page_controller.dfy`, `home_page_controller.dfy`: the four
  page controllers, as classes whose methods rewrite the table and their
  own state.
- `table_widget.dfy`, `text_edit_widget.dfy`, `combobox_withadd.dfy`:
  the shared table with its sum row and hidden
  columns, the search panel with its two-click range calendar, and the
  drop-down with its trailing "add" entry.
- `helpers.dfy`: the Arabic-script tests and the width-driven line
  splitter. `singletone.dfy`: the three singleton patterns.
- `wrappers.dfy`: `Option` and `Result`; an `Err` is an exception that
  escapes the modelled call.

Money is an exact `real`, as `Decimal` is exact for the amounts the
program produces. Results of database calls, dialog answers, the font's
width function and the current date are parameters.

### Behaviour kept as written

Where the code does something other than what its names or the design
suggest, the model follows the code:

- In the order ledger's recalculation, the payment-discount test compares
  a `Decimal` with a text (controllers/company_owner_controller.py:274), so
  that branch always fires. It stores the coupon text under the memo's
  'payment' key and uses the total of orders read before the pass rewrites
  it. Creating the memo for a new row replaces the whole `rows_data` dict.
  One pass is therefore not idempotent; two passes reach a fixed point
  (`CompanyOwnerControllers.RecalcSettlesAfterTwoPasses`).
- The order table has two column orders. The recalculation and the headers
  put coupon at 6, payment method at 7 and total of orders at 8.
  `update_or_add_company` unpacks the row in the loader's order: retrieved
  order at 6, coupon at 7, payment method at 8. So the coupon column is
  sent as `retrieved_order` (`CompanyOwnerControllers.UpsertSendsCouponAsRetrieved`).
- `CompanyOwner.add` never adds a new coupon to the session, and assigns a
  new shipping company or payment method object to an integer foreign key,
  so the commit fails. `CompanyOwner.update` leaves a new payment method
  unlinked, and fails on a new coupon.
- The company page stores, as the remaining amount, the value read before
  the edit, and writes what `Company.add` returns (a future) into the id
  cell.
- The freelancer page's `set_item_id` reads `result.id` from the integer
  that `FreeLancer.add` returns, so it raises even after a successful add.
- The employees page always creates an employee with payment status
  PENDING, and the date back-fill branches (`x and not x`) never fire.
- In the search panel, `db not in self.rows` compares a result list with
  rows and always holds, so a repeated search appends its rows again. The
  excluded-column list spells 'retrevied_order', so `retrieved_order` stays
  searchable. Employee search rows use a column order different from the
  page's.
- The table's `remove_action_handler` guard `!= -1` compares text with an
  int and always holds.

## Model

| member | source | states |
|---|---|---|
| Constant.PaymentGetStr | models/constant.py:9-17 | a payment-status member gets a text; anything else gives None |
| Constant.PaymentGetStatus | models/constant.py:19-27 | exactly the three payment texts give a member; anything else gives None |
| Constant.OrderGetStr | models/constant.py:35-43 | an order-status member gets a text; anything else gives None |
| Constant.OrderGetStatus | models/constant.py:45-53 | exactly the three order texts give a member; anything else gives None |
| Constant.PaymentStrThenStatus | models/constant.py:9-27 | `get_status(get_str(s)) == s` for every payment status |
| Constant.OrderStrThenStatus | models/constant.py:35-53 | `get_status(get_str(s)) == s` for every order status |
| Constant.PaymentStatusThenStr | models/constant.py:9-27 | `get_str(get_status(t)) == t` for each of the three payment texts |
| Constant.OrderStatusThenStr | models/constant.py:35-53 | `get_str(get_status(t)) == t` for each of the three order texts |
| Constant.StatusOfMemberIsNone | models/constant.py:19-27 | `get_status` of an enum member (of either enum) is None |
| Constant.StrOfOtherEnumIsNone | models/constant.py:9-17 | `get_str` of the other enum's member is None |
| Constant.TextsDisjoint | models/constant.py:9-53 | no text is read as both a payment and an order status |
| Constant.RoleValue | models/constant.py:56-61 | role values lie in 0..4, and 4 is exactly ADMIN |
| Constant.RoleOf | models/constant.py:56-61 | `UserRoles(n)` succeeds exactly for 0..4 |
| Constant.RoleValueRoundTrip | models/constant.py:56-61 | role values are distinct and `UserRoles(role.value) == role` |
| Alchemy.ColumnsName | models/alchemy.py:9-61 | the four known models get their fixed column list, always starting with "id"; any other object raises |
| Alchemy.BlankValue | models/alchemy.py:76-91 | integer and Decimal columns get `Decimal(0)`, datetime columns the text "YYYY-MM-DD"; only a type with no rule gets none |
| Alchemy.BlankRow | models/alchemy.py:64-93 | raises exactly when a column the loop reaches has an unknown type; otherwise every column except the timestamps gets its blank value, and "id" is -1 |
| Alchemy.LowerFacts | models/alchemy.py:180 | lower-casing keeps the length, leaves no capital, and is idempotent |
| Alchemy.OperatorNamed | models/alchemy.py:183-239 | a name that is recognised names an operator whose name it is |
| Alchemy.OperatorNameRoundTrip | models/alchemy.py:183-239 | each of the eleven operator names selects its own branch |
| Alchemy.OperatorFilter | models/alchemy.py:183-236 | only `between` and `or` can raise, and they raise ValueError |
| Alchemy.BuildFilter | models/alchemy.py:167-239 | an operator name unknown after lower-casing raises ValueError; a known one builds its branch's filter |
| Alchemy.OperatorCaseInsensitive | models/alchemy.py:180 | an operator written in any case builds the same filter as its lower-case form |
| Alchemy.BuildFilterByName | models/alchemy.py:180-239 | each operator's own name builds that operator's filter |
| Alchemy.OrSelectsMembers | models/alchemy.py:230-236 | `or` over a list succeeds; over a non-empty list it keeps exactly the rows whose column equals one of its values, NULL included, and over the empty list the empty `or_()` adds no WHERE clause and keeps every row |
| Alchemy.EmptyOrKeepsAll | models/alchemy.py:187-236 | `or []` keeps every row, while `in []` keeps none |
| Alchemy.InSelects | models/alchemy.py:191-194 | `in` keeps the non-NULL rows whose column is in the list; a non-list value is wrapped, so `in` then selects like `eq` |
| Alchemy.NullInListOrOr | models/alchemy.py:191-236 | `in [None]` matches no row while `or [None]` matches the NULL rows |
| Alchemy.BetweenBounds | models/alchemy.py:205-227 | `between` succeeds exactly with start and end given and both dates or both numbers, and then bounds by them |
| Alchemy.UnknownOperator | models/alchemy.py:238-239 | any other operator name is refused with ValueError |
| Alchemy.Where | models/alchemy.py:99-164 | a missing search column, then a missing order column, then a refused filter each fail; otherwise the query has the filter, descending order iff the direction lower-cases to "desc", the limit and every relationship eager-loaded |
| ComboBoxWithAddWidget.ColumnTable | view/widgets/combobox_withadd_widget.py:178-185 | the coupon, payment and shipping column names, and only they, select the coupon, payment and shipping tables |
| ComboBoxWithAddWidget.Reanchored | view/widgets/combobox_withadd_widget.py:189-193 | with a remembered "add" entry the list ends with a fresh "add" entry, and its length is unchanged when the old entry was in range |
| ComboBoxWithAddWidget.AppendThenReanchor | view/widgets/combobox_withadd_widget.py:249-259 | an entry added after the "add" entry ends up just before the fresh "add" entry, and the other entries keep their places |
| ComboBoxWithAddWidget.IndexAfterRemoval | view/widgets/combobox_withadd_widget.py:187-191 | after a removal the current index stays in range and is -1 exactly when nothing was selected or the list became empty |
| ComboBoxWithAddWidget.ReanchoredIndex | view/widgets/combobox_withadd_widget.py:189-193 | after re-anchoring, an unremembered "add" entry leaves the selection alone; a selected entry other than the removed one stays selected (one place lower when the removed entry was before it); a selected "add" entry hands the selection to the entry that takes its place |
| ComboBoxWithAddWidget.AddWhileAnchored | view/widgets/combobox_withadd_widget.py:242-259 | an entry added while the "add" entry is last and remembered keeps the selected entry selected, and when the "add" entry was selected the new entry becomes selected |
| ComboBoxWithAddWidget.FindText | view/widgets/combobox_withadd_widget.py:269 | the first entry with exactly that text, or -1 when no entry has it |
| ComboBoxWithAddWidget.ComboBoxWithAdd.constructor | view/widgets/combobox_withadd_widget.py:133-149 | an empty list, nothing selected, and no "add" entry remembered |
| ComboBoxWithAddWidget.ComboBoxWithAdd.Append | view/widgets/combobox_withadd_widget.py:196-197 | the entry is appended; the first entry of an empty list becomes current |
| ComboBoxWithAddWidget.ComboBoxWithAdd.RemoveItem | view/widgets/combobox_withadd_widget.py:187-191 | an entry in range is taken out and the current index moves as Qt moves it; an index out of range changes nothing |
| ComboBoxWithAddWidget.ComboBoxWithAdd.SetCurrentIndex | view/widgets/combobox_withadd_widget.py:237-239 | the index is selected when in range, and nothing otherwise |
| ComboBoxWithAddWidget.ComboBoxWithAdd.AddDelegateIndex | view/widgets/combobox_withadd_widget.py:189-193 | the list is re-anchored, `add_item_index == count - 1` afterwards, and the current index moves as Qt moves it (`ReanchoredIndex`) |
| ComboBoxWithAddWidget.ComboBoxWithAdd.AddItem | view/widgets/combobox_withadd_widget.py:195-198 | the entry is appended at the end with the hidden value on the user role |
| ComboBoxWithAddWidget.ComboBoxWithAdd.HandleAddNewItem | view/widgets/combobox_withadd_widget.py:242-259 | nothing changes unless both dialog texts are truthy; an unreadable amount raises before any change; a column with no table raises after the entry is appended; otherwise the entry is appended, the record added to the column's table and the "add" entry re-anchored, the current index moves as Qt moves it (`ReanchoredIndex`), and the other two tables, the owners, the companies and the id counter change only by that one record |
| ComboBoxWithAddWidget.ComboBoxWithAdd.HandleActivation | view/widgets/combobox_withadd_widget.py:233-240 | any index other than the "add" entry changes nothing; activating the "add" entry selects index count-2, or -1 when count <= 1, before the dialog; with a filled answer that selection then goes through `handle_add_new_item`, so the entries, the tables, the id counter and the current index are those it gives from that selection, and an unreadable amount keeps the selection and raises |
| ComboBoxWithAddWidget.ComboBoxWithAdd.CurrentData | view/widgets/combobox_withadd_widget.py:261-266 | None with nothing selected, otherwise the current entry's user-role value |
| ComboBoxWithAddWidget.ComboBoxWithAdd.SetCurrentText | view/widgets/combobox_withadd_widget.py:268-271 | an absent text changes nothing; otherwise the first entry with that text becomes current |
| ComboBoxWithAddWidget.ComboBoxWithAdd.RemoveCurrentItem | view/widgets/combobox_withadd_widget.py:169-187 | removes only with an entry selected and a Yes answer: the record with that text leaves the column's table, the owners (and for a shipping company the companies) that referenced it have that foreign key set to NULL and nothing else changes, and the entry leaves the list; a column with no table raises first; removing an entry before the "add" entry leaves `add_item_index` pointing past the list |
| CompanyOwnerModels.FindIndex | models/company_owner.py:46-48 | the position of the first record with the key, or the table's length when none has it |
| CompanyOwnerModels.FindByKey | models/company_owner.py:44-56 | (lines 163-174 and 271-281 are the same for shipping companies and payment methods) `get` finds the first record whose natural key equals the argument, and None exactly when no record has it |
| CompanyOwnerModels.IdOf | models/company_owner.py:514 | the one integer primary key that `id == value` selects on SQLite, or none: numbers by value, and a text that is an integer literal ("7") as that integer |
| CompanyOwnerModels.AddLinked | models/company_owner.py:60-80 | (likewise lines 178-198 and 285-305) `add` inserts exactly when the key has non-zero length, the amount is truthy, the key is not taken and both values bind; the new record is appended and `get` then finds it |
| CompanyOwnerModels.LinkForAdd | models/company_owner.py:437-472 | a falsy key links nothing; an existing key links that record's id; a new coupon links None and a new shipping or payment links the unsaved object |
| CompanyOwnerModels.OwnerAddCell | models/company_owner.py:474-490 | each column of the new row holds the value `add` passed when it is not None, and the column default otherwise |
| CompanyOwnerModels.OwnerAddRefused | models/company_owner.py:474-504 | a value that does not bind to its column, or NULL in a NOT NULL column, makes `add` return False |
| CompanyOwnerModels.OwnerAddOrderStatus | models/company_owner.py:477 | the order status goes through `get_status`: only an Arabic text is read, and anything else (an enum member included) stores PENDING |
| CompanyOwnerModels.OwnerAddPaymentStatus | models/company_owner.py:482 | likewise for the payment status |
| CompanyOwnerModels.OwnerAddNewShippingFails | models/company_owner.py:451-504 | a new shipping name assigns an object to the integer foreign key, so `add` returns False |
| CompanyOwnerModels.OwnerAddNewPaymentFails | models/company_owner.py:463-504 | a new payment name does the same, so `add` returns False |
| CompanyOwnerModels.OwnerAddCouponLink | models/company_owner.py:437-487 | the coupon foreign key is the id of the coupon with that code, and None for a falsy or new code |
| CompanyOwnerModels.OwnerAddShippingLink | models/company_owner.py:451-488 | after a successful `add`, a truthy shipping name belongs to an existing company whose id is linked; a falsy name links nothing |
| CompanyOwnerModels.OwnerAddPaymentLink | models/company_owner.py:463-484 | likewise for the payment method |
| CompanyOwnerModels.OwnerAddNeedsStoreName | models/company_owner.py:474-504 | a None store name leaves the NOT NULL column empty, so `add` returns False |
| CompanyOwnerModels.LookUp | models/company_owner.py:522-537 | a found record exists and SQLite's `id == updated["id"]` holds for it, an integer text included; a dict without "id" raises KeyError |
| CompanyOwnerModels.OwnerPaymentPart | models/company_owner.py:543-561 | without a truthy payment name the record is unchanged; otherwise only `payment_id` changes |
| CompanyOwnerModels.OwnerShippingPart | models/company_owner.py:563-583 | only `shipping_id` changes, and only for a truthy name; a new company is added under fresh ids, and every other table entry was there before |
| CompanyOwnerModels.OwnerCouponPart | models/company_owner.py:585-608 | on success only `coupons_id` changes |
| CompanyOwnerModels.UpdateOwnerRecord | models/company_owner.py:510-634 | the outcome of `CompanyOwner.update`; a found record exists, the stored row is valid, and new shipping ids are fresh |
| CompanyOwnerModels.OwnerUpdateNotFound | models/company_owner.py:535-537 | an id for which SQLite's `id == value` holds for no record gives False; an integer text naming a record is found |
| CompanyOwnerModels.OwnerUpdateUnknownKeyFails | models/company_owner.py:611-634 | a key that is neither a column nor a relation part makes the update raise whenever the record exists |
| CompanyOwnerModels.OwnerUpdateNewCouponFails | models/company_owner.py:600-634 | a coupon code that no coupon has makes `session.add(None)` raise whenever the record exists |
| CompanyOwnerModels.OwnerUpdateWritesNonNone | models/company_owner.py:619-623 | after a successful update every key is a column; a non-None value is written, and a None value keeps the stored one unless a relation part set that foreign key |
| CompanyOwnerModels.OwnerUpdateAddsShipping | models/company_owner.py:574-583 | a new shipping name is added under the next id and linked, unless the dict sets `shipping_id` itself |
| CompanyOwnerModels.OwnerUpdateNewPaymentUnlinked | models/company_owner.py:553-561 | a new payment name leaves `payment_id` None, unless the dict sets it itself |
| CompanyOwnerModels.CompanyUpdateWritesAll | models/company_owner.py:826-828 | a successful `Company.update` writes every plain key's value, None included |
| CompanyOwnerModels.CompanyAddRow | models/company_owner.py:721-774 | every failure of `Company.add` is raised again as "Error adding company" |
| CompanyOwnerModels.CompanyAddNewShippingFails | models/company_owner.py:739-755 | a shipping name that no company has makes `Company.add` fail, with or without a percentage |
| CompanyOwnerModels.CompanyAddDefaultsDate | models/company_owner.py:689 | a debt date left None gets today's date |
| CompanyOwnerModels.Database.constructor | models/company_owner.py:29-36 | all tables start empty |
| CompanyOwnerModels.Database.AddLinkedRecord | models/company_owner.py:60-80 | (likewise lines 178-198 and 285-305) the kind's table becomes AddLinked's result and the new id is returned, or the table is unchanged and False is returned; the other tables are untouched |
| CompanyOwnerModels.Database.RemoveLinkedRecord | models/company_owner.py:127-136 | (likewise lines 245-253 and 353-361) the first record with the key is deleted and every owner referencing it, and for a shipping company every company, gets NULL in that foreign key with no other column changed; with none, the rollback leaves every table as it was |
| CompanyOwnerModels.Detach | models/company_owner.py:386-392 | after the delete no row references the removed id through that foreign key, no other column changes, and rows that did not reference it are untouched |
| CompanyOwnerModels.Database.OwnerAdd | models/company_owner.py:415-506 | the row is committed under a fresh id and returned, or nothing changes and False is returned |
| CompanyOwnerModels.Database.OwnerUpdate | models/company_owner.py:510-634 | the owner and shipping tables take the update's outcome; on any error nothing changes and the error is raised again |
| CompanyOwnerModels.Database.CompanyAdd | models/company_owner.py:721-774 | the row is committed under a fresh id, or nothing changes and the error is raised |
| CompanyOwnerModels.Database.CompanyUpdate | models/company_owner.py:778-835 | False when no record has the id; otherwise None, having committed the merged record or rolled back |
| Persistence.InsertedRow | models/company_owner.py:474-499 | the inserted row has every column plus the id; a column gets the given value when it is not None, and its default otherwise |
| Persistence.Insert | models/company_owner.py:498-504 | the commit stores exactly the inserted row when the database accepts it, and raises DatabaseError exactly when it does not |
| Persistence.Assign | models/company_owner.py:619-623 | after the `setattr` loop a written key holds the dict's value and every other key keeps the record's value |
| Persistence.SetAttributes | models/company_owner.py:619-623 | the key-by-key `setattr` loop yields `Assign` whatever the order of the keys |
| Persistence.HasUnknownKey | models/company_owner.py:611-617 | true exactly when some key of the update dict is neither a column nor a relation key |
| EmployeeModels.EmployeeAddCell | models/employee.py:71-81 | each column of the new row holds the value passed when it is not None, and the column default otherwise |
| EmployeeModels.EmployeeAddStatus | models/employee.py:78 | the payment status goes through `get_status`: only an Arabic text is read, and an enum member stores PENDING |
| EmployeeModels.EmployeeAddNeedsName | models/employee.py:71-87 | a None name makes `add` fail; a successful `add` had a name that binds to text |
| EmployeeModels.BackFillDefaults | models/employee.py:116-121 | the back-fill loop resets exactly the NULL columns that have a default, whatever the visiting order |
| EmployeeModels.BackFillFills | models/employee.py:116-121 | after the back-fill no column with a default is NULL, and non-NULL values are kept |
| EmployeeModels.BackFillIdempotent | models/employee.py:116-121 | back-filling twice is the same as back-filling once |
| EmployeeModels.EmployeeUpdateNotFound | models/employee.py:95-101 | `update` returns False exactly when the id is given and SQLite's `id == value` holds for no employee, so an integer text such as "7" finds employee 7 |
| EmployeeModels.TextIdFindsEmployee | models/employee.py:95-121 | an id typed as the text "7" does not give False, and a committed update overwrites employee 7 |
| EmployeeModels.EmployeeUpdateUnknownKeyFails | models/employee.py:102-128 | a key that names no column makes `update` raise and roll back |
| EmployeeModels.MergedCell | models/employee.py:113-121 | a merged column holds the given value, or the old one when the key is absent, with None replaced by the column default |
| EmployeeModels.EmployeeUpdateWrites | models/employee.py:113-125 | a committed update holds every given value, None included, except that None becomes the column default where there is one |
| EmployeeModels.EmployeeUpdateNameNoneFails | models/employee.py:113-128 | setting the name to None can never be committed |
| EmployeeModels.EmployeeTable.constructor | models/employee.py:25-38 | the table starts empty |
| EmployeeModels.EmployeeTable.Add | models/employee.py:59-89 | the row is committed under a fresh id and returned, or nothing changes and False is returned |
| EmployeeModels.EmployeeTable.Update | models/employee.py:91-130 | False when no employee has the id; otherwise None, having committed the merged record or changed nothing |
| EmployeeModels.Search | models/employee.py:169-174 | the `where` query with the default newest-first ordering is issued once, and issued a second time exactly when the first result is empty, in which case the second result is returned; when `where` raises (unknown search or order column, refused filter), `get_session` swallows the exception, no query is issued and `search` returns None |
| PyValues.Len | models/company_owner.py:69 | `len` is defined exactly for text and lists |
| PyValues.DigitValue | controllers/company_owner_controller.py:36 | a digit character has a value below ten |
| PyValues.Strip | controllers/company_owner_controller.py:195-197 | the stripped text neither starts nor ends with whitespace |
| PyValues.ScanDecimal | controllers/company_owner_controller.py:198 | a text `Decimal` accepts is read as digit runs |
| PyValues.ToDecimal | controllers/company_owner_controller.py:190 | `Decimal(v)` keeps ints and Decimals, parses text, and raises for None, dates, enum members and ORM objects |
| PyValues.RoundHalfUpNat | controllers/company_owner_controller.py:191 | half-up rounding lands within half a unit, ties going up |
| PyValues.RoundHalfEvenNat | controllers/company_owner_controller.py:205-206 | half-even rounding lands within half a unit |
| PyValues.FormatFixed | controllers/company_owner_controller.py:205-206 | `f"{x:.2f}"` is never empty |
| PyValues.ParseIsoDate | controllers/company_owner_controller.py:35 | a date read from "yyyy-MM-dd" text is valid and the text has ten characters |
| PyValueFacts.DigitsOfNat | controllers/company_owner_controller.py:205-206 | the digits printed for a number read back as that number |
| PyValueFacts.FormatIsStripped | controllers/company_owner_controller.py:195-206 | what `format_decimal` prints has no surrounding whitespace |
| PyValueFacts.FormatParseRoundTrip | controllers/company_owner_controller.py:198-206 | `Decimal(f"{x:.{k}f}")` succeeds and gives `x` rounded half-even to k places |
| PyValueFacts.RoundHalfEvenKeepsPlaces | controllers/company_owner_controller.py:205-206 | a value with at most k places is not changed by the rounding |
| PyValueFacts.Format2ParseRoundTrip | controllers/company_owner_controller.py:198-206 | a value with two places prints and reads back unchanged |
| PyValueFacts.QuantizeHasPlaces | controllers/company_owner_controller.py:191-199 | half-up quantisation lands on two places |
| PyValueFacts.QuantizeClose | controllers/company_owner_controller.py:191-199 | quantisation moves a value by at most half a cent |
| PyValueFacts.QuantizeKeepsPlaces | controllers/company_owner_controller.py:191-199 | quantisation fixes values that already have two places |
| PyValueFacts.QuantizeOdd | controllers/company_owner_controller.py:191-199 | quantisation is symmetric about zero |
| PyValueFacts.QuantizeTiesAwayFromZero | controllers/company_owner_controller.py:191 | ROUND_HALF_UP takes 0.125 to 0.13 and -0.125 to -0.13 |
| PyValueFacts.FormatTiesToEven | controllers/company_owner_controller.py:205-206 | the `.2f` format takes 0.125 to 0.12 and 0.135 to 0.14 |
| PyValueFacts.NumericTextParses | controllers/company_owner_controller.py:36-37 | digit-only text reads as the number its digits spell |
| PyValueFacts.CentsClosed | controllers/company_owner_controller.py:297-311 | sums, differences and negations of two-place values have two places |
| Grid.ItemAt | controllers/company_owner_controller.py:209-217 | `item(r, c)` exists exactly for a row in range with that column set, and is that cell |
| Grid.SetItem | controllers/company_owner_controller.py:257-259 | writing a cell changes that cell only |
| Grid.RowData | controllers/company_owner_controller.py:57-60 | `row_data` has one entry per column: the stored value, or `[]` where there is no item |
| Grid.DisplayAt | controllers/company_owner_controller.py:79-92 | the display text is read exactly where an item exists |
| Grid.StoredAt | controllers/company_owner_controller.py:81-92 | a missing item reads as None |
| Grid.Classify | controllers/company_owner_controller.py:35-41 | an edited cell stores a Decimal, a date or its own text |
| Grid.Reclassify | controllers/company_owner_controller.py:32-41 | the text is written back unchanged, and an unclassified column keeps its stored value |
| Grid.ClassifyNumericIsDecimal | controllers/company_owner_controller.py:36-37 | digit-only text in a cell that stored nothing truthy is stored as the Decimal that `Decimal(text)` reads |
| Grid.ClassifyDateRoundTrip | controllers/company_owner_controller.py:35-39 | a date is stored only for text not taken as a number, and its ISO form is that text again |
| Grid.AsciiPadRoundTrip | controllers/company_owner_controller.py:35 | the fields of "yyyy-MM-dd" text read and print back as the same digits |
| Grid.NumericDataCents | controllers/company_owner_controller.py:183-203 | every `get_numeric_data` reading has two places, and a usable stored value is read to within half a cent |
| Grid.NumericDataOfStored | controllers/company_owner_controller.py:187-191 | a cell storing a non-zero two-place Decimal reads as that amount |
| Grid.NumericDataOfText | controllers/company_owner_controller.py:195-199 | a cell storing nothing truthy that shows `format_decimal(x)` for a two-place x reads as x |
| Grid.NumericDataStable | controllers/company_owner_controller.py:183-206 | rewriting a cell's text with `format_decimal` of its own reading does not change the reading |
| Grid.AmountTwice | controllers/company_owner_controller.py:298-301 | a second amount written to a cell replaces the first |
| Grid.NumericDataOfAmount | controllers/company_owner_controller.py:183-206 | a cell given a two-place amount reads back as that amount, zero included |
| TableWidgets.WithoutSumRow | view/widgets/table_widget.py:262-264 | the old sum row is dropped only when its recorded index is in range, taking at most one row away |
| TableWidgets.NumericalOf | view/widgets/table_widget.py:258-260 | a column is numerical exactly when some recorded delegate for it is a NumericalDelegate |
| TableWidgets.LoadRow | view/widgets/table_widget.py:308-325 | a loaded row has every column, the given items where there are any, empty cells past their end, and read-only columns not editable |
| TableWidgets.IndexOf | view/widgets/table_widget.py:67 | `columns.index("id")` is the first position of "id" |
| TableWidgets.TableWidget.constructor | view/widgets/table_widget.py:34-95 | a new table is empty, has one column per header, and hides the "id" column |
| TableWidgets.TableWidget.AddDelegate | view/widgets/table_widget.py:162-183 | the column's delegate is appended and nothing else changes |
| TableWidgets.TableWidget.SetReadOnlyColumns | view/widgets/table_widget.py:159-160 | the read-only columns are replaced and nothing else changes |
| TableWidgets.TableWidget.CalculateColumnSum | view/widgets/table_widget.py:112-137 | the loop gives `ColumnSum` over every row but the last, formatted with two places, or the first exception a row raises |
| TableWidgets.TableWidget.RowValue | view/widgets/table_widget.py:115-135 | one row adds nothing for a missing cell or falsy value, reads text as a Decimal, skips a refused order in columns 4, 5 and 8 of the company-owner table, and raises for an unaddable value |
| TableWidgets.TableWidget.AddSumRow | view/widgets/table_widget.py:251-281 | the numerical delegates join the numerical columns, an in-range old sum row is removed, and a new last row holds `SumCells` of the rows before it, its index recorded; a failing sum raises and leaves the other fields unchanged |
| TableWidgets.TableWidget.UpdateSums | view/widgets/table_widget.py:97-101 | redoes the sum row as `add_sum_row` |
| TableWidgets.TableWidget.AddRows | view/widgets/table_widget.py:283-335 | the table holds one loaded row per given row, followed by a fresh sum row over exactly those rows |
| TableWidgets.TableWidget.RemoveActionHandler | view/widgets/table_widget.py:394-409 | the sum row is never removed; any other row has its id text passed to `remove`, is removed, and the sum row index moves up by one before the sums are redone: the remaining rows are followed by a new last row, `sum_row_index` points at it, and that row is SumCells of the rows above it, or the handler returns SumCells' error |
| TableWidgets.TableWidget.HideAction | view/widgets/table_widget.py:411-422 | a column is hidden exactly when fewer than `columnCount - 2` of columns 1.. were hidden, and otherwise nothing changes |
| TableWidgets.TableWidget.ShowAllAction | view/widgets/table_widget.py:424-428 | every column from 1 on except the id column is shown, and the other hidden columns stay hidden |
| CompanyOwnerControllers.SentOwners | controllers/company_owner_controller.py:101-173 | an add that inserts adds exactly the new id, nothing else is added, and no other owner changes unless an update names it |
| CompanyOwnerControllers.SentRows | controllers/company_owner_controller.py:174-179 | only the sent row can change, and the table keeps its length |
| CompanyPageControllers.SentCompanies | controllers/company_page_controller.py:107-140 | an add that inserts adds exactly the new id, nothing else is added, and no other company changes unless an update names it |
| CompanyPageControllers.SentRows | controllers/company_page_controller.py:118-119 | only the sent row can change, and the table keeps its length |
| HomePageControllers.SentEmployees | controllers/home_page_controller.py:40-70 | an add that inserts adds exactly the new id, nothing else is added, and no other employee changes unless an update names it |
| HomePageControllers.SentRows | controllers/home_page_controller.py:49-51 | only the id cell of the sent row can change, and the table keeps its length |
| PyValues.TextToDecimal | view/widgets/combobox_withadd_widget.py:249 | `Decimal(text)` succeeds exactly when the text is a decimal literal, and its value is the literal's |
| PyValueFacts.StrDecimalRoundTrip | controllers/company_owner_controller.py:103-104 | `Decimal(str(d))` gives back `d` with its exponent whenever `d`'s value fits its places |
| PyValueFacts.StrWholeDecimal | controllers/company_owner_controller.py:103-104 | `str()` of a Decimal with no places is the digits of its value with no point |
| Grid.ClassifiedNumberStr | controllers/company_owner_controller.py:103-104 | a typed number is stored as a Decimal whose `str()` is its digits, with no point |
| Grid.TypedOrderNumberStr | controllers/company_owner_controller.py:103-104 | the order number typed as "1001" is sent as "1001" |
| TableWidgets.TableWidget.UpdateColumnStatus | view/widgets/table_widget.py:103-110 | every row's cell in the column becomes a completed payment, shown by its text, and nothing else changes |
| TableWidgets.ErrorPersists | view/widgets/table_widget.py:112-137 | once a row raises, every longer scan raises the same exception |
| TableWidgets.SumCellsErrorPersists | view/widgets/table_widget.py:270-279 | once a column sum raises, filling more columns raises the same exception |
| TableWidgets.ColumnSumPrefix | view/widgets/table_widget.py:114 | a column sum reads only the rows it scans, so the sum row never changes it |
| TableWidgets.RefusedRowNotCounted | view/widgets/table_widget.py:125-133 | in the company-owner table a refused order adds nothing to columns 4, 5 and 8, whatever it stores there |
| TableWidgets.SumCellsShape | view/widgets/table_widget.py:270-279 | the sum row has exactly the table's columns, none editable or storing a value, the numerical ones showing their two-place sum and the rest empty |
| TableWidgets.SumRowReplaced | view/widgets/table_widget.py:262-268 | an in-range sum row is replaced, not duplicated |
| TableWidgets.CountHiddenBound | view/widgets/table_widget.py:412-415 | the hidden count over a range is at most the range's width |
| TableWidgets.SomeColumnVisible | view/widgets/table_widget.py:412-419 | fewer hidden columns than columns in a range leaves one visible |
| TableWidgets.HideLeavesAColumn | view/widgets/table_widget.py:411-422 | when `hide_action` hides a column, some column from 1 on is still visible |
| TableWidgets.CompletedCellConsistent | view/widgets/table_widget.py:109-110 | the completed cell's text reads back through `get_status` as the status it stores, and `get_str` of that status is its text |
| CompanyOwnerControllers.MemoStep | controllers/company_owner_controller.py:219-239 | after the memo step the row has a memo |
| CompanyOwnerControllers.WriteRow | controllers/company_owner_controller.py:252-325 | the pass writes gross profit, total discount, total of orders (salla total plus shipping), the reformatted salla total and, when the status shows text, the retrieved cell; every other cell is left as it was |
| CompanyOwnerControllers.RecalcMemoRows | controllers/company_owner_controller.py:219-239 | first touch of a row replaces `rows_data` by a dict holding only that row; otherwise every other row's memo is kept |
| CompanyOwnerControllers.DiscountsSteps | controllers/company_owner_controller.py:271-291 | the payment-method discount is always recomputed and stores the coupon text as 'payment'; the coupon discount is kept only when its text is unchanged and its cached value positive; the total discount is their sum |
| CompanyOwnerControllers.RecalcPaymentDiscount | controllers/company_owner_controller.py:271-279 | the payment-method discount of a pass is that percentage of the total of orders read before the pass, and the memo ends not pre-calculated |
| CompanyOwnerControllers.RecalcCouponDiscount | controllers/company_owner_controller.py:281-291 | the coupon discount is the cached one exactly when the memo's coupon is the row's and positive, else the coupon percentage of the salla total |
| CompanyOwnerControllers.RecalcRetrieved | controllers/company_owner_controller.py:252-264 | a refused order's retrieved cell becomes the salla total, any other status text makes it "0" storing 0, and no status text leaves it alone |
| CompanyOwnerControllers.RecalcTotals | controllers/company_owner_controller.py:293-316 | total of orders becomes salla total plus shipping; total discount is the sum of the cached discounts, written and cached; the salla-total cell is reformatted and keeps its stored value |
| CompanyOwnerControllers.RecalcProfit | controllers/company_owner_controller.py:318-329 | gross profit is salla total less cost and total discount, negated for a refused order, and `db_values` carries it with the total discount |
| CompanyOwnerControllers.RecalcFrame | controllers/company_owner_controller.py:208-329 | a pass changes no other row, keeps the row's cells and their editability, and changes only columns 4, 5, 8, 9 and 11 |
| CompanyOwnerControllers.ReadingsAfterPass | controllers/company_owner_controller.py:242-301 | after a pass every reading of the row is unchanged except the total of orders, which reads as salla total plus shipping |
| CompanyOwnerControllers.WrittenRowReads | controllers/company_owner_controller.py:293-301 | the rewritten salla-total cell reads as before and the total-of-orders cell reads as the sum written |
| CompanyOwnerControllers.WriteRowTwice | controllers/company_owner_controller.py:252-325 | writing a row twice with the same salla total and shipping is one write with the second discount and profit |
| CompanyOwnerControllers.DiscountsSettle | controllers/company_owner_controller.py:271-316 | a second discount step on the same readings changes nothing |
| CompanyOwnerControllers.SecondPassCells | controllers/company_owner_controller.py:182-329 | a second pass over an unedited row changes only its gross-profit and total-discount cells |
| CompanyOwnerControllers.SecondRecalcRow | controllers/company_owner_controller.py:252-325 | on one row's cells: a second recalculation with the same salla total and shipping rewrites only gross profit and total discount |
| CompanyOwnerControllers.SettledPassRepeats | controllers/company_owner_controller.py:182-329 | once the total of orders reads as salla total plus shipping, a pass is a fixed point of the table, the memo dict and `db_values` |
| CompanyOwnerControllers.RecalcSettlesAfterTwoPasses | controllers/company_owner_controller.py:182-329 | a third pass over an unedited row gives exactly what the second gave |
| CompanyOwnerControllers.DiscountsTwice | controllers/company_owner_controller.py:271-316 | with only the total of orders changed, the total discount moves by the difference of the two payment-method discounts |
| CompanyOwnerControllers.SecondPassDiscount | controllers/company_owner_controller.py:271-316 | the second pass's total discount differs from the first's by the payment-method discount on salla total plus shipping less that on the total of orders first read |
| CompanyOwnerControllers.NormalizeId | controllers/company_owner_controller.py:97-98 | None and 0 become -1, every other id is kept |
| CompanyOwnerControllers.RelationPart | controllers/company_owner_controller.py:153-169 | a relation part is present exactly when name and amount are truthy, the name non-empty and the amount readable as a Decimal; it keys on the name and sends the amount when it is non-zero |
| CompanyOwnerControllers.UpdateFields | controllers/company_owner_controller.py:129-151 | an update carries exactly the twelve unpacked fields and the profit |
| CompanyOwnerControllers.Relations | controllers/company_owner_controller.py:153-169 | each relation is in the update exactly when its part is present |
| CompanyOwnerControllers.RelationPartPresent | controllers/company_owner_controller.py:79-92 | for cell texts, a part that does not raise is present exactly when text and stored value are truthy |
| CompanyOwnerControllers.RequestChoice | controllers/company_owner_controller.py:97-173 | an add exactly when the id is None, 0 or -1 and the store name is truthy and non-empty; nothing when only the store name fails; otherwise an update or a relation part's error |
| CompanyOwnerControllers.UpsertChoice | controllers/company_owner_controller.py:52-173 | the same choice on the table, and a missing id cell (unpacked as `[]`) never gives an add |
| CompanyOwnerControllers.RequestUpdateFields | controllers/company_owner_controller.py:128-173 | an update's fields, the profit and total discount from `db_values`, retrieved and total demand from unpacked columns 6 and 9, and each relation present exactly when its part is |
| CompanyOwnerControllers.UpsertUpdateFields | controllers/company_owner_controller.py:52-173 | on the table, each relation of an update is present exactly when its cell's text and stored value are truthy |
| CompanyOwnerControllers.UpsertSendsCouponAsRetrieved | controllers/company_owner_controller.py:57-78 | the unpacking order sends the coupon column's stored value as `retrieved_order` and the retrieved column's as `total_demand` |
| CompanyOwnerControllers.ResultId | controllers/company_owner_controller.py:179-180 | `result.id` is readable exactly for an ORM record |
| CompanyOwnerControllers.IdItem | controllers/company_owner_controller.py:179-180 | the id cell stores the id and keeps its editability |
| CompanyOwnerControllers.UpdateDiscounts | controllers/company_owner_controller.py:269-316 | the discount statements compute the memo `Discounts` specifies, ending not pre-calculated |
| CompanyOwnerControllers.RecalcCells | controllers/company_owner_controller.py:252-329 | the cell writes succeed exactly when the row has the cells they touch, a missing one raising AttributeError, and give the row `RecalcRow` specifies |
| CompanyOwnerControllers.CompanyOwnerController.constructor | controllers/company_owner_controller.py:22 | the controller starts with an empty `rows_data` |
| CompanyOwnerControllers.CompanyOwnerController.StepMemo | controllers/company_owner_controller.py:219-239 | the memo step raises AttributeError exactly when a memo exists and a cell it reads is missing, and otherwise leaves `rows_data` as `MemoStep` says |
| CompanyOwnerControllers.CompanyOwnerController.UpdateFieldValue | controllers/company_owner_controller.py:182-329 | `update_field_value` succeeds exactly when the row has the cells it touches and leaves the table, memo dict and `db_values` `Recalc` specifies |
| CompanyOwnerControllers.CompanyOwnerController.SetItemId | controllers/company_owner_controller.py:175-180 | a given error is raised; otherwise `result.id` goes to the id cell's stored and shown value, and a non-record result or missing cell raises AttributeError without a write |
| CompanyOwnerControllers.CompanyOwnerController.Send | controllers/company_owner_controller.py:100-173 | an add inserts the owner and writes its id to the row; an update changes the owner it names and no cell; no request changes nothing |
| CompanyOwnerControllers.CompanyOwnerController.UpdateOrAddCompany | controllers/company_owner_controller.py:52-173 | the request sent is `OwnerUpsert` of the row; when deciding it raises, nothing changes |
| CompanyOwnerControllers.CompanyOwnerController.OnItemChanged | controllers/company_owner_controller.py:24-48 | the edited cell is reclassified outside columns 6, 10, 7, 3 and 13, the row recalculated and `rows_data` set by the pass; a missing cell or an upsert error is raised; otherwise the owners become what sending the decided request gives, the table without its sum row is the recalculated table with the new id written, and the new sum row is the column sums (or their error is raised) |
| CompanyPageControllers.RemainingCell | controllers/company_page_controller.py:48-59 | the remaining-amount cell shows loan minus paid with two places, stores its own reading from before the edit, and keeps its editability |
| CompanyPageControllers.RemainingRows | controllers/company_page_controller.py:48-59 | `update_field_value` changes only the row's remaining-amount cell, and raises AttributeError exactly when that cell is missing |
| CompanyPageControllers.RemainingCellReadsBack | controllers/company_page_controller.py:26-59 | the new text parses as loan minus paid; the cell's reading stays what it was unless that was 0, when the shown difference is read |
| CompanyPageControllers.ShownAndStored | controllers/company_page_controller.py:26-46 | a cell storing two-place x and showing two-place y reads as x, or as y when x is 0 |
| CompanyPageControllers.RemainingFirstPassUnsettled | controllers/company_page_controller.py:52-59 | a cell that read as 0 keeps storing 0 after one pass although it shows a non-zero difference, and the next pass stores that difference |
| CompanyPageControllers.RemainingCellSettles | controllers/company_page_controller.py:52-59 | a cell rewritten twice is settled: a third rewrite changes nothing |
| CompanyPageControllers.RemainingSettlesAfterTwoPasses | controllers/company_page_controller.py:21-59 | two passes settle the table: a third changes nothing |
| CompanyPageControllers.UpsertChoice | controllers/company_page_controller.py:82-140 | an add exactly when the id is None, 0 or -1 and the shipping cell shows a name; nothing when only the name is missing; otherwise an update or the error `Decimal(percentage)` raises; a row of the wrong width raises ValueError |
| CompanyPageControllers.UpsertAddArgs | controllers/company_page_controller.py:106-117 | an add carries the row's stored values, `str(note)`, the shown shipping name and its stored percentage |
| CompanyPageControllers.UpsertUpdateDict | controllers/company_page_controller.py:120-137 | an update carries the seven plain fields and a shipping part exactly when the shipping cell's name and percentage are truthy |
| CompanyPageControllers.UpsertUpdateKeysKnown | controllers/company_page_controller.py:122-137 | every key the page sends is one `Company.update` accepts, so the update never fails its key check |
| CompanyPageControllers.CompanyPageController.constructor | controllers/company_page_controller.py:16-19 | the page starts with `on_item_changed` connected |
| CompanyPageControllers.CompanyPageController.UpdateFieldValue | controllers/company_page_controller.py:21-59 | the table becomes `RemainingRows` of the row, or is unchanged when that raises |
| CompanyPageControllers.CompanyPageController.Send | controllers/company_page_controller.py:106-140 | an add inserts the company and writes the returned future to the id cell's stored value; an update changes the company it names; other tables never change |
| CompanyPageControllers.CompanyPageController.UpdateOrAddCompany | controllers/company_page_controller.py:82-140 | the request sent is `CompanyUpsert` of the row; when deciding it raises nothing changes, and a missing id cell raises only after the add is sent |
| CompanyPageControllers.CompanyPageController.OnItemChanged | controllers/company_page_controller.py:61-80 | the handler reconnects exactly when nothing raised; the edited cell is reclassified outside column 1, the remaining amount rewritten, and an error leaves the database unchanged; otherwise the companies become what sending the decided request gives, a missing id cell for an add raises, and else the table without its sum row is the rewritten table with the add's future in the id cell, and the new sum row is the column sums or their error |
| FreelancerPageControllers.StrEmpty | controllers/freelancer_page_controller.py:49 | `str(v)` is empty exactly for the empty text |
| FreelancerPageControllers.UpsertChoice | controllers/freelancer_page_controller.py:34-69 | a row of the wrong width raises ValueError; otherwise an add exactly when the id is None, 0 or -1 and the other costs are not the empty text, nothing when they are, and an update for any other id |
| FreelancerPageControllers.UpsertCallArgs | controllers/freelancer_page_controller.py:49-69 | a call carries the stored amount and date and `str()` of the other costs and note; an update names the row's stored id |
| FreelancerPageControllers.FreelancerPageController.constructor | controllers/freelancer_page_controller.py:11-13 | the page starts connected and has made no call |
| FreelancerPageControllers.FreelancerPageController.UpdateOrAddFreelancer | controllers/freelancer_page_controller.py:34-69 | the call `FreelancerUpsert` decides is recorded, or none, or the unpacking error is raised |
| FreelancerPageControllers.FreelancerPageController.SetItemId | controllers/freelancer_page_controller.py:71-77 | a given error is raised; otherwise `result.id` goes to the id cell, and a result without `id` or a missing cell raises AttributeError without a write |
| FreelancerPageControllers.FreelancerPageController.AddFinished | controllers/freelancer_page_controller.py:56 | the add's callback never writes the id cell for an int or `False` result and ends with AttributeError |
| FreelancerPageControllers.FreelancerPageController.OnItemChanged | controllers/freelancer_page_controller.py:15-32 | the handler reconnects exactly when nothing raised; the edited cell is reclassified and the call recorded; after a sent request the rows before the new last row are the edited rows without the old sum row, `sum_row_index` points at the last row, and that row is SumCells of the rows above it, or the handler returns SumCells' error |
| HomePageControllers.ReadDec | controllers/home_page_controller.py:116 | `Decimal(s)` succeeds exactly on the texts it reads, with the literal's value and a finite number of places |
| HomePageControllers.LiteralHasPlaces | controllers/home_page_controller.py:116 | a literal with k digits after its point denotes a value with k places |
| HomePageControllers.DecAdd | controllers/home_page_controller.py:116 | a Decimal sum has the sum's value and at least each operand's places |
| HomePageControllers.DecSub | controllers/home_page_controller.py:122 | a Decimal difference has the difference's value and at least each operand's places |
| HomePageControllers.DecTextRoundTrip | controllers/home_page_controller.py:184-190 | `Decimal(str(d))` is d again, places included |
| HomePageControllers.CalculateAmountPaid | controllers/home_page_controller.py:112-117 | with both texts non-empty the result is their sum, or InvalidOperation when one does not read; otherwise the int 0 |
| HomePageControllers.CalculateRemainingSalary | controllers/home_page_controller.py:119-123 | with salary and loan texts non-empty the result is salary − loan − settled, or InvalidOperation when one of the three does not read (the empty settled text included); otherwise the int 0 |
| HomePageControllers.PaidAndRemainingMakeSalary | controllers/home_page_controller.py:112-123 | whenever all three texts read, amount paid plus remaining salary is the salary |
| HomePageControllers.FillZero | controllers/home_page_controller.py:163-171 | an empty cell text becomes "0" (the settled cell also stores 0), and a non-empty one is kept |
| HomePageControllers.Filled | controllers/home_page_controller.py:163-171 | the "0" fill touches only the salary, loan and settled cells |
| HomePageControllers.AmountWritten | controllers/home_page_controller.py:189-197 | a written amount shows `str(d)`, stores its value and keeps its editability |
| HomePageControllers.PaidStep | controllers/home_page_controller.py:183-190 | the amount-paid step changes only the paid cell, and nothing when it raises |
| HomePageControllers.RemainingStep | controllers/home_page_controller.py:192-197 | the remaining-salary step changes only the remaining cell, and nothing when it raises |
| HomePageControllers.FieldValuesKeepsOtherCells | controllers/home_page_controller.py:153-197 | `update_field_value` adds or removes no cell and changes only the salary, loan, settled, remaining and paid cells |
| HomePageControllers.FieldValuesPaid | controllers/home_page_controller.py:183-190 | with the settled, paid and loan cells present the paid cell holds settled plus loan as read after the fill, or InvalidOperation is raised |
| HomePageControllers.FieldValuesMissingOperand | controllers/home_page_controller.py:192-194 | the remaining step reads the loan and settled cells unchecked, so a missing one raises AttributeError |
| HomePageControllers.FieldValuesBalance | controllers/home_page_controller.py:153-197 | after a recalculation that raises nothing, stored amount paid plus stored remaining salary is the salary the salary text spells |
| HomePageControllers.FilledFixed | controllers/home_page_controller.py:163-171 | the fill changes nothing once the three texts are non-empty |
| HomePageControllers.AmountWrittenTwice | controllers/home_page_controller.py:189-197 | writing the same amount twice is writing it once |
| HomePageControllers.PaidStepAgain | controllers/home_page_controller.py:183-190 | repeating the amount-paid step on its own result changes nothing |
| HomePageControllers.RemainingStepAgain | controllers/home_page_controller.py:192-197 | repeating the remaining-salary step on its own result changes nothing |
| HomePageControllers.FieldValuesIdempotent | controllers/home_page_controller.py:153-197 | a second recalculation of a row whose first raised nothing changes nothing |
| HomePageControllers.EmployeeId | controllers/home_page_controller.py:42-43 | None and False become -1, every other id is kept |
| HomePageControllers.StatusArg | controllers/home_page_controller.py:52 | a text status is read with `get_status`, any other value is passed on |
| HomePageControllers.RequestOf | controllers/home_page_controller.py:22-69 | an empty row sends nothing; a row that does not unpack into ten names raises ValueError; id -1 with a non-empty name adds an employee; any other id updates the eight fields |
| HomePageControllers.PageAddStoresPending | controllers/home_page_controller.py:45-54 | an employee added from the page is stored as PENDING whatever its status cell holds, because the status is read with `get_status` twice |
| HomePageControllers.PageUpdateKeysAreColumns | controllers/home_page_controller.py:99-110 | an update names only columns of the table, never `created_at` |
| HomePageControllers.PageUpdateStoresStatus | controllers/home_page_controller.py:59-69 | a status cell holding a member's text, sent by an update that commits, leaves the employee with that member |
| HomePageControllers.FillZeros | controllers/home_page_controller.py:163-171 | the three fill statements give `Filled` |
| HomePageControllers.ApplyPaid | controllers/home_page_controller.py:183-190 | the amount-paid block gives `PaidStep` |
| HomePageControllers.ApplyRemaining | controllers/home_page_controller.py:192-197 | the remaining-salary block gives `RemainingStep` |
| HomePageControllers.MainWindowController.constructor | controllers/home_page_controller.py:15-17 | the controller works on the page's table and the employees table |
| HomePageControllers.MainWindowController.UpdateFieldValue | controllers/home_page_controller.py:153-197 | the row's cells become `FieldValues` of them, and the method raises exactly what that raised |
| HomePageControllers.MainWindowController.UpdateEmployeeData | controllers/home_page_controller.py:22-69 | the request `RequestOf` the row is sent, and a new employee's id is stored in the id cell; an id cell edited to an integer text updates the employee it names |
| HomePageControllers.MainWindowController.AddNewEmployee | controllers/home_page_controller.py:71-86 | the new employee's id, or `False` when the add fails |
| HomePageControllers.MainWindowController.UpdateExistingEmployee | controllers/home_page_controller.py:88-110 | the employees table becomes what `Employee.update` leaves, whose lookup matches an integer-text id as SQLite does |
| HomePageControllers.MainWindowController.OnItemChanged | controllers/home_page_controller.py:125-150 | an editable item is classified (column 1 never as a number), the row recalculated and sent, and the sums redone; a non-editable item only redoes the sums; an id cell edited to an integer text is sent as that text and updates the employee it names; when the request is decided the employees become what sending it gives, a new employee with no id cell raises, and else the table without its sum row is the recalculated table with the new id stored, and the sum row is the column sums or their error |
| Helpers.OrEmpty | utils/helpers.py:87 | `s or ""`: None searches the empty text, any string itself |
| Helpers.FindOutsideAllowed | utils/helpers.py:86-88 | the search finds the first character outside the allowed class, or reports that every character is inside it |
| Helpers.FindArabic | utils/helpers.py:92 | the search finds the first character of the Arabic blocks, or reports that there is none |
| Helpers.IsItAllArabic | utils/helpers.py:85-88 | `is_it_all_arabic` holds exactly when every character is Arabic, a space, a digit or ASCII punctuation |
| Helpers.ContainsArabic | utils/helpers.py:91-92 | `contains_arabic` holds exactly when some character is in the Arabic block or its supplement |
| Helpers.EmptyTexts | utils/helpers.py:85-92 | None and "" count as all Arabic and contain no Arabic |
| Helpers.AllArabicHasNoLatin | utils/helpers.py:85-88 | an all-Arabic text has no Latin letter |
| Helpers.AllArabicConcat | utils/helpers.py:85-88 | a concatenation is all Arabic exactly when both parts are |
| Helpers.SegmentText | utils/helpers.py:76-77 | a line is its characters plus the inserted break when it was closed |
| Helpers.SplitTextByWidth | utils/helpers.py:69-82 | the loop's output is the rendering of `Segments` of the text |
| Helpers.JoinLinesSnoc | utils/helpers.py:82 | joining one more line appends it |
| Helpers.SegmentsKeepText | utils/helpers.py:69-82 | removing the inserted breaks gives back the text: nothing lost, reordered or added |
| Helpers.SegmentsWellCut | utils/helpers.py:72-81 | every line but the last is closed exactly when its width first reaches the maximum, an open last line never reaches it, and no line is empty |
| Singletons.Instance.constructor | utils/patterns/singletone.py:9 | a new object records its class and the arguments `__init__` ran with |
| Singletons.SingleToneCache.constructor | utils/patterns/singletone.py:5 | `_instances` starts empty |
| Singletons.SingleToneCache.Call | utils/patterns/singletone.py:7-11 | the first call builds and caches a fresh instance of the class; later calls return the cached one without rerunning `__init__` |
| Singletons.SingleToneCache.GetCurrentInstance | utils/patterns/singletone.py:13-14 | the cached instance, or None exactly when the class was never called |
| Singletons.SingleToneCache.DistinctClasses | utils/patterns/singletone.py:5-11 | two classes never share an instance |
| Singletons.CallTwice | utils/patterns/singletone.py:7-11 | two calls give one object, built with the first call's arguments |
| Singletons.MixinAttributes.constructor | utils/patterns/singletone.py:18 | no class has set `_instance` |
| Singletons.MixinAttributes.Lookup | utils/patterns/singletone.py:21 | `cls._instance` is the attribute found first along the resolution order, or None when no class on it set one |
| Singletons.MixinAttributes.New | utils/patterns/singletone.py:20-23 | `__new__` creates and stores an instance only when `cls._instance` is None and otherwise returns the stored one, which `__init__` reruns on only when it was stored on `cls` itself |
| Singletons.MixinAttributes.SubclassGetsParentInstance | utils/patterns/singletone.py:17-23 | a subclass created after its parent gets the parent's instance |
| Singletons.SingletonFunction.constructor | utils/patterns/singletone.py:26-27 | `singleton(cls)` starts with its own empty dict |
| Singletons.SingletonFunction.Call | utils/patterns/singletone.py:29-33 | the first call builds the instance, every later call returns it, and the dict holds only that class |
| TextEditWidgets.OrderedRange | view/widgets/text_edit_widget.py:60-62 | the range is the two clicked dates, earlier first, kept in click order unless the first is later |
| TextEditWidgets.OrderedRangeSymmetric | view/widgets/text_edit_widget.py:57-62 | the range does not depend on the order of the two clicks |
| TextEditWidgets.RangeCalendar.constructor | view/widgets/text_edit_widget.py:30-42 | a new calendar holds no dates and has emitted nothing |
| TextEditWidgets.RangeCalendar.ClearSelection | view/widgets/text_edit_widget.py:44-48 | both dates are cleared and nothing else changes |
| TextEditWidgets.RangeCalendar.GetCurrentDate | view/widgets/text_edit_widget.py:70-71 | both dates when both are held, AttributeError otherwise |
| TextEditWidgets.RangeCalendar.HandleDateClick | view/widgets/text_edit_widget.py:50-68 | the first click starts a range; the second emits the ordered range, clears both dates and closes the pop-up |
| TextEditWidgets.TwoClicks | view/widgets/text_edit_widget.py:50-71 | two clicks emit exactly one range, the two dates in order, and leave the calendar ready for a new one |
| TextEditWidgets.Without | view/widgets/text_edit_widget.py:154-156 | the result holds exactly the elements not taken out, and is no longer |
| TextEditWidgets.KeptLabels | view/widgets/text_edit_widget.py:149-156 | one label is kept per name that is not excluded |
| TextEditWidgets.RemoveFirst | view/widgets/text_edit_widget.py:155-156 | `list.remove` takes out the first occurrence, and raises ValueError exactly when there is none |
| TextEditWidgets.RemovedIndex | view/widgets/text_edit_widget.py:151 | every listed position is a position of the names |
| TextEditWidgets.RemovedIndexPositions | view/widgets/text_edit_widget.py:151 | with distinct names, the listed positions are exactly those of excluded names, each once, increasing |
| TextEditWidgets.RemoveFromWithout | view/widgets/text_edit_widget.py:155-156 | taking out a name that occurs once and is still there extends the taken-out set by it |
| TextEditWidgets.WithoutLabels | view/widgets/text_edit_widget.py:149-156 | removing the labels of the excluded names by value leaves the kept labels |
| TextEditWidgets.FilterHeaders | view/widgets/text_edit_widget.py:149-156 | on distinct header lists that line up after "id", the header code never raises and leaves the labels and names of the columns that are not excluded, in order |
| TextEditWidgets.RemoveExcluded | view/widgets/text_edit_widget.py:154-156 | the removal loop gives `RemoveAt`: each listed position's name and label taken out in turn, the first failing removal raising |
| TextEditWidgets.RemoveAt | view/widgets/text_edit_widget.py:154-156 | a run that raises nothing takes one element per position out of each list |
| TextEditWidgets.RemoveAtStep | view/widgets/text_edit_widget.py:154-156 | a turn whose two removals succeed goes on with what they leave |
| TextEditWidgets.RemoveAtAligned | view/widgets/text_edit_widget.py:151-156 | on distinct, aligned header lists the loop never raises and removes exactly the names and labels at the listed positions |
| TextEditWidgets.NamesAtPositions | view/widgets/text_edit_widget.py:151-156 | with distinct values, a value is at one of the positions exactly when its position is one of them |
| TextEditWidgets.TrackedStep | view/widgets/text_edit_widget.py:155-156 | on distinct values, the next listed value is still present and its removal extends what is gone |
| TextEditWidgets.FilterStep | view/widgets/text_edit_widget.py:154-156 | a turn of the loop on aligned header lists: both removals succeed |
| TextEditWidgets.FilterEnd | view/widgets/text_edit_widget.py:154-156 | after every removal the names and labels left are the kept ones |
| TextEditWidgets.SearchEntries | view/widgets/text_edit_widget.py:157-162 | the combobox lists the kept labels in order, then on the company-owner page the order-number-with-update entry |
| TextEditWidgets.SearchableNames | view/widgets/text_edit_widget.py:131-151 | no excluded name is offered and every other one is; `retrieved_order` stays searchable because of the misspelt entry |
| TextEditWidgets.TableItem | view/widgets/text_edit_widget.py:422-426 | an item is editable and holds the value given |
| TextEditWidgets.Cell | view/widgets/text_edit_widget.py:331-333 | `create_table_item(str(v), v)` shows `str(v)` and holds v |
| TextEditWidgets.LinkedCell | view/widgets/text_edit_widget.py:364-369 | a linked record's cell shows its key and holds its amount, or shows "" and holds 0 when none is linked |
| TextEditWidgets.Minus | view/widgets/text_edit_widget.py:340 | subtraction of loaded numbers gives their difference, and raises TypeError exactly when one is not a number |
| TextEditWidgets.DecimalOf | view/widgets/text_edit_widget.py:398-404 | `Decimal(v)` reads exactly what it can, raising InvalidOperation for text and TypeError otherwise |
| TextEditWidgets.AmountPaid | view/widgets/text_edit_widget.py:345 | the loaded amount paid is settled plus loan when both are truthy, else the int 0 |
| TextEditWidgets.RowItems | view/widgets/text_edit_widget.py:329-420 | one item per column of the page's table; owner and freelancer rows never raise; employee and company rows raise exactly when an amount does not read; any other model raises |
| TextEditWidgets.EmployeeAmounts | view/widgets/text_edit_widget.py:340-362 | an employee row shows the remaining amount, the paid amount and the settled amount from column 5 on: remaining, loan and settled make up the salary, and paid is settled plus loan when both are non-zero |
| TextEditWidgets.OwnerMissingLinks | view/widgets/text_edit_widget.py:364-383 | an owner row without a coupon, payment method or shipping company shows "" and holds 0 there |
| TextEditWidgets.QueryFor | view/widgets/text_edit_widget.py:273-282 | a relation column is searched through its linked table's key, any other column directly, always for the searched value |
| TextEditWidgets.ConsumeSearched | view/widgets/text_edit_widget.py:286-294 | the typed line is taken out, or else the first line, and an empty list raises IndexError |
| TextEditWidgets.TextEditWidget.constructor | view/widgets/text_edit_widget.py:80-167 | a new panel has found nothing, asked nothing and shows the search button |
| TextEditWidgets.TextEditWidget.BuildSearchColumns | view/widgets/text_edit_widget.py:149-162 | on aligned header lists the combobox offers the kept labels (plus the extra owner entry) and the searchable names are the kept ones |
| TextEditWidgets.TextEditWidget.UpdateDatabaseRows | view/widgets/text_edit_widget.py:272-300 | the query is recorded; a None result (a search whose exception was swallowed) raises TypeError from `len` with nothing else changed; every non-empty result is appended, a line of the searched text is consumed, and the answer is whether any rows are held |
| TextEditWidgets.TextEditWidget.RemoveDatabaseRows | view/widgets/text_edit_widget.py:269-270 | the found rows are forgotten and nothing else changes |
| TextEditWidgets.TextEditWidget.CreateTableItems | view/widgets/text_edit_widget.py:323-327 | the items of each row in order, or the error of a row that raises |
| TextEditWidgets.TextEditWidget.UpdateTable | view/widgets/text_edit_widget.py:302-313 | with rows found, their items fill the table (statuses marked completed for the order-number entry on the owner page), the button turns to "Back" and the rows are forgotten; with none, nothing happens |

## Left out

- Painting, sizing, pop-ups, message boxes, prints and logging: GUI and I/O. Dialog and confirmation answers are parameters.
- Running queries (`where`, `search`, `search_with_relations`) and fuzzy matching with `partial_ratio`: SQL and an external library. Query results are parameters; the model records which query a page asked for.
- `run_in_thread`, futures and callbacks: concurrency. Every database call is synchronous, and a callback is a method called with the result.
- The state after an exception escapes a Qt slot: the application ends, so the model returns the error and says nothing more about the table.
- `Decimal`'s 28-digit context, negative zero, exponent notation, NaN and infinity: only plain decimal texts and exact amounts are modelled.
- `str.isnumeric` and `Decimal(...)` accept the ASCII digits, the Arabic-Indic digits (U+0660-U+0669) and the extended Arabic-Indic digits (U+06F0-U+06F9); other scripts' digits and other numeric characters ("²", "½") are not modelled.
- The `updated_at` column of the tables, and `created_at` beyond the blank row: timestamps set by the database.
- `Employee.get`, `get_all`, `get_column` and `remove`, and the CRUD of models/freelancer.py and models/user.py: session calls with no logic beyond what `Employee.update` and `add` show. models/freelancer.py is not part of this model; the freelancer page records the calls it makes.
- The freelancers page's `update_field_value` does nothing and is not modelled.
- Signal blocking and the disconnect/reconnect around `on_item_changed`: only their effect, that the handler does not run on its own writes, is kept. `update_column_status` is the exception, next line.
- TableWidgets.TableWidget.UpdateColumnStatus and TextEditWidgets.TextEditWidget.UpdateTable: `update_column_status` writes with the table's signals on, so on the company-owner page every cell it writes, the sum row's included, emits `itemChanged` and runs the page's `on_item_changed`, which recalculates that row and sends an update carrying payment status COMPLETED (and raises on the sum row, which has no id). The model leaves those re-entrant runs out: its table is the one the writes alone leave, and the database is not updated.
- Alchemy.Lower, Alchemy.LowerFacts and Alchemy.BuildFilter: `str.lower()` is modelled on ASCII only. Python also lowers the other cased letters, the Kelvin sign to "k" (so "LI\u212aE" names the `like` operator) and U+0130 to two characters; an operator or order direction spelled with those is refused by the model and accepted by Python.
- Grid.Amount, CompanyOwnerControllers.UpdateFields and CompanyOwnerControllers.Request: the amounts the owner recalculation stores (retrieved, totals, gross profit, discount) are exact in value but carry an exponent of two places, where Python's products and quotients carry up to six. None of them is passed to `str()`: they are shown through a two-place format, read back through a quantize, and written to two-place DECIMAL columns.
- `on_cell_clicked`, `on_text_changed`, `handle_search_button`, `back_button_action`, `getSelectedDate`, `showCalendar` and `createCalendar` of the search panel: Qt wiring and pop-ups. The selected search column is the field `currentEntry`.
- CompanyOwnerModels.IdOf, Persistence.IntegerText and Persistence.Binds: SQLite's numeric affinity is modelled for texts that are an optional sign followed by ASCII digits. SQLite also converts padded (" 7 "), real ("7.0") and exponent ("7e0") texts, which the model treats as matching no id and binding to no integer column. A bound integer text is kept in the stored record as the text, where SQLite stores the integer.
- `QDate` parsing is modelled as `yyyy-MM-dd` with a real calendar check; other formats are not.
- The font metrics of `split_text_by_width` are a function handed in.
- TextEditWidgets.FilterHeaders: its contract is stated only for header lists whose names and labels are distinct and line up one to one after "id", as every page's do; for other lists the result is computed but not characterised.
- Engine and session setup, `ensure_tables`, Excel and PDF export, login, settings, the seeder and startup: outside the ledger core.
- The table's `add_action_handler` with `get_columns_default_values` (the blank row it inserts is `Alchemy.BlankRow`), `adjust_row_count`, the context menu, export and print actions, and `getRowItems`/`setRowItems`: row insertion from a menu, viewport sizing and file output.
- The combobox's `copy_action_handler`, context menu and item painting, and the dialog's `get_first_text`/`get_second_text` (their answers are the `DialogAnswer` parameter): clipboard and GUI.
- The resource and file helpers of utils/helpers.py (`resource_path`, `load_stylesheet_from_resource`, `read_frame`, `get_setup_info`, `test_widget`, `find_widget`): I/O and GUI.
