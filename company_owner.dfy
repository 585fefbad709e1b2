/**
 * `models/company_owner.py`: the coupon, shipping-company and payment-method
 * tables, the order ledger (`CompanyOwner`) and the shipping companies'
 * debt ledger (`Company`), with their `get`, `add` and `update` operations.
 *
 * Each operation runs in one session: what it flushes and commits either
 * all lands, or is rolled back so that the tables are as before.
 */
module CompanyOwnerModels {
  import opened Wrappers
  import opened PyValues
  import opened Constant
  import opened Persistence

  /**
   * A coupon, shipping company or payment method: its id, its natural key
   * (`code` or `name`, unique) and its amount (`discount` or `percentage`).
   */
  datatype Linked = Linked(id: int, key: Value, amount: Value)

  datatype LinkedKind = Coupons | Shippings | Payments

  /** Index of the first entry of `table` whose key is `key`, or `|table|` when there is none. */
  function FindIndex(table: seq<Linked>, key: Value): (i: nat)
    ensures i <= |table|
    ensures i < |table| ==> table[i].key == key
    ensures forall j :: 0 <= j < i ==> table[j].key != key
  {
    if |table| == 0 then 0
    else if table[0].key == key then 0
    else 1 + FindIndex(table[1..], key)
  }

  /**
   * `Coupon.get(code)`, `ShippingCompany.get(name)`, `Payment.get(name)`:
   * the first record whose natural key equals the argument, or None.
   */
  function FindByKey(table: seq<Linked>, key: Value): (r: Option<Linked>)
    ensures r.None? <==> forall x :: x in table ==> x.key != key
    ensures r.Some? ==> r.value in table && r.value.key == key
    ensures r.Some? ==> r.value == table[FindIndex(table, key)]
  {
    var i := FindIndex(table, key);
    if i < |table| then Some(table[i]) else None
  }

  /** Whether `sqlite3` can bind `v` as a query parameter. */
  predicate SqlParameter(v: Value)
  {
    Binds(StringCol, v)
  }

  /**
   * The integer primary key that a value compares equal to in
   * `Model.id == v`: the only one, or none at all.
   */
  function IdOf(v: Value): (r: Option<int>)
    ensures forall n :: SqlEqualsInt(v, n) <==> r == Some(n)
  {
    match v
    case VInt(i) => Some(i)
    case VBool(b) => Some(if b then 1 else 0)
    case VDecimal(d, _) => if d.Floor as real == d then Some(d.Floor) else None
    case VText(s) => IntegerText(s)
    case _ => None
  }

  /**
   * `Coupon.add(code, discount)` and its two twins, as the new table: an
   * insert happens only for a non-empty key and a truthy amount, and is
   * refused by the database for a key already present (the key is unique)
   * or a value of the wrong type. `len` of a value without a length raises
   * `TypeError`, which `add` also turns into `False`.
   */
  function AddLinked(table: seq<Linked>, id: int, key: Value, amount: Value): (r: Option<seq<Linked>>)
    ensures r.Some? <==>
      Len(key).Some? && Len(key).value > 0 && Truthy(amount)
      && FindByKey(table, key).None? && Binds(StringCol, key) && Binds(DecimalCol, amount)
    ensures r.Some? ==> r.value == table + [Linked(id, key, amount)]
    ensures r.Some? ==> FindByKey(r.value, key) == Some(Linked(id, key, amount))
  {
    if Len(key).Some? && Len(key).value > 0 && Truthy(amount) then
      if FindByKey(table, key).None? && Binds(StringCol, key) && Binds(DecimalCol, amount) then
        var t := table + [Linked(id, key, amount)];
        assert t[|table|] == Linked(id, key, amount);
        Some(t)
      else None
    else None
  }

  // ---------------------------------------------------------------------
  // Column tables
  // ---------------------------------------------------------------------

  /** The columns of the `company_owner` table; `updated_at` is not modelled. */
  const OwnerColumns: set<Field> := {
    Id, StoreName, OrderNumber, Field.OrderStatus, SallaTotal, Cost, TotalDemand, TotalProfit, TotalDiscount,
    Field.PaymentStatus, RetrievedOrder, OrderDate, PaymentDate, CreatedAt, CouponsId, ShippingId, PaymentId}

  /** The `company_owner` column `f`; `created_at` defaults to `func.now()`. */
  function OwnerColumn(f: Field): Column
    requires f in OwnerColumns
  {
    match f
    case Id => Column(IntegerCol, false, VNone)
    case StoreName => Column(StringCol, false, VNone)
    case OrderNumber => Column(StringCol, true, VInt(0))
    case OrderStatus => Column(OrderEnumCol, true, VOrder(OrderStatus.PENDING))
    case PaymentStatus => Column(PaymentEnumCol, true, VPayment(PaymentStatus.PENDING))
    case OrderDate | PaymentDate => Column(DateCol, true, VNone)
    case CreatedAt => Column(DateTimeCol, true, VSql("now()"))
    case CouponsId | ShippingId | PaymentId => Column(IntegerCol, true, VNone)
    case _ => Column(DecimalCol, true, VInt(0))
  }

  /** The `company_owner` table. */
  const OwnerSchema: Schema := map f | f in OwnerColumns :: OwnerColumn(f)

  /** The columns of the `companys` table. */
  const CompanyColumns: set<Field> := {
    Id, LoanAmount, DateOfDebt, PaidAmounts, RemAmounts, Note, MonthlyPaymentDueDate, CreatedAt, ShippingId}

  /** The `companys` column `f`; `date_of_debt` defaults to `datetime.date.today()`. */
  function CompanyColumn(f: Field, today: Date): Column
    requires f in CompanyColumns
  {
    match f
    case Id => Column(IntegerCol, false, VNone)
    case DateOfDebt => Column(DateCol, true, VDate(today))
    case Note => Column(StringCol, true, VNone)
    case MonthlyPaymentDueDate => Column(DateCol, true, VNone)
    case CreatedAt => Column(DateTimeCol, true, VSql("now()"))
    case ShippingId => Column(IntegerCol, true, VNone)
    case _ => Column(DecimalCol, true, VInt(0))
  }

  /** The `companys` table. */
  function CompanySchema(today: Date): Schema
  {
    map f | f in CompanyColumns :: CompanyColumn(f, today)
  }

  // ---------------------------------------------------------------------
  // CompanyOwner.add
  // ---------------------------------------------------------------------

  /** The keyword arguments of `CompanyOwner.add`. */
  datatype OwnerAddArgs = OwnerAddArgs(
    storeName: Value, orderNumber: Value, cost: Value, orderStatus: Value,
    sallaTotal: Value, totalDemand: Value, retrievedOrder: Value,
    totalProfit: Value, totalDiscount: Value, paymentStatus: Value,
    orderDate: Value, paymentDate: Value,
    couponCode: Value, couponDiscount: Value,
    shippingName: Value, shippingPercentage: Value,
    paymentName: Value, paymentPercentage: Value)

  /**
   * The foreign key `add` puts in place of a truthy natural key: the id of
   * the record that has it, else what the new, unsaved entity stands for —
   * its `id` (None) when `sendsId`, the entity object itself otherwise.
   */
  function LinkForAdd(table: seq<Linked>, key: Value, entity: string, sendsId: bool): (v: Value)
    ensures !Truthy(key) ==> v == VNone
    ensures Truthy(key) && FindByKey(table, key).Some? ==> v == VInt(FindByKey(table, key).value.id)
    ensures Truthy(key) && FindByKey(table, key).None? ==> v == (if sendsId then VNone else VRecord(entity, None))
  {
    if !Truthy(key) then VNone
    else match FindByKey(table, key)
      case Some(x) => VInt(x.id)
      case None => if sendsId then VNone else VRecord(entity, None)
  }

  /**
   * The attribute `f` that `CompanyOwner.add` gives the new `CompanyOwner`;
   * one it does not pass is None.
   */
  function OwnerAddValue(args: OwnerAddArgs, coupons: seq<Linked>, shippings: seq<Linked>, payments: seq<Linked>, f: Field): Value
  {
    match f
    case StoreName => args.storeName
    case OrderNumber => args.orderNumber
    case OrderStatus => OrderGetStatus(args.orderStatus)
    case SallaTotal => args.sallaTotal
    case TotalProfit => args.totalProfit
    case TotalDiscount => args.totalDiscount
    case TotalDemand => args.totalDemand
    case PaymentId => LinkForAdd(payments, args.paymentName, "Payment", false)
    case PaymentStatus => PaymentGetStatus(args.paymentStatus)
    case OrderDate => args.orderDate
    case PaymentDate => args.paymentDate
    case RetrievedOrder => args.retrievedOrder
    case CouponsId => LinkForAdd(coupons, args.couponCode, "Coupon", true)
    case ShippingId => LinkForAdd(shippings, args.shippingName, "ShippingCompany", false)
    case Cost => args.cost
    case _ => VNone
  }

  /** The attributes of the new `CompanyOwner`, by column. */
  function OwnerAddValues(args: OwnerAddArgs, coupons: seq<Linked>, shippings: seq<Linked>, payments: seq<Linked>): Record
  {
    map f | f in OwnerColumns :: OwnerAddValue(args, coupons, shippings, payments, f)
  }

  /** The row `CompanyOwner.add` commits under `id`, or the error that makes it return `False`. */
  function OwnerAddRow(args: OwnerAddArgs, coupons: seq<Linked>, shippings: seq<Linked>, payments: seq<Linked>, id: int): Result<Record, PyError>
  {
    Insert(OwnerSchema, OwnerAddValues(args, coupons, shippings, payments), id)
  }

  /**
   * A column of the row `add` tries to insert, other than `id`: the attribute
   * `add` passed when it is not None, else the column default.
   */
  lemma OwnerAddCell(args: OwnerAddArgs, coupons: seq<Linked>, shippings: seq<Linked>, payments: seq<Linked>, id: int, f: Field)
    requires f in OwnerColumns && f != Id
    ensures var v := OwnerAddValue(args, coupons, shippings, payments, f);
      InsertedRow(OwnerSchema, OwnerAddValues(args, coupons, shippings, payments), id)[f] == if v != VNone then v else OwnerColumn(f).default
  {
    assert OwnerSchema[f] == OwnerColumn(f);
    assert OwnerAddValues(args, coupons, shippings, payments)[f] == OwnerAddValue(args, coupons, shippings, payments, f);
  }

  /**
   * `add` fails when the value a column would get, the attribute passed or
   * else the column default, does not bind to the column's type, or is
   * NULL in a NOT NULL column.
   */
  lemma OwnerAddRefused(args: OwnerAddArgs, coupons: seq<Linked>, shippings: seq<Linked>, payments: seq<Linked>, id: int, f: Field)
    requires f in OwnerColumns && f != Id
    requires var v := OwnerAddValue(args, coupons, shippings, payments, f);
      var cell := if v != VNone then v else OwnerColumn(f).default;
      !Binds(OwnerColumn(f).kind, cell) || (!OwnerColumn(f).nullable && cell == VNone)
    ensures OwnerAddRow(args, coupons, shippings, payments, id) == Err(DatabaseError)
  {
    var row := InsertedRow(OwnerSchema, OwnerAddValues(args, coupons, shippings, payments), id);
    assert OwnerSchema[f] == OwnerColumn(f);
    assert OwnerAddValues(args, coupons, shippings, payments)[f] == OwnerAddValue(args, coupons, shippings, payments, f);
    assert !Storable(OwnerSchema, row);
  }

  /**
   * The order status is passed through `get_status`, which reads only the
   * Arabic texts: for any other argument (an enum member among them) the
   * attribute is None and the column default `PENDING` is stored.
   */
  lemma OwnerAddOrderStatus(args: OwnerAddArgs, coupons: seq<Linked>, shippings: seq<Linked>, payments: seq<Linked>, id: int)
    ensures var row := InsertedRow(OwnerSchema, OwnerAddValues(args, coupons, shippings, payments), id);
      row[Field.OrderStatus] == (if OrderGetStatus(args.orderStatus).VOrder? then OrderGetStatus(args.orderStatus) else VOrder(OrderStatus.PENDING))
    ensures !args.orderStatus.VText? ==>
      InsertedRow(OwnerSchema, OwnerAddValues(args, coupons, shippings, payments), id)[Field.OrderStatus] == VOrder(OrderStatus.PENDING)
  {
    OwnerAddCell(args, coupons, shippings, payments, id, Field.OrderStatus);
    assert OwnerAddValue(args, coupons, shippings, payments, Field.OrderStatus) == OrderGetStatus(args.orderStatus);
  }

  /** The payment status likewise: only an Arabic text is read, anything else stores `PENDING`. */
  lemma OwnerAddPaymentStatus(args: OwnerAddArgs, coupons: seq<Linked>, shippings: seq<Linked>, payments: seq<Linked>, id: int)
    ensures var row := InsertedRow(OwnerSchema, OwnerAddValues(args, coupons, shippings, payments), id);
      row[Field.PaymentStatus] == (if PaymentGetStatus(args.paymentStatus).VPayment? then PaymentGetStatus(args.paymentStatus) else VPayment(PaymentStatus.PENDING))
    ensures !args.paymentStatus.VText? ==>
      InsertedRow(OwnerSchema, OwnerAddValues(args, coupons, shippings, payments), id)[Field.PaymentStatus] == VPayment(PaymentStatus.PENDING)
  {
    OwnerAddCell(args, coupons, shippings, payments, id, Field.PaymentStatus);
    assert OwnerAddValue(args, coupons, shippings, payments, Field.PaymentStatus) == PaymentGetStatus(args.paymentStatus);
  }

  /**
   * A shipping company named in `add` that does not exist yet is assigned
   * as an object to the integer foreign key, so the commit fails and `add`
   * returns `False`.
   */
  lemma OwnerAddNewShippingFails(args: OwnerAddArgs, coupons: seq<Linked>, shippings: seq<Linked>, payments: seq<Linked>, id: int)
    requires Truthy(args.shippingName) && FindByKey(shippings, args.shippingName).None?
    ensures OwnerAddRow(args, coupons, shippings, payments, id) == Err(DatabaseError)
  {
    OwnerAddRefused(args, coupons, shippings, payments, id, ShippingId);
  }

  /** Likewise a payment method that does not exist yet. */
  lemma OwnerAddNewPaymentFails(args: OwnerAddArgs, coupons: seq<Linked>, shippings: seq<Linked>, payments: seq<Linked>, id: int)
    requires Truthy(args.paymentName) && FindByKey(payments, args.paymentName).None?
    ensures OwnerAddRow(args, coupons, shippings, payments, id) == Err(DatabaseError)
  {
    OwnerAddRefused(args, coupons, shippings, payments, id, PaymentId);
  }

  /**
   * The coupon foreign key of the row `add` tries to insert is the id of
   * the coupon with the given code, or None: a falsy code links nothing, and a new
   * coupon is constructed but never added, so its id is None.
   */
  lemma OwnerAddCouponLink(args: OwnerAddArgs, coupons: seq<Linked>, shippings: seq<Linked>, payments: seq<Linked>, id: int)
    ensures InsertedRow(OwnerSchema, OwnerAddValues(args, coupons, shippings, payments), id)[CouponsId] ==
      if Truthy(args.couponCode) && FindByKey(coupons, args.couponCode).Some? then VInt(FindByKey(coupons, args.couponCode).value.id) else VNone
  {
    assert CouponsId in OwnerColumns;
    var v := LinkForAdd(coupons, args.couponCode, "Coupon", true);
    assert OwnerAddValue(args, coupons, shippings, payments, CouponsId) == v;
    OwnerAddCell(args, coupons, shippings, payments, id, CouponsId);
    assert OwnerColumn(CouponsId).default == VNone;
    assert InsertedRow(OwnerSchema, OwnerAddValues(args, coupons, shippings, payments), id)[CouponsId] == v;
  }

  /**
   * When `add` succeeds, a truthy shipping name belongs to an existing
   * company and the foreign key is its id; a falsy name links nothing.
   */
  lemma OwnerAddShippingLink(args: OwnerAddArgs, coupons: seq<Linked>, shippings: seq<Linked>, payments: seq<Linked>, id: int)
    requires OwnerAddRow(args, coupons, shippings, payments, id).Ok?
    ensures Truthy(args.shippingName) ==> FindByKey(shippings, args.shippingName).Some?
    ensures OwnerAddRow(args, coupons, shippings, payments, id).value[ShippingId] ==
      if Truthy(args.shippingName) then VInt(FindByKey(shippings, args.shippingName).value.id) else VNone
  {
    if Truthy(args.shippingName) && FindByKey(shippings, args.shippingName).None? {
      OwnerAddNewShippingFails(args, coupons, shippings, payments, id);
      assert false;
    }
    OwnerAddCell(args, coupons, shippings, payments, id, ShippingId);
  }

  /** Likewise the payment method. */
  lemma OwnerAddPaymentLink(args: OwnerAddArgs, coupons: seq<Linked>, shippings: seq<Linked>, payments: seq<Linked>, id: int)
    requires OwnerAddRow(args, coupons, shippings, payments, id).Ok?
    ensures Truthy(args.paymentName) ==> FindByKey(payments, args.paymentName).Some?
    ensures OwnerAddRow(args, coupons, shippings, payments, id).value[PaymentId] ==
      if Truthy(args.paymentName) then VInt(FindByKey(payments, args.paymentName).value.id) else VNone
  {
    if Truthy(args.paymentName) && FindByKey(payments, args.paymentName).None? {
      OwnerAddNewPaymentFails(args, coupons, shippings, payments, id);
      assert false;
    }
    OwnerAddCell(args, coupons, shippings, payments, id, PaymentId);
  }

  /** A store name that is None (or absent) leaves the NOT NULL column empty, so `add` fails. */
  lemma OwnerAddNeedsStoreName(args: OwnerAddArgs, coupons: seq<Linked>, shippings: seq<Linked>, payments: seq<Linked>, id: int)
    requires args.storeName == VNone
    ensures OwnerAddRow(args, coupons, shippings, payments, id) == Err(DatabaseError)
  {
    OwnerAddRefused(args, coupons, shippings, payments, id, StoreName);
  }

  // ---------------------------------------------------------------------
  // CompanyOwner.update and Company.update
  // ---------------------------------------------------------------------

  /** A nested part of an update dict: `{"name"/"code": key, "percentage"/"discount": amount}`. */
  datatype Relation = Relation(key: Value, amount: Value)

  /** An update dict: its plain keys, and its `payments`/`shippings`/`coupons` parts. */
  datatype UpdateDict = UpdateDict(fields: Record, relations: map<LinkedKind, Relation>)

  /** What a successful `update` leaves: `NotFound` (it returned `False`), or the new record and shipping table. */
  datatype UpdateOutcome =
    | NotFound
    | Updated(id: int, rec: Record, shippings: seq<Linked>, nextId: int)

  /** The record whose id the update dict names, found by `select ... where id == updated["id"]`. */
  function LookUp(records: map<int, Record>, upd: UpdateDict): (r: Result<Option<int>, PyError>)
    ensures r.Ok? && r.value.Some? ==> r.value.value in records && Id in upd.fields && SqlEqualsInt(upd.fields[Id], r.value.value)
    ensures Id !in upd.fields ==> r == Err(KeyError)
  {
    if Id !in upd.fields then Err(KeyError)
    else if !SqlParameter(upd.fields[Id]) then Err(DatabaseError)
    else match IdOf(upd.fields[Id])
      case Some(id) => if id in records then Ok(Some(id)) else Ok(None)
      case None => Ok(None)
  }

  /**
   * The record after the `payments` part of an update: a truthy name links
   * the payment method that has it; a new one is constructed but never
   * added, so the link is its id, None.
   */
  function OwnerPaymentPart(rec: Record, upd: UpdateDict, payments: seq<Linked>): (r: Record)
    ensures Payments !in upd.relations || !Truthy(upd.relations[Payments].key) ==> r == rec
    ensures forall j :: j != PaymentId ==> (j in r <==> j in rec) && (j in rec ==> r[j] == rec[j])
  {
    if Payments in upd.relations && Truthy(upd.relations[Payments].key) then
      match FindByKey(payments, upd.relations[Payments].key)
      case Some(p) => rec[PaymentId := VInt(p.id)]
      case None => rec[PaymentId := VNone]
    else rec
  }

  /**
   * The `shippings` part: a truthy name links the shipping company that has
   * it; a new one is added and flushed, which gives it the next id (or
   * fails when its values do not bind).
   */
  function OwnerShippingPart(rec: Record, upd: UpdateDict, shippings: seq<Linked>, nextId: int): (r: Result<(Record, seq<Linked>, int), PyError>)
    ensures r.Ok? ==> nextId <= r.value.2
    ensures r.Ok? ==> forall x :: x in r.value.1 ==> x in shippings || nextId <= x.id < r.value.2
    ensures r.Ok? ==> r.value.0.Keys == rec.Keys + (if Shippings in upd.relations && Truthy(upd.relations[Shippings].key) then {ShippingId} else {})
    ensures r.Ok? ==> forall j :: j != ShippingId ==> (j in r.value.0 <==> j in rec) && (j in rec ==> r.value.0[j] == rec[j])
  {
    if Shippings in upd.relations && Truthy(upd.relations[Shippings].key) then
      var part := upd.relations[Shippings];
      match FindByKey(shippings, part.key)
      case Some(s) => Ok((rec[ShippingId := VInt(s.id)], shippings, nextId))
      case None =>
        if Binds(StringCol, part.key) && Binds(DecimalCol, part.amount) then
          Ok((rec[ShippingId := VInt(nextId)], shippings + [Linked(nextId, part.key, part.amount)], nextId + 1))
        else Err(DatabaseError)
    else Ok((rec, shippings, nextId))
  }

  /**
   * The `coupons` part: a truthy code links the coupon that has it; for a
   * new code the method adds `coupon`, which is None there, and
   * `session.add(None)` raises.
   */
  function OwnerCouponPart(rec: Record, upd: UpdateDict, coupons: seq<Linked>): (r: Result<Record, PyError>)
    ensures r.Ok? ==> forall j :: j != CouponsId ==> (j in r.value <==> j in rec) && (j in rec ==> r.value[j] == rec[j])
  {
    if Coupons in upd.relations && Truthy(upd.relations[Coupons].key) then
      match FindByKey(coupons, upd.relations[Coupons].key)
      case Some(c) => Ok(rec[CouponsId := VInt(c.id)])
      case None => Err(Raised("UnmappedInstanceError"))
    else Ok(rec)
  }

  predicate HasUnknownField(fields: Record, columns: set<Field>)
  {
    exists k :: k in fields && k !in columns
  }

  /**
   * `CompanyOwner.update(updated)`: find the record; resolve the payment,
   * shipping and coupon parts; refuse a key that is not a column; write
   * the non-None values; commit. Any exception rolls everything back and is
   * raised again.
   */
  function OwnerUpdated(owners: map<int, Record>, coupons: seq<Linked>, shippings: seq<Linked>, payments: seq<Linked>, nextId: int, upd: UpdateDict): Result<UpdateOutcome, PyError>
  {
    match LookUp(owners, upd)
    case Err(e) => Err(e)
    case Ok(None) => Ok(NotFound)
    case Ok(Some(id)) =>
      var rec1 := OwnerPaymentPart(owners[id], upd, payments);
      match OwnerShippingPart(rec1, upd, shippings, nextId)
      case Err(e) => Err(e)
      case Ok((rec2, shippings', nextId')) =>
        match OwnerCouponPart(rec2, upd, coupons)
        case Err(e) => Err(e)
        case Ok(rec3) =>
          if HasUnknownField(upd.fields, OwnerSchema.Keys) then Err(AttributeError)
          else
            var merged := Assign(rec3, upd.fields, true);
            if Storable(OwnerSchema, merged) then Ok(Updated(id, merged, shippings', nextId'))
            else Err(DatabaseError)
  }

  /**
   * The steps of `CompanyOwner.update(updated)` on the tables as they are:
   * find the record; resolve the payment, shipping and coupon parts; refuse
   * a key that is not a column; write the non-None values; check the row
   * the commit would store. A new shipping company gets the next id.
   */
  method UpdateOwnerRecord(owners: map<int, Record>, coupons: seq<Linked>, shippings: seq<Linked>, payments: seq<Linked>, nextId: int, upd: UpdateDict)
    returns (outcome: Result<UpdateOutcome, PyError>)
    ensures outcome == OwnerUpdated(owners, coupons, shippings, payments, nextId, upd)
    ensures outcome.Ok? && outcome.value.Updated? ==>
      && outcome.value.id in owners
      && nextId <= outcome.value.nextId
      && Storable(OwnerSchema, outcome.value.rec)
      && forall x :: x in outcome.value.shippings ==> x in shippings || nextId <= x.id < outcome.value.nextId
  {
    var found := LookUp(owners, upd);
    if found.Err? {
      return Err(found.error);
    }
    if found.value.None? {
      return Ok(NotFound);
    }
    var id := found.value.value;
    var rec := OwnerPaymentPart(owners[id], upd, payments);
    var shipped := OwnerShippingPart(rec, upd, shippings, nextId);
    if shipped.Err? {
      return Err(shipped.error);
    }
    var coupled := OwnerCouponPart(shipped.value.0, upd, coupons);
    if coupled.Err? {
      return Err(coupled.error);
    }
    var bad := HasUnknownKey(upd.fields.Keys, OwnerSchema.Keys, {});
    if bad {
      return Err(AttributeError);
    }
    var merged := SetAttributes(coupled.value, upd.fields, true);
    if !Storable(OwnerSchema, merged) {
      return Err(DatabaseError);
    }
    outcome := Ok(Updated(id, merged, shipped.value.1, shipped.value.2));
  }

  /** An id that no record has makes `CompanyOwner.update` return `False` and change nothing. */
  lemma OwnerUpdateNotFound(owners: map<int, Record>, coupons: seq<Linked>, shippings: seq<Linked>, payments: seq<Linked>, nextId: int, upd: UpdateDict)
    requires Id in upd.fields && SqlParameter(upd.fields[Id])
    requires forall id :: id in owners ==> !SqlEqualsInt(upd.fields[Id], id)
    ensures OwnerUpdated(owners, coupons, shippings, payments, nextId, upd) == Ok(NotFound)
  {
    match IdOf(upd.fields[Id])
    case Some(id) =>
      assert SqlEqualsInt(upd.fields[Id], id);
    case None =>
  }

  /** A key that is neither a column nor a relation part makes the update fail, whatever else it holds. */
  lemma OwnerUpdateUnknownKeyFails(owners: map<int, Record>, coupons: seq<Linked>, shippings: seq<Linked>, payments: seq<Linked>, nextId: int, upd: UpdateDict, k: Field)
    requires k in upd.fields && k !in OwnerSchema
    ensures OwnerUpdated(owners, coupons, shippings, payments, nextId, upd).Ok? ==>
      OwnerUpdated(owners, coupons, shippings, payments, nextId, upd) == Ok(NotFound)
  {
  }

  /** A coupon code that no coupon has makes the update fail whenever the record exists. */
  lemma OwnerUpdateNewCouponFails(owners: map<int, Record>, coupons: seq<Linked>, shippings: seq<Linked>, payments: seq<Linked>, nextId: int, upd: UpdateDict)
    requires Coupons in upd.relations && Truthy(upd.relations[Coupons].key)
    requires FindByKey(coupons, upd.relations[Coupons].key).None?
    ensures OwnerUpdated(owners, coupons, shippings, payments, nextId, upd).Ok? ==>
      OwnerUpdated(owners, coupons, shippings, payments, nextId, upd) == Ok(NotFound)
  {
  }

  /**
   * After a successful update, a plain key with a non-None value holds that
   * value, and a key whose value is None keeps the stored one, unless it is
   * a foreign key that a relation part set.
   */
  lemma OwnerUpdateWritesNonNone(owners: map<int, Record>, coupons: seq<Linked>, shippings: seq<Linked>, payments: seq<Linked>, nextId: int, upd: UpdateDict, k: Field)
    requires OwnerUpdated(owners, coupons, shippings, payments, nextId, upd).Ok?
    requires OwnerUpdated(owners, coupons, shippings, payments, nextId, upd).value.Updated?
    requires k in upd.fields
    ensures k in OwnerSchema
    ensures var out := OwnerUpdated(owners, coupons, shippings, payments, nextId, upd).value;
      && k in out.rec
      && (upd.fields[k] != VNone ==> out.rec[k] == upd.fields[k])
      && (upd.fields[k] == VNone && k !in {PaymentId, ShippingId, CouponsId} ==>
            k in owners[out.id] && out.rec[k] == owners[out.id][k])
  {
    var out := OwnerUpdated(owners, coupons, shippings, payments, nextId, upd).value;
    var rec1 := OwnerPaymentPart(owners[out.id], upd, payments);
    var rec2 := OwnerShippingPart(rec1, upd, shippings, nextId).value.0;
    var rec3 := OwnerCouponPart(rec2, upd, coupons).value;
    assert !HasUnknownField(upd.fields, OwnerSchema.Keys);
    assert out.rec == Assign(rec3, upd.fields, true);
    assert Storable(OwnerSchema, out.rec);
    if upd.fields[k] == VNone && k !in {PaymentId, ShippingId, CouponsId} {
      assert k != PaymentId && k != ShippingId && k != CouponsId;
    }
  }

  /**
   * A new shipping name in a successful update is added under the next id
   * and linked to the record, unless the update dict sets `shipping_id`
   * itself.
   */
  lemma OwnerUpdateAddsShipping(owners: map<int, Record>, coupons: seq<Linked>, shippings: seq<Linked>, payments: seq<Linked>, nextId: int, upd: UpdateDict)
    requires OwnerUpdated(owners, coupons, shippings, payments, nextId, upd).Ok?
    requires OwnerUpdated(owners, coupons, shippings, payments, nextId, upd).value.Updated?
    requires Shippings in upd.relations && Truthy(upd.relations[Shippings].key)
    requires FindByKey(shippings, upd.relations[Shippings].key).None?
    ensures var out := OwnerUpdated(owners, coupons, shippings, payments, nextId, upd).value;
      && out.shippings == shippings + [Linked(nextId, upd.relations[Shippings].key, upd.relations[Shippings].amount)]
      && out.nextId == nextId + 1
      && (!Written(upd.fields, ShippingId, true) ==> out.rec[ShippingId] == VInt(nextId))
  {
  }

  /**
   * A new payment name in a successful update leaves `payment_id` None,
   * unless the update dict sets it itself.
   */
  lemma OwnerUpdateNewPaymentUnlinked(owners: map<int, Record>, coupons: seq<Linked>, shippings: seq<Linked>, payments: seq<Linked>, nextId: int, upd: UpdateDict)
    requires OwnerUpdated(owners, coupons, shippings, payments, nextId, upd).Ok?
    requires OwnerUpdated(owners, coupons, shippings, payments, nextId, upd).value.Updated?
    requires Payments in upd.relations && Truthy(upd.relations[Payments].key)
    requires FindByKey(payments, upd.relations[Payments].key).None?
    requires !Written(upd.fields, PaymentId, true)
    ensures OwnerUpdated(owners, coupons, shippings, payments, nextId, upd).value.rec[PaymentId] == VNone
  {
  }

  /**
   * `Company.update(updated)`: like the owner's, but every plain key is
   * written, None included, a new shipping company is never added (the
   * link is the unsaved object's id, None), and every failure is swallowed:
   * the result is `Err` here where the method returns None having rolled
   * back.
   */
  function CompanyUpdated(companies: map<int, Record>, shippings: seq<Linked>, today: Date, upd: UpdateDict): Result<UpdateOutcome, PyError>
  {
    match LookUp(companies, upd)
    case Err(e) => Err(e)
    case Ok(None) => Ok(NotFound)
    case Ok(Some(id)) =>
      var rec := companies[id];
      var rec1 :=
        if Shippings in upd.relations && Truthy(upd.relations[Shippings].key) then
          match FindByKey(shippings, upd.relations[Shippings].key)
          case Some(s) => rec[ShippingId := VInt(s.id)]
          case None => rec[ShippingId := VNone]
        else rec;
      if HasUnknownField(upd.fields, CompanySchema(today).Keys) || upd.relations.Keys - {Shippings} != {} then Err(AttributeError)
      else
        var merged := Assign(rec1, upd.fields, false);
        if Storable(CompanySchema(today), merged) then Ok(Updated(id, merged, shippings, 0))
        else Err(DatabaseError)
  }

  /** A successful `Company.update` writes every plain key's value, None included. */
  lemma CompanyUpdateWritesAll(companies: map<int, Record>, shippings: seq<Linked>, today: Date, upd: UpdateDict, k: Field)
    requires CompanyUpdated(companies, shippings, today, upd).Ok?
    requires CompanyUpdated(companies, shippings, today, upd).value.Updated?
    requires k in upd.fields
    ensures CompanyUpdated(companies, shippings, today, upd).value.rec[k] == upd.fields[k]
  {
  }

  // ---------------------------------------------------------------------
  // Company.add
  // ---------------------------------------------------------------------

  /** The arguments of `Company.add`. */
  datatype CompanyAddArgs = CompanyAddArgs(
    loanAmount: Value, dateOfDebt: Value, paidAmounts: Value, remAmounts: Value,
    note: Value, monthlyPaymentDueDate: Value, shippingName: Value, shippingPercentage: Value)

  /**
   * `Company.add`: the committed row, or the error it raises. A truthy
   * shipping name links the company that has it; a new one raises
   * `ValueError` without a percentage, and with one it is assigned as an
   * object to the foreign key, so the commit fails. Every failure is raised
   * again as `Exception("Error adding company: ...")`.
   */
  function CompanyAddRow(args: CompanyAddArgs, shippings: seq<Linked>, today: Date, id: int): (r: Result<Record, PyError>)
    ensures r.Err? ==> r.error == Raised("Error adding company")
  {
    var link :=
      if !Truthy(args.shippingName) then Ok(VNone)
      else match FindByKey(shippings, args.shippingName)
        case Some(s) => Ok(VInt(s.id))
        case None => if args.shippingPercentage == VNone then Err(ValueError) else Ok(VRecord("ShippingCompany", None));
    match link
    case Err(_) => Err(Raised("Error adding company"))
    case Ok(shippingId) =>
      var values := map[
        LoanAmount := args.loanAmount,
        DateOfDebt := args.dateOfDebt,
        PaidAmounts := args.paidAmounts,
        RemAmounts := args.remAmounts,
        Note := args.note,
        MonthlyPaymentDueDate := args.monthlyPaymentDueDate,
        ShippingId := shippingId
      ];
      match Insert(CompanySchema(today), values, id)
      case Ok(row) => Ok(row)
      case Err(_) => Err(Raised("Error adding company"))
  }

  /** `Company.add` never creates a shipping company: a name that none has makes it fail. */
  lemma CompanyAddNewShippingFails(args: CompanyAddArgs, shippings: seq<Linked>, today: Date, id: int)
    requires Truthy(args.shippingName) && FindByKey(shippings, args.shippingName).None?
    ensures CompanyAddRow(args, shippings, today, id).Err?
  {
    if args.shippingPercentage != VNone {
      var values := map[
        LoanAmount := args.loanAmount,
        DateOfDebt := args.dateOfDebt,
        PaidAmounts := args.paidAmounts,
        RemAmounts := args.remAmounts,
        Note := args.note,
        MonthlyPaymentDueDate := args.monthlyPaymentDueDate,
        ShippingId := VRecord("ShippingCompany", None)
      ];
      var row := InsertedRow(CompanySchema(today), values, id);
      assert ShippingId in CompanySchema(today);
      assert !Binds(IntegerCol, row[ShippingId]);
    }
  }

  /** A debt date left None gets today's date. */
  lemma CompanyAddDefaultsDate(args: CompanyAddArgs, shippings: seq<Linked>, today: Date, id: int)
    requires CompanyAddRow(args, shippings, today, id).Ok?
    requires args.dateOfDebt == VNone
    ensures CompanyAddRow(args, shippings, today, id).value[DateOfDebt] == VDate(today)
  {
    assert DateOfDebt in CompanySchema(today);
  }

  /** The column of a `CompanyOwner` that refers to a record of `kind`. */
  function OwnerForeignKey(kind: LinkedKind): Field
  {
    match kind
    case Coupons => CouponsId
    case Shippings => ShippingId
    case Payments => PaymentId
  }

  /** The row's foreign key `f` holds `id`, as SQL compares the two. */
  predicate RefersTo(row: Record, f: Field, id: int)
  {
    f in row && PyEquals(row[f], VInt(id))
  }

  /**
   * What the session does to the rows that reference a record it deletes
   * through a relationship with no delete cascade: it sets their foreign
   * key to NULL and leaves every other column alone.
   */
  function Detach(rows: map<int, Record>, f: Field, id: int): (r: map<int, Record>)
    ensures r.Keys == rows.Keys
    ensures forall k :: k in r ==> !RefersTo(r[k], f, id)
    ensures forall k :: k in r ==> r[k].Keys == rows[k].Keys
    ensures forall k, g :: k in r && g in r[k] && g != f ==> r[k][g] == rows[k][g]
    ensures forall k :: k in r && !RefersTo(rows[k], f, id) ==> r[k] == rows[k]
  {
    map k | k in rows :: if RefersTo(rows[k], f, id) then rows[k][f := VNone] else rows[k]
  }

  // ---------------------------------------------------------------------
  // The database
  // ---------------------------------------------------------------------

  class Database {
    var coupons: seq<Linked>
    var shippings: seq<Linked>
    var payments: seq<Linked>
    var owners: map<int, Record>
    var companies: map<int, Record>
    /** The next primary key the database hands out. */
    var nextId: int
    /** What `datetime.date.today()` returns. */
    const today: Date

    /** Every id in use is below `nextId`. */
    ghost predicate Valid()
      reads this
    {
      && (forall x :: x in coupons ==> x.id < nextId)
      && (forall x :: x in shippings ==> x.id < nextId)
      && (forall x :: x in payments ==> x.id < nextId)
      && (forall id :: id in owners ==> id < nextId)
      && (forall id :: id in companies ==> id < nextId)
    }

    constructor(today: Date)
      ensures Valid()
      ensures coupons == [] && shippings == [] && payments == [] && owners == map[] && companies == map[]
      ensures this.today == today
    {
      coupons, shippings, payments := [], [], [];
      owners, companies := map[], map[];
      nextId := 1;
      this.today := today;
    }

    function Table(kind: LinkedKind): seq<Linked>
      reads this
    {
      match kind
      case Coupons => coupons
      case Shippings => shippings
      case Payments => payments
    }

    /** `Coupon.add`, `ShippingCompany.add`, `Payment.add`: the new id, or `False`. */
    method AddLinkedRecord(kind: LinkedKind, key: Value, amount: Value) returns (r: Value)
      requires Valid()
      modifies this
      ensures Valid()
      ensures owners == old(owners) && companies == old(companies)
      ensures forall k :: k != kind ==> Table(k) == old(Table(k))
      ensures match AddLinked(old(Table(kind)), old(nextId), key, amount)
        case Some(t) => Table(kind) == t && r == VInt(old(nextId)) && nextId == old(nextId) + 1
        case None => Table(kind) == old(Table(kind)) && r == VBool(false) && nextId == old(nextId)
    {
      var t := AddLinked(Table(kind), nextId, key, amount);
      if t.None? {
        return VBool(false);
      }
      assert forall x :: x in t.value ==> x in Table(kind) || x.id == nextId;
      match kind {
        case Coupons => coupons := t.value;
        case Shippings => shippings := t.value;
        case Payments => payments := t.value;
      }
      r := VInt(nextId);
      nextId := nextId + 1;
    }

    /**
     * `Coupon.remove(code)` and its two twins: the first record with that
     * key is deleted, and the owners (and, for a shipping company, the
     * companies) that referenced it lose that reference; with none,
     * `session.delete(None)` raises and the rollback leaves every table as
     * it was.
     */
    method RemoveLinkedRecord(kind: LinkedKind, key: Value)
      requires Valid()
      modifies this
      ensures Valid()
      ensures nextId == old(nextId)
      ensures forall k :: k != kind ==> Table(k) == old(Table(k))
      ensures var t := old(Table(kind)); var i := FindIndex(t, key);
        if SqlParameter(key) && i < |t| then
          && Table(kind) == t[..i] + t[i + 1..]
          && owners == Detach(old(owners), OwnerForeignKey(kind), t[i].id)
          && companies == (if kind == Shippings then Detach(old(companies), ShippingId, t[i].id) else old(companies))
        else
          Table(kind) == t && owners == old(owners) && companies == old(companies)
      ensures forall x :: x in Table(kind) ==> x in old(Table(kind))
    {
      var t := Table(kind);
      var i := FindIndex(t, key);
      if !SqlParameter(key) || i == |t| {
        return;
      }
      assert forall x :: x in t[..i] + t[i + 1..] ==> x in t;
      owners := Detach(owners, OwnerForeignKey(kind), t[i].id);
      match kind {
        case Coupons => coupons := t[..i] + t[i + 1..];
        case Shippings =>
          shippings := t[..i] + t[i + 1..];
          companies := Detach(companies, ShippingId, t[i].id);
        case Payments => payments := t[..i] + t[i + 1..];
      }
    }

    /** `CompanyOwner.add`: the new `CompanyOwner`, or `False`. */
    method OwnerAdd(args: OwnerAddArgs) returns (r: Value)
      requires Valid()
      modifies this
      ensures Valid()
      ensures coupons == old(coupons) && shippings == old(shippings) && payments == old(payments) && companies == old(companies)
      ensures match OwnerAddRow(args, old(coupons), old(shippings), old(payments), old(nextId))
        case Ok(row) => owners == old(owners)[old(nextId) := row] && r == VRecord("CompanyOwner", Some(old(nextId))) && nextId == old(nextId) + 1
        case Err(_) => owners == old(owners) && r == VBool(false) && nextId == old(nextId)
    {
      var values := OwnerAddValues(args, coupons, shippings, payments);
      var row := Insert(OwnerSchema, values, nextId);
      if row.Err? {
        return VBool(false);
      }
      owners := owners[nextId := row.value];
      r := VRecord("CompanyOwner", Some(nextId));
      nextId := nextId + 1;
    }

    /** `CompanyOwner.update`: the updated record or `False`, or the exception it re-raises. */
    method OwnerUpdate(upd: UpdateDict) returns (r: Result<Value, PyError>)
      requires Valid()
      modifies this
      ensures Valid()
      ensures coupons == old(coupons) && payments == old(payments) && companies == old(companies)
      ensures match OwnerUpdated(old(owners), old(coupons), old(shippings), old(payments), old(nextId), upd)
        case Err(e) => r == Err(e) && owners == old(owners) && shippings == old(shippings) && nextId == old(nextId)
        case Ok(NotFound) => r == Ok(VBool(false)) && owners == old(owners) && shippings == old(shippings) && nextId == old(nextId)
        case Ok(Updated(id, rec, shippings', nextId')) =>
          r == Ok(VRecord("CompanyOwner", Some(id))) && owners == old(owners)[id := rec]
          && shippings == shippings' && nextId == nextId'
    {
      var outcome := UpdateOwnerRecord(owners, coupons, shippings, payments, nextId, upd);
      match outcome {
        case Err(e) => r := Err(e);
        case Ok(NotFound) => r := Ok(VBool(false));
        case Ok(Updated(id, rec, shippings', nextId')) =>
          owners := owners[id := rec];
          shippings := shippings';
          nextId := nextId';
          r := Ok(VRecord("CompanyOwner", Some(id)));
      }
    }

    /** `Company.add`: the new `Company`, or the exception it raises. */
    method CompanyAdd(args: CompanyAddArgs) returns (r: Result<Value, PyError>)
      requires Valid()
      modifies this
      ensures Valid()
      ensures coupons == old(coupons) && shippings == old(shippings) && payments == old(payments) && owners == old(owners)
      ensures match CompanyAddRow(args, old(shippings), today, old(nextId))
        case Ok(row) => companies == old(companies)[old(nextId) := row] && r == Ok(VRecord("Company", Some(old(nextId)))) && nextId == old(nextId) + 1
        case Err(e) => companies == old(companies) && r == Err(e) && nextId == old(nextId)
    {
      var row := CompanyAddRow(args, shippings, today, nextId);
      if row.Err? {
        return Err(row.error);
      }
      companies := companies[nextId := row.value];
      r := Ok(VRecord("Company", Some(nextId)));
      nextId := nextId + 1;
    }

    /** `Company.update`: `False` when no record has the id, else None, having committed or rolled back. */
    method CompanyUpdate(upd: UpdateDict) returns (r: Value)
      requires Valid()
      modifies this
      ensures Valid()
      ensures coupons == old(coupons) && shippings == old(shippings) && payments == old(payments) && owners == old(owners)
      ensures nextId == old(nextId)
      ensures match CompanyUpdated(old(companies), shippings, today, upd)
        case Err(_) => r == VNone && companies == old(companies)
        case Ok(NotFound) => r == VBool(false) && companies == old(companies)
        case Ok(Updated(id, rec, _, _)) => r == VNone && companies == old(companies)[id := rec]
    {
      var found := LookUp(companies, upd);
      if found.Err? {
        return VNone;
      }
      if found.value.None? {
        return VBool(false);
      }
      var id := found.value.value;
      var rec := companies[id];
      if Shippings in upd.relations && Truthy(upd.relations[Shippings].key) {
        match FindByKey(shippings, upd.relations[Shippings].key) {
          case Some(s) => rec := rec[ShippingId := VInt(s.id)];
          case None => rec := rec[ShippingId := VNone];
        }
      }
      var bad := HasUnknownKey(upd.fields.Keys, CompanySchema(today).Keys, {});
      if bad || upd.relations.Keys - {Shippings} != {} {
        return VNone;
      }
      var merged := SetAttributes(rec, upd.fields, false);
      if !Storable(CompanySchema(today), merged) {
        return VNone;
      }
      companies := companies[id := merged];
      r := VNone;
    }
  }
}
