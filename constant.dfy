/**
 * The status enums' Arabic display texts and the user-role numbers.
 *
 * `get_str` and `get_status` accept any Python value: `get_str` compares it
 * with the enum members (an enum member only equals itself), `get_status`
 * with the three texts. Anything else gives `None`.
 */
module Constant {
  import opened Wrappers
  import opened PyValues

  const PAYMENT_PENDING_TEXT: string := "قيد السداد"
  const PAYMENT_COMPLETED_TEXT: string := "تم السداد"
  const PAYMENT_REFUSED_TEXT: string := "لم يسدد"

  const ORDER_PENDING_TEXT: string := "بأنتظار المراجعة"
  const ORDER_COMPLETED_TEXT: string := "تم التوصيل"
  const ORDER_REFUSED_TEXT: string := "مسترجع"

  /** `PaymentStatus.get_str(status)`. */
  function PaymentGetStr(status: Value): (r: Value)
    ensures r.VText? <==> status.VPayment?
    ensures r.VNone? <==> !status.VPayment?
  {
    match status
    case VPayment(PENDING) => VText(PAYMENT_PENDING_TEXT)
    case VPayment(COMPLETED) => VText(PAYMENT_COMPLETED_TEXT)
    case VPayment(REFUSED) => VText(PAYMENT_REFUSED_TEXT)
    case _ => VNone
  }

  /** `PaymentStatus.get_status(text)`. */
  function PaymentGetStatus(text: Value): (r: Value)
    ensures r.VPayment? <==> text in {VText(PAYMENT_PENDING_TEXT), VText(PAYMENT_COMPLETED_TEXT), VText(PAYMENT_REFUSED_TEXT)}
    ensures r.VNone? <==> !r.VPayment?
  {
    if text == VText(PAYMENT_PENDING_TEXT) then VPayment(PaymentStatus.PENDING)
    else if text == VText(PAYMENT_COMPLETED_TEXT) then VPayment(PaymentStatus.COMPLETED)
    else if text == VText(PAYMENT_REFUSED_TEXT) then VPayment(PaymentStatus.REFUSED)
    else VNone
  }

  /** `OrderStatus.get_str(status)`. */
  function OrderGetStr(status: Value): (r: Value)
    ensures r.VText? <==> status.VOrder?
    ensures r.VNone? <==> !status.VOrder?
  {
    match status
    case VOrder(PENDING) => VText(ORDER_PENDING_TEXT)
    case VOrder(COMPLETED) => VText(ORDER_COMPLETED_TEXT)
    case VOrder(REFUSED) => VText(ORDER_REFUSED_TEXT)
    case _ => VNone
  }

  /** `OrderStatus.get_status(text)`. */
  function OrderGetStatus(text: Value): (r: Value)
    ensures r.VOrder? <==> text in {VText(ORDER_PENDING_TEXT), VText(ORDER_COMPLETED_TEXT), VText(ORDER_REFUSED_TEXT)}
    ensures r.VNone? <==> !r.VOrder?
  {
    if text == VText(ORDER_PENDING_TEXT) then VOrder(OrderStatus.PENDING)
    else if text == VText(ORDER_COMPLETED_TEXT) then VOrder(OrderStatus.COMPLETED)
    else if text == VText(ORDER_REFUSED_TEXT) then VOrder(OrderStatus.REFUSED)
    else VNone
  }

  /** Reading a member's text back gives the member. */
  lemma PaymentStrThenStatus(s: PaymentStatus)
    ensures PaymentGetStatus(PaymentGetStr(VPayment(s))) == VPayment(s)
  {
  }

  lemma OrderStrThenStatus(s: OrderStatus)
    ensures OrderGetStatus(OrderGetStr(VOrder(s))) == VOrder(s)
  {
  }

  /** Printing a recognised text's member gives the text. */
  lemma PaymentStatusThenStr(v: Value)
    requires PaymentGetStatus(v).VPayment?
    ensures PaymentGetStr(PaymentGetStatus(v)) == v
  {
  }

  lemma OrderStatusThenStr(v: Value)
    requires OrderGetStatus(v).VOrder?
    ensures OrderGetStr(OrderGetStatus(v)) == v
  {
  }

  /** `get_status` of an enum member, of either enum, is `None`: it only reads texts. */
  lemma StatusOfMemberIsNone(v: Value)
    requires v.VPayment? || v.VOrder?
    ensures PaymentGetStatus(v) == VNone && OrderGetStatus(v) == VNone
  {
  }

  /** `get_str` only recognises its own enum: an `OrderStatus` member has no payment text. */
  lemma StrOfOtherEnumIsNone(p: PaymentStatus, o: OrderStatus)
    ensures PaymentGetStr(VOrder(o)) == VNone && OrderGetStr(VPayment(p)) == VNone
  {
  }

  /** The six texts are pairwise distinct, so the two codecs never read each other's texts. */
  lemma TextsDisjoint(v: Value)
    ensures !(PaymentGetStatus(v).VPayment? && OrderGetStatus(v).VOrder?)
  {
  }

  /** `models/constant.py` `UserRoles`. */
  datatype UserRole = COMPANY | FREELANCE | COMPANY_OWNER | EMPLOYEE | ADMIN

  /** `role.value`. */
  function RoleValue(r: UserRole): (n: nat)
    ensures n <= 4
    ensures r == ADMIN <==> n == 4
  {
    match r
    case COMPANY => 0
    case FREELANCE => 1
    case COMPANY_OWNER => 2
    case EMPLOYEE => 3
    case ADMIN => 4
  }

  /** `UserRoles(n)`; `None` where it raises `ValueError`. */
  function RoleOf(n: int): (r: Option<UserRole>)
    ensures r.Some? <==> 0 <= n <= 4
  {
    if n == 0 then Some(COMPANY)
    else if n == 1 then Some(FREELANCE)
    else if n == 2 then Some(COMPANY_OWNER)
    else if n == 3 then Some(EMPLOYEE)
    else if n == 4 then Some(ADMIN)
    else None
  }

  /** Role values are distinct and name their role. */
  lemma RoleValueRoundTrip(r: UserRole, s: UserRole)
    ensures RoleOf(RoleValue(r)) == Some(r)
    ensures RoleValue(r) == RoleValue(s) ==> r == s
  {
  }
}
