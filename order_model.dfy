/** The Order record of `backend/models/Order.js`: its fields, enumerations,
    defaults and the validation a save runs. */
module OrderModel {
  import opened Common

  /** Product ids; the database's object ids are opaque, so any countable type will do. */
  type ProductId = nat

  datatype PaymentMethod = Razorpay | PayPal

  datatype PaymentStatus = PaymentPending | Completed | Failed

  datatype OrderStatus = Pending | Processing | Shipped | Delivered | Cancelled

  /** Customer snapshot; phone and address are optional. */
  datatype Customer = Customer(name: string, email: string, phone: Option<string>, address: Option<string>)

  datatype LineItem = LineItem(product: ProductId, quantity: int, price: int)

  datatype Order = Order(
    customer: Customer,
    items: seq<LineItem>,
    total: int,
    paymentMethod: PaymentMethod,
    paymentStatus: PaymentStatus,
    orderStatus: OrderStatus,
    razorpayOrderId: Option<string>,
    razorpayPaymentId: Option<string>,
    paypalOrderId: Option<string>)

  /** The schema's enumeration for `paymentMethod`, as stored strings. */
  function PaymentMethodName(m: PaymentMethod): string {
    match m
    case Razorpay => "razorpay"
    case PayPal => "paypal"
  }

  /** The enumeration check: only the two listed spellings are accepted. */
  function ParsePaymentMethod(s: string): (r: Option<PaymentMethod>)
    ensures r.Some? <==> s == "razorpay" || s == "paypal"
  {
    if s == "razorpay" then Some(Razorpay)
    else if s == "paypal" then Some(PayPal)
    else None
  }

  lemma PaymentMethodRoundTrip(m: PaymentMethod, s: string)
    ensures ParsePaymentMethod(PaymentMethodName(m)) == Some(m)
    ensures ParsePaymentMethod(s) == Some(m) ==> s == PaymentMethodName(m)
  {
  }

  /** A required String path rejects a missing value and the empty string. */
  predicate RequiredString(s: string) {
    s != ""
  }

  /** Every line item satisfies `quantity: { min: 1 }`. */
  predicate QuantitiesValid(items: seq<LineItem>) {
    forall i :: 0 <= i < |items| ==> items[i].quantity >= 1
  }

  /** What the schema demands of a stored order beyond what the field types give. */
  predicate ValidOrder(o: Order) {
    && RequiredString(o.customer.name)
    && RequiredString(o.customer.email)
    && QuantitiesValid(o.items)
  }

  /** `new Order({customer, items, total, paymentMethod}).save()`: the schema
      validates the document and fills the defaults, or the save fails (None). */
  function NewOrder(customer: Customer, items: seq<LineItem>, total: Option<int>, paymentMethod: Option<string>): (r: Option<Order>)
    ensures r.Some? <==>
      && RequiredString(customer.name) && RequiredString(customer.email)
      && QuantitiesValid(items)
      && total.Some?
      && paymentMethod.Some? && ParsePaymentMethod(paymentMethod.value).Some?
    ensures r.Some? ==> ValidOrder(r.value)
    ensures r.Some? ==>
      && r.value.customer == customer
      && r.value.items == items
      && r.value.total == total.value
      && PaymentMethodName(r.value.paymentMethod) == paymentMethod.value
    ensures r.Some? ==>
      && r.value.paymentStatus == PaymentPending
      && r.value.orderStatus == Pending
      && r.value.razorpayOrderId.None? && r.value.razorpayPaymentId.None? && r.value.paypalOrderId.None?
  {
    if !RequiredString(customer.name) || !RequiredString(customer.email) then None
    else if !QuantitiesValid(items) then None
    else if total.None? then None
    else if paymentMethod.None? then None
    else
      match ParsePaymentMethod(paymentMethod.value)
      case None => None
      case Some(m) =>
        Some(Order(customer, items, total.value, m, PaymentPending, Pending, None, None, None))
  }
}
