/** The order handlers of `backend/routes/orders.js`: placing an order
    (check every line, save, then decrement stock line by line), reading one
    order, listing all, and the two PATCH handlers that overwrite stored fields. */
module Orders {
  import opened Common
  import opened OrderModel
  import opened Catalog

  datatype OrderError =
    | ProductMissing(product: ProductId)   // "Product <id> not found"
    | InsufficientStock(productName: string) // "Insufficient stock for <name>"
    | InvalidOrder                          // the save's schema validation failed
    | OrderNotFound
    | AccessDenied

  /** The body of POST `/`; a customer in the body is ignored. */
  datatype OrderRequest = OrderRequest(items: seq<LineItem>, total: Option<int>, paymentMethod: Option<string>)

  /** The body of PATCH `/:id/payment`; an absent or empty id is None or "". */
  datatype PaymentPatch = PaymentPatch(
    paymentStatus: Option<PaymentStatus>,
    razorpayOrderId: Option<string>,
    razorpayPaymentId: Option<string>,
    paypalOrderId: Option<string>)

  /** The snapshot stored with an order: the authenticated user's name and email. */
  function CustomerOf(user: User): (c: Customer)
    ensures c.name == user.name && c.email == user.email && c.phone.None? && c.address.None?
  {
    Customer(user.name, user.email, None, None)
  }

  // ---------------------------------------------------------------------------
  // The first pass: every line is checked against the stock stored now.

  /** A line fails when its product is unknown or has less stock than the line asks for. */
  predicate LineFails(products: map<ProductId, Product>, item: LineItem) {
    item.product !in products || products[item.product].stock < item.quantity
  }

  function LineError(products: map<ProductId, Product>, item: LineItem): OrderError {
    if item.product !in products then ProductMissing(item.product)
    else InsufficientStock(products[item.product].name)
  }

  /** The error of the first failing line, as the checking loop reports it. */
  function ItemError(products: map<ProductId, Product>, items: seq<LineItem>): Option<OrderError> {
    if items == [] then None
    else if LineFails(products, items[0]) then Some(LineError(products, items[0]))
    else ItemError(products, items[1..])
  }

  /** The check passes exactly when every line, taken on its own, passes. */
  lemma {:induction false} ItemErrorNoneIff(products: map<ProductId, Product>, items: seq<LineItem>)
    ensures ItemError(products, items).None? <==> forall i :: 0 <= i < |items| ==> !LineFails(products, items[i])
  {
    if items != [] {
      ItemErrorNoneIff(products, items[1..]);
      assert forall i :: 1 <= i < |items| ==> items[i] == items[1..][i - 1];
    }
  }

  /** The reported error is that of the first failing line. */
  lemma {:induction false} ItemErrorIsFirstFailure(products: map<ProductId, Product>, items: seq<LineItem>, k: nat)
    requires k < |items| && LineFails(products, items[k])
    requires forall j :: 0 <= j < k ==> !LineFails(products, items[j])
    ensures ItemError(products, items) == Some(LineError(products, items[k]))
  {
    if k > 0 {
      assert !LineFails(products, items[0]);
      assert forall j :: 0 <= j < k - 1 ==> items[1..][j] == items[j + 1];
      ItemErrorIsFirstFailure(products, items[1..], k - 1);
    }
  }

  // ---------------------------------------------------------------------------
  // The second pass: `$inc: { stock: -quantity }` for each line in turn.

  function DecrementOne(products: map<ProductId, Product>, item: LineItem): map<ProductId, Product> {
    if item.product in products
    then products[item.product := products[item.product].(stock := products[item.product].stock - item.quantity)]
    else products
  }

  /** The catalogue after the decrement loop has run over `items`, in order. */
  function AfterDecrement(products: map<ProductId, Product>, items: seq<LineItem>): map<ProductId, Product>
    decreases |items|
  {
    if items == [] then products
    else DecrementOne(AfterDecrement(products, items[..|items| - 1]), items[|items| - 1])
  }

  /** Sum of the quantities of the lines that reference `id`. */
  function QuantityOf(items: seq<LineItem>, id: ProductId): int
    decreases |items|
  {
    if items == [] then 0
    else QuantityOf(items[..|items| - 1], id) + (if items[|items| - 1].product == id then items[|items| - 1].quantity else 0)
  }

  /** Number of lines that reference `id`. */
  function LinesFor(items: seq<LineItem>, id: ProductId): nat
    decreases |items|
  {
    if items == [] then 0
    else LinesFor(items[..|items| - 1], id) + (if items[|items| - 1].product == id then 1 else 0)
  }

  /** Each product's stock drops by exactly the summed quantities of the lines
      that reference it; no product appears or disappears, and nothing else
      about a product changes. */
  lemma {:induction false} StockAfterOrder(products: map<ProductId, Product>, items: seq<LineItem>)
    ensures AfterDecrement(products, items).Keys == products.Keys
    ensures forall id :: id in products ==>
      AfterDecrement(products, items)[id] == products[id].(stock := products[id].stock - QuantityOf(items, id))
    decreases |items|
  {
    if items != [] {
      StockAfterOrder(products, items[..|items| - 1]);
    }
  }

  /** With every quantity at least one, each line lowers its product's stock by at least one. */
  lemma {:induction false} QuantityAtLeastLines(items: seq<LineItem>, id: ProductId)
    requires QuantitiesValid(items)
    ensures QuantityOf(items, id) >= LinesFor(items, id)
    decreases |items|
  {
    if items != [] {
      QuantityAtLeastLines(items[..|items| - 1], id);
    }
  }

  /** A saved order has every quantity at least one, so its decrement pass
      lowers each referenced product's stock by at least the number of its
      lines and never raises any stock. */
  lemma OrderLowersStock(products: map<ProductId, Product>, items: seq<LineItem>)
    requires QuantitiesValid(items)
    ensures forall id :: id in products ==>
      id in AfterDecrement(products, items)
      && AfterDecrement(products, items)[id].stock <= products[id].stock - LinesFor(items, id)
  {
    StockAfterOrder(products, items);
    forall id | id in products
      ensures AfterDecrement(products, items)[id].stock <= products[id].stock - LinesFor(items, id)
    {
      QuantityAtLeastLines(items, id);
    }
  }

  /** A line for `id` is the only one for it: the sum is that line's quantity. */
  lemma {:induction false} QuantityOfSingleLine(items: seq<LineItem>, k: nat)
    requires k < |items|
    requires forall j :: 0 <= j < |items| && j != k ==> items[j].product != items[k].product
    ensures QuantityOf(items, items[k].product) == items[k].quantity
    decreases |items|
  {
    var n := |items| - 1;
    if k < n {
      QuantityOfSingleLine(items[..n], k);
    } else {
      QuantityOfNone(items[..n], items[k].product);
    }
  }

  lemma {:induction false} QuantityOfNone(items: seq<LineItem>, id: ProductId)
    requires forall j :: 0 <= j < |items| ==> items[j].product != id
    ensures QuantityOf(items, id) == 0
    decreases |items|
  {
    if items != [] {
      QuantityOfNone(items[..|items| - 1], id);
    }
  }

  /** When no product appears on two lines, the check guarantees no stock goes negative. */
  lemma DistinctLinesKeepStock(products: map<ProductId, Product>, items: seq<LineItem>)
    requires forall id :: id in products ==> products[id].stock >= 0
    requires ItemError(products, items).None?
    requires forall i, j :: 0 <= i < j < |items| ==> items[i].product != items[j].product
    ensures forall id :: id in AfterDecrement(products, items) ==> AfterDecrement(products, items)[id].stock >= 0
  {
    StockAfterOrder(products, items);
    ItemErrorNoneIff(products, items);
    forall id | id in products ensures products[id].stock - QuantityOf(items, id) >= 0 {
      if k :| 0 <= k < |items| && items[k].product == id {
        QuantityOfSingleLine(items, k);
      } else {
        QuantityOfNone(items, id);
      }
    }
  }

  /** The check is per line, so two lines for one product can together take
      more than its stock: with one unit in stock, two one-unit lines pass the
      check and leave the stock at -1. */
  lemma DuplicateLinesOversell()
    ensures var products := map[7 := Product(7, "Mouse", "", 49900, "Accessories", 1, [], "/uploads/m.png", true)];
      var items := [LineItem(7, 1, 49900), LineItem(7, 1, 49900)];
      && ItemError(products, items).None?
      && 7 in AfterDecrement(products, items)
      && AfterDecrement(products, items)[7].stock == -1
  {
    var products := map[7 := Product(7, "Mouse", "", 49900, "Accessories", 1, [], "/uploads/m.png", true)];
    var items := [LineItem(7, 1, 49900), LineItem(7, 1, 49900)];
    assert items[1..] == [LineItem(7, 1, 49900)];
    assert items[..1] == [LineItem(7, 1, 49900)];
    StockAfterOrder(products, items);
    assert QuantityOf(items, 7) == 2 by {
      assert items[..1][..0] == [];
    }
  }

  // ---------------------------------------------------------------------------
  // Access and the two PATCH handlers.

  /** GET `/:id`: an admin sees any order, anyone else only orders whose
      customer email is theirs. */
  predicate CanView(user: User, order: Order) {
    IsAdmin(user) || order.customer.email == user.email
  }

  /** Whoever places an order may read it back. */
  lemma PlacerCanView(user: User, items: seq<LineItem>, total: Option<int>, method_: Option<string>)
    requires NewOrder(CustomerOf(user), items, total, method_).Some?
    ensures CanView(user, NewOrder(CustomerOf(user), items, total, method_).value)
  {
  }

  /** PATCH `/:id/status`: a status supplied in the body overwrites the stored
      one; an absent one leaves it. */
  function StatusPatched(o: Order, orderStatus: Option<OrderStatus>, paymentStatus: Option<PaymentStatus>): (r: Order)
    ensures orderStatus.Some? ==> r.orderStatus == orderStatus.value
    ensures orderStatus.None? ==> r.orderStatus == o.orderStatus
    ensures paymentStatus.Some? ==> r.paymentStatus == paymentStatus.value
    ensures paymentStatus.None? ==> r.paymentStatus == o.paymentStatus
    ensures r.(orderStatus := o.orderStatus, paymentStatus := o.paymentStatus) == o
    ensures ValidOrder(o) ==> ValidOrder(r)
  {
    var o1 := if orderStatus.Some? then o.(orderStatus := orderStatus.value) else o;
    if paymentStatus.Some? then o1.(paymentStatus := paymentStatus.value) else o1
  }

  /** There are no transition rules: any pair of statuses can be written over
      any order, including reopening a delivered or cancelled one. */
  lemma AnyStatusReachable(o: Order, target: OrderStatus, payment: PaymentStatus)
    ensures StatusPatched(o, Some(target), Some(payment)).orderStatus == target
    ensures StatusPatched(o, Some(target), Some(payment)).paymentStatus == payment
  {
  }

  /** Sending the same status patch twice is the same as sending it once. */
  lemma StatusPatchIdempotent(o: Order, orderStatus: Option<OrderStatus>, paymentStatus: Option<PaymentStatus>)
    ensures StatusPatched(StatusPatched(o, orderStatus, paymentStatus), orderStatus, paymentStatus)
      == StatusPatched(o, orderStatus, paymentStatus)
  {
  }

  /** JavaScript truthiness of an optional string from the body. */
  predicate Given(s: Option<string>) {
    s.Some? && s.value != ""
  }

  /** PATCH `/:id/payment`: the payment status becomes the supplied one or
      `completed`; each gateway id is overwritten only when supplied. */
  function PaymentPatched(o: Order, p: PaymentPatch): (r: Order)
    ensures r.paymentStatus == (if p.paymentStatus.Some? then p.paymentStatus.value else Completed)
    ensures r.razorpayOrderId == (if Given(p.razorpayOrderId) then p.razorpayOrderId else o.razorpayOrderId)
    ensures r.razorpayPaymentId == (if Given(p.razorpayPaymentId) then p.razorpayPaymentId else o.razorpayPaymentId)
    ensures r.paypalOrderId == (if Given(p.paypalOrderId) then p.paypalOrderId else o.paypalOrderId)
    ensures r.customer == o.customer && r.items == o.items && r.total == o.total
    ensures r.paymentMethod == o.paymentMethod && r.orderStatus == o.orderStatus
    ensures ValidOrder(o) ==> ValidOrder(r)
  {
    o.(paymentStatus := if p.paymentStatus.Some? then p.paymentStatus.value else Completed,
       razorpayOrderId := if Given(p.razorpayOrderId) then p.razorpayOrderId else o.razorpayOrderId,
       razorpayPaymentId := if Given(p.razorpayPaymentId) then p.razorpayPaymentId else o.razorpayPaymentId,
       paypalOrderId := if Given(p.paypalOrderId) then p.paypalOrderId else o.paypalOrderId)
  }

  /** An empty payment patch marks the order paid and touches nothing else. */
  lemma EmptyPaymentPatchCompletes(o: Order)
    ensures PaymentPatched(o, PaymentPatch(None, None, None, None)) == o.(paymentStatus := Completed)
  {
  }

  /** Sending the same payment patch twice is the same as sending it once. */
  lemma PaymentPatchIdempotent(o: Order, p: PaymentPatch)
    ensures PaymentPatched(PaymentPatched(o, p), p) == PaymentPatched(o, p)
  {
  }

  // ---------------------------------------------------------------------------
  // The Order collection together with the Product collection it reserves from.

  class OrderService {
    const catalog: ProductStore
    var orders: seq<Order>

    /** Every stored order passed the schema's validation, and nothing later undoes that. */
    ghost predicate Valid()
      reads this, catalog
    {
      && catalog.Valid()
      && forall i :: 0 <= i < |orders| ==> ValidOrder(orders[i])
    }

    constructor (catalog: ProductStore)
      requires catalog.Valid()
      ensures Valid() && this.catalog == catalog && orders == []
    {
      this.catalog := catalog;
      orders := [];
    }

    /** POST `/`. On an error nothing is written; on success the order is
        appended exactly as built from the request and the authenticated user,
        and the stock of every referenced product drops by the summed quantities. */
    method PlaceOrder(user: User, req: OrderRequest) returns (r: Result<nat, OrderError>)
      requires Valid()
      modifies this, catalog
      ensures Valid() && catalog.nextId == old(catalog.nextId)
      ensures r.Err? ==> orders == old(orders) && catalog.products == old(catalog.products)
      ensures ItemError(old(catalog.products), req.items).Some? ==>
        r == Err(ItemError(old(catalog.products), req.items).value)
      ensures (ItemError(old(catalog.products), req.items).None?
        && NewOrder(CustomerOf(user), req.items, req.total, req.paymentMethod).None?) ==>
        r == Err(InvalidOrder)
      ensures r.Ok? <==>
        && ItemError(old(catalog.products), req.items).None?
        && NewOrder(CustomerOf(user), req.items, req.total, req.paymentMethod).Some?
      ensures r.Ok? ==>
        && ItemError(old(catalog.products), req.items).None?
        && NewOrder(CustomerOf(user), req.items, req.total, req.paymentMethod).Some?
        && r.value == |old(orders)|
        && orders == old(orders) + [NewOrder(CustomerOf(user), req.items, req.total, req.paymentMethod).value]
        && catalog.products == AfterDecrement(old(catalog.products), req.items)
    {
      var customer := CustomerOf(user);
      var i := 0;
      while i < |req.items|
        invariant 0 <= i <= |req.items|
        invariant ItemError(catalog.products, req.items) == ItemError(catalog.products, req.items[i..])
      {
        var item := req.items[i];
        assert req.items[i..][1..] == req.items[i + 1..];
        if item.product !in catalog.products {
          return Err(ProductMissing(item.product));
        }
        var product := catalog.products[item.product];
        if product.stock < item.quantity {
          return Err(InsufficientStock(product.name));
        }
        i := i + 1;
      }
      var order := NewOrder(customer, req.items, req.total, req.paymentMethod);
      if order.None? {
        return Err(InvalidOrder);
      }
      orders := orders + [order.value];
      r := Ok(|orders| - 1);
      i := 0;
      while i < |req.items|
        invariant 0 <= i <= |req.items|
        invariant catalog.Valid() && catalog.nextId == old(catalog.nextId)
        invariant catalog.products == AfterDecrement(old(catalog.products), req.items[..i])
        invariant orders == old(orders) + [order.value]
      {
        var item := req.items[i];
        assert req.items[..i + 1][..i] == req.items[..i];
        var found := catalog.IncStock(item.product, -item.quantity);
        i := i + 1;
      }
      assert req.items[..i] == req.items;
    }

    /** GET `/:id`. */
    method ViewOrder(user: User, id: nat) returns (r: Result<Order, OrderError>)
      requires Valid()
      ensures id >= |orders| ==> r == Err(OrderNotFound)
      ensures id < |orders| && !CanView(user, orders[id]) ==> r == Err(AccessDenied)
      ensures r.Ok? <==> id < |orders| && CanView(user, orders[id])
      ensures r.Ok? ==> r.value == orders[id] && ValidOrder(r.value)
    {
      if id >= |orders| {
        return Err(OrderNotFound);
      }
      var order := orders[id];
      if !IsAdmin(user) && order.customer.email != user.email {
        return Err(AccessDenied);
      }
      r := Ok(order);
    }

    /** GET `/`: every order, newest first. */
    method ListOrders() returns (r: seq<Order>)
      requires Valid()
      ensures |r| == |orders|
      ensures forall k :: 0 <= k < |r| ==> r[k] == orders[|orders| - 1 - k]
    {
      r := [];
      var i := |orders|;
      while i > 0
        invariant 0 <= i <= |orders|
        invariant |r| == |orders| - i
        invariant forall k :: 0 <= k < |r| ==> r[k] == orders[|orders| - 1 - k]
      {
        i := i - 1;
        r := r + [orders[i]];
      }
    }

    /** PATCH `/:id/status`. */
    method UpdateStatus(id: nat, orderStatus: Option<OrderStatus>, paymentStatus: Option<PaymentStatus>)
      returns (r: Result<Order, OrderError>)
      requires Valid()
      modifies this
      ensures Valid()
      ensures id >= |old(orders)| ==> r == Err(OrderNotFound) && orders == old(orders)
      ensures id < |old(orders)| ==>
        && orders == old(orders)[id := StatusPatched(old(orders)[id], orderStatus, paymentStatus)]
        && r == Ok(orders[id])
    {
      if id >= |orders| {
        return Err(OrderNotFound);
      }
      var updated := StatusPatched(orders[id], orderStatus, paymentStatus);
      orders := orders[id := updated];
      r := Ok(updated);
    }

    /** PATCH `/:id/payment`. */
    method UpdatePayment(id: nat, patch: PaymentPatch) returns (r: Result<Order, OrderError>)
      requires Valid()
      modifies this
      ensures Valid()
      ensures id >= |old(orders)| ==> r == Err(OrderNotFound) && orders == old(orders)
      ensures id < |old(orders)| ==>
        && orders == old(orders)[id := PaymentPatched(old(orders)[id], patch)]
        && r == Ok(orders[id])
    {
      if id >= |orders| {
        return Err(OrderNotFound);
      }
      var updated := PaymentPatched(orders[id], patch);
      orders := orders[id := updated];
      r := Ok(updated);
    }
  }
}
