/** The backend's orders: the status enumerations, the order-creation
    serializer (validation, then totals accumulated over the requested
    lines with name and price snapshots), the line-total rule of
    `OrderItem.save`, and the role-gated views that create, update,
    confirm, cancel and list orders. */
module Orders {
  import opened Common
  import opened FieldChecks
  import opened Products

  datatype OrderStatus = Pending | Confirmed | Delivered | Cancelled
  datatype PaymentStatus = Unpaid | Partial | Paid

  function OrderStatusName(s: OrderStatus): string
  {
    match s
    case Pending => "pending"
    case Confirmed => "confirmed"
    case Delivered => "delivered"
    case Cancelled => "cancelled"
  }

  function PaymentStatusName(s: PaymentStatus): string
  {
    match s
    case Unpaid => "unpaid"
    case Partial => "partial"
    case Paid => "paid"
  }

  /** The choice field for `status`: exactly the four stored names. */
  function ParseOrderStatus(s: string): (r: Option<OrderStatus>)
    ensures r.Some? <==> s in {"pending", "confirmed", "delivered", "cancelled"}
    ensures r.Some? ==> OrderStatusName(r.value) == s
  {
    if s == "pending" then Some(Pending)
    else if s == "confirmed" then Some(Confirmed)
    else if s == "delivered" then Some(Delivered)
    else if s == "cancelled" then Some(Cancelled)
    else None
  }

  /** The choice field for `payment_status`: exactly the three stored names. */
  function ParsePaymentStatus(s: string): (r: Option<PaymentStatus>)
    ensures r.Some? <==> s in {"unpaid", "partial", "paid"}
    ensures r.Some? ==> PaymentStatusName(r.value) == s
  {
    if s == "unpaid" then Some(Unpaid)
    else if s == "partial" then Some(Partial)
    else if s == "paid" then Some(Paid)
    else None
  }

  /** The two enumerations round-trip through their stored names. */
  lemma StatusNamesRoundTrip(s: OrderStatus, p: PaymentStatus)
    ensures ParseOrderStatus(OrderStatusName(s)) == Some(s)
    ensures ParsePaymentStatus(PaymentStatusName(p)) == Some(p)
  {
  }

  /** One order line as stored: the product, the name and unit price
      copied from it at ordering time, the quantity and the line total. */
  datatype OrderLine = OrderLine(
    productId: nat, productName: string, quantity: int, price: int, totalPrice: int)

  function LineTotal(l: OrderLine): int
  {
    l.totalPrice
  }

  /** A line whose total agrees with `OrderItem.save`. */
  predicate LineConsistent(l: OrderLine)
  {
    l.totalPrice == l.price * l.quantity
  }

  datatype Order = Order(
    id: nat,
    customer: nat,
    shopkeeper: nat,
    totalAmount: int,
    status: OrderStatus,
    paymentStatus: PaymentStatus,
    notes: string,
    deliveryDate: Option<int>,
    items: seq<OrderLine>)

  // ---------------------------------------------------------------------
  // OrderItem.save

  /** A stored order line. */
  class OrderItem {
    var productId: nat
    var productName: string
    var quantity: int
    var price: int
    var totalPrice: int

    function Line(): OrderLine
      reads this
    {
      OrderLine(productId, productName, quantity, price, totalPrice)
    }

    /** `quantity` defaults to 1; the total is only set by `Save`. */
    constructor (productId: nat, productName: string, price: int, totalPrice: int)
      ensures Line() == OrderLine(productId, productName, 1, price, totalPrice)
    {
      this.productId := productId;
      this.productName := productName;
      this.quantity := 1;
      this.price := price;
      this.totalPrice := totalPrice;
    }

    /** Overwrites whatever total was supplied with price times quantity. */
    method Save()
      modifies this
      ensures Line() == old(Line()).(totalPrice := old(price) * old(quantity))
      ensures LineConsistent(Line())
    {
      totalPrice := price * quantity;
    }
  }

  // ---------------------------------------------------------------------
  // OrderCreateSerializer

  datatype ItemRequest = ItemRequest(productId: nat, quantity: int)

  datatype OrderRequest = OrderRequest(shopkeeperId: nat, items: seq<ItemRequest>, notes: Option<string>)

  const MIN_QUANTITY_ERROR := "Ensure this value is greater than or equal to 1."
  const EMPTY_ORDER_ERROR := "Order must contain at least one item."

  /** `Product.objects.get(id=..., is_active=True)` succeeds. */
  predicate ProductFound(products: seq<Product>, id: nat)
  {
    Lookup(products, id).Some? && Lookup(products, id).value.isActive
  }

  /** The check `validate` makes on one line: the product is found and its
      stock covers the quantity (equal stock is enough). */
  predicate ItemAvailable(item: ItemRequest, products: seq<Product>)
  {
    ProductFound(products, item.productId) && Lookup(products, item.productId).value.stock >= item.quantity
  }

  /** The message `validate` raises for an unavailable line. */
  function ItemError(item: ItemRequest, products: seq<Product>): string
  {
    if !ProductFound(products, item.productId) then
      "Product with id " + NatToString(item.productId) + " not found."
    else
      var p := Lookup(products, item.productId).value;
      "Insufficient stock for " + p.name + ". Available: " + IntText(p.stock)
  }

  /** The loop of `validate`: the first unavailable line, in request order,
      decides the error; each line is checked on its own, so stock is not
      reserved across lines. */
  function CheckItems(items: seq<ItemRequest>, products: seq<Product>): (r: Result<()>)
    ensures r.Ok? <==> forall k :: 0 <= k < |items| ==> ItemAvailable(items[k], products)
    ensures r.Err? ==> exists k :: (0 <= k < |items| && !ItemAvailable(items[k], products)
      && r.message == ItemError(items[k], products)
      && forall j :: 0 <= j < k ==> ItemAvailable(items[j], products))
  {
    var i := FirstIndex(items, (item: ItemRequest) => !ItemAvailable(item, products));
    if i < 0 then Ok(()) else Err(ItemError(items[i], products))
  }

  /** What the nested item serializer reports for one line: its
      `quantity` below the `min_value` of 1, or nothing. */
  function LineErrors(item: ItemRequest): (r: ItemErrors)
    ensures r.errors == [] <==> item.quantity >= 1
  {
    ItemErrors(if item.quantity < 1 then [FieldError("quantity", Messages([MIN_QUANTITY_ERROR]))] else [])
  }

  /** The `items` field: when some line has a quantity below 1, one error
      object per line (empty for the lines that pass); otherwise
      `validate_items` refuses an empty list. */
  function ItemsField(items: seq<ItemRequest>): (r: Option<ErrorDetail>)
    ensures r.None? <==> |items| > 0 && forall k :: 0 <= k < |items| ==> items[k].quantity >= 1
    ensures (exists k :: 0 <= k < |items| && items[k].quantity < 1) ==>
      r.Some? && r.value.PerItem? && |r.value.items| == |items|
      && forall k :: 0 <= k < |items| ==> r.value.items[k] == LineErrors(items[k])
    ensures items == [] ==> r == Some(Messages([EMPTY_ORDER_ERROR]))
  {
    if FirstIndex(items, (i: ItemRequest) => i.quantity < 1) >= 0 then
      Some(PerItem(seq(|items|, k requires 0 <= k < |items| => LineErrors(items[k]))))
    else if items == [] then Some(Messages([EMPTY_ORDER_ERROR]))
    else None
  }

  const NON_FIELD_ERRORS := "non_field_errors"

  /** The whole request check, in the order the serializer runs it: the
      field checks (of which only `items` can fail: `shopkeeper_id` is any
      integer and `notes` may be blank), and only when they pass, the
      product and stock checks of `validate`, reported under
      `non_field_errors`. The notes are kept stripped. */
  function ValidateOrder(req: OrderRequest, products: seq<Product>): (r: Validated<OrderRequest>)
    ensures r.Valid? <==>
      && |req.items| > 0
      && forall k :: 0 <= k < |req.items| ==>
           req.items[k].quantity >= 1 && ItemAvailable(req.items[k], products)
    ensures r.Valid? ==> r.value == req.(notes := if req.notes.Some? then Some(Strip(req.notes.value)) else None)
    ensures ItemsField(req.items).Some? ==> r == Invalid([FieldError("items", ItemsField(req.items).value)])
    ensures ItemsField(req.items).None? && CheckItems(req.items, products).Err? ==>
      r == Invalid([FieldError(NON_FIELD_ERRORS, Messages([CheckItems(req.items, products).message]))])
  {
    var items := ItemsField(req.items);
    if items.Some? then Invalid([FieldError("items", items.value)])
    else
      var check := CheckItems(req.items, products);
      if check.Err? then Invalid([FieldError(NON_FIELD_ERRORS, Messages([check.message]))])
      else Valid(req.(notes := if req.notes.Some? then Some(CheckText(req.notes.value, true, None).value) else None))
  }

  /** The line `create` builds for a requested item and its product. */
  function LineFor(item: ItemRequest, p: Product): OrderLine
  {
    OrderLine(p.id, p.name, item.quantity, p.price, p.price * item.quantity)
  }

  /** The accumulation loop of `create`: one line per requested item, in
      request order and with duplicates kept apart, each carrying the
      product's name and current price, and the running total of their
      line totals. */
  method BuildOrder(items: seq<ItemRequest>, products: seq<Product>) returns (total: int, lines: seq<OrderLine>)
    requires forall k :: 0 <= k < |items| ==> Lookup(products, items[k].productId).Some?
    ensures |lines| == |items|
    ensures forall k :: 0 <= k < |items| ==>
      lines[k] == LineFor(items[k], Lookup(products, items[k].productId).value)
    ensures forall k :: 0 <= k < |lines| ==> LineConsistent(lines[k])
    ensures total == SumOf(lines, LineTotal)
  {
    total := 0;
    lines := [];
    var i := 0;
    while i < |items|
      invariant 0 <= i <= |items|
      invariant |lines| == i
      invariant forall k :: 0 <= k < i ==>
        lines[k] == LineFor(items[k], Lookup(products, items[k].productId).value)
      invariant total == SumOf(lines, LineTotal)
    {
      var product := Lookup(products, items[i].productId).value;
      var quantity := items[i].quantity;
      var price := product.price;
      var totalPrice := price * quantity;
      total := total + totalPrice;
      var line := OrderLine(product.id, product.name, quantity, price, totalPrice);
      assert (lines + [line])[..|lines + [line]| - 1] == lines;
      assert SumOf(lines + [line], LineTotal) == SumOf(lines, LineTotal) + LineTotal(line);
      lines := lines + [line];
      i := i + 1;
    }
  }

  /** With non-negative prices and quantities an order total is never
      negative. */
  lemma {:induction false} TotalNonNegative(lines: seq<OrderLine>)
    requires forall k :: 0 <= k < |lines| ==> LineConsistent(lines[k])
    requires forall k :: 0 <= k < |lines| ==> lines[k].price >= 0 && lines[k].quantity >= 0
    ensures SumOf(lines, LineTotal) >= 0
  {
    forall k | 0 <= k < |lines|
      ensures LineTotal(lines[k]) >= 0
    {
      assert lines[k].price * lines[k].quantity >= 0;
    }
    SumOfNonNegative(lines, LineTotal);
  }

  /** Stock is checked line by line: two lines asking each for the whole
      stock of one product both pass, although together they ask for
      twice what is available. */
  lemma DuplicateLinesNotCumulative(p: Product)
    requires p.isActive && p.stock >= 1
    ensures ValidateOrder(OrderRequest(p.shopkeeper, [ItemRequest(p.id, p.stock), ItemRequest(p.id, p.stock)], None), [p]).Valid?
  {
    assert Lookup([p], p.id) == Some(p);
  }

  // ---------------------------------------------------------------------
  // Views

  /** `get_queryset` of the list and detail views: a customer's own
      orders, a shopkeeper's shop orders, nothing for anyone else. */
  function VisibleOrders(orders: seq<Order>, user: User): (r: seq<Order>)
    ensures user.userType == OtherType ==> r == []
    ensures forall o :: o in r <==> (o in orders &&
      ((user.userType == Customer && o.customer == user.id)
       || (user.userType == Shopkeeper && o.shopkeeper == user.id)))
  {
    match user.userType
    case Customer => Filter(orders, (o: Order) => o.customer == user.id)
    case Shopkeeper => Filter(orders, (o: Order) => o.shopkeeper == user.id)
    case OtherType => []
  }

  /** The first order with this id among those the predicate lets the
      caller reach, or -1. */
  function FindOwned(orders: seq<Order>, id: nat, user: User, asCustomer: bool): (r: int)
    ensures -1 <= r < |orders|
    ensures r >= 0 ==> (orders[r].id == id
      && (if asCustomer then orders[r].customer else orders[r].shopkeeper) == user.id)
    ensures r == -1 <==> forall k :: 0 <= k < |orders| ==>
      !(orders[k].id == id && (if asCustomer then orders[k].customer else orders[k].shopkeeper) == user.id)
  {
    FirstIndex(orders, (o: Order) => o.id == id && (if asCustomer then o.customer else o.shopkeeper) == user.id)
  }

  /** The changes a PATCH through `OrderUpdateSerializer` may carry: only
      status, payment status and delivery date are writable. */
  datatype OrderPatch = OrderPatch(
    status: Option<string>, paymentStatus: Option<string>, deliveryDate: Option<Option<int>>)

  /** The `status` field of a patch: unchanged when left out, else one of
      the choices. */
  function StatusField(v: Option<string>, current: OrderStatus): (r: Result<OrderStatus>)
    ensures r.Ok? <==> v.None? || ParseOrderStatus(v.value).Some?
    ensures r.Ok? ==> r.value == if v.None? then current else ParseOrderStatus(v.value).value
    ensures r.Err? ==> r.message == ChoiceError(v.value)
  {
    if v.None? then Ok(current)
    else if ParseOrderStatus(v.value).None? then Err(ChoiceError(v.value))
    else Ok(ParseOrderStatus(v.value).value)
  }

  /** The `payment_status` field of a patch. */
  function PaymentStatusField(v: Option<string>, current: PaymentStatus): (r: Result<PaymentStatus>)
    ensures r.Ok? <==> v.None? || ParsePaymentStatus(v.value).Some?
    ensures r.Ok? ==> r.value == if v.None? then current else ParsePaymentStatus(v.value).value
    ensures r.Err? ==> r.message == ChoiceError(v.value)
  {
    if v.None? then Ok(current)
    else if ParsePaymentStatus(v.value).None? then Err(ChoiceError(v.value))
    else Ok(ParsePaymentStatus(v.value).value)
  }

  /** The serializer's outcome on an order: the order with only the three
      writable fields replaced, or a body naming each of the two choice
      fields that holds a value outside its choices. */
  function ApplyPatch(o: Order, patch: OrderPatch): (r: Validated<Order>)
    ensures r.Valid? <==>
      (patch.status.None? || ParseOrderStatus(patch.status.value).Some?)
      && (patch.paymentStatus.None? || ParsePaymentStatus(patch.paymentStatus.value).Some?)
    ensures r.Valid? ==> r.value.(status := o.status, paymentStatus := o.paymentStatus,
                                  deliveryDate := o.deliveryDate) == o
    ensures r.Valid? && patch.status.Some? ==> OrderStatusName(r.value.status) == patch.status.value
    ensures r.Valid? && patch.status.None? ==> r.value.status == o.status
    ensures r.Valid? && patch.paymentStatus.Some? ==>
      PaymentStatusName(r.value.paymentStatus) == patch.paymentStatus.value
    ensures r.Valid? && patch.paymentStatus.None? ==> r.value.paymentStatus == o.paymentStatus
    ensures r.Valid? ==> r.value.deliveryDate == (if patch.deliveryDate.Some? then patch.deliveryDate.value else o.deliveryDate)
    ensures r.Invalid? ==>
      && FieldsOf(r.errors) == (if StatusField(patch.status, o.status).Ok? then [] else ["status"])
                               + (if PaymentStatusField(patch.paymentStatus, o.paymentStatus).Ok? then [] else ["payment_status"])
      && ErrorOf(r.errors, "status") == Report(StatusField(patch.status, o.status))
      && ErrorOf(r.errors, "payment_status") == Report(PaymentStatusField(patch.paymentStatus, o.paymentStatus))
  {
    var status := StatusField(patch.status, o.status);
    var paymentStatus := PaymentStatusField(patch.paymentStatus, o.paymentStatus);
    if status.Ok? && paymentStatus.Ok? then
      Valid(o.(status := status.value, paymentStatus := paymentStatus.value,
               deliveryDate := if patch.deliveryDate.Some? then patch.deliveryDate.value else o.deliveryDate))
    else
      CollectTwo(("status", Report(status)), ("payment_status", Report(paymentStatus)));
      Invalid(Collect([("status", Report(status)), ("payment_status", Report(paymentStatus))]))
  }

  /** What `OrderUpdateSerializer` returns after a PATCH: the three
      writable fields, and nothing else of the order. */
  datatype PatchedFields = PatchedFields(status: OrderStatus, paymentStatus: PaymentStatus, deliveryDate: Option<int>)

  function PatchedFieldsOf(o: Order): PatchedFields
  {
    PatchedFields(o.status, o.paymentStatus, o.deliveryDate)
  }

  /** An amount `OrderSerializer` can render. Its decimal fields have ten
      digits with two decimals, and rendering quantizes the value under a
      precision of ten digits, so an amount of 10^10 paise or more in size
      raises instead. */
  predicate Renderable(paise: int)
  {
    -MONEY_BOUND < paise < MONEY_BOUND
  }

  /** An order whose reply can be rendered: its total and every line's
      price and total. */
  predicate OrderRenderable(o: Order)
  {
    && Renderable(o.totalAmount)
    && forall k :: 0 <= k < |o.items| ==> Renderable(o.items[k].price) && Renderable(o.items[k].totalPrice)
  }

  /** The lines `create` builds for a request whose products all exist. */
  function NewLines(items: seq<ItemRequest>, products: seq<Product>): (r: seq<OrderLine>)
    requires forall k :: 0 <= k < |items| ==> Lookup(products, items[k].productId).Some?
    ensures |r| == |items|
    ensures forall k :: 0 <= k < |items| ==> r[k] == LineFor(items[k], Lookup(products, items[k].productId).value)
  {
    seq(|items|, k requires 0 <= k < |items| => LineFor(items[k], Lookup(products, items[k].productId).value))
  }

  /** The order table. */
  class OrderBook {
    var orders: seq<Order>

    constructor (orders: seq<Order>)
      ensures this.orders == orders
    {
      this.orders := orders;
    }

    /** `OrderListCreateView.create`: customers only; the request is
        validated, then the order is built with the caller as customer,
        status pending, payment status unpaid and notes defaulting to the
        empty string. The product table is only read. `users` holds the ids
        of every account: the shopkeeper id is not checked by the
        serializer, so an id of no account reaches the insert, whose
        foreign key constraint fails; the unhandled error is a 500 and no
        order is stored. (Any account will do, a customer's included.) An
        order whose total or a line's price or total cannot be rendered
        also ends in a 500, and no order is kept. */
    method Create(user: User, req: OrderRequest, products: seq<Product>, users: set<nat>, id: nat)
      returns (reply: Reply<Order>)
      modifies this
      ensures user.userType != Customer ==>
        reply == Failure(FORBIDDEN, "Only customers can create orders.") && orders == old(orders)
      ensures user.userType == Customer && ValidateOrder(req, products).Invalid? ==>
        reply == Rejected(BAD_REQUEST, ValidateOrder(req, products).errors) && orders == old(orders)
      ensures user.userType == Customer && ValidateOrder(req, products).Valid? && req.shopkeeperId !in users ==>
        reply == Crashed(SERVER_ERROR) && orders == old(orders)
      ensures user.userType == Customer && ValidateOrder(req, products).Valid? ==>
        var lines := NewLines(req.items, products);
        var fits := Renderable(SumOf(lines, LineTotal))
          && forall k :: 0 <= k < |lines| ==> Renderable(lines[k].price) && Renderable(lines[k].totalPrice);
        && (!fits ==> reply == Crashed(SERVER_ERROR) && orders == old(orders))
        && (reply.Success? <==> req.shopkeeperId in users && fits)
      ensures reply.Success? ==>
        && reply.code == CREATED
        && orders == old(orders) + [reply.body]
        && OrderRenderable(reply.body)
        && reply.body.id == id
        && reply.body.customer == user.id
        && reply.body.shopkeeper == req.shopkeeperId
        && reply.body.status == Pending
        && reply.body.paymentStatus == Unpaid
        && reply.body.deliveryDate == None
        && reply.body.notes == (if req.notes.Some? then Strip(req.notes.value) else "")
        && |reply.body.items| == |req.items|
        && (forall k :: 0 <= k < |req.items| ==>
              reply.body.items[k] == LineFor(req.items[k], Lookup(products, req.items[k].productId).value))
        && reply.body.totalAmount == SumOf(reply.body.items, LineTotal)
    {
      if user.userType != Customer {
        return Failure(FORBIDDEN, "Only customers can create orders.");
      }
      var check := ValidateOrder(req, products);
      if check.Invalid? {
        return Rejected(BAD_REQUEST, check.errors);
      }
      var total, lines := BuildOrder(req.items, products);
      assert lines == NewLines(req.items, products);
      if req.shopkeeperId !in users {
        return Crashed(SERVER_ERROR);
      }
      var notes := if check.value.notes.Some? then check.value.notes.value else "";
      var order := Order(id, user.id, req.shopkeeperId, total, Pending, Unpaid, notes, None, lines);
      if !OrderRenderable(order) {
        return Crashed(SERVER_ERROR);
      }
      orders := orders + [order];
      reply := Success(CREATED, order);
    }

    /** `OrderDetailView.update`: shopkeepers only, on their own shop's
        orders, with the writable fields validated against their choices.
        The reply carries the serializer's data, the three writable
        fields. */
    method Update(user: User, id: nat, patch: OrderPatch) returns (reply: Reply<PatchedFields>)
      modifies this
      ensures |orders| == |old(orders)|
      ensures !reply.Success? ==> orders == old(orders)
      ensures user.userType != Shopkeeper ==>
        reply == Failure(FORBIDDEN, "Only shopkeepers can update order status.")
      ensures user.userType == Shopkeeper && FindOwned(old(orders), id, user, false) == -1 ==>
        reply == Failure(NOT_FOUND, "Not found.")
      ensures reply.Success? ==>
        var i := FindOwned(old(orders), id, user, false);
        && user.userType == Shopkeeper && i >= 0
        && ApplyPatch(old(orders)[i], patch) == Valid(orders[i])
        && orders == old(orders)[i := orders[i]]
        && reply == Success(OK, PatchedFieldsOf(orders[i]))
      ensures user.userType == Shopkeeper && FindOwned(old(orders), id, user, false) >= 0 ==>
        var patched := ApplyPatch(old(orders)[FindOwned(old(orders), id, user, false)], patch);
        (reply.Success? <==> patched.Valid?) && (patched.Invalid? ==> reply == Rejected(BAD_REQUEST, patched.errors))
    {
      if user.userType != Shopkeeper {
        return Failure(FORBIDDEN, "Only shopkeepers can update order status.");
      }
      var i := FindOwned(orders, id, user, false);
      if i < 0 {
        return Failure(NOT_FOUND, "Not found.");
      }
      var patched := ApplyPatch(orders[i], patch);
      if patched.Invalid? {
        return Rejected(BAD_REQUEST, patched.errors);
      }
      orders := orders[i := patched.value];
      reply := Success(OK, PatchedFieldsOf(patched.value));
    }

    /** `confirm_order`: a shopkeeper confirms one of their own shop's
        orders, whatever its current status; only the status changes. The
        save comes before the reply is rendered, so an order that cannot be
        rendered is still confirmed, and the reply is a 500. */
    method Confirm(user: User, id: nat) returns (reply: Reply<Order>)
      modifies this
      ensures reply.Failure? ==> orders == old(orders)
      ensures user.userType != Shopkeeper ==>
        reply == Failure(FORBIDDEN, "Only shopkeepers can confirm orders.")
      ensures user.userType == Shopkeeper && FindOwned(old(orders), id, user, false) == -1 ==>
        reply == Failure(NOT_FOUND, "Order not found.")
      ensures !reply.Failure? <==> user.userType == Shopkeeper && FindOwned(old(orders), id, user, false) >= 0
      ensures !reply.Failure? ==>
        var i := FindOwned(old(orders), id, user, false);
        var order := old(orders)[i].(status := Confirmed);
        && orders == old(orders)[i := order]
        && reply == (if OrderRenderable(order) then Success(OK, order) else Crashed(SERVER_ERROR))
    {
      if user.userType != Shopkeeper {
        return Failure(FORBIDDEN, "Only shopkeepers can confirm orders.");
      }
      var i := FindOwned(orders, id, user, false);
      if i < 0 {
        return Failure(NOT_FOUND, "Order not found.");
      }
      var order := orders[i].(status := Confirmed);
      orders := orders[i := order];
      if !OrderRenderable(order) {
        return Crashed(SERVER_ERROR);
      }
      reply := Success(OK, order);
    }

    /** `cancel_order`: a customer cancels their own order; any other user
        cancels an order of their shop. The status becomes cancelled
        whatever it was, and nothing else changes. As in `Confirm`, an order
        that cannot be rendered is cancelled and answered with a 500. */
    method Cancel(user: User, id: nat) returns (reply: Reply<Order>)
      modifies this
      ensures reply.Failure? ==> orders == old(orders) && reply == Failure(NOT_FOUND, "Order not found.")
      ensures !reply.Failure? <==> FindOwned(old(orders), id, user, user.userType == Customer) >= 0
      ensures !reply.Failure? ==>
        var i := FindOwned(old(orders), id, user, user.userType == Customer);
        var order := old(orders)[i].(status := Cancelled);
        && orders == old(orders)[i := order]
        && reply == (if OrderRenderable(order) then Success(OK, order) else Crashed(SERVER_ERROR))
    {
      var i := FindOwned(orders, id, user, user.userType == Customer);
      if i < 0 {
        return Failure(NOT_FOUND, "Order not found.");
      }
      var order := orders[i].(status := Cancelled);
      orders := orders[i := order];
      if !OrderRenderable(order) {
        return Crashed(SERVER_ERROR);
      }
      reply := Success(OK, order);
    }
  }
}
