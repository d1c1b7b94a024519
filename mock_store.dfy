/** The client's in-memory data service: arrays of users, products, credit
    records and orders that the service's methods push onto or overwrite in
    place, and the filters the screens read them through. Ids are the
    decimal strings of natural numbers, held here as the numbers; dates are
    milliseconds since the epoch; amounts are paise. */
module MockStore {
  import opened Common
  import opened Products
  import opened Cart
  import CreditLedger
  import Orders

  /** The client's `User`; `userType` is `customer` or `shopkeeper`. */
  datatype ClientUser = ClientUser(
    id: nat, name: string, email: string, phone: string, userType: UserType, createdAt: int)

  /** The client's `CreditRecord`, which carries the customer's name. */
  datatype ClientCredit = ClientCredit(
    id: nat,
    customerId: nat,
    customerName: string,
    shopkeeperId: nat,
    totalAmount: int,
    paidAmount: int,
    remainingAmount: int,
    dueDate: int,
    status: CreditLedger.CreditStatus,
    createdAt: int,
    updatedAt: int)

  /** A credit record without the fields the service fills in itself. */
  datatype CreditInput = CreditInput(
    customerId: nat,
    customerName: string,
    shopkeeperId: nat,
    totalAmount: int,
    paidAmount: int,
    remainingAmount: int,
    dueDate: int,
    status: CreditLedger.CreditStatus)

  /** `Partial<CreditRecord>`: `None` is a key the update object does not
      have. */
  datatype CreditUpdate = CreditUpdate(
    id: Option<nat>,
    customerId: Option<nat>,
    customerName: Option<string>,
    shopkeeperId: Option<nat>,
    totalAmount: Option<int>,
    paidAmount: Option<int>,
    remainingAmount: Option<int>,
    dueDate: Option<int>,
    status: Option<CreditLedger.CreditStatus>,
    createdAt: Option<int>)

  /** The client's `Order`. */
  datatype ClientOrder = ClientOrder(
    id: nat,
    customerId: nat,
    customerName: string,
    shopkeeperId: nat,
    items: seq<ItemLine>,
    totalAmount: int,
    status: Orders.OrderStatus,
    paymentStatus: Orders.PaymentStatus,
    orderDate: int,
    deliveryDate: Option<int>,
    notes: Option<string>)

  /** An order without the fields the service fills in itself. */
  datatype OrderInput = OrderInput(
    customerId: nat,
    customerName: string,
    shopkeeperId: nat,
    items: seq<ItemLine>,
    totalAmount: int,
    status: Orders.OrderStatus,
    paymentStatus: Orders.PaymentStatus,
    deliveryDate: Option<int>,
    notes: Option<string>)

  /** The value a spread leaves in one field: the update's, if it has one. */
  function Pick<T>(update: Option<T>, current: T): T
  {
    if update.Some? then update.value else current
  }

  /** `{...record, ...updates, updatedAt: now}`: every field the update
      names is overwritten, the rest are kept, and `updatedAt` is now.
      Nothing is recomputed: a new paid amount leaves the remaining amount
      and the status as they were. */
  function Merge(c: ClientCredit, u: CreditUpdate, now: int): (r: ClientCredit)
    ensures r.updatedAt == now
    ensures u.paidAmount.Some? ==> r.paidAmount == u.paidAmount.value
    ensures u.remainingAmount.None? ==> r.remainingAmount == c.remainingAmount
    ensures u.status.None? ==> r.status == c.status
    ensures u == CreditUpdate(None, None, None, None, None, None, None, None, None, None) ==>
      r == c.(updatedAt := now)
  {
    ClientCredit(
      Pick(u.id, c.id),
      Pick(u.customerId, c.customerId),
      Pick(u.customerName, c.customerName),
      Pick(u.shopkeeperId, c.shopkeeperId),
      Pick(u.totalAmount, c.totalAmount),
      Pick(u.paidAmount, c.paidAmount),
      Pick(u.remainingAmount, c.remainingAmount),
      Pick(u.dueDate, c.dueDate),
      Pick(u.status, c.status),
      Pick(u.createdAt, c.createdAt),
      now)
  }

  /** Recording a payment through `updateCreditRecord` with only the paid
      amount leaves a record whose remaining amount no longer equals total
      minus paid. */
  lemma MergeLeavesBalanceStale()
    ensures var c := ClientCredit(1, 1, "John Customer", 2, 50000, 20000, 30000, 0, CreditLedger.Pending, 0, 0);
      var r := Merge(c, CreditUpdate(None, None, None, None, None, Some(50000), None, None, None, None), 1);
      r.paidAmount == r.totalAmount && r.remainingAmount == 30000 && r.status == CreditLedger.Pending
  {
  }

  /** The data service. The seed rows it starts with are the constructor's
      arguments. */
  class DataService {
    var users: seq<ClientUser>
    var products: seq<Product>
    var credits: seq<ClientCredit>
    var orders: seq<ClientOrder>

    constructor (users: seq<ClientUser>, products: seq<Product>, credits: seq<ClientCredit>, orders: seq<ClientOrder>)
      ensures this.users == users && this.products == products
      ensures this.credits == credits && this.orders == orders
    {
      this.users := users;
      this.products := products;
      this.credits := credits;
      this.orders := orders;
    }

    // -------------------------------------------------------------------
    // Users

    /** `authenticateUser`: the first user with that email and that type.
        The password takes no part in the decision. */
    function AuthenticateUser(email: string, password: string, userType: UserType): (r: Option<ClientUser>)
      reads this
      ensures r.Some? ==> r.value in users && r.value.email == email && r.value.userType == userType
      ensures r.None? <==> forall k :: 0 <= k < |users| ==> !(users[k].email == email && users[k].userType == userType)
    {
      var i := FirstIndex(users, (u: ClientUser) => u.email == email && u.userType == userType);
      if i < 0 then None else Some(users[i])
    }

    /** `checkEmailExists`. */
    function CheckEmailExists(email: string): (r: bool)
      reads this
      ensures r <==> exists k :: 0 <= k < |users| && users[k].email == email
    {
      FirstIndex(users, (u: ClientUser) => u.email == email) >= 0
    }

    /** Ids are 1, 2, 3, ... in array order, as the seed users have them. */
    predicate SequentialIds()
      reads this
    {
      forall k :: 0 <= k < |users| ==> users[k].id == k + 1
    }

    /** No two users share an email. */
    predicate UniqueEmails()
      reads this
    {
      forall i, j :: 0 <= i < j < |users| ==> users[i].email != users[j].email
    }

    /** `registerUser`: an email already in use throws and nothing changes;
        otherwise exactly one user is pushed, whose id is one more than the
        number of users before. */
    method RegisterUser(name: string, email: string, phone: string, password: string, userType: UserType, now: int)
      returns (r: Result<ClientUser>)
      modifies this
      ensures products == old(products) && credits == old(credits) && orders == old(orders)
      ensures old(CheckEmailExists(email)) ==>
        r == Err("User with this email already exists") && users == old(users)
      ensures !old(CheckEmailExists(email)) ==>
        && r == Ok(ClientUser(|old(users)| + 1, name, email, phone, userType, now))
        && users == old(users) + [r.value]
      ensures r.Ok? ==> CheckEmailExists(email)
      ensures old(SequentialIds()) ==> SequentialIds()
      ensures old(UniqueEmails()) ==> UniqueEmails()
    {
      if CheckEmailExists(email) {
        return Err("User with this email already exists");
      }
      var user := ClientUser(|users| + 1, name, email, phone, userType, now);
      users := users + [user];
      r := Ok(user);
      assert users[|users| - 1].email == email;
    }

    // -------------------------------------------------------------------
    // Products

    /** `getProducts`: one shopkeeper's products, or all of them when no
        shopkeeper is given. */
    function GetProducts(shopkeeperId: Option<nat>): (r: seq<Product>)
      reads this
      ensures shopkeeperId.None? ==> r == products
      ensures shopkeeperId.Some? ==> forall p :: p in r <==> p in products && p.shopkeeper == shopkeeperId.value
    {
      if shopkeeperId.Some? then Filter(products, (p: Product) => p.shopkeeper == shopkeeperId.value)
      else products
    }

    /** `getProductsByCategory`: an exact category match. */
    function GetProductsByCategory(category: string): (r: seq<Product>)
      reads this
      ensures forall p :: p in r <==> p in products && p.category == category
    {
      Filter(products, (p: Product) => p.category == category)
    }

    /** `searchProducts`: the lower-cased query must occur in the
        lower-cased name, description or category; there is no blank test,
        so the empty query keeps everything. */
    function SearchProducts(query: string): (r: seq<Product>)
      reads this
      ensures forall p :: p in r <==> p in products && MatchesQuery(p, Lower(query))
    {
      Filter(products, (p: Product) => MatchesQuery(p, Lower(query)))
    }

    /** `getCategories`: each category once, in order of first appearance. */
    function GetCategories(): (r: seq<string>)
      reads this
      ensures forall c :: c in r <==> exists p :: p in products && p.category == c
      ensures forall i, j :: 0 <= i < j < |r| ==> r[i] != r[j]
    {
      ProductCategories(products)
    }

    // -------------------------------------------------------------------
    // Credit records

    /** `getCreditRecords`: a customer's own records; for any other type,
        the records where the user is the shopkeeper. */
    function GetCreditRecords(userId: nat, userType: UserType): (r: seq<ClientCredit>)
      reads this
      ensures userType == Customer ==> forall c :: c in r <==> c in credits && c.customerId == userId
      ensures userType != Customer ==> forall c :: c in r <==> c in credits && c.shopkeeperId == userId
    {
      if userType == Customer then Filter(credits, (c: ClientCredit) => c.customerId == userId)
      else Filter(credits, (c: ClientCredit) => c.shopkeeperId == userId)
    }

    /** `createCreditRecord`: the record is pushed with the clock reading
        as its id and as both timestamps. */
    method CreateCreditRecord(input: CreditInput, now: nat) returns (r: ClientCredit)
      modifies this
      ensures r == ClientCredit(now, input.customerId, input.customerName, input.shopkeeperId,
                                input.totalAmount, input.paidAmount, input.remainingAmount,
                                input.dueDate, input.status, now, now)
      ensures credits == old(credits) + [r]
      ensures users == old(users) && products == old(products) && orders == old(orders)
    {
      r := ClientCredit(now, input.customerId, input.customerName, input.shopkeeperId,
                        input.totalAmount, input.paidAmount, input.remainingAmount,
                        input.dueDate, input.status, now, now);
      credits := credits + [r];
    }

    /** `updateCreditRecord`: the first record with the id gets the update
        merged in and is returned; an unknown id returns null and changes
        nothing. */
    method UpdateCreditRecord(id: nat, updates: CreditUpdate, now: int) returns (r: Option<ClientCredit>)
      modifies this
      ensures users == old(users) && products == old(products) && orders == old(orders)
      ensures r.None? <==> forall k :: 0 <= k < |old(credits)| ==> old(credits)[k].id != id
      ensures r.None? ==> credits == old(credits)
      ensures r.Some? ==>
        exists i :: 0 <= i < |old(credits)| && old(credits)[i].id == id
          && (forall k :: 0 <= k < i ==> old(credits)[k].id != id)
          && r.value == Merge(old(credits)[i], updates, now)
          && credits == old(credits)[i := r.value]
    {
      var i := FirstIndex(credits, (c: ClientCredit) => c.id == id);
      if i == -1 {
        return None;
      }
      var merged := Merge(credits[i], updates, now);
      credits := credits[i := merged];
      r := Some(merged);
    }

    /** `getOverdueCreditRecords`: records whose stored status is still
        pending, whose due date has passed and that have something left
        to pay. */
    function GetOverdueCreditRecords(now: int): (r: seq<ClientCredit>)
      reads this
      ensures forall c :: c in r <==>
        c in credits && c.status == CreditLedger.Pending && c.dueDate < now && c.remainingAmount > 0
      ensures forall k :: 0 <= k < |r| ==> r[k].dueDate < now && r[k].remainingAmount > 0
    {
      Filter(credits, (c: ClientCredit) => c.status == CreditLedger.Pending && c.dueDate < now && c.remainingAmount > 0)
    }

    // -------------------------------------------------------------------
    // Orders

    /** `getOrders`: a customer's own orders; for any other type, the
        orders where the user is the shopkeeper. */
    function GetOrders(userId: nat, userType: UserType): (r: seq<ClientOrder>)
      reads this
      ensures userType == Customer ==> forall o :: o in r <==> o in orders && o.customerId == userId
      ensures userType != Customer ==> forall o :: o in r <==> o in orders && o.shopkeeperId == userId
    {
      if userType == Customer then Filter(orders, (o: ClientOrder) => o.customerId == userId)
      else Filter(orders, (o: ClientOrder) => o.shopkeeperId == userId)
    }

    /** `createOrder`: the order is pushed with the clock reading as its id
        and its order date. */
    method CreateOrder(input: OrderInput, now: nat) returns (r: ClientOrder)
      modifies this
      ensures r == ClientOrder(now, input.customerId, input.customerName, input.shopkeeperId, input.items,
                               input.totalAmount, input.status, input.paymentStatus, now,
                               input.deliveryDate, input.notes)
      ensures orders == old(orders) + [r]
      ensures users == old(users) && products == old(products) && credits == old(credits)
    {
      r := ClientOrder(now, input.customerId, input.customerName, input.shopkeeperId, input.items,
                       input.totalAmount, input.status, input.paymentStatus, now,
                       input.deliveryDate, input.notes);
      orders := orders + [r];
    }

    /** `updateOrderStatus`: only the status of the first order with the id
        changes; an unknown id returns null and changes nothing. */
    method UpdateOrderStatus(orderId: nat, status: Orders.OrderStatus) returns (r: Option<ClientOrder>)
      modifies this
      ensures users == old(users) && products == old(products) && credits == old(credits)
      ensures r.None? <==> forall k :: 0 <= k < |old(orders)| ==> old(orders)[k].id != orderId
      ensures r.None? ==> orders == old(orders)
      ensures r.Some? ==>
        exists i :: 0 <= i < |old(orders)| && old(orders)[i].id == orderId
          && (forall k :: 0 <= k < i ==> old(orders)[k].id != orderId)
          && r.value == old(orders)[i].(status := status)
          && orders == old(orders)[i := r.value]
    {
      var i := FirstIndex(orders, (o: ClientOrder) => o.id == orderId);
      if i == -1 {
        return None;
      }
      var updated := orders[i].(status := status);
      orders := orders[i := updated];
      r := Some(updated);
    }
  }

  /** The password never changes the outcome of `authenticateUser`. */
  lemma PasswordIgnored(ds: DataService, email: string, p1: string, p2: string, userType: UserType)
    ensures ds.AuthenticateUser(email, p1, userType) == ds.AuthenticateUser(email, p2, userType)
  {
  }

  /** The empty query matches every product: every text contains "". */
  lemma {:induction false} EmptySearchKeepsAll(ds: DataService)
    ensures forall p :: p in ds.SearchProducts("") <==> p in ds.products
  {
    forall p | p in ds.products
      ensures MatchesQuery(p, Lower(""))
    {
      ContainsWitness(Lower(p.name), "", 0);
    }
  }

  /** The mock store and the backend disagree on what "overdue" means: the
      store selects records whose stored status is pending, the backend's
      overdue list those whose stored status is overdue. The same record,
      past due and unpaid, is in exactly one of the two. */
  lemma {:induction false} OverdueDisagreement(ds: DataService, now: int, c: ClientCredit)
    requires c in ds.credits && c.dueDate < now && c.remainingAmount > 0
    ensures c in ds.GetOverdueCreditRecords(now) <==> c.status == CreditLedger.Pending
    ensures c.status == CreditLedger.Overdue ==> c !in ds.GetOverdueCreditRecords(now)
  {
  }
}
