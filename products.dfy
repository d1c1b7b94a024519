/** The backend's product rules: the price and stock validators, the
    "shopkeeper or read-only" permission, the product list filters, and the
    product table with creation by a shopkeeper and soft deletion. */
module Products {
  import opened Common
  import opened FieldChecks

  datatype Product = Product(
    id: nat,
    name: string,
    description: string,
    price: int,
    category: string,
    stock: int,
    shopkeeper: nat,
    isActive: bool)

  /** The `in_stock` property. */
  function InStock(p: Product): bool
  {
    p.stock > 0
  }

  /** The first product with the given id, if any. */
  function Lookup(rows: seq<Product>, id: nat): (r: Option<Product>)
    ensures r.Some? ==> r.value in rows && r.value.id == id
    ensures r.None? <==> forall k :: 0 <= k < |rows| ==> rows[k].id != id
  {
    var i := FirstIndex(rows, (p: Product) => p.id == id);
    if i < 0 then None else Some(rows[i])
  }

  // ---------------------------------------------------------------------
  // Serializers (both product serializers apply the same two rules)

  /** `validate_price`: negative prices are refused, zero is allowed. */
  function ValidatePrice(value: int): (r: Result<int>)
    ensures r.Ok? <==> value >= 0
    ensures r.Ok? ==> r.value == value
    ensures r.Err? ==> r.message == "Price must be positive."
  {
    if value < 0 then Err("Price must be positive.") else Ok(value)
  }

  /** `validate_stock`: negative stock is refused, zero is allowed. */
  function ValidateStock(value: int): (r: Result<int>)
    ensures r.Ok? <==> value >= 0
    ensures r.Ok? ==> r.value == value
    ensures r.Err? ==> r.message == "Stock cannot be negative."
  {
    if value < 0 then Err("Stock cannot be negative.") else Ok(value)
  }

  /** The writable fields of a product; `id`, `shopkeeper` and the
      timestamps are read-only to clients. */
  datatype ProductData = ProductData(
    name: string, description: string, price: int, category: string, stock: int, isActive: bool)

  /** The stored values of `CATEGORY_CHOICES`. */
  const CATEGORIES := ["groceries", "dairy", "bakery", "vegetables", "fruits", "beverages", "snacks", "other"]

  /** The `name` field: not blank and at most 255 characters once
      stripped; the stripped text is what gets stored. */
  function NameField(name: string): (r: Result<string>)
    ensures r.Ok? <==> Strip(name) != [] && |Strip(name)| <= 255
    ensures r.Ok? ==> r.value == Strip(name)
    ensures Strip(name) == [] ==> r == Err(BLANK_ERROR)
    ensures |Strip(name)| > 255 ==> r == Err(MaxLengthError(255))
  {
    CheckText(name, false, Some(255))
  }

  /** The `price` field: ten digits at most, then `validate_price`. */
  function PriceField(price: int): (r: Result<int>)
    ensures r.Ok? <==> 0 <= price < MONEY_BOUND
    ensures r.Ok? ==> r.value == price
    ensures -MONEY_BOUND < price < 0 ==> r == Err("Price must be positive.")
    ensures !(-MONEY_BOUND < price < MONEY_BOUND) ==> r == Err(CheckMoney(price).message)
  {
    Then(CheckMoney(price), ValidatePrice)
  }

  /** The `category` field: one of the choices. */
  function CategoryField(category: string): (r: Result<string>)
    ensures r.Ok? <==> category in CATEGORIES
    ensures r.Ok? ==> r.value == category
    ensures r.Err? ==> r.message == ChoiceError(category)
  {
    if category in CATEGORIES then Ok(category) else Err(ChoiceError(category))
  }

  /** `ProductCreateUpdateSerializer` validation of a full body, field by
      field in declaration order: `name`, `description` (blank allowed,
      never refused), `price`, `category` and `stock` (`validate_stock`).
      When every field passes, the data with both texts stripped; otherwise
      a body naming exactly the failing fields, in that order, each with
      its own field's message. */
  function ValidateProduct(data: ProductData): (r: Validated<ProductData>)
    ensures r.Valid? <==>
      NameField(data.name).Ok? && PriceField(data.price).Ok? && CategoryField(data.category).Ok?
      && ValidateStock(data.stock).Ok?
    ensures r.Valid? ==> r.value == data.(name := Strip(data.name), description := Strip(data.description))
    ensures r.Invalid? ==>
      && FieldsOf(r.errors) ==
           (if NameField(data.name).Ok? then [] else ["name"])
           + (if PriceField(data.price).Ok? then [] else ["price"])
           + (if CategoryField(data.category).Ok? then [] else ["category"])
           + (if ValidateStock(data.stock).Ok? then [] else ["stock"])
      && ErrorOf(r.errors, "name") == Report(NameField(data.name))
      && ErrorOf(r.errors, "price") == Report(PriceField(data.price))
      && ErrorOf(r.errors, "category") == Report(CategoryField(data.category))
      && ErrorOf(r.errors, "stock") == Report(ValidateStock(data.stock))
  {
    var name := NameField(data.name);
    var price := PriceField(data.price);
    var category := CategoryField(data.category);
    var stock := ValidateStock(data.stock);
    if name.Ok? && price.Ok? && category.Ok? && stock.Ok? then
      Valid(data.(name := name.value, description := CheckText(data.description, true, None).value))
    else
      CollectFour(("name", Report(name)), ("price", Report(price)),
                  ("category", Report(category)), ("stock", Report(stock)));
      Invalid(Collect([("name", Report(name)), ("price", Report(price)),
                       ("category", Report(category)), ("stock", Report(stock))]))
  }

  /** A body with a blank name and a category outside the choices (but a
      valid price and stock) is refused on both counts, each under its own
      field, and nothing else is reported. */
  lemma BlankNameAndUnknownCategory(data: ProductData)
    requires Strip(data.name) == [] && data.category !in CATEGORIES
    requires 0 <= data.price < MONEY_BOUND && data.stock >= 0
    ensures var r := ValidateProduct(data);
      && r.Invalid?
      && FieldsOf(r.errors) == ["name", "category"]
      && ErrorOf(r.errors, "name") == Some(Messages([BLANK_ERROR]))
      && ErrorOf(r.errors, "category") == Some(Messages([ChoiceError(data.category)]))
  {
    assert NameField(data.name) == Err(BLANK_ERROR);
    assert PriceField(data.price).Ok? && ValidateStock(data.stock).Ok?;
    assert CategoryField(data.category) == Err(ChoiceError(data.category));
    var r := ValidateProduct(data);
    assert FieldsOf(r.errors) == ["name"] + [] + ["category"] + [];
    NameAndCategory();
  }

  lemma NameAndCategory()
    ensures ["name"] + [] + ["category"] + [] == ["name", "category"]
  {
  }

  // ---------------------------------------------------------------------
  // Permission `IsShopkeeperOrReadOnly`

  datatype HttpMethod = Get | Head | Options | Post | Put | Patch | Delete

  /** Django REST framework's safe methods. */
  predicate IsSafe(m: HttpMethod)
  {
    m == Get || m == Head || m == Options
  }

  /** `has_permission`; `user` is None for an anonymous request. */
  predicate HasPermission(m: HttpMethod, user: Option<User>)
  {
    if IsSafe(m) then true
    else user.Some? && user.value.userType == Shopkeeper
  }

  /** `has_object_permission`. */
  predicate HasObjectPermission(m: HttpMethod, user: Option<User>, p: Product)
  {
    if IsSafe(m) then true
    else user.Some? && p.shopkeeper == user.value.id
  }

  /** The decision table: reads are open to everyone at both levels; a
      write passes the view level only for an authenticated shopkeeper and
      the object level only for the product's own shopkeeper. */
  lemma PermissionTable(m: HttpMethod, user: Option<User>, p: Product)
    ensures IsSafe(m) ==> HasPermission(m, user) && HasObjectPermission(m, user, p)
    ensures !IsSafe(m) ==>
      (HasPermission(m, user) <==> user.Some? && user.value.userType == Shopkeeper)
    ensures !IsSafe(m) ==>
      (HasObjectPermission(m, user, p) <==> user.Some? && user.value.id == p.shopkeeper)
    ensures !IsSafe(m) && HasPermission(m, user) && HasObjectPermission(m, user, p) ==>
      user.Some? && user.value.userType == Shopkeeper && user.value.id == p.shopkeeper
  {
  }

  /** The reply of a refused permission: 401 without credentials, 403 with. */
  function Denied<T>(user: Option<User>): Reply<T>
  {
    if user.None? then Failure(UNAUTHORIZED, "Authentication credentials were not provided.")
    else Failure(FORBIDDEN, "You do not have permission to perform this action.")
  }

  // ---------------------------------------------------------------------
  // Views

  /** `ProductListCreateView.get_queryset`: active products only, then the
      optional `category` and `shopkeeper` parameters (an empty category is
      no filter), combined with AND, in table order. */
  function ListProducts(rows: seq<Product>, category: string, shopkeeper: Option<nat>): (r: seq<Product>)
    ensures forall p :: p in r <==>
      (&& p in rows && p.isActive
       && (category == "" || p.category == category)
       && (shopkeeper.None? || p.shopkeeper == shopkeeper.value))
    ensures category == "" && shopkeeper.None? ==> r == Filter(rows, (p: Product) => p.isActive)
  {
    var active := Filter(rows, (p: Product) => p.isActive);
    var byCategory := if category != "" then Filter(active, (p: Product) => p.category == category) else active;
    if shopkeeper.Some? then Filter(byCategory, (p: Product) => p.shopkeeper == shopkeeper.value) else byCategory
  }

  /** The product table. */
  class ProductStore {
    var rows: seq<Product>

    constructor (rows: seq<Product>)
      ensures this.rows == rows
    {
      this.rows := rows;
    }

    /** A POST to the list view: the permission check, the serializer,
        then `perform_create`, which makes the caller the product's
        shopkeeper. */
    method Create(user: Option<User>, data: ProductData, id: nat) returns (reply: Reply<Product>)
      modifies this
      ensures !HasPermission(Post, user) ==> reply == Denied(user) && rows == old(rows)
      ensures HasPermission(Post, user) && ValidateProduct(data).Invalid? ==>
        reply == Rejected(BAD_REQUEST, ValidateProduct(data).errors) && rows == old(rows)
      ensures reply.Success? <==> HasPermission(Post, user) && ValidateProduct(data).Valid?
      ensures reply.Success? ==>
        && reply.code == CREATED
        && reply.body == Product(id, Strip(data.name), Strip(data.description), data.price, data.category,
                                 data.stock, user.value.id, data.isActive)
        && rows == old(rows) + [reply.body]
    {
      if !HasPermission(Post, user) {
        return Denied(user);
      }
      var v := ValidateProduct(data);
      if v.Invalid? {
        return Rejected(BAD_REQUEST, v.errors);
      }
      var d := v.value;
      assert d == data.(name := Strip(data.name), description := Strip(data.description));
      var p := Product(id, d.name, d.description, d.price, d.category, d.stock, user.value.id, d.isActive);
      rows := rows + [p];
      reply := Success(CREATED, p);
    }

    /** A DELETE on the detail view: the view-level permission, the lookup
        among all products (inactive ones included), the object-level
        permission, then `perform_destroy`, which only clears `is_active`:
        the row stays in the table. */
    method Destroy(user: Option<User>, id: nat) returns (reply: Reply<()>)
      modifies this
      ensures |rows| == |old(rows)|
      ensures !reply.Success? ==> rows == old(rows)
      ensures !HasPermission(Delete, user) ==> reply == Denied(user)
      ensures HasPermission(Delete, user) && Lookup(old(rows), id).None? ==>
        reply == Failure(NOT_FOUND, "Not found.")
      ensures reply.Success? <==>
        Lookup(old(rows), id).Some? && user.Some? && user.value.userType == Shopkeeper
        && Lookup(old(rows), id).value.shopkeeper == user.value.id
      ensures reply.Success? ==>
        && reply.code == 204
        && exists i :: 0 <= i < |rows| && old(rows)[i] == Lookup(old(rows), id).value
             && rows == old(rows)[i := old(rows)[i].(isActive := false)]
    {
      if !HasPermission(Delete, user) {
        return Denied(user);
      }
      var i := FirstIndex(rows, (p: Product) => p.id == id);
      if i < 0 {
        return Failure(NOT_FOUND, "Not found.");
      }
      if !HasObjectPermission(Delete, user, rows[i]) {
        return Denied(user);
      }
      rows := rows[i := rows[i].(isActive := false)];
      reply := Success(204, ());
    }
  }
}
