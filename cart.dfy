/** The client's order builder and shopping cart: the order lines of the
    order screen (merge on add, removal at quantity zero, the total), the
    catalog's cart of per-product counts (add, decrement-then-delete, the
    item count and the money total), the hand-over of a cart to the order
    screen, and the catalog's category and search filters. */
module Cart {
  import opened Common
  import opened Products
  import Orders

  // ---------------------------------------------------------------------
  // Order lines of the order screen

  /** The client's `OrderItem`; `productId` is the product's id (the
      screen compares the decimal strings of ids, which are equal exactly
      when the ids are). */
  datatype ItemLine = ItemLine(productId: nat, productName: string, quantity: int, price: int, totalPrice: int)

  function LineTotal(l: ItemLine): int
  {
    l.totalPrice
  }

  predicate LineConsistent(l: ItemLine)
  {
    l.totalPrice == l.price * l.quantity
  }

  predicate AllConsistent(items: seq<ItemLine>)
  {
    forall k :: 0 <= k < |items| ==> LineConsistent(items[k])
  }

  /** No product appears on two lines. */
  predicate UniqueIds(items: seq<ItemLine>)
  {
    forall i, j :: 0 <= i < j < |items| ==> items[i].productId != items[j].productId
  }

  /** `findIndex` of the line for a product. */
  function IndexOf(items: seq<ItemLine>, id: nat): (r: int)
    ensures -1 <= r < |items|
    ensures r >= 0 ==> items[r].productId == id
    ensures r == -1 <==> forall k :: 0 <= k < |items| ==> items[k].productId != id
  {
    FirstIndex(items, (l: ItemLine) => l.productId == id)
  }

  /** `calculateTotal`: the sum of the line totals. */
  function CalculateTotal(items: seq<ItemLine>): int
  {
    SumOf(items, LineTotal)
  }

  /** The total of consistent lines is the sum of price times quantity, and
      the empty order costs nothing. */
  lemma {:induction false} CalculateTotalAppend(items: seq<ItemLine>, l: ItemLine)
    ensures CalculateTotal([]) == 0
    ensures CalculateTotal(items + [l]) == CalculateTotal(items) + l.totalPrice
  {
    assert (items + [l])[..|items + [l]| - 1] == items;
  }

  /** A line in front adds its total. */
  lemma CalculateTotalCons(first: ItemLine, tail: seq<ItemLine>)
    ensures CalculateTotal([first] + tail) == first.totalPrice + CalculateTotal(tail)
  {
    SumOfAppend([first], tail, LineTotal);
    assert [first][..0] == [];
  }

  /** `addProductToOrder`: the line already holding the product has its
      quantity raised and its total recomputed from the line's own stored
      price; otherwise one line is appended at the end, priced at the
      product's current price. */
  method AddProductToOrder(items: seq<ItemLine>, product: Product, quantity: int) returns (updated: seq<ItemLine>)
    ensures var i := IndexOf(items, product.id);
      i >= 0 ==>
        && |updated| == |items|
        && updated[i].productId == items[i].productId
        && updated[i].productName == items[i].productName
        && updated[i].price == items[i].price
        && updated[i].quantity == items[i].quantity + quantity
        && LineConsistent(updated[i])
        && forall k :: 0 <= k < |items| && k != i ==> updated[k] == items[k]
    ensures IndexOf(items, product.id) == -1 ==>
      updated == items + [ItemLine(product.id, product.name, quantity, product.price, product.price * quantity)]
    ensures UniqueIds(items) ==> UniqueIds(updated)
    ensures AllConsistent(items) ==> AllConsistent(updated)
    ensures AllConsistent(items) ==>
      CalculateTotal(updated) == CalculateTotal(items) +
        (if IndexOf(items, product.id) >= 0 then items[IndexOf(items, product.id)].price else product.price) * quantity
  {
    var i := IndexOf(items, product.id);
    if i >= 0 {
      updated := items;
      var line := updated[i].(quantity := updated[i].quantity + quantity);
      line := line.(totalPrice := line.quantity * line.price);
      updated := updated[i := line];
      MergedLineKeeps(items, i, quantity);
    } else {
      var line := ItemLine(product.id, product.name, quantity, product.price, product.price * quantity);
      updated := items + [line];
      AppendedLineKeeps(items, line);
    }
  }

  /** Raising the quantity of line `i` keeps ids unique and lines
      consistent, and adds the line's price times the extra quantity. */
  lemma MergedLineKeeps(items: seq<ItemLine>, i: nat, quantity: int)
    requires i < |items|
    ensures var line := items[i].(quantity := items[i].quantity + quantity,
                                  totalPrice := (items[i].quantity + quantity) * items[i].price);
      && (UniqueIds(items) ==> UniqueIds(items[i := line]))
      && (AllConsistent(items) ==> AllConsistent(items[i := line]))
      && (AllConsistent(items) ==>
            CalculateTotal(items[i := line]) == CalculateTotal(items) + items[i].price * quantity)
  {
    var line := items[i].(quantity := items[i].quantity + quantity,
                          totalPrice := (items[i].quantity + quantity) * items[i].price);
    SumOfUpdate(items, i, line, LineTotal);
  }

  /** Appending the line of a product not yet on the order keeps ids
      unique and lines consistent, and adds the line's total. */
  lemma AppendedLineKeeps(items: seq<ItemLine>, line: ItemLine)
    requires IndexOf(items, line.productId) == -1
    ensures UniqueIds(items) ==> UniqueIds(items + [line])
    ensures AllConsistent(items) && LineConsistent(line) ==> AllConsistent(items + [line])
    ensures CalculateTotal(items + [line]) == CalculateTotal(items) + line.totalPrice
  {
    CalculateTotalAppend(items, line);
  }

  /** `removeItem`: every line of that product goes, the rest keep their
      order. */
  function RemoveItem(items: seq<ItemLine>, id: nat): (r: seq<ItemLine>)
    ensures forall l :: l in r <==> l in items && l.productId != id
  {
    Filter(items, OtherThan(id))
  }

  function OtherThan(id: nat): ItemLine -> bool
  {
    (l: ItemLine) => l.productId != id
  }

  /** `updateItemQuantity`: a quantity of zero or less removes the product's
      line; any other quantity replaces the quantity and total of the
      product's lines and leaves every other line as it was. */
  function UpdateItemQuantity(items: seq<ItemLine>, id: nat, quantity: int): (r: seq<ItemLine>)
    ensures quantity <= 0 ==> r == RemoveItem(items, id)
    ensures quantity > 0 ==> |r| == |items|
    ensures quantity > 0 ==> forall k :: 0 <= k < |items| && items[k].productId == id ==>
      r[k].(totalPrice := items[k].totalPrice) == items[k].(quantity := quantity) && LineConsistent(r[k])
    ensures quantity > 0 ==> forall k :: 0 <= k < |items| && items[k].productId != id ==> r[k] == items[k]
  {
    if quantity <= 0 then RemoveItem(items, id)
    else
      seq(|items|, k requires 0 <= k < |items| =>
        if items[k].productId == id then items[k].(quantity := quantity, totalPrice := items[k].price * quantity)
        else items[k])
  }

  /** Removing a product no line holds changes nothing. */
  lemma RemoveAbsent(s: seq<ItemLine>, id: nat)
    requires forall k :: 0 <= k < |s| ==> s[k].productId != id
    ensures RemoveItem(s, id) == s
  {
    FilterAll(s, OtherThan(id));
  }

  /** Removing a product whose id occurs once cuts out exactly its line. */
  lemma RemoveItemSplit(items: seq<ItemLine>, id: nat)
    requires UniqueIds(items)
    requires IndexOf(items, id) >= 0
    ensures var i := IndexOf(items, id);
      RemoveItem(items, id) == items[..i] + items[i + 1..]
  {
    var i := IndexOf(items, id);
    var p := OtherThan(id);
    var pre := items[..i];
    var post := items[i + 1..];
    assert items == pre + [items[i]] + post;
    forall k | 0 <= k < |pre|
      ensures pre[k].productId != id
    {
      assert pre[k] == items[k];
    }
    forall k | 0 <= k < |post|
      ensures post[k].productId != id
    {
      assert post[k] == items[i + 1 + k];
    }
    RemoveAbsent(pre, id);
    RemoveAbsent(post, id);
    FilterAppend(pre + [items[i]], post, p);
    FilterAppend(pre, [items[i]], p);
    assert Filter([items[i]], p) == [];
    assert Filter(pre + [items[i]], p) == pre;
    assert Filter(items, p) == pre + post;
  }

  /** With one line per product, removing a present product takes away
      exactly one line and exactly its total. */
  lemma RemoveItemTotal(items: seq<ItemLine>, id: nat)
    requires UniqueIds(items)
    requires IndexOf(items, id) >= 0
    ensures |RemoveItem(items, id)| == |items| - 1
    ensures CalculateTotal(RemoveItem(items, id)) == CalculateTotal(items) - items[IndexOf(items, id)].totalPrice
  {
    var i := IndexOf(items, id);
    var pre := items[..i];
    var post := items[i + 1..];
    RemoveItemSplit(items, id);
    assert items == pre + [items[i]] + post;
    SumOfAppend(pre + [items[i]], post, LineTotal);
    SumOfAppend(pre, [items[i]], LineTotal);
    SumOfAppend(pre, post, LineTotal);
    assert [items[i]][..0] == [];
  }

  /** What `submitOrder` sends once its guards pass. */
  /** The body `submitOrder` posts: the shopkeeper, each line's product
      and quantity, and the payment status chosen on the screen. */
  datatype Submission = Submission(shopkeeper: nat, items: seq<(nat, int)>, paymentStatus: Orders.PaymentStatus)

  /** The guards of `submitOrder`: an empty order is refused, and so is one
      whose first line names a product the screen has not loaded (the
      shopkeeper is taken from that product). */
  function SubmitOrder(items: seq<ItemLine>, products: seq<Product>, paymentStatus: Orders.PaymentStatus)
    : (r: Result<Submission>)
    ensures items == [] ==> r == Err("Please add items to your order")
    ensures items != [] && Lookup(products, items[0].productId).None? ==> r == Err("Product information not found")
    ensures r.Ok? <==> items != [] && Lookup(products, items[0].productId).Some?
    ensures r.Ok? ==>
      && r.value.shopkeeper == Lookup(products, items[0].productId).value.shopkeeper
      && |r.value.items| == |items|
      && (forall k :: 0 <= k < |items| ==> r.value.items[k] == (items[k].productId, items[k].quantity))
      && r.value.paymentStatus == paymentStatus
  {
    if items == [] then Err("Please add items to your order")
    else
      var first := Lookup(products, items[0].productId);
      if first.None? then Err("Product information not found")
      else Ok(Submission(first.value.shopkeeper,
                         seq(|items|, k requires 0 <= k < |items| => (items[k].productId, items[k].quantity)),
                         paymentStatus))
  }

  // ---------------------------------------------------------------------
  // The catalog's cart: product id to count

  type CartMap = map<nat, int>

  /** Every count in the cart is at least one. */
  predicate CartValid(cart: CartMap)
  {
    forall id :: id in cart ==> cart[id] >= 1
  }

  /** `addToCart`: the product's count goes up by one, starting from zero
      when absent; stock is not consulted. */
  function AddToCart(cart: CartMap, id: nat): (r: CartMap)
    ensures r.Keys == cart.Keys + {id}
    ensures r[id] == (if id in cart then cart[id] else 0) + 1
    ensures forall k :: k in cart && k != id ==> r[k] == cart[k]
    ensures CartValid(cart) ==> CartValid(r)
  {
    cart[id := (if id in cart then cart[id] else 0) + 1]
  }

  /** `removeFromCart`: on a copy of the cart, a count above one is
      decremented and any other entry is deleted. */
  method RemoveFromCart(cart: CartMap, id: nat) returns (newCart: CartMap)
    ensures id in cart && cart[id] > 1 ==> newCart == cart[id := cart[id] - 1]
    ensures !(id in cart && cart[id] > 1) ==> newCart == cart - {id}
    ensures CartValid(cart) ==> CartValid(newCart)
    ensures CartValid(cart) && id in cart ==> ItemCount(newCart) == ItemCount(cart) - 1
    ensures id !in cart ==> newCart == cart
  {
    newCart := cart;
    if id in newCart && newCart[id] > 1 {
      newCart := newCart[id := newCart[id] - 1];
      MapSumRemove(cart, id, Count);
      MapSumRemove(newCart, id, Count);
      assert newCart - {id} == cart - {id};
    } else {
      newCart := newCart - {id};
      if id in cart {
        MapSumRemove(cart, id, Count);
      } else {
        assert newCart == cart;
      }
    }
  }

  predicate IsMin(x: nat, keys: set<nat>)
  {
    x in keys && forall y :: y in keys ==> x <= y
  }

  /** The smallest key: `Object.entries` lists integer keys in ascending
      order, so this is the cart's first entry. */
  function MinKey(keys: set<nat>): (r: nat)
    requires keys != {}
    ensures IsMin(r, keys)
  {
    MinExists(keys);
    var x :| IsMin(x, keys);
    x
  }

  lemma {:induction false} MinExists(keys: set<nat>)
    requires keys != {}
    ensures exists x :: IsMin(x, keys)
    decreases |keys|
  {
    var a :| a in keys;
    var rest := keys - {a};
    if rest == {} {
      assert keys == {a};
      assert IsMin(a, keys);
    } else {
      MinExists(rest);
      var m :| IsMin(m, rest);
      var x := if a < m then a else m;
      forall y | y in keys
        ensures x <= y
      {
        if y != a {
          assert y in rest;
        }
      }
      assert IsMin(x, keys);
    }
  }

  lemma RemoveKey(cart: CartMap, k: nat)
    requires k in cart
    ensures (cart - {k}).Keys == cart.Keys - {k}
    ensures |cart - {k}| == |cart| - 1
  {
    assert (cart - {k}).Keys == cart.Keys - {k};
  }

  /** The cart's keys in `Object.entries` order: the smallest first. */
  function SortedKeys(cart: CartMap): (r: seq<nat>)
    ensures |r| == |cart|
    ensures forall i :: 0 <= i < |r| ==> r[i] in cart
    decreases |cart|
  {
    if cart == map[] then []
    else
      var k := MinKey(cart.Keys);
      var smaller := cart - {k};
      RemoveKey(cart, k);
      var rest := SortedKeys(smaller);
      var r := [k] + rest;
      assert forall i :: 1 <= i < |r| ==> r[i] == rest[i - 1];
      r
  }

  /** Every key of the cart has its place among the sorted keys. */
  lemma {:induction false} KeyPosition(cart: CartMap, id: nat) returns (i: nat)
    requires id in cart
    ensures i < |SortedKeys(cart)| && SortedKeys(cart)[i] == id
    decreases |cart|
  {
    var k := MinKey(cart.Keys);
    var smaller := cart - {k};
    RemoveKey(cart, k);
    if id == k {
      i := 0;
    } else {
      assert id in smaller;
      var j := KeyPosition(smaller, id);
      i := j + 1;
      assert SortedKeys(cart) == [k] + SortedKeys(smaller);
    }
  }

  /** The entries are listed in strictly ascending key order. */
  lemma {:induction false} SortedKeysAscending(cart: CartMap)
    ensures forall i, j :: 0 <= i < j < |SortedKeys(cart)| ==> SortedKeys(cart)[i] < SortedKeys(cart)[j]
    decreases |cart|
  {
    if cart != map[] {
      var k := MinKey(cart.Keys);
      var smaller := cart - {k};
      RemoveKey(cart, k);
      SortedKeysAscending(smaller);
      var rest := SortedKeys(smaller);
      var r := SortedKeys(cart);
      forall i, j | 0 <= i < j < |r|
        ensures r[i] < r[j]
      {
        var y := rest[j - 1];
        assert r[j] == y;
        assert y in smaller;
        assert y in cart.Keys && y != k;
        if i > 0 {
          assert r[i] == rest[i - 1];
        }
      }
    }
  }

  /** A reduction over `Object.entries(cart)`: `f` applied to each entry,
      summed (integer addition, so the grouping does not matter). */
  function MapSum(cart: CartMap, f: (nat, int) -> int): int
    decreases |cart|
  {
    if cart == map[] then 0
    else
      var k := MinKey(cart.Keys);
      RemoveKey(cart, k);
      f(k, cart[k]) + MapSum(cart - {k}, f)
  }

  /** Any entry, not only the first, can be taken out of the sum. */
  lemma {:induction false} MapSumRemove(cart: CartMap, id: nat, f: (nat, int) -> int)
    requires id in cart
    ensures MapSum(cart, f) == f(id, cart[id]) + MapSum(cart - {id}, f)
    decreases |cart|
  {
    var k := MinKey(cart.Keys);
    if k != id {
      var withoutK := cart - {k};
      var withoutId := cart - {id};
      RemoveKey(cart, k);
      RemoveKey(cart, id);
      MapSumRemove(withoutK, id, f);
      MapSumRemove(withoutId, k, f);
      assert withoutK - {id} == withoutId - {k};
      assert MinKey(cart.Keys) == k;
    }
  }

  function Count(id: nat, quantity: int): int
  {
    quantity
  }

  /** `getCartItemCount`: the sum of the counts. */
  function ItemCount(cart: CartMap): int
  {
    MapSum(cart, Count)
  }

  /** Adding to the cart raises the item count by exactly one. */
  lemma AddToCartCount(cart: CartMap, id: nat)
    ensures ItemCount(AddToCart(cart, id)) == ItemCount(cart) + 1
  {
    var r := AddToCart(cart, id);
    MapSumRemove(r, id, Count);
    assert r - {id} == cart - {id};
    if id in cart {
      MapSumRemove(cart, id, Count);
    } else {
      assert cart - {id} == cart;
    }
  }

  /** The amount one entry adds to the cart total: price times count, or
      nothing when no loaded product has that id. */
  function EntryValue(products: seq<Product>): (nat, int) -> int
  {
    (id: nat, quantity: int) =>
      match Lookup(products, id)
      case Some(p) => p.price * quantity
      case None => 0
  }

  /** `getCartTotal`. */
  function CartTotal(cart: CartMap, products: seq<Product>): int
  {
    MapSum(cart, EntryValue(products))
  }

  /** One more unit of an entry adds the product's price; an entry with no
      units adds nothing. */
  lemma EntryValueStep(products: seq<Product>, id: nat, quantity: int)
    ensures EntryValue(products)(id, 0) == 0
    ensures EntryValue(products)(id, quantity + 1) == EntryValue(products)(id, quantity) +
      (if Lookup(products, id).Some? then Lookup(products, id).value.price else 0)
  {
  }

  /** Adding a product to the cart raises the total by its price, or by
      nothing when the product is not loaded. */
  lemma AddToCartTotal(cart: CartMap, products: seq<Product>, id: nat)
    ensures CartTotal(AddToCart(cart, id), products) == CartTotal(cart, products) +
      (if Lookup(products, id).Some? then Lookup(products, id).value.price else 0)
  {
    var f := EntryValue(products);
    var r := AddToCart(cart, id);
    var rest := cart - {id};
    var before := if id in cart then cart[id] else 0;
    MapSumRemove(r, id, f);
    assert r - {id} == rest;
    assert MapSum(r, f) == f(id, before + 1) + MapSum(rest, f);
    if id in cart {
      MapSumRemove(cart, id, f);
    } else {
      assert rest == cart;
    }
    assert MapSum(cart, f) == f(id, before) + MapSum(rest, f);
    EntryValueStep(products, id, before);
  }

  /** The line `proceedToOrder` builds for one cart entry. */
  function CartLine(p: Product, quantity: int): ItemLine
  {
    ItemLine(p.id, p.name, quantity, p.price, p.price * quantity)
  }

  /** Every entry of the cart names a loaded product. */
  predicate AllLoaded(cart: CartMap, products: seq<Product>)
  {
    forall id :: id in cart ==> Lookup(products, id).Some?
  }

  lemma AllLoadedRemove(cart: CartMap, products: seq<Product>, k: nat)
    requires AllLoaded(cart, products)
    ensures AllLoaded(cart - {k}, products)
  {
  }

  /** `Object.entries(cart).map(...)` in `proceedToOrder`: one line per
      entry, the smallest id first, each priced from its loaded product. */
  function CartLines(cart: CartMap, products: seq<Product>): (r: seq<ItemLine>)
    requires AllLoaded(cart, products)
    ensures |r| == |cart|
    ensures forall i :: 0 <= i < |r| ==>
      r[i].productId in cart && r[i] == CartLine(Lookup(products, r[i].productId).value, cart[r[i].productId])
    decreases |cart|
  {
    if cart == map[] then []
    else
      var k := MinKey(cart.Keys);
      var rest := cart - {k};
      RemoveKey(cart, k);
      AllLoadedRemove(cart, products, k);
      var tail := CartLines(rest, products);
      var r := [CartLine(Lookup(products, k).value, cart[k])] + tail;
      assert forall i :: 0 <= i < |r| ==>
        r[i].productId in cart && r[i] == CartLine(Lookup(products, r[i].productId).value, cart[r[i].productId]) by {
        forall i | 0 <= i < |r|
          ensures r[i].productId in cart && r[i] == CartLine(Lookup(products, r[i].productId).value, cart[r[i].productId])
        {
          if i > 0 {
            var id := tail[i - 1].productId;
            assert r[i] == tail[i - 1];
            assert id in rest;
            assert cart[id] == rest[id];
          } else {
            assert r[0].productId == k;
          }
        }
      }
      r
  }

  /** The lines come in the order of the cart's keys. */
  lemma {:induction false} CartLinesKeys(cart: CartMap, products: seq<Product>)
    requires AllLoaded(cart, products)
    ensures forall i :: 0 <= i < |cart| ==> CartLines(cart, products)[i].productId == SortedKeys(cart)[i]
    decreases |cart|
  {
    if cart != map[] {
      var k := MinKey(cart.Keys);
      var rest := cart - {k};
      RemoveKey(cart, k);
      AllLoadedRemove(cart, products, k);
      CartLinesKeys(rest, products);
      var lines := CartLines(cart, products);
      var keys := SortedKeys(cart);
      var tail := CartLines(rest, products);
      var restKeys := SortedKeys(rest);
      assert lines == [CartLine(Lookup(products, k).value, cart[k])] + tail;
      assert keys == [k] + restKeys;
      forall i | 0 <= i < |cart|
        ensures lines[i].productId == keys[i]
      {
        if i > 0 {
          assert lines[i] == tail[i - 1];
          assert keys[i] == restKeys[i - 1];
        }
      }
    }
  }

  /** A loaded entry's line is worth what the entry adds to the total. */
  lemma EntryLineValue(products: seq<Product>, id: nat, quantity: int)
    requires Lookup(products, id).Some?
    ensures EntryValue(products)(id, quantity) == CartLine(Lookup(products, id).value, quantity).totalPrice
  {
  }

  /** The first line is the smallest id's, the rest are the lines of the
      remaining entries. */
  lemma CartLinesFirst(cart: CartMap, products: seq<Product>)
    requires AllLoaded(cart, products) && cart != map[]
    ensures MinKey(cart.Keys) in cart && AllLoaded(cart - {MinKey(cart.Keys)}, products)
    ensures CartLines(cart, products) ==
      [CartLine(Lookup(products, MinKey(cart.Keys)).value, cart[MinKey(cart.Keys)])]
      + CartLines(cart - {MinKey(cart.Keys)}, products)
  {
    var k := MinKey(cart.Keys);
    RemoveKey(cart, k);
    AllLoadedRemove(cart, products, k);
  }

  /** The total takes the smallest id's entry first. */
  lemma CartTotalFirst(cart: CartMap, products: seq<Product>)
    requires cart != map[]
    ensures MinKey(cart.Keys) in cart
    ensures CartTotal(cart, products) ==
      EntryValue(products)(MinKey(cart.Keys), cart[MinKey(cart.Keys)])
      + CartTotal(cart - {MinKey(cart.Keys)}, products)
  {
    RemoveKey(cart, MinKey(cart.Keys));
  }

  /** The lines of a cart add up to the cart total that is handed over
      with them. */
  lemma {:induction false} CartLinesTotal(cart: CartMap, products: seq<Product>)
    requires AllLoaded(cart, products)
    ensures CalculateTotal(CartLines(cart, products)) == CartTotal(cart, products)
    decreases |cart|
  {
    if cart != map[] {
      var k := MinKey(cart.Keys);
      var rest := cart - {k};
      CartLinesFirst(cart, products);
      CartTotalFirst(cart, products);
      RemoveKey(cart, k);
      CartLinesTotal(rest, products);
      var first := CartLine(Lookup(products, k).value, cart[k]);
      CalculateTotalCons(first, CartLines(rest, products));
      EntryLineValue(products, k, cart[k]);
    }
  }

  /** Every entry of the cart has its line. */
  lemma CartLinesCover(cart: CartMap, products: seq<Product>)
    requires AllLoaded(cart, products)
    ensures forall id :: id in cart <==>
      exists k :: 0 <= k < |CartLines(cart, products)| && CartLines(cart, products)[k].productId == id
  {
    var lines := CartLines(cart, products);
    var keys := SortedKeys(cart);
    CartLinesKeys(cart, products);
    forall id | id in cart
      ensures exists k :: 0 <= k < |lines| && lines[k].productId == id
    {
      var k := KeyPosition(cart, id);
      assert lines[k].productId == id;
    }
  }

  /** What the catalog hands to the order screen. */
  datatype Checkout = Checkout(items: seq<ItemLine>, totalAmount: int)

  /** `proceedToOrder`: an empty cart is refused; otherwise one line per
      entry in entry order, the cart total alongside, and the cart is
      emptied. The second component is the cart afterwards. */
  function ProceedToOrder(cart: CartMap, products: seq<Product>): (r: (Result<Checkout>, CartMap))
    ensures cart == map[] ==> r == (Err("Please add items to cart before proceeding"), cart)
    ensures r.0.Ok? <==> cart != map[] && AllLoaded(cart, products)
    ensures r.0.Err? ==> r.1 == cart
    ensures r.0.Ok? ==>
      && r.1 == map[]
      && |r.0.value.items| == |cart|
      && (forall id :: id in cart <==> exists k :: 0 <= k < |r.0.value.items| && r.0.value.items[k].productId == id)
      && (forall k :: 0 <= k < |r.0.value.items| ==> r.0.value.items[k].productId == SortedKeys(cart)[k])
      && (forall k :: 0 <= k < |r.0.value.items| ==>
            var id := r.0.value.items[k].productId;
            id in cart && r.0.value.items[k] == CartLine(Lookup(products, id).value, cart[id])
            && LineConsistent(r.0.value.items[k]))
      && r.0.value.totalAmount == CalculateTotal(r.0.value.items)
  {
    if cart == map[] then (Err("Please add items to cart before proceeding"), cart)
    else if !AllLoaded(cart, products) then (Err("TypeError"), cart)
    else
      var lines := CartLines(cart, products);
      CartLinesTotal(cart, products);
      CartLinesCover(cart, products);
      CartLinesKeys(cart, products);
      (Ok(Checkout(lines, CartTotal(cart, products))), map[])
  }

  // ---------------------------------------------------------------------
  // Catalog filters

  /** The case-insensitive match of the search box on one product. */
  predicate MatchesQuery(p: Product, query: string)
  {
    Contains(Lower(p.name), query) || Contains(Lower(p.description), query) || Contains(Lower(p.category), query)
  }

  /** `filterProducts`: category `All` keeps every category, any other
      must match exactly; a blank search keeps everything, otherwise the
      lower-cased search text (not trimmed) must occur in the lower-cased
      name, description or category. Input order is kept. The order
      screen's own `filterProducts` is this filter with category `All`. */
  function FilterProducts(products: seq<Product>, category: string, search: string): (r: seq<Product>)
    ensures forall p :: p in r <==>
      (&& p in products
       && (category == "All" || p.category == category)
       && (IsBlank(search) || MatchesQuery(p, Lower(search))))
    ensures category == "All" && IsBlank(search) ==> r == products
    ensures |r| <= |products|
  {
    var byCategory := if category != "All" then Filter(products, (p: Product) => p.category == category) else products;
    if !IsBlank(search) then
      var query := Lower(search);
      Filter(byCategory, (p: Product) => MatchesQuery(p, query))
    else byCategory
  }

  /** Distinct elements in order of first occurrence (a JavaScript `Set`). */
  function Distinct(s: seq<string>): (r: seq<string>)
    ensures forall x :: x in r <==> x in s
    ensures forall i, j :: 0 <= i < j < |r| ==> r[i] != r[j]
  {
    if s == [] then []
    else
      var d := Distinct(s[..|s| - 1]);
      assert forall x :: x in s <==> x in s[..|s| - 1] || x == s[|s| - 1] by {
        assert s == s[..|s| - 1] + [s[|s| - 1]];
      }
      if s[|s| - 1] in d then d else d + [s[|s| - 1]]
  }

  /** The distinct categories of the products, in order of first
      appearance (`[...new Set(products.map(p => p.category))]`). */
  function ProductCategories(products: seq<Product>): (r: seq<string>)
    ensures forall c :: c in r <==> exists p :: p in products && p.category == c
    ensures forall i, j :: 0 <= i < j < |r| ==> r[i] != r[j]
  {
    var cats := seq(|products|, k requires 0 <= k < |products| => products[k].category);
    assert forall c :: c in cats <==> exists p :: p in products && p.category == c by {
      forall c | c in cats
        ensures exists p :: p in products && p.category == c
      {
        var k :| 0 <= k < |cats| && cats[k] == c;
        assert products[k] in products;
      }
      forall c | exists p :: p in products && p.category == c
        ensures c in cats
      {
        var p :| p in products && p.category == c;
        var k :| 0 <= k < |products| && products[k] == p;
        assert cats[k] == c;
      }
    }
    Distinct(cats)
  }

  /** The category chips: `All`, then every product category once, in
      order of first appearance. */
  function Categories(products: seq<Product>): (r: seq<string>)
    ensures |r| >= 1 && r[0] == "All"
    ensures forall c :: c in r[1..] <==> exists p :: p in products && p.category == c
    ensures forall i, j :: 1 <= i < j < |r| ==> r[i] != r[j]
  {
    var d := ProductCategories(products);
    assert (["All"] + d)[1..] == d;
    ["All"] + d
  }
}
