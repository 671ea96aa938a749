/** The order handlers of routes/orders.js: checkout, the two listings, the
    view, the admin status update and the owner's cancel.

    Checkout writes each product as soon as its line is accepted, so a
    failure on a later line leaves the earlier stock and sold changes in
    place; WalkItems is the specification of that walk, and the lemmas below
    state what it does to the catalog. Restock is the specification of the
    cancel loop, and CancelUndoesCheckout connects the two. */
module OrderRoutes {
  import opened Common
  import opened ProductModel
  import opened OrderModel
  import opened CartModel
  import opened Store

  /** One entry of the request's `items`. */
  datatype RequestItem = RequestItem(product: ProductId, quantity: int, variant: Option<VariantChoice>)

  /** The order line checkout freezes from the live product `p` (stored
      under `id`) for one requested item. */
  function LineFor(id: ProductId, p: Product, item: RequestItem): OrderItem
  {
    OrderItem(id, p.name, p.thumbnail, p.price, item.quantity, item.variant, p.seller)
  }

  /** What one order line adds to the subtotal. */
  function LineTotal(l: OrderItem): real
  {
    l.price * (l.quantity as real)
  }

  /** The subtotal over a list of order lines. */
  function Subtotal(lines: seq<OrderItem>): real
  {
    if lines == [] then 0.0 else LineTotal(lines[0]) + Subtotal(lines[1..])
  }

  /** How many units of product `id` a list of order lines holds. */
  function Quantity(lines: seq<OrderItem>, id: ProductId): int
  {
    if lines == [] then 0
    else (if lines[0].product == id then lines[0].quantity else 0) + Quantity(lines[1..], id)
  }

  /** `b` holds the same products as `a` and differs from it at most in
      `stock` and `sold`. */
  predicate OnlyStockSold(a: map<ProductId, Product>, b: map<ProductId, Product>)
  {
    && a.Keys == b.Keys
    && forall id :: id in a ==> b[id] == a[id].(stock := b[id].stock, sold := b[id].sold)
  }

  // ---------------------------------------------------------------------
  // Checkout
  // ---------------------------------------------------------------------

  /** The catalog after one item's product was written, and the line frozen
      from it. */
  datatype Reservation = Reservation(products: map<ProductId, Product>, line: OrderItem)

  /** A product after `quantity` units of it are ordered: they leave stock
      and are counted as sold. */
  function Reserved(p: Product, quantity: int): Product
  {
    p.(stock := p.stock - quantity, sold := p.sold + quantity)
  }

  /** One pass of the checkout loop: a missing or inactive product is 404,
      too little stock is 400, otherwise the product loses `quantity` units of
      stock and gains them in `sold` and is saved (500 if it then fails
      validation). The line carries the live price, not a cart snapshot. */
  function Reserve(products: map<ProductId, Product>, item: RequestItem): (r: Result<Reservation>)
    ensures r == Err(NotFound) <==> !Available(products, item.product)
    ensures r == Err(BadRequest) <==> Available(products, item.product) && products[item.product].stock < item.quantity
    ensures r == Err(ServerError) <==>
              Available(products, item.product) && products[item.product].stock >= item.quantity &&
              !Valid(Reserved(products[item.product], item.quantity))
    ensures r.Ok? <==>
              Available(products, item.product) && products[item.product].stock >= item.quantity &&
              Valid(Reserved(products[item.product], item.quantity))
    ensures r.Ok? ==>
              var p := products[item.product];
              && p.stock >= item.quantity
              && r.value.products == products[item.product := p.(stock := p.stock - item.quantity, sold := p.sold + item.quantity)]
              && r.value.line == LineFor(item.product, p, item)
  {
    if !Available(products, item.product) then Err(NotFound)
    else
      var p := products[item.product];
      if p.stock < item.quantity then Err(BadRequest)
      else
        var updated := Reserved(p, item.quantity);
        if !Valid(updated) then Err(ServerError)
        else Ok(Reservation(products[item.product := updated], LineFor(item.product, p, item)))
  }

  /** Where the checkout loop ends: the catalog as written so far, the lines
      and subtotal accumulated, and the failure that stopped it, if any. */
  datatype Walk = Walk(products: map<ProductId, Product>, lines: seq<OrderItem>, subtotal: real, failure: Option<Failure>)

  /** Puts already accumulated lines and subtotal in front of a walk. */
  function Prepend(lines: seq<OrderItem>, subtotal: real, w: Walk): Walk
  {
    Walk(w.products, lines + w.lines, subtotal + w.subtotal, w.failure)
  }

  /** The checkout loop over the requested items, in order. */
  function WalkItems(products: map<ProductId, Product>, items: seq<RequestItem>): (w: Walk)
    ensures w.failure.None? ==> |w.lines| == |items|
  {
    if items == [] then Walk(products, [], 0.0, None)
    else
      match Reserve(products, items[0])
      case Err(f) => Walk(products, [], 0.0, Some(f))
      case Ok(res) => Prepend([res.line], LineTotal(res.line), WalkItems(res.products, items[1..]))
  }

  /** With a valid catalog, writing one accepted item back never fails
      validation (its stock stays at least 0) and keeps the catalog valid. */
  lemma {:induction false} ReserveKeepsCatalogValid(products: map<ProductId, Product>, item: RequestItem)
    requires CatalogValid(products)
    ensures Reserve(products, item) != Err(ServerError)
    ensures Reserve(products, item).Ok? ==> CatalogValid(Reserve(products, item).value.products)
  {
    if Available(products, item.product) && products[item.product].stock >= item.quantity {
      var p := products[item.product];
      assert Valid(p);
      assert Valid(p.(stock := p.stock - item.quantity, sold := p.sold + item.quantity));
    }
  }

  /** Changing only stock and sold composes. */
  lemma {:induction false} OnlyStockSoldTransitive(a: map<ProductId, Product>, b: map<ProductId, Product>,
                                                   c: map<ProductId, Product>)
    requires OnlyStockSold(a, b) && OnlyStockSold(b, c)
    ensures OnlyStockSold(a, c)
  {
    forall id | id in a ensures c[id] == a[id].(stock := c[id].stock, sold := c[id].sold) {
      assert b[id] == a[id].(stock := b[id].stock, sold := b[id].sold);
      assert c[id] == b[id].(stock := c[id].stock, sold := c[id].sold);
    }
  }

  /** One accepted item changes only its product's stock and sold. */
  lemma {:induction false} ReserveChangesOnlyStock(products: map<ProductId, Product>, item: RequestItem)
    requires Reserve(products, item).Ok?
    ensures OnlyStockSold(products, Reserve(products, item).value.products)
  {
    var p := products[item.product];
    var after := Reserve(products, item).value.products;
    assert after == products[item.product := p.(stock := p.stock - item.quantity, sold := p.sold + item.quantity)];
    forall id | id in products ensures after[id] == products[id].(stock := after[id].stock, sold := after[id].sold) {
    }
  }

  /** The walk only ever changes stock and sold, whether it completes or
      stops early. */
  lemma {:induction false} WalkChangesOnlyStock(products: map<ProductId, Product>, items: seq<RequestItem>)
    ensures OnlyStockSold(products, WalkItems(products, items).products)
  {
    if items != [] && Reserve(products, items[0]).Ok? {
      var res := Reserve(products, items[0]).value;
      WalkStep(products, items);
      WalkChangesOnlyStock(res.products, items[1..]);
      ReserveChangesOnlyStock(products, items[0]);
      OnlyStockSoldTransitive(products, res.products, WalkItems(res.products, items[1..]).products);
    }
  }

  /** From a valid catalog the walk never meets a failed product save, and
      the catalog stays valid (no stock below 0), whether the walk completes
      or stops early. */
  lemma {:induction false} WalkKeepsCatalogValid(products: map<ProductId, Product>, items: seq<RequestItem>)
    requires CatalogValid(products)
    ensures CatalogValid(WalkItems(products, items).products)
    ensures WalkItems(products, items).failure != Some(ServerError)
  {
    if items != [] {
      ReserveKeepsCatalogValid(products, items[0]);
      if Reserve(products, items[0]).Ok? {
        WalkKeepsCatalogValid(Reserve(products, items[0]).value.products, items[1..]);
      }
    }
  }

  /** When every item was accepted there is one line per item, frozen from
      the product as it stood before checkout (an earlier line for the same
      product changed only its stock), and the subtotal is the sum over the
      lines. */
  lemma {:induction false} WalkLines(products: map<ProductId, Product>, items: seq<RequestItem>)
    requires WalkItems(products, items).failure.None?
    ensures var w := WalkItems(products, items);
            && (forall i :: 0 <= i < |items| ==>
                  items[i].product in products && w.lines[i] == LineFor(items[i].product, products[items[i].product], items[i]))
            && w.subtotal == Subtotal(w.lines)
  {
    if items != [] {
      var res := Reserve(products, items[0]).value;
      var rest := WalkItems(res.products, items[1..]);
      WalkLines(res.products, items[1..]);
      var w := WalkItems(products, items);
      assert w.lines == [res.line] + rest.lines;
      forall i | 0 <= i < |items|
        ensures items[i].product in products && w.lines[i] == LineFor(items[i].product, products[items[i].product], items[i])
      {
        if i > 0 {
          assert items[i] == items[1..][i - 1];
          assert w.lines[i] == rest.lines[i - 1];
        }
      }
      assert w.lines[1..] == rest.lines;
    }
  }

  /** When every item was accepted, each product's stock fell, and its sold
      rose, by exactly the units of it the order holds. */
  lemma {:induction false} WalkMovesStockToSold(products: map<ProductId, Product>, items: seq<RequestItem>)
    requires WalkItems(products, items).failure.None?
    ensures var w := WalkItems(products, items);
            forall id :: id in products ==>
              && id in w.products
              && w.products[id].stock == products[id].stock - Quantity(w.lines, id)
              && w.products[id].sold == products[id].sold + Quantity(w.lines, id)
  {
    WalkChangesOnlyStock(products, items);
    if items != [] {
      var res := Reserve(products, items[0]).value;
      WalkMovesStockToSold(res.products, items[1..]);
      var w := WalkItems(products, items);
      assert w.lines[1..] == WalkItems(res.products, items[1..]).lines;
    }
  }

  lemma {:induction false} PrefixOfTail<T>(s: seq<T>, k: int)
    requires 0 <= k < |s|
    ensures s[..k + 1] == [s[0]] + s[1..][..k]
  {
  }

  /** The walk stopped at item `k`: the items before it were all accepted,
      their writes are exactly what the catalog holds, and item `k` was
      refused with the reported failure. */
  predicate StoppedAt(products: map<ProductId, Product>, items: seq<RequestItem>, k: int)
    requires 0 <= k < |items|
  {
    var before := WalkItems(products, items[..k]);
    var w := WalkItems(products, items);
    && before.failure.None?
    && Reserve(before.products, items[k]).Err?
    && w.products == before.products
    && w.failure == Some(Reserve(before.products, items[k]).failure)
  }

  /** A failed checkout stops at the first refused item and keeps the writes
      of every item before it. */
  lemma {:induction false} WalkStopsAtFirstFailure(products: map<ProductId, Product>, items: seq<RequestItem>)
    requires WalkItems(products, items).failure.Some?
    ensures exists k :: 0 <= k < |items| && StoppedAt(products, items, k)
  {
    assert items != [];
    match Reserve(products, items[0])
    case Err(f) =>
      assert items[..0] == [];
      assert StoppedAt(products, items, 0);
    case Ok(res) =>
      WalkStopsAtFirstFailure(res.products, items[1..]);
      var k :| 0 <= k < |items[1..]| && StoppedAt(res.products, items[1..], k);
      var inner := WalkItems(res.products, items[1..][..k]);
      PrefixOfTail(items, k);
      assert WalkItems(products, items[..k + 1]) == Prepend([res.line], LineTotal(res.line), inner);
      assert WalkItems(products, items) == Prepend([res.line], LineTotal(res.line), WalkItems(res.products, items[1..]));
      assert items[k + 1] == items[1..][k];
      assert StoppedAt(products, items, k + 1);
  }

  /** The shipping fee: 15000 for cash on delivery, otherwise nothing. */
  function ShippingFee(payment: PaymentMethod): (fee: real)
    ensures fee == 15000.0 <==> payment == CashOnDelivery
    ensures fee == 0.0 <==> payment != CashOnDelivery
  {
    if payment == CashOnDelivery then 15000.0 else 0.0
  }

  /** A week in milliseconds, the estimated delivery delay. */
  const DeliveryDelay: int := 7 * 24 * 60 * 60 * 1000

  /** The order checkout builds from the accepted lines and then saves. */
  function CheckoutOrder(user: UserId, lines: seq<OrderItem>, subtotal: real, shippingAddress: Option<Address>,
                         payment: PaymentMethod, notes: Option<string>, now: nat): (o: Order)
    ensures o.user == user && o.items == lines && o.paymentMethod == payment
    ensures o.shippingAddress == shippingAddress && o.notes == notes
    ensures o.trackingNumber.None? && o.actualDelivery.None?
    ensures o.orderNumber.None? && o.orderStatus == Pending && o.paymentStatus == PaymentPending
    ensures o.subtotal == subtotal && o.tax == subtotal / 10.0 && o.discount == 0.0
    ensures o.shippingFee == (if payment == CashOnDelivery then 15000.0 else 0.0)
    ensures o.totalAmount == o.subtotal + o.shippingFee + o.tax - o.discount
    ensures o.estimatedDelivery == Some(now + DeliveryDelay)
  {
    var fee := ShippingFee(payment);
    var tax := subtotal * 0.1;
    var discount := 0.0;
    NewOrder(user, lines, shippingAddress, payment, subtotal, Some(fee), Some(tax), Some(discount),
             subtotal + fee + tax - discount, notes, Some(now + DeliveryDelay))
  }

  /** Saving the order checkout built: a payment method outside the enum
      fails validation (500), otherwise the save of SaveOrder decides. */
  function PlaceOrder(orders: map<OrderId, Order>, user: UserId, lines: seq<OrderItem>, subtotal: real,
                      shippingAddress: Option<Address>, paymentMethod: string, notes: Option<string>,
                      now: nat, randomText: string): (r: Result<Order>)
    ensures ParsePaymentMethod(paymentMethod).None? ==> r == Err(ServerError)
    ensures r.Ok? <==>
              ParsePaymentMethod(paymentMethod).Some? &&
              SaveOrder(CheckoutOrder(user, lines, subtotal, shippingAddress, ParsePaymentMethod(paymentMethod).value,
                                      notes, now), orders, now, randomText).Ok?
    ensures r.Ok? ==> ParsePaymentMethod(paymentMethod).Some? &&
                      r.value == AssignOrderNumber(CheckoutOrder(user, lines, subtotal, shippingAddress,
                                                                 ParsePaymentMethod(paymentMethod).value, notes, now),
                                                   now, randomText) &&
                      ValidOrder(r.value) && !NumberTaken(orders, r.value.orderNumber.value)
    ensures r.Err? ==> r.failure == ServerError
  {
    match ParsePaymentMethod(paymentMethod)
    case None => Err(ServerError)
    case Some(payment) =>
      SaveOrder(CheckoutOrder(user, lines, subtotal, shippingAddress, payment, notes, now), orders, now, randomText)
  }

  /** One step of the walk when the first item is accepted: its line and
      total go in front of the walk over the rest, from the written catalog. */
  lemma {:induction false} WalkStep(products: map<ProductId, Product>, items: seq<RequestItem>)
    requires items != [] && Reserve(products, items[0]).Ok?
    ensures var res := Reserve(products, items[0]).value;
            WalkItems(products, items) == Prepend([res.line], LineTotal(res.line), WalkItems(res.products, items[1..]))
  {
  }

  /** The walk stops at once when the first item is refused. */
  lemma {:induction false} WalkStops(products: map<ProductId, Product>, items: seq<RequestItem>)
    requires items != [] && Reserve(products, items[0]).Err?
    ensures WalkItems(products, items) == Walk(products, [], 0.0, Some(Reserve(products, items[0]).failure))
  {
  }

  /** Prepending twice is prepending the concatenation. */
  lemma {:induction false} PrependTwice(lines: seq<OrderItem>, subtotal: real, line: OrderItem, w: Walk)
    ensures Prepend(lines, subtotal, Prepend([line], LineTotal(line), w)) ==
            Prepend(lines + [line], subtotal + LineTotal(line), w)
  {
    assert lines + ([line] + w.lines) == (lines + [line]) + w.lines;
  }

  /** One pass of the checkout loop: the product is looked up and checked,
      the line frozen from it, and the product written back with the new
      stock and sold, exactly as Reserve says. */
  method ReserveItem(db: Db, item: RequestItem) returns (res: Result<OrderItem>)
    modifies db`products
    ensures var r := Reserve(old(db.products), item);
            && (r.Err? ==> res == Err(r.failure) && db.products == old(db.products))
            && (r.Ok? ==> res == Ok(r.value.line) && db.products == r.value.products)
  {
    if !Available(db.products, item.product) {
      return Err(NotFound);
    }
    var product := db.products[item.product];
    if product.stock < item.quantity {
      return Err(BadRequest);
    }
    var line := LineFor(item.product, product, item);
    product := Reserved(product, item.quantity);
    if !Valid(product) {
      return Err(ServerError);
    }
    db.products := db.products[item.product := product];
    res := Ok(line);
  }

  /** The loop of the checkout handler: each item's product is checked,
      frozen into a line and written back at once, so on a failure the writes
      of the earlier items stay. */
  method ReserveAll(db: Db, items: seq<RequestItem>) returns (lines: seq<OrderItem>, subtotal: real, failure: Option<Failure>)
    modifies db`products
    ensures var w := WalkItems(old(db.products), items);
            && db.products == w.products
            && failure == w.failure
            && (failure.None? ==> lines == w.lines && subtotal == w.subtotal)
  {
    lines, subtotal, failure := [], 0.0, None;
    var i := 0;
    while i < |items|
      invariant 0 <= i <= |items|
      invariant WalkItems(old(db.products), items) == Prepend(lines, subtotal, WalkItems(db.products, items[i..]))
    {
      assert items[i..][0] == items[i] && items[i..][1..] == items[i + 1..];
      ghost var before := db.products;
      var reserved := ReserveItem(db, items[i]);
      if reserved.Err? {
        WalkStops(before, items[i..]);
        failure := Some(reserved.failure);
        return;
      }
      WalkStep(before, items[i..]);
      PrependTwice(lines, subtotal, reserved.value, WalkItems(db.products, items[i + 1..]));
      lines := lines + [reserved.value];
      subtotal := subtotal + LineTotal(reserved.value);
      i := i + 1;
    }
    assert items[i..] == [];
  }

  /** `POST /orders`. `orderId` is the id the new document gets; `now` and
      `randomText` stand for `Date.now()` and `Math.random().toString(36)`. */
  method Checkout(db: Db, user: UserId, items: seq<RequestItem>, shippingAddress: Option<Address>,
                  paymentMethod: string, notes: Option<string>, orderId: OrderId, now: nat, randomText: string)
    returns (r: Result<Order>)
    requires db.Valid()
    requires orderId !in db.orders
    modifies db`products, db`orders, db.CartOf(user)
    ensures db.Valid()
    ensures db.carts == old(db.carts)
    ensures db.products == WalkItems(old(db.products), items).products
    ensures var w := WalkItems(old(db.products), items);
            w.failure.Some? ==> r == Err(w.failure.value)
    ensures var w := WalkItems(old(db.products), items);
            w.failure.None? ==> r == PlaceOrder(old(db.orders), user, w.lines, w.subtotal, shippingAddress,
                                                paymentMethod, notes, now, randomText)
    ensures r.Err? ==> db.orders == old(db.orders) && db.ItemsOf(user) == old(db.ItemsOf(user))
    ensures r.Ok? ==> db.orders == old(db.orders)[orderId := r.value]
    ensures r.Ok? && user in db.carts ==>
              db.carts[user].items == [] && db.carts[user].totalAmount == 0.0 && db.carts[user].totalItems == 0
  {
    WalkKeepsCatalogValid(db.products, items);
    var lines, subtotal, failure := ReserveAll(db, items);
    if failure.Some? {
      return Err(failure.value);
    }
    r := SaveCheckoutOrder(db, user, lines, subtotal, shippingAddress, paymentMethod, notes, orderId, now, randomText);
    if r.Ok? {
      EmptyCart(db, user);
    }
  }

  /** The second half of checkout: totals, the new order, and its save. */
  method SaveCheckoutOrder(db: Db, user: UserId, lines: seq<OrderItem>, subtotal: real, shippingAddress: Option<Address>,
                           paymentMethod: string, notes: Option<string>, orderId: OrderId, now: nat, randomText: string)
    returns (r: Result<Order>)
    requires OrdersValid(db.orders)
    requires orderId !in db.orders
    modifies db`orders
    ensures OrdersValid(db.orders)
    ensures r == PlaceOrder(old(db.orders), user, lines, subtotal, shippingAddress, paymentMethod, notes, now, randomText)
    ensures r.Err? ==> db.orders == old(db.orders)
    ensures r.Ok? ==> db.orders == old(db.orders)[orderId := r.value]
  {
    var payment := ParsePaymentMethod(paymentMethod);
    if payment.None? {
      return Err(ServerError);
    }
    var fee := if paymentMethod == "cash_on_delivery" then 15000.0 else 0.0;
    var tax := subtotal * 0.1;
    var discount := 0.0;
    var order := NewOrder(user, lines, shippingAddress, payment.value, subtotal, Some(fee), Some(tax), Some(discount),
                          subtotal + fee + tax - discount, notes, Some(now + DeliveryDelay));
    assert PaymentMethodName(CashOnDelivery) == "cash_on_delivery";
    assert fee == ShippingFee(payment.value);
    assert order == CheckoutOrder(user, lines, subtotal, shippingAddress, payment.value, notes, now);
    var saved := SaveOrder(order, db.orders, now, randomText);
    if saved.Err? {
      return Err(ServerError);
    }
    SaveKeepsOrdersValid(db.orders, orderId, order, now, randomText);
    db.orders := db.orders[orderId := saved.value];
    r := Ok(saved.value);
  }

  /** `Cart.findOneAndUpdate({ user }, { items: [], totalAmount: 0,
      totalItems: 0 })`: no validation, and nothing happens when the user has
      no cart. */
  method EmptyCart(db: Db, user: UserId)
    requires db.Valid()
    modifies db.CartOf(user)
    ensures db.Valid()
    ensures db.products == old(db.products) && db.orders == old(db.orders) && db.carts == old(db.carts)
    ensures user in db.carts ==>
              db.carts[user].items == [] && db.carts[user].totalAmount == 0.0 && db.carts[user].totalItems == 0
  {
    if user in db.carts {
      var cart := db.carts[user];
      cart.items := [];
      cart.totalAmount := 0.0;
      cart.totalItems := 0;
    }
  }

  // ---------------------------------------------------------------------
  // Cancel
  // ---------------------------------------------------------------------

  /** One `findByIdAndUpdate` with `$inc`: the line's quantity goes back to
      stock and comes off sold. It bypasses validation, and a product that no
      longer exists is skipped. */
  function RestockLine(products: map<ProductId, Product>, line: OrderItem): map<ProductId, Product>
  {
    if line.product in products then
      var p := products[line.product];
      products[line.product := p.(stock := p.stock + line.quantity, sold := p.sold - line.quantity)]
    else products
  }

  /** The cancel loop over an order's lines, in order. It changes only stock
      and sold. */
  function Restock(products: map<ProductId, Product>, lines: seq<OrderItem>): (r: map<ProductId, Product>)
    ensures OnlyStockSold(products, r)
  {
    if lines == [] then products
    else
      var next := RestockLine(products, lines[0]);
      assert OnlyStockSold(products, next);
      Restock(next, lines[1..])
  }

  /** With lines of non-negative quantity, restocking keeps a valid catalog
      valid: stock only grows. */
  lemma {:induction false} RestockKeepsCatalogValid(products: map<ProductId, Product>, lines: seq<OrderItem>)
    requires CatalogValid(products)
    requires forall i :: 0 <= i < |lines| ==> lines[i].quantity >= 0
    ensures CatalogValid(Restock(products, lines))
  {
    if lines != [] {
      var next := RestockLine(products, lines[0]);
      assert CatalogValid(next) by {
        forall id | id in next ensures Valid(next[id]) {
          assert Valid(products[id]);
        }
      }
      RestockKeepsCatalogValid(next, lines[1..]);
    }
  }

  /** Restocking returns to every product exactly the units of it the lines
      hold, to stock, and takes them off sold. */
  lemma {:induction false} RestockEffect(products: map<ProductId, Product>, lines: seq<OrderItem>)
    ensures var r := Restock(products, lines);
            forall id :: id in products ==>
              && r[id].stock == products[id].stock + Quantity(lines, id)
              && r[id].sold == products[id].sold - Quantity(lines, id)
  {
    if lines != [] {
      RestockEffect(RestockLine(products, lines[0]), lines[1..]);
    }
  }

  /** A product that went through two stock-and-sold changes and ended with
      its original stock and sold is the original product. */
  lemma {:induction false} SameStockSoldSameProduct(a: Product, b: Product, c: Product)
    requires b == a.(stock := b.stock, sold := b.sold)
    requires c == b.(stock := c.stock, sold := c.sold)
    requires c.stock == a.stock && c.sold == a.sold
    ensures c == a
  {
  }

  /** Restocking undoes any change that moved exactly the lines' units from
      stock to sold and touched nothing else. */
  lemma {:induction false} RestockInverts(before: map<ProductId, Product>, after: map<ProductId, Product>,
                                          lines: seq<OrderItem>)
    requires OnlyStockSold(before, after)
    requires forall id :: id in before ==>
               after[id].stock == before[id].stock - Quantity(lines, id) &&
               after[id].sold == before[id].sold + Quantity(lines, id)
    ensures Restock(after, lines) == before
  {
    var back := Restock(after, lines);
    RestockEffect(after, lines);
    forall id | id in before ensures back[id] == before[id] {
      SameStockSoldSameProduct(before[id], after[id], back[id]);
    }
  }

  /** Cancelling the order a successful checkout built gives back the catalog
      as it was before the checkout, as long as nothing else touched it. */
  lemma {:induction false} CancelUndoesCheckout(products: map<ProductId, Product>, items: seq<RequestItem>)
    requires WalkItems(products, items).failure.None?
    ensures var w := WalkItems(products, items); Restock(w.products, w.lines) == products
  {
    var w := WalkItems(products, items);
    WalkMovesStockToSold(products, items);
    WalkChangesOnlyStock(products, items);
    RestockInverts(products, w.products, w.lines);
  }

  /** The guard of `PUT /orders/:id/cancel`, in the handler's order: missing
      order 404, not the owner 403, shipped or delivered 400. Any other status
      passes, including an order that is already cancelled. */
  function CancelCheck(orders: map<OrderId, Order>, orderId: OrderId, requester: UserId): (r: Result<Order>)
    ensures r == Err(NotFound) <==> orderId !in orders
    ensures r == Err(Forbidden) <==> orderId in orders && orders[orderId].user != requester
    ensures r == Err(BadRequest) <==>
              orderId in orders && orders[orderId].user == requester &&
              (orders[orderId].orderStatus == Shipped || orders[orderId].orderStatus == Delivered)
    ensures r.Ok? <==>
              orderId in orders && orders[orderId].user == requester &&
              orders[orderId].orderStatus != Shipped && orders[orderId].orderStatus != Delivered
    ensures r.Ok? ==> orderId in orders && r.value == orders[orderId]
  {
    if orderId !in orders then Err(NotFound)
    else
      var o := orders[orderId];
      if o.user != requester then Err(Forbidden)
      else if o.orderStatus == Shipped || o.orderStatus == Delivered then Err(BadRequest)
      else Ok(o)
  }

  /** Because the guard lets a cancelled order through, cancelling twice
      passes both times and returns each line's quantity to stock twice. */
  lemma {:induction false} CancelTwiceRestocksTwice(orders: map<OrderId, Order>, orderId: OrderId, requester: UserId,
                                 products: map<ProductId, Product>)
    requires CancelCheck(orders, orderId, requester).Ok?
    ensures var cancelled := orders[orderId].(orderStatus := Cancelled);
            CancelCheck(orders[orderId := cancelled], orderId, requester) == Ok(cancelled)
    ensures var lines := orders[orderId].items;
            var twice := Restock(Restock(products, lines), lines);
            forall id :: id in products ==> twice[id].stock == products[id].stock + 2 * Quantity(lines, id)
  {
    var lines := orders[orderId].items;
    var once := Restock(products, lines);
    RestockEffect(products, lines);
    RestockEffect(once, lines);
  }

  /** The loop of the cancel handler: one `$inc` per line, in order. */
  method RestockAll(db: Db, lines: seq<OrderItem>)
    requires CatalogValid(db.products)
    requires forall i :: 0 <= i < |lines| ==> ValidLine(lines[i])
    modifies db`products
    ensures db.products == Restock(old(db.products), lines)
    ensures CatalogValid(db.products)
  {
    var i := 0;
    while i < |lines|
      invariant 0 <= i <= |lines|
      invariant Restock(db.products, lines[i..]) == Restock(old(db.products), lines)
    {
      var line := lines[i];
      assert lines[i..][0] == line && lines[i..][1..] == lines[i + 1..];
      db.products := RestockLine(db.products, line);
      i := i + 1;
    }
    assert lines[i..] == [];
    RestockKeepsCatalogValid(old(db.products), lines);
  }

  /** `PUT /orders/:id/cancel`. */
  method Cancel(db: Db, requester: UserId, orderId: OrderId) returns (r: Result<Order>)
    requires db.Valid()
    modifies db`products, db`orders
    ensures db.Valid()
    ensures var check := CancelCheck(old(db.orders), orderId, requester);
            check.Err? ==> r == check && db.products == old(db.products) && db.orders == old(db.orders)
    ensures var check := CancelCheck(old(db.orders), orderId, requester);
            check.Ok? ==>
              && r == Ok(check.value.(orderStatus := Cancelled))
              && db.products == Restock(old(db.products), check.value.items)
              && db.orders == old(db.orders)[orderId := r.value]
  {
    if orderId !in db.orders {
      return Err(NotFound);
    }
    var order := db.orders[orderId];
    if order.user != requester {
      return Err(Forbidden);
    }
    if order.orderStatus == Shipped || order.orderStatus == Delivered {
      return Err(BadRequest);
    }
    assert ValidOrder(order);
    RestockAll(db, order.items);
    order := order.(orderStatus := Cancelled);
    ResaveKeepsOrdersValid(db.orders, orderId, order);
    db.orders := db.orders[orderId := order];
    r := Ok(order);
  }

  // ---------------------------------------------------------------------
  // Status update and view
  // ---------------------------------------------------------------------

  /** The fields the status update assigns: the status always, the tracking
      number only when one is supplied, the delivery time only when the new
      status is delivered. Nothing else changes, and no transition is
      refused. */
  function SetStatus(o: Order, status: OrderStatus, trackingNumber: Option<string>, now: nat): (r: Order)
    ensures r.orderStatus == status
    ensures r.trackingNumber == (if Truthy(trackingNumber) then trackingNumber else o.trackingNumber)
    ensures r.actualDelivery == (if status == Delivered then Some(now) else o.actualDelivery)
    ensures r.(orderStatus := o.orderStatus, trackingNumber := o.trackingNumber, actualDelivery := o.actualDelivery) == o
  {
    var withTracking := if Truthy(trackingNumber) then o.(trackingNumber := trackingNumber) else o;
    var delivered := if status == Delivered then withTracking.(actualDelivery := Some(now)) else withTracking;
    delivered.(orderStatus := status)
  }

  /** The outcome of `PUT /orders/:id/status` with the intended admin check:
      a non-admin is refused (403) before the order is looked up (404), and a
      status outside the enum fails validation on save (500). */
  function StatusUpdate(orders: map<OrderId, Order>, role: Role, orderId: OrderId, orderStatus: string,
                        trackingNumber: Option<string>, now: nat): (r: Result<Order>)
    ensures r == Err(Forbidden) <==> role != Admin
    ensures r == Err(NotFound) <==> role == Admin && orderId !in orders
    ensures r == Err(ServerError) <==> role == Admin && orderId in orders && ParseOrderStatus(orderStatus).None?
    ensures r.Ok? <==> role == Admin && orderId in orders && ParseOrderStatus(orderStatus).Some?
    ensures r.Ok? ==> orderId in orders && ParseOrderStatus(orderStatus).Some? &&
                      r.value == SetStatus(orders[orderId], ParseOrderStatus(orderStatus).value, trackingNumber, now)
  {
    if AdminOnly(role).Err? then Err(Forbidden)
    else if orderId !in orders then Err(NotFound)
    else match ParseOrderStatus(orderStatus)
      case None => Err(ServerError)
      case Some(status) => Ok(SetStatus(orders[orderId], status, trackingNumber, now))
  }

  /** Every transition is allowed: an admin can move any order to any status,
      even a cancelled one back to pending. */
  lemma {:induction false} AnyTransitionAllowed(orders: map<OrderId, Order>, orderId: OrderId, status: OrderStatus,
                             trackingNumber: Option<string>, now: nat)
    requires orderId in orders
    ensures var r := StatusUpdate(orders, Admin, orderId, OrderStatusName(status), trackingNumber, now);
            r.Ok? && r.value.orderStatus == status
  {
    assert ParseOrderStatus(OrderStatusName(status)) == Some(status);
  }

  /** `PUT /orders/:id/status`, with the caller's role as an input. */
  method UpdateStatus(db: Db, role: Role, orderId: OrderId, orderStatus: string,
                      trackingNumber: Option<string>, now: nat) returns (r: Result<Order>)
    requires db.Valid()
    modifies db`orders
    ensures db.Valid()
    ensures r == StatusUpdate(old(db.orders), role, orderId, orderStatus, trackingNumber, now)
    ensures r.Err? ==> db.orders == old(db.orders)
    ensures r.Ok? ==> db.orders == old(db.orders)[orderId := r.value]
  {
    if role != Admin {
      return Err(Forbidden);
    }
    if orderId !in db.orders {
      return Err(NotFound);
    }
    var order := db.orders[orderId];
    var status := ParseOrderStatus(orderStatus);
    if status.None? {
      return Err(ServerError);
    }
    order := order.(orderStatus := status.value);
    if Truthy(trackingNumber) {
      order := order.(trackingNumber := trackingNumber);
    }
    if status.value == Delivered {
      order := order.(actualDelivery := Some(now));
    }
    ResaveKeepsOrdersValid(db.orders, orderId, order);
    db.orders := db.orders[orderId := order];
    r := Ok(order);
  }

  /** `GET /orders/:id` with the intended check: 404 for a missing order,
      then the owner or an admin sees it and anyone else gets 403. */
  function ViewOrder(orders: map<OrderId, Order>, orderId: OrderId, requester: UserId, role: Role): (r: Result<Order>)
    ensures r == Err(NotFound) <==> orderId !in orders
    ensures r.Ok? <==> orderId in orders && (orders[orderId].user == requester || role == Admin)
    ensures r.Ok? ==> r.value == orders[orderId]
    ensures r.Err? && orderId in orders ==> r.failure == Forbidden
  {
    if orderId !in orders then Err(NotFound)
    else match OwnerOrAdmin(orders[orderId].user, requester, role)
      case Err(f) => Err(f)
      case Ok(_) => Ok(orders[orderId])
  }

  // ---------------------------------------------------------------------
  // Listings
  // ---------------------------------------------------------------------

  /** The status filter of both listings: applied only when a non-empty
      status is given. */
  predicate StatusMatches(o: Order, status: Option<string>)
  {
    !Truthy(status) || OrderStatusName(o.orderStatus) == status.value
  }

  /** `GET /orders` over the orders already in `createdAt` descending order:
      the caller's orders, with the given status if any, the page
      `(page - 1) * limit` (page 1 and limit 10 when not given), and a total
      that counts every match. */
  function ListOrders(newestFirst: seq<Order>, user: UserId, page: Option<int>, limit: Option<int>,
                      status: Option<string>): (r: Result<Page<Order>>)
    ensures var matching := Filter(newestFirst, (o: Order) => o.user == user && StatusMatches(o, status));
            var p := if page.Some? then page.value else 1;
            var l := if limit.Some? then limit.value else 10;
            && (r.Err? <==> (p - 1) * l < 0)
            && (r.Ok? ==> forall i :: 0 <= i < |r.value.items| ==>
                            r.value.items[i].user == user && StatusMatches(r.value.items[i], status))
            && (r.Ok? ==> r.value.items == Window(matching, (p - 1) * l, l).value)
            && (r.Ok? ==> r.value.total == |matching|)
            && (r.Ok? ==> r.value.pages == Pages(r.value.total, l) && r.value.current == p && r.value.limit == l)
  {
    var keep := (o: Order) => o.user == user && StatusMatches(o, status);
    var matching := Filter(newestFirst, keep);
    var p := if page.Some? then page.value else 1;
    var l := if limit.Some? then limit.value else 10;
    match Window(matching, (p - 1) * l, l)
    case Err(f) => Err(f)
    case Ok(items) =>
      WindowKeeps(matching, (p - 1) * l, l, keep);
      Ok(Page(items, p, Pages(|matching|, l), |matching|, l))
  }

  /** A request without page or limit gets the first ten matches, newest
      first, or all of them when there are fewer. */
  lemma {:induction false} ListOrdersDefaults(newestFirst: seq<Order>, user: UserId, status: Option<string>)
    ensures var matching := Filter(newestFirst, (o: Order) => o.user == user && StatusMatches(o, status));
            var r := ListOrders(newestFirst, user, None, None, status);
            && r.Ok? && r.value.current == 1 && r.value.limit == 10
            && r.value.items == matching[..if |matching| < 10 then |matching| else 10]
  {
  }

  /** With a positive limit no match is lost between pages: the `i`-th of
      the caller's matching orders, newest first, is entry `i % limit` of page
      `i / limit + 1`. */
  lemma {:induction false} ListOrdersShowsEveryMatch(newestFirst: seq<Order>, user: UserId, limit: int,
                                                     status: Option<string>, i: int)
    requires limit > 0
    requires 0 <= i < |Filter(newestFirst, (o: Order) => o.user == user && StatusMatches(o, status))|
    ensures var r := ListOrders(newestFirst, user, Some(i / limit + 1), Some(limit), status);
            var matching := Filter(newestFirst, (o: Order) => o.user == user && StatusMatches(o, status));
            && r.Ok?
            && i % limit < |r.value.items|
            && r.value.items[i % limit] == matching[i]
  {
    var matching := Filter(newestFirst, (o: Order) => o.user == user && StatusMatches(o, status));
    WindowFinds(matching, limit, i);
    assert (i / limit + 1 - 1) * limit == (i / limit) * limit;
  }

  /** Whether an order holds a line sold by `seller`. */
  predicate HasSellerLine(o: Order, seller: UserId)
  {
    exists i :: 0 <= i < |o.items| && o.items[i].seller == seller
  }

  /** `GET /orders/seller/all`: the page is cut from all of the seller's
      orders first (page 1 and limit 10 when not given) and only then
      filtered by status, and the total counts all of the seller's orders
      whatever the status. */
  function SellerOrders(newestFirst: seq<Order>, seller: UserId, page: Option<int>, limit: Option<int>,
                        status: Option<string>): (r: Result<Page<Order>>)
    ensures var mine := Filter(newestFirst, (o: Order) => HasSellerLine(o, seller));
            var p := if page.Some? then page.value else 1;
            var l := if limit.Some? then limit.value else 10;
            && (r.Err? <==> (p - 1) * l < 0)
            && (r.Ok? ==> forall i :: 0 <= i < |r.value.items| ==>
                            HasSellerLine(r.value.items[i], seller) && StatusMatches(r.value.items[i], status))
            && (r.Ok? ==> r.value.items == Filter(Window(mine, (p - 1) * l, l).value, (o: Order) => StatusMatches(o, status)))
            && (r.Ok? ==> r.value.total == |mine|)
            && (r.Ok? ==> r.value.pages == Pages(r.value.total, l) && r.value.current == p && r.value.limit == l)
  {
    var sells := (o: Order) => HasSellerLine(o, seller);
    var matches := (o: Order) => StatusMatches(o, status);
    var mine := Filter(newestFirst, sells);
    var p := if page.Some? then page.value else 1;
    var l := if limit.Some? then limit.value else 10;
    match Window(mine, (p - 1) * l, l)
    case Err(f) => Err(f)
    case Ok(window) =>
      WindowKeeps(mine, (p - 1) * l, l, sells);
      FilterPreserves(window, matches, sells);
      Ok(Page(Filter(window, matches), p, Pages(|mine|, l), |mine|, l))
  }

  /** Without a status every one of the seller's orders is listed: the
      `i`-th, newest first, is entry `i % limit` of page `i / limit + 1`. */
  lemma {:induction false} SellerOrdersShowsEveryOrder(newestFirst: seq<Order>, seller: UserId, limit: int,
                                                       status: Option<string>, i: int)
    requires !Truthy(status) && limit > 0
    requires 0 <= i < |Filter(newestFirst, (o: Order) => HasSellerLine(o, seller))|
    ensures var r := SellerOrders(newestFirst, seller, Some(i / limit + 1), Some(limit), status);
            var mine := Filter(newestFirst, (o: Order) => HasSellerLine(o, seller));
            && r.Ok?
            && i % limit < |r.value.items|
            && r.value.items[i % limit] == mine[i]
  {
    var mine := Filter(newestFirst, (o: Order) => HasSellerLine(o, seller));
    WindowFinds(mine, limit, i);
    assert (i / limit + 1 - 1) * limit == (i / limit) * limit;
    var window := Window(mine, (i / limit) * limit, limit).value;
    FilterKeepsAll(window, (o: Order) => StatusMatches(o, status));
  }

  /** Filtering after paging: with two seller orders, the newer one pending
      and the older one delivered, the first page of size 1 filtered to
      delivered is empty, while the total still reports both orders. */
  lemma {:induction false} SellerStatusFilterAfterPaging(newer: Order, older: Order, seller: UserId)
    requires HasSellerLine(newer, seller) && HasSellerLine(older, seller)
    requires newer.orderStatus == Pending && older.orderStatus == Delivered
    ensures var r := SellerOrders([newer, older], seller, None, Some(1), Some("delivered"));
            r.Ok? && r.value.items == [] && r.value.total == 2
  {
    var keep := (o: Order) => HasSellerLine(o, seller);
    assert [newer, older][1..] == [older];
    assert Filter([older], keep) == [older];
    var mine := Filter([newer, older], keep);
    assert mine == [newer, older];
    assert Window(mine, 0, 1) == Ok([newer]);
  }
}
