/** The cart handlers of routes/cart.js. Each handler is a method on the
    database; what it does to the caller's cart lines is specified by a pure
    function of the lines before the request (AddLines, UpdateLines,
    RemoveLine), and the lemmas below state what those functions promise.

    A handler that fails never saves. In the source the in-memory cart may
    already have been changed when validation on save rejects it, but that
    copy is discarded; here the new lines are checked before the stored cart
    is touched, which leaves the database in the same state. */
module CartRoutes {
  import opened Common
  import opened ProductModel
  import opened CartModel
  import opened Store

  /** The `findIndex` predicate of the add, update and remove handlers: the
      same product, and either no variant was supplied or the line's variant
      equals it. With no variant, a line of that product matches whatever its
      own variant is. */
  predicate Matches(item: CartItem, productId: ProductId, variant: Option<VariantChoice>)
  {
    item.product == productId && (variant.None? || item.variant == variant)
  }

  /** `items.findIndex(...)` with that predicate: the first matching line, or -1. */
  function FindLine(items: seq<CartItem>, productId: ProductId, variant: Option<VariantChoice>): (k: int)
    ensures -1 <= k < |items|
    ensures k >= 0 ==> Matches(items[k], productId, variant)
    ensures forall j :: 0 <= j < |items| && (k == -1 || j < k) ==> !Matches(items[j], productId, variant)
  {
    if items == [] then -1
    else if Matches(items[0], productId, variant) then 0
    else
      var k := FindLine(items[1..], productId, variant);
      if k == -1 then -1 else k + 1
  }

  /** The `quantity = 1` default of `POST /cart/add`. */
  function RequestedQuantity(quantity: Option<int>): int
  {
    if quantity.Some? then quantity.value else 1
  }

  /** Schema validation on `cart.save()`: 500 unless every line has quantity
      at least 1. */
  function SaveLines(items: seq<CartItem>): (r: Result<seq<CartItem>>)
    ensures r.Ok? <==> LinesValid(items)
    ensures r.Ok? ==> r.value == items
    ensures r.Err? ==> r.failure == ServerError
  {
    if LinesValid(items) then Ok(items) else Err(ServerError)
  }

  /** The stock checks of an add: the requested quantity, and the merged
      quantity when a line matches, are both within the product's stock. */
  predicate StockCovers(items: seq<CartItem>, product: Product, productId: ProductId, quantity: int,
                        variant: Option<VariantChoice>)
  {
    var k := FindLine(items, productId, variant);
    && quantity <= product.stock
    && (k >= 0 ==> items[k].quantity + quantity <= product.stock)
  }

  /** The lines an add saves once the stock checks pass: the first matching
      line grown by the quantity, or a new line at the product's price. */
  function Merged(items: seq<CartItem>, product: Product, productId: ProductId, quantity: int,
                  variant: Option<VariantChoice>): seq<CartItem>
  {
    var k := FindLine(items, productId, variant);
    if k >= 0 then items[k := items[k].(quantity := items[k].quantity + quantity)]
    else items + [CartItem(productId, quantity, variant, product.price)]
  }

  /** The lines of the caller's cart after `POST /cart/add`, or its failure.
      A missing or inactive product is 404, too little stock for the requested
      quantity is 400; a matching line grows by the quantity (400 if the new
      total exceeds stock), otherwise a line is appended with the product's
      current price. */
  function AddLines(items: seq<CartItem>, products: map<ProductId, Product>, productId: ProductId,
                    quantity: int, variant: Option<VariantChoice>): (r: Result<seq<CartItem>>)
    ensures r == Err(NotFound) <==> !Available(products, productId)
    ensures r == Err(BadRequest) <==> Available(products, productId) && !StockCovers(items, products[productId], productId, quantity, variant)
    ensures r == Err(ServerError) <==>
              Available(products, productId) && StockCovers(items, products[productId], productId, quantity, variant) &&
              !LinesValid(Merged(items, products[productId], productId, quantity, variant))
    ensures r.Ok? <==>
              Available(products, productId) && StockCovers(items, products[productId], productId, quantity, variant) &&
              LinesValid(Merged(items, products[productId], productId, quantity, variant))
    ensures r.Ok? ==> LinesValid(r.value)
    ensures r.Ok? && FindLine(items, productId, variant) >= 0 ==>
              var k := FindLine(items, productId, variant);
              && |r.value| == |items|
              && r.value[k] == items[k].(quantity := items[k].quantity + quantity)
              && items[k].quantity + quantity <= products[productId].stock
              && forall j :: 0 <= j < |items| && j != k ==> r.value[j] == items[j]
    ensures r.Ok? && FindLine(items, productId, variant) == -1 ==>
              r.value == items + [CartItem(productId, quantity, variant, products[productId].price)]
  {
    if !Available(products, productId) then Err(NotFound)
    else
      var product := products[productId];
      if product.stock < quantity then Err(BadRequest)
      else
        var k := FindLine(items, productId, variant);
        if k > -1 then
          var newQuantity := items[k].quantity + quantity;
          if product.stock < newQuantity then Err(BadRequest)
          else SaveLines(items[k := items[k].(quantity := newQuantity)])
        else
          SaveLines(items + [CartItem(productId, quantity, variant, product.price)])
  }

  /** A successful add raises `totalItems` by exactly the requested quantity
      and `totalAmount` by that quantity at the line's price: the snapshot of
      a matching line, the product's current price for a new one. */
  lemma {:induction false} AddTotals(items: seq<CartItem>, products: map<ProductId, Product>, productId: ProductId,
                  quantity: int, variant: Option<VariantChoice>, after: seq<CartItem>)
    requires AddLines(items, products, productId, quantity, variant) == Ok(after)
    ensures Count(after) == Count(items) + quantity
    ensures Amount(after) == Amount(items) + AddedPrice(items, products, productId, variant) * (quantity as real)
  {
    var k := FindLine(items, productId, variant);
    if k >= 0 {
      assert after == items[k := items[k].(quantity := items[k].quantity + quantity)];
      TotalsGrowLine(items, k, quantity);
    } else {
      var line := CartItem(productId, quantity, variant, products[productId].price);
      assert after == items + [line];
      TotalsAddLine(items, line);
    }
  }

  /** The unit price an add charges: the snapshot on the matching line, or
      the product's current price for a new line. */
  function AddedPrice(items: seq<CartItem>, products: map<ProductId, Product>, productId: ProductId,
                      variant: Option<VariantChoice>): real
    requires FindLine(items, productId, variant) >= 0 || productId in products
  {
    var k := FindLine(items, productId, variant);
    if k >= 0 then items[k].price else products[productId].price
  }

  /** The failures an add can meet once the product is available, beyond a
      short stock: a result line with quantity below 1 fails validation on
      save (500). The handler has no lower bound on the requested quantity, so
      a non-positive quantity on a new line ends in 500, not 400. */
  lemma {:induction false} AddRejectsNonPositiveLine(items: seq<CartItem>, products: map<ProductId, Product>, productId: ProductId,
                                  quantity: int, variant: Option<VariantChoice>)
    requires LinesValid(items)
    requires Available(products, productId) && products[productId].stock >= quantity
    requires FindLine(items, productId, variant) == -1 && quantity < 1
    ensures AddLines(items, products, productId, quantity, variant) == Err(ServerError)
  {
    var line := CartItem(productId, quantity, variant, products[productId].price);
    assert (items + [line])[|items|] == line;
  }

  /** Because `/add` never checks that the quantity is positive, a negative
      quantity on a matching line lowers that line, as long as it stays at
      least 1. */
  lemma {:induction false} AddCanShrinkLine(items: seq<CartItem>, products: map<ProductId, Product>, productId: ProductId,
                         quantity: int, variant: Option<VariantChoice>)
    requires LinesValid(items)
    requires Available(products, productId)
    requires FindLine(items, productId, variant) >= 0
    requires quantity < 0
    requires items[FindLine(items, productId, variant)].quantity + quantity >= 1
    requires items[FindLine(items, productId, variant)].quantity + quantity <= products[productId].stock
    ensures var r := AddLines(items, products, productId, quantity, variant);
            var k := FindLine(items, productId, variant);
            r.Ok? && r.value[k].quantity < items[k].quantity
  {
    var k := FindLine(items, productId, variant);
    var after := items[k := items[k].(quantity := items[k].quantity + quantity)];
    assert LinesValid(after);
  }

  /** The lines of the caller's cart after `PUT /cart/update`, or its failure,
      with the checks in the handler's order: quantity below 1 (400), missing
      or inactive product (404), too little stock (400), no cart (404), no
      matching line (404). */
  function UpdateLines(cart: Option<seq<CartItem>>, products: map<ProductId, Product>, productId: ProductId,
                       quantity: int, variant: Option<VariantChoice>): (r: Result<seq<CartItem>>)
    ensures r == Err(BadRequest) <==>
              quantity < 1 || (Available(products, productId) && products[productId].stock < quantity)
    ensures r == Err(NotFound) <==>
              quantity >= 1 &&
              (!Available(products, productId) ||
               (products[productId].stock >= quantity &&
                (cart.None? || FindLine(cart.value, productId, variant) == -1)))
    ensures r.Ok? <==>
              quantity >= 1 && Available(products, productId) && products[productId].stock >= quantity &&
              cart.Some? && FindLine(cart.value, productId, variant) >= 0
    ensures r.Ok? ==> var k := FindLine(cart.value, productId, variant);
                      r.value == cart.value[k := cart.value[k].(quantity := quantity)]
  {
    if quantity < 1 then Err(BadRequest)
    else if !Available(products, productId) then Err(NotFound)
    else if products[productId].stock < quantity then Err(BadRequest)
    else if cart.None? then Err(NotFound)
    else
      var k := FindLine(cart.value, productId, variant);
      if k == -1 then Err(NotFound)
      else Ok(cart.value[k := cart.value[k].(quantity := quantity)])
  }

  /** A successful update changes only the matched line's quantity: its price
      snapshot and every other line stay as they were, the lines stay valid,
      and the totals move by the change in that one line. */
  lemma {:induction false} UpdateKeepsOtherLines(items: seq<CartItem>, products: map<ProductId, Product>, productId: ProductId,
                              quantity: int, variant: Option<VariantChoice>)
    requires LinesValid(items)
    requires UpdateLines(Some(items), products, productId, quantity, variant).Ok?
    ensures var after := UpdateLines(Some(items), products, productId, quantity, variant).value;
            var k := FindLine(items, productId, variant);
            && |after| == |items|
            && after[k].price == items[k].price && after[k].quantity == quantity
            && (forall j :: 0 <= j < |items| && j != k ==> after[j] == items[j])
            && LinesValid(after)
            && Count(after) == Count(items) - items[k].quantity + quantity
            && Amount(after) == Amount(items) - LineAmount(items[k]) + LineAmount(after[k])
  {
    var k := FindLine(items, productId, variant);
    TotalsReplace(items, k, items[k].(quantity := quantity));
  }

  /** The lines after `DELETE /cart/remove`: the first matching line is taken
      out and the rest keep their order; no cart or no matching line is 404. */
  function RemoveLine(cart: Option<seq<CartItem>>, productId: ProductId, variant: Option<VariantChoice>): (r: Result<seq<CartItem>>)
    ensures r.Err? <==> cart.None? || FindLine(cart.value, productId, variant) == -1
    ensures r.Err? ==> r.failure == NotFound
    ensures r.Ok? ==> var k := FindLine(cart.value, productId, variant);
                      |r.value| == |cart.value| - 1 &&
                      r.value == cart.value[..k] + cart.value[k + 1..]
  {
    if cart.None? then Err(NotFound)
    else
      var k := FindLine(cart.value, productId, variant);
      if k == -1 then Err(NotFound) else Ok(cart.value[..k] + cart.value[k + 1..])
  }

  /** Removing a line lowers the totals by exactly that line's contribution
      and keeps the remaining lines valid. */
  lemma {:induction false} RemoveTotals(items: seq<CartItem>, productId: ProductId, variant: Option<VariantChoice>)
    requires LinesValid(items)
    requires RemoveLine(Some(items), productId, variant).Ok?
    ensures var after := RemoveLine(Some(items), productId, variant).value;
            var k := FindLine(items, productId, variant);
            && LinesValid(after)
            && Count(after) == Count(items) - items[k].quantity
            && Amount(after) == Amount(items) - LineAmount(items[k])
  {
    var k := FindLine(items, productId, variant);
    TotalsWithout(items, k);
    var after := items[..k] + items[k + 1..];
    forall j | 0 <= j < |after| ensures after[j].quantity >= 1 {
      if j < k { assert after[j] == items[j]; } else { assert after[j] == items[j + 1]; }
    }
  }

  /** Adding a product the cart has no line for, then removing it with the
      same variant, gives back the original lines. */
  lemma {:induction false} AddThenRemove(items: seq<CartItem>, products: map<ProductId, Product>, productId: ProductId,
                      quantity: int, variant: Option<VariantChoice>)
    requires FindLine(items, productId, None) == -1
    requires AddLines(items, products, productId, quantity, variant).Ok?
    ensures RemoveLine(Some(AddLines(items, products, productId, quantity, variant).value), productId, variant) == Ok(items)
  {
    var after := AddLines(items, products, productId, quantity, variant).value;
    assert forall j :: 0 <= j < |items| ==> !Matches(items[j], productId, None);
    assert FindLine(items, productId, variant) == -1;
    assert after == items + [CartItem(productId, quantity, variant, products[productId].price)];
    var k := FindLine(after, productId, variant);
    assert Matches(after[|items|], productId, variant);
    assert k == |items|;
    assert after[..k] + after[k + 1..] == items;
  }

  // ---------------------------------------------------------------------
  // The handlers
  // ---------------------------------------------------------------------

  /** `GET /cart`: the caller's cart, created empty and saved if missing. */
  method GetCart(db: Db, user: UserId) returns (cart: Cart)
    requires db.Valid()
    modifies db
    ensures db.Valid()
    ensures db.products == old(db.products) && db.orders == old(db.orders)
    ensures user in db.carts && db.carts[user] == cart && cart.user == user
    ensures user in old(db.carts) ==> db.carts == old(db.carts)
    ensures user !in old(db.carts) ==> fresh(cart) && cart.items == [] && db.carts == old(db.carts)[user := cart]
    ensures cart.totalAmount == Amount(cart.items) && cart.totalItems == Count(cart.items)
  {
    if user in db.carts {
      cart := db.carts[user];
    } else {
      cart := new Cart(user);
      db.carts := db.carts[user := cart];
    }
  }

  /** `POST /cart/add`. */
  method Add(db: Db, user: UserId, productId: ProductId, quantity: Option<int>, variant: Option<VariantChoice>)
    returns (r: Result<()>)
    requires db.Valid()
    modifies db`carts, db.CartOf(user)
    ensures db.Valid()
    ensures db.products == old(db.products) && db.orders == old(db.orders)
    ensures var outcome := AddLines(old(db.ItemsOf(user)), db.products, productId, RequestedQuantity(quantity), variant);
            && (outcome.Err? ==> r == Err(outcome.failure) && db.carts == old(db.carts) &&
                                 db.ItemsOf(user) == old(db.ItemsOf(user)))
            && (outcome.Ok? ==> r == Ok(()) && user in db.carts && db.ItemsOf(user) == outcome.value &&
                                db.carts == old(db.carts)[user := db.carts[user]] &&
                                (user in old(db.carts) ==> db.carts[user] == old(db.carts[user])) &&
                                (user !in old(db.carts) ==> fresh(db.carts[user])))
    ensures user in db.carts ==> db.carts[user].totalAmount == Amount(db.carts[user].items) &&
                                 db.carts[user].totalItems == Count(db.carts[user].items)
  {
    var q := RequestedQuantity(quantity);
    ghost var before := db.ItemsOf(user);
    if !Available(db.products, productId) {
      return Err(NotFound);
    }
    var product := db.products[productId];
    if product.stock < q {
      return Err(BadRequest);
    }
    var cart: Cart;
    if user in db.carts {
      cart := db.carts[user];
    } else {
      cart := new Cart(user);
    }
    assert cart.items == before;
    var k := FindLine(cart.items, productId, variant);
    var items: seq<CartItem>;
    if k > -1 {
      var newQuantity := cart.items[k].quantity + q;
      if product.stock < newQuantity {
        return Err(BadRequest);
      }
      items := cart.items[k := cart.items[k].(quantity := newQuantity)];
    } else {
      items := cart.items + [CartItem(productId, q, variant, product.price)];
    }
    if !LinesValid(items) {
      return Err(ServerError);
    }
    assert AddLines(before, db.products, productId, q, variant) == Ok(items);
    StoreCart(db, user, cart, items);
    r := Ok(());
  }

  /** `cart.save()` after an add: `cart` (the user's stored cart, or a new
      one) gets `items` as its lines and totals recomputed from them, and is
      kept under its user. */
  method StoreCart(db: Db, user: UserId, cart: Cart, items: seq<CartItem>)
    requires db.Valid() && LinesValid(items) && cart.user == user
    requires user in db.carts ==> db.carts[user] == cart
    requires user !in db.carts ==> cart !in db.carts.Values
    modifies db`carts, cart
    ensures db.Valid()
    ensures db.products == old(db.products) && db.orders == old(db.orders)
    ensures db.carts == old(db.carts)[user := cart]
    ensures cart.items == items && cart.totalAmount == Amount(items) && cart.totalItems == Count(items)
  {
    cart.items := items;
    cart.CalculateTotals();
    db.carts := db.carts[user := cart];
  }

  /** `PUT /cart/update`. */
  method Update(db: Db, user: UserId, productId: ProductId, quantity: int, variant: Option<VariantChoice>)
    returns (r: Result<()>)
    requires db.Valid()
    modifies db.CartOf(user)
    ensures db.Valid()
    ensures var cart := if user in db.carts then Some(old(db.carts[user].items)) else None;
            var outcome := UpdateLines(cart, db.products, productId, quantity, variant);
            && (outcome.Err? ==> r == Err(outcome.failure) && db.ItemsOf(user) == old(db.ItemsOf(user)))
            && (outcome.Ok? ==> r == Ok(()) && db.ItemsOf(user) == outcome.value)
    ensures user in db.carts ==> db.carts[user].totalAmount == Amount(db.carts[user].items) &&
                                 db.carts[user].totalItems == Count(db.carts[user].items)
  {
    if quantity < 1 {
      return Err(BadRequest);
    }
    if productId !in db.products || !db.products[productId].isActive {
      return Err(NotFound);
    }
    if db.products[productId].stock < quantity {
      return Err(BadRequest);
    }
    if user !in db.carts {
      return Err(NotFound);
    }
    var cart := db.carts[user];
    var k := FindLine(cart.items, productId, variant);
    if k == -1 {
      return Err(NotFound);
    }
    cart.items := cart.items[k := cart.items[k].(quantity := quantity)];
    cart.CalculateTotals();
    r := Ok(());
  }

  /** `DELETE /cart/remove`. */
  method Remove(db: Db, user: UserId, productId: ProductId, variant: Option<VariantChoice>)
    returns (r: Result<()>)
    requires db.Valid()
    modifies db.CartOf(user)
    ensures db.Valid()
    ensures var cart := if user in db.carts then Some(old(db.carts[user].items)) else None;
            var outcome := RemoveLine(cart, productId, variant);
            && (outcome.Err? ==> r == Err(outcome.failure) && db.ItemsOf(user) == old(db.ItemsOf(user)))
            && (outcome.Ok? ==> r == Ok(()) && db.ItemsOf(user) == outcome.value)
    ensures user in db.carts ==> db.carts[user].totalAmount == Amount(db.carts[user].items) &&
                                 db.carts[user].totalItems == Count(db.carts[user].items)
  {
    if user !in db.carts {
      return Err(NotFound);
    }
    var cart := db.carts[user];
    var k := FindLine(cart.items, productId, variant);
    if k == -1 {
      return Err(NotFound);
    }
    RemoveTotals(cart.items, productId, variant);
    cart.items := cart.items[..k] + cart.items[k + 1..];
    cart.CalculateTotals();
    r := Ok(());
  }

  /** `DELETE /cart/clear`: the cart stays, with no lines and both totals 0. */
  method Clear(db: Db, user: UserId) returns (r: Result<()>)
    requires db.Valid()
    modifies db.CartOf(user)
    ensures db.Valid()
    ensures user !in db.carts ==> r == Err(NotFound)
    ensures user in db.carts ==> r == Ok(()) && db.carts[user].items == [] &&
                                 db.carts[user].totalAmount == 0.0 && db.carts[user].totalItems == 0
  {
    if user !in db.carts {
      return Err(NotFound);
    }
    var cart := db.carts[user];
    cart.items := [];
    cart.CalculateTotals();
    r := Ok(());
  }

  /** The reply of `GET /cart/summary`. */
  datatype Summary = Summary(totalItems: int, totalAmount: real, itemCount: int)

  /** `GET /cart/summary`: zeros without a cart, otherwise the stored totals,
      which equal the sums over the lines, and the number of lines. */
  method GetSummary(db: Db, user: UserId) returns (s: Summary)
    requires db.Valid()
    ensures user !in db.carts ==> s == Summary(0, 0.0, 0)
    ensures user in db.carts ==>
              var items := db.carts[user].items;
              s.totalItems == Count(items) && s.totalAmount == Amount(items) && s.itemCount == |items| &&
              s.totalItems >= s.itemCount
  {
    if user !in db.carts {
      return Summary(0, 0.0, 0);
    }
    var cart := db.carts[user];
    CountBounds(cart.items);
    s := Summary(cart.totalItems, cart.totalAmount, |cart.items|);
  }
}
