/** The catalog handlers of routes/products.js: the list query built from
    already-parsed parameters, the by-id fetch that counts a view, the
    owner's update with uploaded images, and the soft delete. */
module ProductRoutes {
  import opened Common
  import opened ProductModel
  import opened Store

  // ---------------------------------------------------------------------
  // The list query
  // ---------------------------------------------------------------------

  /** The query parameters of `GET /products`, already parsed. A missing
      parameter is None; for the two price bounds None also stands for an
      empty parameter, which the handler treats as absent. */
  datatype ListParams = ListParams(
    page: Option<int>,
    limit: Option<int>,
    category: Option<CategoryId>,
    minPrice: Option<real>,
    maxPrice: Option<real>,
    search: Option<string>,
    sortBy: Option<string>,
    sortOrder: Option<string>,
    condition: Option<string>,
    brand: Option<string>,
    freeShipping: Option<string>)

  datatype PriceRange = PriceRange(gte: Option<real>, lte: Option<real>)

  /** The Mongo filter the handler builds; a None field is a key the filter
      does not have. `text` is the `$text` search. */
  datatype ProductFilter = ProductFilter(
    isActive: bool,
    category: Option<CategoryId>,
    price: Option<PriceRange>,
    text: Option<string>,
    condition: Option<string>,
    brand: Option<string>,
    freeShippingOnly: bool)

  /** Whether a product satisfies a filter. `textHit` is the outcome of the
      `$text` search for this product, which the database decides. */
  predicate Selects(f: ProductFilter, p: Product, textHit: bool)
  {
    && p.isActive == f.isActive
    && (f.category.Some? ==> p.category == f.category.value)
    && (f.price.Some? && f.price.value.gte.Some? ==> p.price >= f.price.value.gte.value)
    && (f.price.Some? && f.price.value.lte.Some? ==> p.price <= f.price.value.lte.value)
    && (f.text.Some? ==> textHit)
    && (f.condition.Some? ==> ConditionName(p.condition) == f.condition.value)
    && (f.brand.Some? ==> p.brand == f.brand)
    && (f.freeShippingOnly ==> p.shipping.freeShipping)
  }

  /** The filter of the list handler. Only active products are listed; the
      price key exists only when a bound is given and carries exactly the
      bounds given; category, search, condition and brand constrain only when
      non-empty; free shipping only when the parameter is the string "true".
      The last clause says which products the filter selects. */
  function BuildFilter(q: ListParams): (f: ProductFilter)
    ensures f.isActive
    ensures f.price.Some? <==> q.minPrice.Some? || q.maxPrice.Some?
    ensures f.price.Some? ==> f.price.value.gte == q.minPrice && f.price.value.lte == q.maxPrice
    ensures f.freeShippingOnly <==> q.freeShipping == Some("true")
    ensures forall p: Product, hit: bool {:trigger Selects(f, p, hit)} :: Selects(f, p, hit) <==>
              && p.isActive
              && (Truthy(q.category) ==> p.category == q.category.value)
              && (q.minPrice.Some? ==> p.price >= q.minPrice.value)
              && (q.maxPrice.Some? ==> p.price <= q.maxPrice.value)
              && (Truthy(q.search) ==> hit)
              && (Truthy(q.condition) ==> ConditionName(p.condition) == q.condition.value)
              && (Truthy(q.brand) ==> p.brand == q.brand)
              && (q.freeShipping == Some("true") ==> p.shipping.freeShipping)
  {
    ProductFilter(
      true,
      if Truthy(q.category) then q.category else None,
      if q.minPrice.Some? || q.maxPrice.Some? then Some(PriceRange(q.minPrice, q.maxPrice)) else None,
      if Truthy(q.search) then q.search else None,
      if Truthy(q.condition) then q.condition else None,
      if Truthy(q.brand) then q.brand else None,
      q.freeShipping == Some("true"))
  }

  /** The one-key sort object: its field and direction. */
  datatype SortKey = SortKey(field: string, direction: int)

  /** The sort: on `sortBy` (default createdAt), descending exactly when
      `sortOrder` is "desc", which is also the default. */
  function BuildSort(sortBy: Option<string>, sortOrder: Option<string>): (s: SortKey)
    ensures s.field == (if sortBy.Some? then sortBy.value else "createdAt")
    ensures s.direction == -1 <==> sortOrder.None? || sortOrder == Some("desc")
    ensures s.direction == 1 <==> !(sortOrder.None? || sortOrder == Some("desc"))
  {
    var order := if sortOrder.Some? then sortOrder.value else "desc";
    SortKey(if sortBy.Some? then sortBy.value else "createdAt", if order == "desc" then -1 else 1)
  }

  /** Everything the list handler hands to the database. */
  datatype ProductQuery = ProductQuery(filter: ProductFilter, sort: SortKey, skip: int, limit: int, page: int)

  /** The query of `GET /products`, with page 1 and limit 20 as defaults and
      `skip = (page - 1) * limit`. */
  function BuildQuery(q: ListParams): (r: ProductQuery)
    ensures r.filter == BuildFilter(q) && r.sort == BuildSort(q.sortBy, q.sortOrder)
    ensures r.page == (if q.page.Some? then q.page.value else 1)
    ensures r.limit == (if q.limit.Some? then q.limit.value else 20)
    ensures r.skip == (r.page - 1) * r.limit
    ensures q.page.None? ==> r.skip == 0
  {
    var page := if q.page.Some? then q.page.value else 1;
    var limit := if q.limit.Some? then q.limit.value else 20;
    ProductQuery(BuildFilter(q), BuildSort(q.sortBy, q.sortOrder), (page - 1) * limit, limit, page)
  }

  /** The reply of `GET /products` over the catalog already in the sort
      order: the selected products in the requested window, and a total that
      counts every selected product, not just the page. */
  function ListProducts(sorted: seq<Product>, q: ListParams, textHit: Product -> bool): (r: Result<Page<Product>>)
    ensures var query := BuildQuery(q);
            && (r.Err? <==> query.skip < 0)
            && (r.Ok? ==> forall i :: 0 <= i < |r.value.items| ==>
                            r.value.items[i].isActive && Selects(query.filter, r.value.items[i], textHit(r.value.items[i])))
            && (r.Ok? ==> r.value.total == |Filter(sorted, (p: Product) => Selects(query.filter, p, textHit(p)))|)
            && (r.Ok? ==> r.value.pages == Pages(r.value.total, query.limit) && |r.value.items| <= r.value.total)
            && (r.Ok? ==> r.value.items == Window(Filter(sorted, (p: Product) => Selects(query.filter, p, textHit(p))),
                                                  query.skip, query.limit).value)
  {
    var query := BuildQuery(q);
    var keep := (p: Product) => Selects(query.filter, p, textHit(p));
    var selected := Filter(sorted, keep);
    match Window(selected, query.skip, query.limit)
    case Err(f) => Err(f)
    case Ok(items) =>
      WindowKeeps(selected, query.skip, query.limit, keep);
      Ok(Page(items, query.page, Pages(|selected|, query.limit), |selected|, query.limit))
  }

  /** With a positive limit every selected product is listed: the `i`-th,
      in the sort order, is entry `i % limit` of page `i / limit + 1`. */
  lemma {:induction false} ListProductsShowsEverySelected(sorted: seq<Product>, q: ListParams, textHit: Product -> bool,
                                                          i: int)
    requires BuildQuery(q).limit > 0
    requires 0 <= i < |Filter(sorted, (p: Product) => Selects(BuildQuery(q).filter, p, textHit(p)))|
    requires q.page == Some(i / BuildQuery(q).limit + 1)
    ensures var r := ListProducts(sorted, q, textHit);
            var selected := Filter(sorted, (p: Product) => Selects(BuildQuery(q).filter, p, textHit(p)));
            && r.Ok?
            && i % BuildQuery(q).limit < |r.value.items|
            && r.value.items[i % BuildQuery(q).limit] == selected[i]
  {
    var query := BuildQuery(q);
    var selected := Filter(sorted, (p: Product) => Selects(query.filter, p, textHit(p)));
    WindowFinds(selected, query.limit, i);
    assert query.skip == (i / query.limit) * query.limit;
  }

  // ---------------------------------------------------------------------
  // Get by id
  // ---------------------------------------------------------------------

  /** The product after one view: `viewCount` is one higher and nothing else
      changes, so a valid product stays valid. */
  function Viewed(p: Product): (r: Product)
    ensures r.viewCount == p.viewCount + 1
    ensures r.(viewCount := p.viewCount) == p
    ensures Valid(p) ==> Valid(r)
  {
    p.(viewCount := p.viewCount + 1)
  }

  /** `GET /products/:id`: a missing or inactive product is 404; otherwise its
      view count goes up by one and the saved product is returned. */
  method GetProduct(db: Db, id: ProductId) returns (r: Result<Product>)
    requires db.Valid()
    modifies db`products
    ensures db.Valid()
    ensures !Available(old(db.products), id) ==> r == Err(NotFound) && db.products == old(db.products)
    ensures Available(old(db.products), id) ==>
              r == Ok(Viewed(old(db.products)[id])) && db.products == old(db.products)[id := r.value]
  {
    if id !in db.products || !db.products[id].isActive {
      return Err(NotFound);
    }
    var product := db.products[id];
    product := product.(viewCount := product.viewCount + 1);
    db.products := db.products[id := product];
    r := Ok(product);
  }

  // ---------------------------------------------------------------------
  // Update
  // ---------------------------------------------------------------------

  /** The request body of `PUT /products/:id`: `Object.assign` copies every
      field it carries onto the product. */
  datatype ProductUpdates = ProductUpdates(
    name: Option<string>,
    description: Option<string>,
    price: Option<real>,
    originalPrice: Option<real>,
    category: Option<CategoryId>,
    subcategory: Option<string>,
    brand: Option<string>,
    images: Option<seq<string>>,
    thumbnail: Option<string>,
    condition: Option<Condition>,
    stock: Option<int>,
    sold: Option<int>,
    rating: Option<Rating>,
    seller: Option<UserId>,
    shipping: Option<Shipping>,
    variants: Option<seq<Variant>>,
    tags: Option<seq<string>>,
    isActive: Option<bool>,
    isFeatured: Option<bool>,
    viewCount: Option<int>)


  /** A field after `Object.assign`: the body's value when it carries one,
      otherwise the product's. */
  predicate Copied<T(==)>(given: Option<T>, before: T, after: T)
  {
    && (given.Some? ==> after == given.value)
    && (given.None? ==> after == before)
  }

  /** The same for a field the schema leaves optional. */
  predicate CopiedOptional<T(==)>(given: Option<T>, before: Option<T>, after: Option<T>)
  {
    && (given.Some? ==> after == given)
    && (given.None? ==> after == before)
  }

  /** One field of `Object.assign`. */
  function Pick<T(==)>(given: Option<T>, current: T): (r: T)
    ensures Copied(given, current, r)
  {
    if given.Some? then given.value else current
  }

  /** One optional field of `Object.assign`. */
  function PickOptional<T(==)>(given: Option<T>, current: Option<T>): (r: Option<T>)
    ensures CopiedOptional(given, current, r)
  {
    if given.Some? then given else current
  }

  /** `Object.assign(product, updates)`: each field the body carries replaces
      the product's, every other field is kept. Assigning `name`,
      `subcategory` or `brand` runs the schema's trim setter on the value. */
  function Assign(p: Product, u: ProductUpdates): (r: Product)
    ensures (u == ProductUpdates(None, None, None, None, None, None, None, None, None, None,
                                 None, None, None, None, None, None, None, None, None, None)) ==> r == p
    ensures Copied(TrimGiven(u.name), p.name, r.name) && Copied(u.description, p.description, r.description)
    ensures Copied(u.price, p.price, r.price) && CopiedOptional(u.originalPrice, p.originalPrice, r.originalPrice)
    ensures Copied(u.category, p.category, r.category) && CopiedOptional(TrimGiven(u.subcategory), p.subcategory, r.subcategory)
    ensures CopiedOptional(TrimGiven(u.brand), p.brand, r.brand)
    ensures Copied(u.images, p.images, r.images) && Copied(u.thumbnail, p.thumbnail, r.thumbnail)
    ensures Copied(u.condition, p.condition, r.condition)
    ensures Copied(u.stock, p.stock, r.stock) && Copied(u.sold, p.sold, r.sold)
    ensures Copied(u.rating, p.rating, r.rating) && Copied(u.seller, p.seller, r.seller)
    ensures Copied(u.shipping, p.shipping, r.shipping) && Copied(u.variants, p.variants, r.variants)
    ensures Copied(u.tags, p.tags, r.tags) && Copied(u.isActive, p.isActive, r.isActive)
    ensures Copied(u.isFeatured, p.isFeatured, r.isFeatured) && Copied(u.viewCount, p.viewCount, r.viewCount)
  {
    Product(
      Pick(TrimGiven(u.name), p.name),
      Pick(u.description, p.description),
      Pick(u.price, p.price),
      PickOptional(u.originalPrice, p.originalPrice),
      Pick(u.category, p.category),
      PickOptional(TrimGiven(u.subcategory), p.subcategory),
      PickOptional(TrimGiven(u.brand), p.brand),
      Pick(u.images, p.images),
      Pick(u.thumbnail, p.thumbnail),
      Pick(u.condition, p.condition),
      Pick(u.stock, p.stock),
      Pick(u.sold, p.sold),
      Pick(u.rating, p.rating),
      Pick(u.seller, p.seller),
      Pick(u.shipping, p.shipping),
      Pick(u.variants, p.variants),
      Pick(u.tags, p.tags),
      Pick(u.isActive, p.isActive),
      Pick(u.isFeatured, p.isFeatured),
      Pick(u.viewCount, p.viewCount))
  }

  /** Assigning the same body twice is assigning it once. */
  lemma {:induction false} AssignIdempotent(p: Product, u: ProductUpdates)
    ensures Assign(Assign(p, u), u) == Assign(p, u)
  {
    var once := Assign(p, u);
    var twice := Assign(once, u);
    if u.name.Some? { TrimIdempotent(u.name.value); }
    if u.subcategory.Some? { TrimIdempotent(u.subcategory.value); }
    if u.brand.Some? { TrimIdempotent(u.brand.value); }
    assert twice.name == once.name && twice.subcategory == once.subcategory && twice.brand == once.brand;
  }

  /** A product whose trimmed fields carry no surrounding white space keeps
      that after any assignment. */
  lemma {:induction false} AssignKeepsTrimmed(p: Product, u: ProductUpdates)
    requires Trimmed(p)
    ensures Trimmed(Assign(p, u))
  {
    if u.name.Some? { TrimIdempotent(u.name.value); }
    if u.subcategory.Some? { TrimIdempotent(u.subcategory.value); }
    if u.brand.Some? { TrimIdempotent(u.brand.value); }
  }

  /** A name of white space alone is trimmed to nothing, so the update fails
      validation however valid the product was. */
  lemma {:induction false} BlankNameRejected(p: Product, u: ProductUpdates)
    requires u.name == Some("   ")
    ensures !Valid(Assign(p, u))
  {
    assert AllBlank("   ") by { assert forall i :: 0 <= i < 3 ==> "   "[i] == ' '; }
  }

  /** The body after the uploaded files are merged in: with at least one
      upload the images become the existing ones followed by the uploads
      (whatever images the body gave), and the thumbnail becomes the first
      upload unless the body gives a non-empty one. Without uploads the body
      is used as it is. */
  function WithUploads(p: Product, u: ProductUpdates, uploaded: seq<string>): (r: ProductUpdates)
    ensures uploaded == [] ==> r == u
    ensures uploaded != [] ==> r.images == Some(p.images + uploaded)
    ensures uploaded != [] ==> r.thumbnail == (if Truthy(u.thumbnail) then u.thumbnail else Some(uploaded[0]))
    ensures r.(images := u.images, thumbnail := u.thumbnail) == u
  {
    if uploaded == [] then u
    else
      var withImages := u.(images := Some(p.images + uploaded));
      if Truthy(u.thumbnail) then withImages else withImages.(thumbnail := Some(uploaded[0]))
  }

  /** The outcome of `PUT /products/:id` with the intended check: 404 for a
      missing product (inactive ones included), 403 for a requester who is
      neither the seller nor an admin, 500 when the updated product fails
      validation, otherwise the updated product. */
  function ProductUpdate(products: map<ProductId, Product>, requester: UserId, role: Role, id: ProductId,
                         updates: ProductUpdates, uploaded: seq<string>): (r: Result<Product>)
    ensures r == Err(NotFound) <==> id !in products
    ensures r == Err(Forbidden) <==> id in products && OwnerOrAdmin(products[id].seller, requester, role).Err?
    ensures r.Ok? <==>
              id in products && OwnerOrAdmin(products[id].seller, requester, role).Ok? &&
              Valid(Assign(products[id], WithUploads(products[id], updates, uploaded)))
    ensures r.Ok? ==> id in products && r.value == Assign(products[id], WithUploads(products[id], updates, uploaded))
    ensures r.Ok? ==> Valid(r.value)
    ensures r == Err(ServerError) <==>
              id in products && OwnerOrAdmin(products[id].seller, requester, role).Ok? &&
              !Valid(Assign(products[id], WithUploads(products[id], updates, uploaded)))
  {
    if id !in products then Err(NotFound)
    else if OwnerOrAdmin(products[id].seller, requester, role).Err? then Err(Forbidden)
    else
      var updated := Assign(products[id], WithUploads(products[id], updates, uploaded));
      if Valid(updated) then Ok(updated) else Err(ServerError)
  }

  /** Uploading images to a product keeps every existing image, in order, in
      front of the uploads. */
  lemma {:induction false} UploadsAppendImages(products: map<ProductId, Product>, requester: UserId, role: Role, id: ProductId,
                            updates: ProductUpdates, uploaded: seq<string>)
    requires uploaded != []
    requires ProductUpdate(products, requester, role, id, updates, uploaded).Ok?
    ensures var r := ProductUpdate(products, requester, role, id, updates, uploaded).value;
            && |r.images| == |products[id].images| + |uploaded|
            && r.images[..|products[id].images|] == products[id].images
            && r.images[|products[id].images|..] == uploaded
            && r.thumbnail != ""
  {
  }

  /** `PUT /products/:id`, with the caller's role as an input. */
  method UpdateProduct(db: Db, requester: UserId, role: Role, id: ProductId,
                       updates: ProductUpdates, uploaded: seq<string>) returns (r: Result<Product>)
    requires db.Valid()
    modifies db`products
    ensures db.Valid()
    ensures r == ProductUpdate(old(db.products), requester, role, id, updates, uploaded)
    ensures r.Ok? ==> db.products == old(db.products)[id := r.value]
    ensures r.Err? ==> db.products == old(db.products)
  {
    if id !in db.products {
      return Err(NotFound);
    }
    var product := db.products[id];
    if product.seller != requester && role != Admin {
      return Err(Forbidden);
    }
    var body := updates;
    if |uploaded| > 0 {
      body := body.(images := Some(product.images + uploaded));
      if !Truthy(body.thumbnail) {
        body := body.(thumbnail := Some(uploaded[0]));
      }
    }
    product := Assign(product, body);
    if !Valid(product) {
      return Err(ServerError);
    }
    db.products := db.products[id := product];
    r := Ok(product);
  }

  // ---------------------------------------------------------------------
  // Delete
  // ---------------------------------------------------------------------

  /** `DELETE /products/:id`: 404 for a missing product, 403 for a requester
      who is neither the seller nor an admin; otherwise the product is kept
      in the store, marked inactive. */
  method DeleteProduct(db: Db, requester: UserId, role: Role, id: ProductId) returns (r: Result<()>)
    requires db.Valid()
    modifies db`products
    ensures db.Valid()
    ensures id !in old(db.products) ==> r == Err(NotFound) && db.products == old(db.products)
    ensures id in old(db.products) ==>
              && (r.Ok? <==> OwnerOrAdmin(old(db.products)[id].seller, requester, role).Ok?)
              && (r.Err? ==> r == Err(Forbidden) && db.products == old(db.products))
              && (r.Ok? ==> db.products == old(db.products)[id := old(db.products)[id].(isActive := false)])
  {
    if id !in db.products {
      return Err(NotFound);
    }
    var product := db.products[id];
    if product.seller != requester && role != Admin {
      return Err(Forbidden);
    }
    product := product.(isActive := false);
    db.products := db.products[id := product];
    r := Ok(());
  }

  /** A soft-deleted product stays in the store and valid, but every lookup
      that requires an active product (by-id fetch, cart, checkout) misses
      it, and no list query selects it. */
  lemma {:induction false} SoftDeleteHides(products: map<ProductId, Product>, id: ProductId, q: ListParams, hit: bool)
    requires CatalogValid(products) && id in products
    ensures var after := products[id := products[id].(isActive := false)];
            && id in after
            && CatalogValid(after)
            && !Available(after, id)
            && !Selects(BuildFilter(q), after[id], hit)
  {
    var after := products[id := products[id].(isActive := false)];
    assert Valid(products[id]);
    forall k | k in after ensures Valid(after[k]) {
      if k != id {
        assert after[k] == products[k];
      }
    }
  }
}
