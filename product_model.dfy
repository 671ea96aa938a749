/** The Product document of models/Product.js: its fields, the enum of
    conditions, the schema's validators as a predicate, and the defaults a new
    document takes. */
module ProductModel {
  import opened Common

  /** The `condition` enum: 'new', 'like_new', 'good', 'fair', 'poor'. */
  datatype Condition = New | LikeNew | Good | Fair | Poor

  function ConditionName(c: Condition): string
  {
    match c
    case New => "new"
    case LikeNew => "like_new"
    case Good => "good"
    case Fair => "fair"
    case Poor => "poor"
  }

  /** The enum validator on `condition`: a string is accepted exactly when it
      names one of the five conditions. */
  function ParseCondition(s: string): (r: Option<Condition>)
    ensures forall c :: r == Some(c) <==> ConditionName(c) == s
  {
    if s == "new" then Some(New)
    else if s == "like_new" then Some(LikeNew)
    else if s == "good" then Some(Good)
    else if s == "fair" then Some(Fair)
    else if s == "poor" then Some(Poor)
    else None
  }

  datatype Rating = Rating(average: real, count: int)

  datatype Dimensions = Dimensions(length: real, width: real, height: real)

  datatype Shipping = Shipping(weight: Option<real>, dimensions: Option<Dimensions>, freeShipping: bool)

  /** A declared variant; its `price` and `stock` are never consulted by the
      cart or the checkout, which always use the product's own. */
  datatype Variant = Variant(name: string, options: seq<string>, price: Option<real>, stock: Option<int>)

  datatype Product = Product(
    name: string,
    description: string,
    price: real,
    originalPrice: Option<real>,
    category: CategoryId,
    subcategory: Option<string>,
    brand: Option<string>,
    images: seq<string>,
    thumbnail: string,
    condition: Condition,
    stock: int,
    sold: int,
    rating: Rating,
    seller: UserId,
    shipping: Shipping,
    variants: seq<Variant>,
    tags: seq<string>,
    isActive: bool,
    isFeatured: bool,
    viewCount: int)

  /** The white space `String.prototype.trim` removes: tab, line feed,
      vertical tab, form feed, carriage return, space, the no-break and
      zero-width no-break spaces, the line and paragraph separators and the
      other Unicode space separators. */
  predicate IsBlank(c: char)
  {
    || c == ' ' || c == '\t' || c == '\n' || c == '\r' || c == '\U{000B}' || c == '\U{000C}'
    || c == '\U{00A0}' || c == '\U{FEFF}' || c == '\U{1680}' || '\U{2000}' <= c <= '\U{200A}'
    || c == '\U{2028}' || c == '\U{2029}' || c == '\U{202F}' || c == '\U{205F}' || c == '\U{3000}'
  }

  /** Text made of white space only, the empty text included. */
  predicate AllBlank(s: string)
  {
    forall i :: 0 <= i < |s| ==> IsBlank(s[i])
  }

  /** `s` without its leading white space. */
  function TrimStart(s: string): (r: string)
    ensures |r| <= |s| && r == s[|s| - |r|..] && AllBlank(s[..|s| - |r|])
    ensures r != [] ==> !IsBlank(r[0])
  {
    if s != [] && IsBlank(s[0]) then
      var r := TrimStart(s[1..]);
      assert s[1..][..|s| - 1 - |r|] == s[1..|s| - |r|];
      r
    else s
  }

  /** `s` without its trailing white space. */
  function TrimEnd(s: string): (r: string)
    ensures |r| <= |s| && r == s[..|r|] && AllBlank(s[|r|..])
    ensures r != [] ==> !IsBlank(r[|r| - 1])
  {
    if s != [] && IsBlank(s[|s| - 1]) then
      var r := TrimEnd(s[..|s| - 1]);
      assert s[..|s| - 1][|r|..] == s[|r|..|s| - 1];
      r
    else s
  }

  /** The `trim: true` setter of `name`, `subcategory` and `brand`: the text
      between the leading and the trailing white space. It is empty exactly
      when the text is all white space. */
  function Trim(s: string): (r: string)
    ensures |r| <= |s|
    ensures r == "" <==> AllBlank(s)
    ensures r != "" ==> !IsBlank(r[0]) && !IsBlank(r[|r| - 1])
  {
    var t := TrimStart(s);
    if t == "" then
      assert s == s[..|s|] + t;
      t
    else
      assert !AllBlank(s) by { assert s[|s| - |t|] == t[0]; }
      TrimEnd(t)
  }

  /** Trimming keeps one slice of the text, the one that starts where the
      leading white space ends. */
  lemma {:induction false} TrimIsSlice(s: string)
    ensures var from := |s| - |TrimStart(s)|;
            from + |Trim(s)| <= |s| && Trim(s) == s[from..from + |Trim(s)|]
  {
    var t := TrimStart(s);
    TrimComposes(s);
    SuffixSlices(s, |s| - |t|, |TrimEnd(t)|);
  }

  /** Trimming drops only white space: everything before and after the slice
      it keeps is blank. */
  lemma {:induction false} TrimDropsOnlyBlanks(s: string)
    ensures var from := |s| - |TrimStart(s)|;
            && from + |Trim(s)| <= |s|
            && AllBlank(s[..from])
            && AllBlank(s[from + |Trim(s)|..])
  {
    var t := TrimStart(s);
    TrimComposes(s);
    SuffixSlices(s, |s| - |t|, |TrimEnd(t)|);
  }

  /** The trim is the trailing trim of the leading trim. */
  lemma {:induction false} TrimComposes(s: string)
    ensures Trim(s) == TrimEnd(TrimStart(s))
  {
    if TrimStart(s) == "" {
      assert TrimEnd("") == "";
    }
  }

  /** Slicing the suffix of `s` from `from` is slicing `s` itself. */
  lemma {:induction false} SuffixSlices(s: string, from: nat, k: nat)
    requires from + k <= |s|
    ensures s[from..][..k] == s[from..from + k] && s[from..][k..] == s[from + k..]
  {
  }

  /** Text that neither starts nor ends with white space is its own trim. */
  lemma {:induction false} TrimUnpadded(s: string)
    requires s == "" || (!IsBlank(s[0]) && !IsBlank(s[|s| - 1]))
    ensures Trim(s) == s
  {
    assert TrimStart(s) == s;
    assert TrimEnd(s) == s;
  }

  /** Trimming twice is trimming once. */
  lemma {:induction false} TrimIdempotent(s: string)
    ensures Trim(Trim(s)) == Trim(s)
  {
    TrimUnpadded(Trim(s));
  }

  /** The setter applied to a field the body may carry. */
  function TrimGiven(given: Option<string>): (r: Option<string>)
    ensures r.Some? <==> given.Some?
    ensures given.Some? ==> r.value == Trim(given.value)
  {
    if given.Some? then Some(Trim(given.value)) else None
  }

  /** What every stored product shows after the setters ran: its name,
      subcategory and brand carry no surrounding white space. */
  predicate Trimmed(p: Product)
  {
    && Trim(p.name) == p.name
    && (p.subcategory.Some? ==> Trim(p.subcategory.value) == p.subcategory.value)
    && (p.brand.Some? ==> Trim(p.brand.value) == p.brand.value)
  }

  /** The schema's validators, which every save checks: required strings are
      not empty, `price`, `originalPrice` and `stock` are at least 0, and
      `rating.average` lies between 0 and 5. */
  predicate Valid(p: Product)
  {
    && p.name != ""
    && p.description != ""
    && p.price >= 0.0
    && (p.originalPrice.Some? ==> p.originalPrice.value >= 0.0)
    && (forall i :: 0 <= i < |p.images| ==> p.images[i] != "")
    && p.thumbnail != ""
    && p.stock >= 0
    && 0.0 <= p.rating.average <= 5.0
  }

  /** Every product the catalog holds passed validation when it was saved. */
  predicate CatalogValid(products: map<ProductId, Product>)
  {
    forall id :: id in products ==> Valid(products[id])
  }

  /** The lookup of the cart, checkout and by-id handlers succeeds: the
      product exists and is active. */
  predicate Available(products: map<ProductId, Product>, productId: ProductId)
  {
    productId in products && products[productId].isActive
  }

  /** A document built from its required fields alone: the name goes
      through the trim setter, every other field takes its schema default, and
      the result validates exactly when the required fields do, a name of
      nothing but white space counting as missing. */
  function NewProduct(name: string, description: string, price: real, category: CategoryId,
                      images: seq<string>, thumbnail: string, seller: UserId): (p: Product)
    ensures p.condition == New
    ensures p.stock == 0 && p.sold == 0
    ensures p.rating == Rating(0.0, 0)
    ensures p.isActive && !p.isFeatured && p.viewCount == 0
    ensures !p.shipping.freeShipping
    ensures p.name == Trim(name) && p.subcategory.None? && p.brand.None?
    ensures Valid(p) <==> Trim(name) != "" && description != "" && price >= 0.0 &&
                          thumbnail != "" && forall i :: 0 <= i < |images| ==> images[i] != ""
  {
    Product(Trim(name), description, price, None, category, None, None, images, thumbnail, New,
            0, 0, Rating(0.0, 0), seller, Shipping(None, None, false), [], [], true, false, 0)
  }

  /** A new document already shows what the setters guarantee. */
  lemma {:induction false} NewProductTrimmed(name: string, description: string, price: real,
                                             category: CategoryId, images: seq<string>,
                                             thumbnail: string, seller: UserId)
    ensures Trimmed(NewProduct(name, description, price, category, images, thumbnail, seller))
  {
    TrimIdempotent(name);
  }
}
