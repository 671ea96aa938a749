/** The Cart document of models/Cart.js: one per user, an ordered list of
    lines with price snapshots, and two derived totals that `calculateTotals`
    overwrites. */
module CartModel {
  import opened Common

  /** A cart line: `price` is the product's price when the line was added. */
  datatype CartItem = CartItem(product: ProductId, quantity: int, variant: Option<VariantChoice>, price: real)

  /** What one line contributes to `totalAmount`. */
  function LineAmount(item: CartItem): real
  {
    item.price * (item.quantity as real)
  }

  /** Raising a line's quantity by `q` raises its amount by `q` at its price. */
  lemma {:induction false} LineAmountGrows(item: CartItem, q: int)
    ensures LineAmount(item.(quantity := item.quantity + q)) == LineAmount(item) + item.price * (q as real)
  {
    var a, b := item.quantity as real, q as real;
    assert (item.quantity + q) as real == a + b;
    assert item.price * (a + b) == item.price * a + item.price * b;
  }

  /** The first `reduce` of `calculateTotals`: the sum of price × quantity. */
  function Amount(items: seq<CartItem>): real
  {
    if items == [] then 0.0 else LineAmount(items[0]) + Amount(items[1..])
  }

  /** The second `reduce` of `calculateTotals`: the sum of the quantities. */
  function Count(items: seq<CartItem>): int
  {
    if items == [] then 0 else items[0].quantity + Count(items[1..])
  }

  /** The schema's `min: 1` on every line's quantity. */
  predicate LinesValid(items: seq<CartItem>)
  {
    forall i :: 0 <= i < |items| ==> items[i].quantity >= 1
  }

  /** Both sums split over a concatenation. */
  lemma {:induction false} TotalsAppend(a: seq<CartItem>, b: seq<CartItem>)
    ensures Amount(a + b) == Amount(a) + Amount(b)
    ensures Count(a + b) == Count(a) + Count(b)
  {
    if a != [] {
      TotalsAppend(a[1..], b);
      assert (a + b)[1..] == a[1..] + b;
    } else {
      assert a + b == b;
    }
  }

  /** Both sums with the line at `k` taken out: what that line contributed
      is exactly what is lost. */
  lemma {:induction false} TotalsWithout(items: seq<CartItem>, k: int)
    requires 0 <= k < |items|
    ensures Amount(items[..k] + items[k + 1..]) == Amount(items) - LineAmount(items[k])
    ensures Count(items[..k] + items[k + 1..]) == Count(items) - items[k].quantity
  {
    assert items == items[..k] + ([items[k]] + items[k + 1..]);
    TotalsAppend(items[..k], [items[k]] + items[k + 1..]);
    TotalsAppend([items[k]], items[k + 1..]);
    TotalsAppend(items[..k], items[k + 1..]);
  }

  /** Both sums after the line at `k` is replaced by `item`. */
  lemma {:induction false} TotalsReplace(items: seq<CartItem>, k: int, item: CartItem)
    requires 0 <= k < |items|
    ensures Amount(items[k := item]) == Amount(items) - LineAmount(items[k]) + LineAmount(item)
    ensures Count(items[k := item]) == Count(items) - items[k].quantity + item.quantity
  {
    var replaced := items[k := item];
    assert replaced[..k] == items[..k] && replaced[k + 1..] == items[k + 1..];
    TotalsWithout(items, k);
    TotalsWithout(replaced, k);
  }

  /** Both sums after the line at `k` grows by `q`: `q` more items at that
      line's price. */
  lemma {:induction false} TotalsGrowLine(items: seq<CartItem>, k: int, q: int)
    requires 0 <= k < |items|
    ensures Amount(items[k := items[k].(quantity := items[k].quantity + q)]) == Amount(items) + items[k].price * (q as real)
    ensures Count(items[k := items[k].(quantity := items[k].quantity + q)]) == Count(items) + q
  {
    TotalsReplace(items, k, items[k].(quantity := items[k].quantity + q));
    LineAmountGrows(items[k], q);
  }

  /** Both sums after a line is appended. */
  lemma {:induction false} TotalsAddLine(items: seq<CartItem>, line: CartItem)
    ensures Amount(items + [line]) == Amount(items) + line.price * (line.quantity as real)
    ensures Count(items + [line]) == Count(items) + line.quantity
  {
    TotalsAppend(items, [line]);
    assert Amount([line]) == LineAmount(line) + Amount([]);
  }

  /** With every quantity at least 1, the item count is at least the number
      of lines, and it is 0 exactly when the cart has no lines. */
  lemma {:induction false} CountBounds(items: seq<CartItem>)
    requires LinesValid(items)
    ensures Count(items) >= |items|
    ensures Count(items) == 0 <==> items == []
  {
    if items != [] {
      CountBounds(items[1..]);
    }
  }

  class Cart {
    const user: UserId
    var items: seq<CartItem>
    var totalAmount: real
    var totalItems: int

    /** `new Cart({ user, items: [] })`: both totals take their default 0. */
    constructor (user: UserId)
      ensures this.user == user && items == []
      ensures totalAmount == 0.0 && totalItems == 0
    {
      this.user := user;
      items := [];
      totalAmount := 0.0;
      totalItems := 0;
    }

    /** A stored cart: every line valid and the totals equal to the sums
        over the current lines. */
    ghost predicate Valid()
      reads this
    {
      LinesValid(items) && totalAmount == Amount(items) && totalItems == Count(items)
    }

    /** Overwrites the two totals from the current lines and touches nothing
        else; since the totals depend only on the lines, running it again
        changes nothing. */
    method CalculateTotals()
      modifies this`totalAmount, this`totalItems
      ensures totalAmount == Amount(items)
      ensures totalItems == Count(items)
      ensures items == old(items)
    {
      totalAmount := Amount(items);
      totalItems := Count(items);
    }
  }
}
