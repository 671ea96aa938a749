/** The document database the route handlers work against, held in memory:
    products and orders by id, and carts by the user they belong to. Products
    and orders are values that a handler replaces in its map; a cart is an
    object whose fields the cart handlers update in place. */
module Store {
  import opened Common
  import opened ProductModel
  import opened OrderModel
  import opened CartModel

  class Db {
    var products: map<ProductId, Product>
    var orders: map<OrderId, Order>
    var carts: map<UserId, Cart>

    /** What every successful save has established: valid products, valid
        orders with distinct numbers, and for each user one cart (the unique
        index on `user`) whose lines are valid and whose totals are current. */
    ghost predicate Valid()
      reads this, carts.Values
    {
      && CatalogValid(products)
      && OrdersValid(orders)
      && forall u :: u in carts ==> carts[u].user == u && carts[u].Valid()
    }

    /** The cart object a handler for user `u` may update, if `u` has one. */
    function CartOf(u: UserId): set<Cart>
      reads this
    {
      if u in carts then {carts[u]} else {}
    }

    /** The lines of `u`'s cart, or none when `u` has no cart. */
    function ItemsOf(u: UserId): seq<CartItem>
      reads this, carts.Values
    {
      if u in carts then carts[u].items else []
    }
  }
}
