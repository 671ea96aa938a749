/** `cartReducer` of the client's cart context: a pure step function over
    the last cart received from the server, a loading flag and an error
    message. The cart record is left abstract as `C`. */
module CartReducer {
  import opened Common

  datatype CartState<C> = CartState(cart: Option<C>, isLoading: bool, error: Option<string>)

  /** The actions the cart context dispatches; `Unknown` is any other action
      object, which the reducer's default branch receives. */
  datatype CartAction<C> =
    | SetLoading(loading: bool)
    | SetCart(received: C)
    | SetError(message: Option<string>)
    | ClearCart
    | Unknown(kind: string)

  /** The state the provider starts in: no cart, idle, no error. */
  function Initial<C>(): (s: CartState<C>)
    ensures s.cart.None? && !s.isLoading && s.error.None?
  {
    CartState(None, false, None)
  }

  /** One reducer step. Each action changes exactly the fields listed for it
      and keeps the rest; every action that ends a request clears the
      loading flag. */
  function Reduce<C>(s: CartState<C>, a: CartAction<C>): (r: CartState<C>)
    ensures a.SetLoading? ==> r == s.(isLoading := a.loading)
    ensures a.SetCart? ==> r.cart == Some(a.received) && !r.isLoading && r.error.None?
    ensures a.SetError? ==> r.cart == s.cart && r.error == a.message && !r.isLoading
    ensures a.ClearCart? ==> r == Initial()
    ensures a.Unknown? ==> r == s
    ensures a.SetCart? || a.SetError? || a.ClearCart? ==> !r.isLoading
  {
    match a
    case SetLoading(loading) => s.(isLoading := loading)
    case SetCart(received) => s.(cart := Some(received), isLoading := false, error := None)
    case SetError(message) => s.(error := message, isLoading := false)
    case ClearCart => s.(cart := None, isLoading := false, error := None)
    case Unknown(_) => s
  }

  /** The state after dispatching `actions` in order. */
  function Replay<C>(s: CartState<C>, actions: seq<CartAction<C>>): CartState<C>
    decreases |actions|
  {
    if actions == [] then s else Replay(Reduce(s, actions[0]), actions[1..])
  }

  /** A successful request (loading, then the server's cart) leaves exactly
      that cart, idle and without error, from any state. */
  lemma {:induction false} RequestSucceeds<C>(s: CartState<C>, c: C)
    ensures Replay(s, [SetLoading(true), SetCart(c)]) == CartState(Some(c), false, None)
  {
    var loading := Reduce(s, SetLoading(true));
    var request: seq<CartAction<C>> := [SetLoading(true), SetCart(c)];
    assert request[1..] == [SetCart(c)];
    assert Replay(loading, [SetCart(c)]) == Replay(Reduce(loading, SetCart(c)), []);
  }

  /** A failed request (loading, then an error) keeps the cart shown before
      it and records the message. */
  lemma {:induction false} RequestFails<C>(s: CartState<C>, message: Option<string>)
    ensures Replay(s, [SetLoading(true), SetError(message)]) == CartState(s.cart, false, message)
  {
    var loading := Reduce(s, SetLoading(true));
    var request: seq<CartAction<C>> := [SetLoading(true), SetError(message)];
    assert request[1..] == [SetError(message)];
    assert Replay(loading, [SetError(message)]) == Replay(Reduce(loading, SetError(message)), []);
  }

  /** However many actions come first, CLEAR_CART brings the client back to
      its initial state. */
  lemma {:induction false} ClearLastResets<C>(s: CartState<C>, actions: seq<CartAction<C>>)
    ensures Replay(s, actions + [ClearCart]) == Initial()
    decreases |actions|
  {
    if actions == [] {
      assert actions + [ClearCart] == [ClearCart];
    } else {
      assert (actions + [ClearCart])[1..] == actions[1..] + [ClearCart];
      ClearLastResets(Reduce(s, actions[0]), actions[1..]);
    }
  }
}
