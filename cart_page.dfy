/** The cart page (src/pages/Cart.tsx): checkout and the per-entry quantity buttons. */
module CartPage {
  import opened Common
  import opened Api
  import opened CartContext

  /** One element of the order placed with the backend. */
  datatype OrderLine = OrderLine(bookId: string, quantity: int)

  /** The `items.map(...)` that turns the cart into the order payload. */
  function OrderLines(items: seq<CartItem>): (r: seq<OrderLine>)
    ensures |r| == |items|
    ensures forall i :: 0 <= i < |items| ==> r[i] == OrderLine(items[i].book.id, items[i].quantity)
  {
    if items == [] then [] else [OrderLine(items[0].book.id, items[0].quantity)] + OrderLines(items[1..])
  }

  function OrderedQuantity(lines: seq<OrderLine>): int
  {
    if lines == [] then 0 else lines[0].quantity + OrderedQuantity(lines[1..])
  }

  /** The payload orders exactly as many copies as the cart's `totalItems`. */
  lemma {:induction false} OrderLinesQuantity(items: seq<CartItem>)
    ensures OrderedQuantity(OrderLines(items)) == TotalItems(items)
  {
    if items != [] {
      OrderLinesQuantity(items[1..]);
    }
  }

  const LoginRequired: string := "Please login to place an order"
  const CartEmpty: string := "Your cart is empty"
  const PlaceOrderFailed: string := "Failed to place order"

  class CartView {
    const cart: CartProvider
    var isPlacingOrder: bool

    constructor (cart: CartProvider)
      ensures this.cart == cart && !isPlacingOrder
    {
      this.cart := cart;
      isPlacingOrder := false;
    }

    /** `handlePlaceOrder`, with the order request's result `placed`. The sign-in
        check comes first, then the empty-cart check; only then is the order
        sent, and the cart is cleared and the page moves to the order list only
        when the backend accepted it. The "Place Order" button is disabled while
        an order is being placed, so a call never starts during another. */
    method PlaceOrder(isAuthenticated: bool, placed: Response<()>)
      returns (sent: Option<seq<OrderLine>>, navigateTo: Option<string>, error: Option<string>)
      requires cart.Valid() && !isPlacingOrder
      modifies this, cart
      ensures cart.Valid() && !isPlacingOrder
      ensures !isAuthenticated ==>
                sent == None && navigateTo == Some("/login") && error == Some(LoginRequired)
                && cart.items == old(cart.items)
      ensures isAuthenticated && old(cart.items) == [] ==>
                sent == None && navigateTo == None && error == Some(CartEmpty) && cart.items == []
      ensures isAuthenticated && old(cart.items) != [] ==> sent == Some(OrderLines(old(cart.items)))
      ensures isAuthenticated && old(cart.items) != [] && placed.Ok? ==>
                cart.items == [] && navigateTo == Some("/my-orders") && error == None
      ensures isAuthenticated && old(cart.items) != [] && placed.Failed? ==>
                cart.items == old(cart.items) && navigateTo == None
                && error == Some(OrElse(placed.message, PlaceOrderFailed))
    {
      if !isAuthenticated {
        return None, Some("/login"), Some(LoginRequired);
      }
      if |cart.items| == 0 {
        return None, None, Some(CartEmpty);
      }
      isPlacingOrder := true;
      var orderItems := OrderLines(cart.items);
      sent := Some(orderItems);
      if placed.Ok? {
        cart.ClearCart();
        navigateTo, error := Some("/my-orders"), None;
      } else {
        navigateTo, error := None, Some(OrElse(placed.message, PlaceOrderFailed));
      }
      isPlacingOrder := false;
    }

    /** The minus button: `updateQuantity(id, quantity - 1)`, so an entry with
        quantity 1 leaves the cart. */
    method Decrement(item: CartItem)
      requires cart.Valid() && item in cart.items
      modifies cart
      ensures cart.Valid()
      ensures cart.items == UpdatedQuantity(old(cart.items), item.book.id, item.quantity - 1)
      ensures item.quantity <= 1 ==> !InCart(cart.items, item.book.id)
    {
      if item.quantity - 1 <= 0 {
        RemoveKeepsIdsUnique(cart.items, item.book.id);
      }
      cart.UpdateQuantity(item.book.id, item.quantity - 1);
    }

    /** The plus button: `updateQuantity(id, quantity + 1)`. */
    method Increment(item: CartItem)
      requires cart.Valid() && item in cart.items
      modifies cart
      ensures cart.Valid()
      ensures cart.items == UpdatedQuantity(old(cart.items), item.book.id, item.quantity + 1)
    {
      cart.UpdateQuantity(item.book.id, item.quantity + 1);
    }

    /** The trash button: `removeFromCart(id)`. */
    method Remove(item: CartItem)
      requires cart.Valid()
      modifies cart
      ensures cart.Valid()
      ensures cart.items == RemovedFromCart(old(cart.items), item.book.id)
    {
      cart.RemoveFromCart(item.book.id);
    }
  }
}
