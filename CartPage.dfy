/** The cart page: the quantity buttons, the total, and checkout. */
module CartPage {
  import opened Outcomes
  import opened Types
  import opened CartProvider
  import opened AuthProvider
  import opened OrderContext

  const DefaultError: string := "Order gagal"

  /** `cart.reduce((sum, item) => sum + item.price * item.quantity, 0)`. */
  function TotalPrice(cart: seq<CartItem>): int {
    if cart == [] then 0 else cart[0].price * cart[0].quantity + TotalPrice(cart[1..])
  }

  /** The total is additive over any split of the cart, so it is the sum of
      the line amounts whatever their order. */
  lemma {:induction false} TotalPriceConcat(a: seq<CartItem>, b: seq<CartItem>)
    ensures TotalPrice(a + b) == TotalPrice(a) + TotalPrice(b)
  {
    if a == [] {
      assert a + b == b;
    } else {
      assert (a + b)[1..] == a[1..] + b;
      TotalPriceConcat(a[1..], b);
    }
  }

  /** An empty cart costs nothing; a line in front adds its price times its
      quantity. */
  lemma {:induction false} TotalPriceBasics(cart: seq<CartItem>, item: CartItem)
    ensures TotalPrice([]) == 0
    ensures TotalPrice([item] + cart) == item.price * item.quantity + TotalPrice(cart)
  {
    assert ([item] + cart)[1..] == cart;
  }

  lemma {:induction false} TotalPriceNonNegative(cart: seq<CartItem>)
    requires forall i :: 0 <= i < |cart| ==> cart[i].price >= 0 && cart[i].quantity >= 0
    ensures TotalPrice(cart) >= 0
  {
    if cart != [] {
      TotalPriceNonNegative(cart[1..]);
    }
  }

  /** The example of two lines, 1000 twice and 500 once. */
  lemma TotalPriceExample()
    ensures TotalPrice([CartItem(2, "A", "", 1000, 2), CartItem(1, "B", "", 500, 1)]) == 2500
  {
  }

  /** One entry of the checkout request: `{ name, quantity }`. */
  datatype PayloadEntry = PayloadEntry(name: string, quantity: int)

  /** The `cart` field of `POST /order/add`. */
  function CheckoutPayload(cart: seq<CartItem>): (r: seq<PayloadEntry>)
    ensures |r| == |cart|
    ensures forall i :: 0 <= i < |cart| ==> r[i] == PayloadEntry(cart[i].name, cart[i].quantity)
  {
    if cart == [] then [] else [PayloadEntry(cart[0].name, cart[0].quantity)] + CheckoutPayload(cart[1..])
  }

  // The `+` and `-` buttons, the same on this page and on the product page.

  function Increased(s: CartState, id: int, currentQty: int): CartState {
    QuantityUpdated(s, id, currentQty + 1)
  }

  function Decreased(s: CartState, id: int, currentQty: int): CartState {
    if currentQty == 1 then Removed(s, id) else QuantityUpdated(s, id, currentQty - 1)
  }

  ghost predicate AllPositive(cart: seq<CartItem>) {
    forall i :: 0 <= i < |cart| ==> cart[i].quantity >= 1
  }

  /** Pressed with the quantity a line shows, the buttons keep every quantity
      at least 1: decreasing from 1 removes the line instead of storing 0. */
  lemma {:induction false} ButtonsKeepQuantitiesPositive(s: CartState, id: int, currentQty: int)
    requires AllPositive(s.cart) && currentQty >= 1
    ensures AllPositive(Increased(s, id, currentQty).cart)
    ensures AllPositive(Decreased(s, id, currentQty).cart)
  {
    var removed := Removed(s, id).cart;
    forall i | 0 <= i < |removed| ensures removed[i].quantity >= 1 {
      var k :| 0 <= k < |s.cart| && s.cart[k] == removed[i];
    }
  }

  /** Decreasing at quantity 1 removes every line with that id; both buttons
      leave every other line as it was. */
  lemma {:induction false} DecreaseAtOneRemoves(s: CartState, id: int, currentQty: int)
    ensures forall i :: 0 <= i < |Decreased(s, id, 1).cart| ==> Decreased(s, id, 1).cart[i].id != id
    ensures currentQty != 1 ==> forall i :: 0 <= i < |s.cart| ==>
      Decreased(s, id, currentQty).cart[i] ==
        if s.cart[i].id == id then s.cart[i].(quantity := currentQty - 1) else s.cart[i]
    ensures forall i :: 0 <= i < |s.cart| ==>
      Increased(s, id, currentQty).cart[i] ==
        if s.cart[i].id == id then s.cart[i].(quantity := currentQty + 1) else s.cart[i]
  {
  }

  method HandleIncrease(store: CartStore, id: int, currentQty: int)
    requires store.Valid()
    modifies store
    ensures store.Valid()
    ensures store.State() == Increased(old(store.State()), id, currentQty)
  {
    store.UpdateQuantity(id, currentQty + 1);
  }

  method HandleDecrease(store: CartStore, id: int, currentQty: int)
    requires store.Valid()
    modifies store
    ensures store.Valid()
    ensures store.State() == Decreased(old(store.State()), id, currentQty)
  {
    if currentQty == 1 {
      store.RemoveItem(id);
    } else {
      store.UpdateQuantity(id, currentQty - 1);
    }
  }

  class CartView {
    var errorMsg: string
    var loading: bool

    constructor ()
      ensures errorMsg == "" && !loading
    {
      errorMsg, loading := "", false;
    }

    /** `handleCheckout`, given the outcome of `POST /order/add`. It returns the
        request body it sends. On success the order log receives the server's
        cart with the total taken before the cart is emptied, and the cart is
        cleared (also when the log itself dropped the record); `loading` is
        lowered. On failure cart and log are untouched, the error text is set
        and `loading` stays raised. */
    method HandleCheckout(response: Outcome<seq<CartItem>>, cart: CartStore, orders: OrderStore,
                          storage: BrowserStorage, now: int, createdAt: int)
      returns (payload: seq<PayloadEntry>)
      requires cart.Valid()
      modifies this, cart, orders
      ensures cart.Valid()
      ensures payload == CheckoutPayload(old(cart.cart))
      ensures response.Success? ==>
        && orders.orders == OrdersAfter(old(orders.orders), response.value, TotalPrice(old(cart.cart)),
                                        now, createdAt, storage.entries)
        && !orders.orderLoading
        && cart.State() == Cleared(old(cart.State()))
        && !loading && errorMsg == old(errorMsg)
      ensures response.Failure? ==>
        && orders.orders == old(orders.orders) && orders.orderLoading == old(orders.orderLoading)
        && cart.State() == old(cart.State())
        && loading && errorMsg == MessageOr(response.message, DefaultError)
    {
      loading := true;
      payload := CheckoutPayload(cart.cart);
      match response {
        case Success(data) =>
          var total := TotalPrice(cart.cart);
          orders.CreateOrder(data, total, now, createdAt, storage);
          cart.ClearCart();
          loading := false;
        case Failure(message, _) =>
          errorMsg := MessageOr(message, DefaultError);
      }
    }
  }
}
