/** The cart page: the lines it shows, the total it shows, and whether it offers checkout. */
module CartPage {
  import opened LocalStore
  import opened CartLines

  class CartView {
    var cartItems: seq<CartLine>
    var cartTotal: real

    /** `useState([])` and `useState(0)`. */
    constructor ()
      ensures cartItems == [] && cartTotal == 0.0
    {
      cartItems, cartTotal := [], 0.0;
    }

    /** The total footer and the "Proceed to Checkout" button are rendered only for a non-empty cart. */
    predicate OffersCheckout()
      reads this
    {
      |cartItems| > 0
    }

    /** `calculateTotal`: show the sum of the lines' prices. */
    method CalculateTotal(items: seq<CartLine>)
      modifies this
      ensures cartTotal == Total(items)
      ensures cartItems == old(cartItems)
    {
      var total := Total(items);
      cartTotal := total;
    }

    /**
     * `loadCart`: show exactly the stored cart and the total computed from
     * it; checkout is offered exactly when that cart is non-empty.
     */
    method LoadCart(store: Store)
      modifies this
      ensures cartItems == store.Cart()
      ensures cartTotal == Total(store.Cart())
      ensures OffersCheckout() <==> store.Cart() != []
    {
      var cart := store.GetCart();
      cartItems := cart;
      CalculateTotal(cart);
    }
  }
}
