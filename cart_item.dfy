/**
 * One row of the cart page: the -/+ stepper that changes a line's quantity
 * (removing the line below 0.1, refusing to pass 10) and the remove button.
 */
module CartItemActions {
  import opened Wrappers
  import opened Seqs
  import opened LocalStore
  import opened CartLines
  import opened Card

  /**
   * What `updateQuantity` makes of the stored cart: `None` when it returns
   * without saving (no line has the id, or the step would pass 10), otherwise
   * the cart it saves.
   */
  function UpdatedCart(cart: seq<CartLine>, id: string, amount: real): (r: Option<seq<CartLine>>)
    ensures IndexOf(cart, id) < 0 ==> r.None?
    ensures r.Some? ==> |r.value| == |cart| || |r.value| == |cart| - 1
  {
    var i := IndexOf(cart, id);
    if i < 0 then None
    else
      var newQuantity := cart[i].quantity + amount;
      if newQuantity < MinQuantity then Some(cart[..i] + cart[i + 1..])
      else if newQuantity > MaxQuantity then None
      else Some(cart[i := cart[i].(quantity := newQuantity, totalPrice := newQuantity * cart[i].price)])
  }

  /** No line with the id: the cart is neither changed nor saved. */
  lemma UpdateAbsentIsNoop(cart: seq<CartLine>, id: string, amount: real)
    requires forall j :: 0 <= j < |cart| ==> cart[j].id != id
    ensures UpdatedCart(cart, id, amount) == None
  {
  }

  /** A step that would pass 10 is refused: nothing is saved. */
  lemma UpdateAboveMaxIsRefused(cart: seq<CartLine>, id: string, amount: real)
    requires IndexOf(cart, id) >= 0
    requires cart[IndexOf(cart, id)].quantity + amount > MaxQuantity
    ensures UpdatedCart(cart, id, amount) == None
  {
  }

  /**
   * A step below 0.1 removes that line: the saved cart holds every other
   * line in its original order, one line fewer, and its total drops by the
   * removed line's price.
   */
  lemma UpdateBelowMinRemoves(cart: seq<CartLine>, id: string, amount: real)
    requires IndexOf(cart, id) >= 0
    requires cart[IndexOf(cart, id)].quantity + amount < MinQuantity
    ensures var i := IndexOf(cart, id);
      var r := UpdatedCart(cart, id, amount);
      && r.Some?
      && |r.value| == |cart| - 1
      && (forall j :: 0 <= j < i ==> r.value[j] == cart[j])
      && (forall j :: i < j < |cart| ==> r.value[j - 1] == cart[j])
      && Total(r.value) == Total(cart) - cart[i].totalPrice
  {
    var i := IndexOf(cart, id);
    assert UpdatedCart(cart, id, amount) == Some(cart[..i] + cart[i + 1..]);
    SpliceShifts(cart, i);
    TotalRemoveAt(cart, i);
  }

  /**
   * A step that stays within [0.1, 10] changes only that line: its quantity
   * becomes the stepped value and its price is recomputed from it.
   */
  lemma UpdateInRangeChangesOneLine(cart: seq<CartLine>, id: string, amount: real)
    requires IndexOf(cart, id) >= 0
    requires MinQuantity <= cart[IndexOf(cart, id)].quantity + amount <= MaxQuantity
    ensures var i := IndexOf(cart, id);
      var r := UpdatedCart(cart, id, amount);
      && r.Some?
      && |r.value| == |cart|
      && r.value[i].quantity == cart[i].quantity + amount
      && MinQuantity <= r.value[i].quantity <= MaxQuantity
      && r.value[i].totalPrice == r.value[i].quantity * r.value[i].price
      && r.value[i].(quantity := cart[i].quantity, totalPrice := cart[i].totalPrice) == cart[i]
      && (forall j :: 0 <= j < |cart| && j != i ==> r.value[j] == cart[j])
  {
  }

  /** Splicing out one line keeps at most one line per id and every line priced consistently. */
  lemma SpliceKeepsInvariants(cart: seq<CartLine>, i: nat)
    requires i < |cart|
    requires UniqueIds(cart) && PricedConsistently(cart)
    ensures UniqueIds(cart[..i] + cart[i + 1..]) && PricedConsistently(cart[..i] + cart[i + 1..])
  {
    var r := cart[..i] + cart[i + 1..];
    forall j | 0 <= j < |r| ensures r[j] == cart[if j < i then j else j + 1] {
    }
  }

  /** Whatever it saves, `updateQuantity` keeps at most one line per id and every line priced consistently. */
  lemma UpdatePreservesInvariants(cart: seq<CartLine>, id: string, amount: real)
    requires UniqueIds(cart) && PricedConsistently(cart)
    requires UpdatedCart(cart, id, amount).Some?
    ensures UniqueIds(UpdatedCart(cart, id, amount).value)
    ensures PricedConsistently(UpdatedCart(cart, id, amount).value)
  {
    var i := IndexOf(cart, id);
    if cart[i].quantity + amount < MinQuantity {
      SpliceKeepsInvariants(cart, i);
    } else {
      var r := UpdatedCart(cart, id, amount).value;
      assert |r| == |cart|;
      assert forall j :: 0 <= j < |r| ==> r[j].id == cart[j].id;
      assert forall j :: 0 <= j < |r| && j != i ==> r[j] == cart[j];
    }
  }

  /** The test `cartItem.id !== id` as a function value. */
  function NotId(id: string): CartLine -> bool {
    (l: CartLine) => l.id != id
  }

  /** `removeItem`: `currentCart.filter(cartItem => cartItem.id !== item.id)`. */
  function RemoveById(cart: seq<CartLine>, id: string): (r: seq<CartLine>)
    ensures forall j :: 0 <= j < |r| ==> r[j].id != id
  {
    Filter(cart, NotId(id))
  }

  /** Exactly the lines whose id differs survive a removal. */
  lemma RemoveByIdKeepsOthers(cart: seq<CartLine>, id: string)
    ensures forall l :: l in RemoveById(cart, id) <==> l in cart && l.id != id
  {
    forall l {
      FilterMember(cart, NotId(id), l);
    }
  }

  /** Removing an id that no line has leaves the cart unchanged; so removing twice is removing once. */
  lemma RemoveByIdIdempotent(cart: seq<CartLine>, id: string)
    ensures (forall j :: 0 <= j < |cart| ==> cart[j].id != id) ==> RemoveById(cart, id) == cart
    ensures RemoveById(RemoveById(cart, id), id) == RemoveById(cart, id)
  {
    if forall j :: 0 <= j < |cart| ==> cart[j].id != id {
      FilterKeepsAll(cart, NotId(id));
    }
    FilterKeepsAll(RemoveById(cart, id), NotId(id));
  }

  /** The remove button keeps at most one line per id and every line priced consistently. */
  lemma RemoveByIdKeepsInvariants(cart: seq<CartLine>, id: string)
    requires UniqueIds(cart) && PricedConsistently(cart)
    ensures UniqueIds(RemoveById(cart, id)) && PricedConsistently(RemoveById(cart, id))
  {
    var i := IndexOf(cart, id);
    if i >= 0 {
      RemoveByIdIsSplice(cart, id);
      SpliceKeepsInvariants(cart, i);
    } else {
      RemoveByIdIdempotent(cart, id);
    }
  }

  /**
   * With at most one line per id, filtering the id out (the remove button)
   * and splicing out its index (a step below 0.1) give the same cart.
   */
  lemma RemoveByIdIsSplice(cart: seq<CartLine>, id: string)
    requires UniqueIds(cart)
    requires IndexOf(cart, id) >= 0
    ensures var i := IndexOf(cart, id); RemoveById(cart, id) == cart[..i] + cart[i + 1..]
  {
    var i := IndexOf(cart, id);
    forall j | 0 <= j < |cart| && j != i ensures NotId(id)(cart[j]) {
      if j > i {
        assert cart[i].id != cart[j].id;
      }
    }
    FilterSplice(cart, i, NotId(id));
  }

  /**
   * `updateQuantity`: find the line, splice it out below 0.1, return without
   * saving above 10, otherwise set its quantity and price; then save.
   * `notified` records the call of `onUpdate` (the cart page reloads).
   */
  method UpdateQuantity(store: Store, id: string, amount: real) returns (notified: bool)
    modifies store
    ensures UpdatedCart(old(store.Cart()), id, amount).None? ==> store.cart == old(store.cart) && !notified
    ensures UpdatedCart(old(store.Cart()), id, amount).Some? ==>
      store.cart == Some(UpdatedCart(old(store.Cart()), id, amount).value) && notified
    ensures store.userInfo == old(store.userInfo) && store.history == old(store.history)
  {
    notified := false;
    var currentCart := store.GetCart();
    ghost var stored := currentCart;
    assert stored == store.Cart();
    var itemIndex := FindIndex(currentCart, id);
    if itemIndex != -1 {
      var newQuantity := currentCart[itemIndex].quantity + amount;
      if newQuantity < MinQuantity {
        currentCart := currentCart[..itemIndex] + currentCart[itemIndex + 1..];
        assert UpdatedCart(stored, id, amount) == Some(currentCart);
      } else {
        if newQuantity > MaxQuantity {
          return;
        }
        var line := currentCart[itemIndex];
        currentCart := currentCart[itemIndex := line.(quantity := newQuantity, totalPrice := newQuantity * line.price)];
        assert UpdatedCart(stored, id, amount).value[itemIndex] == currentCart[itemIndex];
        assert UpdatedCart(stored, id, amount) == Some(currentCart);
      }
      store.SaveCart(currentCart);
      notified := true;
    }
  }

  /** `removeItem`: save the cart without the lines of this id (saved even when nothing was removed). */
  method RemoveItem(store: Store, id: string)
    modifies store
    ensures store.cart == Some(RemoveById(old(store.Cart()), id))
    ensures store.userInfo == old(store.userInfo) && store.history == old(store.history)
  {
    var currentCart := store.GetCart();
    var updatedCart := RemoveById(currentCart, id);
    store.SaveCart(updatedCart);
  }
}
