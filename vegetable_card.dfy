/**
 * The product card: a quantity stepper, a kg/g unit switch, the displayed
 * price, and "Add" which turns the card's state into a cart line normalised
 * to kg (or pieces) and merges it into the stored cart by id.
 */
module Card {
  import opened Wrappers
  import opened Catalog
  import opened LocalStore
  import opened CartLines

  /** Below this a step is ignored. */
  const MinQuantity: real := 0.1
  /** Above this a step is ignored ("10 units max"). */
  const MaxQuantity: real := 10.0
  /** The quantity a card starts with and returns to after "Add". */
  const InitialQuantity: real := 0.5
  const GramsPerKg: real := 1000.0

  /** `handleQuantityChange`: the new quantity, or the old one when the step leaves [0.1, 10]. */
  function StepQuantity(q: real, amount: real): (r: real)
    ensures MinQuantity <= q <= MaxQuantity ==> MinQuantity <= r <= MaxQuantity
  {
    var next := q + amount;
    if next < MinQuantity then q
    else if next > MaxQuantity then q
    else next
  }

  /**
   * A step is taken exactly when it lands inside [0.1, 10]: an in-range step
   * is always applied, any other step leaves the quantity unchanged.
   */
  lemma StepStaysInBounds(q: real, amount: real)
    ensures MinQuantity <= q <= MaxQuantity ==> MinQuantity <= StepQuantity(q, amount) <= MaxQuantity
    ensures MinQuantity <= q + amount <= MaxQuantity ==> StepQuantity(q, amount) == q + amount
    ensures StepQuantity(q, amount) != q ==> MinQuantity <= q + amount <= MaxQuantity
    ensures StepQuantity(q, amount) == q + amount || StepQuantity(q, amount) == q
  {
  }

  /**
   * The bounds apply to the displayed number whatever the unit: in gram mode
   * the number is at least 100, so neither button of the stepper moves it.
   */
  lemma GramModeCannotStep(q: real, amount: real)
    requires q >= MinQuantity
    requires amount == 0.1 || amount == -0.1
    ensures StepQuantity(ConvertQuantity(q, Kg, G), amount) == ConvertQuantity(q, Kg, G)
  {
  }

  /** `handleUnitChange`: the quantity after switching from unit `from` to unit `to`. */
  function ConvertQuantity(q: real, from: Unit, to: Unit): (r: real)
    ensures from == to ==> r == q
    ensures r > 0.0 <==> q > 0.0
  {
    if to == from then q
    else if to == G && from == Kg then q * GramsPerKg
    else if to == Kg && from == G then q / GramsPerKg
    else q
  }

  /** Switching kg to g and back restores the quantity. */
  lemma KgGramRoundTrip(q: real)
    ensures ConvertQuantity(ConvertQuantity(q, Kg, G), G, Kg) == q
    ensures ConvertQuantity(q, Kg, Kg) == q
  {
  }

  /** `calculateTotalPrice`: the price shown on the card, per kg price applied to grams. */
  function LinePrice(price: real, q: real, unit: Unit): (r: real)
    ensures price >= 0.0 && q >= 0.0 ==> r >= 0.0
  {
    if unit == G then price * q / GramsPerKg else price * q
  }

  /** Switching between kg and g changes the number shown but not the price. */
  lemma UnitSwitchKeepsPrice(price: real, q: real)
    ensures LinePrice(price, ConvertQuantity(q, Kg, G), G) == LinePrice(price, q, Kg)
    ensures LinePrice(price, ConvertQuantity(q, G, Kg), Kg) == LinePrice(price, q, G)
  {
    assert price * (q * GramsPerKg) / GramsPerKg == price * q;
    assert price * (q / GramsPerKg) == price * q / GramsPerKg;
  }

  /**
   * The cart line `addToCart` prepares: never in grams, its quantity
   * normalised to kg, and its price the card's displayed price, which is the
   * unit price times the normalised quantity.
   */
  function BuildLine(veg: VegetableItem, q: real, unit: Unit): (l: CartLine)
    ensures l.id == veg.id && l.name == veg.name && l.price == veg.price && l.image == veg.image
    ensures l.unit != G && (unit != G ==> l.unit == unit) && (unit == G ==> l.unit == Kg)
    ensures unit == G ==> l.quantity * GramsPerKg == q
    ensures unit != G ==> l.quantity == q
    ensures l.totalPrice == l.price * l.quantity
    ensures l.totalPrice == LinePrice(veg.price, q, unit)
  {
    CartLine(
      veg.id, veg.name, veg.price, veg.image,
      if unit == G then q / GramsPerKg else q,
      if unit == G then Kg else unit,
      LinePrice(veg.price, q, unit))
  }

  /**
   * The cart after merging `line` by id: an existing line with that id grows
   * by the new line's quantity and price and nothing else changes; otherwise
   * the line is appended.
   */
  function MergeLine(cart: seq<CartLine>, line: CartLine): (r: seq<CartLine>)
    ensures IndexOf(cart, line.id) >= 0 ==>
      var i := IndexOf(cart, line.id);
      && |r| == |cart|
      && r[i].quantity == cart[i].quantity + line.quantity
      && r[i].totalPrice == cart[i].totalPrice + line.totalPrice
      && r[i].(quantity := cart[i].quantity, totalPrice := cart[i].totalPrice) == cart[i]
      && forall j :: 0 <= j < |r| && j != i ==> r[j] == cart[j]
    ensures IndexOf(cart, line.id) < 0 ==> |r| == |cart| + 1 && r[..|cart|] == cart && r[|cart|] == line
  {
    var i := IndexOf(cart, line.id);
    if i >= 0 then
      cart[i := cart[i].(quantity := cart[i].quantity + line.quantity,
                         totalPrice := cart[i].totalPrice + line.totalPrice)]
    else cart + [line]
  }

  /** Merging keeps at most one line per id, and the merged id is present afterwards. */
  lemma MergePreservesUniqueIds(cart: seq<CartLine>, line: CartLine)
    requires UniqueIds(cart)
    ensures UniqueIds(MergeLine(cart, line))
    ensures IndexOf(MergeLine(cart, line), line.id) >= 0
  {
    var r := MergeLine(cart, line);
    var i := IndexOf(cart, line.id);
    if i >= 0 {
      assert forall j :: 0 <= j < |r| ==> r[j].id == cart[j].id;
    } else {
      assert forall j :: 0 <= j < |cart| ==> r[j] == cart[j];
      assert r[|cart|].id == line.id;
    }
  }

  /** Merging raises the cart total by exactly the new line's price. */
  lemma MergeTotal(cart: seq<CartLine>, line: CartLine)
    ensures Total(MergeLine(cart, line)) == Total(cart) + line.totalPrice
  {
    var i := IndexOf(cart, line.id);
    if i >= 0 {
      TotalUpdate(cart, i, MergeLine(cart, line)[i]);
      assert MergeLine(cart, line) == cart[i := MergeLine(cart, line)[i]];
    } else {
      TotalAppend(cart, [line]);
      assert Total([line]) == line.totalPrice;
    }
  }

  /** Merging a consistently priced line of the same unit price keeps every line priced consistently. */
  lemma MergePreservesPricing(cart: seq<CartLine>, line: CartLine)
    requires PricedConsistently(cart)
    requires line.totalPrice == line.quantity * line.price
    requires IndexOf(cart, line.id) >= 0 ==> cart[IndexOf(cart, line.id)].price == line.price
    ensures PricedConsistently(MergeLine(cart, line))
  {
    var i := IndexOf(cart, line.id);
    if i >= 0 {
      var m := cart[i].(quantity := cart[i].quantity + line.quantity,
                        totalPrice := cart[i].totalPrice + line.totalPrice);
      assert MergeLine(cart, line) == cart[i := m];
      MergedLineKeepsPricing(cart[i], line);
      UpdateKeepsPricing(cart, i, m);
    } else {
      assert MergeLine(cart, line) == cart + [line];
      AppendKeepsPricing(cart, line);
    }
  }

  /** Replacing one line by a consistently priced line keeps the cart consistently priced. */
  lemma UpdateKeepsPricing(cart: seq<CartLine>, i: nat, l: CartLine)
    requires i < |cart|
    requires PricedConsistently(cart)
    requires l.totalPrice == l.quantity * l.price
    ensures PricedConsistently(cart[i := l])
  {
    var r := cart[i := l];
    forall j | 0 <= j < |r| ensures r[j].totalPrice == r[j].quantity * r[j].price {
      if j != i {
        assert r[j] == cart[j];
      }
    }
  }

  /** Appending a consistently priced line keeps the cart consistently priced. */
  lemma AppendKeepsPricing(cart: seq<CartLine>, l: CartLine)
    requires PricedConsistently(cart)
    requires l.totalPrice == l.quantity * l.price
    ensures PricedConsistently(cart + [l])
  {
    var r := cart + [l];
    forall j | 0 <= j < |r| ensures r[j].totalPrice == r[j].quantity * r[j].price {
      if j < |cart| {
        assert r[j] == cart[j];
      }
    }
  }

  /** The line that absorbs a merge stays priced at quantity times its (unchanged) unit price. */
  lemma MergedLineKeepsPricing(existing: CartLine, line: CartLine)
    requires existing.totalPrice == existing.quantity * existing.price
    requires line.totalPrice == line.quantity * line.price
    requires existing.price == line.price
    ensures var m := existing.(quantity := existing.quantity + line.quantity,
                               totalPrice := existing.totalPrice + line.totalPrice);
      m.totalPrice == m.quantity * m.price
  {
    var p := line.price;
    assert existing.quantity * p + line.quantity * p == (existing.quantity + line.quantity) * p;
  }

  /** Adding the same item twice to a cart without it leaves one line holding the summed quantity. */
  lemma {:induction false} MergeSameIdTwice(cart: seq<CartLine>, a: CartLine, b: CartLine)
    requires IndexOf(cart, a.id) < 0
    requires b.id == a.id
    ensures var r := MergeLine(MergeLine(cart, a), b);
      && |r| == |cart| + 1
      && r[|cart|].quantity == a.quantity + b.quantity
      && r[|cart|].totalPrice == a.totalPrice + b.totalPrice
  {
    var once := MergeLine(cart, a);
    assert IndexOf(once, a.id) == |cart|;
  }

  /** The merge does not apply the 10-unit bound: a merged line can hold more than `MaxQuantity`. */
  lemma MergeCanExceedMax()
    ensures
      var held := CartLine("001", "Tomato", 30.0, "", 9.5, Kg, 285.0);
      var added := CartLine("001", "Tomato", 30.0, "", 1.0, Kg, 30.0);
      MergeLine([held], added)[0].quantity > MaxQuantity
  {
    var held := CartLine("001", "Tomato", 30.0, "", 9.5, Kg, 285.0);
    assert IndexOf([held], "001") == 0;
  }

  /**
   * Tomatoes (the first catalog item, 30 per kg): a cart holding 0.5 kg to
   * which 0.3 kg more is added holds one line of 0.8 kg costing 24.
   */
  lemma AddTomatoesExample()
    ensures
      var tomato := Vegetables[0];
      var held := BuildLine(tomato, 0.5, Kg);
      var r := MergeLine([held], BuildLine(tomato, 0.3, Kg));
      |r| == 1 && r[0].quantity == 0.8 && r[0].totalPrice == 24.0
  {
    var tomato := Vegetables[0];
    assert tomato.id == "001" && tomato.price == 30.0;
    assert IndexOf([BuildLine(tomato, 0.5, Kg)], "001") == 0;
  }

  /**
   * After "Add" in gram mode the card keeps the unit `g` and returns to the
   * number 0.5, so the next "Add" stores a line of 0.0005 kg: below the 0.1
   * that both steppers treat as the smallest quantity.
   */
  lemma GramModeResetStoresBelowMin(veg: VegetableItem)
    ensures BuildLine(veg, InitialQuantity, G).quantity == 0.0005
    ensures BuildLine(veg, InitialQuantity, G).quantity < MinQuantity
  {
  }

  /** The component state of one card. */
  class VegetableCard {
    const vegetable: VegetableItem
    var quantity: real
    var unit: Unit

    /** `useState(0.5)` and `useState(vegetable.unit)`. */
    constructor (vegetable: VegetableItem)
      ensures this.vegetable == vegetable
      ensures quantity == InitialQuantity && unit == vegetable.unit
    {
      this.vegetable := vegetable;
      quantity := InitialQuantity;
      unit := vegetable.unit;
    }

    /** `handleQuantityChange`: step by `amount` unless that leaves [0.1, 10]. */
    method HandleQuantityChange(amount: real)
      modifies this
      ensures quantity == StepQuantity(old(quantity), amount)
      ensures unit == old(unit)
    {
      var newQuantity := quantity + amount;
      if newQuantity < MinQuantity {
        return;
      }
      if newQuantity > MaxQuantity {
        return;
      }
      quantity := newQuantity;
    }

    /** `handleUnitChange`: a no-op for the current unit; kg to g multiplies by 1000, g to kg divides. */
    method HandleUnitChange(newUnit: Unit)
      modifies this
      ensures quantity == ConvertQuantity(old(quantity), old(unit), newUnit)
      ensures unit == newUnit
      ensures newUnit == old(unit) ==> quantity == old(quantity)
    {
      if newUnit == unit {
        return;
      }
      if newUnit == G && unit == Kg {
        quantity := quantity * GramsPerKg;
      } else if newUnit == Kg && unit == G {
        quantity := quantity / GramsPerKg;
      }
      unit := newUnit;
    }

    /** `calculateTotalPrice` on the card's current state. */
    function CalculateTotalPrice(): (r: real)
      reads this
      ensures vegetable.price >= 0.0 && quantity >= 0.0 ==> r >= 0.0
      ensures unit != Piece ==> r == LinePrice(vegetable.price, ConvertQuantity(quantity, unit, Kg), Kg)
    {
      LinePrice(vegetable.price, quantity, unit)
    }

    /**
     * `addToCart`: nothing happens when the quantity is not positive;
     * otherwise the normalised line is merged into the stored cart, the cart
     * is saved and the card's quantity returns to 0.5. `added` records the
     * `cartUpdated` event and the toast.
     */
    method AddToCart(store: Store) returns (added: bool)
      modifies this, store
      ensures added <==> old(quantity) > 0.0
      ensures !added ==> quantity == old(quantity) && store.cart == old(store.cart)
      ensures added ==> quantity == InitialQuantity
      ensures added ==> store.cart == Some(MergeLine(old(store.Cart()), BuildLine(vegetable, old(quantity), unit)))
      ensures unit == old(unit)
      ensures store.userInfo == old(store.userInfo) && store.history == old(store.history)
    {
      if quantity <= 0.0 {
        return false;
      }
      var cartItem := BuildLine(vegetable, quantity, unit);
      var currentCart := store.GetCart();
      ghost var stored := currentCart;
      assert stored == store.Cart();
      var existingItemIndex := FindIndex(currentCart, vegetable.id);
      if existingItemIndex != -1 {
        var existing := currentCart[existingItemIndex];
        currentCart := currentCart[existingItemIndex := existing.(
          quantity := existing.quantity + cartItem.quantity,
          totalPrice := existing.totalPrice + cartItem.totalPrice)];
      } else {
        currentCart := currentCart + [cartItem];
      }
      assert currentCart == MergeLine(stored, cartItem);
      store.SaveCart(currentCart);
      quantity := InitialQuantity;
      added := true;
    }
  }
}
