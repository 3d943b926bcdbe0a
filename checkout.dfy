/**
 * The checkout form's submission: validate the required fields, remember the
 * profile, refuse an empty cart, then record the order, clear the cart and
 * hand a formatted order message to the messaging deep link.
 */
module Checkout {
  import opened Wrappers
  import opened Seqs
  import opened Catalog
  import opened LocalStore
  import opened CartLines

  /** The form fields; the note is optional. */
  datatype FormData = FormData(name: string, phone: string, address: string, note: string)

  /** How a submission ends: one of the two failure exits, or the order placed and the link opened. */
  datatype SubmitOutcome = MissingFields | EmptyCart | Placed(url: string)

  /** The URL-encoded line break the message is built with. */
  const Separator: string := "%0A"
  /** The deep link the message is appended to. */
  const WhatsAppLink: string := "https://wa.me/919879876030?text="

  /** `formData.name && formData.phone && formData.address`: the note is never checked. */
  predicate RequiredFieldsPresent(f: FormData) {
    f.name != "" && f.phone != "" && f.address != ""
  }

  function UnitLabel(u: Unit): string {
    match u
    case Kg => "kg"
    case G => "g"
    case Piece => "piece"
  }

  /**
   * One line of the message's item list. `showNumber` is how a template
   * literal prints a number and `toFixed2` is `toFixed(2)`.
   */
  function ItemEntry(line: CartLine, showNumber: real -> string, toFixed2: real -> string): (r: string)
    ensures line.name <= r
    ensures |r| > |line.name|
  {
    line.name + " (" + showNumber(line.quantity) + " " + UnitLabel(line.unit) + ") - ₹" + toFixed2(line.totalPrice)
  }

  function Entries(cart: seq<CartLine>, showNumber: real -> string, toFixed2: real -> string): (r: seq<string>)
    ensures |r| == |cart|
  {
    seq(|cart|, i requires 0 <= i < |cart| => ItemEntry(cart[i], showNumber, toFixed2))
  }

  /** `cart.map(...).join('%0A')`. */
  function ItemsList(cart: seq<CartLine>, showNumber: real -> string, toFixed2: real -> string): (r: string)
    ensures cart == [] ==> r == ""
    ensures cart != [] ==> ItemEntry(cart[0], showNumber, toFixed2) <= r
  {
    var entries := Entries(cart, showNumber, toFixed2);
    assert cart != [] ==> entries[0] == ItemEntry(cart[0], showNumber, toFixed2);
    Join(entries, Separator)
  }

  /**
   * The item list has one entry per cart line, in cart order: a single line
   * gives its own entry, and one more line at the end of the cart adds the
   * separator and that line's entry at the end of the list.
   */
  lemma ItemsListOneEntryPerLine(cart: seq<CartLine>, line: CartLine, showNumber: real -> string, toFixed2: real -> string)
    ensures ItemsList([], showNumber, toFixed2) == ""
    ensures ItemsList([line], showNumber, toFixed2) == ItemEntry(line, showNumber, toFixed2)
    ensures cart != [] ==>
      ItemsList(cart + [line], showNumber, toFixed2)
        == ItemsList(cart, showNumber, toFixed2) + Separator + ItemEntry(line, showNumber, toFixed2)
  {
    var entries := Entries(cart, showNumber, toFixed2);
    assert Entries(cart + [line], showNumber, toFixed2) == entries + [ItemEntry(line, showNumber, toFixed2)];
    if cart != [] {
      JoinSnoc(entries, ItemEntry(line, showNumber, toFixed2), Separator);
    }
  }

  /** The note block, present only for a non-empty note. */
  function NoteSection(note: string): (r: string)
    ensures r == "" <==> note == ""
    ensures note != "" ==> |r| > |note|
  {
    if note != "" then "*Note:* " + note + "%0A%0A" else ""
  }

  /** The order message: customer details, item list, total, and the note block. */
  function Message(f: FormData, cart: seq<CartLine>, showNumber: real -> string, toFixed2: real -> string): (r: string)
    ensures "*New Order*%0A%0A*Customer Details*%0AName: " + f.name + "%0A" <= r
  {
    var opening := "*New Order*%0A%0A*Customer Details*%0AName: " + f.name + "%0A";
    var details := opening
      + "Phone: " + f.phone + "%0A"
      + "Address: " + f.address + "%0A%0A";
    var order := "*Order Items*%0A" + ItemsList(cart, showNumber, toFixed2) + "%0A%0A"
      + "*Total: ₹" + toFixed2(Total(cart)) + "*%0A%0A";
    assert (details + order + NoteSection(f.note))[..|opening|] == opening;
    details + order + NoteSection(f.note)
  }

  /**
   * The note only ever extends the message: the message with a note starts
   * with the message without it, and the two differ exactly when the note is
   * non-empty.
   */
  lemma MessageNoteIsOptionalSuffix(f: FormData, cart: seq<CartLine>, showNumber: real -> string, toFixed2: real -> string)
    ensures Message(f.(note := ""), cart, showNumber, toFixed2) <= Message(f, cart, showNumber, toFixed2)
    ensures Message(f, cart, showNumber, toFixed2) == Message(f.(note := ""), cart, showNumber, toFixed2) <==> f.note == ""
  {
    var base := Message(f.(note := ""), cart, showNumber, toFixed2);
    assert Message(f, cart, showNumber, toFixed2) == base + NoteSection(f.note);
    if f.note != "" {
      assert |Message(f, cart, showNumber, toFixed2)| > |base|;
    }
  }

  /**
   * `handleSubmit`. A missing required field aborts before any store write.
   * Otherwise the profile is saved first, so an empty cart still updates it
   * and then aborts. Otherwise the order (the cart as it was, its total, the
   * customer details with the note) is appended to the history, the cart is
   * cleared and the deep link carries the message.
   */
  method HandleSubmit(store: Store, form: FormData, now: nat, isoDate: string,
                      showNumber: real -> string, toFixed2: real -> string)
    returns (outcome: SubmitOutcome)
    modifies store
    ensures outcome == MissingFields <==> !RequiredFieldsPresent(form)
    ensures outcome == MissingFields ==>
      store.cart == old(store.cart) && store.userInfo == old(store.userInfo) && store.history == old(store.history)
    ensures outcome != MissingFields ==> store.userInfo == Some(UserInfo(form.name, form.phone, form.address))
    ensures outcome == EmptyCart <==> RequiredFieldsPresent(form) && old(store.Cart()) == []
    ensures outcome == EmptyCart ==> store.cart == old(store.cart) && store.history == old(store.history)
    ensures outcome.Placed? ==>
      && store.history == Some(old(store.History()) + [Order(
           CustomerInfo(form.name, form.phone, form.address, form.note),
           old(store.Cart()), Total(old(store.Cart())), OrderId(now), isoDate)])
      && store.cart == None
      && outcome.url == WhatsAppLink + Message(form, old(store.Cart()), showNumber, toFixed2)
  {
    if form.name == "" || form.phone == "" || form.address == "" {
      return MissingFields;
    }
    store.SaveUserInfo(UserInfo(form.name, form.phone, form.address));
    var cart := store.GetCart();
    if |cart| == 0 {
      return EmptyCart;
    }
    var orderTotal := Total(cart);
    var message := Message(form, cart, showNumber, toFixed2);
    store.SaveOrderHistory(OrderDraft(CustomerInfo(form.name, form.phone, form.address, form.note), cart, orderTotal), now, isoDate);
    store.ClearCart();
    outcome := Placed(WhatsAppLink + message);
  }
}
