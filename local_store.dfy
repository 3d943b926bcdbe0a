/**
 * The browser's local storage as the storefront uses it: three independent
 * records under the keys `cart`, `userInfo` and `orderHistory`, read with a
 * default when the key is absent and written by whole-value overwrite.
 */
module LocalStore {
  import opened Wrappers
  import opened Catalog

  /** The customer profile remembered between checkouts. */
  datatype UserInfo = UserInfo(name: string, phone: string, address: string)

  /** One line of the cart; `price` is per unit, `totalPrice` is what the line costs. */
  datatype CartLine = CartLine(
    id: string,
    name: string,
    price: real,
    image: string,
    quantity: real,
    unit: Unit,
    totalPrice: real)

  /** The customer details recorded with an order. */
  datatype CustomerInfo = CustomerInfo(name: string, phone: string, address: string, note: string)

  /** The order the checkout hands to `saveOrderHistory`, before it is stamped. */
  datatype OrderDraft = OrderDraft(customerInfo: CustomerInfo, items: seq<CartLine>, total: real)

  /** A stored order: the draft's fields plus the id and date stamped on it. */
  datatype Order = Order(
    customerInfo: CustomerInfo,
    items: seq<CartLine>,
    total: real,
    orderId: string,
    orderDate: string)

  predicate IsDigit(c: char) {
    '0' <= c <= '9'
  }

  function DigitValue(c: char): nat
    requires IsDigit(c)
  {
    c as int - '0' as int
  }

  function DigitChar(d: nat): (c: char)
    requires d < 10
    ensures IsDigit(c) && DigitValue(c) == d
  {
    (d + '0' as int) as char
  }

  /** The decimal text of `n`, as a template literal prints an integer (`${n}`). */
  function DecimalString(n: nat): (s: string)
    ensures |s| >= 1
    ensures forall i :: 0 <= i < |s| ==> IsDigit(s[i])
    decreases n
  {
    if n < 10 then [DigitChar(n)] else DecimalString(n / 10) + [DigitChar(n % 10)]
  }

  /** The number a string of decimal digits denotes. */
  function DecimalValue(s: string): nat
    requires forall i :: 0 <= i < |s| ==> IsDigit(s[i])
  {
    if s == [] then 0
    else DecimalValue(s[..|s| - 1]) * 10 + DigitValue(s[|s| - 1])
  }

  /** Reading back the decimal text of `n` gives `n`. */
  lemma {:induction false} DecimalRoundTrip(n: nat)
    ensures DecimalValue(DecimalString(n)) == n
    decreases n
  {
    var s := DecimalString(n);
    if n >= 10 {
      DecimalRoundTrip(n / 10);
      assert s[..|s| - 1] == DecimalString(n / 10);
    }
  }

  /** The id stamped on an order saved at clock reading `now` (milliseconds): `ORD${Date.now()}`. */
  function OrderId(now: nat): (r: string)
    ensures |r| > 3 && r[..3] == "ORD"
    ensures forall i :: 3 <= i < |r| ==> IsDigit(r[i])
  {
    "ORD" + DecimalString(now)
  }

  /** Orders saved at different clock readings get different ids. */
  lemma OrderIdInjective(a: nat, b: nat)
    requires a != b
    ensures OrderId(a) != OrderId(b)
  {
    if OrderId(a) == OrderId(b) {
      assert OrderId(a)[3..] == DecimalString(a);
      assert OrderId(b)[3..] == DecimalString(b);
      DecimalRoundTrip(a);
      DecimalRoundTrip(b);
    }
  }

  /** The key-value store; `None` is an absent key. */
  class Store {
    var cart: Option<seq<CartLine>>
    var userInfo: Option<UserInfo>
    var history: Option<seq<Order>>

    /** A fresh browser profile: nothing stored. */
    constructor ()
      ensures cart == None && userInfo == None && history == None
    {
      cart, userInfo, history := None, None, None;
    }

    /** What `getCart` reads: the stored cart, or the empty list when none is stored. */
    function Cart(): seq<CartLine>
      reads this
    {
      cart.GetOr([])
    }

    /** What `getOrderHistory` reads: the stored history, or the empty list. */
    function History(): seq<Order>
      reads this
    {
      history.GetOr([])
    }

    /** `saveUserInfo`: overwrite the whole profile; the other records are untouched. */
    method SaveUserInfo(info: UserInfo)
      modifies this
      ensures userInfo == Some(info)
      ensures cart == old(cart) && history == old(history)
    {
      userInfo := Some(info);
    }

    /** `getUserInfo`: the stored profile, or null (`None`) when nothing is stored. */
    method GetUserInfo() returns (r: Option<UserInfo>)
      ensures r == userInfo
    {
      r := userInfo;
    }

    /** `saveCart`: overwrite the cart; a later `getCart` yields `c`, the other records are untouched. */
    method SaveCart(c: seq<CartLine>)
      modifies this
      ensures cart == Some(c) && Cart() == c
      ensures userInfo == old(userInfo) && history == old(history)
    {
      cart := Some(c);
    }

    /** `getCart`: the stored cart, or the empty list when no cart is stored. */
    method GetCart() returns (c: seq<CartLine>)
      ensures cart.Some? ==> c == cart.value
      ensures cart.None? ==> c == []
    {
      if cart.Some? {
        c := cart.value;
      } else {
        c := [];
      }
    }

    /**
     * `saveOrderHistory`: read the history, push the draft stamped with
     * `OrderId(now)` and `isoDate` (both from the clock), and write it back.
     */
    method SaveOrderHistory(draft: OrderDraft, now: nat, isoDate: string)
      modifies this
      ensures history == Some(old(History()) + [Order(draft.customerInfo, draft.items, draft.total, OrderId(now), isoDate)])
      ensures |History()| == |old(History())| + 1
      ensures History()[..|old(History())|] == old(History())
      ensures cart == old(cart) && userInfo == old(userInfo)
    {
      var orderHistory := GetOrderHistory();
      orderHistory := orderHistory + [Order(draft.customerInfo, draft.items, draft.total, OrderId(now), isoDate)];
      history := Some(orderHistory);
    }

    /** `getOrderHistory`: the stored history, or the empty list when none is stored. */
    method GetOrderHistory() returns (h: seq<Order>)
      ensures history.Some? ==> h == history.value
      ensures history.None? ==> h == []
    {
      if history.Some? {
        h := history.value;
      } else {
        h := [];
      }
    }

    /** `clearCart`: remove the cart key; a later `getCart` yields the empty list. */
    method ClearCart()
      modifies this
      ensures cart == None && Cart() == []
      ensures userInfo == old(userInfo) && history == old(history)
    {
      cart := None;
    }
  }
}
