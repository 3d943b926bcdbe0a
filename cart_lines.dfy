/**
 * What the components compute over a list of cart lines: the position of a
 * line by id (`findIndex`), the cart total (`reduce` over `totalPrice`) and
 * the invariants the cart operations keep.
 */
module CartLines {
  import opened LocalStore

  /** The position of the first line with this id, or -1 (`findIndex(item => item.id === id)`). */
  function IndexOf(cart: seq<CartLine>, id: string): (r: int)
    ensures -1 <= r < |cart|
    ensures r >= 0 ==> cart[r].id == id && forall j :: 0 <= j < r ==> cart[j].id != id
    ensures r == -1 ==> forall j :: 0 <= j < |cart| ==> cart[j].id != id
  {
    if cart == [] then -1
    else if cart[0].id == id then 0
    else
      var k := IndexOf(cart[1..], id);
      if k < 0 then -1 else k + 1
  }

  /** The linear search `Array.prototype.findIndex` performs. */
  method FindIndex(cart: seq<CartLine>, id: string) returns (i: int)
    ensures i == IndexOf(cart, id)
  {
    i := 0;
    while i < |cart|
      invariant 0 <= i <= |cart|
      invariant forall j :: 0 <= j < i ==> cart[j].id != id
    {
      if cart[i].id == id {
        return;
      }
      i := i + 1;
    }
    i := -1;
  }

  /** At most one line per catalog id. */
  predicate UniqueIds(cart: seq<CartLine>) {
    forall i, j :: 0 <= i < j < |cart| ==> cart[i].id != cart[j].id
  }

  /** Every line costs its quantity times its unit price. */
  predicate PricedConsistently(cart: seq<CartLine>) {
    forall i :: 0 <= i < |cart| ==> cart[i].totalPrice == cart[i].quantity * cart[i].price
  }

  /** The cart total: `items.reduce((sum, item) => sum + item.totalPrice, 0)`, a left fold. */
  function Total(items: seq<CartLine>): real {
    if items == [] then 0.0 else Total(items[..|items| - 1]) + items[|items| - 1].totalPrice
  }

  /** The total of two carts laid end to end is the sum of their totals. */
  lemma {:induction false} TotalAppend(a: seq<CartLine>, b: seq<CartLine>)
    ensures Total(a + b) == Total(a) + Total(b)
  {
    if b == [] {
      assert a + b == a;
    } else {
      var b', x := b[..|b| - 1], b[|b| - 1];
      assert (a + b)[..|a + b| - 1] == a + b';
      TotalAppend(a, b');
    }
  }

  /** A cart whose lines all have non-negative prices has a non-negative total. */
  lemma {:induction false} TotalNonNegative(items: seq<CartLine>)
    requires forall i :: 0 <= i < |items| ==> items[i].totalPrice >= 0.0
    ensures Total(items) >= 0.0
  {
    if items != [] {
      var pre := items[..|items| - 1];
      assert forall i :: 0 <= i < |pre| ==> pre[i] == items[i];
      TotalNonNegative(pre);
    }
  }

  /** Replacing one line changes the total by the difference of the two lines' prices. */
  lemma TotalUpdate(s: seq<CartLine>, i: nat, l: CartLine)
    requires i < |s|
    ensures Total(s[i := l]) == Total(s) - s[i].totalPrice + l.totalPrice
  {
    var t := s[i := l];
    var before, after := s[..i], s[i + 1..];
    var upto, upto' := s[..i + 1], t[..i + 1];
    assert upto[..i] == before && upto'[..i] == before;
    assert Total(upto) == Total(before) + s[i].totalPrice;
    assert Total(upto') == Total(before) + l.totalPrice;
    assert s == upto + after;
    assert t == upto' + after;
    TotalAppend(upto, after);
    TotalAppend(upto', after);
  }

  /** Cutting one line out (`splice(i, 1)`) lowers the total by that line's price. */
  lemma TotalRemoveAt(s: seq<CartLine>, i: nat)
    requires i < |s|
    ensures Total(s[..i] + s[i + 1..]) == Total(s) - s[i].totalPrice
  {
    var before, upto, after := s[..i], s[..i + 1], s[i + 1..];
    assert upto[..i] == before;
    assert Total(upto) == Total(before) + s[i].totalPrice;
    assert s == upto + after;
    TotalAppend(upto, after);
    TotalAppend(before, after);
  }

  /** An independent reference: the sum of quantity times unit price over the lines. */
  function QuantityTimesPrice(items: seq<CartLine>): real {
    if items == [] then 0.0 else items[0].quantity * items[0].price + QuantityTimesPrice(items[1..])
  }

  /** When every line is priced consistently, the cart total is the sum of quantity times price. */
  lemma {:induction false} TotalIsQuantityTimesPrice(items: seq<CartLine>)
    requires PricedConsistently(items)
    ensures Total(items) == QuantityTimesPrice(items)
  {
    if items != [] {
      var first, rest := items[0], items[1..];
      assert PricedConsistently(rest) by {
        forall j | 0 <= j < |rest| ensures rest[j].totalPrice == rest[j].quantity * rest[j].price {
          assert rest[j] == items[j + 1];
        }
      }
      TotalIsQuantityTimesPrice(rest);
      assert items == [first] + rest;
      TotalAppend([first], rest);
      assert Total([first]) == first.totalPrice == first.quantity * first.price;
    }
  }
}
