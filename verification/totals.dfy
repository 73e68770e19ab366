/**
 Grand total and unit count of a cart. The script computes the grand total
 twice: as a running loop while rendering the cart and as a left fold when
 checking out. Both are related here to one reference sum.
 */
module Totals {
  import opened Wrappers
  import opened Cart

  /** The sum of `f` over the line items, first to last: the reference definition. */
  function SumBy(cart: Cart, f: LineItem -> int): int {
    if |cart| == 0 then 0 else f(cart[0]) + SumBy(cart[1..], f)
  }

  /** What one line item contributes to the grand total. */
  function Subtotal(item: LineItem): int {
    item.price * item.quantity
  }

  /** One more unit adds exactly one unit price to a line item's subtotal. */
  lemma SubtotalStep(item: LineItem)
    ensures Subtotal(item.(quantity := item.quantity + 1)) == Subtotal(item) + item.price
  {
  }

  /** What one line item contributes to the unit count. */
  function Quantity(item: LineItem): int {
    item.quantity
  }

  /** The grand total: the sum of price times quantity. */
  function Total(cart: Cart): int {
    SumBy(cart, Subtotal)
  }

  /** The unit count: the sum of quantities. */
  function Units(cart: Cart): int {
    SumBy(cart, Quantity)
  }

  /** The sum over a concatenation is the sum of the parts. */
  lemma {:induction false} SumByConcat(a: Cart, b: Cart, f: LineItem -> int)
    ensures SumBy(a + b, f) == SumBy(a, f) + SumBy(b, f)
  {
    if |a| == 0 {
      assert a + b == b;
    } else {
      assert (a + b)[1..] == a[1..] + b;
      SumByConcat(a[1..], b, f);
    }
  }

  /** Replacing one line item changes the sum by exactly the difference of the two terms. */
  lemma SumByUpdate(cart: Cart, i: nat, item: LineItem, f: LineItem -> int)
    requires i < |cart|
    ensures SumBy(cart[i := item], f) == SumBy(cart, f) - f(cart[i]) + f(item)
  {
    assert cart == cart[..i] + ([cart[i]] + cart[i + 1..]);
    assert cart[i := item] == cart[..i] + ([item] + cart[i + 1..]);
    SumByConcat(cart[..i], [cart[i]] + cart[i + 1..], f);
    SumByConcat(cart[..i], [item] + cart[i + 1..], f);
  }

  /** Deleting one line item takes exactly its term out of the sum. */
  lemma SumByDelete(cart: Cart, i: nat, f: LineItem -> int)
    requires i < |cart|
    ensures SumBy(cart[..i] + cart[i + 1..], f) == SumBy(cart, f) - f(cart[i])
  {
    assert cart == cart[..i] + ([cart[i]] + cart[i + 1..]);
    SumByConcat(cart[..i], [cart[i]] + cart[i + 1..], f);
    SumByConcat(cart[..i], cart[i + 1..], f);
  }

  /** The running total of the checkout fold, `reduce((sum, item) => sum + subtotal, acc)`. */
  function Reduce(acc: int, cart: Cart): int
    decreases |cart|
  {
    if |cart| == 0 then acc else Reduce(acc + Subtotal(cart[0]), cart[1..])
  }

  /** The left fold started at `acc` adds the grand total to `acc`. */
  lemma {:induction false} ReduceIsTotal(acc: int, cart: Cart)
    ensures Reduce(acc, cart) == acc + Total(cart)
    decreases |cart|
  {
    if |cart| > 0 {
      ReduceIsTotal(acc + Subtotal(cart[0]), cart[1..]);
    }
  }

  /**
   The accumulation of the render pass: an empty cart shows zero for both
   figures, otherwise every line item adds its subtotal to the total and its
   quantity to the unit count.
   */
  method Summarize(cart: Cart) returns (total: int, totalItems: int)
    ensures total == Total(cart) && totalItems == Units(cart)
    ensures total == Reduce(0, cart)
    ensures |cart| == 0 ==> total == 0 && totalItems == 0
  {
    total, totalItems := 0, 0;
    if |cart| != 0 {
      var i := 0;
      while i < |cart|
        invariant 0 <= i <= |cart|
        invariant total == Total(cart[..i])
        invariant totalItems == Units(cart[..i])
      {
        assert cart[..i + 1] == cart[..i] + [cart[i]];
        SumByConcat(cart[..i], [cart[i]], Subtotal);
        SumByConcat(cart[..i], [cart[i]], Quantity);
        total := total + Subtotal(cart[i]);
        totalItems := totalItems + cart[i].quantity;
        i := i + 1;
      }
      assert cart[..i] == cart;
    }
    ReduceIsTotal(0, cart);
  }

  /** With every quantity at least one, the unit count is at least the number of line items. */
  lemma {:induction false} UnitsAtLeastLength(cart: Cart)
    requires PositiveQuantities(cart)
    ensures Units(cart) >= |cart|
    ensures Units(cart) == 0 <==> |cart| == 0
  {
    if |cart| > 0 {
      assert PositiveQuantities(cart[1..]) by {
        forall j | 0 <= j < |cart[1..]|
          ensures cart[1..][j].quantity >= 1
        {
          assert cart[1..][j] == cart[j + 1];
        }
      }
      UnitsAtLeastLength(cart[1..]);
    }
  }

  /** Incrementing the line item at `i` adds one unit price to the total and one unit to the count. */
  lemma IncrementTotals(cart: Cart, i: nat, r: Cart)
    requires i < |cart|
    requires r == cart[i := cart[i].(quantity := cart[i].quantity + 1)]
    ensures Total(r) == Total(cart) + cart[i].price
    ensures Units(r) == Units(cart) + 1
  {
    var item := cart[i].(quantity := cart[i].quantity + 1);
    SubtotalStep(cart[i]);
    SumByUpdate(cart, i, item, Subtotal);
    SumByUpdate(cart, i, item, Quantity);
  }

  /**
   Adding one unit adds exactly one to the unit count and one unit price to
   the total; the price is the stored one when the id was already present.
   */
  lemma AddItemTotals(cart: Cart, id: string, product: Product)
    ensures Units(AddItem(cart, id, product)) == Units(cart) + 1
    ensures match FindIndex(cart, id)
            case Some(i) => Total(AddItem(cart, id, product)) == Total(cart) + cart[i].price
            case None => Total(AddItem(cart, id, product)) == Total(cart) + product.price
  {
    var r := AddItem(cart, id, product);
    match FindIndex(cart, id)
    case Some(i) =>
      assert r == cart[i := cart[i].(quantity := cart[i].quantity + 1)];
      IncrementTotals(cart, i, r);
    case None =>
      var item := LineItem(id, product.name, product.price, 1);
      assert r == cart + [item];
      SumByConcat(cart, [item], Subtotal);
      SumByConcat(cart, [item], Quantity);
  }

  /**
   Removing one unit of a present id takes exactly one from the unit count
   and one unit price from the total; an absent id changes neither.
   */
  lemma RemoveItemTotals(cart: Cart, id: string)
    requires PositiveQuantities(cart)
    ensures match FindIndex(cart, id)
            case Some(i) =>
              && Units(RemoveItem(cart, id)) == Units(cart) - 1
              && Total(RemoveItem(cart, id)) == Total(cart) - cart[i].price
            case None =>
              && Units(RemoveItem(cart, id)) == Units(cart)
              && Total(RemoveItem(cart, id)) == Total(cart)
  {
    var r := RemoveItem(cart, id);
    match FindIndex(cart, id)
    case Some(i) =>
      if cart[i].quantity > 1 {
        assert r[i := r[i].(quantity := r[i].quantity + 1)] == cart;
        IncrementTotals(r, i, cart);
      } else {
        assert r == cart[..i] + cart[i + 1..];
        assert cart[i].quantity == 1;
        SumByDelete(cart, i, Subtotal);
        SumByDelete(cart, i, Quantity);
      }
    case None =>
  }
}
