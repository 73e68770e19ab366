/**
 The cart controller: the three user actions of the storefront script over
 an explicitly passed cart, with the product lookup on the current page
 given as an input and the script's dialogs and log line returned as a
 notice instead of being shown.
 */
module Controller {
  import opened Wrappers
  import opened Cart
  import opened Totals

  /** What an action reports: the add acknowledgement, the log line, the two checkout dialogs. */
  datatype Notice =
    | ItemAdded(name: string)
    | ProductNotFound(id: string)
    | EmptyCartAtCheckout
    | OrderPlaced(total: int)

  /** The cart after an action, and what the action reported. */
  datatype Outcome = Outcome(cart: Cart, notice: Option<Notice>)

  /**
   Add to cart. `lookup` is what the current page declares for `id`; when the
   page has no such product the action is aborted: it is logged and the cart
   is left exactly as it was.
   */
  function AddToCart(cart: Cart, id: string, lookup: Option<Product>): (r: Outcome)
    ensures lookup.None? ==> r.cart == cart && r.notice == Some(ProductNotFound(id))
    ensures lookup.Some? ==> r.cart == AddItem(cart, id, lookup.value)
    ensures lookup.Some? ==> r.notice == Some(ItemAdded(lookup.value.name))
    ensures lookup.Some? ==> Contains(r.cart, id) && Units(r.cart) == Units(cart) + 1
    ensures Valid(cart) ==> Valid(r.cart)
  {
    match lookup
    case None => Outcome(cart, Some(ProductNotFound(id)))
    case Some(product) =>
      assert Valid(cart) ==> Valid(AddItem(cart, id, product)) by {
        if Valid(cart) { AddItemPreservesValid(cart, id, product); }
      }
      AddItemTotals(cart, id, product);
      Outcome(AddItem(cart, id, product), Some(ItemAdded(product.name)))
  }

  /**
   Checkout. An empty cart takes the error path and stays as it is; any other
   cart is confirmed with its grand total, computed by the fold, and emptied.
   */
  function Checkout(cart: Cart): (r: Outcome)
    ensures |cart| == 0 ==> r.cart == cart && r.notice == Some(EmptyCartAtCheckout)
    ensures |cart| > 0 ==> r.cart == [] && r.notice == Some(OrderPlaced(Total(cart)))
  {
    if |cart| == 0 then Outcome(cart, Some(EmptyCartAtCheckout))
    else
      ReduceIsTotal(0, cart);
      Outcome([], Some(OrderPlaced(Reduce(0, cart))))
  }

  /** A click the controller reacts to; an add click carries the page's lookup result. */
  datatype Event =
    | AddClicked(id: string, lookup: Option<Product>)
    | RemoveClicked(id: string)
    | CheckoutClicked

  /**
   Dispatches one click to its action: add to `AddToCart`, remove to
   `RemoveItem`, checkout to `Checkout`. Every action keeps the cart
   invariant; remove reports nothing, add and checkout report their own notices.
   */
  function Step(cart: Cart, e: Event): (r: Outcome)
    ensures Valid(cart) ==> Valid(r.cart)
    ensures e.RemoveClicked? ==> r.notice.None?
    ensures e.AddClicked? ==> r.notice.Some? && (r.notice.value.ItemAdded? || r.notice.value.ProductNotFound?)
    ensures e.CheckoutClicked? ==> r.cart == [] && r.notice.Some?
    ensures e.AddClicked? ==> r == AddToCart(cart, e.id, e.lookup)
    ensures e.RemoveClicked? ==> r.cart == RemoveItem(cart, e.id)
    ensures e.CheckoutClicked? ==> r == Checkout(cart)
  {
    match e
    case AddClicked(id, lookup) => AddToCart(cart, id, lookup)
    case RemoveClicked(id) =>
      assert Valid(cart) ==> Valid(RemoveItem(cart, id)) by {
        if Valid(cart) { RemoveItemPreservesValid(cart, id); }
      }
      Outcome(RemoveItem(cart, id), None)
    case CheckoutClicked => Checkout(cart)
  }

  /** The cart after a sequence of clicks, handled one at a time to completion. */
  function Run(cart: Cart, events: seq<Event>): Cart
    decreases |events|
  {
    if |events| == 0 then cart else Run(Step(cart, events[0]).cart, events[1..])
  }

  /**
   Whatever clicks happen, a cart that starts valid (in particular the empty
   cart of a first visit) keeps unique ids and quantities of at least one.
   */
  lemma {:induction false} RunPreservesValid(cart: Cart, events: seq<Event>)
    requires Valid(cart)
    ensures Valid(Run(cart, events))
    decreases |events|
  {
    if |events| > 0 {
      RunPreservesValid(Step(cart, events[0]).cart, events[1..]);
    }
  }
}
