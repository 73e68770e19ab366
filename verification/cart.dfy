/**
 The cart line-item list of the storefront script: an ordered sequence of
 line items, searched by product id, grown by "add" and shrunk by "remove".
 Both operations are defined for every cart, valid or not, with the
 first-match semantics of the script's array search.
 */
module Cart {
  import opened Wrappers

  /** One product entry of the cart with its accumulated quantity. */
  datatype LineItem = LineItem(id: string, name: string, price: int, quantity: int)

  /** What the current page declares about a product: display name and unit price. */
  datatype Product = Product(name: string, price: int)

  type Cart = seq<LineItem>

  /** No two line items share an id. */
  ghost predicate UniqueIds(cart: Cart) {
    forall i, j :: 0 <= i < j < |cart| ==> cart[i].id != cart[j].id
  }

  /** No line item is kept with a quantity below one. */
  ghost predicate PositiveQuantities(cart: Cart) {
    forall i :: 0 <= i < |cart| ==> cart[i].quantity >= 1
  }

  /** The cart invariant: ids are unique and every quantity is at least one. */
  ghost predicate Valid(cart: Cart) {
    UniqueIds(cart) && PositiveQuantities(cart)
  }

  /** True iff some line item carries the id. */
  ghost predicate Contains(cart: Cart, id: string) {
    exists i :: 0 <= i < |cart| && cart[i].id == id
  }

  /** The position of the first line item with the given id, or None. */
  function FindIndex(cart: Cart, id: string): (r: Option<nat>)
    ensures r.Some? ==> r.value < |cart| && cart[r.value].id == id
    ensures r.Some? ==> forall j :: 0 <= j < r.value ==> cart[j].id != id
    ensures r.None? <==> !Contains(cart, id)
  {
    if |cart| == 0 then None
    else if cart[0].id == id then Some(0)
    else
      match FindIndex(cart[1..], id)
      case None =>
        assert forall j :: 1 <= j < |cart| ==> cart[j] == cart[1..][j - 1];
        None
      case Some(i) => Some(i + 1)
  }

  /**
   Adds one unit of a product whose page data was found. An id already in
   the cart gets one more unit and keeps the name and price it was first
   added with; a new id is appended with quantity one.
   */
  function AddItem(cart: Cart, id: string, product: Product): (r: Cart)
    ensures Contains(cart, id) ==>
              var i := FindIndex(cart, id).value;
              && |r| == |cart|
              && r[i].id == cart[i].id
              && r[i].name == cart[i].name
              && r[i].price == cart[i].price
              && r[i].quantity == cart[i].quantity + 1
              && forall j :: 0 <= j < |cart| && j != i ==> r[j] == cart[j]
    ensures !Contains(cart, id) ==>
              && |r| == |cart| + 1
              && r[..|cart|] == cart
              && r[|cart|] == LineItem(id, product.name, product.price, 1)
  {
    match FindIndex(cart, id)
    case Some(i) => cart[i := cart[i].(quantity := cart[i].quantity + 1)]
    case None => cart + [LineItem(id, product.name, product.price, 1)]
  }

  /**
   Removes one unit of a product: a line item with more than one unit is
   decremented, any other is deleted; an absent id leaves the cart as it is.
   */
  function RemoveItem(cart: Cart, id: string): (r: Cart)
    ensures !Contains(cart, id) ==> r == cart
    ensures Contains(cart, id) && cart[FindIndex(cart, id).value].quantity > 1 ==>
              var i := FindIndex(cart, id).value;
              && |r| == |cart|
              && r[i].id == cart[i].id
              && r[i].name == cart[i].name
              && r[i].price == cart[i].price
              && r[i].quantity == cart[i].quantity - 1
              && forall j :: 0 <= j < |cart| && j != i ==> r[j] == cart[j]
    ensures Contains(cart, id) && cart[FindIndex(cart, id).value].quantity <= 1 ==>
              var i := FindIndex(cart, id).value;
              && |r| == |cart| - 1
              && (forall j :: 0 <= j < i ==> r[j] == cart[j])
              && (forall j :: i <= j < |r| ==> r[j] == cart[j + 1])
  {
    match FindIndex(cart, id)
    case None => cart
    case Some(i) =>
      if cart[i].quantity > 1 then cart[i := cart[i].(quantity := cart[i].quantity - 1)]
      else cart[..i] + cart[i + 1..]
  }

  /** Adding keeps the cart invariant, whether the id was present or not. */
  lemma AddItemPreservesValid(cart: Cart, id: string, product: Product)
    requires Valid(cart)
    ensures Valid(AddItem(cart, id, product))
    ensures Contains(AddItem(cart, id, product), id)
  {
  }

  /** Removing keeps the cart invariant: no quantity drops to zero, no id is duplicated. */
  lemma RemoveItemPreservesValid(cart: Cart, id: string)
    requires Valid(cart)
    ensures Valid(RemoveItem(cart, id))
  {
  }

  /**
   Remove undoes add: when every quantity is at least one, adding one unit of
   a product and then removing one unit of it gives back the original cart.
   */
  lemma RemoveAfterAdd(cart: Cart, id: string, product: Product)
    requires PositiveQuantities(cart)
    ensures RemoveItem(AddItem(cart, id, product), id) == cart
  {
  }
}
