# Storefront cart line items, modelled in Dafny

This project models the shopping cart of a static storefront script
(`script.js`). The cart is an ordered list of line items
`{id, name, price, quantity}`. Three user actions change it:

- **add to cart** looks the product up on the current page. If the page has no
  such product, it logs an error and does nothing else. If the id is already in
  the cart, it adds one to that item's quantity. Otherwise it appends a new item
  with quantity 1.
- **remove from cart** lowers the quantity of the first item with the id when
  that quantity is above 1. An item with quantity 1 or less is deleted. An id
  that is not in the cart changes nothing.
- **checkout** takes an error path on an empty cart. On any other cart it
  confirms the order with the grand total and then empties the cart.

The script computes the grand total (sum of `price * quantity`) twice: once as
a loop while rendering the cart, and once as a `reduce` at checkout. It also
computes the unit count (sum of quantities) in the render loop.

Modules:

- `Wrappers` (`wrappers.dfy`): the `Option` type.
- `Cart` (`cart.dfy`): line items, the cart invariant `Valid` (unique ids and
  every quantity at least 1), the id search, and the pure add and remove
  operations.
- `Totals` (`totals.dfy`): one reference sum `SumBy`, with `Total` and `Units`
  defined from it. It also holds the checkout fold `Reduce`, the render loop
  `Summarize`, and how add and remove move the totals.
- `Controller` (`controller.dfy`): the three actions. Each returns the new cart
  and the notice the script would show or log. It also holds a click
  dispatcher `Step` and `Run`, which applies a sequence of clicks.

Inputs from outside the program:

- The page lookup (`document.querySelector` on the product element) is the
  `Option<Product>` parameter of `AddToCart`.
- The dialogs (`alert`) and the log line (`console.error`) become the returned
  `Notice` values.

Both operations work on any cart, valid or not. Like the script's
`find`/`findIndex`, they act on the first item with a matching id. These
members rely on the invariant or one half of it:

- `Cart.AddItemPreservesValid` and `Cart.RemoveItemPreservesValid` assume all
  of `Valid` and show it is kept.
- `Controller.RunPreservesValid` assumes all of `Valid` in the starting cart.
- `Cart.RemoveAfterAdd` assumes only `PositiveQuantities`. An item with
  quantity 0 would reach quantity 1 after add and then be deleted by remove.
- `Totals.RemoveItemTotals` assumes only `PositiveQuantities`. Deleting an
  item with a quantity other than 1 changes the total by more or less than
  one unit price.
- `Totals.UnitsAtLeastLength` assumes only `PositiveQuantities`.

`Controller.AddToCart` and `Controller.Step` state that the invariant is kept
as an implication, so they apply to every cart.

## Model

| member | source | states |
|---|---|---|
| Cart.FindIndex | script.js:84-86 | The search returns the position of the first line item with the id. It returns None exactly when no line item carries the id. |
| Cart.AddItem | script.js:69-75 | Present id: the length is unchanged, that item's quantity goes up by exactly 1, its id, name and price are kept, and every other item is unchanged. Absent id: the old cart is an unchanged prefix, followed by `{id, name, price, 1}` from the page data. |
| Cart.RemoveItem | script.js:84-93 | Absent id: the cart is unchanged. Quantity above 1: that item is decremented by exactly 1 and everything else is unchanged. Otherwise: that entry is deleted and the remaining items keep their relative order. |
| Cart.AddItemPreservesValid | script.js:69-75 | Add keeps ids pairwise distinct and every quantity at least 1. Afterwards the id is in the cart. |
| Cart.RemoveItemPreservesValid | script.js:84-93 | Remove keeps ids pairwise distinct and every quantity at least 1. |
| Cart.RemoveAfterAdd | script.js:69-93 | When every quantity is at least 1, removing one unit of a product right after adding one gives back the original cart. |
| Totals.ReduceIsTotal | script.js:104 | The checkout `reduce`, started from any accumulator, adds exactly the sum of `price * quantity` to it. |
| Totals.Summarize | script.js:21-31 | The render loop's total equals the sum of `price * quantity`. Its unit count equals the sum of quantities. Both are 0 for the empty cart, and the loop total equals the checkout fold's total. |
| Totals.UnitsAtLeastLength | script.js:28-31 | With every quantity at least 1, the unit count is at least the number of line items. It is 0 only for the empty cart. |
| Totals.AddItemTotals | script.js:69-75 | Add raises the unit count by exactly 1. It raises the total by one unit price: the stored price if the id was present, the page price if not. |
| Totals.RemoveItemTotals | script.js:84-93 | With positive quantities, removing a present id lowers the unit count by exactly 1 and the total by that item's unit price. Removing an absent id changes neither. |
| Controller.AddToCart | script.js:55-79 | If the product lookup fails, the cart is unchanged and the missing product is logged. Otherwise the cart is the add result, it contains the id, it has one more unit, and the product name is acknowledged. The invariant is preserved. |
| Controller.Checkout | script.js:98-114 | An empty cart stays empty and takes the empty-cart error path. A non-empty cart always becomes empty, and the order is confirmed with its grand total. |
| Controller.Step | script.js:119-138 | An add click runs `AddToCart` with its lookup, a remove click runs `RemoveItem`, and a checkout click runs `Checkout`. Every click keeps the invariant. Remove reports nothing. Add reports an acknowledgement or a missing product. Checkout always leaves an empty cart. |
| Controller.RunPreservesValid | script.js:55-114 | For any sequence of add, remove and checkout clicks, a valid starting cart stays valid: ids are unique and no quantity drops below 1. |

## Left out

- Loading the cart (script.js:13) and saving it (script.js:51) are not modelled. They are foreign library calls. An absent key, or stored JSON whose value is falsy (`null`, `false`, `0`, `""`), falls back to the empty cart through `|| []`; malformed stored data makes `JSON.parse` throw.
- The persistence guard is not modelled. `updateCartUI` returns before saving when any of its four page elements is missing (script.js:18). On such pages a change stays in memory only. This depends on page layout, not on the cart.
- Rendering is not modelled: the item markup, `uk-UA` currency formatting, the empty-cart message, the checkout button's `disabled` flag, and showing or hiding the modal (script.js:20-48, 113, 141-160).
- Event delegation and the DOM wiring of listeners (script.js:119-160) are not modelled. `Step` keeps only the dispatch from a click to its action.
- `parseInt` of the price attribute (script.js:67) can yield `NaN`. The model takes the price as an integer.
- Prices, quantities and totals are unbounded integers. JavaScript numbers are doubles and stop being exact above 2^53.
- Stale product data is kept as in the source. An item's name and price are fixed when it is first added and are never checked again against later pages.
