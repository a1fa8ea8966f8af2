# Billing form: cart store and invoice calculator

A Dafny model of the logic inside the `Billing` component of a single-page
billing form (`src/components/Billing.js`). A user picks an item from a fixed
catalog of five, enters a quantity, and adds it to a cart. Each line of the
cart has "-" and "+" buttons that change its quantity by one. The bill shows
a subtotal, a 10% GST and a total.

The model has four modules:

- `Catalog` (`catalog.dfy`): the five items, with their ids, names and
  integer prices exactly as the form defines them. The last one is named
  "Flex Printing 100inchx100inch - 300" but is priced 350. Also the lookup of
  an item by id that the item selector performs.
- `CartStore` (`cart.dfy`): the cart as `seq<CartLine>`. It holds the pure
  transitions `AddItem` and `UpdateQuantity` and the lemmas about them: ids
  stay unique, other lines are untouched, order is kept, a line is removed
  when its quantity falls below 1, and repeated adds sum their quantities.
- `Invoice` (`invoice.dfy`): the subtotal as the left fold that `reduce`
  computes, a reference sum it is proved equal to, and the GST and total.
  GST and total are exact `real`s, so GST is exactly one tenth of the
  subtotal.
- `Billing` (`billing.dfy`): the class `BillingForm`. Its fields `cart`,
  `selectedItem` and `quantity` are the component's three pieces of state.
  Its methods are the event handlers: `AddItem` and `UpdateQuantity` call
  the pure transitions, and `SelectItem` and `SetQuantity` store the chosen
  item and the entered quantity. Four client methods start from a fresh form
  and run sample sessions: two circular stamps, two and then three circular
  stamps merged into one line, one of each flex printing size, and an oval
  stamp added and then removed with "-".

Where the design intent and the code differ, the model follows the code:

- The intent is that every cart line has quantity at least 1. `addItem` does
  not check the pending quantity, and the quantity field's `min="1"` is only
  a hint. So positivity is proved only for adds with a pending quantity of at
  least 1. `CartStore.AddItemZeroQuantity` shows that a zero quantity breaks
  it.
- Prices are whole numbers in the code. The model takes quantities as whole
  numbers too (see Parsing under "## Left out"), and prices, quantities and
  the subtotal are unbounded `int`s (see Number precision there).
- `updateQuantity`'s `map` followed by `filter` is modelled as one recursive
  pass. Each line is first turned into `None` (the code's `null`) or its new
  value, exactly as the `map` callback does, and the `None`s are dropped.

## Model

| member | source | states |
|---|---|---|
| Catalog.Lookup | src/components/Billing.js:121 | Returns the first item with the given id: the result is in the list, has that id, and no earlier item has it. It is None exactly when no item has the id. |
| Catalog.CatalogFacts | src/components/Billing.js:4-10 | The catalog ids are distinct, and the lookup finds the item with id k for k in 1..5 and nothing otherwise. |
| Catalog.CatalogIds | src/components/Billing.js:4-10 | The constant `ITEMS` has five items; the item at position i has id i+1 and a non-negative price. |
| Catalog.LookupDistinct | src/components/Billing.js:121 | In a list with distinct ids, looking up an item's id finds that same item. |
| CartStore.Find | src/components/Billing.js:20 | `find` returns a line exactly when some line has the id, and the line it returns is in the cart and has that id. |
| CartStore.AddItem | src/components/Billing.js:19-31 | After an add the cart has a line with the item's id. If the id was already there the length is kept; otherwise the result is the old cart with one new line at the end carrying the item's id, name and price and the pending quantity. |
| CartStore.Merge | src/components/Billing.js:22-26 | Length is kept; every line with the id gets the quantity added, keeping its other fields; every other line is unchanged. |
| CartStore.AddItemExisting | src/components/Billing.js:20-26 | With unique ids, adding an item already at index k gives the cart with only line k's quantity raised by the pending quantity. Length, order, line k's name and price, and all other lines are unchanged. |
| CartStore.AddItemKeepsUniqueIds | src/components/Billing.js:20-28 | Adding an item keeps the cart's ids unique. |
| CartStore.AddItemKeepsFromCatalog | src/components/Billing.js:22-28 | If every line carries a catalog item's id, name and price and the selected item is in the catalog, this still holds after the add. |
| CartStore.AddItemKeepsQuantitiesPositive | src/components/Billing.js:19-31 | With a pending quantity of at least 1, all quantities stay at least 1. |
| CartStore.AddItemZeroQuantity | src/components/Billing.js:27-28 | Adding a new item with pending quantity 0 yields a line of quantity 0, so positivity needs the precondition. |
| CartStore.AddAllExisting | src/components/Billing.js:19-31 | Repeated adds of an item already at index k raise that one line by the sum of the added quantities and change nothing else. |
| CartStore.AddAllNew | src/components/Billing.js:19-31 | Repeated adds of a new item with quantities q1..qn give the old cart plus exactly one new line at the end, with quantity q1+...+qn, and ids stay unique. |
| CartStore.Adjust | src/components/Billing.js:36-43 | The `map` callback drops a line exactly when it has the id and its quantity plus the change is below 1. A kept line keeps its id, name and price. A line with another id is unchanged, and the line with the id gets quantity old plus change, which is at least 1. |
| CartStore.UpdateQuantity | src/components/Billing.js:33-46 | A quantity change never makes the cart longer. |
| CartStore.UpdateQuantityAbsent | src/components/Billing.js:35-44 | Changing the quantity of an id that is not in the cart returns the cart unchanged. |
| CartStore.UpdateQuantityRemoves | src/components/Billing.js:36-39 | With unique ids, if the line at k would fall below 1, the result is the cart without line k, with the other lines in their order. |
| CartStore.UpdateQuantityChanges | src/components/Billing.js:36-43 | With unique ids, if the line at k stays at least 1, only line k's quantity changes, to old plus change. |
| CartStore.UpdateQuantityAt | src/components/Billing.js:35-44 | With unique ids and the id at index k: if the old quantity plus the change is below 1, the result is the cart without line k; otherwise only line k's quantity changes, to old plus change. All other lines keep their values and order. |
| CartStore.UpdateQuantityLength | src/components/Billing.js:35-44 | With unique ids, a quantity change shortens the cart by at most one line. |
| CartStore.UpdateQuantityKeepsQuantitiesPositive | src/components/Billing.js:36-44 | If every quantity was at least 1, every quantity is still at least 1 afterwards. |
| CartStore.UpdateQuantityKeepsUniqueIds | src/components/Billing.js:36-44 | A quantity change keeps the cart's ids unique. |
| CartStore.UpdateQuantityKeepsFromCatalog | src/components/Billing.js:36-44 | A quantity change keeps every line's id, name and price those of a catalog item. |
| Invoice.LineTotal | src/components/Billing.js:49 | A line's contribution is price times quantity, and it is non-negative when both are. |
| Invoice.Reduce | src/components/Billing.js:49 | The `reduce` fold from a start value equals the start value plus the sum of price times quantity over the lines. |
| Invoice.Subtotal | src/components/Billing.js:48-50 | The subtotal, the fold started at 0, equals the sum of price times quantity over all lines. |
| Invoice.SubtotalAppend | src/components/Billing.js:49 | The subtotal of the empty cart is 0, and appending a line raises the subtotal by its price times its quantity. |
| Invoice.SubtotalNonNegative | src/components/Billing.js:49 | With non-negative prices and quantities, the subtotal is non-negative. |
| Invoice.SubtotalPermutation | src/components/Billing.js:49 | Two carts with the same multiset of lines have the same subtotal. |
| Invoice.SubtotalAddExisting | src/components/Billing.js:20-26 | With unique ids, merging quantity q into line k of price p raises the subtotal by p times q. |
| Invoice.SubtotalAddNew | src/components/Billing.js:27-28 | Adding an item not in the cart raises the subtotal by its price times the pending quantity. |
| Invoice.SubtotalUpdate | src/components/Billing.js:35-44 | Changing line k's quantity either removes the line, lowering the subtotal by its line total, or moves the subtotal by the line's price times the change. |
| Invoice.Gst | src/components/Billing.js:52-54 | With the rate `GST_RATE` of 10% (line 12), the GST is exactly one tenth of the subtotal. |
| Invoice.SubtotalMultipleOfTen | src/components/Billing.js:48-54 | For a cart whose lines all carry catalog items, the subtotal is a multiple of 10 (every catalog price at lines 4-10 is), so the GST is a whole number: the subtotal divided by 10. |
| Invoice.Total | src/components/Billing.js:56-60 | The total is the subtotal plus its GST, which is exactly eleven tenths of the subtotal. |
| Billing.BillingForm.constructor | src/components/Billing.js:15-17 | Initial state: the cart is empty, the first catalog item is selected, and the pending quantity is 1. |
| Billing.BillingForm.SelectItem | src/components/Billing.js:121 | The selection becomes the catalog item with the chosen id. The cart and the pending quantity are unchanged. |
| Billing.BillingForm.SetQuantity | src/components/Billing.js:135 | The pending quantity becomes the entered value. The cart and the selection are unchanged. |
| Billing.BillingForm.AddItem | src/components/Billing.js:19-31 | The cart becomes `AddItem` of the old cart, the selection and the pending quantity. The pending quantity resets to 1 and the selection is unchanged. The subtotal rises by the selected price times the pending quantity. Positivity holds if the pending quantity was at least 1. The invariant is kept. |
| Billing.BillingForm.UpdateQuantity | src/components/Billing.js:33-46 | The cart becomes `UpdateQuantity` of the old cart. The selection and the pending quantity are unchanged. Positivity and the invariant are kept. |
| Billing.StampCircularBill | src/components/Billing.js:4-12 | Adding item 1 with quantity 2 to a fresh form gives subtotal 100, GST 10 and total 110. |
| Billing.StampCircularMerged | src/components/Billing.js:19-31 | Adding item 1 with quantity 2 and then 3 gives one line of quantity 5 and subtotal 250. |
| Billing.FlexPrintingBill | src/components/Billing.js:52-59 | Adding items 4 and 5 once each gives subtotal 550, GST 55 and total 605. |
| Billing.StampOvalRemoved | src/components/Billing.js:33-46 | Adding item 2 once and pressing "-" on its line empties the cart, and the subtotal is 0. |

## Left out

- `printBill` (src/components/Billing.js:62-108) is not modelled. It only reads the DOM, opens a window, writes markup, opens the print dialog and closes the window on a timer. It is I/O with nothing to compute.
- The JSX rendering and the `toLocaleString('en-IN', …)` rupee formatting (src/components/Billing.js:110-186) are not modelled. They are presentation done by a library outside the component.
- Parsing of input events is not modelled: `parseInt` at line 121 and `Number(...)` at line 135. The parsed values are model parameters of type `int`, so non-numeric, `NaN` and fractional quantities are not covered.
- React's `useState` scheduling is not modelled. This includes `addItem` reading the `cart` of the current render while `updateQuantity` uses a functional updater. Every event is one synchronous transition of `BillingForm`.
- Invoice.Gst: computed over exact reals, not IEEE doubles, so the rounding of `subtotal * 0.10` in the code is not modelled. That rounding shows only for a subtotal that is not a multiple of 10 (3 * 0.1 gives 0.30000000000000004 in doubles). With catalog prices this takes a fractional quantity, which the model does not admit (`Invoice.SubtotalMultipleOfTen`). For multiples of 10 below 2^53 the double product is the exact tenth, so the model agrees with the code there.
- Billing.BillingForm.SelectItem: requires the chosen id to be a catalog id. The selector offers only catalog ids. For any other id the code would store `undefined` and fail on the next render, and that path is not modelled.
- Number precision: quantities, line totals and the subtotal are unbounded `int`s here, and GST and total exact `real`s. In the code they are IEEE doubles, which are exact for whole numbers only up to 2^53 (`Number.MAX_SAFE_INTEGER`). So the additions at src/components/Billing.js:24, 37, 49 and 59 can round in the code and not in the model. For example, 9007199254740992 + 1 stays 9007199254740992 in the code.
