# Shopping cart of the fashion storefront, in Dafny

This project models the one rule-governed part of the storefront front-end:
the shopping cart. It covers four parts:

- **Cart store** (`cart_store.dfy`, module `CartStore`). This is the cart
  provider. The cart is an ordered list of lines keyed by product id.
  - `addToCart` merges into the line that already has the product's id, or
    appends the product as the last line. Either way it opens the checkout
    view.
  - `removeFromCart` filters out every line with a given id.
  - `clearCart` empties the cart.
  - `setIsCheckoutOpen` is the flag setter the provider hands out.
- **Checkout view** (`checkout.dfy`, module `Checkout`).
  - The order summary: subtotal (the sum of price × quantity), a flat
    shipping fee of 9.99, 10% tax, and the total.
  - The per-line Remove button.
  - The simulated checkout, which empties the cart and shows the
    confirmation.
- **Listing page** (`collections.dfy`, module `Collections`).
  - The hardcoded four-product catalog.
  - The per-product quantity selector. It stores `max(1, value)` and reads
    with a default of 1.
  - The line that the Add button hands to `addToCart`.
- **Session** (`session.dfy`, module `Session`). This chains the clicks
  above into runs. It proves that every run from a fresh start keeps these
  true:
  - one line per product;
  - at least one unit on every line;
  - a non-negative price on every line;
  - selector counts of at least 1.

Notes on the model:

- React state hooks become pure functions from the old state to the new one.
- Prices are exact `real`s, so the totals are stated exactly.
- Quantities and ids are unbounded integers, where the code holds them as JavaScript numbers. The store never checks them.

Facts about the code that the model keeps as they are:

- `addToCart` takes one product object that carries its own `quantity`.
  There is no separate quantity argument.
- The store accepts any quantity, including zero or a negative one, and has
  no error path.
- The merge step is a `map` over all lines, so it bumps every line with the
  product's id. If the cart ever held two lines with the same id, both would
  grow. The laws about how far the unit count and the subtotal grow
  therefore assume unique ids, which the store keeps as an invariant.
- A line added from the listing page also carries the product's
  `description`, because the page spreads the whole product.

## Model

| member | source | states |
|---|---|---|
| CartStore.FindIndex | frontend/src/context/CartContext.jsx:11 | returns nothing exactly when no line has the id; otherwise returns the position of a line with that id and no earlier line has it |
| CartStore.Find | frontend/src/context/CartContext.jsx:11 | finds a line exactly when the id is in the cart; the line found is in the cart and carries the id |
| CartStore.Bump | frontend/src/context/CartContext.jsx:14-16 | a line with the product's id has its quantity raised by the product's quantity and keeps every other field; a line with another id is returned unchanged |
| CartStore.Merge | frontend/src/context/CartContext.jsx:13-17 | the length is unchanged; each line is bumped by the product's quantity if it has the product's id and left as it was otherwise |
| CartStore.AddLine | frontend/src/context/CartContext.jsx:9-20 | id present: same length, that line's quantity grows by the product's quantity, its name/price/image/description are kept, and every other line is unchanged in place. Id absent: the old cart is a prefix and the product is the new last line. Either way the id is present afterwards |
| CartStore.AddKeepsUnique | frontend/src/context/CartContext.jsx:9-20 | adding to a cart with unique ids keeps the ids unique |
| CartStore.RemoveLines | frontend/src/context/CartContext.jsx:24-26 | no line has the id afterwards; the result is never longer; removing an absent id is a no-op |
| CartStore.RemoveLinesMembers | frontend/src/context/CartContext.jsx:25 | a line survives a removal exactly when it was in the cart with another id |
| CartStore.InitialStore | frontend/src/context/CartContext.jsx:6-7 | the cart starts as the empty list, with unique ids and zero units, and the checkout flag starts false |
| CartStore.AddToCart | frontend/src/context/CartContext.jsx:9-22 | after any add the checkout flag is true and the product's id is in the cart; unique ids stay unique |
| CartStore.RemoveFromCart | frontend/src/context/CartContext.jsx:24-26 | the id is gone, the flag is untouched, and unique ids stay unique |
| CartStore.ClearCart | frontend/src/context/CartContext.jsx:28-30 | the cart is empty whatever it held before; the flag is untouched |
| CartStore.SetCheckoutOpen | frontend/src/context/CartContext.jsx:39-40 | sets the flag to the requested value and leaves the cart alone |
| CartStore.MergeTotalQuantity | frontend/src/context/CartContext.jsx:13-17 | in a cart with unique ids that holds the id, merging raises the unit count by exactly the product's quantity |
| CartStore.AddLineTotalQuantity | frontend/src/context/CartContext.jsx:9-20 | every add, whether it merges or appends, raises the unit count of a unique-id cart by exactly the product's quantity |
| CartStore.RemoveKeepsUnique | frontend/src/context/CartContext.jsx:24-26 | removing never creates a duplicate id |
| CartStore.RemovePresent | frontend/src/context/CartContext.jsx:24-26 | in a unique-id cart, removing the id at position i gives exactly the cart with that one line cut out, the rest in their order |
| CartStore.RemoveIdempotent | frontend/src/context/CartContext.jsx:25 | removing an id twice gives the same cart as removing it once |
| CartStore.AddThenRemove | frontend/src/context/CartContext.jsx:19-25 | adding a product whose id is absent and then removing that id gives back the original cart exactly |
| CartStore.StoreAddThenRemove | frontend/src/context/CartContext.jsx:9-26 | the same round trip on the whole store gives back the cart, with the checkout flag left open |
| CartStore.AddSameIdTwice | frontend/src/context/CartContext.jsx:11-19 | two adds of one new id leave one line with the first add's metadata and the summed quantity |
| CartStore.AddSameIdMany | frontend/src/context/CartContext.jsx:9-20 | after a product whose id only the last line holds, any number of further adds of products with that id, whatever names, prices, images and descriptions they carry, leave that one line with the first add's fields and the sum of all the quantities; the lines before it are untouched |
| CartStore.MergeIntoLast | frontend/src/context/CartContext.jsx:13-17 | one further add of the id that only the last line holds raises that line's quantity by the added quantity, keeps its other fields and changes nothing else |
| Checkout.SubtotalNonNegative | frontend/src/components/Checkout.jsx:10 | if all prices and quantities are non-negative, the subtotal is non-negative |
| Checkout.Subtotal | frontend/src/components/Checkout.jsx:10 | an empty cart's subtotal is 0; how it grows line by line is stated by SubtotalSnoc and SubtotalAppend |
| Checkout.SingleLineSubtotal | frontend/src/components/Checkout.jsx:10 | a one-line cart's subtotal is that line's price times its quantity |
| Checkout.ComputeTotals | frontend/src/components/Checkout.jsx:10-13 | shipping is 9.99; tax is a tenth of the subtotal; 10·total = 11·subtotal + 99.9; an empty cart has total 9.99; non-negative lines give non-negative subtotal and tax, and a total of at least the shipping |
| Checkout.OpenView | frontend/src/components/Checkout.jsx:8 | the confirmation flag starts false |
| Checkout.RemoveLine | frontend/src/components/Checkout.jsx:76 | the Remove button leaves no line with that id and changes neither flag |
| Checkout.HandleCheckout | frontend/src/components/Checkout.jsx:15-20 | completing checkout leaves the cart empty and the confirmation flag true, and the total then equals the shipping fee |
| Checkout.SubtotalAppend | frontend/src/components/Checkout.jsx:10 | the subtotal is additive: subtotal(a + b) = subtotal(a) + subtotal(b) |
| Checkout.SubtotalSnoc | frontend/src/components/Checkout.jsx:10 | appending a line adds exactly its price × quantity |
| Checkout.MergeSubtotal | frontend/src/components/Checkout.jsx:10 | in a unique-id cart, merging into the line at position i raises the subtotal by that line's own price times the added quantity |
| Checkout.AddLineSubtotal | frontend/src/components/Checkout.jsx:10 | every add raises the subtotal of a unique-id cart by the added quantity times the charged price. The charged price is the existing line's price when the id is present, otherwise the product's own price |
| Checkout.RemoveSubtotal | frontend/src/components/Checkout.jsx:10 | in a unique-id cart, removing the line at position i lowers the subtotal by exactly that line's price × quantity |
| Checkout.RemoveAbsentSubtotal | frontend/src/components/Checkout.jsx:10 | removing an absent id leaves the subtotal unchanged |
| Checkout.CheckoutTotals | frontend/src/components/Checkout.jsx:15-19 | after checkout the summary is subtotal 0, shipping 9.99, tax 0, total 9.99 |
| Collections.Catalog | frontend/src/pages/Collections.jsx:10-39 | the catalog has four products with pairwise distinct ids and positive prices |
| Collections.InitialQuantities | frontend/src/pages/Collections.jsx:8 | the selector starts with no entries, so every product shows 1 |
| Collections.Selected | frontend/src/pages/Collections.jsx:88 | a product with no entry reads as 1; with valid entries the reading is at least 1 and equals the stored count |
| Collections.HandleQuantityChange | frontend/src/pages/Collections.jsx:41-46 | the stored count for the id becomes max(1, value), so it is at least 1; no other id's entry changes and no other key appears |
| Collections.Decrement | frontend/src/pages/Collections.jsx:83 | minus from 1 (or below) stays at 1; from q > 1 it gives q - 1; no other product changes |
| Collections.Increment | frontend/src/pages/Collections.jsx:90 | plus from a valid count q gives q + 1; no other product changes |
| Collections.ItemFor | frontend/src/pages/Collections.jsx:97-100 | the line handed to the store is the catalog product, every field kept, with exactly the quantity the selector shows: 1 if untouched, and at least 1 whenever the selector is valid |
| Collections.AddFromCatalog | frontend/src/pages/Collections.jsx:96-100 | the Add button opens the checkout and puts the product in the cart, keeping unique ids unique and every quantity positive |
| Collections.AddFromCatalogTotalQuantity | frontend/src/pages/Collections.jsx:97-100 | the Add button raises the unit count of a unique-id cart by exactly the count shown on the selector |
| Session.Start | frontend/src/context/CartContext.jsx:6-7 | a session starts with an empty cart and the checkout closed (the provider's state), no confirmation (Checkout.jsx:8) and no selector entries (Collections.jsx:8) |
| Session.Step | frontend/src/context/CartContext.jsx:5-46 | one click across the three files: the selector buttons (Collections.jsx:41-46), the Add button (Collections.jsx:96-100), the checkout's Remove and Place Order (Checkout.jsx:15-20, 76). An Add of a catalog product always opens the checkout, and one that opens a closed checkout clears the confirmation; a Remove leaves no line with that id; placing the order empties the cart and shows the confirmation |
| Session.AddKeepsPrices | frontend/src/context/CartContext.jsx:13-19 | adding a line with a non-negative price and at least one unit keeps every line's price non-negative and quantity at least 1 |
| Session.RemoveKeepsPrices | frontend/src/context/CartContext.jsx:25 | removing keeps every line's price non-negative and quantity at least 1 |
| Session.StepKeepsGood | frontend/src/context/CartContext.jsx:5-46 | each click keeps a well-formed session well-formed |
| Session.RunKeepsGood | frontend/src/context/CartContext.jsx:5-46 | a run of clicks from a well-formed state ends in a well-formed state |
| Session.SessionInvariant | frontend/src/context/CartContext.jsx:5-46 | every run from a fresh start is well-formed: one line per product, at least one unit per line, non-negative prices, valid selector counts |
| Session.ExampleCarts | frontend/src/pages/Collections.jsx:41-100 | on the real catalog: raise the tee's selector to 2 and add it, lower it to 1 and add it again, add the untouched hoodie, then remove the tee. The lines handed over are the tee with 2 units at 49.99 and the hoodie with 1 at 89.99; the carts are [tee], [tee with 3 units], [that tee, hoodie] and [hoodie] |
| Session.VisitCarts | frontend/src/context/CartContext.jsx:9-26 | for any two products with distinct ids: add the first, add it again with one unit, add the second, remove the first. The carts are [first], [first with one more unit], [that line, second] and [second] |
| Session.PricingExample | frontend/src/components/Checkout.jsx:10-13 | the order summary along the same visit: subtotals 99.98, then 149.97, then 239.96 (tax 23.996, total 273.946), then 89.99. Once the cart is cleared the total is 9.99 |

## Left out

- The provider plumbing: context creation, the `useCart` guard that throws outside a provider (`frontend/src/context/CartContext.jsx:48-54`), and React's batching of state updates and re-renders. Each update is modelled as a pure function on the state.
- Floating-point arithmetic and the `toFixed(2)` formatting of the figures. Amounts are exact reals, so the model's totals are the exact values that the floating-point ones approximate. Likewise quantities and ids are unbounded integers, while JavaScript numbers hold integers exactly only up to 2^53.
- The 1.5-second `setTimeout` in `handleCheckout`. Only its effect is modelled, not its timing, and not a close of the view before it fires.
- Where the checkout view is mounted is not part of this model. `Session` assumes that the view is mounted afresh, which resets its confirmation flag, exactly when the cart is shown, when it is closed, and when an Add opens a closed checkout; an Add while the checkout is already open keeps the flag.
- Session.Step: a product position outside the four-entry catalog is treated as a click that changes nothing, since the page only renders buttons for catalog entries.
- No error path is modelled: `addToCart`, `removeFromCart` and `clearCart` accept every argument and never fail, so every operation is total.
- The presentational pages are out of scope: About, Home, Navbar, App, the DIY studio with its timers and file reader, and the Login/Register forms, whose only behaviour is the browser's field validation and an alert.
