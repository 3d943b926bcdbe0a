# Vegetable storefront: cart engine and local-storage model

A Dafny model of the logic of a single-page vegetable storefront. Shoppers
browse a static catalog, build a cart, and check out. Checkout records the
order in the browser's local storage and hands a text message to a
messaging deep link. The React components mix this logic with their JSX. Here
it is lifted out, one module per source file:

- `Catalog` (`src/data/vegetables.ts`): the shipped catalog, the in-stock list
  (`availableVegetables`), the distinct categories (`categories`), and the
  grouping loop (`categorizeVegetables`, a method over a `map`).
- `LocalStore` (`src/utils/localStorage.ts`): the records `CartLine`,
  `UserInfo` and `Order`, and the class `Store`. Its three fields are the keys
  `cart`, `userInfo` and `orderHistory`. `None` means the key is absent. Each
  getter returns the source's default; each setter overwrites one key and
  leaves the others alone. Order ids are `"ORD"` followed by the decimal clock
  reading, and different clock readings give different ids.
- `CartLines` (shared by the components): the `findIndex` search (`IndexOf` as
  the specification, `FindIndex` as the loop) and the cart total (the
  `reduce` in `Cart.tsx` and `CheckoutForm.tsx`). It also defines two
  invariants: at most one line per id (`UniqueIds`), and every line priced at
  quantity times unit price (`PricedConsistently`).
- `Card` (`src/components/VegetableCard.tsx`): the class `VegetableCard` (its
  quantity and unit are state), the stepper and unit switch as functions, the
  normalised line `addToCart` builds, and the merge-by-id.
- `CartItemActions` (`src/components/CartItem.tsx`): the quantity stepper on a
  cart line (splice below 0.1, refuse above 10, otherwise recompute) and the
  remove button (filter by id).
- `CartPage` (`src/components/Cart.tsx`): the class `CartView`, which loads the
  stored cart and its total.
- `Checkout` (`src/components/CheckoutForm.tsx`): the submission. It has two
  failure exits. On success it appends an order, clears the cart and builds
  the message.
- `IndexPage` (`src/pages/Index.tsx`): the category filter and the cart badge.
- `Wrappers` and `Seqs` are helpers: `Option`, and JavaScript's `filter` and
  `join`.

Quantities and prices are `real`, so `0.1`, `10` and `/ 1000` are exact.

Facts about the code that the model makes explicit:

- `updateQuantity` does not clamp. It removes the line when the new quantity
  is below 0.1, and it returns without saving above 10.
- `addToCart` merges without checking the 10 bound, so a cart line can hold
  more than 10 (`Card.MergeCanExceedMax`).
- The 0.1 lower bound is not kept either. After "Add" in gram mode the card
  keeps the unit `g` and returns to the number 0.5, so the next "Add" stores a
  line of 0.0005 kg (`Card.GramModeResetStoresBelowMin`).
- Malformed stored JSON makes `JSON.parse` throw. That path is not modelled.

## Model

| member | source | states |
|---|---|---|
| `Catalog.AvailableVegetables` | src/data/vegetables.ts:494 | an item is in the list exactly when it is a catalog item that is in stock: none is dropped, none out of stock is kept |
| `Catalog.Categories` | src/data/vegetables.ts:497 | no category listed twice; the category of every catalog item is listed, out-of-stock items included |
| `Catalog.CategoryHasItem` | src/data/vegetables.ts:497 | every listed category is the category of some catalog item |
| `Catalog.CategoriesOfPrefix` | src/data/vegetables.ts:497 | the categories of any prefix of the catalog are a prefix of the list, so categories appear in first-occurrence order |
| `Catalog.GroupedByPush` | src/data/vegetables.ts:18-23 | one step of the `forEach` (create the bucket if missing, push) keeps the map a grouping of the items seen so far |
| `Catalog.CategorizeVegetables` | src/data/vegetables.ts:15-26 | the keys are exactly the listed categories; each bucket is the items of that category in input order; no bucket is empty |
| `Catalog.BucketSizesSum` | src/data/vegetables.ts:18-23 | bucket sizes, summed over the categories, equal the catalog length, so every item lands in exactly one bucket |
| `Catalog.ShippedCatalogFacts` | src/data/vegetables.ts:28-491 | the shipped catalog has 42 items, all priced per kg |
| `LocalStore.OrderId` | src/utils/localStorage.ts:45 | an order id is `ORD` followed by at least one character, all of them digits |
| `LocalStore.DecimalRoundTrip` | src/utils/localStorage.ts:45 | reading back the decimal text of the clock value gives the clock value |
| `LocalStore.OrderIdInjective` | src/utils/localStorage.ts:45 | orders saved at different clock readings get different `ORD…` ids |
| `LocalStore.Store.constructor` | src/utils/localStorage.ts:24-55 | a fresh storage has none of the three keys, so each getter returns its default |
| `LocalStore.Store.SaveUserInfo` | src/utils/localStorage.ts:19-21 | the profile is replaced wholesale (no merge); cart and history unchanged |
| `LocalStore.Store.GetUserInfo` | src/utils/localStorage.ts:24-27 | returns the stored profile, or `None` (null) when none is stored |
| `LocalStore.Store.SaveCart` | src/utils/localStorage.ts:30-32 | a later `getCart` yields exactly the saved cart; profile and history unchanged |
| `LocalStore.Store.GetCart` | src/utils/localStorage.ts:35-38 | returns the stored cart, or the empty list when no cart is stored |
| `LocalStore.Store.SaveOrderHistory` | src/utils/localStorage.ts:41-49 | the history grows by exactly one order at the end, and earlier entries are unchanged; the new order carries the draft's fields, `OrderId(now)` and the clock's date; cart and profile unchanged |
| `LocalStore.Store.GetOrderHistory` | src/utils/localStorage.ts:52-55 | returns the stored history, or the empty list when none is stored |
| `LocalStore.Store.ClearCart` | src/utils/localStorage.ts:58-60 | removes the key, so a later `getCart` yields the empty list; profile and history unchanged |
| `CartLines.IndexOf` | src/components/VegetableCard.tsx:74 | the first index whose line has the id, with no earlier match; or -1 when no line has it |
| `CartLines.FindIndex` | src/components/CartItem.tsx:23 | the linear search returns exactly `IndexOf` |
| `CartLines.TotalAppend` | src/components/Cart.tsx:23-26 | the total of two carts end to end is the sum of their totals |
| `CartLines.TotalUpdate` | src/components/Cart.tsx:24 | replacing one line changes the total by the difference of the two lines' prices |
| `CartLines.TotalRemoveAt` | src/components/Cart.tsx:24 | splicing out one line lowers the total by that line's price |
| `CartLines.TotalNonNegative` | src/components/Cart.tsx:24 | lines with non-negative prices give a non-negative total |
| `CartLines.TotalIsQuantityTimesPrice` | src/components/Cart.tsx:24 | when every line is priced consistently, the total equals the sum of quantity times unit price |
| `Card.StepQuantity` | src/components/VegetableCard.tsx:20-30 | from a quantity inside [0.1, 10] the stepper never leaves it |
| `Card.StepStaysInBounds` | src/components/VegetableCard.tsx:20-30 | a step is applied exactly when its result is within [0.1, 10]; every other step leaves the quantity unchanged |
| `Card.GramModeCannotStep` | src/components/VegetableCard.tsx:20-43 | the bounds apply to the displayed number in any unit: after kg to g the number is at least 100, so a ±0.1 step is ignored |
| `Card.ConvertQuantity` | src/components/VegetableCard.tsx:33-43 | switching to the current unit changes nothing, and a switch keeps a positive quantity positive, so it never trips `addToCart`'s `quantity <= 0` guard |
| `Card.KgGramRoundTrip` | src/components/VegetableCard.tsx:33-43 | kg to g then g to kg restores the quantity; switching to the same unit is a no-op |
| `Card.LinePrice` | src/components/VegetableCard.tsx:46-51 | a non-negative unit price and quantity give a non-negative displayed price |
| `Card.UnitSwitchKeepsPrice` | src/components/VegetableCard.tsx:46-51 | switching between kg and g changes the displayed number but not the displayed price |
| `Card.BuildLine` | src/components/VegetableCard.tsx:60-68 | the line copies id, name, price and image; it is never in grams; a gram-mode line is stored in kg; its quantity is the kg-normalised quantity; its price is the displayed price, which equals unit price times normalised quantity |
| `Card.MergeLine` | src/components/VegetableCard.tsx:74-83 | an existing line with the id gains the new quantity and price; no other field or line changes; the length is unchanged; otherwise the line is appended at the end |
| `Card.MergePreservesUniqueIds` | src/components/VegetableCard.tsx:74-83 | the merge keeps at most one line per id, and the id is present afterwards |
| `Card.MergeTotal` | src/components/VegetableCard.tsx:76-83 | the merge raises the cart total by exactly the new line's price |
| `Card.MergePreservesPricing` | src/components/VegetableCard.tsx:78-79 | merging a line with the same unit price keeps every line at quantity times unit price |
| `Card.MergeSameIdTwice` | src/components/VegetableCard.tsx:74-83 | adding the same item twice yields one line holding the summed quantity and price |
| `Card.MergeCanExceedMax` | src/components/VegetableCard.tsx:76-79 | the merge does not apply the 10-unit bound |
| `Card.AddTomatoesExample` | src/components/VegetableCard.tsx:60-83 | 0.5 kg of tomatoes at 30/kg, plus 0.3 kg more, is one line of 0.8 kg costing 24 |
| `Card.GramModeResetStoresBelowMin` | src/components/VegetableCard.tsx:60-95 | the 0.5 the card resets to, added in gram mode, is a line of 0.0005 kg, below the 0.1 minimum |
| `Card.VegetableCard.constructor` | src/components/VegetableCard.tsx:15-16 | a card starts at quantity 0.5 in the item's own unit |
| `Card.VegetableCard.HandleQuantityChange` | src/components/VegetableCard.tsx:20-30 | the quantity becomes `StepQuantity` of the old one; the unit is unchanged |
| `Card.VegetableCard.HandleUnitChange` | src/components/VegetableCard.tsx:33-43 | the quantity is converted from the old unit to the new one, and the unit is set; the same unit changes nothing |
| `Card.VegetableCard.CalculateTotalPrice` | src/components/VegetableCard.tsx:46-51 | the card's price is the per-kg price of its quantity converted to kg, whether shown in kg or g; it is non-negative for a non-negative price and quantity |
| `Card.VegetableCard.AddToCart` | src/components/VegetableCard.tsx:54-97 | a quantity ≤ 0 does nothing; otherwise the stored cart becomes the merge of the normalised line and the quantity resets to 0.5; profile and history unchanged |
| `CartItemActions.UpdatedCart` | src/components/CartItem.tsx:16-52 | an id with no line yields no save; a saved cart has the same length or one line fewer |
| `CartItemActions.UpdateAbsentIsNoop` | src/components/CartItem.tsx:23-25 | with no line of that id nothing is saved |
| `CartItemActions.UpdateAboveMaxIsRefused` | src/components/CartItem.tsx:34-37 | a step past 10 returns without saving |
| `CartItemActions.UpdateBelowMinRemoves` | src/components/CartItem.tsx:29-31 | a step below 0.1 removes that line; the other lines keep their order; the total drops by its price |
| `CartItemActions.UpdateInRangeChangesOneLine` | src/components/CartItem.tsx:40-41 | otherwise only that line changes; its quantity is the stepped value, within [0.1, 10], and its price is quantity times unit price |
| `CartItemActions.SpliceKeepsInvariants` | src/components/CartItem.tsx:31 | splicing out a line keeps ids unique and lines consistently priced |
| `CartItemActions.UpdatePreservesInvariants` | src/components/CartItem.tsx:27-42 | whatever is saved keeps ids unique and lines consistently priced |
| `CartItemActions.RemoveById` | src/components/CartItem.tsx:62 | no line of the removed id is left |
| `CartItemActions.RemoveByIdKeepsOthers` | src/components/CartItem.tsx:62 | exactly the lines whose id differs survive |
| `CartItemActions.RemoveByIdIdempotent` | src/components/CartItem.tsx:62 | removing an absent id leaves the cart unchanged; removing twice is removing once |
| `CartItemActions.RemoveByIdKeepsInvariants` | src/components/CartItem.tsx:62 | the remove button keeps ids unique and lines consistently priced |
| `CartItemActions.RemoveByIdIsSplice` | src/components/CartItem.tsx:29-62 | with unique ids, the remove button's filter and the stepper's splice give the same cart |
| `CartItemActions.UpdateQuantity` | src/components/CartItem.tsx:16-52 | the stored cart becomes `UpdatedCart` when that saves, and is untouched otherwise; the parent is notified exactly when it saves |
| `CartItemActions.RemoveItem` | src/components/CartItem.tsx:55-71 | the stored cart becomes the filtered cart (saved even if nothing was removed) |
| `CartPage.CartView.constructor` | src/components/Cart.tsx:11-12 | the page starts with no lines and a total of 0 |
| `CartPage.CartView.CalculateTotal` | src/components/Cart.tsx:23-26 | the shown total is the sum of the lines' prices |
| `CartPage.CartView.LoadCart` | src/components/Cart.tsx:16-20 | the page shows exactly the stored cart and its total, and offers the total footer and checkout (`OffersCheckout`, the conditions at lines 44 and 64) exactly when that cart is non-empty |
| `Checkout.ItemEntry` | src/components/CheckoutForm.tsx:76 | an item's entry opens with the item's name |
| `Checkout.ItemsList` | src/components/CheckoutForm.tsx:75-77 | an empty cart gives an empty list; otherwise the list opens with the first line's entry |
| `Checkout.ItemsListOneEntryPerLine` | src/components/CheckoutForm.tsx:75-77 | the item list has one entry per cart line, in cart order, joined by `%0A` |
| `Checkout.NoteSection` | src/components/CheckoutForm.tsx:88 | the note block is empty exactly when the note is |
| `Checkout.Message` | src/components/CheckoutForm.tsx:80-88 | the message opens with the order header and the customer's name line |
| `Checkout.MessageNoteIsOptionalSuffix` | src/components/CheckoutForm.tsx:80-88 | the note only ever extends the message, and it changes the message exactly when it is non-empty |
| `Checkout.HandleSubmit` | src/components/CheckoutForm.tsx:45-117 | a missing name, phone or address aborts with no store write. Otherwise the profile is saved first, so an empty cart still updates it and then aborts with cart and history unchanged. Otherwise one order is appended: the old cart, its total, and the customer details with the note. The cart is then cleared and the link carries the message |
| `IndexPage.FilteredVegetables` | src/pages/Index.tsx:23-27 | the shown list is no longer than the catalog, and holds only in-stock catalog items of the active category (any category for "All") |
| `IndexPage.FilteredIsCatalogSelection` | src/pages/Index.tsx:23-27 | for a category other than "All" the page shows the in-stock items of exactly that category, in catalog order |
| `IndexPage.FilteredNeverOutOfStock` | src/pages/Index.tsx:23-27 | every shown item is an in-stock catalog item of the active category |
| `IndexPage.FallbackShowsAllAvailable` | src/pages/Index.tsx:130-140 | the empty-list fallback selects "All", which shows every in-stock catalog item, so the list is non-empty whenever any item is in stock |
| `IndexPage.CartCount` | src/pages/Index.tsx:39-41 | the badge shows 0 exactly when the cart is empty |
| `IndexPage.CartCountCountsLines` | src/pages/Index.tsx:39-41 | the badge counts lines, not quantity: adding an item already in the cart leaves it unchanged |

## Left out

- JSX rendering, styling, animations, routing, and the static pages. They have no state logic.
- The busy flags `isAdding`, `isUpdating` and `isSubmitting`. Each is set and then reset within one handler, and they only disable buttons.
- The checkout form's field plumbing: the prefill from `getUserInfo` and `handleChange`. The form values are a parameter of `HandleSubmit`.
- `JSON.stringify`/`JSON.parse` and the browser storage API. The store is a typed record of three optional keys. A malformed stored value would make `JSON.parse` throw; that path is not modelled.
- `Date.now()` and `new Date().toISOString()`. They are the parameters `now` and `isoDate`. The source reads the clock twice and the model does not relate the two readings. ISO date formatting is not modelled.
- Number-to-text conversion (`${n}` and `toFixed(2)`). The message builder takes them as the function parameters `showNumber` and `toFixed2`.
- `window.open`, `toast`, `navigate`, `window.dispatchEvent`, and the `storage`/`cartUpdated` listeners. Their effects are at most recorded: the `url` of a placed order, the `added` result of `AddToCart`, and the `notified` result of `UpdateQuantity`. Cross-tab races are not modelled.
- IEEE-754 arithmetic. There is no drift from repeated ±0.1 steps and no rounding; the model is exact.
- The `try`/`catch` blocks and loading state in `src/pages/Index.tsx`. The filter in the model cannot fail.
- The effect that refreshes the cart badge on `storage` and `cartUpdated` events (`src/pages/Index.tsx:37-55`). The count itself is `IndexPage.CartCount`.
- `CategorizeVegetables`: the map stands for the source's plain object. A category named after an `Object.prototype` member, such as "constructor", would make the source skip creating the bucket and then throw on `push`. The model does not capture this. None of the shipped catalog's nine categories is such a name.
