# Shopping cart: a verified model of the cart reducer

The storefront has three screens that share one cart held by the app: a product
list (`components/HomePage.tsx`), a cart view (`components/Cart.tsx`) and an
order summary (`components/Checkout.tsx`). A cart is an array of `Product`
records (`id`, `name`, `price`, `image`, `quantity`, from `types.ts`). The
screens change the cart in three ways:

- the product list stages an add through a quantity picker, then adds to the
  cart or increments an existing line;
- the cart view steps a line's quantity by one. Stepping down a line at
  quantity 1 asks for confirmation, and a confirmed removal filters that line
  out;
- the order summary shows the total and, after confirmation, clears the cart.

This project models that logic in Dafny and proves what it guarantees. The
main invariant is at most one line per id, with every quantity at least 1.

Files and modules (one module per screen, plus the shared record):

- `types.dfy`, module `Types`: the `Product` record, the `Cart` sequence, the
  invariant `WellFormed` (`UniqueIds` and `PositiveQuantities`), the clamp
  `AtLeastOne` (`Math.max(1, n)`) and `SumOver`. `SumOver` is the left fold
  that the screens' `reduce` calls compute.
- `home_page.dfy`, module `HomePage`: the catalog, `ItemCount`, the pure
  add-or-increment `AddToCart`, and the `Picker` class. `Picker` is the
  dialog's state (`selected`, `quantity`, `modalVisible`), which the screen
  sets step by step.
- `cart_page.dfy`, module `CartPage`: `UpdateQuantity` returns the new cart and
  a `removalRequested` flag. `RemoveLine` is the confirmed `filter`.
  `ResolveRemoval` is the confirm/cancel decision. `LineSubtotal` is the amount
  shown per line.
- `checkout.dfy`, module `Checkout`: `Total` and the `CheckoutFlow` class. Its
  `phase` moves between `Idle`, `ConfirmPending`, `Completed` and `Cancelled`,
  and it holds the shared cart.

Points where the code's behaviour is easy to misread:

- The checkout screen rejects a cart whose *length* is 0
  (components/Checkout.tsx:14). It does not test the item count. The lemma
  `EmptyTestMatchesItemCount` proves the two tests agree under the quantity
  invariant.
- A confirmed removal filters the cart *as it was when the request was
  raised* (the `prevCart` captured at components/Cart.tsx:34). It does not
  filter the current cart. `ResolveRemoval` therefore takes that snapshot as a
  separate argument.
- A quantity step is a `map`, so it keeps the line order. The lemmas state
  that order is kept.
- "Confirm" on the picker closes the dialog. It keeps the selected product and
  its quantity, which are only reset by the next `Open`. With nothing
  selected, it returns early and leaves the dialog as it is.

## Model

| member | source | states |
|---|---|---|
| `Types.AtLeastOne` | components/Cart.tsx:39 | the clamp `Math.max(1, n)` is at least 1 and at least `n`, and equals one of them |
| `Types.SumOver` | components/HomePage.tsx:78 | the `reduce` fold of an empty cart is 0 |
| `Types.SumOverBoundsTerms` | components/Checkout.tsx:11 | no single line's term exceeds the fold over the whole cart |
| `Types.SumOverAppend` | components/Checkout.tsx:11 | the `reduce` fold over a concatenation is the sum of the folds over the two parts |
| `Types.SumOverSingle` | components/Checkout.tsx:11 | the fold of a one-line cart is that line's term |
| `Types.SumOverAround` | components/Checkout.tsx:11 | the fold splits around any line into the fold before it, its own term and the fold after it |
| `Types.SumOverReplace` | components/HomePage.tsx:78 | replacing one line changes the fold by exactly the difference of that line's old and new terms |
| `Types.SumOverDelete` | components/Checkout.tsx:11 | dropping one line lowers the fold by exactly that line's term |
| `Types.SumOverPositive` | components/HomePage.tsx:78 | a fold of terms that are all at least 1 is at least the number of lines, and is 0 if and only if the cart is empty |
| `HomePage.CatalogListing` | components/HomePage.tsx:15-19 | the catalog has three entries with distinct ids, each at quantity 1, priced 35, 500 and 500 |
| `HomePage.ItemCount` | components/HomePage.tsx:78 | the displayed item count is 0 for the empty cart; under the quantity invariant it is at least the number of lines and 0 only for the empty cart |
| `HomePage.IncrementLines` | components/HomePage.tsx:40-42 | the `map` keeps the length, and every line with the target id gains exactly `q` while every other line is returned unchanged |
| `HomePage.AddToCart` | components/HomePage.tsx:37-46 | if the id is present: same length, matching lines grow by `q`, others unchanged; if absent: the old cart with one new line appended at the end, holding quantity `q` |
| `HomePage.AddExisting` | components/HomePage.tsx:38-42 | with one line per id, adding an id present on line `k` changes only line `k`, raising its quantity by exactly `q` |
| `HomePage.AddPreservesWellFormed` | components/HomePage.tsx:38-44 | adding a quantity of at least 1 keeps at most one line per id and every quantity at least 1 |
| `HomePage.AddItemCount` | components/HomePage.tsx:37-46 | with one line per id, the item count after an add is the old count plus exactly `q` |
| `HomePage.RepeatedAdds` | components/HomePage.tsx:38-44 | one or more adds of a product missing from the cart keep the earlier lines and leave exactly one line for it, at the end, with the sum of the picked quantities |
| `HomePage.Picker.constructor` | components/HomePage.tsx:24-26 | initially nothing is selected, the quantity is 1 and the dialog is hidden |
| `HomePage.Picker.Open` | components/HomePage.tsx:28-32 | opening selects the product, resets the quantity to 1 and shows the dialog |
| `HomePage.Picker.Decrement` | components/HomePage.tsx:92 | "-" lowers the quantity by one but never below 1; nothing else changes |
| `HomePage.Picker.Increment` | components/HomePage.tsx:99 | "+" raises the quantity by exactly one; nothing else changes |
| `HomePage.Picker.Confirm` | components/HomePage.tsx:34-49 | with nothing selected: cart and dialog unchanged; otherwise the cart becomes `AddToCart` of the selection and quantity, and the dialog closes; the invariant is kept |
| `HomePage.Picker.Cancel` | components/HomePage.tsx:110 | cancel hides the dialog and keeps the selection and quantity |
| `CartPage.StepLine` | components/Cart.tsx:27-41 | other ids and a -1 step at quantity 1 keep the line; otherwise the quantity becomes `max(1, q + change)`; the id, name, price and image never change, and a quantity of at least 1 stays at least 1 |
| `CartPage.UpdateQuantity` | components/Cart.tsx:24-44 | the step keeps the length and order and steps each line on its own; removal is requested if and only if some line with the id is at quantity 1 and the change is -1 |
| `CartPage.UpdateAbsent` | components/Cart.tsx:26-42 | stepping an id not in the cart returns the cart unchanged and requests no removal |
| `CartPage.UpdatePreservesWellFormed` | components/Cart.tsx:26-42 | a step keeps one line per id and every quantity at least 1 |
| `CartPage.RemovalRequestKeepsCart` | components/Cart.tsx:28-37 | with one line per id, a step that requests removal returns the cart exactly as it was |
| `CartPage.UpdateExisting` | components/Cart.tsx:39 | with one line per id, a step on line `k` that requests no removal sets only that line's quantity, to `max(1, q + change)` |
| `CartPage.UpdateItemCount` | components/Cart.tsx:39 | such a step changes the item count by exactly the change in that line's quantity |
| `CartPage.RemoveLine` | components/Cart.tsx:34 | the filtered cart is never longer than the snapshot it filters |
| `CartPage.RemoveLineMembers` | components/Cart.tsx:34 | the filtered cart holds exactly the snapshot's lines whose id differs from the removed one, so no line for that id |
| `CartPage.RemoveLineAppend` | components/Cart.tsx:34 | removal distributes over concatenation, so the kept lines stay in their order |
| `CartPage.RemoveLineAbsent` | components/Cart.tsx:34 | removing an id the snapshot does not hold returns the snapshot unchanged |
| `CartPage.RemoveLineIdempotent` | components/Cart.tsx:34 | confirming the same removal twice gives the same cart as confirming it once |
| `CartPage.RemoveLineSplit` | components/Cart.tsx:34 | when the only line with an id sits between two parts, removing that id returns the two parts joined, in order |
| `CartPage.RemoveLineAt` | components/Cart.tsx:34 | with one line per id, removing line `k`'s id drops exactly line `k` and keeps the others in order |
| `CartPage.RemovePreservesWellFormed` | components/Cart.tsx:34 | removal keeps one line per id and every quantity at least 1 |
| `CartPage.ResolveRemoval` | components/Cart.tsx:33-34 | confirming yields the request-time snapshot filtered by the id, which holds exactly the snapshot's lines of other ids (in order, by `RemoveLineAppend`) and none for the id; cancelling keeps the current cart |
| `CartPage.RemovalFlow` | components/Cart.tsx:28-37 | on a well-formed cart, a -1 step on a line at quantity 1 requests removal and keeps the cart; cancel keeps it, and confirm drops exactly that line |
| `CartPage.LineSubtotal` | components/Cart.tsx:62 | a line's subtotal is at least its unit price when its quantity is at least 1, and is 0 exactly when the price or the quantity is 0 |
| `Checkout.Total` | components/Checkout.tsx:11 | the total is 0 for the empty cart, and no line's subtotal exceeds it |
| `Checkout.BumpedSubtotal` | components/Checkout.tsx:51 | raising a line's quantity by `q` raises its subtotal by `q` times its unit price |
| `Checkout.AddTotalExisting` | components/Checkout.tsx:11 | with one line per id, adding `q` of a product on line `k` raises the total by `q` times that line's price |
| `Checkout.AddTotalAbsent` | components/Checkout.tsx:11 | adding `q` of a product not in the cart raises the total by `q` times the product's price |
| `Checkout.RemoveTotals` | components/Checkout.tsx:11 | a confirmed removal of line `k` lowers the total by that line's subtotal and the item count by its quantity |
| `Checkout.EmptyTestMatchesItemCount` | components/Checkout.tsx:14 | under the quantity invariant, the `cart.length === 0` test holds exactly when the item count is 0 |
| `Checkout.FirstProductTwice` | components/HomePage.tsx:16 | adding 2 of the first catalog product (price 35) to an empty cart gives one line with quantity 2 and a total of 70 |
| `Checkout.CheckoutFlow.constructor` | components/Checkout.tsx:10 | the screen starts idle over the shared cart it is given |
| `Checkout.CheckoutFlow.TotalAmount` | components/Checkout.tsx:11 | the displayed total is 0 for an empty cart |
| `Checkout.CheckoutFlow.RequestCheckout` | components/Checkout.tsx:13-19 | an empty cart is rejected and the flow returns to idle from whatever phase it was in; any other cart moves it to confirmation pending; the cart is not changed either way |
| `Checkout.CheckoutFlow.Confirm` | components/Checkout.tsx:24-29 | confirming empties the cart, so the total and the item count become 0, and the flow is completed |
| `Checkout.CheckoutFlow.Cancel` | components/Checkout.tsx:23 | cancelling leaves the cart unchanged and the flow is cancelled |

## Left out

- Rendering is not modelled: JSX, styles, `FlatList`, `Modal`, `Image`, the image assets loaded with `require`, and `₱` formatting. Image fields are kept as their path strings.
- Navigation is not modelled: `App.tsx` and the stack navigator are only wiring. The shared cart appears as a value passed in and returned, or as the `cart` field of `CheckoutFlow`.
- `Alert.alert` dialogs are not modelled as UI. Only the decisions they gate are: the `removalRequested` flag, the `confirmed` argument of `ResolveRemoval`, and the `Confirm`/`Cancel` methods. The message texts are left out, including the "Checkout Successful" notice after confirmation.
- React's state scheduling is not modelled: updater batching, re-render timing, and the chance that React runs an updater twice. Running it twice would raise the removal dialog twice; the model raises one request per step.
- `Checkout.CheckoutFlow.Confirm`, `Checkout.CheckoutFlow.Cancel`: require a pending confirmation, because the two buttons exist only inside the confirmation dialog.
- JavaScript `number` semantics are not modelled. Prices and quantities are naturals (the catalog prices are whole numbers), so floating-point rounding and the unbounded growth of a quantity past 2^53 are out of scope.
