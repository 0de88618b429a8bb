# Food ordering: cart, progress and order validation in Dafny

This project models the business logic of a React food-ordering app, and the `POST /orders` handler of the Express `backend/app.js` that `generated-test.js` assumes (its lines 11-122). The app itself posts to a deployed server whose code is not in the repository:

- **The cart store** (`CartContext`). `cartReducer` handles three tagged actions over a list of cart lines (id, name, price, quantity):
  - `add-item` merges into the line with the same id, or appends a new line with quantity 1;
  - `remove-item` takes one unit off a line, or deletes the line when its last unit goes;
  - `clear-cart` empties the list.

  Any other action tag returns the state unchanged. The provider holds the reducer's state and changes it only by dispatch (`addItem`, `removeItem`, `clearCart`). It is modelled as the class `CartProvider`.
- **The header badge** (`Header`). `totalItems` is the sum of the line quantities, folded from 0. Lemmas relate it to each reducer action and to whole sequences of dispatches.
- **The user-progress state** (`UserProgressContext`). One string field is `""`, `"cart"` or `"checkout"`, and `showCart`, `hideCart`, `showCheckout` and `hideCheckout` overwrite it. The cart and checkout dialogs open on the matching value. It is modelled as the class `UserProgress`.
- **`POST /orders`** of that assumed `backend/app.js` (`Orders`, with `JsText` for `String.prototype.trim`):
  - Validation runs two short-circuiting checks with their two fixed rejection messages.
  - An accepted order is stored as the submitted order plus an `id`, appended to the stored order list.

  JavaScript truthiness is explicit: a missing property is `None`, and an empty string is falsy. The generated id is a parameter.

The lemma rows below are about these definitions:

- `CartContext.Reduce` is `cartReducer`.
- `CartContext.AddLine` and `CartContext.RemoveLine` are its `add-item` and `remove-item` branches.
- `CartContext.FindIndex` is their `findIndex` search.
- `CartContext.ReduceAll` is a sequence of dispatches applied in turn.
- `Header.TotalItems` is the `totalItems` fold.
- `JsText.Trim` is `String.prototype.trim`.
- `Orders.NewOrder` is the spread `{ ...orderData, id }`.

Three edge cases of the reducer:

- **Removing an absent id.** `findIndex` returns -1, and the reducer then reads `updatedItems[-1].quantity` and throws (`CartContext.jsx:29-33`). So a present id is a precondition of `RemoveLine`, of `Reduce` for `remove-item`, and of `CartProvider.RemoveItem`.
- **Net quantity.** An absent id throws, so nothing is clamped at zero. `NetTotalOfDispatches` states the count for sequences in which every removal names an id then in the cart.
- **A quantity that is neither above 1 nor exactly 1** (0 or negative) is left unchanged by `remove-item`, as the code's `if / else if` does. No reachable cart holds such a line (`ReduceKeepsValid`).

## Model

| member | source | states |
|---|---|---|
| `CartContext.FindIndex` | src/Components/store/CartContext.jsx:12-14 | the result is -1 exactly when no line has the id; otherwise the line at the result has the id and no earlier line does |
| `CartContext.FindIndexIs` | src/Components/store/CartContext.jsx:12-14 | the first index holding an id is the index `findIndex` returns |
| `CartContext.AddItemMerges` | src/Components/store/CartContext.jsx:16-22 | on an id already present, the length is kept, the line at that id's index keeps its own fields and gains one unit, and every other line is unchanged |
| `CartContext.AddItemAppends` | src/Components/store/CartContext.jsx:23-25 | on an absent id, the earlier lines are kept as a prefix and one line `{ id, name, price, quantity: 1 }` of the incoming item is added at the end |
| `CartContext.AddItemContains` | src/Components/store/CartContext.jsx:11-26 | after `add-item` the item's id is in the cart |
| `CartContext.AddItemKeepsValid` | src/Components/store/CartContext.jsx:12-25 | `add-item` keeps ids unique and every quantity at least 1 |
| `CartContext.RemoveItemDecrements` | src/Components/store/CartContext.jsx:33-40 | a line with quantity above 1 loses one unit at the same index; the length and all other lines are unchanged |
| `CartContext.RemoveItemDeletes` | src/Components/store/CartContext.jsx:41-42 | a line with quantity 1 is deleted; the lines before it stay in place and the lines after it shift down by one, in their order |
| `CartContext.RemoveLastUnitRemovesId` | src/Components/store/CartContext.jsx:41-42 | in a valid cart, deleting a line's last unit leaves no line with that id |
| `CartContext.RemoveItemKeepsValid` | src/Components/store/CartContext.jsx:28-48 | `remove-item` on a present id keeps ids unique and every quantity at least 1 |
| `CartContext.AddThenRemoveRestores` | src/Components/store/CartContext.jsx:16-42 | `add-item` of an item, then `remove-item` of its id, gives back exactly the original lines, whether the add merged or appended |
| `CartContext.ReduceKeepsValid` | src/Components/store/CartContext.jsx:10-54 | every dispatchable action maps a valid cart (unique ids, quantities at least 1) to a valid cart |
| `CartContext.ClearAndUnknownActions` | src/Components/store/CartContext.jsx:50-53 | `clear-cart` leaves the items empty; an unknown action returns the state unchanged |
| `CartContext.ReduceAllKeepsValid` | src/Components/store/CartContext.jsx:57-59 | any sequence of dispatchable actions from a valid cart ends in a valid cart |
| `CartContext.CartProvider.constructor` | src/Components/store/CartContext.jsx:57-59 | the provider starts with an empty, valid cart |
| `CartContext.CartProvider.AddItem` | src/Components/store/CartContext.jsx:67-69 | the new state is the reducer's `add-item` result; the cart stays valid and holds the id |
| `CartContext.CartProvider.RemoveItem` | src/Components/store/CartContext.jsx:71-73 | the id must be in the cart; the new state is the reducer's `remove-item` result and stays valid |
| `CartContext.CartProvider.ClearCart` | src/Components/store/CartContext.jsx:75-78 | the new state is the reducer's `clear-cart` result: no items |
| `Header.TotalItemsAppend` | src/Components/Header.jsx:11-14 | the count of a concatenation is the sum of the two counts |
| `Header.TotalItemsSingle` | src/Components/Header.jsx:11-14 | the count of one line is its quantity |
| `Header.TotalItemsUpdate` | src/Components/Header.jsx:11-14 | replacing a line changes the count by the new quantity minus the old |
| `Header.TotalItemsDelete` | src/Components/Header.jsx:11-14 | deleting a line takes its quantity off the count |
| `Header.TotalItemsAtLeastLines` | src/Components/Header.jsx:11-14 | with quantities at least 1, the count is at least the number of lines, and it is 0 exactly for the empty cart |
| `Header.AddItemIncrementsTotal` | src/Components/Header.jsx:11-14 | `add-item` raises the count by exactly 1, whether it merges or appends |
| `Header.RemoveItemDecrementsTotal` | src/Components/Header.jsx:11-14 | `remove-item` on a present id lowers the count by exactly 1 |
| `Header.ClearCartZeroesTotal` | src/Components/Header.jsx:11-14 | after `clear-cart` the count is 0 |
| `Header.NetTotalOfDispatches` | src/Components/Header.jsx:11-14 | over dispatchable `add-item`/`remove-item` sequences from a valid cart, the count moves by the number of adds minus the number of removes |
| `UserProgressContext.AtMostOneDialogOpen` | src/Components/UI/Cart.jsx:22-25 | the cart dialog (open on `"cart"`) and the checkout dialog (open on `"checkout"`, src/Components/Checkout.jsx:68,80) are never open together, and neither is open on `""` |
| `UserProgressContext.UserProgress.constructor` | src/Components/store/UserProgressContext.jsx:11 | progress starts as `""` |
| `UserProgressContext.UserProgress.ShowCart` | src/Components/store/UserProgressContext.jsx:12-14 | progress becomes `"cart"` whatever it was, so a second call changes nothing; only the cart dialog is open |
| `UserProgressContext.UserProgress.HideCart` | src/Components/store/UserProgressContext.jsx:15-17 | progress becomes `""` whatever it was; no dialog is open |
| `UserProgressContext.UserProgress.ShowCheckout` | src/Components/store/UserProgressContext.jsx:18-20 | progress becomes `"checkout"` whatever it was; only the checkout dialog is open |
| `UserProgressContext.UserProgress.HideCheckout` | src/Components/store/UserProgressContext.jsx:27 | the same transition as `HideCart`: progress becomes `""` |
| `JsText.TrimStart` | generated-test.js:70-73 | the result is a suffix of the input, everything dropped is white space, and the result is empty or starts with a non-white-space character |
| `JsText.TrimEnd` | generated-test.js:70-73 | the result is a prefix of the input, everything dropped is white space, and the result is empty or ends with a non-white-space character |
| `JsText.TrimEmptyIff` | generated-test.js:70-73 | `s.trim() === ""` exactly when every character of `s` is white space or a line terminator |
| `JsText.TrimIsInfix` | generated-test.js:70-73 | `trim` keeps a contiguous piece of the input with no white space at either end |
| `Orders.BlankIff` | generated-test.js:70-73 | the JavaScript blank test (falsy, or empty after `trim`) holds exactly when the field is missing or has no non-white-space character |
| `Orders.Validate` | generated-test.js:61-75 | acceptance exactly when the order has items and the customer is complete. Otherwise the rejection is `"Missing data."` when items are missing or empty, whatever the customer. It is the customer message when only the customer fails: customer missing, email without `@`, or name, street, postal code or city without text |
| `Orders.NewOrderKeepsPayload` | generated-test.js:78-81 | the stored order carries the submitted items and customer unchanged, plus the generated id |
| `Orders.ItemsCheckedFirst` | generated-test.js:62-63 | a missing order, missing items or empty items get `"Missing data."` whatever the customer |
| `Orders.EmailIsNotTrimmed` | generated-test.js:69 | an email of white space around `@` passes; the email is never trimmed |
| `Orders.OrdersStore.constructor` | generated-test.js:84-85 | the store holds the order list as read |
| `Orders.OrdersStore.Append` | generated-test.js:86 | the list grows by the one order, at the end |
| `Orders.OrdersStore.PostOrder` | generated-test.js:58-93 | a rejected order gets 400 with its message and leaves the list unchanged. An accepted one gets 201 `"Order created!"`, and the list grows by exactly one: the old orders stay as a prefix and the new order goes last |
| `Orders.ValidPayloadAccepted` | generated-test.js:299-313 | the test's valid payload is accepted and stored with its own items and customer and the id |
| `Orders.CustomerScenariosRejected` | generated-test.js:347-365 | each of the six spoiled customers of the tests (email missing or without `@`, name empty, street missing, postal code empty, city missing) gets the customer message |

## Left out

- Quantities and the item count are unbounded integers here. JavaScript numbers (`existingItem.quantity + 1`, `totalNoOfItems + item.quantity`) are exact only up to 2^53, which no cart reaches.
- Price totals (`price * quantity` in the cart and checkout dialogs): prices are floating-point numbers and the reducer never computes with them, so `Price` is opaque.
- `currencyFormatter`: a wrapper over `Intl.NumberFormat`.
- React rendering, context plumbing, portals, `<dialog>` handling, and the checkout form mechanics. Only the two dialogs' `open` conditions are modelled.
- The `useHttp` request lifecycle: its source is not part of this model, and it is network I/O.
- Extra properties copied by the object spreads: the `description` and `image` a meal carries into `{ ...item, quantity: 1 }`, and any extra property of the submitted order in `{ ...orderData, id }`. Items and orders carry only the modelled fields.
- JSON values of other types: a number where a customer string is expected, a non-array `items` with a `length`, or falsy non-object orders such as `0`. Fields are modelled as optional strings and sequences only.
- `GET /meals`, CORS, `OPTIONS`, static files, and the 404 and 500 handlers.
- Reading, parsing and writing the orders file, and the 500 reply when that fails. `OrdersStore.orders` stands for the list as read and as written back.
- The one-second delay before the reply, and `Math.random()` id generation. The id is a parameter of `PostOrder`.
- The lost update when two requests read and rewrite the orders file concurrently. This is concurrency, not sequential logic.
- The Jest and Supertest harness itself. Its cases are restated as the lemmas `ValidPayloadAccepted`, `ItemsCheckedFirst` and `CustomerScenariosRejected`.
