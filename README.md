# Cart and checkout workflows of an e-commerce backend, in Dafny

This project models the two stateful workflows of the backend's route
handlers.

- **Cart lines and merge-on-login** (`routes/CartRoutes.js`). A cart
  document holds an ordered list of lines. Each line has a product, name,
  image, price, size, colour and quantity. The document also caches a
  `totalPrice`. A line is identified by the triple (productId, size, colour).
  - Adding a product bumps the first line with that key, or appends a new
    line.
  - Setting a quantity overwrites it, or splices the line out when the
    quantity is not positive. Removing splices the line out.
  - Every mutation recomputes the total as the sum of price times quantity.
  - Merge-on-login folds a guest cart into the user's cart and deletes the
    guest cart. When the user has no cart, the guest cart is re-homed to the
    user instead.
- **Checkout state machine** (`routes/checkRoutes.js`).
  - A checkout is created unpaid with status "Pending".
  - It becomes paid only on the exact token "paid".
  - It is finalized at most once, and only when paid. Finalizing creates the
    order, marks the checkout finalized and deletes the user's cart on a
    best-effort basis.

The files:

- `common.dfy`: `Option`, JavaScript truthiness of an optional request field
  (`Given`), and `RemoveAt` (what `splice(i, 1)` does).
- `cart_lines.dfy` (module `CartLines`): the pure computations on a cart's
  lines:
  - the lookup `FindIndex` (`findIndex`);
  - the left-fold sums `Total` and `Qty` (`reduce`);
  - `AddLine`, `SetLine`, `DropLine` and `MergeLines`;
  - the lemmas about all of these.
- `cart_store.dfy` (module `CartStore`): the class `Store`.
  - It keeps the cart collection as a sequence of documents in their
    natural order. `FindOne` returns the first matching document, as
    `findOne` does, and `DeleteFirst` removes it, as `findOneAndDelete`
    does.
  - Its methods are the handlers. Each method's `ensures` gives the new
    collection in terms of the pure functions.
  - The module also holds the merge outcome as a function
    (`MergeAsWritten`, and its corrected form `MergeCorrected`) and the
    lemmas about it.
- `checkout.dfy` (module `Checkouts`): the class `Ledger`.
  - It holds the stored checkouts (a map from id to checkout), the next
    fresh id and the orders, and a ghost record of which checkout each
    order was made from.
  - Its methods are create, pay and finalize. Their object invariant says:
    only paid checkouts are finalized; a checkout is paid exactly when its
    status is "paid"; the orders correspond one to one to the finalized
    checkouts, and each order carries the user, items, address, method and
    total of its checkout.
  - The item mapping, the order record and the finalize guards are pure
    functions.

The collection is a sequence, not a map keyed by user id or guest id.
A cart created by a logged-in user carries both ids
(routes/CartRoutes.js:68-69), so two maps would have to share one document.

Prices and quantities are integers. External inputs are parameters:

- the catalog, as a map from product id to `Product`;
- the clock (`stamp` for the generated guest id, `now` for payment and
  finalize times);
- the authenticated user id;
- whether a best-effort deletion succeeds (`deleteOk`, `cartDeleteOk`).

## Model

| member | source | states |
|---|---|---|
| Common.RemoveAtIndex | routes/CartRoutes.js:118 | after splicing out position i, every position before i holds its old element and every later position holds the element that followed it |
| CartLines.FindIndex | routes/CartRoutes.js:34-39 | the result is -1 exactly when no line has the key, otherwise the index of the first line with the key |
| CartLines.TotalConcat | routes/CartRoutes.js:58-61 | the total every mutation stores is additive over runs of lines, so it is the sum of the lines' price-times-quantity subtotals however they are grouped |
| CartLines.AddLine | routes/CartRoutes.js:34-55 | adding a line grows the list by at most one line, and afterwards some line carries the added key |
| CartLines.AddLineShape | routes/CartRoutes.js:41-55 | the line count grows by one exactly when the key was absent, existing lines change at most in quantity, an appended line is the given line, the keys become the old keys plus the added one, and distinct keys stay distinct |
| CartLines.AddLineExisting | routes/CartRoutes.js:34-43 | adding a key that is present raises the quantity of its first line by the added amount; the line count and every other line are unchanged |
| CartLines.AddLineNew | routes/CartRoutes.js:44-55 | adding a key that is absent appends exactly that line at the end, the earlier lines unchanged |
| CartLines.AddLineQty | routes/CartRoutes.js:41-55 | after an add, the added key holds its old units plus the added quantity and every other key holds its old units |
| CartLines.AddLineTotal | routes/CartRoutes.js:57-61 | the recomputed total grows by the added quantity times the price already on the matched line (not the catalog price), or by the new line's subtotal |
| CartLines.SetLine | routes/CartRoutes.js:104-119 | the update fails exactly when no line has the key |
| CartLines.SetLineShape | routes/CartRoutes.js:111-119 | a successful update keeps the line count for a positive quantity and drops one line for zero or less, and distinct keys stay distinct |
| CartLines.SetLineExisting | routes/CartRoutes.js:104-119 | a successful update touches only the first line with the key: for a positive quantity that line takes the new quantity and keeps its name, image and price, otherwise it is spliced out; every other line keeps its place and order |
| CartLines.SetLineQty | routes/CartRoutes.js:111-119 | with distinct keys, the key holds exactly the new quantity afterwards (none when it is not positive) and every other key keeps its units |
| CartLines.SetLineTotal | routes/CartRoutes.js:121-124 | the recomputed total loses the line's old subtotal and gains price times the new quantity when the line stays |
| CartLines.DropLine | routes/CartRoutes.js:156-164 | removal fails exactly when no line has the key |
| CartLines.DropLineSpec | routes/CartRoutes.js:163-169 | removal splices out the first line with the key and keeps the rest in order; the total drops by that line's subtotal; with distinct keys the keys stay distinct and the removed key is gone |
| CartLines.MergeLines | routes/CartRoutes.js:215-228 | the merged list keeps at least the user's lines and gains at most one line per guest line |
| CartLines.MergeLinesQty | routes/CartRoutes.js:215-228 | merge is loss-free: for every key, units afterwards equal the user's units plus the guest's units |
| CartLines.MergeLinesKeepsUser | routes/CartRoutes.js:215-228 | no user line is dropped or moved: the user's lines stay in front, in order, changed at most in quantity |
| CartLines.MergeLinesHas | routes/CartRoutes.js:215-228 | the merged lines carry exactly the keys of the user's lines and the guest's lines |
| CartLines.MergeLinesAppended | routes/CartRoutes.js:215-228 | every line after the user's lines is a guest line pushed as it is, with the guest's own name, image and price, changed at most in quantity |
| CartLines.MergeLinesUnique | routes/CartRoutes.js:215-228 | distinct user keys stay distinct after the merge, even when the guest's lines repeat a key |
| CartLines.MergeUserLineQuantity | routes/CartRoutes.js:215-228 | with distinct user keys, each user line ends with its own quantity plus all the guest's units of its key |
| CartStore.FindOne | routes/CartRoutes.js:209-210 | the lookup returns the first document that matches the filter, or nothing when none does |
| CartStore.GetCart | routes/CartRoutes.js:9-16 | lookup is by user id when one is given, otherwise by guest id, and finds nothing when neither is given |
| CartStore.NewLine | routes/CartRoutes.js:46-54 | a new line has the requested product, size, colour and quantity, and the name, image and price of the catalog entry rather than anything the client sends |
| CartStore.NewCart | routes/CartRoutes.js:66-82 | a new cart has the single requested line, total price times quantity, the user when one is given, and always a guest id (the given one or a generated one) |
| CartStore.DeleteFirst | routes/CartRoutes.js:239 | deleting by filter removes one document exactly when one matches |
| CartStore.DeleteFirstSpec | routes/CartRoutes.js:239 | deleting by filter removes exactly the first matching document and keeps the others in order, and changes nothing when no document matches |
| CartStore.FoldGuestLines | routes/CartRoutes.js:215-228 | the loop over the guest lines computes exactly the merged lines |
| CartStore.MergeAsWritten | routes/CartRoutes.js:205-261 | the handler as written answers "No cart found" exactly when there is no user cart and no non-empty guest cart, and then changes nothing; it removes at most one document |
| CartStore.MergeSeparateCarts | routes/CartRoutes.js:212-233 | merging a separate, non-empty guest cart into the user's cart answers with the merged lines, the recomputed total, and every key holding the user's units plus the guest's units |
| CartStore.MergeSeparateStore | routes/CartRoutes.js:235-244 | after the merge the merged cart is stored where the user's cart was and is the one the user finds; a successful deletion removes exactly the guest cart, and a failed one changes nothing else |
| CartStore.MergeWithoutUserCart | routes/CartRoutes.js:245-252 | with no user cart, the guest cart is re-homed: same lines and total, owner the user, guest id cleared; the user finds it and the guest id no longer does |
| CartStore.MergeNothingToMerge | routes/CartRoutes.js:254-260 | with a missing or empty guest cart, merge answers with the user's cart and changes nothing, or answers not-found when there is none |
| CartStore.MergeSharedCartAsWritten | routes/CartRoutes.js:209-244 | as written, when one document is both the guest cart and the user's cart, every quantity in the answer doubles and the document is deleted from the store |
| CartStore.MergeSharedCartExample | routes/CartRoutes.js:209-244 | a store with one cart of user "u" and guest id "g" is empty after the merge, and the answer reports 4 units where 2 were stored |
| CartStore.MergeCorrected | routes/CartRoutes.js:205-261 | the corrected merge answers "No cart found" only with the store unchanged, and removes at most one document |
| CartStore.MergeCorrectedKeepsUserCart | routes/CartRoutes.js:205-261 | the corrected merge answers not-found exactly when there is neither a user cart nor a non-empty guest cart; any cart it answers with is the one the user finds afterwards, and it holds the user's units plus the units of a separate guest cart |
| CartStore.Store.Get | routes/CartRoutes.js:186-201 | GET answers with the cart the lookup finds, otherwise not-found |
| CartStore.Store.Add | routes/CartRoutes.js:21-90 | an unknown product gives not-found and changes nothing; a found cart is saved with the line added and the total recomputed; otherwise a new cart is appended and returned as created; every stored cart stays well-formed |
| CartStore.Store.Update | routes/CartRoutes.js:95-141 | a missing cart or key gives not-found and changes nothing; otherwise the cart is saved with the line's quantity set, or the line removed, and the total recomputed |
| CartStore.Store.Remove | routes/CartRoutes.js:147-180 | a missing cart or key gives not-found and changes nothing; otherwise the cart is saved without its first line with that key and with the total recomputed |
| CartStore.Store.DeleteOne | routes/checkRoutes.js:128-139 | a best-effort delete removes the first matching cart when it succeeds and changes nothing when it fails |
| CartStore.Store.Merge | routes/CartRoutes.js:205-267 | the merge handler, with the shared-document case corrected, leaves exactly the collection and answer of the corrected merge and keeps every stored cart well-formed |
| Checkouts.NewCheckout | routes/checkRoutes.js:21-29 | a new checkout is unpaid, "Pending" and not finalized, copies items, address, method and total as given, and cannot be finalized yet |
| Checkouts.ToOrderItem | routes/checkRoutes.js:101-109 | the product reference falls back to the legacy field when productId is missing or empty; the quantity falls back to 1 when missing or 0; the other fields are copied |
| Checkouts.ToOrderItems | routes/checkRoutes.js:101-109 | the order lines have the checkout lines' length and order, each mapped line by line, and no quantity is 0 |
| Checkouts.OrderFrom | routes/checkRoutes.js:111-122 | the order is paid, "Paid" and "Processing" whatever the checkout's label, and copies the user, address, method, total, payment time and payment details |
| Checkouts.Refusal | routes/checkRoutes.js:88-98 | finalize goes ahead exactly for a present, unfinalized, paid checkout; not-found comes first, then already-finalized regardless of payment, then not-paid |
| Checkouts.Ledger.Create | routes/checkRoutes.js:13-41 | missing or empty items give a bad request and store nothing; otherwise a new pending checkout is stored under a fresh id |
| Checkouts.Ledger.Pay | routes/checkRoutes.js:46-79 | an unknown id gives not-found; any status other than "paid" gives a bad request and changes nothing; "paid" sets paid, the status, the time and the details verbatim; no checkout becomes finalized or unfinalized |
| Checkouts.Ledger.Finalize | routes/checkRoutes.js:84-146 | a refused finalize changes nothing; otherwise exactly one order is appended, recorded as made from this checkout, the checkout is marked finalized, the user's cart is deleted only when the deletion succeeds, a second finalize is refused, and the orders stay in one-to-one correspondence with the finalized checkouts |
| Checkouts.FinalizeOrdersOk | routes/checkRoutes.js:111-127 | finalizing a paid, unfinalized checkout and appending its order keeps every order tied to a distinct finalized checkout it was made from (same user, items, address, method and total), and every finalized checkout tied to an order |
| Checkouts.OrdersCount | routes/checkRoutes.js:111-127 | under that correspondence there are exactly as many orders as finalized checkouts |
| Checkouts.PayConsistent | routes/checkRoutes.js:56-72 | recording a payment changes no finalized flag and keeps the correspondence between orders and finalized checkouts |

## Left out

- Express routing, the `protect` authentication middleware and `console`
  logging are not modelled. The authenticated user is a parameter, and
  HTTP answers are the `Response` and `Outcome` datatypes.
- Persistence failures (the 500 answers) are not modelled. The two
  deliberately swallowed deletions are booleans: the guest cart in merge,
  the user's cart in finalize.
- Concurrency is not modelled: the lost updates between read and save, and
  the double-submit race of finalize, are outside a sequential model.
- JavaScript numbers are not modelled. Prices and quantities are integers,
  so `Number(item.price) * item.quantity` is exact, and coercions of
  non-numeric request fields are not modelled.
- The image fallback `images[0]?.url || images[0]` is not modelled.
  `Product.image` is the already resolved image.
- The guest-id clock reading and the checkout's database id are not
  modelled. The clock reading is the parameter `stamp`. Checkout ids come
  from a counter, `nextId`.
- `Cart.findOne({ guestId })` with an absent guest id is not modelled: its
  result depends on how the database driver treats an undefined filter
  value. The merge takes the guest id as a string.
- The checkout and order schemas are not part of this model. A new
  checkout is taken to start not finalized, with no payment time and no
  payment details. The shipping address and payment details are opaque
  strings.
- Checkouts.Ledger.Pay: re-stamping the payment time of a finalized
  checkout is allowed, as in the handler. No guard against it is modelled.
- CartStore.Store.Merge: this method implements the corrected merge (see
  Findings). The handler as written is `CartStore.MergeAsWritten`.
- The code and the design description disagree in three places. The
  model follows the code:
  - The code does not enforce "a cart has exactly one of user or guest id".
  - A paid checkout's status is the lowercase "paid". Only the order says
    "Paid".
  - Add does not check that a quantity is positive.

## Findings

| source | as written | input that shows it | evidently intended | confidence | as-written member | corrected member |
|---|---|---|---|---|---|---|
| routes/CartRoutes.js:209-244 | the guest-cart lookup and the user-cart lookup can return the same document, because a cart created by a logged-in user also gets a guest id (lines 68-69). Each of its lines is then added to itself, the doubled cart is saved, and `findOneAndDelete({ guestId })` deletes that document. | one stored cart with user "u", guest id "g" and 2 units of a line; user "u" merges guest id "g". The answer shows 4 units, and the store is left with no cart. | a cart that is both the guest's and the user's is kept as it is | medium, not executed | CartStore.MergeSharedCartAsWritten | CartStore.MergeCorrectedKeepsUserCart |
