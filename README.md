# Pet store: product store, testimonial store and carts

A Dafny model of the stateful logic of a small storefront web application
(pets, packages and equipment sold through a chat hand-off):

- **Product store** (`PetsApi`, for `app/api/pets/route.ts`): a process-wide
  list of catalog records. GET lists it. POST validates a record, assigns the
  id `max(ids) + 1` (or 1), coerces `stock` and defaults `status` to `"ready"`,
  then appends. PUT overwrites the record with the body's id. DELETE filters
  that id out and answers 404 when nothing was removed. The class `PetStore`
  keeps the record list in a `seq` field. Its invariant is that ids are
  pairwise distinct; it holds for the 23 seed records and every handler keeps
  it.
- **Testimonial store** (`TestimonialsApi`, for `app/api/testimonials/route.ts`):
  the same shape over testimonials with a three-value moderation status.
  POST always stores `pending`. PUT changes only the status, and only to one
  of the three names. GET first adopts a client-held copy of the list when
  that copy decodes to a non-empty array, then filters by status when a
  status is given.
- **Cart page** (`CartPage`, for `app/cart/page.tsx`): lines of (product,
  quantity). `updateQuantity` removes the line for a quantity of 0 or less
  and otherwise sets `min(quantity, stock)`. There are also remove, clear and
  the total item count. Checkout needs a non-empty cart and a payment method,
  and builds the order text.
- **Catalog page** (`CatalogPage`, for `app/page.tsx`): the catalog is shown
  in three category sections. A simple cart appends a product when it is in
  stock and ready. It never merges duplicates and never caps at stock.
  Checkout builds a shorter order text.

Each request handler is one atomic step. Its inputs are already decoded:
- A missing text field is `""`. Both are falsy in JavaScript.
- A request id is `Option<int>`. `!id` holds for None and for 0.
- `Number.parseInt` yields `Option<int>`, and `|| 0` turns None (NaN) into 0.
- A client-supplied list that is absent, empty, unparseable or not an array
  is None.

The error replies are the `Api.Reply` variants: `BadRequest` is HTTP 400 and
`NotFound` is HTTP 404. Success is 201 for the two POST handlers and 200
otherwise.

Each message is modelled as the newline-join of its template's lines. Lemmas
show that splitting the message at newlines gives back exactly those lines:
the greeting, one bullet per cart entry in cart order, then the footer. This
needs names, prices and the payment label to contain no newline.

A shopper might expect a cart to merge repeated products and to stay within
stock, and an API to trim its text fields and to check a record's status.
This code does none of these things, and the model does what the code does:
- The catalog cart does not merge a product that is already present and
  does not stop at stock. Each accepted add appends one more entry.
- Stock is not an invariant of the quantity cart. A loaded cart is taken as
  stored. Only `updateQuantity` clamps, and only the lines it touches.
- The server checks testimonial fields for falsiness only. It does not trim
  them; only the submission form does (components/testimonial-form.tsx:37).
- The product `status` and `category` are free strings on the server. PUT
  does not default `status`.
- The catalog's add button is disabled when `stock === 0 || status === "sold"`.
  `addToCart` tests `stock > 0 && status === "ready"`. The two agree when stock
  is not negative and the status is `ready` or `sold`. `AddButtonMismatch`
  gives the exact set of products whose button is enabled but whose add does
  nothing.

## Model

| member | source | states |
|---|---|---|
| `Seqs.Filter` | app/api/pets/route.ts:308 | every element of the result is an input element that the predicate keeps, every kept input element is in the result, and the result is no longer than the input |
| `Seqs.FilterAppend` | app/api/pets/route.ts:308 | filtering a concatenation concatenates the filtered parts, so a filter keeps the input order |
| `Seqs.FilterKeepsAll` | app/api/pets/route.ts:307-312 | a filter keeps the length exactly when it keeps every element, and then it returns its input unchanged (the length test DELETE uses) |
| `Seqs.FilterIdempotent` | app/cart/page.tsx:78-80 | filtering twice with one predicate equals filtering once |
| `Seqs.FilterCongruent` | app/api/testimonials/route.ts:64 | predicates that agree on every element give the same filter result |
| `Seqs.FilterPartition3` | app/page.tsx:59-61 | three predicates of which exactly one holds for every element split the sequence: the three multisets add up to the input's, and so do the lengths |
| `Seqs.FindIndex` | app/api/pets/route.ts:276 | -1 exactly when no element matches; otherwise the index of a matching element with no match before it |
| `Seqs.MaxId` | app/api/pets/route.ts:245 | 0 for no ids; otherwise one of the ids and at least every id |
| `Seqs.NextId` | app/api/pets/route.ts:245-248 | the assigned id is larger than every id in use, hence not in use, and is 1 for an empty store |
| `Seqs.Ids` | app/api/pets/route.ts:245 | the `map` to ids: one id per record, position by position. Both stores use it, with `PetsApi.ProductId` and `TestimonialsApi.TestimonialId` as the id |
| `Seqs.Without` | app/api/pets/route.ts:308 | the `filter((x) => x.id !== id)` that also serves app/api/testimonials/route.ts:171, app/cart/page.tsx:79 and app/page.tsx:46. No record with the id is left, and every record with another id is kept |
| `Api.MissingId` | app/api/pets/route.ts:303 | definition, no contract of its own: the `!id` test (also app/api/testimonials/route.ts:131 and 166). Every PUT and DELETE contract answers 400 whenever it holds; the testimonial PUT also answers 400 for a missing or unknown status |
| `Seqs.WithoutShrinksIffPresent` | app/api/pets/route.ts:307-312 | the delete filter shrinks its input exactly when the id is in use, and otherwise returns it unchanged: the length test behind both DELETE handlers' 404 (also app/api/testimonials/route.ts:170-175) |
| `Seqs.DeleteUndoesAppend` | app/api/pets/route.ts:253 | deleting the fresh id of a record just pushed gives back the store as it was before the push (also app/api/testimonials/route.ts:104) |
| `Seqs.WithoutDistinctRemovesOne` | app/api/pets/route.ts:308 | with distinct ids, deleting an id in use removes exactly one record |
| `Seqs.WithoutKeepsDistinct` | app/api/pets/route.ts:308 | deleting keeps ids distinct |
| `Text.Join` | app/cart/page.tsx:98 | joining no lines gives "" and joining one line gives that line |
| `Text.SplitLines` | app/cart/page.tsx:98 | splitting gives at least one line and no line contains a newline |
| `Text.SplitJoin` | app/cart/page.tsx:98 | splitting a newline-join of newline-free lines gives the lines back |
| `Text.JoinAppend` | app/cart/page.tsx:98 | joining two non-empty blocks puts exactly one newline between their joins |
| `Text.JoinFlatten` | app/cart/page.tsx:98-107 | a joined block placed as one template line reads as its lines in place |
| `Text.NoNewlineConcat` | app/cart/page.tsx:98 | a concatenation is newline-free exactly when both parts are |
| `Text.AllNoNewlineAppend` | app/cart/page.tsx:98-107 | two newline-free lists of lines make a newline-free list of lines |
| `Text.SplitLinesPrefix` | app/cart/page.tsx:98 | a newline-free prefix extends only the first line of the split |
| `Text.SplitLinesAfterNewline` | app/cart/page.tsx:98 | a leading newline adds an empty first line to the split |
| `Text.TemplateLines` | app/cart/page.tsx:98-107 | a template whose middle line is a joined block of bullets reads back line by line as its lines with the bullets in place, when no line and no bullet has a newline. Both checkout texts are proved through it |
| `Text.DigitChar` | app/cart/page.tsx:104 | the digit character for d is a decimal digit whose value is d |
| `Text.NatToString` | app/cart/page.tsx:104 | decimal digits only, at least one, with no leading zero except for 0 itself |
| `Text.IntToString` | app/cart/page.tsx:98 | a rendered integer has no newline, and it starts with a minus sign exactly when the number is negative |
| `Text.NatToStringRoundTrip` | app/cart/page.tsx:104 | the digits of a count read back as that count |
| `PetsApi.SeedIdsDistinct` | app/api/pets/route.ts:4-212 | the 23 seed records carry ids 1 to 23 in order, hence distinct ids |
| `PetsApi.Seed` | app/api/pets/route.ts:4-212 | definition, no contract of its own: the 23 `petsData` records, field by field. `SeedIdsDistinct` and `PetStore.constructor` are stated about it |
| `PetsApi.ProductId` | app/api/pets/route.ts:245 | definition, no contract of its own: the `p.id` key of the id map, the `findIndex` and the filter |
| `PetsApi.MissingRequired` | app/api/pets/route.ts:240 | definition, no contract of its own: the falsy test on name, price and category. `PetStore.Create` answers 400 exactly when it holds |
| `PetsApi.CoerceStock` | app/api/pets/route.ts:249 | definition, no contract of its own: `Number.parseInt(stock)`, with NaN and 0 read as 0. The stock clauses of `PetStore.Create` and `PetStore.Update` state it |
| `PetsApi.NewProduct` | app/api/pets/route.ts:246-251 | definition, no contract of its own: the record POST stores. `PetStore.Create` states its id, stock and status |
| `PetsApi.Replacement` | app/api/pets/route.ts:282-284 | definition, no contract of its own: the record PUT stores. `PetStore.Update` states where it goes and its stock |
| `PetsApi.PetStore.constructor` | app/api/pets/route.ts:4-212 | the store starts as the seed records, with distinct ids |
| `PetsApi.PetStore.List` | app/api/pets/route.ts:215-231 | GET returns the whole store in insertion order |
| `PetsApi.PetStore.Create` | app/api/pets/route.ts:234-264 | 400 with the store unchanged when name, price or category is empty. Otherwise it appends exactly one record. That record's id is `max + 1`: above every old id and 1 on an empty store. Its stock is the parsed value or 0, its status the body's or `"ready"`. Ids stay distinct |
| `PetsApi.PetStore.Update` | app/api/pets/route.ts:267-295 | 400 for a missing or zero id and 404 for an unknown id, with the store unchanged. Otherwise it overwrites exactly the first record with that id with the body, stock coerced. Length and all other records stay the same, and ids stay distinct |
| `PetsApi.PetStore.Delete` | app/api/pets/route.ts:298-323 | 400 for a missing or zero id and 404 for an unknown id, with the store unchanged. Otherwise the store is the filter without that id, exactly one record shorter, and ids stay distinct |
| `TestimonialsApi.ParseStatus` | app/api/testimonials/route.ts:135 | a status string is accepted exactly when it names one of the three statuses, and gives that status |
| `TestimonialsApi.StatusName` | app/api/testimonials/route.ts:8 | definition, no contract of its own: the three status strings of the interface. `ParseStatus` is its inverse |
| `TestimonialsApi.HasStatusName` | app/api/testimonials/route.ts:64 | definition, no contract of its own: `(t) => t.status === statusFilter`. `Listed`, `ListedByName` and `ApprovedListScenario` are stated about it |
| `TestimonialsApi.Synced` | app/api/testimonials/route.ts:28-58 | the store is replaced only by a client list that decoded to a non-empty array. Then it becomes that list; otherwise it is unchanged |
| `TestimonialsApi.TestimonialId` | app/api/testimonials/route.ts:96 | definition, no contract of its own: the `t.id` key of the id map, the `findIndex` and the filter |
| `TestimonialsApi.MissingRequired` | app/api/testimonials/route.ts:91 | definition, no contract of its own: the falsy test on username, petName and message. `TestimonialStore.Create` answers 400 exactly when it holds |
| `TestimonialsApi.LoadFromStorage` | app/api/testimonials/route.ts:28-41 | definition, no contract of its own: the decoded client list, or the current store. `Synced` states the sync rule built on it |
| `TestimonialsApi.Listed` | app/api/testimonials/route.ts:60-65 | with no status or an empty one, the whole store. Otherwise it holds only testimonials with that status name and every one of them |
| `TestimonialsApi.ListedByName` | app/api/testimonials/route.ts:64 | listing by a status's name is filtering by that status |
| `TestimonialsApi.ListsPartitionStore` | app/api/testimonials/route.ts:3-10 | the pending, approved and rejected lists together hold every testimonial exactly once |
| `TestimonialsApi.ListedKeepsOrder` | app/api/testimonials/route.ts:64 | the list of a concatenation is the concatenation of the lists: store order is kept |
| `TestimonialsApi.ApprovedListScenario` | app/api/testimonials/route.ts:64 | listing [pending, approved, approved, rejected] by "approved" gives the two approved ones in order |
| `TestimonialsApi.TestimonialStore.constructor` | app/api/testimonials/route.ts:13-23 | the store starts as the one pending sample testimonial |
| `TestimonialsApi.Seed` | app/api/testimonials/route.ts:13-23 | definition, no contract of its own: the one sample testimonial of `testimonialsData`, pending, with the load time as `createdAt`. `TestimonialStore.constructor` starts from it |
| `TestimonialsApi.TestimonialStore.List` | app/api/testimonials/route.ts:44-82 | GET first syncs the store with the client list, then returns the status list of the synced store |
| `TestimonialsApi.TestimonialStore.Create` | app/api/testimonials/route.ts:85-123 | 400 with the store unchanged when username, petName or message is empty. Otherwise it appends exactly one testimonial with id `max + 1`, status pending whatever the body said, and the given creation time. The reply's `allTestimonials` is the new store |
| `TestimonialsApi.TestimonialStore.SetStatus` | app/api/testimonials/route.ts:126-158 | 400 for a missing id or status or an unknown status name, and 404 for an unknown id, with the store unchanged. Otherwise only the status of the first testimonial with that id changes; every other field and record is kept |
| `TestimonialsApi.TestimonialStore.Delete` | app/api/testimonials/route.ts:161-189 | 400 for a missing or zero id and 404 for an unknown id, with the store unchanged. Otherwise every testimonial with that id is removed, the rest keep their order, and the reply carries the new store |
| `CartPage.LoadCart` | app/cart/page.tsx:42-54 | a stored list is restored exactly as stored; nothing stored or an unparseable value gives the empty cart |
| `CartPage.LineId` | app/cart/page.tsx:79 | definition, no contract of its own: the `item.id` key the cart removes and clamps by. `Seqs.Without` and `TotalAfterRemove` are used with it |
| `CartPage.WithQuantity` | app/cart/page.tsx:67-76 | `updateQuantity`. For a quantity of 0 or less, no line with the id is left and every other line is kept. Otherwise the cart keeps its length and every other line, and each line with the id keeps its product and gets `min(quantity, stock)`. `UpdateQuantityAbsentId` and `TotalAfterRemove` are proved about it |
| `CartPage.ClampQuantity` | app/cart/page.tsx:73-75 | length, order and products are unchanged, and lines with other ids are untouched. A line with the id gets a quantity of at most its stock: the requested one when it fits, otherwise the stock |
| `CartPage.ClampQuantityIdempotent` | app/cart/page.tsx:73-75 | clamping twice to the same quantity is clamping once |
| `CartPage.UpdateQuantityAbsentId` | app/cart/page.tsx:67-76 | updating the quantity of an id not in the cart changes nothing |
| `CartPage.NonPositiveQuantityRemoves` | app/cart/page.tsx:68-71 | a quantity of 0 or less does exactly what `removeFromCart` does |
| `CartPage.RemoveFromCartIdempotent` | app/cart/page.tsx:78-80 | removing an id twice is removing it once |
| `CartPage.TotalItemsAppend` | app/cart/page.tsx:86-88 | the total of two carts put together is the sum of their totals |
| `CartPage.TotalAfterRemove` | app/cart/page.tsx:78-88 | removing an id lowers the total by exactly the quantities of the lines with that id |
| `CartPage.TotalAfterRemoveSingle` | app/cart/page.tsx:78-88 | removing the only line with an id lowers the total by that line's quantity |
| `CartPage.TotalAfterClampSingle` | app/cart/page.tsx:73-75 | with one line for the id, a positive new quantity changes the total by `min(quantity, stock)` minus the old quantity |
| `CartPage.TotalItems` | app/cart/page.tsx:86-88 | `getTotalItems`, the `reduce` sum of the quantities: when every line has a quantity of at least 1, the total is at least the number of lines. `TotalItemsAppend`, `TotalAfterRemove`, `TotalAfterRemoveSingle`, `TotalAfterClampSingle` and `Cart.ClearCart` state how it responds to each cart action |
| `CartPage.PaymentLabel` | app/cart/page.tsx:97 | a known payment value gives its label; an unknown one renders as "undefined" |
| `CartPage.PaymentMethods` | app/cart/page.tsx:28-34 | definition, no contract of its own: the five (value, label) pairs of `PAYMENT_METHODS`, emoji included. `PaymentLabel` and `PaymentLabelNoNewline` are stated about it |
| `CartPage.PaymentLabelNoNewline` | app/cart/page.tsx:97-105 | every label the template can show, "undefined" included, is a single line. So `OrderMessageLines` applies to every text `Cart.HandleCheckout` returns for newline-free names and prices |
| `CartPage.OrderLineNoNewline` | app/cart/page.tsx:98 | a bullet line has no newline when the name and price have none |
| `CartPage.OrderLines` | app/cart/page.tsx:98 | definition, no contract of its own: the `cartItems.map(...)` bullets. `OrderLinesNoNewline` and `OrderMessageLines` are proved about it |
| `CartPage.OrderLine` | app/cart/page.tsx:98 | definition, no contract of its own: one bullet `• name - price (Qty: n)`. `OrderLineNoNewline` is proved about it |
| `CartPage.Footer` | app/cart/page.tsx:104-107 | definition, no contract of its own: the template lines after the bullets. `FooterNoNewline` and `OrderMessageLines` are proved about it |
| `CartPage.OrderMessage` | app/cart/page.tsx:98-107 | definition, no contract of its own: the order template as the join of its lines. `OrderMessageLines` reads it back line by line, and `Cart.HandleCheckout` returns it |
| `CartPage.FixedTextHasNoNewline` | app/cart/page.tsx:100-107 | the greeting and closing sentences are single lines |
| `CartPage.FooterNoNewline` | app/cart/page.tsx:104-107 | the footer lines have no newline when the payment label has none |
| `CartPage.OrderLinesNoNewline` | app/cart/page.tsx:98 | no bullet has a newline when no name or price has one |
| `CartPage.OrderMessageLines` | app/cart/page.tsx:98-107 | read line by line, the order text is the greeting, a blank line, one `• name - price (Qty: n)` per cart line in order, a blank line, `Total Item: <total> pcs`, the payment label line, a blank line and the closing |
| `CartPage.Cart.constructor` | app/cart/page.tsx:37-54 | the page starts with the loaded cart and no payment method |
| `CartPage.Cart.UpdateQuantity` | app/cart/page.tsx:67-76 | a quantity of 0 or less removes every line with the id; otherwise those lines are clamped to `min(quantity, stock)` |
| `CartPage.Cart.RemoveFromCart` | app/cart/page.tsx:78-80 | every line with the id is removed |
| `CartPage.Cart.ClearCart` | app/cart/page.tsx:82-84 | the cart is empty and its total is 0 |
| `CartPage.Cart.SelectPayment` | app/cart/page.tsx:257 | the chosen payment value is recorded |
| `CartPage.Cart.HandleCheckout` | app/cart/page.tsx:90-111 | no text exactly when the checkout button is disabled (empty cart or no payment method); otherwise the order text for the cart and the chosen method's label |
| `CartPage.Cart.CheckoutDisabled` | app/cart/page.tsx:274 | definition, no contract of its own: an empty cart or no payment method chosen, the checkout button's disabled test. `Cart.HandleCheckout` returns no text exactly when it holds |
| `CatalogPage.Added` | app/page.tsx:39-43 | accepted exactly when stock > 0 and status is "ready". An accepted product is appended as the last entry, one longer, with the old entries kept. Otherwise the cart is unchanged |
| `CatalogPage.CanAdd` | app/page.tsx:40 | definition, no contract of its own: the `stock > 0 && status === "ready"` test. `Added` accepts exactly when it holds |
| `CatalogPage.AddDisabled` | app/page.tsx:162 | definition, no contract of its own: the test that disables the add buttons, stock 0 or status "sold" (also lines 200 and 233). `AddButtonMatchesAdd` and `AddButtonMismatch` compare it with `CanAdd` |
| `CatalogPage.AddTwiceGivesTwoEntries` | app/page.tsx:41 | adding an accepted product twice gives two entries; nothing merges |
| `CatalogPage.AddButtonMatchesAdd` | app/page.tsx:160-165 | for any cart, a non-negative stock and status "ready" or "sold": the add button is disabled exactly when adding leaves the cart unchanged |
| `CatalogPage.AddButtonMismatch` | app/page.tsx:160-165 | the button is enabled while the add is refused exactly for a negative stock not sold, or a non-zero stock whose status is neither "ready" nor "sold"; a disabled button never blocks an accepted add |
| `CatalogPage.SectionsPartitionCatalog` | app/page.tsx:59-61 | when every category is one of the three, each product is in exactly one section and the sections together hold the catalog |
| `CatalogPage.SectionMembership` | app/page.tsx:59-61 | a catalog product is in a section exactly when it has that section's category |
| `CatalogPage.InCategory` | app/page.tsx:59-61 | definition, no contract of its own: `(pet) => pet.category === c`, the test behind the three sections. `SectionMembership` and `SectionsPartitionCatalog` are stated about it |
| `CatalogPage.SectionKeepsOrder` | app/page.tsx:59-61 | a section of a concatenated catalog is the concatenation of the sections: catalog order is kept |
| `CatalogPage.PetItems` | app/page.tsx:59 | definition, no contract of its own: the "pet" filter. `SectionMembership`, `SectionKeepsOrder` and `SectionsPartitionCatalog` are proved about it |
| `CatalogPage.PackageItems` | app/page.tsx:60 | definition, no contract of its own: the "package" filter. `SectionsPartitionCatalog` is proved about it |
| `CatalogPage.EquipmentItems` | app/page.tsx:61 | definition, no contract of its own: the "equipment" filter. `SectionsPartitionCatalog` is proved about it |
| `CatalogPage.OrderLines` | app/page.tsx:52 | definition, no contract of its own: the `cart.map(...)` bullets. `CheckoutMessageLines` is proved about it |
| `CatalogPage.OrderLine` | app/page.tsx:52 | definition, no contract of its own: one bullet `• name - price`. `OrderLineNoNewline` is proved about it |
| `CatalogPage.CheckoutMessage` | app/page.tsx:52-53 | definition, no contract of its own: the order text as the join of its lines. `CheckoutMessageLines` reads it back line by line, and `Storefront.HandleCheckout` returns it |
| `CatalogPage.OrderLineNoNewline` | app/page.tsx:52 | a bullet line has no newline when the name and price have none |
| `CatalogPage.CheckoutMessageLines` | app/page.tsx:52-53 | read line by line, the order text is the greeting, a blank line, one `• name - price` per cart entry in order, a blank line and the closing |
| `CatalogPage.Storefront.constructor` | app/page.tsx:19-21 | the page starts with an empty catalog and an empty cart |
| `CatalogPage.Storefront.FetchPets` | app/page.tsx:27-37 | a successful fetch replaces the catalog; a failed one keeps it |
| `CatalogPage.Storefront.AddToCart` | app/page.tsx:39-43 | the cart becomes `Added(cart, product)` |
| `CatalogPage.Storefront.RemoveFromCart` | app/page.tsx:45-47 | every entry with the id is removed, the rest keep their order |
| `CatalogPage.Storefront.HandleCheckout` | app/page.tsx:49-57 | no text exactly when the cart is empty (when the `Cart (n)` button is disabled); otherwise the order text |
| `CatalogPage.Storefront.CheckoutDisabled` | app/page.tsx:98 | definition, no contract of its own: `cart.length === 0`, the cart button's disabled test. `Storefront.HandleCheckout` returns no text exactly when it holds |

## Left out

- The `catch` branches answering 500: they come from runtime exceptions such as a body that is not JSON, which the decoded inputs here cannot produce.
- `NextResponse`, `request.json()`, query-string parsing and `console.log`. Each handler takes its inputs already decoded.
- Extra fields in a request body: POST copies them with `...body` and PUT stores them. Records here have exactly the fields of the source's interfaces.
- Ids of another JSON type, such as the string "3". `===` never matches them to a numeric id. Ids here are integers.
- Concurrent requests racing on the module-level arrays. Each handler is one sequential step.
- `JSON.parse`, `decodeURIComponent` and `localStorage`. A stored value is either a decoded list or None. Synced testimonials are assumed to match the `Testimonial` interface, and a stored cart that parses to a non-list value is not modelled.
- The cart page's save effect (app/cart/page.tsx:57-65): the stored value is the `cartItems` field after each action.
- `encodeURIComponent`, the chat URL, `window.open` and the `alert` shown without a payment method. The model produces the message text only.
- TestimonialsApi.TestimonialStore.Create: ids, stock, quantities and totals are unbounded integers here, but JavaScript numbers are doubles, exact only up to 2^53. So `max + 1` gives a fresh id in the program only while every id is below 2^53. A synced client list can hold a larger id (or `1e400`, which parses to Infinity), and then the POST reuses an id; the contract's "above every old id" does not hold of the program there. Product ids are not affected: they start from the seed's 23 and grow by one per POST.
- Rendering a number that is not an integer, or one of 1e21 or more, in a template (JavaScript would use a fraction or an exponent). Quantities and totals are integers here.
- The cart page's +/- buttons (app/cart/page.tsx:200-218). They only call `updateQuantity` with the current quantity plus or minus 1, behind enabling tests.
- React state scheduling and the `loading` flags.
- The admin page, the testimonial form and the testimonials display. They are UI and `fetch` calls over the handlers modelled here.
- Distinct ids are not an invariant of the testimonial store, because a sync can adopt any client list. That is why `TestimonialsApi.TestimonialStore.Delete` promises only that the store shrinks.
