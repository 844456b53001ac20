# Las Valkyrie storefront: cart and catalog model

A Dafny model of the in-memory logic of the Las Valkyrie shop client (`app.js`):
the product catalog and its filter, the shopping cart with its stock bounds, the
cart total, HTML escaping of user text, the checkout decision and the admin
product-form checks. The DOM, the network and the timers are stripped away: what
the user typed arrives as arguments, and what the order service answered arrives
as an abstract `Accepted | Refused(message)` reply.

Modules, leaf first:

- `Results` (`results.dfy`): `Option` and `Result`.
- `Seqs` (`seqs.dfy`): the subsequence relation used to say "same order, some elements dropped".
- `Text` (`text.dfy`): ASCII lower-casing, `includes` substring search, `trim` over the ECMAScript whitespace set.
- `Escape` (`escape.dfy`): `escapeHtml` as five chained replacements, its per-character reading, and a decoder.
- `Catalog` (`catalog.dfy`): `Product`, lookup by id, `validateQuantity`, `filterProducts`.
- `CartStore` (`cart.dfy`): `LineItem`, `addToCart`, `removeFromCart`, `updateCartQuantity`, the total, the cart invariant.
- `Checkout` (`checkout.dfy`): the checkout dialog's empty-cart gate, `processCheckout`'s checks and cart clearing.
- `Admin` (`admin.dfy`): `saveProduct`'s form checks and `getStatusBadgeClass`.

The cart invariant `CartStore.Valid` says there is at most one line per product id
and every line holds at least one unit and, while its product is in the catalog,
no more than its stock. Adding, removing and adjusting all keep it.

Three behaviours of the code worth knowing when reading the model:

- `processCheckout` itself accepts an empty cart. Only opening the checkout dialog
  refuses one (app.js:288-291), modelled as `Checkout.OpenCheckout`.
- The customer name and the Discord id are both required (app.js:327-335).
- A failed catalog load leaves an empty product list (app.js:74). The load itself is
  network I/O and is not modelled.

## Model

| member | source | states |
|---|---|---|
| `Text.Lower` | app.js:145 | lower-casing keeps the length and lower-cases each character on its own, ASCII letters only |
| `Text.Includes` | app.js:155-156 | every text includes the empty search text, and a text only includes search texts no longer than itself |
| `Text.IncludesIffOccursAt` | app.js:155-156 | the substring test used by the search holds exactly when some position of the text starts a copy of the search text |
| `Text.Trim` | app.js:323-325 | trimming returns a contiguous slice of the input with only whitespace cut away on either side, with no whitespace left at either end, and is empty exactly when the input is all whitespace |
| `Escape.EscapeHtml` | app.js:773-781 | escaped text contains no `<`, `>`, `"` or `'` |
| `Escape.EscapeHtmlIsPerCharacter` | app.js:775-780 | because `&` is replaced first, the five chained replacements equal escaping each character on its own, so no entity is escaped twice |
| `Escape.UnescapeEscapeHtml` | app.js:773-781 | decoding the five entities recovers the original text exactly |
| `Catalog.FindIndex` | app.js:133 | lookup finds the first product with the id, and finds none exactly when no product has it |
| `Catalog.FindProduct` | app.js:165 | the product found is the first one in the catalog carrying the requested id; none is found exactly when no product has it |
| `Catalog.QuantityOrOne` | app.js:172 | an unparsable or zero quantity field reads as exactly 1; any other number is taken as entered |
| `Catalog.ValidateQuantity` | app.js:132-141 | the quantity field is clamped into 1..stock (to the stock itself when the stock is below 1): an in-range value is kept, a value above the stock becomes the stock, an empty or sub-1 value becomes 1, and an unknown product yields no value |
| `Catalog.ByCategory` | app.js:149-151 | the category filter keeps, in catalog order, every copy of each product of that category and nothing else |
| `Catalog.BySearch` | app.js:153-158 | the search filter keeps, in catalog order, every copy of each product whose lower-cased name or non-empty description contains the search text, and nothing else |
| `Catalog.FilterProducts` | app.js:143-161 | the filter returns a subsequence of the catalog holding every copy of each product, and only those, that match the category (when one is chosen) and the lower-cased search text (when one is given), and the whole catalog when neither is |
| `Catalog.FilterIgnoresSearchCase` | app.js:145 | search texts that lower-case alike select the same products |
| `CartStore.FindLine` | app.js:184 | the line found is the first one for the product id, and none is found exactly when no line has it |
| `CartStore.AddToCart` | app.js:164-206 | for a quantity already read from the field: unknown product, quantity below 1, quantity above stock and merged quantity above stock are refused in that order; otherwise the existing line's quantity grows by the request with every other line unchanged, or one line copied from the catalog entry is appended |
| `CartStore.AddToCartFromField` | app.js:164-206 | the raw quantity field is read as at app.js:172: an empty, unparsable or zero field adds one unit, and only a negative number is refused as below one |
| `CartStore.AbsentIffNoLine` | app.js:184 | no line carries the product id exactly when the line lookup comes back empty |
| `CartStore.RemoveFromCart` | app.js:208-212 | removal keeps, in order, exactly the lines of other products and drops as many lines as the product had |
| `CartStore.UpdateCartQuantity` | app.js:214-230 | a product without a line is a no-op; a result below 1 removes the product; exceeding the stock is refused only for a product still in the catalog; otherwise only that line's quantity changes |
| `CartStore.CartTotal` | app.js:248-251 | the running left-to-right sum equals the sum of price times quantity over the lines |
| `CartStore.TotalAppend` | app.js:337 | the total of two carts placed one after the other is the sum of their totals |
| `CartStore.EmptyCartValid` | app.js:4 | the empty cart satisfies the cart invariant and totals 0 |
| `CartStore.AddToCartPreservesValid` | app.js:184-200 | a successful addition keeps at most one line per product and every quantity between 1 and the stock |
| `CartStore.AddToCartQuantities` | app.js:186-200 | the product's quantity in the cart grows by exactly the accepted amount; every other product's quantity is unchanged |
| `CartStore.AddToCartTotal` | app.js:186-200 | a successful addition raises the total by the line's price times the added quantity, using the price already in the cart when merging |
| `CartStore.RemoveFromCartIdempotent` | app.js:209 | removing the same product twice is the same as removing it once |
| `CartStore.RemoveUniqueLine` | app.js:209 | in a valid cart, removal cuts out exactly the product's one line |
| `CartStore.RemoveFromCartTotal` | app.js:209 | in a valid cart, removal lowers the total by exactly the removed line's price times quantity |
| `CartStore.AddThenRemove` | app.js:194-209 | adding a new product and removing it again restores the cart and its total |
| `CartStore.RemoveFromCartPreservesValid` | app.js:208-209 | removal keeps the cart invariant and leaves no line for the product |
| `CartStore.UpdateCartQuantityPreservesValid` | app.js:214-230 | a successful quantity adjustment keeps the cart invariant |
| `CartStore.UpdateToZeroIsRemove` | app.js:217-219 | taking away a line's whole quantity is the same as removing the product |
| `CartStore.ValidatedQuantityAccepted` | app.js:132-141 | for a product in stock and not yet in the cart, the clamped field value is accepted by the add operation |
| `CartStore.DoubleAddScenario` | app.js:184-192 | with a stock of 5, adding 3 succeeds, adding 3 more is refused, and the cart still holds 3 |
| `Checkout.OpenCheckout` | app.js:287-311 | the checkout dialog refuses exactly the empty cart and otherwise shows the cart total |
| `Checkout.PrepareOrder` | app.js:322-345 | a blank name or a blank Discord id is refused, name first; otherwise the order carries the cart, its total, and the trimmed fields escaped with `escapeHtml`, which decode back to the trimmed inputs |
| `Checkout.ProcessCheckout` | app.js:322-380 | the cart is cleared exactly when the checks pass and the service accepts the order, and is otherwise left unchanged; a refusal without a message gets the default one |
| `Checkout.RetryAfterRefusal` | app.js:367-379 | after a refusal, retrying with the same form and an accepting service places the same order as a first success would |
| `Admin.ValidateProductForm` | app.js:536-569 | the form is accepted exactly when name is non-blank, a category is chosen and price and stock are non-negative numbers, each of the four checks is reported exactly when it is the first to fail, and the record carries the trimmed name and description escaped with `escapeHtml`, which decode back to the trimmed inputs |
| `Admin.StatusBadgeClass` | app.js:709-717 | the neutral badge class is returned exactly for statuses outside the four known ones |
| `Admin.StatusBadgeClassInjective` | app.js:709-717 | different known statuses get different badge classes |

## Left out

- Checkout.ProcessCheckout: the asynchronous submission (`await fetch`, app.js:352) is one atomic step, so cart edits or a second submission while the request is pending are not modelled; the source clears whatever the cart holds when the answer arrives (app.js:369).
- Every `fetch` call, JSON parsing and HTTP status handling: the order service's answer is the `Checkout.Reply` input, and the product, order and login requests are not modelled.
- Loading the catalog (`loadProducts`, `loadAdminProducts`), which is network I/O; the catalog is a parameter of every operation.
- Rendering (`displayProducts`, `updateCartDisplay` markup, `displayAdminProducts`, `displayAdminOrders`, `showSection`, `addLogoutButton`), `showAlert` and its timer, modals and `confirm`: user-interface concerns.
- The alert texts: each refusal is a constructor of an error datatype instead of a message.
- Floating-point prices and `toFixed(2)`: prices are integer cents, so totals are exact.
- `parseInt`/`parseFloat` of input fields: the parsed number arrives as an `Option<int>`, with `None` for NaN.
- Text.Lower: only ASCII letters are lower-cased; JavaScript's full Unicode `toLowerCase` is not modelled.
- Escape.EscapeHtml: the pass-through of non-string arguments (`typeof unsafe !== 'string'`) is not modelled, since every caller in the model passes text.
- Date formatting and the shortened order id of the admin order list: presentation only.
- The admin login flag (`isAdminLoggedIn`), set on a successful login and cleared on logout, and `editingProductId`, which only selects the HTTP method of `saveProduct`.
