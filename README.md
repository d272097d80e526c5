# Storefront cart and checkout: a Dafny model

This project models the core of a small storefront. There are two sides.

The browser side is `app.js`. It keeps one shared `state` record: the catalog (`products`), the visible products (`filtered`), the `cart` and the `activeTab`. The event handlers change that record one step at a time. This becomes the class `Storefront.Shop`, with one method per handler:

- load the catalog;
- `applyFilter`;
- `addToCart`;
- the +/− row buttons;
- Clear;
- card checkout.

Each method is stated against a pure function of the old state (`AddLine`, `ChangeLine`, `FilterByTab`), and the lemmas about those functions carry the properties. The badge count and the cart total are left folds over the cart, as `reduce` is. Checkout has two pure parts: turning the cart into request `items`, and classifying the reply as a redirect or an error hint.

The server side is two serverless functions that create a Stripe Checkout session: the Netlify function and the Vercel function under `api/`. Each is a pure function from an abstract request to an abstract response. The price table is a `map<string, string>`. Stripe session creation, `new URL(...).origin` and the secret key are parameters. The parts both functions share are in `StripeSession`: price lookup, quantity clamp, `items.map`, and the redirect URLs. `CheckoutFlow` connects the two sides. The cart the page sends is charged line for line, and each answer of an endpoint reaches the page as a redirect or as an error hint.

Modules (one file each):

- `Wire`: `Option`, JavaScript string truthiness, and the request `Item`.
- `Storefront`: app.js.
- `StripeSession`: what both endpoints share.
- `NetlifyCheckout`: netlify/functions/create-checkout-session.js.
- `VercelCheckout`: api/create-checkout-session.js.
- `CheckoutFlow`: the page and the Vercel endpoint together (the page posts to `/api/create-checkout-session`), plus the Netlify error path.

Modelling choices:

- Prices are integer cents.
- Quantities are integers. A request `qty` of 0 stands for any falsy quantity.
- A string field is truthy when it is present and not empty.
- A thrown exception is an `Attempt.Threw(message)`.
- `Shop.Valid()` is the class invariant: no two cart lines share an id and every qty is at least 1. The constructor and `Clear` establish it; `LoadProducts`, `ApplyFilter`, `AddToCart` and `ChangeQuantity` require it and keep it; `CheckoutStripe` changes nothing.

The code keys cart lines by id alone, has no stock check, no text query and no return handler:

- Cart lines are keyed by product id alone. There are no size/colour variants, and the request's `size` and `color` are always null.
- There is no stock check.
- The filter is by tab only. There is no text query.
- There is no success/cancel return handler on the page. The redirect URLs carry the `?success=true` / `?canceled=true` markers, but nothing reads them, and nothing clears the cart after payment.

## Model

| member | source | states |
|---|---|---|
| `Storefront.Shop.constructor` | app.js:2-7 | the initial state: empty catalog, empty filtered list, empty cart, tab "all" |
| `Storefront.Shop.LoadProducts` | app.js:22-29 | a feed that failed or is not an array leaves the catalog empty; afterwards the "all" tab is applied, so the filtered list is the catalog; the cart is untouched |
| `Storefront.Shop.ApplyFilter` | app.js:34-38 | sets the active tab to `tab` and the filtered list to the tab's products, an order-preserving subsequence of the catalog; for "all" it is the catalog; otherwise a product is shown iff it is in the catalog with that category; catalog and cart unchanged |
| `Storefront.FirstIndex` | app.js:104-106 | -1 iff no element has the id; otherwise the index of the first element with that id |
| `Storefront.ProductIndex` | app.js:104 | -1 iff no product has the id; otherwise the index of the first product with that id |
| `Storefront.LineIndex` | app.js:106 | -1 iff no cart line has the id; otherwise the index of the first line with that id |
| `Storefront.UnitPrice` | app.js:145-146 | a catalog id gets the price of its first product; 0 when no product has the id; non-negative when all catalog prices are |
| `Storefront.FilterByTab` | app.js:35-37 | the visible list is never longer than the catalog and shows only catalog products |
| `Storefront.ByCategory` | app.js:37 | the category filter never grows the list and keeps only products of the catalog with that category |
| `Storefront.ByCategoryIsSubsequence` | app.js:37 | the category filter keeps catalog order: its result is a subsequence of the catalog |
| `Storefront.ByCategoryMultiplicity` | app.js:37 | a product of the category appears as many times as in the catalog, any other product never |
| `Storefront.FilterByTabSpec` | app.js:35-37 | "all" gives the catalog itself; another tab gives exactly the products of that category with their catalog multiplicities, in catalog order |
| `Storefront.SubsequenceReflexive` | app.js:36 | the unfiltered list is trivially an order-preserving subsequence of the catalog |
| `Storefront.AddLine` | app.js:103-108 | the cart grows by one line exactly when the id is in the catalog but not in the cart; lines of other ids are untouched |
| `Storefront.Shop.AddToCart` | app.js:103-108 | the new cart is `AddLine` of the old one; the badge count rises by 1 iff the id is in the catalog; the cart invariant `Valid()` is kept; catalog, filter and tab unchanged |
| `Storefront.AddLineSpec` | app.js:104-108 | an unknown id leaves the cart unchanged; an id already in the cart gives the cart with only that line's qty raised by 1 (its id, name and price as they were); otherwise exactly one line of qty 1 with the product's name and price is appended |
| `Storefront.AddLineCount` | app.js:104-108 | the badge count rises by exactly 1 for a catalog id and is unchanged otherwise |
| `Storefront.AddLineValid` | app.js:106-108 | on a valid cart, ids stay unique and every qty stays >= 1 |
| `Storefront.AddTwice` | app.js:106-108 | adding the same catalog product twice to a cart without it gives a single line of qty 2 |
| `Storefront.AddLineTotal` | app.js:104-108 | adding a known product raises the total by that product's current catalog price |
| `Storefront.ValidAppend` | app.js:108 | appending a line with a fresh id and qty >= 1 keeps the cart valid |
| `Storefront.ChangeLine` | app.js:168-173 | the cart never grows, and loses lines only when the pressed row's qty steps to 0 |
| `Storefront.Shop.ChangeQuantity` | app.js:168-173 | the new cart is `ChangeLine` of the old one; the cart invariant `Valid()` is kept and the badge count moves by +1 for "+", -1 for "-", 0 for an id not in the cart |
| `Storefront.ChangeLineSpec` | app.js:168-173 | an id not in the cart is a no-op; "+" gives the cart with only that line's qty raised by 1; on a valid cart "-" gives the cart with only that line's qty lowered by 1, or without exactly that line when its qty was 1 |
| `Storefront.ChangeLineValid` | app.js:171-173 | on a valid cart, ids stay unique and every qty stays >= 1: a line never stays at 0 |
| `Storefront.ChangeLineCount` | app.js:171-173 | on a valid cart the badge count moves by +1 for "+", -1 for "-", 0 for an id not in the cart |
| `Storefront.RemoveId` | app.js:173 | the filter never grows the cart and keeps no line of the removed id |
| `Storefront.RemoveIdMultiplicity` | app.js:173 | a line of another id is kept as often as the cart holds it; a line of the removed id never |
| `Storefront.RemoveIdSpec` | app.js:173 | the filter keeps exactly the lines of other ids, each with its multiplicity in the cart, as an order-preserving subsequence |
| `Storefront.RemoveUnique` | app.js:173 | with unique ids, filtering out a line's id removes exactly that line |
| `Storefront.RemoveAbsent` | app.js:173 | filtering out an id no line has leaves the cart unchanged |
| `Storefront.RemoveIgnoresQty` | app.js:172-173 | the line whose qty was just set is removed by the filter whatever that qty is |
| `Storefront.ValidWithQty` | app.js:171-172 | setting one line's qty to a value >= 1 keeps the cart valid |
| `Storefront.ValidWithout` | app.js:173 | dropping one line keeps the cart valid |
| `Storefront.Shop.Clear` | app.js:165 | the cart is empty, the badge count is 0 and `Valid()` holds; everything else unchanged |
| `Storefront.CartCount` | app.js:97 | on a cart whose quantities are all >= 1, the badge count is at least the number of lines |
| `Storefront.CountAppend` | app.js:97 | the count of a concatenation is the sum of the counts |
| `Storefront.CountWithQty` | app.js:97 | changing one line's qty changes the count by exactly the difference |
| `Storefront.CountAround` | app.js:97 | the count splits into the lines before, the line itself, and the lines after |
| `Storefront.CartTotal` | app.js:144-147 | with non-negative catalog prices and positive quantities, the total is non-negative |
| `Storefront.TotalAppend` | app.js:144-147 | the total of a concatenation is the sum of the totals |
| `Storefront.TotalPush` | app.js:144-147 | pushing a line adds its qty times its current unit price to the total |
| `Storefront.TotalStep` | app.js:144-147 | one more unit on a line adds that line's current unit price to the total |
| `Storefront.TotalWithQty` | app.js:144-147 | changing one line's qty changes the total by the current unit price times the difference |
| `Storefront.TotalIgnoresStoredFields` | app.js:144-147 | only ids and quantities decide the total; the name and price stored on the lines are never read |
| `Storefront.TotalSkipsUnknown` | app.js:145-146 | a line whose id is not in the catalog contributes 0, wherever it stands |
| `Storefront.ItemOf` | app.js:190-193 | the item keeps the line's id, has the line's qty when that is non-zero and 1 when it is 0, and no size or colour |
| `Storefront.Serialize` | app.js:189-194 | one item per line, same length and order, with `qty` 1 when falsy and size/colour null |
| `Storefront.SerializeValidCart` | app.js:189-194 | for a valid cart each item carries its line's own id and qty, and item ids are unique |
| `Storefront.ErrorHint` | app.js:212 | the error hint is never empty |
| `Storefront.ErrorHintOrder` | app.js:212 | the hint is the first non-empty of `data.hint`, `data.error` and the raw text, else "Unknown error"; without parsed data it is the raw text, else "Unknown error" |
| `Storefront.Classify` | app.js:207-217 | a redirect iff the reply is ok and has a non-empty url, to that url; otherwise an error whose hint is `ErrorHint` of the reply, never empty; a thrown exception gives the fixed network-issue hint |
| `Storefront.Shop.CheckoutStripe` | app.js:183-218 | an empty cart produces the local empty-cart outcome and sends nothing; otherwise the serialised cart is sent and the result classified |
| `StripeSession.IsMapped` | netlify/functions/create-checkout-session.js:33-34 | an id is priced exactly when the table has a non-empty entry for it, the truthiness test of `prices[it.id]` (also api/create-checkout-session.js:11-12) |
| `StripeSession.Quantity` | netlify/functions/create-checkout-session.js:35 | the quantity is always >= 1, equal to the input when that is >= 1, else 1 (also api/create-checkout-session.js:13) |
| `StripeSession.MapLineItems` | netlify/functions/create-checkout-session.js:32-36 | succeeds iff every id has a truthy price; then same length and order, each price `prices[id]`, each quantity clamped; otherwise it names the first unmapped id (also api/create-checkout-session.js:10-14) |
| `StripeSession.SessionRequest` | netlify/functions/create-checkout-session.js:47-49 | the session request carries the given line items, and distinct success and cancel URLs (also api/create-checkout-session.js:16-19) |
| `StripeSession.SessionRequestSpec` | netlify/functions/create-checkout-session.js:48-49 | success and cancel URLs are the origin followed by `/?success=true` and `/?canceled=true`, and are never equal (also api/create-checkout-session.js:19) |
| `NetlifyCheckout.Handle` | netlify/functions/create-checkout-session.js:13-60 | status 405 iff the method is not POST, with a plain-text body; 400 iff a POST with the secret set whose items are not a non-empty array, with `No items`; every 500 carries `server_error` and a non-empty hint; 200 carries a url |
| `NetlifyCheckout.ServerError` | netlify/functions/create-checkout-session.js:53-58 | status 500 with `server_error`; the hint is the error's message when that is non-empty, else `unknown` |
| `NetlifyCheckout.Origin` | netlify/functions/create-checkout-session.js:38-40 | a non-empty origin header is taken as is; only parsing a non-empty referer (with no origin header) can throw |
| `NetlifyCheckout.MissingSecret` | netlify/functions/create-checkout-session.js:20-25 | a POST without the secret gives 500 with hint `STRIPE_SECRET_KEY not set`, whatever the body |
| `NetlifyCheckout.OriginChoice` | netlify/functions/create-checkout-session.js:38-40 | the origin is the origin header if non-empty, else the referer's origin if the referer is non-empty, else "" |
| `NetlifyCheckout.UnmappedItem` | netlify/functions/create-checkout-session.js:32-34 | an item without a price gives 500 with a hint naming the first unmapped id, and the answer does not depend on session creation or URL parsing |
| `NetlifyCheckout.SessionOutcome` | netlify/functions/create-checkout-session.js:42-57 | a POST with the secret set, a non-empty array of priced items and a resolved origin creates the session from those line items and that origin's URLs; a created session answers 200 with its url, a thrown error the 500 with its message |
| `NetlifyCheckout.UnreadableHint` | netlify/functions/create-checkout-session.js:26-58 | a POST with the secret set whose body `JSON.parse` (line 27) rejects gets the catch block's 500 with that error's message as hint |
| `NetlifyCheckout.OriginThrowsHint` | netlify/functions/create-checkout-session.js:38-40 | a POST with the secret set and priced items whose referer `new URL` rejects gets the catch block's 500 with that error's message as hint, before any session is requested |
| `NetlifyCheckout.Success` | netlify/functions/create-checkout-session.js:32-52 | a 200 answer means all items mapped, the session was created from line items of the same length and order with table prices and quantities >= 1 and from the origin-based redirect URLs, and the body holds that session's url |
| `VercelCheckout.Handle` | api/create-checkout-session.js:5-24 | status 405 iff the method is not POST; 400 iff a POST whose items are not a non-empty array; every 500 is `{error: 'Server error'}`; no error body carries a hint; 200 carries a url |
| `VercelCheckout.Origin` | api/create-checkout-session.js:15 | the origin is non-empty exactly when the origin header is, and then it is that header |
| `VercelCheckout.UnmappedItem` | api/create-checkout-session.js:10-12 | an item without a price gives the generic 500, whatever session creation would do |
| `VercelCheckout.SessionOutcome` | api/create-checkout-session.js:10-23 | a POST with a non-empty array of priced items creates the session from those line items and the origin header's URLs; a created session answers 200 with its url, a thrown error the generic 500 |
| `VercelCheckout.Success` | api/create-checkout-session.js:10-22 | a 200 answer means the session was created from line items of the same length and order with table prices and quantities >= 1 and from URLs built on the origin header (or ""), and the body holds that session's url |
| `CheckoutFlow.ValidCartIsCharged` | app.js:189-200 | for a valid, non-empty, fully priced cart the endpoint's line items are the cart's lines in order with their own quantities, and the answer is 200 or 500 |
| `CheckoutFlow.CheckoutRedirects` | app.js:207-209 | when creating the session for this cart's line items and origin yields a non-empty url, checkout of a valid, fully priced cart redirects the page to exactly that url |
| `CheckoutFlow.VercelErrorsReachPage` | app.js:212 | every non-200 answer of the Vercel endpoint shows the endpoint's error text as the page's hint |
| `CheckoutFlow.NetlifyErrorsReachPage` | app.js:212 | every non-200 answer of the Netlify endpoint is an error on the page: the plain-text body for 405, "No items" for 400, the server's hint for 500 |

## Left out

- DOM rendering and event binding. This covers `$`, `$$`, `render`, `renderTabs`, `renderGrid`, the cart panel HTML and the open/close classes. It is presentation only, so nothing is modelled of the re-rendering after each handler.
- `money` formatting with `toFixed`. It is floating-point string formatting; prices are integer cents here.
- Fetching `products.json`. This is I/O. `Shop.LoadProducts` takes the parsed array, or `None` when fetching or parsing failed.
- `window.location.href`, `alert`, `console.error`, the `fetch` POST and `res.text()`. These are platform effects. The POST is the `send` parameter of `Shop.CheckoutStripe`. The alert text is "Stripe checkout error: " followed by the outcome's hint.
- `JSON.parse` and `JSON.stringify` internals. A reply's parse is an `Option` of three optional string fields. A body that is not JSON leaves `data` as `{}`. The raw text of a JSON body is a parameter. A non-string `url`, `hint` or `error` is not modelled.
- Stripe SDK construction and `stripe.checkout.sessions.create`. These are foreign calls. Session creation is a function parameter that returns the url or throws. The fixed session options are only constants: payment mode, promotion codes, US/CA shipping, required billing address.
- The Netlify module-level secret check and `new Stripe(secret)` at load time. Only the per-request check on the secret is modelled.
- `parseInt` on strings, the NaN case and very large numbers. `Math.max(1, NaN)` is NaN, but quantities here are integers. `StripeSession.Quantity` returns a large qty unchanged. In JavaScript, a qty of 10^21 or more is read through its exponent form ("1e+21" gives 1), and numbers above 2^53 are not exact.
- Items that are not objects. `it.id` on `null` throws inside the map, which yields a 500. Every item here is a record.
- Price ids that hit inherited object properties, such as `prices["constructor"]`. Those are truthy in JavaScript. Here, an id is priced only when the table has a non-empty entry for it.
- `it.id` that is `undefined`. Ids here are always strings.
- Reading environment variables and the `DOMContentLoaded` hook. Both are platform plumbing.
- Identity of line objects. Lines are values in a sequence, so `existing.qty += 1` becomes an update at the line's index. The same holds for the aliasing of `filtered` with `products` under the "all" tab.
- `Storefront.ChangeLineSpec`: its "+" clause excludes a line at qty -1. That line would go to 0 and be removed, exactly as the code does. Such a line cannot arise from the handlers.
