# Storefront commerce core in Dafny

A model of the commerce rules of a small beauty-products storefront. The
backend is a FastAPI service over MongoDB; the frontend is a set of React
pages. The model covers:

- **Server** (`backend/server.py`): the cart, wishlist, address, order and
  product routes over in-memory tables. The `Store` class holds one field per
  Mongo collection. The index loops of `add_to_cart` and `update_cart_item`
  are methods proved equal to the functions `Merged` and `Updated`.
- **Pricing** (`CartPage.js`, `CheckoutPage.js`): the effective price
  `offer_price || price` and the subtotal over resolved lines. Shipping is
  free above 500 and 50 otherwise. It also covers the product map both pages
  build from their product fetches.
- **CartView** (`CartPage.js`): what the cart page shows, the quantity
  stepper's guard and the coupon check, which changes nothing.
- **Checkout** (`CheckoutPage.js`): the order request. It is refused
  without an address. Its items are a one-per-line price snapshot and its
  total is the one on screen. The module also covers address selection and
  the empty-cart redirect.
- **Admin** (`AdminDashboard.js`): revenue and counts, the product form
  codec (split and trim on save, join on edit) and its round trip, form
  resets and the order-status control.
- **Session** (`App.js`): the cart badge count, login, logout, the
  stored-token start-up and the route guards.
- **Catalog** (`ProductListPage.js`): query parameters built from the
  non-empty filters, and the in-place sorts. Each sort is an insertion sort
  on an `array`, proved sorted and a permutation.
- **ProductDetail** (`ProductDetailPage.js`): the quantity stepper, the
  related-products strip, the login guards and the wishlist toggle.
- **Common**, **Text** and **Models**: shared vocabulary. `Text` holds the
  JavaScript string built-ins the pages use: `trim`, `split(',')`, `join`,
  `toLowerCase`, and number printing and parsing. `Models` holds the
  pydantic models.

Replies of the backend, the product fetches of a page, generated uuids and
the signed-in user are parameters. A client-side reply is a `Result`: the
body, or a failure status. A number that `parseFloat` cannot read (`NaN`,
sent as JSON `null`) is `None`.

Two behaviours of the code worth knowing:

- Cart lines are a list with a quantity of any integer. `add_to_cart` does
  not reject a quantity below 1. Uniqueness of product ids and positive
  quantities are therefore proved as invariants that the merge and update
  preserve (`MergedKeepsUnique`, `MergedKeepsPositive`, `UpdatedKeepsPositive`).
  They are not built into the type.
- Editing a product replaces the whole document with the model's defaults
  for the fields the form lacks. So rating, review count and stock are
  reset (`EditThenSaveRoundTrip`).

## Model

| member | source | states |
|---|---|---|
| Common.Take | backend/server.py:183 | `to_list(n)` / `slice(0, n)`: a prefix of length min(\|s\|, n) |
| Text.Trim | frontend/src/pages/AdminDashboard.js:74 | the result is a middle part of the input with only whitespace cut away before and after it, and has no whitespace left at either end |
| Text.TrimOfTrimmed | frontend/src/pages/AdminDashboard.js:74 | trimming a trimmed string changes nothing |
| Text.TrimDropsLeadingSpace | frontend/src/pages/AdminDashboard.js:74 | a leading space is removed by trim |
| Text.TrimDropsTrailingSpace | frontend/src/pages/AdminDashboard.js:74 | a trailing whitespace character is removed by trim |
| Text.TrimAll | frontend/src/pages/AdminDashboard.js:74 | `map(img => img.trim())`: same length, each piece trimmed |
| Text.TrimAllOfTrimmed | frontend/src/pages/AdminDashboard.js:74 | trimming already-trimmed pieces is the identity |
| Text.SplitComma | frontend/src/pages/AdminDashboard.js:74 | `split(',')`: at least one piece, none containing a comma |
| Text.SplitThenJoin | frontend/src/pages/AdminDashboard.js:74 | joining the pieces with `,` gives back the string |
| Text.JoinThenSplitTrim | frontend/src/pages/AdminDashboard.js:106 | comma-free words joined with `", "` then split and trimmed give the trimmed words |
| Text.LowerChar | frontend/src/pages/CartPage.js:82 | `toLowerCase` on one character: A–Z shifted by 32, everything else unchanged |
| Text.Lower | frontend/src/pages/CartPage.js:82 | same length, lower-cased character by character |
| Text.ShowNat | frontend/src/pages/AdminDashboard.js:102 | `toString` of a natural: non-empty digits, no leading zero |
| Text.ShowNatValue | frontend/src/pages/AdminDashboard.js:102 | the printed digits denote the number |
| Text.DigitRunOfDigits | frontend/src/pages/AdminDashboard.js:72 | `parseFloat` reads the whole of a digit string |
| Text.ParseShowNumber | frontend/src/pages/AdminDashboard.js:72-73 | `parseFloat(n.toString()) == n` for every integer price |
| Text.ParseEmptyIsNaN | frontend/src/pages/AdminDashboard.js:72 | an empty price field parses to `NaN` (sent as null) |
| Server.FirstIndex | backend/server.py:218-219 | the first line with the product, and absence exactly when no line has it |
| Server.MergeLine | backend/server.py:216-224 | the scan loop of `add_to_cart` computes `Merged` |
| Server.ApplyQuantity | backend/server.py:239-246 | the scan loop of `update_cart_item` computes `Updated` |
| Server.MergeIntoExistingLine | backend/server.py:218-222 | an existing line grows by the added quantity; no line is added and the others are unchanged |
| Server.MergeNewLine | backend/server.py:223-224 | a product not in the cart is appended at the end |
| Server.MergedKeepsUnique | backend/server.py:216-224 | unique product ids stay unique; the products are the old ones plus the added one |
| Server.MergedKeepsPositive | backend/server.py:220 | positive quantities stay positive when a positive quantity is added |
| Server.UpdateSetsQuantity | backend/server.py:244-245 | a positive quantity overwrites exactly that product's line |
| Server.UpdatedKeepsPositive | backend/server.py:242-245 | no update leaves a line below 1 |
| Server.UpdatedKeepsUnique | backend/server.py:240-246 | updates keep product ids unique |
| Server.Pulled | backend/server.py:258 | `$pull` leaves no line for the product and never lengthens the cart |
| Server.PulledAppend | backend/server.py:258 | `$pull` distributes over concatenation, so the remaining lines keep their order |
| Server.PulledMembership | backend/server.py:258 | a line survives exactly when it is for another product |
| Server.PulledAbsent | backend/server.py:256-259 | pulling a product the cart lacks changes nothing |
| Server.PullAgreesWithUpdateToZero | backend/server.py:242-243 | in a unique cart, an update to quantity ≤ 0 is the same as removing the product |
| Server.PulledId | backend/server.py:289 | the id is no longer in the wishlist |
| Server.AddToSetIdempotent | backend/server.py:278-281 | adding an id twice is adding it once |
| Server.AddToSetMembers | backend/server.py:280 | `$addToSet` keeps ids distinct and adds exactly the id |
| Server.PulledIdMembers | backend/server.py:287-290 | removal keeps every other id and drops the removed one |
| Server.WithoutAddress | backend/server.py:307 | nothing is added, and every address other than the user's with that id stays |
| Server.AddressesOf | backend/server.py:296 | an address is listed exactly when it is stored and belongs to the user |
| Server.AddressesOfAppend | backend/server.py:296 | the user's list follows the stored order |
| Server.CreatedAddressComesLast | backend/server.py:300-303 | a newly created address is last in its owner's list |
| Server.DeleteAddressFromOwnList | backend/server.py:307 | the user's own list loses its first address with the id and nothing else |
| Server.DeleteAddressRemovesIt | backend/server.py:307 | with unique ids, no address of the user with the id remains |
| Server.AddressBodyStatus | backend/server.py:80-91 | as written: a body without `user_id` or another required field is refused with 422 |
| Server.IntendedAddressBodyStatus | backend/server.py:299-303 | corrected: the body is accepted exactly when it would be with `user_id` added |
| Server.DeleteAddressSparesOthers | backend/server.py:307 | deleting one user's address never changes another user's list |
| Server.DeleteAddressRemovesOne | backend/server.py:307 | exactly one address goes when the user owns one with the id, none otherwise |
| Server.PaymentStatusFor | backend/server.py:325-328 | `success` exactly for `online`, `pending` otherwise |
| Server.NewOrderIsPlaced | backend/server.py:313-328 | a new order is `placed` and paid exactly when the method is `online` |
| Server.WithStatus | backend/server.py:356-359 | same length, and each order differs at most in `order_status` |
| Server.WithStatusSetsFirst | backend/server.py:356-359 | the first order with the id takes any status; every other order keeps its own |
| Server.BuildQuery | backend/server.py:172-181 | a parameter becomes a filter exactly when it is truthy, with its own value |
| Server.Selected | backend/server.py:183 | only products of the catalog that match the query |
| Server.SelectedComplete | backend/server.py:172-176 | every matching product is listed |
| Server.SelectedAll | backend/server.py:172 | the empty query lists the whole catalog in order |
| Server.GetProducts | backend/server.py:170-187 | at most 1000 products, each matching the category and concern exactly |
| Server.GetProductsUnfiltered | backend/server.py:183 | with no filter, the catalog capped at 1000 |
| Server.GetProduct | backend/server.py:189-193 | a product with the id, or 404 exactly when there is none |
| Server.SeedProducts | backend/server.py:393-591 | twelve sample products under the generated ids, each with its offer price |
| Server.SeedOffersBelowPrice | backend/server.py:399-400 | every sample offer is positive and below its list price |
| Server.InitIdempotent | backend/server.py:389-391 | seeding a seeded catalog changes nothing |
| Server.Replaced | backend/server.py:375-378 | the update keeps the number of products |
| Server.WithoutProduct | backend/server.py:383 | one product fewer exactly when `get_product` finds the id; every product with another id stays |
| Server.DeleteThenGet | backend/server.py:381-384 | with unique ids, `get_product` answers 404 after the delete |
| Server.UpdateThenGet | backend/server.py:369-379 | after an update, `get_product` returns the submitted product under the path's id |
| Server.ProductEditsSpareOthers | backend/server.py:375-383 | update and delete leave every other id's product as it was |
| Server.Store.AddToCart | backend/server.py:206-231 | a first add creates a cart of exactly the item; otherwise the cart becomes `Merged` |
| Server.Store.UpdateCartItem | backend/server.py:233-252 | 404 and no change without a cart; otherwise the cart becomes `Updated` |
| Server.Store.RemoveFromCart | backend/server.py:254-260 | the cart loses every line for the product |
| Server.Store.AddToWishlist | backend/server.py:270-283 | a first add creates a wishlist of exactly the id; otherwise `$addToSet` |
| Server.Store.RemoveFromWishlist | backend/server.py:285-291 | the id is pulled from an existing wishlist |
| Server.Store.GetAddresses | backend/server.py:294-297 | the first min(n, 100) of the user's n addresses in stored order; all of them when there are at most 100 |
| Server.Store.CreateAddress | backend/server.py:299-303 | the address is stamped with the caller and appended, and is last in the caller's list |
| Server.Store.DeleteAddress | backend/server.py:305-308 | the table becomes `WithoutAddress`, and the caller's list loses its first address with the id |
| Server.Store.CreateOrder | backend/server.py:311-335 | the new order is appended and the user's cart is deleted |
| Server.Store.UpdateOrderStatus | backend/server.py:354-360 | the orders become `WithStatus` |
| Server.Store.CreateProduct | backend/server.py:362-367 | the product is appended |
| Server.Store.UpdateProduct | backend/server.py:369-379 | the first product with the id is replaced, under the path's id |
| Server.Store.DeleteProduct | backend/server.py:381-384 | the first product with the id is removed |
| Server.Store.GetCart | backend/server.py:199-204 | the user's stored lines, or no lines without a cart |
| Server.Store.InitProducts | backend/server.py:387-391 | a non-empty catalog is untouched; an empty one gets the twelve samples |
| Pricing.EffectivePriceChoice | frontend/src/pages/CheckoutPage.js:87 | the effective price is one of the two prices; an offer of 0 falls back to the list price |
| Pricing.CartSubtotal | frontend/src/pages/CheckoutPage.js:83-90 | a missing item list gives 0; otherwise the subtotal of the lines |
| Pricing.SubtotalAppend | frontend/src/pages/CheckoutPage.js:84-89 | the subtotal of concatenated carts is the sum of their subtotals |
| Pricing.SubtotalSkipsUnresolved | frontend/src/pages/CartPage.js:75 | lines whose product was not fetched add nothing |
| Pricing.SubtotalNonNegative | frontend/src/pages/CartPage.js:72-79 | non-negative prices and quantities give a non-negative subtotal |
| Pricing.SubtotalOfMerged | frontend/src/pages/CartPage.js:72-79 | after `add_to_cart`, the subtotal grows by exactly the added line's amount |
| Pricing.Summarize | frontend/src/pages/CartPage.js:118-120 | total = subtotal + shipping, with shipping 0 exactly above 500 and 50 otherwise |
| Pricing.TotalBounds | frontend/src/pages/CheckoutPage.js:123-125 | subtotal ≤ total ≤ subtotal + 50; a total at 500 exceeds the total at 501 |
| Pricing.ThresholdExample | frontend/src/pages/CartPage.js:118-120 | 2 × 200 + 1 × 80 costs 530; adding 3 more of the first crosses the threshold to 1080 |
| Pricing.MapOf | frontend/src/pages/CartPage.js:34-37 | each key is the id of its product; the keys are exactly the fetched ids |
| Pricing.MapOfHolds | frontend/src/pages/CartPage.js:35-37 | the last response for an id is the one kept |
| Pricing.FetchProducts | frontend/src/pages/CartPage.js:30-38 | no map exactly when some product fetch failed |
| Pricing.FetchResolvesEveryLine | frontend/src/pages/CartPage.js:30-38 | when every fetch answers its id, every line is resolved |
| Session.CartCount | frontend/src/App.js:59 | the sum of the quantities, 0 without an item list |
| Session.QuantitySumAppend | frontend/src/App.js:59 | the count of concatenated carts is the sum of their counts |
| Session.QuantitySumAtLeastLines | frontend/src/App.js:59 | with positive lines the badge is at least the number of lines |
| Session.MergedRaisesCount | frontend/src/App.js:56-60 | after `add_to_cart` the badge grows by exactly the added quantity |
| Session.RouteTarget | frontend/src/App.js:93-95 | `/checkout` and `/account` are reached only with a user, otherwise `/`; other paths are untouched |
| Session.Session.constructor | frontend/src/App.js:29-31 | no user, count 0, loading |
| Session.Session.FetchCartCount | frontend/src/App.js:56-64 | the count of the reply's items, 0 on failure |
| Session.Session.FetchUser | frontend/src/App.js:44-54 | a rejected token is removed from storage and headers; loading ends either way |
| Session.Session.Start | frontend/src/App.js:33-42 | a stored token is sent before the user is fetched; the count is refreshed in every case |
| Session.Session.Login | frontend/src/App.js:66-71 | token stored and sent, the user set, the count refreshed |
| Session.Session.Logout | frontend/src/App.js:73-78 | token and user dropped, count 0 |
| CartView.ShownLines | frontend/src/pages/CartPage.js:187 | one shown line per resolved cart line, its amount the effective price × quantity |
| CartView.ShownAmountsMakeSubtotal | frontend/src/pages/CartPage.js:72-79 | the shown amounts add up to the subtotal |
| CartView.ViewOf | frontend/src/pages/CartPage.js:89-120 | the empty view exactly when there are no items; otherwise the lines and summary |
| CartView.QuantityRequest | frontend/src/pages/CartPage.js:46-52 | a request exactly for a new quantity ≥ 1 |
| CartView.StepperNeverRemoves | frontend/src/pages/CartPage.js:169-177 | minus on a quantity of 1 sends nothing, and no request sent removes a product |
| CartView.CouponAccepted | frontend/src/pages/CartPage.js:82 | accepted exactly when the code, lower-cased, is `save10` |
| CartView.CouponIgnoresCase | frontend/src/pages/CartPage.js:81-87 | `SAVE10` and `Save10` pass; `save 10`, `SAVE20` and the empty code fail |
| CartView.CartPage.constructor | frontend/src/pages/CartPage.js:15-18 | an empty cart, no products, loading, no code |
| CartView.CartPage.FetchCart | frontend/src/pages/CartPage.js:25-44 | the cart and, if every fetch succeeded, the product map are stored; loading ends |
| CartView.CartPage.SetCouponCode | frontend/src/pages/CartPage.js:216 | the code field holds the input |
| CartView.CartPage.ApplyCoupon | frontend/src/pages/CartPage.js:81-87 | the success toast exactly for `save10` in any case |
| CartView.CouponKeepsTotals | frontend/src/pages/CartPage.js:81-120 | entering and applying any code leaves the shown lines and totals unchanged |
| Checkout.Snapshot | frontend/src/pages/CheckoutPage.js:100-105 | one item per cart line in order, with id and quantity copied and the price present exactly for resolved lines |
| Checkout.SnapshotPricesSubtotal | frontend/src/pages/CheckoutPage.js:100-105 | the snapshot's prices sum to the page's subtotal |
| Checkout.ComposeOrder | frontend/src/pages/CheckoutPage.js:92-112 | no request without an address or item list; otherwise the snapshot, the page's total, the address and the method |
| Checkout.StoredOrderIsConsistent | frontend/src/pages/CheckoutPage.js:107-112 | the stored order's total equals its items plus shipping; it is `placed` and keeps the address |
| Checkout.Redirect | frontend/src/pages/CheckoutPage.js:127-130 | to `/cart` exactly when the cart has no items |
| Checkout.CheckoutPage.constructor | frontend/src/pages/CheckoutPage.js:16-22 | empty cart and addresses, none selected, `online`, not loading |
| Checkout.CheckoutPage.FetchCart | frontend/src/pages/CheckoutPage.js:39-56 | the cart and, if every fetch succeeded, the product map are stored |
| Checkout.CheckoutPage.FetchAddresses | frontend/src/pages/CheckoutPage.js:58-68 | the list is stored and its first address selected when there is one |
| Checkout.CheckoutPage.AddAddress | frontend/src/pages/CheckoutPage.js:70-81 | the saved address is appended and selected; a failure changes nothing |
| Checkout.AddressFormRejected | frontend/src/pages/CheckoutPage.js:23-32 | as written, the backend refuses the form's body with 422 |
| Checkout.AddressFormAccepted | frontend/src/pages/CheckoutPage.js:23-32 | under the corrected rule, the form's body is accepted |
| Checkout.CheckoutPage.SelectAddress | frontend/src/pages/CheckoutPage.js:250 | the chosen address is selected |
| Checkout.CheckoutPage.SetPaymentMethod | frontend/src/pages/CheckoutPage.js:282 | the chosen method is stored |
| Checkout.CheckoutPage.PlaceOrder | frontend/src/pages/CheckoutPage.js:92-121 | without an address nothing is sent; otherwise `ComposeOrder` is sent and success leads to the order page |
| Admin.ComputeStats | frontend/src/pages/AdminDashboard.js:50-55 | counts are the list lengths; revenue is the sum of all totals |
| Admin.RevenueOfNewOrder | frontend/src/pages/AdminDashboard.js:50 | a new order raises the revenue by its total |
| Admin.RevenueIgnoresStatus | frontend/src/pages/AdminDashboard.js:50 | a status change, even to cancelled, leaves the revenue unchanged |
| Admin.AnyTransitionAllowed | frontend/src/pages/AdminDashboard.js:294-302 | any offered status can be set from any status |
| Admin.Encode | frontend/src/pages/AdminDashboard.js:70-75 | price parsed, an empty offer becomes null, images split and trimmed |
| Admin.EncodedImagesAreClean | frontend/src/pages/AdminDashboard.js:74 | the saved image list is non-empty, trimmed and comma-free |
| Admin.Validate | backend/server.py:362-379 | a null price is refused with the given status; otherwise the product takes the payload's prices and images and the model's defaults |
| Admin.ImagesRoundTrip | frontend/src/pages/AdminDashboard.js:106 | trimmed, comma-free images survive edit then save |
| Admin.EmptyImagesBecomeBlank | frontend/src/pages/AdminDashboard.js:74 | an empty image list comes back as one empty URL |
| Admin.EditThenSaveRoundTrip | frontend/src/pages/AdminDashboard.js:97-109 | editing and saving unchanged stores the same prices, images and texts; rating, reviews and stock are reset |
| Admin.SaveRequestFor | frontend/src/pages/AdminDashboard.js:77-83 | an update of the edited product's id, or a creation, carrying the encoded form |
| Admin.Stored | backend/server.py:362-379 | a null price is refused, with 500 on update and 422 on create; otherwise the product has the path's id or the generated one |
| Admin.AdminDashboard.constructor | frontend/src/pages/AdminDashboard.js:14-29 | empty lists, zero stats, blank form with `skincare`, no modal |
| Admin.AdminDashboard.FetchData | frontend/src/pages/AdminDashboard.js:40-59 | a failed order list counts as empty; a failed product list changes nothing |
| Admin.AdminDashboard.NewProduct | frontend/src/pages/AdminDashboard.js:198-204 | no product edited, blank form, modal open |
| Admin.AdminDashboard.EditProduct | frontend/src/pages/AdminDashboard.js:97-111 | the product edited, its form filled, modal open |
| Admin.AdminDashboard.SaveProduct | frontend/src/pages/AdminDashboard.js:67-95 | the request for the form; a success closes and resets to the blank form |
| Admin.AdminDashboard.UpdateOrderStatus | frontend/src/pages/AdminDashboard.js:125-133 | once applied, the request gives the first order with the id the chosen status, leaves every other order's status alone, and leaves the stats unchanged |
| Catalog.UrlParam | frontend/src/pages/ProductListPage.js:26-28 | a missing URL parameter reads as empty |
| Catalog.QueryParams | frontend/src/pages/ProductListPage.js:37-40 | the parameters are exactly the non-empty text filters, with their values |
| Catalog.ParamsReachQuery | frontend/src/pages/ProductListPage.js:37-42 | the backend filters on exactly the fields the page set |
| Catalog.SortBy | frontend/src/pages/ProductListPage.js:45-50 | the array ends sorted by the key and is a permutation of the original |
| Catalog.SortFor | frontend/src/pages/ProductListPage.js:45-51 | each option's order holds and the list is a permutation; `featured` keeps the server order |
| Catalog.ProductListPage.constructor | frontend/src/pages/ProductListPage.js:13-20 | no products, loading, default filters with `featured` |
| Catalog.ProductListPage.FetchProducts | frontend/src/pages/ProductListPage.js:34-59 | the request holds the non-empty filters; the shown list is the reply, ordered as chosen |
| Catalog.ProductListPage.LoadFromUrl | frontend/src/pages/ProductListPage.js:24-32 | filters taken from the URL; fetched without a sort, so in server order |
| Catalog.ProductListPage.ChangeSort | frontend/src/pages/ProductListPage.js:61-64 | the sort changes and the list is refetched in that order |
| Catalog.ProductListPage.SelectCategory | frontend/src/pages/ProductListPage.js:146-148 | the category changes and the list is refetched |
| Catalog.ProductListPage.SelectConcern | frontend/src/pages/ProductListPage.js:169-171 | the concern changes and the list is refetched |
| Catalog.ProductListPage.ClearFilters | frontend/src/pages/ProductListPage.js:66-70 | defaults restored and no parameter sent |
| ProductDetail.Others | frontend/src/pages/ProductDetailPage.js:37 | only fetched products with another id |
| ProductDetail.OthersAppend | frontend/src/pages/ProductDetailPage.js:37 | the filter distributes over concatenation, so order is kept |
| ProductDetail.OthersComplete | frontend/src/pages/ProductDetailPage.js:37 | every fetched product with another id is kept |
| ProductDetail.Related | frontend/src/pages/ProductDetailPage.js:37 | at most 4, a prefix of the filtered list, never the shown id |
| ProductDetail.RelatedShareCategory | frontend/src/pages/ProductDetailPage.js:34-37 | with a non-empty category, related products share it and differ in id |
| ProductDetail.RelatedWithBlankCategory | frontend/src/pages/ProductDetailPage.js:34-36 | an empty category filters nothing on the backend |
| ProductDetail.Step | frontend/src/pages/ProductDetailPage.js:200-208 | minus never goes below 1 and lowers by one above 1; plus adds one |
| ProductDetail.PressesKeepQuantityPositive | frontend/src/pages/ProductDetailPage.js:200-208 | from a quantity ≥ 1, any run of presses stays ≥ 1 and grows by at most one per press |
| ProductDetail.MinusUndoesPlus | frontend/src/pages/ProductDetailPage.js:200-208 | minus after plus restores the quantity |
| ProductDetail.WishlistRequestFor | frontend/src/pages/ProductDetailPage.js:80-87 | a removal exactly when the flag is set |
| ProductDetail.ToggleSyncsFlag | frontend/src/pages/ProductDetailPage.js:80-87 | after a successful toggle the stored membership equals the new flag; other products are untouched |
| ProductDetail.ProductDetailPage.constructor | frontend/src/pages/ProductDetailPage.js:18-22 | no product, quantity 1, loading, not wishlisted |
| ProductDetail.ProductDetailPage.FetchProduct | frontend/src/pages/ProductDetailPage.js:29-43 | the product is stored and the related strip is taken from its category; loading ends |
| ProductDetail.ProductDetailPage.Decrement | frontend/src/pages/ProductDetailPage.js:200 | `max(1, q - 1)`, keeping q ≥ 1 |
| ProductDetail.ProductDetailPage.Increment | frontend/src/pages/ProductDetailPage.js:208 | q + 1, keeping q ≥ 1 |
| ProductDetail.ProductDetailPage.AddToCart | frontend/src/pages/ProductDetailPage.js:45-61 | nothing sent without a user; otherwise the product id with quantity ≥ 1 |
| ProductDetail.ProductDetailPage.BuyNow | frontend/src/pages/ProductDetailPage.js:63-71 | refused without a user; otherwise the add, then `/checkout` even if the add failed |
| ProductDetail.ProductDetailPage.ToggleWishlist | frontend/src/pages/ProductDetailPage.js:73-92 | refused without a user; deletes when set and adds when clear; a success flips the flag |

## Left out

- JWT issue and decode, bcrypt hashing, `/auth/register`, `/auth/login` and `get_current_user`: these are cryptographic libraries. The signed-in user is a parameter.
- `search` in `get_products`: Mongo's case-insensitive `$regex` is an uninterpreted predicate `regex(pattern, text)`.
- Timestamps (`created_at`, `updated_at`) and their ISO conversion are not modelled. Generated uuids are parameters.
- Prices are whole numbers (`int`), as in the sample catalog. Ratings are `real`.
- Text.ParseNumber: reads an optional sign and a decimal digit run after leading whitespace. `parseFloat`'s fractions, exponents and `Infinity` are not modelled.
- Whitespace is the six ASCII characters space, tab, line feed, vertical tab, form feed and carriage return. The non-ASCII whitespace that `trim` and `parseFloat` also skip (U+00A0, U+FEFF, U+2028, U+2029 and the Unicode space separators) is not modelled. Case mapping is ASCII only.
- axios, `Promise.all` scheduling, React re-rendering and the order in which concurrent requests finish are not modelled. Each handler is one atomic step taking its replies as parameters.
- After a successful change, the refetches (`fetchCart`, `fetchCartCount`, `fetchData`) are separate calls of the modelled methods. They are not chained inside the handlers.
- Toast texts are outcome tags. `console.error` and `window.scrollTo` are left out.
- `window.location.href` and `window.history.pushState` appear only as the returned destination.
- Seed descriptions, ingredients and how-to-use texts are not modelled. Only names, prices, offers, categories, concerns, images, ratings and review counts are.
- Catalog.SortBy: the sort is an insertion sort. The stability of `Array.prototype.sort` is not stated.
- The dashboard's `admin_token` gate and the hard-coded admin login are not modelled, and neither is `handleDeleteProduct`'s confirmation dialog. The dashboard delete is `Server.Store.DeleteProduct`.
- The address form's fields and `removeItem` on the cart page are not modelled on the client side. Removal is `Server.Store.RemoveFromCart`.
- `get_orders` and `GET /wishlist` return stored data unchanged and are not modelled.
- AccountPage, Header, ProductCard and the static pages are not part of this model.
- The stored cart's own id and `updated_at` are not modelled.
- Pydantic validation of request bodies is modelled in two places only: a null price in `Admin.Stored`, and the required fields of an address body in `Server.AddressBodyStatus`. Wrongly typed fields are not modelled.
- Server.Store.CreateAddress: models the handler body, which runs only for a body that passes validation. As written, the checkout form's body never does (see Findings), so `Checkout.CheckoutPage.AddAddress` then always takes its failure branch.

## Findings

| source | as written | input that shows it | evidently intended | confidence | as-written member | corrected member |
|---|---|---|---|---|---|---|
| backend/server.py:80-91, 299-303 with frontend/src/pages/CheckoutPage.js:23-32, 73 | `create_address` takes its body as an `Address`, whose `user_id` has no default, so the body is validated before the handler stamps `user_id` from the caller | the checkout form's body `{name, phone, address_line1, address_line2, city, state, pincode, is_default}`, which has no `user_id`, is refused with 422 | `user_id` comes from the signed-in user, so the body should not need it, and the form's body should be accepted | not executed; read from the code | Server.AddressBodyStatus, Checkout.AddressFormRejected | Server.IntendedAddressBodyStatus, Checkout.AddressFormAccepted |
