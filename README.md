# swagstore storefront logic, modelled in Dafny

This project models the decision-making core of the swagstore storefront, a
Next.js shop over the Cosmic content service:

- **The shopping cart, in both implementations.** One is the functional cart
  of `lib/cart.ts`, where every operation returns a new `{items, total}`. The
  other is the stateful cart of `contexts/CartContext.tsx`: a class whose
  `items` field is replaced by each operation, with totals derived from it.
  Both key lines by (product id, optional size). A separate module proves
  that the two carts agree.
- **The list and selection rules:**
  - the pagination bar, built by a loop in `getPageNumbers`;
  - the bounded most-recently-viewed list;
  - the scoring and stable top-four selection of related products;
  - the recently-viewed route, which reorders fetched products to the
    requested ids;
  - the home page's featured-product fallback and hero text;
  - the stock badges on a product tile.
- **The API routes for sign-up, sign-in and order creation.** Each is an
  early-return decision chain. Every call into the content service or the
  session library is a parameter whose outcome is a value or an exception
  (`Api.Call`). Dates are formatted as YYYY-MM-DD and request fields are
  coerced with `Number`.
- **The client-side state machines:**
  - the auth provider (`user`, `isLoading`);
  - the checkout form and its submit;
  - the one-shot order creation on the confirmation page;
  - the add-to-cart button, with its size guard, stock guard and quantity
    stepper.

Money is held in integer cents throughout. The source's dollar amounts are
those values divided by 100. The 8% tax is an exact rational multiple
(`real`). Browser storage, `fetch`, the content service, clocks and
randomness are all parameters. Each operation receives what was read or what
the call produced, and returns what it would write or send.

Files: one per source file (`cart_lib.dfy`, `cart_context.dfy`,
`pagination.dfy`, …), plus:

- `js.dfy`: the JavaScript idioms the code relies on (`findIndex`, `filter`,
  `reduce` sums, `slice(0, n)`, `x || default`, the regex class `\s`);
- `catalog.dfy`: the product record;
- `api.dfy`: the route reply, call outcomes and the user record;
- `cart_agreement.dfy`: the two carts compared;
- `auth_flow.dfy`: a route's reply as the auth provider receives it.

## Model

| member | source | states |
|---|---|---|
| CartLib.AddToCart | lib/cart.ts:54-91 | If a line with the same (id, size) exists, only the first such line grows by `quantity` (default 1), and the line count and every other line stay unchanged. Otherwise exactly one line is appended at the end, with the given quantity and size. The returned total is Σ price × quantity over the returned lines. |
| CartLib.RemoveFromCart | lib/cart.ts:94-106 | No line with the key survives, every other line is kept, and nothing is invented: the multiset of lines is the old one with every copy of a matching line taken out and every other line at its old multiplicity. The returned total is recomputed from the lines. |
| CartLib.UpdateQuantity | lib/cart.ts:109-131 | With a positive quantity, the length and order are kept and exactly the matching lines get the new quantity. The total is recomputed. |
| CartLib.ClearCart | lib/cart.ts:134-138 | The cart is empty and its total is 0. |
| CartLib.FindIndexIsFirstLine | lib/cart.ts:55-57 | The index `findIndex` returns is the first line with the key, and it is -1 exactly when no line has the key. |
| CartLib.AddToCartTotalMerged | lib/cart.ts:61-87 | Merging raises the total by that line's price × the added quantity. |
| CartLib.AddToCartTotalNew | lib/cart.ts:72-87 | Appending raises the total by the product's price × quantity. |
| CartLib.AddToCartCount | lib/cart.ts:141-143 | The item count (Σ quantity) grows by exactly the added quantity, whether the line is merged or appended. |
| CartLib.AddSameKeyTwice | lib/cart.ts:55-82 | Adding the same product and size twice gives one line carrying the summed quantity. |
| CartLib.TwoSizesTwoLines | lib/cart.ts:55-57 | One product in two different sizes occupies two distinct lines. |
| CartLib.AddToCartKeepsKeysUnique | lib/cart.ts:55-82 | Adding keeps the (id, size) keys unique. |
| CartLib.RemoveFromCartKeepsKeysUnique | lib/cart.ts:95-97 | Removing keeps keys unique. |
| CartLib.UpdateQuantityKeepsKeysUnique | lib/cart.ts:109-122 | Updating keeps keys unique. |
| CartLib.RemoveFromCartOrderAndTotal | lib/cart.ts:95-102 | The kept lines are a subsequence of the input, in order. The old total equals the new total plus the removed lines' total. |
| CartLib.RemoveFromCartNoOpAndIdempotent | lib/cart.ts:95-97 | Removing an absent key changes nothing, and removing twice is the same as removing once. |
| CartLib.UpdateQuantityTotal | lib/cart.ts:114-127 | With unique keys, a positive update changes the total by that one line's price × the quantity difference. |
| CartLib.UpdateQuantityAbsentKey | lib/cart.ts:109-122 | Updating an absent key leaves the lines as they were. |
| CartLib.UpdateNonPositiveIsRemove | lib/cart.ts:110-112 | A quantity ≤ 0 gives exactly what `removeFromCart` gives. |
| CartLib.ClearCartEmpty | lib/cart.ts:134-143 | The cleared cart has item count 0 and total 0. |
| CartLib.CalculateTotal | lib/cart.ts:47-51 | An empty list totals 0; with `CartAgreement.TotalsAgree` the total is the context's `totalPrice` of the same lines. |
| CartLib.GetCartItemCount | lib/cart.ts:141-143 | An empty cart counts 0 items; with `CartAgreement.TotalsAgree` the count is the context's `totalItems`. |
| CartLib.TotalsNonNegative | lib/cart.ts:47-51 | Lines with non-negative prices and quantities give a non-negative total and a non-negative item count. |
| CartContext.AddedQuantity | contexts/CartContext.tsx:59 | `item.quantity \|\| 1` is never 0. It is 1 exactly for a missing quantity, 0 or 1. |
| CartContext.AddUpdater | contexts/CartContext.tsx:48-77 | An existing key's first line grows by `quantity \|\| 1` and everything else is unchanged. Otherwise one defaulted line (`id \|\| ''`, `name \|\| ''`, `price \|\| 0`, `slug \|\| ''`) is appended and the earlier lines are kept. |
| CartContext.RemoveUpdater | contexts/CartContext.tsx:80-84 | No line with the id and size survives; an undefined size matches only an undefined size. The multiset of lines is the old one with every matching line taken out and every other line at its old multiplicity. |
| CartContext.UpdateUpdater | contexts/CartContext.tsx:92-98 | The length is kept. Matching lines get the quantity and all other lines are unchanged. |
| CartContext.CartStore.constructor | contexts/CartContext.tsx:28 | The cart starts empty. |
| CartContext.CartStore.AddToCart | contexts/CartContext.tsx:47-78 | The new items are the add updater applied to the old ones. `totalItems` grows by `quantity \|\| 1`. `totalPrice` grows by that quantity × the merged line's stored price, or × the item's price (default 0) for a new line. |
| CartContext.CartStore.RemoveFromCart | contexts/CartContext.tsx:80-84 | The new items are the remove updater applied to the old ones. |
| CartContext.CartStore.UpdateQuantity | contexts/CartContext.tsx:86-99 | A quantity ≤ 0 applies the remove updater. Otherwise the update updater is applied. |
| CartContext.CartStore.ClearCart | contexts/CartContext.tsx:101-103 | The items are empty, and `totalItems` and `totalPrice` are 0. |
| CartContext.AddUpdaterTotals | contexts/CartContext.tsx:105-106 | The derived totals after an add, as stated for `CartStore.AddToCart`, for any item list. |
| CartContext.AddUpdaterKeepsKeysUnique | contexts/CartContext.tsx:49-76 | Adding an item that has an id keeps keys unique. |
| CartContext.RemoveUpdaterKeepsKeysUnique | contexts/CartContext.tsx:80-84 | Removing keeps keys unique. |
| CartContext.RemoveUpdaterOrderNoOpIdempotent | contexts/CartContext.tsx:80-84 | The kept lines stay in order. Removing an absent key is a no-op, and removing twice is the same as removing once. |
| CartContext.RemoveUpdaterTotalPrice | contexts/CartContext.tsx:80-84 | `totalPrice` drops by exactly the removed lines' price × quantity. |
| CartContext.UpdateUpdaterTotalPrice | contexts/CartContext.tsx:92-98 | With unique keys, `totalPrice` changes by the one line's price × the quantity difference. |
| CartContext.WorkedExample | contexts/CartContext.tsx:86-106 | Concrete case: 2 × 20.00 (size M) plus 1 × 15.00 is 55.00. Setting the first line to 3 gives 75.00, and then removing the second gives 60.00 with 3 items. |
| CartAgreement.TotalsAgree | lib/cart.ts:47-51 | `calculateTotal` and `getCartItemCount` equal the context's `totalPrice` and `totalItems` on the corresponding lines. |
| CartAgreement.KeysAgree | lib/cart.ts:55-57 | Both carts match lines to a key the same way, including which line is first. |
| CartAgreement.AddAgrees | lib/cart.ts:54-91 | Adding gives the same lines in both carts whenever the quantity is not an explicit 0. |
| CartAgreement.AddZeroDisagrees | contexts/CartContext.tsx:73 | With an explicit quantity 0, the functional cart appends 0 units and the context appends 1. |
| CartAgreement.RemoveAgrees | lib/cart.ts:94-106 | Removing gives the same lines in both carts. |
| CartAgreement.UpdateAgrees | lib/cart.ts:109-131 | Updating gives the same lines in both carts, with quantity ≤ 0 as a removal in both. |
| Pagination.PageNumbers | components/Pagination.tsx:14-40 | The list never has more than seven entries, and with at least one page it starts at page 1 and ends at the last page. |
| Pagination.GetPageNumbers | components/Pagination.tsx:14-40 | The pushed list equals the case-by-case page list. With seven pages or fewer it is exactly 1..totalPages. |
| Pagination.PageNumbersShape | components/Pagination.tsx:25-36 | For more than one page, the list has 2 to 7 entries, starts at page 1 and ends at the last page. Its numbers strictly increase within 1..totalPages. Each '...' sits between two numbers and hides at least one page, adjacent numbers are consecutive, and the current page is listed exactly when it is a real page. |
| Pagination.FullListShape | components/Pagination.tsx:18-22 | The same shape for 2 to 7 pages. |
| Pagination.LeadingWindowShape | components/Pagination.tsx:27-29 | The same shape for [1,2,3,4,'...',T]. |
| Pagination.TrailingWindowShape | components/Pagination.tsx:30-32 | The same shape for [1,'...',T-3,T-2,T-1,T]. |
| Pagination.MiddleWindowShape | components/Pagination.tsx:33-36 | The same shape for [1,'...',c-1,c,c+1,'...',T]. |
| Pagination.Render | components/Pagination.tsx:11-90 | Nothing is rendered exactly when totalPages ≤ 1, and a rendered bar's page list is well shaped (the shape of `PageNumbersShape`). |
| Pagination.ActivePageUnique | components/Pagination.tsx:69-70 | At most one entry is marked active, and one is exactly when 1 ≤ currentPage ≤ totalPages. |
| Pagination.RenderNavigation | components/Pagination.tsx:12-90 | Nothing renders iff totalPages ≤ 1. Previous is enabled iff currentPage > 1 and Next iff currentPage < totalPages. From a real page, both lead to real pages. |
| RecentlyViewedTracker.TrackView | components/RecentlyViewedTracker.tsx:13-30 | Nothing is written exactly when the stored text is unusable or holds a `null` element, which throws. An absent entry gives the single new view, and a stored list without `null` gives `Track` of it, whose shape `TrackShape`, `TrackTwice` and `TrackMostRecentFirst` state. |
| RecentlyViewedTracker.Track | components/RecentlyViewedTracker.tsx:15-24 | The list written has 1 to 10 entries and starts with the view just made. |
| RecentlyViewedTracker.TrackShape | components/RecentlyViewedTracker.tsx:18-24 | The list written has 1 to 10 entries. The new view comes first and the product appears nowhere else. The rest is the earlier views of other products, in stored order, cut at nine. |
| RecentlyViewedTracker.TrackTwice | components/RecentlyViewedTracker.tsx:15-24 | Viewing the same product again right away only refreshes its timestamp. |
| RecentlyViewedTracker.TrackMostRecentFirst | components/RecentlyViewedTracker.tsx:21-23 | After viewing p and then q, q is first and p second. |
| RecentlyViewedRoute.Lookup | app/api/products/recently-viewed/route.ts:26 | `find` gives a fetched product with exactly that id, the first one in fetched order, and finds none exactly when no fetched product has it. |
| RecentlyViewedRoute.Reorder | app/api/products/recently-viewed/route.ts:25-27 | The reply has no more products than ids were requested, and each product in it was fetched. |
| RecentlyViewedRoute.Respond | app/api/products/recently-viewed/route.ts:7-33 | A missing, non-array or empty `productIds`, a malformed body, or a failed query gives `[]`. Otherwise the reply is the reordering. |
| RecentlyViewedRoute.ReorderFollowsRequest | app/api/products/recently-viewed/route.ts:25-27 | The reply's ids are the requested ids with unknown ones dropped, in request order. Each product returned is the first fetched product with its id. |
| RecentlyViewedRoute.AllKnownKeepsOrder | app/api/products/recently-viewed/route.ts:25-27 | When every requested id is known, the reply lists exactly one product per id, in request order. |
| RelatedProducts.Score | components/RelatedProducts.tsx:15-23 | The score is 0, 5, 10 or 15. It is ≥ 10 iff the viewed product's collection id is given, non-empty and equal to the candidate's. It is odd-by-5 iff the candidate is featured. |
| RelatedProducts.InsertPermutes | components/RelatedProducts.tsx:26 | Inserting into the sorted list is a permutation. |
| RelatedProducts.InsertSorted | components/RelatedProducts.tsx:26 | Inserting into a score-descending list keeps it descending. |
| RelatedProducts.SortByScoreSortsAndPermutes | components/RelatedProducts.tsx:26 | The sort is a permutation of its input with scores non-increasing. |
| RelatedProducts.InsertStable | components/RelatedProducts.tsx:26 | Inserting keeps the order among equal scores. |
| RelatedProducts.SortByScoreStable | components/RelatedProducts.tsx:26 | Among candidates of any one score, the sorted order is the input order, as for the stable `Array.prototype.sort`. |
| RelatedProducts.SortedScores | components/RelatedProducts.tsx:12-26 | Every candidate appears in the sorted list with its own score, and the list is descending. |
| RelatedProducts.RelatedSelection | components/RelatedProducts.tsx:12-28 | The result holds min(4, number of candidates) products. Each is from the catalogue and is not the viewed product. Scores are non-increasing, and no candidate left out scores higher than one shown. |
| RelatedProducts.RelatedEmpty | components/RelatedProducts.tsx:30 | Nothing renders exactly when the catalogue holds only the viewed product. |
| RelatedProducts.Related | components/RelatedProducts.tsx:10-28 | At most four products are shown; which ones, and in what order, `RelatedSelection` states. |
| ProductCard.Badges | components/ProductCard.tsx:10-81 | Free shipping iff price > $30.00. Low stock implies in stock, and low stock and out of stock never coincide. An undefined or negative count shows no stock indicator. A count ≥ 0 shows either out of stock or in stock. |
| ProductCard.BadgesByCount | components/ProductCard.tsx:10-11 | 0 is out of stock. 1 to 9 is low and in stock. 10 or more is in stock only. Undefined shows nothing. |
| HomePage.DisplayCollections | app/page.tsx:26 | The first four collections: a prefix of at most 4, and exactly 4 when there are that many. |
| HomePage.DisplayProducts | app/page.tsx:18-23 | At most four products, all from the catalogue, and at least one whenever the catalogue is non-empty. |
| HomePage.HeroText | app/page.tsx:30-31 | Missing settings or an empty or missing title or subtitle give the fixed defaults, and the text is never empty. |
| HomePage.DisplayProductsChoice | app/page.tsx:18-23 | At most four products, all from the catalogue. With any featured product, they are the first featured ones in catalogue order and the list is non-empty. With none, they are the first four products. |
| Api.WithoutPasswordHash | app/api/auth/signup/route.ts:65-71 | The reply's user has no `password_hash` and keeps every other metadata key and the id, slug and title. |
| SignupRoute.IsValidEmailMatchesPattern | app/api/auth/signup/route.ts:18-19 | The direct email check accepts exactly the strings matching `^[^\s@]+@[^\s@]+\.[^\s@]+$`, read as a pattern over positions. |
| SignupRoute.ValidEmailMatches | app/api/auth/signup/route.ts:18-19 | Accepted implies matching. |
| SignupRoute.PatternIsValidEmail | app/api/auth/signup/route.ts:18-19 | Matching implies accepted. |
| SignupRoute.Utf16Length | app/api/auth/signup/route.ts:27 | `password.length` counts UTF-16 units, never fewer than the characters. |
| SignupRoute.Utf16LengthOfBmp | app/api/auth/signup/route.ts:27 | Within the Basic Multilingual Plane, the length is the number of characters. |
| SignupRoute.SignupValidationOrder | app/api/auth/signup/route.ts:10-41 | Each 400 and the 409 happen exactly when every earlier check passed and that check failed: presence, then pattern, then length ≥ 6, then not already registered. |
| SignupRoute.SignupCreatesOnlyNewAccounts | app/api/auth/signup/route.ts:35-56 | An account is requested iff all checks pass, the email is unregistered and hashing returned. The request carries the given name, email and hash. |
| SignupRoute.SignupSuccess | app/api/auth/signup/route.ts:58-71 | Success iff the creation, token and cookie calls all returned. The reply is the created user without the hash, and the session holds the issued token. |
| SignupRoute.Signup | app/api/auth/signup/route.ts:5-78 | Every failure is a 400, 409 or 500. A session is stored exactly when the reply is a success, and a success always follows an account request. |
| LoginRoute.LoginRequiresFields | app/api/auth/login/route.ts:10-15 | The reply is 400 "Email and password are required" iff a field is missing or empty. |
| LoginRoute.LoginErrorParity | app/api/auth/login/route.ts:18-33 | An unknown email and a wrong password give identical outcomes: 401 "Invalid email or password", with no update and no session. |
| LoginRoute.LoginEffectsFollowVerification | app/api/auth/login/route.ts:36-49 | The last-login update, the session or a success happens only for an existing user whose password verified, and the update names that user. Success iff a session was set. The reply omits the hash. |
| LoginRoute.LoginFailures | app/api/auth/login/route.ts:10-57 | Every failure is one of 400, 401 or 500 "Login failed", and a malformed body gives the 500. |
| LoginRoute.Login | app/api/auth/login/route.ts:5-58 | A session is stored exactly when the reply is a success, and a success always follows the last-login update. |
| OrderCreateRoute.NatToString | app/api/orders/create/route.ts:43 | `String(n)` is a non-empty digit string with no leading zero. |
| OrderCreateRoute.ParseNatToString | app/api/orders/create/route.ts:43 | `String(n)` reads back as n. |
| OrderCreateRoute.NatToStringLength | app/api/orders/create/route.ts:43 | The digit counts for the widths a date uses. |
| OrderCreateRoute.Pad2Reads | app/api/orders/create/route.ts:43 | `padStart(2, '0')` of n < 100 is two digits that read back as n. |
| OrderCreateRoute.OrderDateReads | app/api/orders/create/route.ts:42-43 | The order date is year, '-', the 1-based month in two digits, '-', the day in two digits, with each part reading back. A four-digit year gives exactly 10 characters. |
| OrderCreateRoute.OrderNumber | app/api/orders/create/route.ts:39 | The order number starts with "ORD-". |
| OrderCreateRoute.ToNumberCoerces | app/api/orders/create/route.ts:55-58 | `Number` keeps a number, maps an absent field to NaN and maps null to 0. |
| OrderCreateRoute.ToNumberReadsDigits | app/api/orders/create/route.ts:55-58 | `Number` reads a non-empty string of decimal digits as its decimal value. Together with `ParseNatToString`, the text of a whole number reads back as that number. |
| OrderCreateRoute.ToNumberReadsBlankAsZero | app/api/orders/create/route.ts:55-58 | `Number` reads blank text, including "", as 0. |
| OrderCreateRoute.CreateOrderAuthorisation | app/api/orders/create/route.ts:18-36 | No session gives 401. A malformed body gives 500. A `userId` other than the session's gives 403. In all three cases nothing is inserted. An insert is requested iff the body names the session's user. |
| OrderCreateRoute.CreateOrderRecord | app/api/orders/create/route.ts:38-72 | The inserted record belongs to the session's user, is 'Pending', and is titled and numbered `ORD-<now>-<suffix>`. It is dated by the order date, carries the items and address unchanged, and passes the totals through `Number`. The reply is the stored order, or 500 when the insert throws. |
| OrderCreateRoute.CreateOrder | app/api/orders/create/route.ts:16-73 | Every failure is a 401, 403 or 500. A success means an insert was requested and the reply is exactly the order the content service returned. |
| AuthContext.SessionUser | contexts/AuthContext.tsx:38-46 | After a refresh the user is the reply's user when the reply is ok. Otherwise, including a throw, there is no user. |
| AuthContext.Result | contexts/AuthContext.tsx:63-73 | Success iff the reply is ok. Otherwise the error is the server's non-empty message, else the non-ok default, or the retry message after a throw. |
| AuthContext.UserAfter | contexts/AuthContext.tsx:68-69 | The user after sign-in is the reply's user on success and is unchanged otherwise. |
| AuthContext.AuthProvider.constructor | contexts/AuthContext.tsx:25-26 | Initially there is no user and `isLoading` is true. |
| AuthContext.AuthProvider.RefreshSession | contexts/AuthContext.tsx:33-50 | `isLoading` ends false, and the user is `SessionUser(reply)`. |
| AuthContext.AuthProvider.RefreshUser | contexts/AuthContext.tsx:53 | The same transition as `refreshSession`. |
| AuthContext.AuthProvider.Login | contexts/AuthContext.tsx:55-74 | The result is `Result(reply, "Login failed", "Login failed. Please try again.")`. The user is set only on success, and `isLoading` is untouched. |
| AuthContext.AuthProvider.Signup | contexts/AuthContext.tsx:76-95 | The same as login, with the "Signup failed" messages. |
| AuthContext.AuthProvider.Logout | contexts/AuthContext.tsx:97-100 | The user becomes `UserAfterLogout` of the reply: it is cleared only when the request resolves and is kept when it throws. `isLoading` is untouched. |
| AuthContext.UserAfterLogout | contexts/AuthContext.tsx:97-100 | After a logout the user is none when the request resolved and unchanged when it threw. |
| AuthContext.LogoutFailureKeepsUser | contexts/AuthContext.tsx:97-100 | A signed-in user whose logout request throws is still signed in. |
| AuthContext.AuthProvider.LogoutIntended | contexts/AuthContext.tsx:97-100 | Corrected logout: the user is none after every logout, resolved or rejected, and `isLoading` is untouched. |
| AuthFlow.ReplyOf | contexts/AuthContext.tsx:63-69 | An ok reply carries the route's user, and an error reply carries the route's message. |
| AuthFlow.LoginParityAtClient | app/api/auth/login/route.ts:18-33 | The client gets the same failed result, "Invalid email or password", for an unknown email and for a wrong password, and its user is unchanged. |
| AuthFlow.LoginSignsIn | app/api/auth/login/route.ts:36-50 | A successful sign-in makes the client's user the account without its hash. A failure keeps the previous user. |
| AuthFlow.SignupSignsIn | app/api/auth/signup/route.ts:58-77 | A successful sign-up makes the client's user the created account without its hash. A refusal shows the route's own message. |
| AuthFlow.SignupMessagesNonEmpty | app/api/auth/signup/route.ts:10-77 | Every failure message of the sign-up route is non-empty. |
| AddToCartButton.SizeArg | components/AddToCartButton.tsx:30 | The size passed on is the selected size, or undefined when none is selected. |
| AddToCartButton.AsWrittenLosesChoice | components/AddToCartButton.tsx:30 | As written, the quantity and size are ignored. A new line gets 1 unit, no size, name "" and price 0, and an existing size-less line grows by 1. |
| AddToCartButton.ItemForKeepsChoice | components/AddToCartButton.tsx:30 | The intended item adds exactly the chosen quantity under the chosen size, and a new line copies the product's name, price and image. |
| AddToCartButton.ButtonAgreesWithCard | components/AddToCartButton.tsx:18 | For a defined count, `isInStock` is the tile's in-stock note. An undefined count is addable but shows no note. A refused product shows "Out of Stock" unless its count is negative. |
| AddToCartButton.Button.constructor | components/AddToCartButton.tsx:13-15 | The state starts with no size, quantity 1 and no confirmation. |
| AddToCartButton.Button.SelectSize | components/AddToCartButton.tsx:45 | The size becomes the selected size, and nothing else changes. |
| AddToCartButton.Button.Decrement | components/AddToCartButton.tsx:64 | The quantity becomes `max(1, quantity - 1)`, so it is always ≥ 1. |
| AddToCartButton.Button.Increment | components/AddToCartButton.tsx:72 | The quantity goes up by exactly 1. |
| AddToCartButton.Button.HandleAddToCart | components/AddToCartButton.tsx:20-33 | A product with sizes but none selected alerts "Please select a size" and adds nothing. A product that is out of stock (defined count ≤ 0) adds nothing. Otherwise the product object itself is handed to the cart as the item (`AsWrittenItem`), so by `AsWrittenLosesChoice` the cart gains one unsized unit at price 0 whatever quantity and size were chosen, and the confirmation shows. Quantity and size stay as they were. |
| AddToCartButton.Button.SuccessTimeout | components/AddToCartButton.tsx:32 | The timer hides the confirmation. |
| CheckoutPage.TotalsAddUp | app/checkout/page.tsx:27-29 | The total is 1.08 × subtotal + shipping (10.00). For a non-negative subtotal, the tax lies between 0 and the subtotal. |
| CheckoutPage.Tax | app/checkout/page.tsx:28 | For a non-negative subtotal the tax lies between 0 and the subtotal, and it is 0 exactly when the subtotal is. |
| CheckoutPage.FinalTotal | app/checkout/page.tsx:29 | For a non-negative subtotal the total is at least the subtotal plus shipping. |
| CheckoutPage.OrderItems | app/checkout/page.tsx:51-57 | One order line per cart line, in cart order, with the id, name, quantity, price and size copied. |
| CheckoutPage.OrderItemsKeepTotal | app/checkout/page.tsx:51-66 | The lines sent add up to the subtotal sent. |
| CheckoutPage.WithField | app/checkout/page.tsx:31-36 | An input change sets its own field and leaves every other field unchanged. |
| CheckoutPage.InitialForm | app/checkout/page.tsx:17-25 | The name and email are the signed-in user's metadata values; they are "" when nobody is signed in or the metadata lacks the key. The country is "US" and the rest is blank. |
| CheckoutPage.AsWrittenCheckoutRefused | app/checkout/page.tsx:64-78 | As written, the order route answers 401 without a session and 403 with one, and never inserts. |
| CheckoutPage.CorrectedCheckoutAccepted | app/checkout/page.tsx:59-78 | With the user's id sent, the order is inserted for that user with the cart's lines and the page's subtotal, shipping, tax, total and address. |
| CheckoutPage.Checkout.constructor | app/checkout/page.tsx:14-25 | The page starts not processing, with no error, the initial form and no redirect. |
| CheckoutPage.Checkout.InputChange | app/checkout/page.tsx:31-36 | The form takes the changed field, and nothing else changes. |
| CheckoutPage.Checkout.HandleSubmit | app/checkout/page.tsx:38-96 | An empty cart only sets "Your cart is empty" and sends nothing. Otherwise the body as written, with no `userId` (`AsWrittenBody`), is sent; by `AsWrittenCheckoutRefused` the route refuses it. An ok reply clears the cart and redirects to `/checkout/success?order=<id>`. Any failure sets the retry message and keeps the cart. Processing ends false and the form is unchanged. |
| CheckoutSuccessPage.AsWrittenOrderRefused | app/checkout/success/page.tsx:30-45 | As written, this page's order is refused as well (401 or 403) and never inserted. |
| CheckoutSuccessPage.CorrectedOrderAccepted | app/checkout/success/page.tsx:26-45 | With the user's id, the order is inserted with the cart's lines, the subtotal Σ price × quantity, shipping 10.00, 8% tax, and their sum as the total. |
| CheckoutSuccessPage.OrderNumberAsWritten | app/checkout/success/page.tsx:50 | `data.orderNumber` is undefined for the route's `{success, order}` reply. |
| CheckoutSuccessPage.OrderNumberOf | app/checkout/success/page.tsx:50 | The intended number is the stored order's own number. |
| CheckoutSuccessPage.OrderNumberNeverShown | app/checkout/success/page.tsx:48-52 | As written, no ok reply ever leads to a shown order number. |
| CheckoutSuccessPage.OrderNumberShown | app/checkout/success/page.tsx:48-52 | Read from the order, the number is shown on an ok reply. It is the `ORD-` number the route generated whenever the service returns the record it was given. |
| CheckoutSuccessPage.Confirmation.constructor | app/checkout/success/page.tsx:14-16 | No order has been created, the number is "" and there is no error. |
| CheckoutSuccessPage.Confirmation.CreateOrder | app/checkout/success/page.tsx:20-60 | No user, an empty cart or an order already created sends nothing and changes nothing. Otherwise the body as written, with no `userId` (`AsWrittenBody`), is sent; by `AsWrittenOrderRefused` the route refuses it. An ok reply sets the number to `data.orderNumber`, which is undefined and so not shown, sets `orderCreated` and clears the cart, so a later run that starts after this one has finished sends nothing. A failure sets "Failed to create order" and keeps the cart and the flag. |

## Left out

- Browser storage is not modelled as I/O: `getCart`/`saveCart` in `lib/cart.ts`, the load and save effects of the cart context, and the `recentlyViewed` entry. The tracker receives the parsed stored value and returns the value it would write. No persisted snapshot of the cart is kept.
- `fetch`, the content-service queries (`getUserByEmail`, `createUser`, `updateLastLogin`, `insertOne`, the product `find`) and the session helpers (`hashPassword`, `verifyPassword`, `createToken`, `setSession`, `getSession`) are not modelled. Each is a parameter holding a value or an exception (`Api.Call`), or a whole reply (`AuthContext.Reply`).
- OrderCreateRoute.CreateOrder: the session is given as a value, so an exception thrown by `getSession` itself, which the route would turn into 500, is not modelled.
- AuthContext.AuthProvider.RefreshSession: the reply of the session endpoint is a parameter. `app/api/auth/session/route.ts` is not part of this model.
- CheckoutSuccessPage.Confirmation.CreateOrder: a run is one atomic step, request and reply together. In the source the guard reads `orderCreated` from the render in which the effect started, and the flag is set only after the awaited reply (app/checkout/success/page.tsx:21, 51). The effect can start again while a request is in flight: its dependencies include `clearCart`, which the provider re-creates on every render, and React strict mode (next.config.js:17) runs effects twice in development. Two overlapping runs can then both post. "A later run sends nothing" holds only for runs that start after the previous one finished.
- AuthContext.AuthProvider.RefreshSession: the request and its reply are one step, so the interval in which `isLoading` is still true and the user not yet set, and refreshes that overlap, are not modelled.
- CheckoutPage.Checkout.HandleSubmit: the request and its reply are one step, so the interval in which `isProcessing` is true, and a second submit during it, are not modelled.
- AuthContext.AuthProvider.Logout: `/api/auth/logout` is not part of this model. Only whether its request resolved or threw is a parameter.
- OrderCreateRoute.ToNumber: reads strings with exponents, hexadecimal prefixes or "Infinity" as NaN, where JavaScript's `Number` accepts them. JSON arrays are not modelled as request values.
- SignupRoute.Signup, LoginRoute.Login: request fields that are present but are not strings (numbers, objects) are not modelled. A field is either a string or missing.
- Pagination.GetPageNumbers: `currentPage` and `totalPages` are integers. NaN and fractional page numbers are not modelled.
- CheckoutPage.Tax: amounts are exact (integer cents and an exact 8%). IEEE double rounding and `toFixed(2)` display formatting are not modelled.
- AddToCartButton.Button.SuccessTimeout: models the timer callback. The two-second scheduling is not modelled.
- The disabled state of the stepper and of the add button, and the rest of the rendering, are not modelled. The handler's own stock guard is.
- The random order-number suffix, `Date.now()`, `new Date()` and the `viewedAt` timestamp are parameters. The "sold" count on the product tile is random and is left out.
- `app/cart/page.tsx` is not part of this model. It reads a `cart` value that the cart context does not provide.

## Findings

| source | as written | input that shows it | evidently intended | confidence | as-written member | corrected member |
|---|---|---|---|---|---|---|
| components/AddToCartButton.tsx:30 | `addToCart(product, quantity, selectedSize \|\| undefined)` passes three arguments to an `addToCart` that takes one item object. The context reads the product object as the item, which has an `id` and `slug` but no name, price, size or quantity. The call does not type-check (three arguments for a one-parameter `addToCart`, and `Product` has no top-level `name` or `price`), and next.config.js:7 keeps type errors fatal, so `next build` rejects the file; the behaviour described is that of a build that skips type checking. | A product not yet in the cart, quantity 3, size "M": the cart gains one line with 1 unit, no size, name "" and price 0. | The item `{id, name, price, image, slug, size, quantity}` built from the product and the chosen quantity and size | not executed | AddToCartButton.AsWrittenLosesChoice | AddToCartButton.ItemForKeepsChoice |
| app/checkout/page.tsx:64-78 | The order body has no `userId`, and the order route refuses any `userId` that differs from the session's (app/api/orders/create/route.ts:31-36). | Any checkout by a signed-in user: the route answers 403 and no order is stored. | The body carries the signed-in user's id. | not executed | CheckoutPage.AsWrittenCheckoutRefused | CheckoutPage.CorrectedCheckoutAccepted |
| app/checkout/success/page.tsx:33-45 | The confirmation page's order body has no `userId` either. | Any signed-in visit with a non-empty cart: 403, no order stored | The body carries the signed-in user's id. | not executed | CheckoutSuccessPage.AsWrittenOrderRefused | CheckoutSuccessPage.CorrectedOrderAccepted |
| app/checkout/success/page.tsx:50 | `setOrderNumber(data.orderNumber)`, but the route replies `{ success, order }` (app/api/orders/create/route.ts:63-66). | Any ok reply: the order number is undefined and never shown. | The number of the returned order, `data.order.metadata.order_number` | not executed | CheckoutSuccessPage.OrderNumberNeverShown | CheckoutSuccessPage.OrderNumberShown |
| contexts/AuthContext.tsx:97-100 | `logout` awaits `fetch('/api/auth/logout')` and only then calls `setUser(null)`. When the request rejects, the user is never cleared and the rejection propagates to `handleLogout` (components/Header.tsx:12-15), which then skips `router.push('/')`. | A signed-in user signs out while the network is down: the user stays signed in and stays on the page. | Signed out locally whether or not the request succeeds | not executed | AuthContext.LogoutFailureKeepsUser | AuthContext.AuthProvider.LogoutIntended |
