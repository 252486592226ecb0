# FoodHub front end, modelled in Dafny

FoodHub is a meal-ordering web application: customers browse meals from
provider shops, keep a cart, and check out; providers run their menu, their
order board and their reviews; administrators manage users and orders. This
project models the client-side logic of its Next.js front end:

- the cart store and its persistence in browser storage;
- the session store: restore on start, `login`, `logout`;
- the HTTP client's request and response interceptors;
- the route guard;
- the checkout and cart pages' order handlers;
- the provider order board's workflow rules;
- the provider review and dashboard statistics;
- the search filters of the admin and provider-directory pages;
- the meal browser's category toggle and query strings;
- registration checks and payloads;
- the header's role-based links;
- the review dialog;
- the dashboard page frame's title rendering.

## How the model is built

- **Modules.** Each source file is one module; `Types`, `Strings`, `Seqs` and
  `Json` hold the shared vocabulary.
- **The browser.** `Platform.Browser` is one object shared by every store and
  page. It holds browser storage as a map from key to the JSON value the stored
  text denotes (the token is a raw string, held as `JStr`), the current
  pathname, and an event log.
- **Effects.** Navigation, `window.location.href`, toasts, console output,
  issued requests and component callbacks are appended to the event log.
- **Network results.** The result of every network call is an input
  (`ApiOutcome`): success with data, an HTTP error with a status and a body, or
  a network error.
- **`Http.Send` and `Http.Settle`.** `Send` runs the request interceptor at the
  moment the request leaves, so the logged `Authorization` value is the token
  stored then. `Settle` runs the response interceptor on a failure.
- **Concurrent calls.** `Promise.all` is modelled as all requests sent first,
  then all responses settled in the order they are listed.
- **Stores and pages.** Most are classes whose fields are the component state,
  and every method states its whole new state. Three pages are modelled without
  a class. The register page's state (`selectedRole`, `isLoading` and the form
  values) is a `Register.PageState` value, which its functions and
  `Register.Submit` return. The admin orders page is modelled only by its
  filter, and the admin users page by its filter, its patch and its toasts, all
  as pure functions. The two composed checkout runs,
  `Checkout.CheckoutPage.PlaceOrderAndRerender` and
  `Checkout.CheckoutPage.IntendedPlaceOrderAndRerender`, are the exception: they
  state the accepted-order branch and the pathname only, and `PlaceOrder`
  states the rest.
- **Specification functions.** Where the logic is pure it is a function, such
  as `Cart.AddMeal` or `Auth.Boot`. The method that carries out that logic is
  proved to equal it, and the lemmas are proved about the function.

## Model

| member | source | states |
|---|---|---|
| Platform.StoredToken | src/lib/axios.ts:13-14 | a token is read exactly when the `token` key holds a non-empty string, and it is that string |
| Platform.Browser.SetItem | src/context/CartContext.tsx:34 | `setItem` replaces that one key and changes nothing else |
| Platform.Browser.RemoveItem | src/context/AuthContext.tsx:75-76 | `removeItem` drops that one key and changes nothing else |
| Cart.CartStore.constructor | src/context/CartContext.tsx:24 | the cart starts empty |
| Cart.Find | src/context/CartContext.tsx:39 | `find` returns a line of `ls` with the requested id, and returns nothing exactly when no line has that id |
| Cart.FindIsFirst | src/context/CartContext.tsx:39 | `find` returns the first line with the id: the line at index `i` when no earlier line has that id |
| Cart.Increment | src/context/CartContext.tsx:42-44 | the `map` keeps length and position; the line with the id gains one unit, and every other line is unchanged |
| Cart.SetQuantity | src/context/CartContext.tsx:61-63 | the `map` keeps length and position; the line with the id gets quantity `q`, and every other line is unchanged |
| Cart.AddExisting | src/context/CartContext.tsx:39-44 | adding a meal already present raises only that line by one; length and order are unchanged |
| Cart.AddNew | src/context/CartContext.tsx:46-47 | adding an absent meal appends exactly one line of quantity 1 at the end |
| Cart.AddKeepsUnique | src/context/CartContext.tsx:38-48 | adding keeps meal ids unique |
| Cart.AddMeal | src/context/CartContext.tsx:37-49 | `addToCart`'s new lines keep every quantity at 1 or more (AddExisting and AddNew give the two cases exactly) |
| Cart.AddAllKeepsInvariants | src/context/CartContext.tsx:38-48 | any sequence of adds keeps ids unique and quantities positive |
| Cart.RepeatedAdds | src/context/CartContext.tsx:38-48 | `n` adds of one absent meal end with one line of quantity `n` |
| Cart.IncrementWithoutId | src/context/CartContext.tsx:42-44 | the increment leaves a cart without that id unchanged |
| Cart.RemoveMeal | src/context/CartContext.tsx:52 | after the filter no line has the id, and the cart is no longer than before |
| Cart.ChangeQuantity | src/context/CartContext.tsx:56-64 | `updateQuantity`'s new lines keep ids unique and quantities positive, on both of its branches |
| Cart.TotalItems | src/context/CartContext.tsx:71 | the `reduce` over quantities; its laws are the lemmas EmptyTotals, TotalsAppend, TotalItemsBounds, IncrementTotals, AddTotals and RemoveTotals |
| Cart.TotalPrice | src/context/CartContext.tsx:72 | the `reduce` over price times quantity; its laws are the lemmas EmptyTotals, TotalsAppend, TotalPriceNonNegative, IncrementTotals and AddTotals |
| Cart.RemoveSpec | src/context/CartContext.tsx:52 | after removal no line has the id; the rest is an order-preserving subsequence that keeps every other line |
| Cart.RemoveAbsent | src/context/CartContext.tsx:52 | removing an absent id changes nothing |
| Cart.RemoveKeepsInvariants | src/context/CartContext.tsx:52 | removal keeps ids unique and quantities positive |
| Cart.UpdateNonPositiveRemoves | src/context/CartContext.tsx:57-60 | a quantity of 0 or less is exactly a removal |
| Cart.UpdatePositiveSets | src/context/CartContext.tsx:61-63 | a positive quantity sets the matching line to exactly `q` and touches no other line |
| Cart.SetKeepsInvariants | src/context/CartContext.tsx:61-63 | setting a positive quantity keeps ids unique and quantities positive |
| Cart.EmptyTotals | src/context/CartContext.tsx:71-72 | an empty cart totals 0 items and 0 price |
| Cart.TotalsAppend | src/context/CartContext.tsx:71-72 | both folds are additive over concatenation |
| Cart.IncrementTotals | src/context/CartContext.tsx:71-72 | with unique ids, an increment of a present meal adds one item and that meal's price |
| Cart.AddTotals | src/context/CartContext.tsx:71-72 | with unique ids, `addToCart` adds exactly one item and one unit of the meal's price |
| Cart.RemoveTotals | src/context/CartContext.tsx:71 | removal lowers the item count by exactly the removed meal's quantity |
| Cart.TotalItemsBounds | src/context/CartContext.tsx:71 | with positive quantities the count is at least the number of lines, and positive exactly when the cart is non-empty |
| Cart.TotalPriceNonNegative | src/context/CartContext.tsx:72 | positive quantities and non-negative prices give a non-negative total |
| Cart.ClearedCartDecodesEmpty | src/context/CartContext.tsx:66-69 | the stored value after clearing decodes to the empty cart |
| Cart.CartStore.Persist | src/context/CartContext.tsx:33-35 | the save effect writes the encoded lines under `cart`, and the entry reads back as the lines |
| Cart.CartStore.Mount | src/context/CartContext.tsx:26-35 | a present, non-empty, decodable stored cart replaces the lines; the save effect then writes it back |
| Cart.CartStore.AddToCart | src/context/CartContext.tsx:37-49 | the lines become `AddMeal(old lines, meal)` and their encoding is stored under `cart`; toasts the increase or the addition; keeps the invariants |
| Cart.CartStore.RemoveFromCart | src/context/CartContext.tsx:51-54 | the lines become `RemoveMeal`, and their encoding is stored; toasts "Removed from cart"; keeps the invariants |
| Cart.CartStore.UpdateQuantity | src/context/CartContext.tsx:56-64 | the lines become `ChangeQuantity`, and their encoding is stored; toasts only on removal; keeps the invariants |
| Cart.CartStore.ClearCart | src/context/CartContext.tsx:66-69 | the lines become empty and storage holds the encoding of `[]` |
| Json.MealRoundTrip | src/context/CartContext.tsx:29-34 | a meal's fields decode back to the meal |
| Json.LineRoundTrip | src/context/CartContext.tsx:29-34 | a cart line `{...meal, quantity}` decodes back to the line |
| Json.LinesRoundTrip | src/context/CartContext.tsx:29-34 | a list of lines decodes back to itself |
| Json.CartRoundTrip | src/context/CartContext.tsx:29-34 | `JSON.parse(JSON.stringify(cart))` gives the cart back |
| Json.RoleFromName | src/types/index.ts:1 | a recognised role name names that role |
| Json.RoleRoundTrip | src/types/index.ts:1 | every role's name reads back as the role |
| Json.ProfileRoundTrip | src/types/index.ts:12-20 | a provider profile decodes back to itself |
| Json.UserRoundTrip | src/context/AuthContext.tsx:33-41 | the stored user decodes back to the user |
| Auth.LandingFor | src/context/AuthContext.tsx:65-67 | ADMIN lands on /admin/dashboard, PROVIDER on /provider/dashboard, any other role on / (each an iff) |
| Auth.AuthStore.constructor | src/context/AuthContext.tsx:20-22 | the store starts signed out and loading |
| Auth.AuthStore.Logout | src/context/AuthContext.tsx:72-79 | both fields become null, both keys are removed, then navigation to /login and a toast |
| Auth.AuthStore.Login | src/context/AuthContext.tsx:58-70 | both fields are set, both keys stored, then the role's landing page and the welcome toast |
| Auth.AuthStore.FetchProfile | src/context/AuthContext.tsx:38-51 | after the stored session is restored: the profile call and the effects of each outcome, as `AfterProfile` gives them |
| Auth.AuthStore.Bootstrap | src/context/AuthContext.tsx:25-56 | the session, storage and events after the mount effect are those of `Boot`; loading ends false on every branch |
| Auth.BootKeepsPaired | src/context/AuthContext.tsx:27-53 | every branch keeps a user present exactly when a token is |
| Auth.NoTokenNoRequest | src/context/AuthContext.tsx:27-30 | with no stored token nothing is requested and nothing changes |
| Auth.BootSuccess | src/context/AuthContext.tsx:38-41 | success adopts the server user, keeps the stored token, re-stores the user, and the request carries `Bearer <token>` |
| Auth.BootAuthFailureSignsOut | src/context/AuthContext.tsx:44-46 | a 401 or 403 signs out: both fields null, both keys gone, no token for the next call, and the logout events last |
| Auth.BootOtherFailureKeeps | src/context/AuthContext.tsx:47-50 | any other failure keeps the session restored from storage and the storage itself |
| Auth.Boot | src/context/AuthContext.tsx:27-53 | something is logged exactly when a token is stored; without one the session and storage are left as they were |
| Auth.AfterProfile | src/context/AuthContext.tsx:38-51 | the first thing logged is the profile request with the stored token's header; a 401 or 403 ends with no user, no token, and neither key stored |
| Auth.EmptyStoredUserStillFetches | src/context/AuthContext.tsx:30-50 | an empty stored `user` is falsy: nothing is restored, the profile is still requested with the token, success adopts the server user and any other failure keeps the session |
| Auth.TokenWithoutUserStaysSignedOut | src/context/AuthContext.tsx:30-50 | a token stored without a user, then an other failure: the store stays signed out while the token stays stored |
| Auth.LogoutIdempotent | src/context/AuthContext.tsx:72-77 | signing out twice leaves the same storage as once, with neither key present |
| Auth.ReloadAfterLogin | src/context/AuthContext.tsx:25-62 | after `login(t, u)` a reload restores `u` (or the fresh server user) with `t`, and the profile request carries `Bearer t` |
| Auth.ReloadAfterLogout | src/context/AuthContext.tsx:72-77 | after `logout` a reload makes no request and stays signed out |
| Auth.SessionKeepsCart | src/context/AuthContext.tsx:58-79 | login and logout never touch the stored cart |
| Http.BearerHeader | src/lib/axios.ts:11-19 | a header is attached exactly when a non-empty token is stored, and it is `Bearer ` + token |
| Http.InterceptRequest | src/lib/axios.ts:11-19 | the interceptor changes only the `Authorization` header, and only when a token is stored |
| Http.UserMessage | src/lib/axios.ts:24-30 | the first truthy of data.message, data.error and error.message, else the default text; never empty |
| Http.MessageOr | src/app/register/page.tsx:83 | `error.response?.data?.message` when truthy, else the fallback; non-empty whenever the fallback is |
| Http.OnResponseError | src/lib/axios.ts:21-49 | the rejected error carries the user message; storage and events are `StorageAfterError` and `ErrorEvents` |
| Http.StorageAfterError | src/lib/axios.ts:32-40 | a 401 that ends the session leaves neither `token` nor `user`; the `cart` entry is always kept |
| Http.ErrorEvents | src/lib/axios.ts:32-45 | at most two effects, and none exactly when the session does not end and the status is not 429 |
| Http.Send | src/lib/axios.ts:11-19 | logs the request with the header the storage gives at that moment; changes no storage |
| Http.Settle | src/lib/axios.ts:21-49 | success passes through untouched; a failure goes through the response interceptor |
| Http.Call | src/lib/axios.ts:11-49 | one request: the request log entry, then the interceptor's storage and events on failure |
| Http.UnauthorizedEndsSession | src/lib/axios.ts:32-40 | a 401 off the public pages removes exactly `token` and `user` and sets the session-expired location |
| Http.UnauthorizedOnPublicPage | src/lib/axios.ts:33-35 | a 401 on /login, /register or / changes neither storage nor location |
| Http.OtherStatusesKeepSession | src/lib/axios.ts:32-45 | any status but 401 keeps storage; only 429 logs the rate-limit warning |
| Http.CartUntouched | src/lib/axios.ts:37-38 | the interceptor never touches the stored cart |
| Http.NoStaleToken | src/lib/axios.ts:32-40 | after a 401 off the public pages, the next request carries no token |
| Guard.Redirect | src/components/auth/ProtectedRoute.tsx:17-25 | no redirect while loading; /login exactly when done without a user; / exactly when done with a user whose role is not allowed |
| Guard.View | src/components/auth/ProtectedRoute.tsx:27-47 | the loading screen shows exactly while loading |
| Guard.ChildrenIff | src/components/auth/ProtectedRoute.tsx:17-53 | children render exactly when done, signed in and allowed, which is exactly when no redirect fires |
| Guard.NothingRedirects | src/components/auth/ProtectedRoute.tsx:49-51 | whenever nothing is rendered, a redirect fires |
| Guard.NoRoleListAdmitsAll | src/components/auth/ProtectedRoute.tsx:21 | without a role list every signed-in user sees the children |
| Guard.EmptyRoleListDeniesAll | src/components/auth/ProtectedRoute.tsx:21-22 | an empty role list sends every user home |
| Checkout.OnlyCustomersCheckOut | src/app/checkout/page.tsx:19 | the page shows its content to a user exactly when the user is a customer; others are sent to / |
| Checkout.OrderItems | src/app/checkout/page.tsx:52-56 | one item per cart line, in cart order, copying id, quantity and price |
| Checkout.OrderTotalMatchesCart | src/app/checkout/page.tsx:52-56 | the posted items cost exactly the cart's `totalPrice` |
| Checkout.OrderItemsUnique | src/app/checkout/page.tsx:52-56 | a cart with unique ids posts each meal once |
| Checkout.PostOrder | src/app/checkout/page.tsx:58-67 | success toasts, clears the cart and goes to /orders/success; failure keeps the cart and toasts the reason |
| Checkout.CheckoutPage.OnCartChange | src/app/checkout/page.tsx:32-36 | an empty cart navigates to /meals, and nothing else happens |
| Checkout.CheckoutPage.PlaceOrder | src/app/checkout/page.tsx:38-71 | no user: a toast and /login, nothing posted; blank trimmed address: a toast, nothing posted; otherwise `{address, items}` is posted, and the loading flag ends false |
| Checkout.CheckoutPage.PlaceOrderAndRerender | src/app/checkout/page.tsx:32-65 | after an accepted order the cart is empty and the log ends with the push to /orders/success followed by the `[cart]` effect's push to /meals |
| Checkout.CheckoutPage.OnCartChangeUnlessPlaced | src/app/checkout/page.tsx:32-36 | the effect with a guard for a just-placed order: an emptied cart navigates to /meals only when no order was placed, and nothing else happens |
| Checkout.CheckoutPage.IntendedPlaceOrderAndRerender | src/app/checkout/page.tsx:32-65 | with the guarded effect, after an accepted order the cart is empty and the push to /orders/success is the last thing logged |
| Checkout.BlankAddressRefused | src/app/checkout/page.tsx:45-48 | an address of whitespace only trims to "" and is refused |
| CartPage.ViewOf | src/app/cart/page.tsx:58-71 | the empty state shows exactly when the cart is empty; otherwise the list holds the lines |
| CartPage.ItemsLabelVersusUnits | src/app/cart/page.tsx:140 | the "Items (n)" count never exceeds the unit count |
| CartPage.ItemsLabelUndercounts | src/app/cart/page.tsx:140 | one line of two units is labelled 1 |
| CartPage.MinusAtOneRemoves | src/app/cart/page.tsx:103 | minus on a line of one unit removes the line |
| CartPage.PlusAddsOne | src/app/cart/page.tsx:110 | plus raises only that line by one unit |
| CartPage.AddressTestsDiffer | src/app/cart/page.tsx:30-33 | " " passes the `!address` test though it trims to "" |
| CartPage.CartPage.Minus | src/app/cart/page.tsx:103 | calls `updateQuantity(id, q - 1)`: the store's new lines, storage and toasts |
| CartPage.CartPage.Plus | src/app/cart/page.tsx:110 | calls `updateQuantity(id, q + 1)` |
| CartPage.CartPage.Trash | src/app/cart/page.tsx:119 | calls `removeFromCart(id)` |
| CartPage.CartPage.HandleCheckout | src/app/cart/page.tsx:23-56 | refuses only an empty address; posts `{address, orderItems}`; the same success and failure effects as the checkout page |
| ProviderOrders.FilterSpec | src/app/provider/orders/page.tsx:72 | ALL keeps every order; a status keeps exactly its orders; the result is an order-preserving subsequence |
| ProviderOrders.FilterOrders | src/app/provider/orders/page.tsx:72 | under a status filter every listed order has that status; the list is never longer than the orders |
| ProviderOrders.Actions | src/app/provider/orders/page.tsx:181-224 | at most two buttons, and when there are any the last one is Reject (CANCELLED) |
| ProviderOrders.CancelledOnlyUnderAll | src/app/provider/orders/page.tsx:72-85 | under the offered filters a cancelled order shows exactly under ALL |
| ProviderOrders.NoCancelledOption | src/app/provider/orders/page.tsx:85 | no filter button selects CANCELLED |
| ProviderOrders.ForwardButtons | src/app/provider/orders/page.tsx:183-217 | PLACED offers PREPARING, PREPARING offers READY, READY offers DELIVERED, each beside Reject |
| ProviderOrders.ButtonsIffLive | src/app/provider/orders/page.tsx:181-224 | a status offers buttons exactly when it is not DELIVERED or CANCELLED, and then it offers a reject |
| ProviderOrders.ForwardOnly | src/app/provider/orders/page.tsx:181-219 | every button moves one stage forward or cancels; none returns or stays |
| ProviderOrders.ProviderOrdersPage.SetFilter | src/app/provider/orders/page.tsx:85 | a filter button changes only the filter |
| ProviderOrders.ProviderOrdersPage.FetchOrders | src/app/provider/orders/page.tsx:46-56 | success replaces the orders, failure keeps them and toasts; loading ends false |
| ProviderOrders.ProviderOrdersPage.UpdateStatus | src/app/provider/orders/page.tsx:62-70 | PATCH `/provider/orders/<id>`; success toasts the new status and refetches; failure toasts and does not refetch |
| ProviderReviews.ResponseReviews | src/app/provider/reviews/page.tsx:41-43 | a failed per-meal fetch gives no reviews |
| ProviderReviews.Tag | src/app/provider/reviews/page.tsx:47-52 | each review is paired with its meal, in order |
| ProviderReviews.Flatten | src/app/provider/reviews/page.tsx:47-52 | the `flatMap` itself; the four lemmas below state its length, its split over concatenation and where each review lands |
| ProviderReviews.FlattenAppend | src/app/provider/reviews/page.tsx:47-52 | flattening two runs of meals gives the two flattened lists one after the other |
| ProviderReviews.FlattenLength | src/app/provider/reviews/page.tsx:47-52 | the flattened list holds as many reviews as the responses do |
| ProviderReviews.FlattenSplit | src/app/provider/reviews/page.tsx:47-52 | the flattened list is the reviews of the meals before meal `k`, then meal `k`'s tagged reviews, then those of the meals after it |
| ProviderReviews.FlattenAt | src/app/provider/reviews/page.tsx:47-52 | review `j` of meal `k` sits at the count of reviews before meal `k` plus `j`, tagged with meal `k` |
| ProviderReviews.FlattenSpec | src/app/provider/reviews/page.tsx:47-52 | for every meal `k` and review `j`, review `j` of meal `k` is at position (reviews before meal `k`) + `j`, tagged with meal `k`, and the list holds exactly the responses' reviews |
| ProviderReviews.ComputeStats | src/app/provider/reviews/page.tsx:57-69 | the total is the number of reviews, no star count exceeds it, and no reviews average 0 |
| ProviderReviews.FailedMealContributesNothing | src/app/provider/reviews/page.tsx:41-43 | a meal whose fetch fails adds no reviews |
| ProviderReviews.StarCountsSum | src/app/provider/reviews/page.tsx:65-69 | the five counts add up to the number of reviews rated 1 to 5 |
| ProviderReviews.StarCountsBound | src/app/provider/reviews/page.tsx:57-69 | the counts sum to at most the total, and to exactly the total when every rating is 1 to 5 |
| ProviderReviews.SumRatingsBounds | src/app/provider/reviews/page.tsx:58-60 | ratings of 1 to 5 sum to between `n` and `5n` |
| ProviderReviews.AverageBounds | src/app/provider/reviews/page.tsx:58-60 | no reviews averages 0; ratings of 1 to 5 average between 1 and 5 |
| ProviderReviews.StarCountMatches | src/app/provider/reviews/page.tsx:127-128 | the count read under rating `r`'s key is the number of reviews rated `r` |
| ProviderReviews.Percentage | src/app/provider/reviews/page.tsx:129 | 0 when there are no reviews; between 0 and 100 for a count within the total |
| ProviderReviews.ReviewRequests | src/app/provider/reviews/page.tsx:39-44 | one request per meal, in meal order, each to `/reviews/meal/<id>` with the same header |
| ProviderReviews.Outcomes | src/app/provider/reviews/page.tsx:39-44 | the k-th outcome is the k-th meal's |
| ProviderReviews.Responses | src/app/provider/reviews/page.tsx:39-44 | the k-th response is the k-th meal's reviews, or none on failure |
| ProviderReviews.SendReviewRequests | src/app/provider/reviews/page.tsx:39-44 | the loop issues exactly `ReviewRequests`, reading the token once for all of them |
| ProviderReviews.SettleInOrder | src/app/provider/reviews/page.tsx:44 | the responses pass the response interceptor one after the other, in list order |
| ProviderReviews.SettleReviewResponses | src/app/provider/reviews/page.tsx:41-44 | the call yields `Responses` and settles each failure through the interceptor, in meal order |
| ProviderReviews.ProviderReviewsPage.LoadReviews | src/app/provider/reviews/page.tsx:41-70 | after the meal list: the review requests sent, their responses settled, and the tagged reviews and their stats stored |
| ProviderReviews.ProviderReviewsPage.FetchReviews | src/app/provider/reviews/page.tsx:33-76 | a failed meal list keeps the state and toasts; otherwise the tagged reviews and their stats are stored; loading ends false |
| ProviderDashboard.StatsAfterFetch | src/app/provider/dashboard/page.tsx:37-45 | meal and order counts are the list lengths when both calls succeed; on any failure the figures are the initial zeros |
| ProviderDashboard.ComputeStats | src/app/provider/dashboard/page.tsx:37-42 | the meal and order counts are the two list lengths; two empty lists give the initial zeros |
| ProviderDashboard.Earnings | src/app/provider/dashboard/page.tsx:41 | with no delivered order the earnings are 0 |
| ProviderDashboard.EarningsAreDelivered | src/app/provider/dashboard/page.tsx:41 | earnings are the amount sum over exactly the delivered orders |
| ProviderDashboard.UndeliveredAddsNothing | src/app/provider/dashboard/page.tsx:41 | an undelivered order does not change earnings |
| ProviderDashboard.EmptyMenuRatesZero | src/app/provider/dashboard/page.tsx:40 | an empty menu averages 0 (the divisor guard) |
| ProviderDashboard.RatingSumBounds | src/app/provider/dashboard/page.tsx:40 | ratings within 0 to 5 sum to between 0 and `5n` |
| ProviderDashboard.AverageBounds | src/app/provider/dashboard/page.tsx:40 | ratings within 0 to 5 average within 0 to 5 |
| ProviderDashboard.EarningsBounds | src/app/provider/dashboard/page.tsx:41 | non-negative amounts give earnings between 0 and the sum of all amounts |
| ProviderDashboard.FailureKeepsZeros | src/app/provider/dashboard/page.tsx:43-45 | a failure leaves the figures at zero |
| ProviderDashboard.ProviderDashboardPage.FetchStats | src/app/provider/dashboard/page.tsx:26-46 | both requests go out before either settles; figures are set only when both succeed; failure logs to the console |
| AdminOrders.FilterSpec | src/app/admin/orders/page.tsx:53-58 | an order is listed exactly when it matches the search and the status; the list is an order-preserving subsequence |
| AdminOrders.FilterOrders | src/app/admin/orders/page.tsx:53-58 | every listed order matches both the search and the status filter; the list is never longer than the orders |
| AdminOrders.EmptyTermMatchesAll | src/app/admin/orders/page.tsx:54 | the empty term matches every order |
| AdminOrders.UserlessMatchesById | src/app/admin/orders/page.tsx:55 | an order without a customer matches exactly when its id does |
| AdminOrders.SearchIgnoresTermCase | src/app/admin/orders/page.tsx:54-55 | the search gives the same answer for the term and its lower-case form |
| AdminOrders.AllIsSearchOnly | src/app/admin/orders/page.tsx:56-57 | with ALL selected the list is the search alone |
| AdminOrders.ClearedShowsAll | src/app/admin/orders/page.tsx:169 | after "Clear All Filters" every order is listed |
| AdminOrders.CancelledSelectable | src/app/admin/orders/page.tsx:86-91 | the selector offers CANCELLED |
| AdminUsers.FilterSpec | src/app/admin/users/page.tsx:51-54 | a user is listed exactly when the name or e-mail matches; the list is an order-preserving subsequence |
| AdminUsers.FilterUsers | src/app/admin/users/page.tsx:51-54 | every listed user matches the term; the list is never longer than the users |
| AdminUsers.EmptyTermKeepsAll | src/app/admin/users/page.tsx:51-54 | the empty term lists everyone |
| AdminUsers.TogglePatch | src/app/admin/users/page.tsx:43 | the patch asks for the opposite of `currentStatus` |
| AdminUsers.SuccessText | src/app/admin/users/page.tsx:44 | one of the two messages, and "User suspended" exactly when the account was active |
| AdminUsers.ToggleToast | src/app/admin/users/page.tsx:44-48 | a success toast exactly when the patch was accepted, saying "suspended" exactly for an active account; otherwise the fixed failure text |
| AdminUsers.SuccessTextNamesRequest | src/app/admin/users/page.tsx:43-44 | the toast says "suspended" exactly when the patch asks for inactive |
| AdminUsers.ButtonFor | src/app/admin/users/page.tsx:118-135 | no button for administrators; Suspend exactly for active accounts; Activate exactly for suspended ones |
| AdminUsers.ArgumentAsWritten | src/app/admin/users/page.tsx:119-132 | as the buttons are written, the argument is the opposite of the flag of the account the button is shown for |
| AdminUsers.Argument | src/app/admin/users/page.tsx:118-135 | the intended argument is the flag of the account the button is shown for |
| AdminUsers.Click | src/app/admin/users/page.tsx:118-135 | as written: a click sends a patch exactly when the account is not an administrator's |
| AdminUsers.IntendedClick | src/app/admin/users/page.tsx:118-135 | with the intended argument: a click sends a patch exactly when the account is not an administrator's |
| AdminUsers.AsWrittenButtonsKeepStatus | src/app/admin/users/page.tsx:119-132 | as written, a button sends back the flag the account already has, and the toast announces the opposite |
| AdminUsers.SuspendAsWrittenActivates | src/app/admin/users/page.tsx:123 | Suspend on an active customer posts `isActive: true` and toasts "User activated" |
| AdminUsers.ClickFlipsStatus | src/app/admin/users/page.tsx:41-44 | with the intended argument a button flips the flag and the toast names the new status |
| AdminUsers.AdminsUntouchable | src/app/admin/users/page.tsx:118 | an administrator's row never sends a patch |
| Providers.FilterSpec | src/app/providers/page.tsx:32-35 | a provider is listed exactly when the shop name or cuisine matches; the list is an order-preserving subsequence |
| Providers.FilterProviders | src/app/providers/page.tsx:32-35 | every listed provider matches the term; the list is never longer than the providers |
| Providers.NoCuisineMatchesByName | src/app/providers/page.tsx:34 | a provider without a cuisine matches exactly through its shop name |
| Providers.EmptyTermKeepsAll | src/app/providers/page.tsx:33 | the empty term lists every provider |
| Providers.ProvidersPage.FetchProviders | src/app/providers/page.tsx:18-30 | success replaces the list, failure logs to the console; loading ends false either way |
| Meals.Get | src/app/meals/page.tsx:25-26 | `get` finds nothing exactly when no pair has the key |
| Meals.SetParam | src/app/meals/page.tsx:69 | after `set` the key reads as the new value |
| Meals.DeleteParam | src/app/meals/page.tsx:70 | after `delete` no pair has the key, and the list is never longer |
| Meals.Serialize | src/app/meals/page.tsx:48 | "" exactly for no pairs; otherwise it begins with the first pair's `key=value` |
| Meals.SetParamSpec | src/app/meals/page.tsx:69 | after `set` the key reads as the new value and all other pairs are where they were |
| Meals.DeleteParamSpec | src/app/meals/page.tsx:70 | after `delete` the key is gone and the rest is an order-preserving subsequence |
| Meals.SearchParams.Append | src/app/meals/page.tsx:45-46 | `append` adds one pair at the end |
| Meals.SearchParams.Set | src/app/meals/page.tsx:69 | the entries become `SetParam` of the old ones |
| Meals.SearchParams.Delete | src/app/meals/page.tsx:70 | the entries become `DeleteParam` of the old ones |
| Meals.InitialValue | src/app/meals/page.tsx:25-26 | a missing parameter gives "", a present one its value |
| Meals.MealsQuery | src/app/meals/page.tsx:44-46 | `search` is present exactly when the term is non-empty, and `categoryId` exactly when the selection is; `search` comes first |
| Meals.BuildMealsQuery | src/app/meals/page.tsx:44-46 | the appends build exactly `MealsQuery` |
| Meals.ToggleTarget | src/app/meals/page.tsx:64 | the new selection is empty exactly when the id was selected or is empty; otherwise it is the id |
| Meals.ClearSelects | src/app/meals/page.tsx:102 | the Clear button always ends with no category |
| Meals.ToggleTwice | src/app/meals/page.tsx:64 | two presses of one category end on it if it started there, else on none; the start is restored exactly when it was that category or none |
| Meals.ToggledParams | src/app/meals/page.tsx:68-70 | `categoryId` is present afterwards exactly when the new selection is non-empty |
| Meals.ToggledParamsSpec | src/app/meals/page.tsx:68-70 | after the rewrite `categoryId` reads as the new selection or is absent, and the other parameters are unchanged |
| Meals.MealsPage.constructor | src/app/meals/page.tsx:22-26 | the term and category start from the URL, or "" |
| Meals.MealsPage.FetchMeals | src/app/meals/page.tsx:40-56 | requests `/meals?` + the serialised `MealsQuery`; success replaces the meals, failure logs; loading ends false |
| Meals.MealsPage.ToggleCategory | src/app/meals/page.tsx:63-72 | sets the toggled selection, rewrites `categoryId` and pushes `/meals?` + the new query |
| Register.CustomerAlwaysRefines | src/app/register/page.tsx:25-29 | a customer form always passes the refine |
| Register.ProviderNeedsShop | src/app/register/page.tsx:18-28 | a provider form is accepted exactly when the name and password are long enough and all three shop details are non-empty |
| Register.NoAdminSignup | src/app/register/page.tsx:21 | an ADMIN role is never accepted |
| Register.Refine | src/app/register/page.tsx:25-29 | a non-provider always passes; a provider that passes has all three shop details set |
| Register.InitialRole | src/app/register/page.tsx:43-44 | PROVIDER exactly when the `role` parameter is exactly "PROVIDER"; CUSTOMER otherwise |
| Register.Opened | src/app/register/page.tsx:40-51 | the page opens with the role buttons and the form on the same initial role, and `isLoading` false |
| Register.HandleRoleChange | src/app/register/page.tsx:53-56 | afterwards the role buttons and the form agree, on the chosen role |
| Register.RoleChangeSyncs | src/app/register/page.tsx:53-56 | a role change sets both to the chosen role and changes nothing else, `isLoading` included |
| Register.CustomerPayload | src/app/register/page.tsx:61-77 | a customer's body has exactly name, email, password and role |
| Register.ProviderPayload | src/app/register/page.tsx:66-75 | an accepted provider's body has the shop details flat and under `providerProfile`, with identical values |
| Register.Payload | src/app/register/page.tsx:61-77 | the four account keys are present, `role` holds the role's name, and `providerProfile` is present exactly for a provider |
| Register.Submit | src/app/register/page.tsx:58-87 | a rejected form posts nothing and leaves the page state alone; an accepted one posts its payload, then on success a toast and /login, on failure the reason, and `isLoading` ends false |
| Navbar.NavLinks | src/components/shared/Navbar.tsx:16-26 | everyone gets Browse Meals then Providers; providers add My Dashboard then My Menu; administrators add Admin Panel; no one else gets more |
| Navbar.DesktopControls | src/components/shared/Navbar.tsx:56-87 | cart, profile and logout exactly when signed in; login and register exactly when not |
| Navbar.BadgeIffCartNotEmpty | src/components/shared/Navbar.tsx:56-61 | the badge shows exactly when a signed-in user's cart has a line |
| Navbar.Header.ToggleMenu | src/components/shared/Navbar.tsx:93 | the menu button flips the menu |
| Navbar.Header.FollowMobileLink | src/components/shared/Navbar.tsx:109 | a mobile link closes the menu |
| Navbar.Header.MobileSignOut | src/components/shared/Navbar.tsx:124 | sign-out runs the store's logout, then closes the menu |
| ReviewModal.Parts | src/components/reviews/ReviewModal.tsx:111 | the kept arguments are non-empty and no more than were given |
| ReviewModal.Cn | src/components/reviews/ReviewModal.tsx:110-112 | the result begins with the first kept class name, and is exactly that name when only one is kept |
| ReviewModal.CnEmptyIff | src/components/reviews/ReviewModal.tsx:110-112 | `cn` gives "" exactly when no argument is truthy |
| ReviewModal.CnSplitsBack | src/components/reviews/ReviewModal.tsx:110-112 | space-free class names come back, in order, when the result is split on spaces |
| ReviewModal.PartsAppend | src/components/reviews/ReviewModal.tsx:111 | the truthy arguments of two runs of arguments are those of each run, in turn |
| ReviewModal.FalsyArgumentsVanish | src/components/reviews/ReviewModal.tsx:111 | a falsy argument anywhere leaves no trace |
| ReviewModal.ViewOf | src/components/reviews/ReviewModal.tsx:81-84 | a closed dialog renders nothing; an open one lights exactly the stars up to the rating |
| ReviewModal.Dialog.ClickStar | src/components/reviews/ReviewModal.tsx:72-76 | star `i + 1` sets the rating to `i + 1`, which stays within 1 to 5 |
| ReviewModal.Dialog.Submit | src/components/reviews/ReviewModal.tsx:39-56 | a comment under 3 characters posts nothing; otherwise the star rating is posted, and only success runs the toast, `onSuccess` and then `onClose` |
| ManagementPage.TitleWords | src/components/dashboard/ManagementPage.tsx:40-47 | one span per word of `title.split(" ")`, in order |
| ManagementPage.HighlightIff | src/components/dashboard/ManagementPage.tsx:42 | a word is highlighted exactly when it is the last and the title has a space; a one-word title has none |
| ManagementPage.HeadingText | src/components/dashboard/ManagementPage.tsx:40-47 | the heading reads as the title with one trailing space |
| ManagementPage.ShowsLoader | src/components/dashboard/ManagementPage.tsx:28 | no value means no overlay; otherwise the overlay follows `loading` |
| ManagementPage.ShowsActionSlot | src/components/dashboard/ManagementPage.tsx:52 | the action wrapper is drawn exactly when a truthy action is given |
| Strings.ToLower | src/app/admin/users/page.tsx:52-53 | `toLowerCase` keeps the length and lower-cases each character in place |
| Strings.ContainsSpec | src/app/admin/users/page.tsx:52-53 | `includes` holds exactly when the term occurs at some position |
| Strings.IgnoresCase | src/app/admin/users/page.tsx:52-53 | lower-casing the text or the term first changes no search answer |
| Strings.TrimEmptyIffBlank | src/app/checkout/page.tsx:45 | `trim()` gives "" exactly for strings of whitespace only |
| Strings.JoinSplit | src/components/dashboard/ManagementPage.tsx:40 | joining the split pieces with the separator gives the string back |
| Strings.SplitJoin | src/components/reviews/ReviewModal.tsx:111 | splitting a join of separator-free pieces gives the pieces back |
| Strings.SplitSingleIff | src/components/dashboard/ManagementPage.tsx:42 | a string splits into one piece exactly when it has no separator |
| Seqs.FilterMembers | src/context/CartContext.tsx:52 | an element survives `filter` exactly when it was there and matches |
| Seqs.FilterIsSubsequence | src/app/admin/orders/page.tsx:53 | `filter` keeps the original order |

## Left out

- Rendering: JSX markup, Tailwind classes and the AOS and framer-motion animations are not modelled. Only the decisions the markup makes are kept: what is rendered, what is highlighted, what is drawn.
- The remote API and `src/services/*.ts`: every call is an input outcome. Response bodies are trusted to have the declared shape.
- JSON text: storage holds the JSON value a text denotes, not the text. A cart entry that parses but is not a list of lines is treated as absent; the code would load it as is. The empty text is written `JStr("")`.
- Auth.AuthStore.Bootstrap: an absent or empty stored user is falsy and restores nothing. A non-empty stored user that does not decode is treated as `JSON.parse` throwing, which takes the non-auth branch before any request. A well-formed document of the wrong shape would instead be loaded into state.
- Request bodies are not part of the request log. The checkout, cart, register and review handlers return the body they post, and the admin users page exposes its patch as `AdminUsers.TogglePatch`.
- Async interleaving: each handler and effect runs to completion in call order. `Promise.all` responses are settled in list order. React's render and effect scheduling is not modelled.
- Server-side rendering is not modelled: `window` is taken to exist. The one exception is the register page's role parameter, where a missing `window` reads as a missing parameter.
- Strings.ToLower: lower-cases ASCII letters only. JavaScript's full Unicode case mapping is not modelled.
- Strings.IsWhitespace: the ECMAScript whitespace and line-terminator set is written out. Other Unicode space separators are not part of it.
- Lengths count Dafny characters, not UTF-16 code units. This concerns `min(2)`, `min(3)` and `min(6)`.
- Meals.Serialize: query values are not percent-encoded.
- Meals: the category fetch only fills a list for display and is not modelled.
- Email format checks on the register form belong to zod and are not modelled. The refine's error message and its field path are not modelled.
- Toast and console texts are logged as events; how toasts are displayed is not modelled.
- Floating point: money is `int`, ratings and averages are `real`. `toFixed` display and `formatCurrency` are not modelled.
- CRUD screens that only call the API and refetch are not part of this model (admin categories and reviews, provider menu, orders, profile). The same holds for the login page and the meal-creation forms.
- ManagementPage.ShowsActionSlot: an `action` node is only present or absent. A falsy node (`""`, `0`, `false`) draws no wrapper, and the model counts it as absent.
- Meals carry only the ids of their category and provider, and provider profiles carry no meal list. The nested `category`, `provider` and `meals` objects are display data: the cart page shows `item.provider?.user.name || "Provider"`, and that text is not modelled.
- AdminOrders and AdminUsers: neither page is modelled as a class, so their state is not modelled. This covers the fetch on mount, the `loading` flag and the admin users page's refetch after a status change. Each fetch is a GET whose result replaces the list, like the page fetches that are modelled.
- ProviderReviews.ProviderReviewsPage.FetchReviews: the loading flag is only stated to end false. The request order within `Promise.all` is fixed to meal order.

## Where the code and the documented behaviour differ

- Clearing the cart:
  - The documented behaviour is that the `cart` key is deleted.
  - The code's `clearCart` does delete it, but the lines become a new empty array. The `[cart]` save effect then writes `[]` back (src/context/CartContext.tsx:33-35,66-69).
  - The model follows the code: the stored value after clearing decodes to the empty cart.
- Auth failures:
  - The documented behaviour is that a 401 or 403 from any call forces a logout.
  - In the code only the start-up profile call treats 403 that way.
  - The interceptor reacts to 401 alone, by clearing storage and reloading at the login page, and leaves the in-memory store alone (src/lib/axios.ts:32-40).
- Start-up loading:
  - The documented behaviour allows `loading` to turn false as soon as a stored user is applied.
  - The code turns it false only once the profile call has settled, or at once when no token is stored (src/context/AuthContext.tsx:53).
  - The model follows the code.
- The two order handlers:
  - They differ. The checkout page trims the address and posts the items under `items`.
  - The cart page's handler, which no control calls, only refuses the empty string and posts under `orderItems`.
  - Both are modelled as written.

## Findings

| source | as written | input that shows it | evidently intended | confidence | as-written member | corrected member |
|---|---|---|---|---|---|---|
| src/app/admin/users/page.tsx:119-132 | Suspend calls `toggleStatus(id, false)` and Activate calls `toggleStatus(id, true)`, and `toggleStatus` sends `isActive: !currentStatus` | an active customer: Suspend sends `isActive: true` and toasts "User activated" | each button passes the account's own `isActive`, so Suspend sends `false` and Activate sends `true` | high; not executed | AdminUsers.ArgumentAsWritten, shown by AdminUsers.SuspendAsWrittenActivates | AdminUsers.Argument and AdminUsers.IntendedClick, proved by AdminUsers.ClickFlipsStatus |
| src/app/checkout/page.tsx:32-36 | the `[cart]` effect pushes /meals whenever the cart is empty, and `handlePlaceOrder` empties the cart just before pushing /orders/success (lines 63-65) | an accepted order: the log ends with `Navigate("/orders/success")` then `Navigate("/meals")`, so the success page is replaced by the menu | the success page stays: the effect does not redirect a cart emptied by a placed order | medium; not executed | Checkout.CheckoutPage.PlaceOrderAndRerender | Checkout.CheckoutPage.OnCartChangeUnlessPlaced and Checkout.CheckoutPage.IntendedPlaceOrderAndRerender |
