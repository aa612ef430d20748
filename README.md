# Delivery client state holders, modelled in Dafny

This project models the state-holding core of a food-delivery mobile client,
which exists in two variants.

- **Reducer variant** (`src/context/*`). Each context holds one record and
  changes it only through a reducer, `(state, action) -> state`. Provider
  operations check their inputs, write to key-value storage, and dispatch.
  This variant covers the shopping cart, the order lifecycle, saved addresses,
  received notifications, and the signed-in user's profile.
- **`useState` variant** (`Ubazol/src/context/*`). These are simpler
  in-memory holders, one field per piece of state:
  - a cart, which is emptied when an item from another vendor is added;
  - a list of orders;
  - saved addresses with a single default;
  - a notification log with read flags and an order-status message table.

Each core file is one Dafny module:

| module | file | source |
|---|---|---|
| `Common` | common.dfy | `Option`, `Outcome` (success or failure of a call), `Result` |
| `Seqs` | seqs.dfy | `filter`, `map`, `find`, `findIndex`, `reduce` over lists, with their laws |
| `Cart` | cart.dfy | src/context/CartContext.js |
| `Orders` | orders.dfy | src/context/OrderContext.js |
| `Location` | location.dfy | src/context/LocationContext.js |
| `Notifications` | notifications.dfy | src/context/NotificationContext.js |
| `User` | user.dfy | src/context/UserContext.js |
| `UbazolCart` | ubazol_cart.dfy | Ubazol/src/context/CartContext.js |
| `UbazolOrders` | ubazol_orders.dfy | Ubazol/src/context/OrderContext.js |
| `UbazolLocation` | ubazol_location.dfy | Ubazol/src/context/LocationContext.js |
| `UbazolNotifications` | ubazol_notifications.dfy | Ubazol/src/context/NotificationContext.js |

Modelling conventions:

- **Reducers.** Each reducer is a Dafny function `Reduce(State, Action): State`.
  The reducer's `default:` branch is the action `Unrecognized(tag)`.
- **Providers.** Each provider is a class.
  - A reducer provider holds the reducer's `state`. Its methods change it only
    through `Reduce`, in the same sequence of dispatches as the source.
  - Where the stored values matter, the class also holds them. The outcome of
    each storage write is a parameter.
  - A `useState` provider has one field per `useState`. Its methods reassign
    those fields.
- **Values.**
  - Prices are integer cents.
  - Ids and "now" are parameters. Order times are integers (milliseconds);
    other timestamps are strings.
  - Cart `options` are a canonical map compared with `==`. The source compares
    their `JSON.stringify` text.
  - User records and preferences are maps from keys to JSON values. An object
    spread is map union, with the right-hand side winning.
  - Dafny reserves the word `label`, so the `label` field of an address
    ("Home", "Work") is called `title` here.

## Model

| member | source | states |
|---|---|---|
| Seqs.Filter | src/context/CartContext.js:84-87 | `Array.filter`: the result keeps exactly the elements that pass, and it is never longer; when all elements pass it is the input |
| Seqs.FilterCounts | src/context/LocationContext.js:57-61 | filtering keeps every passing element as often as it occurred and drops every failing one |
| Seqs.FilterOrder | src/context/NotificationContext.js:44-48 | the filtered list is a subsequence of the input, so the survivors keep their relative order |
| Seqs.FilterIdempotent | src/context/UserContext.js:94-98 | filtering twice by the same test is filtering once, so removing the same id twice is removing it once |
| Seqs.Map | Ubazol/src/context/NotificationContext.js:42-44 | `Array.map`: same length, and element i of the result is the function applied to element i |
| Seqs.UpdateWhere | src/context/OrderContext.js:62-64 | `map(x => test(x) ? f(x) : x)`: same length, matching positions transformed, all others untouched |
| Seqs.UpdateWhereMissIsIdentity | src/context/OrderContext.js:62-64 | updating by an id no element carries returns the list unchanged |
| Seqs.FindIndex | src/context/CartContext.js:58-61 | `findIndex`: -1 exactly when nothing matches, otherwise the first matching position |
| Seqs.Find | Ubazol/src/context/OrderContext.js:52-54 | `find`: nothing exactly when no element matches, otherwise the first match |
| Seqs.SumConcat | src/context/CartContext.js:32-36 | a `reduce` sum over a concatenation is the sum of the two parts |
| Seqs.SumReplace | src/context/CartContext.js:64-69 | replacing one element changes the sum by the difference of the two terms |
| Seqs.SubsequenceIn | src/context/NotificationContext.js:44-48 | every element of a subsequence is an element of the list |
| Cart.FirstLineUnique | src/context/CartContext.js:58-61 | the line ADD_ITEM looks up is the first line with the same product id and options |
| Cart.AddItemMergesOrAppends | src/context/CartContext.js:57-81 | ADD_ITEM adds the payload's quantity to the first line with the same (id, options), keeping the length and the other lines; otherwise it appends the payload; the error is cleared |
| Cart.AddItemTotals | src/context/CartContext.js:32-36 | after ADD_ITEM, `totalItems` grows by the payload's quantity and `totalPrice` by price × quantity |
| Cart.RemoveItemExact | src/context/CartContext.js:83-95 | REMOVE_ITEM keeps exactly the lines with another (id, options), in order and as often as before; the vendor becomes null iff no line is left |
| Cart.SetLineQuantityContents | src/context/CartContext.js:97-103 | after the quantity update, no line has quantity ≤ 0; each surviving line is an untouched line with another identity, or a matching line carrying the new quantity |
| Cart.SetLineQuantityCounts | src/context/CartContext.js:97-103 | the surviving lines keep the order of the updated list, and each line with a positive quantity occurs as often as in the updated list |
| Cart.UpdateQuantitySetsAndDrops | src/context/CartContext.js:97-112 | UPDATE_QUANTITY sets the matching lines' quantity, drops non-positive lines, keeps every other line with its multiplicity and in order, recomputes the totals, and clears the vendor iff the list becomes empty |
| Cart.SetLineQuantityNonPositiveIsRemove | src/context/CartContext.js:97-103 | setting a quantity ≤ 0 on a cart whose lines are all positive removes the matching lines, exactly as the filter of REMOVE_ITEM does |
| Cart.UpdateQuantityNonPositiveIsRemove | src/context/CartContext.js:83-112 | `updateQuantity` with quantity ≤ 0 yields the same state as `removeItem` |
| Cart.ClearCartIsInitial | src/context/CartContext.js:114-118 | CLEAR_CART yields the initial state: no lines, zero totals and fees, no vendor, no error, not loading |
| Cart.UpdateFeesOverwrites | src/context/CartContext.js:126-132 | UPDATE_FEES overwrites all three fees, with a missing fee becoming 0, and changes nothing else |
| Cart.BookkeepingActions | src/context/CartContext.js:120-148 | SET_ERROR records the message and ends loading; CLEAR_ERROR clears only the error; SET_VENDOR sets only the vendor; an unknown action changes nothing |
| Cart.LoadCartRoundTrip | src/context/CartContext.js:47-55 | loading a stored snapshot of a cart (SET_LOADING then LOAD_CART on the initial state) restores that cart with its totals |
| Cart.ReduceKeepsTotals | src/context/CartContext.js:47-118 | every action that rewrites the lines recomputes totals that match them, and every other action keeps matching totals |
| Cart.AddLineKeepsVendor | src/context/CartContext.js:57-72 | adding a line of vendor v to lines all of vendor v leaves all lines of vendor v |
| Cart.CartProvider.constructor | src/context/CartContext.js:5-15 | the cart starts as the initial state, which satisfies the invariant |
| Cart.CartProvider.AddItem | src/context/CartContext.js:203-241 | refuses a product of another vendor, recording only the error; otherwise merges or appends the line and selects the product's vendor when none was selected; keeps totals = sums and vendor null iff empty |
| Cart.CartProvider.RemoveItem | src/context/CartContext.js:243-248 | dispatches REMOVE_ITEM and keeps the invariant |
| Cart.CartProvider.UpdateQuantity | src/context/CartContext.js:250-255 | dispatches UPDATE_QUANTITY and keeps the invariant |
| Cart.CartProvider.ClearCart | src/context/CartContext.js:257-264 | once the stored cart is removed, resets to the initial state; if the removal fails, nothing changes |
| Cart.CartProvider.UpdateFees | src/context/CartContext.js:266-268 | dispatches UPDATE_FEES and keeps the invariant |
| Cart.CartProvider.ClearError | src/context/CartContext.js:293-295 | clears only the error |
| Cart.CartProvider.GetCartTotal | src/context/CartContext.js:270-272 | the cart total is Σ price × quantity over the lines plus the three fees |
| Cart.CartProvider.GetItemCount | src/context/CartContext.js:274-276 | the item count is Σ quantity over the lines |
| Cart.CartProvider.IsItemInCart | src/context/CartContext.js:278-283 | true iff some line has that product id and those options |
| Cart.CartProvider.GetItemQuantity | src/context/CartContext.js:285-291 | the quantity of the first line with that identity, or 0 when there is none |
| Orders.StatusNameInjective | src/context/OrderContext.js:13-21 | no two of the seven statuses share a stored text |
| Orders.NewOrder | src/context/OrderContext.js:156-165 | the new order is pending whatever the input says; created and updated now; due 30 minutes later; details copied; an input id overrides the generated one |
| Orders.Rank | src/context/OrderContext.js:253-259 | a position along the delivery lifecycle, negative exactly for a cancelled order |
| Orders.StepsFollowLifecycle | src/context/OrderContext.js:253-265 | five steps in fixed order and titles; step 0 is always completed; step k is completed iff the status is at or past it (ready-for-pickup counts as past preparing, cancelled as past nothing); the status's step index is -1 exactly for ready-for-pickup and cancelled |
| Orders.TrackFindsFirst | src/context/OrderContext.js:247-251 | nothing iff no order has the id; otherwise the tracked order sits in the list at an index before which no order has the id |
| Orders.TrackOrderSteps | src/context/OrderContext.js:246-266 | nothing iff the id is absent; otherwise the first order with the id (present in the list, no earlier order with that id), with five steps in fixed order and titles; step 0 is always completed; step k is completed iff the status is at or past it (ready-for-pickup counts as past preparing); the current step is the status's index, -1 for ready-for-pickup and cancelled |
| Orders.ActiveOrdersExact | src/context/OrderContext.js:272-276 | the active view holds exactly the orders neither delivered nor cancelled, each as often as in the list and in list order |
| Orders.InsertNewest | src/context/OrderContext.js:268-270 | inserting into a newest-first list keeps it newest first and adds exactly that order |
| Orders.SortNewestFirst | src/context/OrderContext.js:268-270 | the sorted copy is a permutation of the list ordered by creation time, newest first |
| Orders.AddOrderPrepends | src/context/OrderContext.js:51-57 | ADD_ORDER puts the order in front of the others, which are unchanged and in order, and makes it current |
| Orders.UpdateOrderMerges | src/context/OrderContext.js:59-69 | UPDATE_ORDER merges status and update time into the orders with that id only; length and order are kept; an unknown id changes nothing; the current order changes only when its id matches |
| Orders.CancelOrderMarks | src/context/OrderContext.js:76-86 | CANCEL_ORDER marks the orders with that id cancelled and changes nothing else; the current order is cancelled only when its id matches |
| Orders.BookkeepingActions | src/context/OrderContext.js:38-101 | SET_ERROR ends loading; CLEAR_ERROR clears only the error; LOAD_ORDERS replaces the list and ends loading; an unknown action changes nothing |
| Orders.CancelSparesLockedOrders | src/context/OrderContext.js:200-213 | with unique ids, cancelling an order that passed the lock check leaves every other order, locked ones included, unchanged |
| Orders.OrderProvider.constructor | src/context/OrderContext.js:5-10 | no orders, no current order, not loading, no error |
| Orders.OrderProvider.CreateOrder | src/context/OrderContext.js:149-181 | the new pending order is put in front and made current; the previous orders are kept |
| Orders.OrderProvider.UpdateOrderStatus | src/context/OrderContext.js:183-198 | dispatches the update `{ id, status, updatedAt: now }` |
| Orders.OrderProvider.CancelOrder | src/context/OrderContext.js:200-219 | an unknown id fails with "Order not found" and an order out for delivery or delivered fails with "Order cannot be cancelled at this stage"; both leave the orders unchanged and set the error; otherwise the order is cancelled |
| Orders.OrderProvider.Reorder | src/context/OrderContext.js:221-244 | an unknown id fails with "Order not found"; otherwise a new pending order copying the old order's details is created and returned |
| Orders.OrderProvider.SetCurrentOrder | src/context/OrderContext.js:278-280 | sets only the current order |
| Orders.OrderProvider.ClearError | src/context/OrderContext.js:282-284 | clears only the error |
| Orders.OrderProvider.TrackOrder | src/context/OrderContext.js:246-266 | tracks the current list: nothing iff no order has the id, otherwise the first order of the list carrying it |
| Orders.OrderProvider.GetOrderHistory | src/context/OrderContext.js:268-270 | every order, as often as in the list, newest first |
| Orders.OrderProvider.GetActiveOrders | src/context/OrderContext.js:272-276 | exactly the orders neither delivered nor cancelled, each as often as in the list and in list order |
| Orders.ReorderCopiesDetails | src/context/OrderContext.js:228-239 | a reorder copies items, vendor, address, price, fees, tax and payment method into a fresh pending order |
| Location.AddSavedAddressAppends | src/context/LocationContext.js:51-55 | ADD_SAVED_ADDRESS appends the entry and leaves the other entries and fields unchanged |
| Location.RemoveSavedAddressExact | src/context/LocationContext.js:57-61 | REMOVE_SAVED_ADDRESS keeps exactly the entries with another id, each as often as before and in order |
| Location.UpdateSavedAddressMerges | src/context/LocationContext.js:63-69 | UPDATE_SAVED_ADDRESS merges the given fields into the entries with that id only, keeping the length and all other entries |
| Location.BookkeepingActions | src/context/LocationContext.js:38-97 | SET_CURRENT_LOCATION and SET_ERROR end loading; CLEAR_ERROR clears only the error; SET_DELIVERY_ADDRESS sets only the address; an unknown action changes nothing |
| Location.LocationProvider.constructor | src/context/LocationContext.js:6-13 | starts from the initial state with the given storage contents |
| Location.LocationProvider.SetDeliveryAddress | src/context/LocationContext.js:206-216 | after a successful write the address is stored and set; after a failed one the address is unchanged and the error is set |
| Location.LocationProvider.AddSavedAddress | src/context/LocationContext.js:218-239 | the entry gets the generated id unless the input has one, plus the creation time; after a successful write it is appended and the stored list equals the state's list; a failed write sets only the error |
| Location.LocationProvider.RemoveSavedAddress | src/context/LocationContext.js:241-253 | after a successful write the entries with the id are removed and the stored list equals the state's list; a failed write sets only the error |
| Location.LocationProvider.UpdateSavedAddress | src/context/LocationContext.js:255-271 | after a successful write the entries with the id are merged and the stored list equals the state's list; a failed write sets only the error |
| Location.LocationProvider.ClearError | src/context/LocationContext.js:315-317 | clears only the error |
| Notifications.AddNotificationPrepends | src/context/NotificationContext.js:38-42 | ADD_NOTIFICATION puts the entry in front and keeps the others unchanged and in order |
| Notifications.RemoveNotificationExact | src/context/NotificationContext.js:44-48 | REMOVE_NOTIFICATION drops every entry with the id and keeps the others, as often as before and in order |
| Notifications.AddThenRemoveRestores | src/context/NotificationContext.js:38-48 | adding an entry whose id is new and then removing that id restores the state |
| Notifications.BookkeepingActions | src/context/NotificationContext.js:26-70 | CLEAR_NOTIFICATIONS only empties the list; SET_EXPO_PUSH_TOKEN sets only the token; SET_ERROR ends loading; CLEAR_ERROR clears only the error; an unknown action changes nothing |
| Notifications.NotificationProvider.constructor | src/context/NotificationContext.js:5-10 | no entries, no token, not loading, no error |
| Notifications.NotificationProvider.AddNotification | src/context/NotificationContext.js:126-131 | the entry is put in front of the list; nothing else changes |
| Notifications.NotificationProvider.RemoveNotification | src/context/NotificationContext.js:133-138 | the entries with the id are removed; nothing else changes |
| Notifications.NotificationProvider.ClearNotifications | src/context/NotificationContext.js:140-142 | the list is emptied; nothing else changes |
| Notifications.NotificationProvider.ClearError | src/context/NotificationContext.js:157-159 | clears only the error |
| User.Spread | src/context/UserContext.js:112-119 | `{ ...record, ...changes }`: the keys of both, with the changes' values winning and the other values kept |
| User.NameFromEmail | src/context/UserContext.js:197 | the name is the longest prefix of the address without `@`: it is followed by `@`, or it is the whole address |
| User.NameFromEmailOfAddress | src/context/UserContext.js:197 | the name derived from `local@domain` is `local` when `local` has no `@` |
| User.SetUserAuthenticates | src/context/UserContext.js:47-53 | SET_USER sets the user, is authenticated iff a user is given, and ends loading |
| User.LoginOutcomes | src/context/UserContext.js:55-71 | LOGIN_SUCCESS signs the user in and clears the error; LOGIN_FAILURE signs out and records the error; both end loading and keep the collected lists |
| User.LogoutResets | src/context/UserContext.js:73-77 | LOGOUT returns the initial state except that loading is false: no user, no favorites or badges, 0 points, default preferences |
| User.ShallowMerges | src/context/UserContext.js:79-86 | UPDATE_PROFILE and UPDATE_PREFERENCES are shallow merges: every key of the update wins and every other key is kept; a missing user merges as an empty record |
| User.FavoriteLists | src/context/UserContext.js:88-98 | ADD_FAVORITE appends; REMOVE_FAVORITE keeps exactly the favorites whose id differs, each as often as before and in order |
| User.BookkeepingActions | src/context/UserContext.js:121-135 | SET_ERROR ends loading; CLEAR_ERROR clears only the error; an unknown action changes nothing |
| User.AddEach | src/context/UserContext.js:88-92 | dispatching ADD_FAVORITE (or ADD_BADGE) once per entry appends all the entries in order |
| User.LoadNestsStoredLists | src/context/UserContext.js:165-175 | as written, loading a stored favorites list `[f]` yields the favorites `[[f]]`: `f` itself is not a favorite and cannot be removed by its id |
| User.LoadRestoresStoredLists | src/context/UserContext.js:151-185 | as intended, loading on a fresh start restores the stored favorites and badges, the user, the points and the merged preferences, and ends loading |
| User.UserProvider.constructor | src/context/UserContext.js:5-19 | the initial state, loading, with the given storage contents |
| User.UserProvider.LoadUserData | src/context/UserContext.js:151-185 | dispatches SET_USER, UPDATE_LOYALTY_POINTS and UPDATE_PREFERENCES for whatever storage holds, adds the stored favorites and badges entry by entry (the corrected load, see Findings), then ends loading |
| User.UserProvider.SignIn | src/context/UserContext.js:202-215 | after a successful write of the account the user is signed in and stored; after a failed one the user is signed out with the error |
| User.UserProvider.Login | src/context/UserContext.js:187-216 | on a successful write stores and signs in an account named after the text before the first `@`, ending loading and clearing the error, with every other field kept; on a failed write signs out with the message, storage unchanged |
| User.UserProvider.Register | src/context/UserContext.js:218-247 | on a successful write stores and signs in an account carrying the given name, ending loading and clearing the error, with every other field kept; on a failed write signs out with the message, storage unchanged |
| User.UserProvider.Logout | src/context/UserContext.js:249-256 | once the stored keys are removed the state is reset and only the stored preferences remain; a failed removal changes nothing |
| User.UserProvider.UpdateProfile | src/context/UserContext.js:258-268 | stores the merged record and merges the profile into the user; a failed write records only the error |
| User.UserProvider.AddFavorite | src/context/UserContext.js:270-278 | after a successful write the favorite is appended and the stored list equals the state's list; a failed write changes nothing |
| User.UserProvider.RemoveFavorite | src/context/UserContext.js:280-288 | after a successful write the favorites with that id are removed and the stored list equals the state's list; a failed write changes nothing |
| User.UserProvider.UpdateLoyaltyPoints | src/context/UserContext.js:290-297 | after a successful write the points are stored and set; a failed write changes nothing |
| User.UserProvider.AddBadge | src/context/UserContext.js:299-307 | after a successful write the badge is appended and the stored list equals the state's list; a failed write changes nothing |
| User.UserProvider.UpdatePreferences | src/context/UserContext.js:309-317 | after a successful write the preferences are shallow-merged and the merged record is stored; a failed write changes nothing |
| User.UserProvider.ClearError | src/context/UserContext.js:319-321 | clears only the error |
| UbazolCart.FoldPrice | Ubazol/src/context/CartContext.js:54-56 | the price fold from a start value is that value plus Σ price × quantity |
| UbazolCart.FoldItems | Ubazol/src/context/CartContext.js:58-60 | the item fold from a start value is that value plus Σ quantity |
| UbazolCart.UpdateSingle | Ubazol/src/context/CartContext.js:15-21 | updating the only line with an id replaces that line in place |
| UbazolCart.AddedKeepsConsistent | Ubazol/src/context/CartContext.js:9-29 | adding keeps the cart consistent: vendor null iff the cart is empty, every line from that vendor, unique ids |
| UbazolCart.AddedCases | Ubazol/src/context/CartContext.js:9-29 | an item of another vendor replaces the cart with that single line and switches the vendor; a present id gains the quantity with nothing else changed; a new id is appended and sets the vendor when there was none |
| UbazolCart.RemovedExact | Ubazol/src/context/CartContext.js:31-37 | removing keeps exactly the lines with another id, in order, keeps the cart consistent, and clears the vendor when the cart becomes empty |
| UbazolCart.SubsequenceUnique | Ubazol/src/context/CartContext.js:31-37 | leaving lines out keeps the ids unique |
| UbazolCart.NotFirst | Ubazol/src/context/CartContext.js:31-37 | with unique ids, no later line shares the first line's id |
| UbazolCart.QuantityUpdatedExact | Ubazol/src/context/CartContext.js:39-47 | a quantity ≤ 0 is exactly a removal; a positive quantity sets that id's quantity and keeps everything else; consistency is kept |
| UbazolCart.MergedPrice | Ubazol/src/context/CartContext.js:15-21 | adding to the one line carrying an id raises Σ price × quantity by that line's own price times the added quantity |
| UbazolCart.AddedTotalPrice | Ubazol/src/context/CartContext.js:9-29 | after `addToCart` the price total is the new line's alone on a vendor switch, grows by the existing line's price × quantity on a merge, and by the item's price × quantity on an append |
| UbazolCart.CartProvider.constructor | Ubazol/src/context/CartContext.js:6-7 | an empty cart with no vendor |
| UbazolCart.CartProvider.AddToCart | Ubazol/src/context/CartContext.js:9-29 | the new cart and vendor are those of adding, and consistency is kept |
| UbazolCart.CartProvider.RemoveFromCart | Ubazol/src/context/CartContext.js:31-37 | the new cart and vendor are those of removing, and consistency is kept |
| UbazolCart.CartProvider.UpdateQuantity | Ubazol/src/context/CartContext.js:39-47 | the new cart and vendor are those of the quantity update, and consistency is kept |
| UbazolCart.CartProvider.ClearCart | Ubazol/src/context/CartContext.js:49-52 | empties the cart and clears the vendor |
| UbazolCart.CartProvider.GetTotalPrice | Ubazol/src/context/CartContext.js:54-56 | Σ price × quantity over the lines |
| UbazolCart.CartProvider.GetTotalItems | Ubazol/src/context/CartContext.js:58-60 | Σ quantity over the lines |
| UbazolOrders.NewOrder | Ubazol/src/context/OrderContext.js:35-44 | the new order is pending whatever the input says, dated now, with the input's items, total and vendor; an input id overrides the generated one |
| UbazolOrders.StatusUpdatedExact | Ubazol/src/context/OrderContext.js:46-50 | only the status of the orders with that id changes; length, order and every other order are kept; an unknown id changes nothing |
| UbazolOrders.ByStatusExact | Ubazol/src/context/OrderContext.js:56-58 | the orders with a status are exactly those, each as often as in the list and in list order |
| UbazolOrders.OrderProvider.constructor | Ubazol/src/context/OrderContext.js:6-33 | the list starts with the two sample orders |
| UbazolOrders.OrderProvider.CreateOrder | Ubazol/src/context/OrderContext.js:35-44 | the new pending order is put in front and returned; the previous orders follow, unchanged and in order |
| UbazolOrders.OrderProvider.UpdateOrderStatus | Ubazol/src/context/OrderContext.js:46-50 | the list becomes the status-updated list |
| UbazolOrders.OrderProvider.GetOrderById | Ubazol/src/context/OrderContext.js:52-54 | nothing iff no order has the id; otherwise the first order with it |
| UbazolOrders.OrderProvider.GetOrdersByStatus | Ubazol/src/context/OrderContext.js:56-58 | exactly the orders with that status, each as often as in the list and in list order |
| UbazolLocation.NewAddress | Ubazol/src/context/LocationContext.js:35-43 | the new entry is never the default; an input id overrides the generated one; the form fields are copied |
| UbazolLocation.WithDefaultExact | Ubazol/src/context/LocationContext.js:49-55 | exactly the entries with the id become the default; with unique ids at most one default remains, and none when the id is absent |
| UbazolLocation.RemovedExact | Ubazol/src/context/LocationContext.js:45-47 | removing keeps exactly the entries with another id, each as often as before and in order |
| UbazolLocation.AddRemoveKeepOneDefault | Ubazol/src/context/LocationContext.js:35-47 | adding and removing keep at most one default |
| UbazolLocation.SubsequenceOneDefault | Ubazol/src/context/LocationContext.js:45-47 | leaving entries out keeps at most one default |
| UbazolLocation.LaterNotDefault | Ubazol/src/context/LocationContext.js:45-47 | when the first entry is the only default, no later entry is |
| UbazolLocation.SeedWellFormed | Ubazol/src/context/LocationContext.js:7-25 | the sample entries have unique ids and one default, whose text is the starting address |
| UbazolLocation.LocationProvider.constructor | Ubazol/src/context/LocationContext.js:6-25 | no position, the sample address and the sample entries |
| UbazolLocation.LocationProvider.UpdateCurrentLocation | Ubazol/src/context/LocationContext.js:27-29 | overwrites only the current location |
| UbazolLocation.LocationProvider.UpdateAddress | Ubazol/src/context/LocationContext.js:31-33 | overwrites only the address |
| UbazolLocation.LocationProvider.AddAddress | Ubazol/src/context/LocationContext.js:35-43 | appends the new non-default entry and returns it; nothing else changes |
| UbazolLocation.LocationProvider.RemoveAddress | Ubazol/src/context/LocationContext.js:45-47 | removes the entries with the id; nothing else changes |
| UbazolLocation.LocationProvider.SetDefaultAddress | Ubazol/src/context/LocationContext.js:49-60 | marks the default (at most one when the ids were unique), then takes the chosen entry's text as the address when it is found and keeps the address otherwise |
| UbazolLocation.LocationProvider.GetCurrentPosition | Ubazol/src/context/LocationContext.js:62-77 | returns the fixed position and takes it and its text as the current location and address |
| UbazolNotifications.NewNotification | Ubazol/src/context/NotificationContext.js:25-34 | the id, timestamp and read flag default to the generated id, now and unread, and a value the caller supplies wins |
| UbazolNotifications.StatusTitle | Ubazol/src/context/NotificationContext.js:58-85 | any status outside the table gets "Order Update" / info |
| UbazolNotifications.OrderMessage | Ubazol/src/context/NotificationContext.js:87-92 | a non-empty message is used as given; a missing or empty one becomes "Order #id status updated." |
| UbazolNotifications.StatusTable | Ubazol/src/context/NotificationContext.js:58-85 | the status table, entry by entry |
| UbazolNotifications.UnreadCountCons | Ubazol/src/context/NotificationContext.js:54-56 | an entry in front adds one to the unread count iff it is unread |
| UbazolNotifications.OrderNotificationUnread | Ubazol/src/context/NotificationContext.js:58-93 | an order notification is unread, carries the order id and the table's title and type, and raises the unread count by one |
| UbazolNotifications.UnreadCountBounds | Ubazol/src/context/NotificationContext.js:54-56 | the unread count is at most the length, and it is 0 iff every entry is read |
| UbazolNotifications.ReadAllClears | Ubazol/src/context/NotificationContext.js:42-44 | after reading all, nothing is unread and every entry keeps its place and its other fields |
| UbazolNotifications.ReadOneExact | Ubazol/src/context/NotificationContext.js:36-40 | exactly the entries with the id become read, the others are untouched, and doing it twice is doing it once |
| UbazolNotifications.RemovedExact | Ubazol/src/context/NotificationContext.js:46-48 | removing keeps exactly the entries with another id, each as often as before and in order |
| UbazolNotifications.NotificationProvider.constructor | Ubazol/src/context/NotificationContext.js:6-23 | the log starts with the two sample entries |
| UbazolNotifications.NotificationProvider.AddNotification | Ubazol/src/context/NotificationContext.js:25-34 | the new entry is put in front and returned |
| UbazolNotifications.NotificationProvider.MarkAsRead | Ubazol/src/context/NotificationContext.js:36-40 | the entries with the id are marked read |
| UbazolNotifications.NotificationProvider.MarkAllAsRead | Ubazol/src/context/NotificationContext.js:42-44 | every entry is marked read, and the unread count is then 0 |
| UbazolNotifications.NotificationProvider.RemoveNotification | Ubazol/src/context/NotificationContext.js:46-48 | the entries with the id are removed |
| UbazolNotifications.NotificationProvider.ClearAllNotifications | Ubazol/src/context/NotificationContext.js:50-52 | the log is emptied, and the unread count is then 0 |
| UbazolNotifications.NotificationProvider.GetUnreadCount | Ubazol/src/context/NotificationContext.js:54-56 | at most the length, and 0 iff every entry is read |
| UbazolNotifications.NotificationProvider.SendOrderNotification | Ubazol/src/context/NotificationContext.js:58-93 | builds the entry from the status table and the message rule, puts it in front, and raises the unread count by one |

## Left out

- Storage effects. Storage reads and the save-on-change effects of the cart and the orders (src/context/CartContext.js:159-201, src/context/OrderContext.js:112-147) are not modelled. Neither is the start-up load of saved addresses (src/context/LocationContext.js:114-135). Where an operation writes before it dispatches, the write's success or failure is a parameter.
- `JSON.parse` failures and other thrown storage errors are not modelled. They are covered only through the failed-write outcome.
- Timers. The simulated status progression in `createOrder` (src/context/OrderContext.js:167-175) and the artificial delays in `login` and `register` are not modelled.
- Device location and push messaging. Geolocation, permissions and geocoding (src/context/LocationContext.js:137-204, 273-290) are not modelled. Neither are push registration, the received-notification listener and `scheduleNotification` (src/context/NotificationContext.js:81-155). All of them are calls into platform libraries.
- `calculateDistance` (src/context/LocationContext.js:292-313) is floating-point trigonometry.
- Ubazol/src/context/UserContext.js is not part of this model. It sets a single field and writes storage.
- React behaviour. Batching and stale closures in `dispatch`/`setState` are not modelled; every operation is atomic and runs in sequence. `addItem`'s two dispatches are applied to the state left by the first.
- Clock values. `Date.now()` and `new Date()` are parameters (`newId`, `now`).
- Default arguments are explicit parameters. This covers `quantity = 1` in `addItem` (src/context/CartContext.js:203) and in `addToCart` (Ubazol/src/context/CartContext.js:9). It also covers `options = {}` in `addItem`, `removeItem`, `updateQuantity`, `isItemInCart` and `getItemQuantity` (src/context/CartContext.js:203-285). A caller that omits them passes 1 and the empty map.
- Cart.CartProvider.AddItem: options are compared as values, while the source compares `JSON.stringify` texts. Two option objects with the same entries in a different key order are different lines in the source and the same line here.
- User.FavoriteLists: favorite ids are compared structurally. The source's `!==` compares object ids by reference.
- Orders.NewOrder: times are integer milliseconds, not ISO texts. `estimatedDeliveryTime` is exactly the creation time plus 1800000.
- Orders.SortNewestFirst: the relative order of orders created at the same time is not stated. JavaScript's sort is stable, and the model states only the permutation and the order.
- `cancelOrder` checks the lock on the first order with the id, while CANCEL_ORDER marks every order carrying it. Orders.CancelSparesLockedOrders shows that the two agree when ids are unique; duplicate ids are not excluded by the source or by the model.
- Location.LocationProvider.UpdateSavedAddress: an `id` inside the source's `updates` object could overwrite the entry's id. The patch here has no id field, so an entry keeps its id.
- Prices are integer cents. The source's floating-point sums are not modelled.
- UbazolLocation.LocationProvider.SetDefaultAddress: the single-default rule is stated only when the ids are unique. `addAddress` accepts a caller-supplied id (Ubazol/src/context/LocationContext.js:35-43), so two entries can share an id, and `setDefaultAddress` then marks both as the default. The source does not prevent this, and neither does the model.
- User.UserProvider.LoadUserData: follows the corrected load (see Findings), not the source's single dispatch of each whole stored list. User.LoadAsWritten keeps the source's sequence, and User.LoadNestsStoredLists states what it does.

## Findings

| source | as written | input that shows it | evidently intended | confidence | as-written member | corrected member |
|---|---|---|---|---|---|---|
| src/context/UserContext.js:165-175 | `loadUserData` dispatches ADD_FAVORITE and ADD_BADGE once, each with the whole parsed stored list, so the list is appended as a single element | a fresh start with `favorites` stored as `[f]` leaves the favorites `[[f]]`; `f` is not a favorite, and `removeFavorite(f.id)` removes nothing | the stored list becomes the favorites (and badges), as it was saved by `addFavorite`/`addBadge` | not executed | User.LoadNestsStoredLists | User.LoadRestoresStoredLists |
