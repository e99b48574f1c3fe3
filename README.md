# Cart bookkeeping of the storefront, in Dafny

This project models the cart logic of the storefront: the lists and tables of cart lines, keyed by `itemId`, that each layer keeps and changes. The layers are:

- **Client cart synchroniser** (`DataManagerSync`, a class `DataManager`). It has:
  - an event bus (`on`/`off`/`emit`);
  - the online/offline flags and the handlers for the browser's `online` and `offline` signals;
  - the cart and product caches in local storage;
  - the offline edits of the cached cart;
  - the durable FIFO queue of pending changes, replayed with a retry counter capped at 3.
- **Cart view reducer** (`CartReducer`): a pure state transition over the displayed lines and the online flag.
- **Remote cart client** (`CartServiceClient`). It covers:
  - `getCartItems`;
  - the merge-or-create `addToCart`;
  - the three-attempt POST loop with its "duplicate id" short-cut;
  - `updateCartItem`, `removeFromCart` and the delete loop of `clearCart`;
  - the duplicate-itemId report of `analyzeCart`.
- **Development server**: the cart middleware (`MockServer`, a class `CartTable`) and the id-stamping middleware (`IdsMiddleware`).
- **Java back end** (`BackendCarts`). `CartService` works over repositories modelled as maps in a `Database` object. `CartCleanupScheduler` deletes expired carts.
- **In-memory cart service** of the frontend logic script (`MockCartServiceModel`).
- **Toast notifier's list logic** (`ToastNotifications`, a class `ToastNotification`).

`CartItems` holds what the layers share:
- the cart line;
- JavaScript truthiness of an optional number or string (`x || 1`);
- the per-itemId line count `CountOf` and quantity total `QuantityOf`;
- `WithoutItem` (`filter(i => i.itemId !== id)`);
- `IndexOf` (`find`/`findIndex`);
- the invariant `UniqueIds` (at most one line per itemId).

How the world outside the code is modelled:
- Every asynchronous method is one atomic step.
- The network is a parameter. A remote call's outcome is supplied by the caller, as:
  - a reply body or `None` for a throw;
  - a success flag;
  - a `ListReply`;
  - a sequence of POST `Attempt`s;
  - a sequence of per-request results.
- The requests a component sends are recorded in order (`remoteCalls`, `calls`, `deletes`). So are the callback invocations `emit` makes (`delivered`).
- Local storage is a map from key to the parsed value.
- Clock values and generated ids are parameters: `changeId`, `now`, `stamp`, `freshId`, `freshCartId`.
- Prices are integers. Only their identity matters to this logic; no arithmetic is done on them.

## Model

| member | source | states |
|---|---|---|
| CartItems.WithoutItem | frontend/modules/app/libs/services/data-manager.ts:296 | filtering out an itemId removes exactly its lines: the length drops by its line count and none of its lines is left |
| CartItems.WithoutItemMembers | frontend/modules/app/libs/contexts/cart-context.tsx:62-65 | a line survives the filter iff it was in the list and has another itemId |
| CartItems.IndexOf | frontend/modules/app/libs/services/data-manager.ts:214 | `find` by itemId: the result is a matching position with no match before it, or -1 when no line matches |
| CartItems.IndexOfIffCount | frontend/modules/app/libs/services/data-manager.ts:214 | `find` succeeds iff the itemId has at least one line |
| CartItems.UniqueIdsIffCount | frontend/modules/app/libs/api/cartService.ts:322-330 | "at most one line per itemId" holds iff every itemId's line count is at most 1 |
| CartItems.WithoutItemKeepsUnique | frontend/modules/app/libs/services/data-manager.ts:296 | removing an itemId's lines keeps at most one line per itemId |
| CartItems.WithoutAbsentItem | frontend/modules/app/libs/contexts/cart-context.tsx:62-65 | removing an absent itemId is a no-op |
| CartItems.ReplaceLine | frontend/modules/app/libs/services/data-manager.ts:216-217 | rewriting one line in place keeps every line count, and changes its itemId's total by the change of that line alone |
| CartItems.AppendLine | frontend/modules/app/libs/services/data-manager.ts:218-227 | pushing a line adds one line and its quantity to its own itemId only |
| CartItems.LastSegment | mocks/server.js:48 | `path.split('/').pop()`: the suffix after the last '/', without any '/' |
| DataManagerSync.WithoutFirst | frontend/modules/app/libs/services/data-manager.ts:94-102 | `off` removes one occurrence of the handler (the multiset loses exactly it); an absent handler leaves the list unchanged |
| DataManagerSync.WithoutFirstSplits | frontend/modules/app/libs/services/data-manager.ts:97-99 | the removed occurrence is the first one: the list is spliced at `indexOf` |
| DataManagerSync.SpliceOut | frontend/modules/app/libs/services/data-manager.ts:97-99 | `indexOf` then `splice(index, 1)` yields the list without the first occurrence |
| DataManagerSync.MergeAdd | frontend/modules/app/libs/services/data-manager.ts:213-234 | offline add: the itemId's total grows by the quantity (1 when absent or 0); a new line is appended only when the itemId was absent; for an itemId already present, the first line with it is replaced in place by the same line (id, name, price, image kept) with the quantity added, and the returned line is that one; all other lines are unchanged |
| DataManagerSync.MergeAddKeepsUnique | frontend/modules/app/libs/services/data-manager.ts:211-234 | offline add preserves at most one line per itemId |
| DataManagerSync.RepeatedAddsMerge | frontend/modules/app/libs/services/data-manager.ts:211-234 | any number of offline adds of one itemId leave exactly one line, holding the sum of the requested quantities |
| DataManagerSync.SetFirstQuantity | frontend/modules/app/libs/services/data-manager.ts:259-271 | offline update: fails iff the itemId is absent; otherwise the first line with the itemId is replaced in place by the same line with the new quantity and is the one returned; other lines and all counts stay, and with unique itemIds the total equals the quantity |
| DataManagerSync.KeptExactly | frontend/modules/app/libs/services/data-manager.ts:347-370 | replay keeps exactly the changes whose replay failed and whose incremented retry count is below 3 |
| DataManagerSync.KeptSorted | frontend/modules/app/libs/services/data-manager.ts:347-370 | kept changes are in increasing original position |
| DataManagerSync.RequeuePairs | frontend/modules/app/libs/services/data-manager.ts:363-368 | the k-th re-queued change is the k-th kept change with its retry count incremented |
| DataManagerSync.RequeueSelects | frontend/modules/app/libs/services/data-manager.ts:341-374 | the new queue is the failed-and-below-cap changes, each retried once, in their original relative order |
| DataManagerSync.RequeueShorter | frontend/modules/app/libs/services/data-manager.ts:341-374 | the queue after a replay is no longer than the snapshot |
| DataManagerSync.RequeueBelowCap | frontend/modules/app/libs/services/data-manager.ts:365-367 | every re-queued change has a retry count from 1 to 2 |
| DataManagerSync.RequeueAllSucceed | frontend/modules/app/libs/services/data-manager.ts:347-362 | when every replay succeeds the queue ends empty |
| DataManagerSync.ThirdFailureDrops | frontend/modules/app/libs/services/data-manager.ts:365-367 | a change is re-queued after its 1st and 2nd failed replay and dropped after the 3rd |
| DataManagerSync.ReplayPrefixStep | frontend/modules/app/libs/services/data-manager.ts:347-370 | replaying one more change appends only that change's outcome and remote call |
| DataManagerSync.DataManager.constructor | frontend/modules/app/libs/services/data-manager.ts:33-41 | a fresh manager is online, not initialized, with no listeners and an empty queue |
| DataManagerSync.DataManager.Initialize | frontend/modules/app/libs/services/data-manager.ts:51-62 | the first call takes the browser's online flag, clears `wasOffline` and loads the stored queue; a second call changes nothing |
| DataManagerSync.DataManager.LoadPendingChanges | frontend/modules/app/libs/services/data-manager.ts:337-339 | the queue becomes the stored one, or empty when nothing is stored |
| DataManagerSync.DataManager.On | frontend/modules/app/libs/services/data-manager.ts:87-92 | the callback is appended to its event's handler list; other events are untouched |
| DataManagerSync.DataManager.Off | frontend/modules/app/libs/services/data-manager.ts:94-102 | only the first reference-equal handler of that event is removed; an absent handler or event is a no-op |
| DataManagerSync.DataManager.Emit | frontend/modules/app/libs/services/data-manager.ts:104-109 | every handler registered for the event is called once with the payload, in registration order |
| DataManagerSync.DataManager.HandleOnline | frontend/modules/app/libs/services/data-manager.ts:68-77 | when already online nothing else happens; when offline it emits ONLINE_MODE and replays the queue (FIFO, retry cap 3), then stores the queue and refreshes the cart |
| DataManagerSync.DataManager.HandleOffline | frontend/modules/app/libs/services/data-manager.ts:79-83 | the flag goes false, `wasOffline` true, and OFFLINE_MODE is emitted on every signal, already offline or not |
| DataManagerSync.DataManager.GetProducts | frontend/modules/app/libs/services/data-manager.ts:135-157 | online with a fetched list: it is cached and announced; otherwise the cached list (or empty) is returned and nothing changes |
| DataManagerSync.DataManager.GetCartItems | frontend/modules/app/libs/services/data-manager.ts:160-184 | online with a fetched cart: it is cached and CART_UPDATED emitted; otherwise the cached cart (or empty) is returned |
| DataManagerSync.DataManager.RefreshCartData | frontend/modules/app/libs/services/data-manager.ts:442-449 | the cart is re-read as by `getCartItems` and CART_UPDATED is emitted again with the result |
| DataManagerSync.DataManager.RefreshAllData | frontend/modules/app/libs/services/data-manager.ts:461-464 | products then cart are re-read, each through its cache rule; listeners receive PRODUCTS_UPDATED (when products were fetched online) followed by CART_UPDATED (when the cart was fetched online), nothing else |
| DataManagerSync.DataManager.AddToCart | frontend/modules/app/libs/services/data-manager.ts:186-236 | online success: no queue entry, cart refreshed; online failure: exactly one pending change queued and stored, error re-thrown, cached cart untouched; offline: one pending change plus the merge-by-itemId edit of the cached cart, CART_UPDATED emitted |
| DataManagerSync.DataManager.UpdateCartItem | frontend/modules/app/libs/services/data-manager.ts:238-273 | as AddToCart for the online paths; offline the change is queued first, then an absent itemId throws 'Item not found in cart' with the cache untouched, else only the matching line's quantity is set |
| DataManagerSync.DataManager.RemoveFromCart | frontend/modules/app/libs/services/data-manager.ts:275-302 | online paths as AddToCart; offline one pending change is queued and the cached cart keeps exactly the lines of other itemIds, in order |
| DataManagerSync.DataManager.ClearCart | frontend/modules/app/libs/services/data-manager.ts:304-329 | online: the cart is re-read (cached and emitted) before deleting, failure queues one change; offline: one pending change and an empty cached cart |
| DataManagerSync.DataManager.AddPendingChange | frontend/modules/app/libs/services/data-manager.ts:332-335 | the change goes to the end of the queue and the stored queue equals the queue |
| DataManagerSync.DataManager.SyncPendingChanges | frontend/modules/app/libs/services/data-manager.ts:341-374 | an empty queue changes nothing; otherwise every queued change is sent once, in order, the queue becomes the re-queued failures, it is stored, and the cart is refreshed |
| DataManagerSync.DataManager.ReplayAll | frontend/modules/app/libs/services/data-manager.ts:347-370 | the replay loop leaves exactly `Requeue` of the snapshot and sends the snapshot's changes in order |
| DataManagerSync.DataManager.GetPendingChangesCount | frontend/modules/app/libs/services/data-manager.ts:452-454 | the count is the queue length |
| DataManagerSync.DataManager.IsOnlineMode | frontend/modules/app/libs/services/data-manager.ts:456-458 | returns the online flag |
| CartReducer.Reduce | frontend/modules/app/libs/contexts/cart-context.tsx:36-80 | only SET_ONLINE_STATUS changes `isOnline`; SET_ONLINE_STATUS and an unknown action leave the items unchanged |
| CartReducer.SetCartReplaces | frontend/modules/app/libs/contexts/cart-context.tsx:38-39 | SET_CART replaces the items wholesale and keeps `isOnline` |
| CartReducer.AddExistingItem | frontend/modules/app/libs/contexts/cart-context.tsx:42-50 | ADD_ITEM for a present itemId adds the quantity to its lines only; length, other lines and `isOnline` unchanged |
| CartReducer.AddExistingItemQuantity | frontend/modules/app/libs/contexts/cart-context.tsx:42-50 | with unique itemIds, the itemId's total grows by exactly the added quantity |
| CartReducer.AddNewItem | frontend/modules/app/libs/contexts/cart-context.tsx:51-59 | ADD_ITEM for an absent itemId appends one line with that quantity, price 0 and name 'Product' |
| CartReducer.AddItemKeepsUnique | frontend/modules/app/libs/contexts/cart-context.tsx:40-61 | ADD_ITEM preserves at most one line per itemId |
| CartReducer.RemoveItemDrops | frontend/modules/app/libs/contexts/cart-context.tsx:62-65 | REMOVE_ITEM keeps exactly the lines of other itemIds, in order; an absent itemId is a no-op |
| CartReducer.UpdateQuantitySets | frontend/modules/app/libs/contexts/cart-context.tsx:66-72 | UPDATE_QUANTITY sets the matching lines' quantity exactly, length and other lines unchanged; an absent itemId is a no-op |
| CartReducer.OtherActions | frontend/modules/app/libs/contexts/cart-context.tsx:73-78 | CLEAR_CART empties the items, SET_ONLINE_STATUS changes only the flag, an unknown action returns the state |
| CartReducer.IncreaseMatchingAt | frontend/modules/app/libs/contexts/cart-context.tsx:45-49 | the `map` adds the quantity at each matching position and copies every other position |
| CartReducer.IncreaseMatchingTotals | frontend/modules/app/libs/contexts/cart-context.tsx:45-49 | the `map` keeps every line count; a single matching line's total grows by the quantity |
| CartReducer.IncreaseMatchingOthers | frontend/modules/app/libs/contexts/cart-context.tsx:45-49 | the `map` leaves the lines of other itemIds as they were |
| CartReducer.SetMatchingAt | frontend/modules/app/libs/contexts/cart-context.tsx:67-71 | the `map` sets the quantity at each matching position and copies every other position |
| CartReducer.SetMatchingTotals | frontend/modules/app/libs/contexts/cart-context.tsx:67-71 | the `map` keeps every line count; a single matching line's total becomes the quantity |
| CartReducer.SetMatchingOthers | frontend/modules/app/libs/contexts/cart-context.tsx:67-71 | the `map` leaves the lines of other itemIds as they were |
| CartServiceClient.GetCartItems | frontend/modules/app/libs/api/cartService.ts:98-112 | fails with the one load error iff the request throws or is not OK; a non-array body reads as an empty cart |
| CartServiceClient.Resolution | frontend/modules/app/libs/api/cartService.ts:153-168 | a 'duplicate id' refusal resolves to a remote line with the requested itemId |
| CartServiceClient.FirstResolved | frontend/modules/app/libs/api/cartService.ts:145-191 | the first attempt that ends the loop, with none before it |
| CartServiceClient.AttemptsCallsPosts | frontend/modules/app/libs/api/cartService.ts:145-168 | the loop only ever POSTs the item or re-reads the cart, at least one request per attempt |
| CartServiceClient.AddNewItemToCart | frontend/modules/app/libs/api/cartService.ts:137-192 | at most three attempts; the first OK body or 'duplicate id' match is returned and no later attempt is made; otherwise the add error; waits are 200, 400 ms, one fewer than the attempts used, both of them when all three attempts fail |
| CartServiceClient.AddToCart | frontend/modules/app/libs/api/cartService.ts:114-135 | the cart is read first; a present itemId becomes an update to existing + the quantity (1 when absent or 0) and no POST; an absent one goes through the three-attempt POST loop with the quantity (1 when absent or 0): the first resolving attempt's line is returned after exactly its requests, and with none the add error after all three |
| CartServiceClient.UpdateCartItem | frontend/modules/app/libs/api/cartService.ts:194-237 | an absent itemId fails with no PUT; otherwise one PUT carrying the first matching line's price and name with the new quantity; succeeds iff the PUT does |
| CartServiceClient.RemoveFromCart | frontend/modules/app/libs/api/cartService.ts:239-255 | one DELETE for the itemId; succeeds iff it is OK |
| CartServiceClient.DeletableIds | frontend/modules/app/libs/api/cartService.ts:262-263 | no more ids than lines |
| CartServiceClient.DeletableIdsExact | frontend/modules/app/libs/api/cartService.ts:262-263 | the ids deleted are exactly the truthy `id`s of the lines |
| CartServiceClient.DeletableIdsAppend | frontend/modules/app/libs/api/cartService.ts:262-272 | the delete list of a concatenation is the concatenation of the delete lists (list order is kept) |
| CartServiceClient.FirstFailedDelete | frontend/modules/app/libs/api/cartService.ts:264-270 | the first DELETE that is not OK, all before it OK |
| CartServiceClient.ClearCart | frontend/modules/app/libs/api/cartService.ts:257-278 | DELETEs the truthy ids in list order; the first failure stops the loop with 'Failed to clear cart' after that request, earlier deletions stay done |
| CartServiceClient.DeleteEach | frontend/modules/app/libs/api/cartService.ts:262-272 | the loop sends the deletable ids in order, up to and including the first failure |
| CartServiceClient.TallyCounts | frontend/modules/app/libs/api/cartService.ts:322-325 | the Map tally holds, for every itemId, its number of lines, one entry per key |
| CartServiceClient.BumpCounts | frontend/modules/app/libs/api/cartService.ts:324 | one `set(id, get(id) + 1)` raises that key's count by one and no other |
| CartServiceClient.KeepRepeated | frontend/modules/app/libs/api/cartService.ts:327-329 | the report keeps exactly the entries whose count exceeds 1 |
| CartServiceClient.DuplicateItemIdsExact | frontend/modules/app/libs/api/cartService.ts:322-330 | `analyzeCart` reports exactly the itemIds with more than one line, each once, with its line count |
| MockServer.StatusOf | mocks/server.js:49-57 | a missing itemId answers 400 and an unknown item 404, and no refusal answers anything else |
| MockServer.PostUpsert | mocks/server.js:16-45 | POST of a present itemId adds the quantity (1 when absent or 0) to it, keeps name, price and id, replaces `imageUrl` only when one is given, adds no line, and rewrites the first line with the itemId in place; an absent itemId appends one line |
| MockServer.PostKeepsUnique | mocks/server.js:18-43 | POST never creates a second line for an itemId |
| MockServer.PutUpdate | mocks/server.js:47-72 | empty id gives 400, unknown id 404; otherwise the first line with the itemId is replaced in place by `PutEntry` of it, which is the reply; other lines and counts unchanged |
| MockServer.PutEntry | mocks/server.js:60-67 | `id` and `itemId` come from the path; quantity, price, name and `imageUrl` each come from the body when truthy and from the existing line otherwise |
| MockServer.PutNeverZeroes | mocks/server.js:63 | a PUT cannot set a quantity to 0 (a falsy quantity falls back to the existing one) |
| MockServer.DeleteItem | mocks/server.js:74-90 | empty id gives 400, unknown id 404; otherwise exactly the itemId's lines are removed |
| MockServer.PutDeleteKeepUnique | mocks/server.js:47-90 | PUT and DELETE preserve at most one line per itemId |
| MockServer.CartTable.constructor | mocks/server.js:8 | the table starts as the stored lines |
| MockServer.CartTable.Handle | mocks/server.js:6-94 | dispatch: GET returns the table; POST, PUT and DELETE change it as their functions say, a refusal leaves it unchanged; other paths and verbs go to `next()` untouched |
| MockServer.CartTable.HandlePost | mocks/server.js:16-45 | the table becomes the upserted table and the reply is the upserted line |
| MockServer.CartTable.HandlePut | mocks/server.js:47-72 | the table is updated or, on 400/404, unchanged with the error reply |
| MockServer.CartTable.HandleDelete | mocks/server.js:74-90 | the lines are removed or, on 400/404, the table is unchanged with the error reply |
| IdsMiddleware.StampCartLine | mocks/ids-middleware.js:7-30 | every field other than `id` keeps its value and at most `id` is added; on a cart-items path a POST or PUT with a truthy `itemId` gets `id` equal to `itemId`, and `id` is added or changed in no other case |
| IdsMiddleware.StampProduct | mocks/ids-middleware.js:33-40 | every field other than `id` keeps its value and at most `id` is added; on a products path a POST or PUT with a truthy `sku` gets `id` equal to `sku`, and `id` is added or changed in no other case |
| IdsMiddleware.Stamped | mocks/ids-middleware.js:3-43 | at most the `id` field is added or changed; every other field keeps its value |
| IdsMiddleware.OnlyIdChanges | mocks/ids-middleware.js:15-16 | a new `id` is always a copy of `itemId` or of `sku` |
| IdsMiddleware.ReadsAndBareBodiesUnchanged | mocks/ids-middleware.js:8-12 | GET, DELETE and bodies with neither field pass unchanged |
| IdsMiddleware.StampedIdempotent | mocks/ids-middleware.js:3-43 | stamping twice is stamping once |
| IdsMiddleware.Request.constructor | mocks/ids-middleware.js:3 | a request carries its verb, path and body |
| IdsMiddleware.StampIds | mocks/ids-middleware.js:3-43 | the body is stamped in place and `next()` is called exactly once |
| ToastNotifications.DefaultTitle | frontend/modules/app/libs/utils/ToastNotification.ts:297-310 | the four types map to Success/Error/Information/Warning; only a value outside them gets 'Notification' |
| ToastNotifications.DefaultTitlesDistinct | frontend/modules/app/libs/utils/ToastNotification.ts:297-310 | the four declared types have four different titles |
| ToastNotifications.HeaderTitle | frontend/modules/app/libs/utils/ToastNotification.ts:280 | a given non-empty title wins, otherwise the default title of the type |
| ToastNotifications.IndexOfId | frontend/modules/app/libs/utils/ToastNotification.ts:347 | `findIndex` by id: first match or -1 |
| ToastNotifications.OddPositions | frontend/modules/app/libs/utils/ToastNotification.ts:420-422 | the toasts at odd positions, floor(n/2) of them |
| ToastNotifications.RemoveAtKeepsDistinct | frontend/modules/app/libs/utils/ToastNotification.ts:360 | a splice keeps toast ids distinct |
| ToastNotifications.RemoveByIdExact | frontend/modules/app/libs/utils/ToastNotification.ts:346-361 | with distinct ids, removing by id keeps exactly the toasts with other ids |
| ToastNotifications.ClearStep | frontend/modules/app/libs/utils/ToastNotification.ts:420-422 | one `forEach` visit that splices the visited toast advances the even-positions-removed invariant |
| ToastNotifications.ClearDone | frontend/modules/app/libs/utils/ToastNotification.ts:420-422 | when `forEach` stops, the list is the odd positions |
| ToastNotifications.ToastNotification.constructor | frontend/modules/app/libs/utils/ToastNotification.ts:21-23 | no toasts, enabled |
| ToastNotifications.ToastNotification.Show | frontend/modules/app/libs/utils/ToastNotification.ts:377-398 | disabled: returns null, list unchanged; enabled: appends exactly one toast at the end and returns its id |
| ToastNotifications.ToastNotification.RemoveToast | frontend/modules/app/libs/utils/ToastNotification.ts:346-361 | an unknown id is a no-op; otherwise exactly that toast is spliced out, the others keep their order |
| ToastNotifications.ToastNotification.Clear | frontend/modules/app/libs/utils/ToastNotification.ts:420-422 | `clear` removes the toasts at even original positions and leaves the odd ones; it does not empty the list |
| ToastNotifications.ToastNotification.Enable | frontend/modules/app/libs/utils/ToastNotification.ts:364-366 | showing is on |
| ToastNotifications.ToastNotification.Disable | frontend/modules/app/libs/utils/ToastNotification.ts:368-371 | showing is off and the list is what `clear` leaves |
| ToastNotifications.ToastNotification.IsNotificationsEnabled | frontend/modules/app/libs/utils/ToastNotification.ts:373-375 | returns the flag |
| ToastNotifications.ToastNotification.GetToasts | frontend/modules/app/libs/utils/ToastNotification.ts:424-426 | a copy of the list: a value, so changing it cannot change the list |
| ToastNotifications.DisableLeavesHalf | frontend/modules/app/libs/utils/ToastNotification.ts:368-371 | after `disable`, floor(n/2) toasts remain, so two or more are never all cleared |
| BackendCarts.WrapInt32 | backend/src/main/java/com/celfocus/hiring/kickstarter/api/CartService.java:68 | Java `int` addition: the result is in the 32-bit range and congruent to the exact sum |
| BackendCarts.IncrementWraps | backend/src/main/java/com/celfocus/hiring/kickstarter/api/CartService.java:68 | adding 1 is exact below `Integer.MAX_VALUE` and wraps to `Integer.MIN_VALUE` at it |
| BackendCarts.Database.constructor | backend/src/main/java/com/celfocus/hiring/kickstarter/api/CartService.java:23-25 | empty cart and item repositories over a product catalogue |
| BackendCarts.CartService.constructor | backend/src/main/java/com/celfocus/hiring/kickstarter/api/CartService.java:30-35 | the service works on the given repositories |
| BackendCarts.CartService.AddItemToCart | backend/src/main/java/com/celfocus/hiring/kickstarter/api/CartService.java:37-52 | a cart is created for a user without one, under an id no cart or stored line has carried, and that user's first add of a known sku saves one line of quantity 1; an existing line grows by exactly 1; a new line gets quantity 1 and the product's price; an unknown sku fails with no line saved, though the cart may already be created |
| BackendCarts.CartService.AddNewItemToCart | backend/src/main/java/com/celfocus/hiring/kickstarter/api/CartService.java:54-64 | unknown sku: ProductNotFound and nothing saved; otherwise one line of quantity 1 at the product's price |
| BackendCarts.CartService.UpdateItemQuantity | backend/src/main/java/com/celfocus/hiring/kickstarter/api/CartService.java:66-69 | the line is saved with quantity + byCount in `int` arithmetic |
| BackendCarts.CartService.SetItemQuantity | backend/src/main/java/com/celfocus/hiring/kickstarter/api/CartService.java:71-75 | the line is saved with the given quantity under its key |
| BackendCarts.CartService.ClearCart | backend/src/main/java/com/celfocus/hiring/kickstarter/api/CartService.java:77-80 | the user's cart is deleted; other carts stay |
| BackendCarts.CartService.GetCart | backend/src/main/java/com/celfocus/hiring/kickstarter/api/CartService.java:82-87 | no cart: CartNotFound; otherwise the user's cart holding exactly the lines of that cart |
| BackendCarts.CartService.RemoveItemFromCart | backend/src/main/java/com/celfocus/hiring/kickstarter/api/CartService.java:89-93 | no cart: nothing changes; otherwise only the (itemId, cartId) line is deleted |
| BackendCarts.ExistingCartAddScenario | backend/src/test/java/com/celfocus/hiring/kickstarter/api/CartServiceTest.java:60-75 | a user with a cart adds a known sku it does not hold: success, the cart is reused and exactly one line (quantity 1, product price) is saved |
| BackendCarts.UnknownSkuScenario | backend/src/test/java/com/celfocus/hiring/kickstarter/api/CartServiceTest.java:47-58 | a user with a cart adds an unknown sku: ProductNotFound, nothing saved |
| BackendCarts.AddTwiceScenario | backend/src/main/java/com/celfocus/hiring/kickstarter/api/CartService.java:37-52 | from an empty store, the first add of a known sku creates the cart and one line; the second add raises that line's quantity to 2 and creates no second line |
| BackendCarts.Survivors | backend/src/main/java/com/celfocus/hiring/kickstarter/scheduler/CartCleanupScheduler.java:29-35 | the carts kept are exactly those not expired, unchanged, and none is added |
| BackendCarts.NullAndBoundarySurvive | backend/src/main/java/com/celfocus/hiring/kickstarter/scheduler/CartCleanupScheduler.java:30 | a cart with null `lastUpdated`, or updated exactly at the threshold, survives |
| BackendCarts.SurvivorsKeyed | backend/src/main/java/com/celfocus/hiring/kickstarter/scheduler/CartCleanupScheduler.java:29-35 | cleanup keeps one cart per user with unique ids |
| BackendCarts.CleanupIdempotent | backend/src/main/java/com/celfocus/hiring/kickstarter/scheduler/CartCleanupScheduler.java:26-35 | a second run at the same time deletes nothing |
| BackendCarts.LaterThresholdRemovesMore | backend/src/main/java/com/celfocus/hiring/kickstarter/scheduler/CartCleanupScheduler.java:27-30 | a later threshold keeps no cart an earlier one deleted |
| BackendCarts.ExpiredRemoved | backend/src/main/java/com/celfocus/hiring/kickstarter/scheduler/CartCleanupScheduler.java:29-35 | deleting the filtered expired carts leaves exactly the survivors |
| BackendCarts.CartCleanupScheduler.constructor | backend/src/main/java/com/celfocus/hiring/kickstarter/scheduler/CartCleanupScheduler.java:18-23 | the expiry window defaults to 24 hours |
| BackendCarts.CartCleanupScheduler.Configured | backend/src/main/java/com/celfocus/hiring/kickstarter/scheduler/CartCleanupScheduler.java:18-19 | a configured window is used as given |
| BackendCarts.CartCleanupScheduler.CleanupInactiveCarts | backend/src/main/java/com/celfocus/hiring/kickstarter/scheduler/CartCleanupScheduler.java:26-35 | deletes exactly the carts with non-null `lastUpdated` strictly before now minus the window, one at a time; the rest are untouched |
| MockCartServiceModel.NewMockLine | frontend/test-cart-service.js:20-27 | a new line carries the given fields and the id `itemId_stamp` |
| MockCartServiceModel.MockCartService.constructor | frontend/test-cart-service.js:5-6 | starts with no lines |
| MockCartServiceModel.MockCartService.AddToCart | frontend/test-cart-service.js:8-31 | a present itemId's first line grows by `item.quantity` and is returned, no line added; an absent one appends one line; other itemIds untouched; at most one line per itemId preserved |
| MockCartServiceModel.MockCartService.UpdateCartItem | frontend/test-cart-service.js:33-53 | unknown itemId: 'Item not found' and no change; quantity <= 0 removes the itemId's lines and returns null; otherwise the first line takes the quantity exactly |
| MockCartServiceModel.MockCartService.GetCartItems | frontend/test-cart-service.js:55-57 | a copy of the lines |
| MockCartServiceModel.MockCartService.ClearCart | frontend/test-cart-service.js:59-61 | no lines remain |
| MockCartServiceModel.SkuTest2Scenario | frontend/test-cart-service.js:69-91 | SKUTEST2 added with quantity 2 then 1 leaves one line of quantity 3 with the first add's id |

## Left out

- Server-side rendering. Every `typeof window === 'undefined'` branch is left out; the browser case is modelled. With no window, `initialize` does nothing and each mutation takes its offline branch.
- The service worker: `notifyServiceWorker` and `initializeServiceWorker` are browser APIs.
- Concurrency. Each asynchronous method is one atomic step, so a second `syncPendingChanges` started while one is running is not modelled.
- Timers. The POST back-off is recorded as the list of delays, not waited out. The toast auto-close `setTimeout` is not modelled, and neither is the 300 ms DOM removal.
- Clock and random values. `Date.now()`, `Math.random()` and the generated toast, change and line ids are supplied by the caller.
- Prices. Floating-point prices and `BigDecimal` are modelled as integers; only equality and copying of prices occur in this logic.
- JSON and storage errors. JSON parse errors, storage quota errors and a stored value of the wrong shape are not modelled. Storage holds parsed values.
- Console logging, everywhere.
- Callbacks. A callback's own effects are not modelled: `emit` records which handler was called with what.
- DataManagerSync.DataManager.ClearCart: `performClearCart` deletes each listed line in turn. The model takes the whole delete loop as one outcome `ok`, so the individual deletes, the `id || itemId` choice, and which deletions happened before a failure are not recorded.
- DataManagerSync.DataManager.SyncPendingChanges: a replayed CLEAR_CART re-reads the cart inside `performClearCart`, which writes the cache and emits CART_UPDATED. The model records the change as sent but not that inner read.
- CartServiceClient.UpdateCartItem: the `!Array.isArray(items)` branch (cartService.ts:198) cannot be taken, because `getCartItems` always returns an array, so it has no counterpart.
- CartServiceClient.AddNewItemToCart: the throw after the third failed attempt (cartService.ts:171-173) is inside the `try`, so it is caught and replaced by the generic 'after 3 attempts' error. The model has that one error value. The final `throw` after the loop (cartService.ts:191) cannot be reached.
- Lower-casing. `toLowerCase` is modelled for ASCII letters only; Unicode case mapping is not modelled.
- MockServer: a request body without `itemId` is read as the empty string; JSON values of other types in the body (a string quantity, say) are not modelled.
- MockServer.NewEntry: a POST body without `price` or `name` stores price 0 and name "" where the server stores `undefined`; a later PUT without those fields then falls back to 0 and "" rather than `undefined`.
- IdsMiddleware: body values are strings; non-string `itemId`/`sku` values and their truthiness are not modelled.
- MockCartServiceModel.MockCartService.AddToCart: the request's quantity is always a number; an absent quantity (`undefined`, giving `NaN` totals in JavaScript) is not modelled.
- Java back end:
  - Transaction rollback of `@Transactional` is not modelled, which is why a cart created before a `ProductNotFoundException` stays.
  - JPA cascade of `deleteByUserId` onto a cart's lines is not modelled: `ClearCart` removes the cart record only.
  - `deleteById` on a missing key is treated as a no-op.
  - How `lastUpdated` is maintained is not modelled: a new cart starts with it null, since the entity class is not part of this model.
  - The `@Scheduled` timing and `LocalDateTime` are not modelled; time is integer seconds, and an hour is 3600 of them.
- Toasts: options, DOM rendering and styles, and the `success`/`error`/`info`/`warning` wrappers, which only call `show` with a fixed type.
- The thin wrapper context, the React provider callbacks, the UI components and the live-server scripts are outside the cart logic modelled here.
