# Hardware-store point of sale with offline sync — a Dafny model

This project models the logic of a hardware-store point-of-sale frontend that
keeps working without a network. The model covers:

- **The local store** (`OfflineStorage.Store`, over `KeyOrder`): six keyed collections (products, customers, pending orders, inventory snapshots, the sync queue and metadata), with auto-increment keys for pending orders and the queue.
- **The shared HTTP client** (`Api`): the bearer-token request interceptor and the response interceptor. When offline, that interceptor serves cached products and customers, queues writes for later, and rejects everything else.
- **The sync manager** (`SyncManager.Manager`): a single-flight reconciliation pass in four phases: upload pending orders, pull products, pull customers, replay the sync queue with a bounded retry count. It also keeps the listeners and the status report.
- **The point-of-sale screen** (`OfflinePos`): the cart bounded by stock, the 8.75 % tax, cash and change, and the three-way checkout (online sale, offline save, fallback save after an error).
- **The business rules of the back-office pages**:
  - wholesale billing (`Wholesale`);
  - stock status, pagination and adjustment (`Inventory`, which also stands for `components/InventoryManagement.js`, a near-duplicate of the inventory page);
  - the reports' CSV export and indicators (`Reports`);
  - customer returns (`Returns`);
  - the six item-list editors (`ItemLists`, `PurchaseOrders`, `Quotation`, `PurchaseGrn`, `PurchaseReturn`, `DispatchNote`, `StockAdjustment`);
  - the login throttle and error messages (`Login`).

Objects whose fields the program updates in place are Dafny classes with `modifies` frames: the store, the backend log, the sync manager, the POS, wholesale and login screens. The rest are functions over datatypes.

Timing, the network and the browser's online flag become parameters:

- the clock is a number passed in;
- the backend is a `Backend` object that answers each request deterministically and logs what was sent;
- `navigator.onLine` is a boolean.

JavaScript values are modelled as follows:

- `NaN` is `None`;
- numbers are `int` or `real`;
- strings are `seq<char>`.

`Text` holds the string helpers: `toLowerCase`, `trim`, `parseInt`, `parseFloat`, `padStart`, `split` and `join`. `Seqs` holds the list helpers: `filter`, `find`, `findIndex`, `slice`, sums and counts.

## Model

| member | source | states |
|---|---|---|
| KeyOrder.SortedKeysSpec | lib/offlineStorage.js:75-79 | the keys `getAll` walks are exactly the collection's keys, each once, in strictly increasing order |
| KeyOrder.ValuesByKeySpec | lib/offlineStorage.js:75-79 | `getAll` lists one record per key, the j-th being the record under the j-th smallest key |
| KeyOrder.ValuesByKeyComplete | lib/offlineStorage.js:75-79 | every stored record appears in the listing |
| KeyOrder.ValuesByKeySound | lib/offlineStorage.js:75-79 | every listed record is stored under some key |
| OfflineStorage.PutAllAt | lib/offlineStorage.js:93-100 | after writing a batch with `put`, a key holds the last record of the batch with that key, else what it held before |
| OfflineStorage.LatestFindsLast | lib/offlineStorage.js:96-98 | a record that no later record with the same key follows is the one a batch of `put`s leaves under its key |
| OfflineStorage.LatestAbsent | lib/offlineStorage.js:96-98 | a key the batch never mentions has no last record in it |
| OfflineStorage.PutAllStores | lib/offlineStorage.js:93-100 | a record not replaced later in the batch is retrievable by its id |
| OfflineStorage.PutAllUntouched | lib/offlineStorage.js:93-100 | keys the batch does not mention keep their records |
| OfflineStorage.PutAllIdempotent | lib/offlineStorage.js:93-100 | saving the same batch twice leaves the collection as saving it once |
| OfflineStorage.ListingKeys | lib/offlineStorage.js:75-79 | the j-th listed record carries the j-th smallest key |
| OfflineStorage.OwnListingAt | lib/offlineStorage.js:75-100 | writing a collection's own listing back leaves every key as it was |
| OfflineStorage.PutAllOwnListing | lib/offlineStorage.js:75-100 | saving a collection's own listing back into it changes nothing |
| OfflineStorage.NewPending | lib/offlineStorage.js:135-142 | the saved record carries the order, its timestamp, `synced` false and no server id |
| OfflineStorage.MarkSyncedSpec | lib/offlineStorage.js:149-157 | marking changes only the one record's `synced`, `serverId` and `syncedAt`; an unknown id leaves the collection unchanged |
| OfflineStorage.PendingOfExactly | lib/offlineStorage.js:144-147 | an order is listed as pending exactly when it is stored and not synced |
| OfflineStorage.MarkSyncedLeavesPending | lib/offlineStorage.js:144-157 | after marking an id, no pending order has it and every other pending order stays listed |
| OfflineStorage.PendingIdsIncreasing | lib/offlineStorage.js:144-147 | pending orders are listed in strictly increasing `localId` order |
| OfflineStorage.NewPendingListed | lib/offlineStorage.js:135-147 | a freshly saved order is listed as pending |
| OfflineStorage.SearchExactly | lib/offlineStorage.js:102-110 | the search returns exactly the cached products whose lower-cased name, sku or non-empty barcode contains the lower-cased query |
| OfflineStorage.WithQuantity | lib/offlineStorage.js:159-164 | the snapshot of that product (created if absent) gets the quantity and time; other snapshots are unchanged |
| OfflineStorage.GetMeta | lib/offlineStorage.js:191-194 | a missing key reads as null |
| OfflineStorage.MetaRoundTrip | lib/offlineStorage.js:187-194 | a key read back after writing it gives the value written; other keys are unaffected |
| OfflineStorage.Store.constructor | lib/offlineStorage.js:2-6 | a fresh store is unopened and empty, with both key generators at 1 |
| OfflineStorage.Store.Init | lib/offlineStorage.js:8-55 | opening succeeds exactly when the platform database is available, and the store then stays open |
| OfflineStorage.Store.GetAllProducts | lib/offlineStorage.js:75-79 | every product in key order, or a failure while unopened |
| OfflineStorage.Store.GetAllCustomers | lib/offlineStorage.js:75-79 | every customer in key order, or a failure while unopened |
| OfflineStorage.Store.SaveProducts | lib/offlineStorage.js:93-100 | the products are written in turn by id and `lastProductSync` is stamped; nothing changes while unopened |
| OfflineStorage.Store.SaveCustomers | lib/offlineStorage.js:119-126 | the customers are written in turn by id and `lastCustomerSync` is stamped; nothing changes while unopened |
| OfflineStorage.Store.SearchProducts | lib/offlineStorage.js:102-110 | the matching products in key order, or a failure |
| OfflineStorage.Store.GetProductByBarcode | lib/offlineStorage.js:112-117 | the lowest-id product with that barcode, if any, or a failure |
| OfflineStorage.Store.FindCustomerByPhone | lib/offlineStorage.js:128-133 | the lowest-id customer with that phone, if any, or a failure |
| OfflineStorage.Store.SavePendingOrder | lib/offlineStorage.js:135-142 | the order is added under a fresh generated key, never replacing a record, and that key is returned |
| OfflineStorage.Store.GetPendingOrders | lib/offlineStorage.js:144-147 | the unsynced orders in key order |
| OfflineStorage.Store.MarkOrderAsSynced | lib/offlineStorage.js:149-157 | the collection becomes the marked one; an unknown id changes nothing |
| OfflineStorage.Store.UpdateInventory | lib/offlineStorage.js:159-164 | the inventory becomes the one with that product's quantity and time replaced |
| OfflineStorage.Store.GetInventory | lib/offlineStorage.js:166-168 | the snapshot under the product id, if any |
| OfflineStorage.Store.AddToSyncQueue | lib/offlineStorage.js:170-177 | a new item `(fresh id, type, data, now, 0)` is added and its id returned |
| OfflineStorage.Store.GetSyncQueue | lib/offlineStorage.js:179-181 | every queued item in id order |
| OfflineStorage.Store.PutQueueItem | lib/offlineStorage.js:63-67 | the item replaces the one under its id, and the key generator moves past an explicit larger id |
| OfflineStorage.Store.RemoveSyncItem | lib/offlineStorage.js:183-185 | exactly that one item is deleted |
| OfflineStorage.Store.SetMetadata | lib/offlineStorage.js:187-189 | the entry `(key, value, now)` replaces any earlier one |
| OfflineStorage.Store.GetMetadata | lib/offlineStorage.js:191-194 | the stored value, or null for a missing key |
| OfflineStorage.Store.Clear | lib/offlineStorage.js:87-91 | the one named collection is emptied and the others are untouched |
| Api.AuthorizeSpec | lib/api.js:9-18 | a non-empty stored token adds `Authorization: Bearer <token>`; an absent or empty one adds nothing; verb, url, query and body are untouched |
| Api.OfflineFallbackSpec | lib/api.js:23-46 | the fallback table as an if-and-only-if per outcome: GETs on a products url (checked first) and on a customers url are served from the cache, POST/PUT/PATCH are queued under the tag `method_url`, DELETE and other GETs are rejected |
| Api.SuccessPassesThrough | lib/api.js:21 | a successful response is returned unchanged and queues nothing, online or not |
| Api.OnlineErrorRejected | lib/api.js:23-46 | online, an error whose message is not `Network Error` is rejected as is and nothing is queued |
| Api.OfflineProductsServed | lib/api.js:26-30 | an offline GET on a products url resolves with every cached product in key order and no customers |
| Api.OfflineCustomersServed | lib/api.js:31-34 | an offline GET on a customers url that is not a products url resolves with every cached customer |
| Api.OfflineWriteQueued | lib/api.js:37-43 | an offline request is queued exactly when it is a POST, PUT or PATCH, and it then resolves `{queued: true}` |
| Api.OfflineOtherRejected | lib/api.js:44-46 | offline DELETE and offline GETs of other resources are rejected with the original error and queue nothing |
| Api.Backend.Call | lib/api.js:4-7 | the server's reply is the fixed answer to the request, and the request is appended to the log of what was sent |
| Api.Send | lib/api.js:9-48 | one call through the client: the authorized request is sent; the result is the response interceptor's outcome; the sync queue gains exactly the item `(next id, method_url, body, now, 0)` when the call is an offline write and the store is open, and is otherwise unchanged; both are also stated as `QueueAfter` and `NextAfter`, which the callers cite |
| Api.QueueAfter | lib/api.js:22-43 | the queue after one call: a deferred write adds, under the next key, an item tagged `method_url` with the body and no retries, exactly when the call is a connectivity failure of a write and the store is open; every other entry stays; otherwise the queue is unchanged |
| Api.NextAfter | lib/api.js:22-43 | the queue's key generator moves on by one exactly when an item was added, and otherwise stays |
| SyncManager.BroadcastSpec | lib/syncManager.js:143-145 | every registered listener hears the event exactly once, in registration order |
| SyncManager.ConfirmationMatchesClient | lib/syncManager.js:63-69 | an order upload resolves exactly when a server answer or an offline fallback comes back, and `markOrderAsSynced` then gets the id that response carries |
| SyncManager.OfflineOrderConfirmed | lib/syncManager.js:64-65 | while offline every upload resolves with the interceptor's `{queued: true}`, so the order is marked synced with no server id |
| SyncManager.MarkConfirmedUntouched | lib/syncManager.js:62-70 | orders not in the uploaded list keep their records |
| SyncManager.MarkConfirmedAt | lib/syncManager.js:62-70 | in a list without repeated ids, an order whose upload resolves is marked synced with the response's id, and one whose upload is rejected is left as it was while the loop goes on |
| SyncManager.OrdersPhaseEffect | lib/syncManager.js:59-71 | phase 1 applied to the stored pending list: each listed order ends synced with its server id and the pass time, or unchanged and still unsynced |
| SyncManager.PullWatermark | lib/syncManager.js:74-94 | a pull carries `updatedAfter` exactly when a non-zero watermark is stored, and then carries that watermark |
| SyncManager.OfflinePullKeepsCache | lib/syncManager.js:73-87 | offline, the product pull is answered from the cache, and saving that answer back leaves the cache as it was |
| SyncManager.PullsSpec | lib/syncManager.js:73-103 | after both pulls each list is the old one with the fetched records put by id, each watermark reads `now` exactly when its list was fetched and is otherwise unchanged, and the customer pull asks with the customer watermark from before the pass |
| SyncManager.NetworkErrorPullStampsWatermark | lib/syncManager.js:73-87 | a product pull failing with `Network Error` while the browser reports online is answered from the cache, keeps the products, and still stamps `lastProductSync` with `now`, though nothing came from the server |
| SyncManager.ReplayTargetSpec | lib/syncManager.js:122-137 | the four known item types map to their verb and endpoint, and every other type is refused |
| SyncManager.InterceptorItemsNeverReplay | lib/syncManager.js:122-137 | an item that the interceptor queued under `method_url` has no replay target, so it is never delivered |
| SyncManager.ReplayResolvesIffDelivered | lib/syncManager.js:109-111 | a replay call resolves exactly when the server answers or the offline fallback queues it |
| SyncManager.ReplayDeliveredRemoves | lib/syncManager.js:110-111 | a delivered item is removed from the queue |
| SyncManager.ReplayFailureKeeps | lib/syncManager.js:112-118 | a failed item is never removed; its retry count goes up by one while below 3 and then stays |
| SyncManager.ReplayStepBounded | lib/syncManager.js:114-117 | one replay step keeps every retry count at most 3 |
| SyncManager.ReplayBounded | lib/syncManager.js:105-120 | a whole replay pass keeps every retry count at most 3 |
| SyncManager.AfterOrdersBounded | lib/syncManager.js:59-71 | the items phase 1 may queue start at retry count 0, so the bound survives phase 1 |
| SyncManager.Manager.constructor | lib/syncManager.js:5-8 | no pass in progress and no listeners; the pull endpoints are `/products` and `/customers` |
| SyncManager.Manager.OnSync | lib/syncManager.js:139-141 | the callback is appended to the listeners |
| SyncManager.Manager.NotifyListeners | lib/syncManager.js:143-145 | the delivered notices grow by one notice per listener, in order |
| SyncManager.Manager.UploadOrder | lib/syncManager.js:63-69 | one order is posted; it is marked synced with the response's id when the post resolves, and the queue changes only as the client's offline fallback does |
| SyncManager.Manager.UploadNext | lib/syncManager.js:62-70 | one loop iteration of phase 1 takes the state of the first i orders to that of the first i + 1 |
| SyncManager.Manager.UploadAll | lib/syncManager.js:62-70 | the orders are posted in list order, the store ends marked as `MarkConfirmed` says, and the queue as `AfterOrders` says |
| SyncManager.Manager.SyncPendingOrders | lib/syncManager.js:59-71 | phase 1 over the pending orders as listed at its start; an unopened store fails and changes nothing |
| SyncManager.Manager.PullProducts | lib/syncManager.js:73-87 | one GET with the stored watermark; the products are saved and the watermark stamped only when the answer carries a list, so the cache ends as `AfterProductPull` says; the queue is untouched |
| SyncManager.Manager.PullCustomers | lib/syncManager.js:89-103 | the same for customers and `lastCustomerSync`, ending as `AfterCustomerPull` says |
| SyncManager.Manager.ExecuteQueueItem | lib/syncManager.js:122-137 | a known item is sent to its endpoint and reported delivered exactly when its call resolves; an unknown type sends nothing and fails |
| SyncManager.Manager.ReplayItem | lib/syncManager.js:108-119 | one item is replayed, then removed when delivered or given one more retry while below 3 |
| SyncManager.Manager.ReplayNext | lib/syncManager.js:108-119 | one loop iteration of phase 4 takes the queue of the first i items to that of the first i + 1 |
| SyncManager.Manager.ReplayAll | lib/syncManager.js:108-119 | the snapshot items are replayed in order and the queue ends as `Replay` says |
| SyncManager.Manager.ProcessSyncQueue | lib/syncManager.js:105-120 | phase 4 over a snapshot of the queue in id order; an unopened store fails and changes nothing |
| SyncManager.Manager.PullAll | lib/syncManager.js:46-47 | the product pull and then the customer pull, each with its own stored watermark; products, customers and watermarks end as `AfterPulls` says (see `PullsSpec`); the queue is untouched |
| SyncManager.Manager.LaterPhases | lib/syncManager.js:46-48 | phases 2 to 4 in order: two pulls that leave the cache as `AfterPulls` says, then the replay of the queue as it stood after phase 1 |
| SyncManager.Manager.RunPhases | lib/syncManager.js:44-50 | the four phases in order, as `PassRan` states them: the orders are posted and the confirmed ones marked; both pulls are sent with the stored watermarks and the products, customers and watermarks end as `AfterPulls` says; the queue left by phase 1 is replayed in key order, with every request in sequence; a storage failure stops the pass at phase 1 with nothing changed (`Untouched`) |
| SyncManager.Manager.SyncAll | lib/syncManager.js:38-57 | a no-op while a pass runs; otherwise `syncStart`, the phases with the whole effect `PassRan` states (orders, cache, watermarks, queue and requests; nothing changed when the store is not open), `syncComplete` or `syncError`, and the flag cleared at the end |
| SyncManager.Manager.HandleOnline | lib/syncManager.js:27-31 | listeners first hear `online`; unless a pass is already running, a pass then runs as online, with `syncStart` and `syncComplete` or `syncError` delivered after `online`, and the pending orders, cached products and customers, watermarks, queue and requests as `PassRan` states; when a pass is running nothing else changes |
| SyncManager.Manager.HandleOffline | lib/syncManager.js:33-36 | listeners hear `offline` and nothing else happens |
| SyncManager.Manager.Init | lib/syncManager.js:10-19 | the store is opened; when that worked, the browser is online and no pass runs, a pass runs with `syncStart`, the whole effect `PassRan` states (orders, cache, watermarks, queue, requests) and `syncComplete`; otherwise no request is sent, nothing is delivered and the stored data is unchanged |
| SyncManager.Manager.GetSyncStatus | lib/syncManager.js:147-160 | the status holds the connectivity, the number of unsynced orders, the number of queued items and both watermarks |
| OfflinePos.AddToCartNew | components/OfflinePOS.js:144-150 | a product not yet in the cart is appended as one line of quantity 1 priced `selling_price`, else `price`, else 0 |
| OfflinePos.AddToCartExisting | components/OfflinePOS.js:131-143 | a product already on a line raises that line by exactly 1 when its quantity is below the available stock (first inventory row's `quantity_available`, else `stock`, else 0); at the limit the cart is unchanged, and other lines never change |
| OfflinePos.AddToCartKeepsUnique | components/OfflinePOS.js:130-151 | adding never creates a second line for one product |
| OfflinePos.UpdateQuantitySpec | components/OfflinePOS.js:153-168 | a line of that product takes the new quantity exactly when it lies in [1, available stock] and otherwise stays; other lines, products and prices never change |
| OfflinePos.UpdateQuantityWithinStock | components/OfflinePOS.js:153-168 | if every quantity lies in [1, stock] before, it still does after |
| OfflinePos.RemoveFromCartSpec | components/OfflinePOS.js:170-172 | afterwards a line is kept exactly when it was in the cart and belongs to another product |
| OfflinePos.RemoveFromCartInOrder | components/OfflinePOS.js:170-172 | removal keeps order: removing from a concatenation removes from each part |
| OfflinePos.TotalsOfAppend | components/OfflinePOS.js:200-205 | a new line adds unit price times quantity to the subtotal, and the total is the subtotal times 1.0875 |
| OfflinePos.TotalsOfRemove | components/OfflinePOS.js:170-205 | removing a product's only line takes exactly that line's amount out of the subtotal |
| OfflinePos.TotalsNonNegative | components/OfflinePOS.js:200-205 | with non-negative prices and quantities the subtotal and tax are non-negative and the total is at least the subtotal |
| OfflinePos.ChangeDue | components/OfflinePOS.js:67-74 | the change is never negative; when the cash covers the total, received = total + change, and otherwise the change is 0 |
| OfflinePos.UnreadableCashRefused | components/OfflinePOS.js:70 | cash text that is not a number counts as 0, so it never covers a positive total and gives no change |
| OfflinePos.CashOfTypedDigits | components/OfflinePOS.js:233 | typed digits are read as the whole number they denote |
| OfflinePos.QuickAmountReadsBack | components/OfflinePOS.js:834-837 | a quick-amount button's `amount.toString()` reads back as that amount, covers exactly the totals up to it, and leaves the difference as change |
| OfflinePos.SaleOrderItems | components/OfflinePOS.js:261-272 | every cart line becomes one order item in order, with its product, quantity and price; the customer id is sent only for a customer with a non-zero id |
| OfflinePos.QueuedIsNotConfirmed | components/OfflinePOS.js:279-291 | the interceptor's `{queued: true}` carries no order, so the POS treats it as a failed post |
| OfflinePos.NetworkErrorRecordsSaleTwice | components/OfflinePOS.js:277-291 | online, a sale post failing with `Network Error` is deferred as `post_/pos/complete-sale` and its queued answer is no confirmed sale, so the error path also saves it as a pending order |
| OfflinePos.PosTerminal.constructor | components/OfflinePOS.js:9-24 | the screen opens with an empty cart, no customer, no search and no cash entered |
| OfflinePos.PosTerminal.RefreshChange | components/OfflinePOS.js:67-74 | with a non-empty cart the change shown becomes `ChangeDue` of the cash field read as `CashAmount` (its `parseFloat`, or 0 when that is not a number) against the total; with an empty cart it stays |
| OfflinePos.PosTerminal.EnterCash | components/OfflinePOS.js:823 | the typed text (or a quick amount's text) is stored in the cash field and the change is recomputed from it, as `RefreshChange` does |
| OfflinePos.PosTerminal.CompleteTransaction | components/OfflinePOS.js:247-351 | an empty cart sends and saves nothing. Otherwise the outcome is exactly one of: an online sale; an offline save when offline with the store open; a fallback save after a post that did not confirm; or a failure when no save worked. Each save adds exactly one pending order. The cart is cleared after every recorded sale and kept only on failure. Online, the sync queue changes exactly as the client's fallback does (`QueueAfter`), so an online `Network Error` with the store open both queues `post_/pos/complete-sale` and saves a pending order: the sale is recorded twice (see `NetworkErrorRecordsSaleTwice`). Offline, the queue is untouched. Online, the outcome is an online sale exactly when the post's result is `Confirmed`, and the receipt carries its order number |
| OfflinePos.PosTerminal.CheckoutOnline | components/OfflinePOS.js:277-350 | the sale is posted once, and the sync queue changes exactly as the client's fallback does for that post; the outcome is an online sale exactly when the client's result is `Confirmed` (resolved with an order number), and its receipt then carries that order number, the order, totals, paid amount and change, with the screen cleared; anything else takes the error path, which saves one pending order when the store is open and otherwise keeps the cart |
| OfflinePos.PosTerminal.CheckoutOffline | components/OfflinePOS.js:293-319 | the sale is saved as one pending order and the screen cleared; a failed save takes the error path |
| OfflinePos.PosTerminal.RecordFallback | components/OfflinePOS.js:320-350 | the error path saves one pending order and clears the cart but not the search; when that save fails too, nothing changes |
| OfflinePos.PosTerminal.ClearSale | components/OfflinePOS.js:313-318 | cart, customer, search, cash and change are reset |
| OfflinePos.PosTerminal.CompleteCashTransaction | components/OfflinePOS.js:217-245 | reached from the button or from Enter in the cash field, which makes the same check first; the cash is read from the cash field as `CashAmount` (its `parseFloat`, or 0 when that is not a number); the sale is refused, with nothing sent or saved and the cart and cash field kept, exactly when that amount is below the total; otherwise checkout runs as `cash`, with that amount as the paid amount (or the total when it is 0) and the change on screen |
| Wholesale.LastNumberOfWs | app/wholesale/page.js:77-78 | the number part of `WS-` plus the zero-padded decimal of `n` reads back as `n` |
| Wholesale.BillFollowsLastOrder | app/wholesale/page.js:71-80 | when the newest order is numbered `WS-pad6(n)`, the bill is `WS-pad6(n + 1)` and the reference `WS-pad6(n)` |
| Wholesale.BillDefaults | app/wholesale/page.js:74-88 | with no orders, a failed request, or a newest order without a number, the bill is `WS-000001` and the reference `WS-000000` |
| Wholesale.LastNumberDefault | app/wholesale/page.js:77-78 | a missing or empty order number counts as 0 |
| Wholesale.DropdownResultsSpec | app/wholesale/page.js:91-110 | a blank term gives no results; otherwise the results are the first matches (by name, sku or barcode, ignoring case) in catalogue order, at most ten, and all of them when there are at most ten |
| Wholesale.ArrowDown | app/wholesale/page.js:123-125 | the highlight moves down by one or stays, and never leaves the rows |
| Wholesale.ArrowUp | app/wholesale/page.js:126-128 | the highlight moves up by one, or from the first row back to none |
| Wholesale.EnterChoice | app/wholesale/page.js:129-135 | Enter picks a product exactly when the dropdown has rows, and always one of its rows: the highlighted one when the highlight is on a row, otherwise the first |
| Wholesale.SelectedSpec | app/wholesale/page.js:143-174 | picking a product not on the order appends its line and selects it; picking one already there keeps the selected row; the search is reset and no product gets two lines |
| Wholesale.Reprice | app/wholesale/page.js:179-187 | the repriced line satisfies discount = qty × price × percent / 100 and total = qty × price − discount |
| Wholesale.AddItemAsWrittenDropsDiscount | app/wholesale/page.js:154-158 | for every priced line of the product, the increment as written sets the total to the new gross and keeps the old discount value, and it agrees with the repriced increment exactly when price × percentage is 0 |
| Wholesale.AddItemAsWrittenSpec | app/wholesale/page.js:152-174 | as written: an existing product's line gains exactly one unit, its total becomes the new gross and its discount value stays; other lines stay; a new product is appended with quantity 1, its selling price and no discount; no product gets two lines |
| Wholesale.AddItemSpec | app/wholesale/page.js:152-174 | an existing product's line gains exactly one unit and stays priced, and other lines stay; a new product is appended with quantity 1, its selling price, no discount and a line total equal to the price; no product gets two lines |
| Wholesale.UpdateItemSpec | app/wholesale/page.js:176-189 | only the edited line changes; it takes the new value, and after a quantity, price or percentage edit it is priced |
| Wholesale.NetTotalIsSumOfLines | app/wholesale/page.js:196-201 | when every line is priced, the net total equals the sum of the line totals |
| Wholesale.RemoveItemTotals | app/wholesale/page.js:191-201 | removing a line takes exactly its gross amount out of the subtotal and its discount out of the total discount |
| Wholesale.PostedLines | app/wholesale/page.js:214-222 | one posted line per order line, in order, carrying its product id, code as `sku`, name, quantity, unit price, percentage and discount value as `discount_amount` |
| Wholesale.SaveRequest | app/wholesale/page.js:203-229 | an empty order is refused before any request; otherwise the posted body carries each line as `{product_id, sku: code, name, quantity, unit_price, discount_percentage, discount_amount: discount_value}`, the subtotal and total discount of `calculateTotals`, total = subtotal − discount, `cash` and `paid`, the description or `Wholesale Sale` as notes, the customer's id unless it is missing or 0, and the staff member's id unless missing or 0, else the stored user's |
| Wholesale.SaveRequestTotals | app/wholesale/page.js:196-229 | when every line is priced, the posted total equals the sum of the grid's line totals and the posted discount the sum of the lines' discount values |
| Wholesale.WholesalePage.constructor | app/wholesale/page.js:8-24 | the screen opens with no lines, no selected row, no search and the dropdown closed |
| Wholesale.WholesalePage.HandleSearchChange | app/wholesale/page.js:91-110 | the term is stored, the highlight cleared, the results are `DropdownResults`, and the dropdown is open exactly when there are results |
| Wholesale.WholesalePage.SelectProduct | app/wholesale/page.js:143-174 | the screen becomes `Selected` of the product: the order is `AddItemAsWritten` of it, as `addItemToCart` is written; a new line becomes the selected row; no product gets two lines; the search term, results, highlight and dropdown are reset |
| Wholesale.WholesalePage.HandleKeyDown | app/wholesale/page.js:112-141 | the whole screen after each key. Closed dropdown: only Enter with an exact sku or barcode match acts, exactly as `SelectProduct` (order, selected row and the search reset); anything else changes nothing. Open dropdown: the arrows change only the highlight; Enter acts as `SelectProduct` on the `EnterChoice` row, or changes nothing without rows; Escape closes, clears the term and the highlight, and keeps the results and order. Other keys change nothing |
| Wholesale.WholesalePage.KeyInDropdown | app/wholesale/page.js:123-140 | the open dropdown's cases of `HandleKeyDown`, each stating the whole screen afterwards: arrows move only the highlight, Enter selects the `EnterChoice` row with the full reset, Escape closes and clears, other keys change nothing |
| Inventory.GetStockStatus | app/inventory/page.js:106-111 | `Out of Stock` exactly when the first inventory row's quantity (0 when absent) is 0; `Low Stock` exactly when it is non-zero and at most the minimum level; `In Stock` otherwise, an undefined level included |
| Inventory.SummaryAgreesWithStatus | app/inventory/page.js:118-125 | with no negative stock, the low-stock and out-of-stock counts equal the numbers of rows labelled `Low Stock` and `Out of Stock` |
| Inventory.NegativeStockNotCounted | app/inventory/page.js:106-125 | a negative stock with a non-negative minimum level is labelled `Low Stock` but counted in neither summary figure |
| Inventory.ApplyFiltersSpec | app/inventory/page.js:50-60 | a product is listed exactly when it is in the catalogue and the query is empty or occurs in its name or sku ignoring case; the page returns to 1 |
| Inventory.TotalPages | app/inventory/page.js:113 | the page count is the ceiling of the item count over 10: every item fits and the last page is non-empty |
| Inventory.CurrentItemsSpec | app/inventory/page.js:114-116 | page p shows the items at indices [(p−1)·10, p·10), cut at the end of the list; at most ten; none past the list; at least one on every page up to the page count |
| Inventory.ItemOnItsPage | app/inventory/page.js:113-116 | item i appears on page i / 10 + 1 at position i mod 10 |
| Inventory.PagingStaysInRange | app/inventory/page.js:113-116 | the pager is rendered only when the current page lists an item (lines 183-186), so the page is between 1 and the page count; the previous (`Math.max(1, p − 1)`, line 243) and next (`Math.min(totalPages, p + 1)`, line 253) buttons keep it there and move it by exactly one except at the first or last page |
| Inventory.ValidateAdjustmentSpec | app/inventory/page.js:453-466 | a quantity that is not a positive integer is refused; removing more than the current stock is refused; otherwise the adjustment is +qty or −qty and never takes a non-negative stock below zero |
| Inventory.MovementFollowsKind | app/inventory/page.js:94 | an accepted adjustment is recorded as `adjustment_in` exactly when it adds stock |
| Inventory.PreviewMatchesAdjustment | app/inventory/page.js:468-471 | the dialog's new-stock preview equals the stock an accepted adjustment leads to |
| Reports.LoadReportsSpec | app/reports/page.js:51-118 | each of the seven tabs requests exactly its own report url with the date range (the inventory report without one); any other tab requests nothing |
| Reports.EscapeRoundTrip | app/reports/page.js:132 | decoding a string that `JSON.stringify` escaped gives the original string |
| Reports.QuoteRoundTrip | app/reports/page.js:132 | a quoted JSON string cell unquotes to the original string |
| Reports.EscapePrintable | app/reports/page.js:132 | an escaped string holds no control character, so no line break |
| Reports.ConvertEmpty | app/reports/page.js:130 | missing or empty data exports as the empty text |
| Reports.CellSpec | app/reports/page.js:132 | a missing key or a falsy value becomes `""`; a non-empty string cell is its JSON text, which parses back to the value |
| Reports.StringifyOneLine | app/reports/page.js:132 | a cell never contains a line break |
| Reports.RowLineOneLine | app/reports/page.js:132 | a CSV row never contains a line break |
| Reports.ConvertLines | app/reports/page.js:129-135 | the export has one line per row after the header line; the header is the first row's keys joined by commas, and line i + 1 is row i's cells in header order |
| Reports.SharesSum | app/reports/page.js:517-525 | with a positive grand total the shares add up to the sum of the totals over the grand total, times 100 |
| Reports.PaymentSharesSpec | app/reports/page.js:517-525 | with a zero grand total every share is 0; with a positive one the shares add up to 100 |
| Reports.ShareBounded | app/reports/page.js:517-525 | with no negative totals each share lies in [0, 100] |
| Reports.ProfitIndicatorSpec | app/reports/page.js:672-687 | `Excellent` exactly from a margin of 30, `Good` exactly from 15 to below 30, `Needs Improvement` below 15, so the rating never decreases as the margin grows; the bar is twice the margin below 50 and full (100 %) exactly from 50; `Excellent` exactly from a bar of 60 %, `Good` from 30 % to below 60 %; a non-numeric margin gives `Needs Improvement` and no width |
| Returns.LoadOrderDetailsSpec | app/returns/page.js:47-63 | loading keeps the order's items in order, each with return quantity 0, and keeps reason, condition and notes; nothing is then submitted, the refund is 0 and the submit button is disabled |
| Returns.UpdateReturnQuantitySpec | app/returns/page.js:65-69 | only the edited item's return quantity changes, to `parseInt` of the typed text; every other item and field stays |
| Returns.SubmittedAppend | app/returns/page.js:75-81 | the lines submitted for a concatenation are the two parts' submitted lines, concatenated |
| Returns.SubmittedSpec | app/returns/page.js:75-81 | an item is submitted exactly when its return quantity is a number above 0, in list order, and every submitted quantity is positive |
| Returns.NoneChosen | app/returns/page.js:76 | with no positive return quantity the filter keeps nothing |
| Returns.HandleSubmitSpec | app/returns/page.js:71-98 | a return is posted exactly when some item has a positive quantity, and it carries the submitted lines with the form's order, customer, staff, reason, condition and notes |
| Returns.EnabledButRefused | app/returns/page.js:451 | a cleared quantity (`NaN`) enables the submit button, but the submission is still refused |
| Returns.RefundAsWrittenCountsNegatives | app/returns/page.js:148-152 | as written, the refund shown sums every item: return quantities 2 and −1 at 10 show 10 while 2 units (20) are submitted. The field's `min="0"` (line 396) makes the browser refuse such a form, so only a submit that bypasses that validation gets there |
| Returns.RefundByItem | app/returns/page.js:148-152 | the refund of what is submitted is the sum, over the items with a positive quantity, of unit price times quantity |
| Returns.RefundsAgree | app/returns/page.js:148-152 | with no negative quantity the corrected refund equals the sum over every item |
| Returns.ChosenSumNonNegative | app/returns/page.js:148-152 | with non-negative prices the corrected refund is never negative |
| Returns.RefundSpec | app/returns/page.js:148-152 | the corrected refund sums unit price times quantity over the submitted items, agrees with the written sum when no quantity is negative, and is never negative for non-negative prices |
| ItemLists.RemoveItemSpec | app/quotation/page.js:72-77 | removing drops exactly the line at that index when it exists, keeps the rest in order, and leaves the entry row |
| ItemLists.PricedTotalSpec | app/quotation/page.js:79-81 | the list total is a number exactly when every line total is, and it is then their sum |
| ItemLists.PricedTotalAppend | app/quotation/page.js:79-81 | appending a line adds its total to the list total |
| ItemLists.AddPricedSpec | app/quotation/page.js:51-70 | an add with an empty product, quantity or price is refused and changes nothing; otherwise one line is appended with the picked product's name and line total, the entry row resets, and the total grows by that line total, which is quantity × price when the old total and both fields are numbers |
| ItemLists.RemovePricedTotal | app/quotation/page.js:72-81 | with numeric lines, removing a line takes exactly its total out of the list total |
| ItemLists.AddCountedSpec | app/dispatch-note/page.js:50-69 | an add with an empty product or quantity is refused; otherwise one line is appended whose name and sku are those of the first product with that id (none when there is none), and the entry row resets |
| Quotation.HandleSubmitSpec | app/quotation/page.js:83-100 | an empty quotation is refused with `Please add at least one item`; any other is posted to `/quotations` as it stands |
| Quotation.EditingSpec | app/quotation/page.js:51-81 | on this page an add needs product, quantity and unit price, the line total is quantity times unit price, a removal drops only its line, and the total is the sum of line totals |
| PurchaseGrn.HandleSubmitSpec | app/purchase-grn/page.js:85-102 | an empty GRN is refused; any other is posted to `/grn` |
| PurchaseGrn.EditingSpec | app/purchase-grn/page.js:53-83 | an add needs product, quantity and rate, appends quantity times rate and resets the entry; a removal drops only its line and takes its total out of the GRN total |
| PurchaseReturn.HandleSubmitSpec | app/purchase-return/page.js:90-107 | an empty return is refused; any other is posted to `/purchase-returns` |
| PurchaseReturn.EditingSpec | app/purchase-return/page.js:58-88 | an add needs product, quantity and rate, appends quantity times rate and resets the entry; the total is the sum of line totals, and a removal takes exactly its line's total out |
| DispatchNote.HandleSubmitSpec | app/dispatch-note/page.js:78-100 | a transfer is posted to `/stock-transfer` exactly when it has lines and two different stores; an empty list is refused first, then a transfer into the same store |
| DispatchNote.EditingSpec | app/dispatch-note/page.js:50-76 | an add needs product and quantity, copies the picked product's name and sku and resets the entry to `{product_id: '', quantity: ''}`; a removal drops only its line, and an index out of range changes nothing |
| StockAdjustment.HandleSubmitSpec | app/stock-adjustment/page.js:79-96 | an empty adjustment is refused; any other is posted to `/stock-adjustment` |
| StockAdjustment.EditingSpec | app/stock-adjustment/page.js:51-77 | an add needs product and quantity, keeps the line's notes, copies name and sku and resets the entry (notes included); a removal drops only its line |
| StockAdjustment.TypeColorSpec | app/stock-adjustment/page.js:127-136 | `increase` is green, `decrease` and `loss` red, `damage` orange, `found` blue and any other type gray; distinct colours have distinct classes |
| PurchaseOrders.CalculateTotalSpec | app/purchase-orders/page.js:131-135 | the total is a number exactly when every row's unit cost times quantity is, and it is then the sum of those amounts |
| PurchaseOrders.TotalAppend | app/purchase-orders/page.js:131-135 | appending a row adds its amount to the total |
| PurchaseOrders.AddItemToFormSpec | app/purchase-orders/page.js:46-51 | a new row `{product_id: '', quantity_ordered: 1, unit_cost: 0}` is appended and adds nothing to the total |
| PurchaseOrders.UpdateItemSpec | app/purchase-orders/page.js:53-57 | an edit replaces the named field of the one row with the typed text and changes nothing else |
| PurchaseOrders.RemoveItemSpec | app/purchase-orders/page.js:59-62 | removing a row drops only that row and, with numeric rows, exactly its amount from the total |
| PurchaseOrders.EmptyCountsZero | app/purchase-orders/page.js:133 | an empty or zero unit cost makes the row's amount 0 whatever the quantity |
| PurchaseOrders.TypedWholeNumbers | app/purchase-orders/page.js:133 | digits typed into either field are read as that whole number |
| PurchaseOrders.HandleSubmitSpec | app/purchase-orders/page.js:64-78 | every form is posted to `/purchase-orders` with all its rows and the user's id as `staff_id`; against the empty-list guard the other editors share (`ItemLists.SubmitNonEmpty`), it agrees on every non-empty list and, unlike it, also posts an empty one |
| PurchaseOrders.CountsDisjoint | app/purchase-orders/page.js:168-179 | the Pending and Received counts together never exceed the number of orders |
| PurchaseOrders.StatusCountsSpec | app/purchase-orders/page.js:168-257 | over the unfiltered list (the cards count every loaded order, while the table shows the search-filtered rows of lines 126-129): Receive is offered on a row exactly when its order is pending, and the Pending card counts exactly those rows |
| Login.ErrorMessageSpec | app/login/page.js:61-72 | a 429 gives the rate-limit message and a 401 the credentials message; a timeout is reported only without either status; otherwise the server's error text, or the generic message; a missing token gives the generic message |
| Login.OfflineLoginIsQueued | app/login/page.js:41-58 | offline, the login post is queued under `post_/auth/login` with the trimmed email and the password, and the `{queued: true}` answer has no token, so the page shows the generic message |
| Login.LoginPage.constructor | app/login/page.js:18-24 | a stored non-empty token sends the page straight to the dashboard; the form starts empty with no attempt recorded |
| Login.LoginPage.HandleSubmit | app/login/page.js:26-74 | within two seconds of the last accepted attempt only the wait message is set and nothing is sent or queued. Otherwise the attempt time is recorded, the trimmed email and the password are posted to `/auth/login`, the sync queue changes exactly as the client's fallback does for that post (offline it queues `post_/auth/login` with the credentials), and a token in the answer is stored with the user before the redirect; any other result sets the classified message and keeps the stored session |
| Login.LoginPage.Attempt | app/login/page.js:40-74 | the `try` block: one request is sent, and the sync queue changes exactly as the client's fallback does for it; a token is stored with the user, and anything else sets `ErrorMessage` of the failure; loading ends false |

## Left out

- IndexedDB mechanics: the open and upgrade callbacks, transactions and request objects are not modelled. The wrapper in `lib/offlineStorage.js` returns request objects from `get`, `getAll` and `add`, and its callers await them as if they were results; the model gives every operation the awaited result the callers use.
- Storage failures: the only failure modelled is a store that was never opened. Quota, version and transaction errors are not modelled.
- Concurrency: asynchronous interleavings are not modelled. Each call is one atomic step, and `syncInProgress` is a plain flag.
- Platform events: the window `online`/`offline` listeners, service-worker registration, background sync and notifications are platform I/O. `HandleOnline`, `HandleOffline` and `Init` stand for what the listeners do.
- HTTP transport: the base URL and the 10-second timeout are not modelled. The backend is a deterministic function of the request, so one model run cannot show the same request answered two ways.
- Timeouts: a timeout (`ECONNABORTED`) is not treated as offline. The interceptor tests only `navigator.onLine` and the message `Network Error`, and the model follows the code, which is narrower than the documented design.
- Floating point: IEEE rounding, `toFixed`, and `parseFloat`'s exponents and `Infinity` are not modelled. Money is an exact `real`.
- Dates: `Date.now()`, `new Date()` and locale formatting are not modelled. Times are numbers passed in, and the POS notes stamp is an opaque string.
- UI: React rendering, alerts and confirms, focus timers, the search debounce, and the HTML receipt and invoice printing are not modelled.
- POS lookups: the product search, barcode scan, customer search and pending-count refresh of `components/OfflinePOS.js` (lines 76-127 and 174-198) are not modelled. They are lookups into the client and the store, which `Api` and `OfflineStorage.Store` already cover.
- Reports.ConvertToCsv: a row's keys in `Object.keys` order are a given sequence, and cells are strings, integers, booleans or null. Non-integer numbers and nested objects are not serialised.
- ToLower: only ASCII letters are lowered, and `Trim` removes only the common whitespace characters (space, tab, line feed, carriage return, vertical tab and form feed), not the other Unicode spaces.
- Wholesale.UpdateItem: the source updates the row object in place, so the old array would see the new values. The model builds a new list, and this aliasing is not modelled. The same holds for the in-place edits in `Returns.UpdateReturnQuantity`, `PurchaseOrders.UpdateItem` and the wholesale `addItemToCart`.
- Wholesale.UpdateItem: the edited value arrives already parsed, as `parseFloat(value) || 0` leaves it, rather than as text.
- PurchaseOrders.Cell: a numeric field holds either its initial number or the text typed into it. The order's other fields and the Receive dialog's own edits are not modelled.
- Login.LoginPage: the 100 ms redirect delay and the router are a flag set on success.
- SyncManager.Manager: the pull urls are constant fields fixed by the constructor.
- Wholesale.SaveRequest: the posted body is modelled, but the request, the alert with `order_number || billNumber`, the printed receipt and the reset that follow it are not (lines 230-243). The selected customer and staff member arrive as ids: the page finds them with `===` against the select's string value (lines 432 and 472), which the model does not repeat.
- Wholesale.WholesalePage.SelectProduct: the page uses the code as written (`AddItemAsWritten`), so a repeated product loses its discount in the line total; the repriced `AddItem` is kept beside it as the corrected definition.
- ItemLists.CatalogProduct: product ids are strings, as the `<select>` value the entry row holds. `products.find(p => p.id === currentItem.product_id)` finds nothing when the catalogue's ids are numbers, since `===` does not convert. The model assumes both sides are the same string form, so a lookup succeeds exactly when the ids are equal.
- Text.ParseInt: decimal only. Without a radix, JavaScript's `parseInt` also reads a `0x` prefix as hexadecimal, and that case is not modelled.
- Inventory.AtOrBelowMin: a missing `min_stock_level` is taken as `undefined`, which compares false. A `null` level, which JavaScript compares as 0, would make a negative stock Low Stock. That case is not modelled.
- SyncManager.Manager.SyncAll: `notifyListeners('syncStart')` runs before the `try`, so a listener that throws there would leave `syncInProgress` set. Listener exceptions are not modelled: a listener is only a recorded call.
- OfflinePos.Confirmed: an answer's `order` and its `order_number` are taken to be present together, since the body has one optional order number. An answer with an `order` but no `order_number` would, in the source, show a receipt numbered `undefined`, clear the sale and save nothing; the model sends it down the fallback path instead.
- Returns.HandleSubmit: the staff id is passed in. The source reads `user.id` from `JSON.parse(localStorage.getItem('user'))`, which is `null` when no user is stored, so a non-empty return then throws inside the `try`, is reported as failed and posts nothing; that path is not modelled.
- PurchaseOrders.HandleSubmit: the staff id is passed in, read by the source the same way as in `Returns.HandleSubmit`; with no stored user the source throws before the post, shows `Failed to create purchase order` and posts nothing, which is not modelled.
- Backend pages: the stores, categories, opening-stock and supplier payment and balance pages are plain CRUD forms and are not part of this model. So are the dashboard, the navigation shell and the sync indicator.

## Findings

| source | as written | input that shows it | evidently intended | confidence | as-written member | corrected member |
|---|---|---|---|---|---|---|
| app/wholesale/page.js:154-158 | adding a product already on the order sets `line_total = quantity * unit_price`, dropping the discount and leaving `discount_value` at its old figure | one unit at 100 with 10 % off (discount 10, total 90), then the same product again: total 200, discount 10 | reprice the line as `updateItem` does: discount 20, total 180 | not executed | Wholesale.AddItemAsWrittenDropsDiscount | Wholesale.AddItemSpec |
| app/returns/page.js:148-152 | the refund shown sums unit price × quantity over every item, a negative quantity included | items of 10 each with return quantities 2 and −1, submitted past the browser's `min="0"` check (line 396): the refund shown is 10 while two units (20) are submitted | refund only what is submitted, the items with a positive quantity | not executed | Returns.RefundAsWrittenCountsNegatives | Returns.RefundSpec |
