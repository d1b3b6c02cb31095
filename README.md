# PaymentManager (StoreKit 2 purchase manager), modelled in Dafny

The Swift framework `StoreKit2Framework` wraps Apple's StoreKit 2 for a host application. Its one
class with logic, `PaymentManager`, keeps a cache of fetched products. It drives purchases
to a completion. It scans the current entitlements to restore purchases and to check one product.
A background listener handles transaction updates. Every outcome reaches the application
through a delegate (`PaymentManagerDelegate`) and through completion handlers.

This project models that class with StoreKit's answers as inputs:

- `FetchResponse` is what `Product.products(for:)` returns or throws.
- `PurchaseOutcome` is what `product.purchase(options:)` returns or throws.
- `SyncResponse` is what `AppStore.sync()` returns or throws.
- `seq<VerificationResult>` stands for the `Transaction.currentEntitlements` and `Transaction.updates` streams.

`PaymentManager` is a class. Its field `products` is the cache, which `RequestProducts` updates in
place. Its field `emitted` is the ordered record of everything the manager does that can be seen
from outside: delegate callbacks, completion-handler calls, and calls into StoreKit (lookup,
purchase submission, sync, `finish()`). Each method's contract gives its new `emitted` as the old one
plus a trace function of the inputs (`FetchTrace`, `PurchaseTrace`, `RestoreTrace`, `UpdateEvents`,
`ListenerTrace`). The properties are proved about those functions: which callbacks fire, that the
completion is called exactly once, and that `finish()` happens only for a verified transaction and
only after the delegate and the completion.

Modules, one per component:

- `DecimalText` (decimal_text.dfy): `String(transaction.id)` as a decimal rendering, with its inverse.
- `PaymentValues` (payment_values.dfy): StoreKit's products and transactions, and the `PaymentProduct.init` and `PaymentTransaction.init` translations.
- `Events` (events.dfy): the observable events and counting over traces.
- `Catalog` (catalog.dfy): the product cache and what a successful fetch does to it.
- `Entitlements` (entitlements.dfy): the two scans of the entitlement stream.
- `Outcomes` (outcomes.dfy): the decision logic of each operation, as event traces.
- `Manager` (payment_manager.dfy): the `PaymentManager` class itself.

Two behaviours of the code are worth stating up front:

- The cache is merged. Each successful fetch adds or overwrites the fetched entries, and no entry is ever removed (StoreKit2Framework/StoreKit2Framework/StoreKit2Framework.swift:110-112). `Catalog.Merge` and the lemmas beside it state this.
- On a verified purchase the code calls the delegate, then the completion, and only then `transaction.finish()` (lines 145-149). `Outcomes.PurchaseEventsShape` states this order.

## Model

| member | source | states |
|---|---|---|
| DecimalText.Render | StoreKit2Framework/StoreKit2Framework/StoreKit2Framework.swift:62 | the transaction id's text is non-empty, all digits, and starts with '0' only for id 0 |
| DecimalText.ValueOfRender | StoreKit2Framework/StoreKit2Framework/StoreKit2Framework.swift:62 | reading the decimal text back gives the numeric id (round trip) |
| PaymentValues.TypeName | StoreKit2Framework/StoreKit2Framework/StoreKit2Framework.swift:35-46 | the product type name is one of "consumable", "nonConsumable", "autoRenewable", "nonRenewable", "unknown", and it is "unknown" exactly for a kind outside the four listed |
| PaymentValues.TypeNameInjective | StoreKit2Framework/StoreKit2Framework/StoreKit2Framework.swift:35-46 | the four listed kinds get four distinct names |
| PaymentValues.ReasonName | StoreKit2Framework/StoreKit2Framework/StoreKit2Framework.swift:69-76 | the revocation reason name is "developerIssue", "other" or "unknown", and it is "unknown" exactly for a reason outside the two listed |
| PaymentValues.FromProduct | StoreKit2Framework/StoreKit2Framework/StoreKit2Framework.swift:28-49 | PaymentProduct.init keeps the id, names, price and display price, and gives a listed type name that is "unknown" exactly for an unlisted kind |
| PaymentValues.FromTransaction | StoreKit2Framework/StoreKit2Framework/StoreKit2Framework.swift:61-82 | PaymentTransaction.init gives a transactionId that is digits reading back as the id, keeps the product id, dates and upgrade flag, and has a revocation reason exactly when the transaction has one, named as listed |
| PaymentValues.TransactionIdsDistinct | StoreKit2Framework/StoreKit2Framework/StoreKit2Framework.swift:62 | transactions with different ids get different transactionId strings |
| PaymentValues.FromProducts | StoreKit2Framework/StoreKit2Framework/StoreKit2Framework.swift:114 | the list reported to the delegate has one translated record per fetched product, in fetch order |
| Catalog.Merge | StoreKit2Framework/StoreKit2Framework/StoreKit2Framework.swift:110-112 | after a fetch the cache holds the old ids plus the fetched ids and no others, and an entry stays under its own id |
| Catalog.MergeKeepsUnfetched | StoreKit2Framework/StoreKit2Framework/StoreKit2Framework.swift:110-112 | an entry whose id was not fetched keeps its old product (merge, never removal) |
| Catalog.MergeStoresLatest | StoreKit2Framework/StoreKit2Framework/StoreKit2Framework.swift:110-112 | each fetched product is stored under its own id, unless a later fetched product has the same id |
| Catalog.MergeIsUnion | StoreKit2Framework/StoreKit2Framework/StoreKit2Framework.swift:110-112 | the cache after a fetch is the old cache overridden by the fetched products |
| Catalog.MergeIdempotent | StoreKit2Framework/StoreKit2Framework/StoreKit2Framework.swift:110-112 | fetching the same products again leaves the cache as it was |
| Catalog.ListingSize | StoreKit2Framework/StoreKit2Framework/StoreKit2Framework.swift:203-205 | in a cache where every entry is under its own id, the listing has exactly one record per entry |
| Entitlements.VerifiedTransactions | StoreKit2Framework/StoreKit2Framework/StoreKit2Framework.swift:223-236 | the collected list is no longer than the stream |
| Entitlements.VerifiedIds | StoreKit2Framework/StoreKit2Framework/StoreKit2Framework.swift:254-261 | the ids of the verified entries of a stream, one per collected record |
| Events.FinishedIds | StoreKit2Framework/StoreKit2Framework/StoreKit2Framework.swift:261 | the ids passed to finish() in a trace, one per finish() event |
| Entitlements.VerifiedTransactionsAppend | StoreKit2Framework/StoreKit2Framework/StoreKit2Framework.swift:226-233 | collecting keeps stream order: scanning two streams in turn collects their results in turn |
| Entitlements.VerifiedTransactionsMembers | StoreKit2Framework/StoreKit2Framework/StoreKit2Framework.swift:226-233 | a record is collected exactly when some verified entry translates to it, so unverified entries are dropped |
| Entitlements.AllKeptIffAllVerified | StoreKit2Framework/StoreKit2Framework/StoreKit2Framework.swift:226-233 | nothing is dropped exactly when every entry is verified |
| Entitlements.FirstEntitlement | StoreKit2Framework/StoreKit2Framework/StoreKit2Framework.swift:238-250 | a found entitlement is for the requested product |
| Entitlements.FirstEntitlementNone | StoreKit2Framework/StoreKit2Framework/StoreKit2Framework.swift:238-250 | nothing is found exactly when no verified entry has the product id; unverified entries with that id do not count |
| Entitlements.FirstEntitlementAt | StoreKit2Framework/StoreKit2Framework/StoreKit2Framework.swift:238-250 | the earliest verified entry with the product id is the one returned |
| Entitlements.FirstEntitlementAmongCollected | StoreKit2Framework/StoreKit2Framework/StoreKit2Framework.swift:223-250 | findCurrentEntitlement returns the first record for the product among those collectCurrentEntitlements would return |
| Outcomes.PurchaseOptions | StoreKit2Framework/StoreKit2Framework/StoreKit2Framework.swift:134-137 | the options are empty without a token and hold exactly the account token with one |
| Outcomes.FetchTrace | StoreKit2Framework/StoreKit2Framework/StoreKit2Framework.swift:104-122 | requestProducts asks StoreKit for the id set and calls the completion exactly once; on success the delegate gets the translated fetched list once and then (true, nil); on failure there is no delegate call and the completion gets (false, description) |
| Outcomes.VerifiedPurchaseEvents | StoreKit2Framework/StoreKit2Framework/StoreKit2Framework.swift:143-149 | a verified purchase makes one delegate call, one completion and one finish() |
| Outcomes.NotifiedFailureEvents | StoreKit2Framework/StoreKit2Framework/StoreKit2Framework.swift:150-174 | an unverified, cancelled or throwing purchase makes one delegate call and one completion, and no finish() |
| Outcomes.SilentFailureEvents | StoreKit2Framework/StoreKit2Framework/StoreKit2Framework.swift:161-168 | a pending or unknown purchase result makes one completion only |
| Outcomes.PurchaseEvents | StoreKit2Framework/StoreKit2Framework/StoreKit2Framework.swift:138-175 | every purchase outcome calls the completion exactly once and asks StoreKit for nothing more; the delegate is called once except for pending and unknown results; finish() happens exactly for a verified transaction |
| Outcomes.PurchaseEventsShape | StoreKit2Framework/StoreKit2Framework/StoreKit2Framework.swift:140-175 | success is reported exactly for a verified transaction, with a message exactly on failure; a delegate call comes first and names the requested product, and it is didFinish exactly when verified; on the verified path finish() comes last, after didFinish and the (true, nil) completion |
| Outcomes.PurchaseMessages | StoreKit2Framework/StoreKit2Framework/StoreKit2Framework.swift:150-168 | the delegate and completion texts for unverified, cancelled, thrown, pending and unknown results |
| Outcomes.PurchaseTrace | StoreKit2Framework/StoreKit2Framework/StoreKit2Framework.swift:126-138 | purchaseProduct calls the completion exactly once; an uncached id gets (false, "Product not found: " + id) with no purchase submitted, no delegate call and no finish(); a cached id submits the cached product with its options, then the outcome's events follow |
| Outcomes.RestoreTrace | StoreKit2Framework/StoreKit2Framework/StoreKit2Framework.swift:179-196 | restorePurchases syncs and calls the completion exactly once; after a successful sync didRestore fires exactly once with the verified entitlements (even none) before (true, nil); after a failed sync there is no delegate call and the completion gets (false, description) |
| Outcomes.UpdateEvents | StoreKit2Framework/StoreKit2Framework/StoreKit2Framework.swift:254-266 | each update makes one delegate call and no completion; a verified one is didFinish with the transaction's own product id, followed by finish(); an unverified one is didFail for "unknown" with no finish() |
| Outcomes.ListenerCounts | StoreKit2Framework/StoreKit2Framework/StoreKit2Framework.swift:254-267 | over any run of updates the listener calls the delegate once per update and never a completion or a StoreKit request |
| Outcomes.ListenerDeliversVerified | StoreKit2Framework/StoreKit2Framework/StoreKit2Framework.swift:254-266 | the listener's didFinish records are, in order, exactly the verified updates' records; the ids passed to finish() are, in order, exactly the verified updates' transaction ids, so each verified transaction is finished once and no unverified one is finished |
| Manager.FetchThenGet | StoreKit2Framework/StoreKit2Framework/StoreKit2Framework.swift:110-115 | after a successful fetch, getProduct returns for each fetched id the record the delegate received for it (the last one when an id repeats) |
| Manager.PaymentManager.constructor | StoreKit2Framework/StoreKit2Framework/StoreKit2Framework.swift:90-96 | a new manager has an empty cache and has emitted nothing |
| Manager.PaymentManager.RequestProducts | StoreKit2Framework/StoreKit2Framework/StoreKit2Framework.swift:104-122 | the loop stores each fetched product under its id (the cache becomes the merge); a failed fetch leaves the cache unchanged; emits the fetch trace; keeps every entry under its own id |
| Manager.PaymentManager.PurchaseProduct | StoreKit2Framework/StoreKit2Framework/StoreKit2Framework.swift:126-177 | leaves the cache unchanged and emits the purchase trace |
| Manager.PaymentManager.RestorePurchases | StoreKit2Framework/StoreKit2Framework/StoreKit2Framework.swift:179-196 | emits the restore trace, with the list built by CollectCurrentEntitlements |
| Manager.PaymentManager.GetProduct | StoreKit2Framework/StoreKit2Framework/StoreKit2Framework.swift:198-201 | returns a record exactly when the id is cached, the cached product's translation, which carries that id |
| Manager.PaymentManager.GetAllProducts | StoreKit2Framework/StoreKit2Framework/StoreKit2Framework.swift:203-205 | every cached product's record is listed, every listed record is the translation of the entry under its own id, and there are as many as cache entries |
| Manager.PaymentManager.CheckPurchaseStatus | StoreKit2Framework/StoreKit2Framework/StoreKit2Framework.swift:207-219 | the completion gets found == true together with the first verified entitlement for the product, or (false, nil) when there is none |
| Manager.PaymentManager.CollectCurrentEntitlements | StoreKit2Framework/StoreKit2Framework/StoreKit2Framework.swift:223-236 | the appending loop returns exactly the verified entries' records in stream order |
| Manager.PaymentManager.FindCurrentEntitlement | StoreKit2Framework/StoreKit2Framework/StoreKit2Framework.swift:238-250 | the loop with early return gives the first verified entry's record for the product, or nil |
| Manager.PaymentManager.HandleUpdate | StoreKit2Framework/StoreKit2Framework/StoreKit2Framework.swift:254-266 | one turn of the update loop emits exactly that update's events |
| Manager.PaymentManager.ListenForUpdates | StoreKit2Framework/StoreKit2Framework/StoreKit2Framework.swift:252-268 | running the loop over a finite run of updates emits the listener trace, one turn per update in order |

## Left out

- Concurrency: `Task { }`, `await MainActor.run` and the background priority are left out. Each operation is one sequential run, so interleavings between operations, and between an operation and the listener, are not modelled.
- Listener lifecycle: the listener is not started in the initialiser, cancelled in `deinit`, or run as an endless loop. The model has the per-update step and a loop over a finite run of updates. It does not state that a cancelled listener emits nothing.
- StoreKit itself: `Product.products(for:)`, `product.purchase(options:)`, `AppStore.sync()`, both transaction streams and signature verification are inputs. `transaction.finish()`, the lookup, the submission and the sync are recorded as events. Enumerating `currentEntitlements` is not recorded.
- Delegate: the weak reference, a missing delegate and unimplemented optional methods are not modelled. The model records every callback the code asks for, whether or not a delegate would receive it.
- Opaque values: `NSDecimalNumber` prices, `Date`s, the account `UUID`, verification errors and `localizedDescription` texts are values with no arithmetic or formatting.
- PaymentManager.GetAllProducts: returns a set, not an array. The array's order is the dictionary's, which Swift leaves unspecified. Its size is proved equal to the number of cache entries.
- The `shared` singleton and `@objc` dispatch are left out.
- MAUI.StoreKit2.IAPModule/ApiDefinitions.cs is not part of this model. It holds .NET binding declarations with no logic.
