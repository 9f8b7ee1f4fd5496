# Verified model of the game server's core protocols

This project models the hardest parts of the server in Dafny 4.11 and proves what they are for:

- **Payments.** Receipt uploads, provider notices, the timeout scan and order creation drive an order
  row through multi-step pipelines; a queue grants and revokes the rewards. `Protocol.dfy` is a
  transition system in which any number of requests act on stale copies of an order, any of them may
  stop after any step, queued tasks are delivered any number of times, and the provider answers
  anything. No lock is assumed. `ProtocolInvariants.dfy` and `ProtocolSteps.dfy` hold the inductive
  invariant, `ProtocolTheorems.dfy`, `ProtocolClosing.dfy` and `ProtocolPaid.dfy` the results over all runs, and
  `ProtocolWitnesses.dfy` the runs that show where a tempting property fails. `PaymentService.dfy` has
  the pipelines in the service's own imperative form, with interference between any two statements
  and a fault before or after any call; each is proved to be a stretch of a run of `Protocol`.
  `Orders.dfy`/`OrderStore.dfy` model the order table; `OrderStatements.dfy` proves that each of its
  statements does to the rows what the matching step of the protocol does. `Names.dfy` does the same
  for the queue's handlers.
- **Inventory.** `Items.dfy`, `ItemLaws.dfy`, `ItemStore.dfy`, `ItemProgress.dfy`: count stacking,
  time stacking, earliest-expiry-first revocation, and the item transactions with their nonces.
- **Versioned cache.** `VersionCache.dfy`: many nodes, writes, invalidations, lookups, single-flight
  loads, delayed local stores, evictions, Redis errors and expiries of the version key, step by step.
  `VersionCacheExact.dfy` says exactly which answers are sure to be fresh, and `VersionCacheOwn.dfy`
  exactly when a node reads its own writes.
- **Accounts.** `Accounts.dfy`, `AccountRuns.dfy`, `AccountTheorems.dfy`: register, bind, unbind and
  delete interleaved statement by statement under row locks and unique indexes; `AccountStore.dfy`
  has the same calls in imperative form, and `AccountCalls.dfy` ties each of them to its statements.
- **Player log, payload codec, offline replay, state machine.** `DiffLog.dfy`, `Payload.dfy` with its
  byte and letter layout in `PayloadFormat.dfy`, `Offline.dfy`, `Fsm.dfy`.

`dafny verify dfyconfig.toml` checks everything. Histories (ledger, status history, answers, created
accounts and so on) are extra fields of the model's states that nothing reads back; the theorems are
stated about them.

## Where the code is weaker than one might hope

- A refunded order need not be revoked: a request may queue the grant and stop before the order is
  marked Purchased, and a later pass cancels the Pending order without a revocation
  (`ProtocolWitnesses.RefundWithoutRevocation`). A refunded order is revoked if and only if it was
  Purchased at some time (`ProtocolTheorems.RefundRevokedIffPurchased`).
- Grant and revocation may use different lists when the product's rewards change in between
  (`ProtocolWitnesses.ConfigChangeSplitsRewards`); while the list stays the same they agree
  (`ProtocolTheorems.StableRewardsAgree`). Over all runs that read only two given lists for an order
  they agree if and only if the two are equal (`ProtocolWitnesses.RewardsAgreeIff`).
- Two overlapping creations leave two Pending orders (`ProtocolWitnesses.OverlappingCreationsDuplicate`).
  An insert keeps the table free of duplicates if and only if no Pending order with its key is there
  (`ProtocolClosing.InsertKeepsOnePendingIff`), which serialised creation guarantees
  (`ProtocolClosing.NoDuplicatePending`).
- Not every cached answer reflects what was invalidated before its lookup read the version. An answer
  that was loaded always does. A hit is sure to, unless its entry's tag is the same version number of
  an earlier era, the version key having expired in between. An answer that joined another lookup's
  flight, was rechecked by a leader or is a fallback is sure to, if and only if its entry's tag is not
  earlier than what the lookup read (`VersionCacheExact.GuaranteedIff`, with a run for every failing
  pair). Nothing is promised to a lookup that could not read the version at all.
- A node reads its own writes only if nothing older was on its way into its cache, or held by one of
  its lookups, when the invalidation dropped the entry; that condition is exact
  (`VersionCacheOwn.ReadsOwnWritesIff`).
- `Enqueue` treats only `ErrDuplicateTask` as success, while a task ID that is still queued can also
  be reported as a task ID conflict; the model lets such a request stop or go on.
- A key of 24 or 32 bytes makes a cipher but panics as the initial block; `Encrypt` and `Decrypt`
  have that outcome.
- `Update` of a state machine whose current state has no handler falls back to the default state and
  keeps the timers of the state it left.

## Model

| member | source | states |
|---|---|---|
| `ProtocolSteps.NextInv` | app/Api/payment/internal/service/pipeline.go:16-123 | every step of every request, delivery, crash and configuration change keeps the invariant (row consistency, grant and revocation queued or committed, ledger and nonces in agreement, what each in-flight request may rely on) and takes no recorded fact back |
| `ProtocolSteps.RunInv` | app/Api/payment/internal/service/pipeline.go:16-123 | the invariant holds in every state of every run, and states only grow along it |
| `ProtocolTheorems.InventoryIsReplay` | app/Api/items/internal/store/store.go:257-391 | however requests interleave and crash and however often tasks are redelivered, the inventory is the initial one with each ledger entry applied once, in order |
| `ProtocolTheorems.ExactlyOnce` | app/Api/payment/internal/service/task.go:22-63 | each order is granted at most once and revoked at most once, and its revocation commits only after its grant |
| `ProtocolTheorems.NoWorkLost` | app/Api/payment/internal/service/pipeline.go:16-115 | an order that was ever Purchased has its grant queued or committed; one refunded after that has its revocation queued or committed |
| `ProtocolTheorems.DrainedMeansDone` | app/Api/payment/internal/service/pipeline.go:16-115 | when the queue is empty, every order ever Purchased was granted and every one refunded after that was revoked |
| `ProtocolTheorems.ConsumedMeansGranted` | app/Api/payment/internal/service/pipeline.go:23-37 | a purchase is consumed at the provider only if an order bound to it has its grant queued or committed |
| `ProtocolTheorems.RefundRevokedIffPurchased` | app/Api/payment/internal/service/pipeline.go:41-65 | a refunded order has its revocation queued or committed if and only if it was Purchased at some time |
| `ProtocolTheorems.RewardsWereQuoted` | app/Api/payment/internal/service/pipeline.go:67-115 | every committed transaction used a list that was read from the configuration for that very order |
| `ProtocolTheorems.StableQuotes` | app/Api/payment/internal/service/pipeline.go:67-88 | while the product's rewards stay the same from the order's creation on, no other list is ever read for the order |
| `ProtocolTheorems.StableRewardsAgree` | app/Api/payment/internal/service/pipeline.go:67-115 | while the product's rewards stay the same from the order's creation on, committed grant and committed revocation of an order use exactly that list, across retries, stale copies and snapshot overwrites |
| `ProtocolTheorems.StatusHistory` | app/Api/payment/internal/store/store.go:146-261 | an order's status history is a subsequence of Pending, timeout-Cancelled, Purchased, refund-Cancelled; the cancel reason is non-empty exactly when the status is Cancelled |
| `ProtocolTheorems.StatusNeverGoesBack` | app/Api/payment/internal/store/store.go:146-261 | between any two moments of a run an order's phase moves up or stays, so refund-Cancelled is final |
| `ProtocolTheorems.AtMostThreeChanges` | app/Api/payment/internal/store/store.go:146-261 | no run changes the status of an order more than three times |
| `ProtocolTheorems.BindingsAreWriteOnce` | app/Api/payment/internal/store/store.go:70-118 | credential hash and provider order ID, once set, never change, and the fixed columns never do |
| `ProtocolTheorems.CredentialsConsistent` | app/Api/payment/internal/store/store.go:162-198 | the stored credential hashes to the stored hash even after the purchase rewrites it, and no two orders of a channel hold the same credential or the same provider order ID |
| `ProtocolPaid.NextBacked` | app/Api/payment/internal/service/order_process.go:23-106 | every step keeps: bindings, pipelines under way, queued tasks and status histories are backed by answers of the provider about that very order |
| `ProtocolPaid.NothingWithoutAnswer` | app/Api/payment/internal/service/order_process.go:23-106 | an order that was ever Purchased has a Purchased answer, and one cancelled for refund a Cancelled answer, that names this order, its user and product, the product ID it was created with and the credential it is bound to; a credential is bound only to the order its answer names |
| `ProtocolPaid.CommittedMeansSaid` | app/Api/payment/internal/service/pipeline.go:67-115 | every committed grant has such a Purchased answer and every committed revocation such a Cancelled one |
| `ProtocolClosing.TimeoutOnlyWhenUnpaid` | app/Api/payment/internal/service/order_cron.go:62-157 | the scan closes an order only if it is still Pending, at least 900 seconds old, and was seen without a credential earlier or is Pending at the provider for its own credential |
| `ProtocolClosing.NewRow` | app/Api/payment/internal/store/store.go:49-68 | a row appears only by an insert; it is stamped with the clock of that step, takes its columns from the request and has no credential, hash or provider order ID |
| `ProtocolClosing.CreatedThen` | app/Api/payment/internal/store/ent/schema/order.go:110-113 | an order carries the time of the step that created it for ever |
| `ProtocolClosing.TimeoutAfterFifteenMinutes` | app/Api/payment/internal/service/order_cron.go:41-42 | the scan closes no order within 900 seconds of the step that created it |
| `ProtocolClosing.SightingIsEarlier` | app/Api/payment/internal/service/order_cron.go:87-102 | every sighting was made in an earlier state in which the order was Pending, old enough and without a credential |
| `ProtocolClosing.NoDuplicatePending` | app/Api/payment/internal/service/service.go:87-123 | with order creation serialised, no run has two Pending orders for one user, channel and product |
| `ProtocolClosing.InsertKeepsOnePendingIff` | app/Api/payment/internal/store/store.go:49-68 | an insert leaves at most one Pending order per key if and only if none with its key exists |
| `ProtocolWitnesses.RefundWithoutRevocation` | app/Api/payment/internal/service/pipeline.go:16-49 | for every reward list there is a run that ends with the order refunded, its grant committed and no revocation queued or committed |
| `ProtocolWitnesses.ConfigChangeSplitsRewards` | app/Api/payment/internal/service/pipeline.go:67-115 | for any two lists there is a run whose committed grant uses the first and whose committed revocation uses the second |
| `ProtocolWitnesses.RewardsAgreeIff` | app/Api/payment/internal/service/pipeline.go:67-115 | committed grant and revocation agree in every run that reads only two given lists for the order, if and only if the two lists are equal |
| `ProtocolWitnesses.OverlappingCreationsDuplicate` | app/Api/payment/internal/service/service.go:87-123 | two overlapping creations reach a state with two Pending orders for one key |
| `ProtocolWitnesses.ScanCloses` | app/Api/payment/internal/service/order_cron.go:62-102 | a run in which the scan closes an order left unpaid for 900 seconds |
| `ProtocolWitnesses.QueuedTaskCanProceed` | app/Api/payment/types/task.go:31-53 | in every reachable state a queued grant is committed or can commit now, and a queued revocation can too, or its grant is still queued |
| `PaymentService.Request.StepGrantRewards` | app/Api/payment/internal/service/pipeline.go:67-100 | under interference and faults the steps form a stretch of a protocol run; success means the grant was enqueued and the request stands before the status update; when nothing fails or interferes it succeeds if and only if the product is configured |
| `PaymentService.Request.SubmitGrant` | app/Api/payment/internal/service/pipeline.go:82-99 | overwrites the snapshot and enqueues the same rewards, as a stretch of a protocol run; status and reason stay when nobody interferes |
| `PaymentService.Request.PurchaseOrder` | app/Api/payment/internal/service/pipeline.go:16-39 | success means the order's history holds Purchased and the purchase is consumed; every outcome is a stretch of a protocol run; when nothing fails or interferes it succeeds if and only if the product is configured and the row is Pending or timeout-Cancelled |
| `PaymentService.Request.StepComplete` | app/Api/payment/internal/service/pipeline.go:117-123 | success means the purchase is consumed and the order was Purchased |
| `PaymentService.Request.CancelOrder` | app/Api/payment/internal/service/pipeline.go:41-49 | success means the order's history holds a cancellation; when nothing fails or interferes a Pending row is cancelled, and any other is left alone and reported as failure |
| `PaymentService.Request.RevokeOrder` | app/Api/payment/internal/service/pipeline.go:51-65 | success means the revocation is queued or committed and the order's history holds a cancellation; when nothing fails or interferes it succeeds if and only if the row is Purchased, and leaves any other row alone |
| `PaymentService.Request.StepRevokeRewards` | app/Api/payment/internal/service/pipeline.go:102-115 | enqueues the revocation of the copy's rewards, as a stretch of a protocol run |
| `PaymentService.Request.MarkRefunded` | app/Api/payment/internal/service/pipeline.go:58-64 | the refund update with its possible failure before or after it took effect |
| `PaymentService.Request.ProcessOrder` | app/Api/payment/internal/service/order_process.go:23-106 | the table, entry by entry. When nothing fails or interferes: a Pending or timeout-Cancelled row with a Purchased answer and a configured product ends Purchased, its grant queued or committed and the purchase consumed; Purchased with Purchased is consumed again; Purchased with Cancelled ends refund-Cancelled with its revocation queued or committed; Pending with Cancelled ends refund-Cancelled. Always: the other known pairs report their result, and a refund-Cancelled order that was purchased and unknown statuses fail, without changing a row, the queue or the provider. What is reported is part of the order's history, and everything done is a stretch of a protocol run |
| `PaymentService.Request.FindOrBind` | app/Api/payment/internal/service/channel_google.go:192-205 | a returned order is the current row and carries the asked user, product, credential hash and provider order ID; a bindable row is bound and returned when nothing fails or interferes |
| `PaymentService.Request.UploadReceipt` | app/Api/payment/internal/service/service.go:125-175 | a receipt is accepted only for an order of that user, of the product the provider names, bound to that credential and provider order ID, whose history holds a purchase or a cancellation; when nothing fails or interferes it is accepted whenever the answer settles a bindable order, and a Purchased answer for an open or timed-out order leaves it Purchased, granted and consumed |
| `PaymentService.Request.ProcessNotice` | app/Api/payment/internal/service/rtdn_google.go:114-154 | a notice counts as handled only for an order bound to its token, of the user and product the provider names, whose history holds a purchase or a cancellation, and it is handled when the answer settles a bindable order and nothing fails or interferes |
| `PaymentService.Request.ProcessExpiredOrder` | app/Api/payment/internal/service/order_cron.go:62-157 | one order of the scan: whatever interferes, its steps are a stretch of a protocol run and a reported close is a row cancelled by timeout; when nothing fails or interferes, an old Pending order is closed if it has no credential, and if it has one for which the provider still says Pending |
| `PaymentService.Request.ProcessExpiredCredential` | app/Api/payment/internal/service/order_cron.go:111-157 | the part of it that asks the provider |
| `PaymentService.CheckExpiredPendingOrders` | app/Api/payment/internal/service/order_cron.go:23-60 | the batch is the first hundred old Pending orders by ID; whatever interferes, the loop is a stretch of a protocol run and everything reported closed was cancelled by timeout; when nothing fails or interferes and no order of the batch has a credential, exactly the batch is closed, in order |
| `PaymentService.ScanBatch` | app/Api/payment/internal/service/order_cron.go:48-58 | the loop itself, skipping orders whose lock is taken and ending early on a lost lease |
| `PaymentService.Request.MarkOrderTimeout` | app/Api/payment/internal/store/store.go:146-160 | a reported close is a row cancelled by timeout, and an old Pending row is closed when nothing fails or interferes |
| `PaymentService.Request.CreateOrder` | app/Api/payment/internal/service/service.go:36-83 | a returned order exists and is Pending for the asked user, channel and product; when nothing fails or interferes one is returned for every priced product on sale, and a new one carries the present time, the channel's product ID, the configured rewards and no credential |
| `PaymentService.Request.FindOrCreateOrder` | app/Api/payment/internal/service/service.go:87-123 | reuses a Pending order of the key or inserts one, as a stretch of a protocol run; when nothing fails or interferes it reuses the newest one and changes no row if there is any, and inserts one with exactly the asked columns otherwise |
| `OrderStore.Store.CreateOrder` | app/Api/payment/internal/store/store.go:49-68 | a new Pending row under a fresh ID with the present time, the asked user, product, channel, product ID and rewards and no credential, every other row unchanged |
| `OrderStore.Store.FindPendingOrder` | app/Api/payment/internal/store/store.go:33-47 | the newest Pending row for the key, and none only if there is none |
| `OrderStore.Store.FindExpiredPendingOrders` | app/Api/payment/internal/store/store.go:120-129 | the first rows by ascending ID that are Pending and old enough, up to the limit, none skipped |
| `OrderStore.Store.FindAndBindOrder` | app/Api/payment/internal/store/store.go:70-118 | binds only a row of the asked user, channel and product that is unbound or bound to the same credential, never breaks a unique index, and returns only a row that passes the same checks when read back |
| `OrderStore.Store.MarkOrderTimeout` | app/Api/payment/internal/store/store.go:146-160 | changes at most that row, only a Pending one that is old enough, and in it status, reason and cancel time only |
| `OrderStore.Store.MarkOrderPurchased` | app/Api/payment/internal/store/store.go:162-198 | changes exactly a Pending or timeout-Cancelled row: paid amount, sandbox flag, pay time and credential come from the answer where it has them, the cancellation is cleared, nothing else changes |
| `OrderStore.Store.MarkOrderRefunded` | app/Api/payment/internal/store/store.go:200-228 | changes exactly a Purchased row: refund and cancel time are the answer's or the present, the note is the answer's or a default, nothing else changes |
| `OrderStore.Store.MarkOrderCancelled` | app/Api/payment/internal/store/store.go:230-261 | changes exactly a Pending row: refund time and note only where the answer has them, nothing else changes |
| `OrderStatements.InsertStatement` | app/Api/payment/internal/store/store.go:49-68 | creating an order does to the rows what the protocol's insert step does, and yields a fresh Pending row of the key |
| `OrderStatements.LookStatement` | app/Api/payment/internal/store/store.go:33-47 | the query finds the newest Pending row of the key exactly when the protocol's lookup step ends the creation, and finds none exactly when it goes on to its insert |
| `OrderStatements.BindStatement` | app/Api/payment/internal/store/store.go:70-118 | the conditional update does to the rows what the protocol's bind step does, and the order returned is the one its read-back step accepts |
| `OrderStatements.ScanStatement` | app/Api/payment/internal/store/store.go:131-144 | the re-read finds nothing only where the protocol's scan step ends; a row without a credential sends it to the close, one with a credential to the provider |
| `OrderStatements.TimeoutStatement` | app/Api/payment/internal/store/store.go:146-160 | the guarded update does to the rows what the protocol's closing step does |
| `OrderStatements.PurchasedStatement` | app/Api/payment/internal/store/store.go:162-198 | the guarded update does to the rows what the protocol's purchase step does; an affected row sends the request on to completion, none ends it |
| `OrderStatements.RefundedStatement` | app/Api/payment/internal/store/store.go:200-228 | the guarded update does to the rows what the protocol's refund step does and reports exactly whether a row changed |
| `OrderStatements.CancelledStatement` | app/Api/payment/internal/store/store.go:230-261 | the guarded update does to the rows what the protocol's cancel step does and reports exactly whether a row changed |
| `OrderStatements.RewardsStatement` | app/Api/payment/internal/store/store.go:273-279 | the overwrite does to the rows what the protocol's snapshot step does and sends the request on to its grant |
| `Names.TaskIdsDistinct` | app/Api/payment/types/task.go:31-53 | task IDs of distinct orders, and the two of one order, never collide |
| `Names.NonceTextsDistinct` | app/Api/payment/internal/service/task.go:31-54 | nonce texts of distinct orders, and the two of one order, never collide |
| `Names.NamesLookLike` | app/Api/payment/internal/service/task.go:31-54 | the texts of task IDs and nonces |
| `Names.NonceLookup` | app/Api/items/internal/store/ent/schema/item_nonce.go:43-47 | looking a nonce up by its indexed columns finds exactly that nonce |
| `TaskHandlers.ProcessGrantTask` | app/Api/payment/internal/service/task.go:44-63 | success if and only if the nonce is there already or this delivery commits the grant; otherwise nothing changed |
| `TaskHandlers.ProcessRevokeTask` | app/Api/payment/internal/service/task.go:22-42 | success only after the grant is committed, and then by this delivery or an earlier one; otherwise nothing changed |
| `ItemStore.Store.AddUnlimited` | app/Api/items/internal/store/store.go:208-255 | count stacking: one row of the same expiry grows or one row is added |
| `ItemStore.Store.AddTimeStack` | app/Api/items/internal/store/store.go:112-206 | time stacking: all dated unexpired rows of the type collapse into the first to expire, which carries the summed time |
| `ItemStore.Store.SumDurations` | app/Api/items/internal/store/store.go:154-167 | the loop adds up (expiry - now) * available over exactly the dated unexpired rows |
| `ItemStore.Store.RevokeItem` | app/Api/items/internal/store/store.go:393-427 | debits exactly min(count, available), earliest expiry first and permanent rows last, at most one touched row partly used, no row above its count |
| `ItemStore.Store.AddItems` | app/Api/items/internal/store/store.go:257-325 | commits the whole list with its nonce, each reward at its own clock reading, exactly when the nonce is new and every reward is there, of a configured type and a known stack mode; finds the nonce or rolls back otherwise, changing nothing |
| `ItemStore.Store.RevokeItems` | app/Api/items/internal/store/store.go:327-391 | revokes the whole list with its nonce only when the grant nonce is there and the revocation nonce is not |
| `ItemLaws.GrantsAdd` | app/Api/items/internal/store/store.go:208-325 | a committed list of unexpired count-stacked rewards raises the available quantity of each item type by exactly what the list promises |
| `ItemLaws.GrantsAddAt` | app/Api/items/internal/store/store.go:288-317 | at every clock reading, a committed list of count-stacked rewards adds exactly the units of the rewards alive then: until their fixed end, else until their duration after the grant, else for ever |
| `ItemLaws.RevokesTake` | app/Api/items/internal/store/store.go:327-427 | a committed revocation lowers each available quantity by exactly min(promised, available) |
| `ItemLaws.RevokedRowByRow` | app/Api/items/internal/store/store.go:393-427 | a revocation touches only live rows of the user and type, and of them only the used count, takes the asked units or empties every live row, and touches a row only when every live row that ends before it is empty, rows without an end last |
| `ItemLaws.GrantThenRevokeRestores` | app/Api/items/internal/store/store.go:208-427 | granting and revoking one list of unexpired count-stacked rewards at one clock reading restores the available quantity of every item type of every user |
| `ItemLaws.TimeStackingConserves` | app/Api/items/internal/store/store.go:112-206 | after a timed grant the type has exactly one dated unexpired row, whose remaining time is the old sum of (expiry - now) * available plus unit duration * count |
| `ItemLaws.TimedGrantEnds` | app/Api/items/internal/store/store.go:112-206 | a time-stacked reward leaves one dated row of one unit that ends one unit duration after the reading for every unit, plus the time left on the dated row before; the unit ends at the reward's fixed end, else its duration after the grant |
| `ItemLaws.TimeStackingFrame` | app/Api/items/internal/store/store.go:112-206 | a timed grant leaves rows of other users and types, and permanent and expired rows, as they were |
| `ItemLaws.GrantsValid` | app/Api/items/internal/store/store.go:257-325 | no grant leaves a row whose used count exceeds its count |
| `ItemLaws.RevokesValid` | app/Api/items/internal/store/store.go:393-427 | no revocation leaves a row whose used count exceeds its count |
| `ItemProgress.GrantsPossible` | app/Api/items/internal/store/store.go:257-325 | every list of configured rewards can be granted from every valid inventory |
| `ItemProgress.RevokedPossible` | app/Api/items/internal/store/store.go:393-427 | every revocation has an outcome, built row by row in expiry order |
| `ItemProgress.RevokesPossible` | app/Api/items/internal/store/store.go:327-391 | every list without nil entries can be revoked from every valid inventory |
| `VersionCache.NextInv` | pkg/cachex/version_cache.go:93-175 | every step, expiry of the key included, keeps: an entry, pending store, lookup or answer reflects every write whose invalidation raised the counter to its tag or less |
| `VersionCache.RaisedBefore` | pkg/cachex/version_cache.go:149-164 | the order of counter values, eras first, is the order of time: a raise is at most the counter of a state exactly when it had happened by then |
| `VersionCache.EntriesKeepTheirTag` | pkg/cachex/version_cache.go:133-142 | in every run, on every node, a local entry is a value the row had and reflects every write invalidated at its tag or less |
| `VersionCache.FreshAnswers` | pkg/cachex/version_cache.go:93-147 | a lookup that loads reflects every write invalidated before it read the version; one whose version matched does too if the key has not expired since the entry's tag was read |
| `VersionCache.AnswersKeepTheirTag` | pkg/cachex/version_cache.go:99-126 | every answer, degraded and joined ones too, reflects every write invalidated at its entry's tag or less |
| `VersionCache.LookupDecides` | pkg/cachex/version_cache.go:96-109 | with an entry at hand a lookup answers at once exactly when Redis failed or the versions are equal |
| `VersionCache.LoadTags` | pkg/cachex/version_cache.go:123-142 | a load yields the newest committed value, tagged with the version read before it or 0 |
| `VersionCacheExact.GuaranteedIff` | pkg/cachex/version_cache.go:93-147 | for every source, tag and counter value: all such answers of all runs reflect every write invalidated before the lookup read the counter, if and only if the source is a load, or the tag is not earlier than the counter read, or it is a hit with another version number |
| `VersionCacheExact.StaleHit` | pkg/cachex/version_cache.go:105-109 | for any two eras and any version, a run in which a lookup that starts after an invalidation, with nothing under way, hits an entry of the earlier era and misses the write |
| `VersionCacheExact.StaleFollower` | pkg/cachex/version_cache.go:111-142 | for any tag earlier than the counter, a run in which a joined lookup gets an entry with that tag and misses a write invalidated before it read the counter, with no expiry beyond those between the two values |
| `VersionCacheExact.StaleRecheck` | pkg/cachex/version_cache.go:113-121 | the same for the leader's second look |
| `VersionCacheExact.StaleFallback` | pkg/cachex/version_cache.go:123-128 | the same for the entry a failed load falls back to |
| `VersionCacheOwn.ReadsOwnWritesIff` | pkg/cachex/version_cache.go:149-164 | once a node has taken the first step of an invalidation, whether or not the Redis call works, its entry and all its answers reflect the write in every continuation, if and only if nothing older was on its way into its cache or held by one of its lookups |
| `VersionCacheOwn.ReadsOwnWrites` | pkg/cachex/version_cache.go:149-151 | the same along every run from the start |
| `AccountRuns.NextInv` | app/Api/login/internal/store/store.go:42-318 | every statement, commit, rollback and lost confirmation of every call keeps the tables in order and what open transactions rely on |
| `AccountTheorems.TablesStayInOrder` | app/Api/login/internal/store/store.go:103-318 | in every run each active account has an identity and each deleted one none, an identity belongs to one account, and an account has one identity per login type and application |
| `AccountTheorems.RegistrationRace` | app/Api/login/internal/store/store.go:42-86 | racing registrations of an identity nobody takes away all return one active account that owns it, the call that reports a registration is the one that created it, and none fails except for an unavailable database |
| `AccountTheorems.RegisteredOnce` | app/Api/login/internal/store/store.go:42-86 | if the identity was also new and unbound, exactly one account is committed for it and exactly its creating call reports that, unless the confirmation of the commit was lost |
| `AccountTheorems.AccountNeverMissing` | app/Api/login/internal/store/store.go:271-283 | an identity found always belongs to an existing account |
| `AccountTheorems.BindClashIsElsewhere` | app/Api/login/internal/store/store.go:156-162 | an insert refused by a unique index is one whose identity another account holds |
| `AccountTheorems.UnbindLeavesOne` | app/Api/login/internal/store/store.go:201-216 | an unbind about to delete leaves its account another identity, however long ago it counted |
| `AccountStore.Store.FindLoginRecord` | app/Api/login/internal/store/store.go:88-101 | the one account that owns the identity, and none only if nobody does |
| `AccountStore.Store.FindOrCreateAccount` | app/Api/login/internal/store/store.go:42-86 | with others committing between any two statements: success means an active account, a reported registration is a new account that holds the identity, and it succeeds whenever nobody takes the identity away, overtaken or not; left alone it registers an unknown identity and only that, and answers with the owner of a known one |
| `AccountStore.Store.LoginAfterConflict` | app/Api/login/internal/store/store.go:70-86 | after a unique index refused the registration, the winner's account is returned unless the identity was taken away meanwhile |
| `AccountStore.Store.BindIdentity` | app/Api/login/internal/store/store.go:103-172 | each error exactly under its condition; success adds exactly the identity, or nothing when it was bound already |
| `AccountStore.Store.UnbindIdentity` | app/Api/login/internal/store/store.go:174-221 | each error exactly under its condition, the last identity is refused; success removes exactly the identity |
| `AccountStore.Store.DeleteAccount` | app/Api/login/internal/store/store.go:223-254 | marks the account and removes exactly its identities, or reports that it is not active |
| `AccountStore.Store.CreateAccount` | app/Api/login/internal/store/store.go:285-318 | a fresh account with its one identity, or nothing but a consumed number |
| `AccountStore.Store.CheckAccount` | app/Api/login/internal/store/store.go:271-283 | no error if and only if the account is active; missing and deleted are told apart |
| `AccountCalls.BindCall` | app/Api/login/internal/store/store.go:103-172 | run alone, the method and the call's statements in the interleaved model lead to the same tables, counters and answer |
| `AccountCalls.UnbindCall` | app/Api/login/internal/store/store.go:174-221 | the same for unbind |
| `AccountCalls.DeleteCall` | app/Api/login/internal/store/store.go:223-254 | the same for delete |
| `AccountCalls.LoginCall` | app/Api/login/internal/store/store.go:42-101 | the same for find-or-create |
| `PlayerDiff.PlayerState.SetUid` | pb/player/actor/actor_diff.pb.go:52-60 | sets the field, marks it dirty if and only if it changed, and notifies the parent on the first change only |
| `PlayerDiff.PlayerState.SetLastOfflineTime` | pb/player/actor/actor_diff.pb.go:66-74 | the same for the other field |
| `PlayerDiff.PlayerState.WriteDiff` | pb/player/actor/actor_diff.pb.go:76-83 | writes exactly the dirty fields with their current values |
| `PlayerDiff.PlayerState.ClearDirty` | pb/player/actor/actor_diff.pb.go:123-125 | no field is dirty |
| `PlayerDiff.ApplyPlayerDiff` | pb/player/actor/actor_diff.pb.go:93-121 | succeeds if and only if the diff is readable and no known field has a wrong operation; a failure keeps exactly the fields before it |
| `PlayerDiff.DiffBringsUpToDate` | pb/player/actor/actor_diff.pb.go:76-121 | a diff written from the dirty bits brings an older value up to date if and only if the bits cover what differs |
| `PlayerDiff.WireFormat` | pb/player/actor/actor_diff.pb.go:76-121 | field 1 is the uid and field 2 the time of the last leave, set as varints, in that order; their dirty bits are 1 and 2 |
| `PlayerDiff.UnknownFields` | pb/player/actor/actor_diff.pb.go:98-120 | other fields are skipped; a known field with another operation is refused |
| `DiffLog.Manager.Load` | internal/diff_manager/diff.go:22-60 | yields the head's snapshot with all later deltas applied in order and the last version, or an error |
| `DiffLog.LoadIs` | internal/diff_manager/diff.go:22-60 | loading succeeds exactly when the head has no malformed snapshot and every later message can be read and applied; it yields the head's snapshot, or an empty player, with all later field operations applied in order, at the version of the last delta or of the head; deltas in the head are ignored |
| `DiffLog.Manager.Save` | internal/diff_manager/diff.go:62-80 | appends the diff to a list that is not empty and below the limit, and replaces any other list by one full snapshot |
| `DiffLog.LoadRebuildsLastSave` | internal/diff_manager/diff.go:22-80 | after any run of setters, restarts and saves that work, fail or lose their answer, loading into any message rebuilds the last save that took effect and its version, the head is a full snapshot and the list is no longer than max(1, compactCount) |
| `DiffLog.LengthCycles` | internal/diff_manager/diff.go:62-80 | after n saves that took effect the list has (n - 1) mod max(1, compactCount) + 1 elements, so a snapshot is written exactly every so many saves |
| `DiffLog.SavedIsLoaded` | internal/diff_manager/diff.go:62-80 | right after a successful save, loading yields the current state and the saved version |
| `DiffLog.Handle` | internal/diff_manager/diff.go:62-80 | setting, saving and loading with the state object and the storage is the step of the session that the run theorems speak of |
| `Bytes.UnpadExactly` | pkg/googleplay/iap/payload.go:57-80 | unpadding accepts exactly what padding produces and gives back what was padded (section 6.3 of RFC 5652) |
| `Bytes.Base64RoundTrip` | pkg/googleplay/iap/payload.go:60-64 | decoding undoes encoding on every byte string (section 4 of RFC 4648) |
| `Payload.UnchainOfChain` | pkg/googleplay/iap/payload.go:59-74 | block-chained decryption undoes encryption on every whole number of blocks (section 6.2 of NIST SP 800-38A) |
| `Payload.ChainOfUnchain` | pkg/googleplay/iap/payload.go:59-74 | and the other way round |
| `Payload.DecryptUndoesEncrypt` | pkg/googleplay/iap/payload.go:52-81 | decrypting an encrypted byte string yields it, for every byte string |
| `Payload.DecryptExactly` | pkg/googleplay/iap/payload.go:63-81 | decryption yields a byte string for exactly the texts that stand for the bytes encryption produces from it |
| `Payload.EncryptInjective` | pkg/googleplay/iap/payload.go:52-61 | different byte strings have different encryptions |
| `Payload.ProfileRoundTrip` | pkg/googleplay/iap/payload.go:31-50 | every profile, negative product IDs included, survives the round trip, and nothing else decrypts to it |
| `PayloadFormat.ProfileLayout` | pkg/googleplay/iap/payload.go:31-36 | byte by byte: eight bytes of order ID, then four of product ID in two's complement, most significant first |
| `PayloadFormat.ProfileRead` | pkg/googleplay/iap/payload.go:38-50 | a decrypted profile is read from the same places |
| `PayloadFormat.PadIs` | pkg/googleplay/iap/payload.go:57-58 | the data, then 1 to 16 bytes up to a multiple of 16, each equal to their number |
| `PayloadFormat.ChainBlock` | pkg/googleplay/iap/payload.go:59-59 | decrypting a block yields the plain block combined with the block before it, the first with the initial block |
| `PayloadFormat.XorBytesAt` | pkg/googleplay/iap/payload.go:59-59 | the combination is bit by bit the sum without carry |
| `PayloadFormat.LetterAt` | pkg/googleplay/iap/payload.go:60-60 | letter by letter: which of the 64 characters stands for which six bits, where the pad letters stand, and how long the text is |
| `PayloadFormat.BreaksIgnored` | pkg/googleplay/iap/payload.go:64-64 | a line break anywhere in a text changes nothing |
| `PayloadFormat.EncryptedIs` | pkg/googleplay/iap/payload.go:52-61 | an encrypted text is the Base64 of the chained blocks of the padded data with the key as initial block |
| `PayloadFormat.DecryptRefuses` | pkg/googleplay/iap/payload.go:63-80 | which texts and keys are refused, with which error, and when it panics |
| `PayloadFormat.ShowDigits` | pkg/googleplay/iap/payload.go:19-21 | the decimal text of a number, digit by digit, without leading zeros |
| `PayloadFormat.UidText` | pkg/googleplay/iap/payload.go:19-21 | the account text is the encryption of the user's number in decimal |
| `Payload.UidsStayApart` | pkg/googleplay/iap/payload.go:19-21 | two users never share an encrypted ID |
| `Payload.ExtraComesBack` | app/Api/payment/internal/service/channel_google.go:70-87 | what a created order hands to the client leads the provider's answer back to exactly that order and product, and tells users apart |
| `Offline.MinNextUpdate` | internal/util/leave_cal.go:23-37 | the first of the shortest wanted updates, stretched to the tick; none wanted yields no update; never shorter than the tick |
| `Offline.RunOffline` | internal/util/leave_cal.go:39-64 | the callback gets exactly the trail's durations after an initial 0, the update count is their number, each source's count is its number of ended updates, and it panics exactly when the trail gets stuck; no time means no call |
| `Offline.DeltasSumToTotal` | internal/util/leave_cal.go:47-62 | every step is positive and the steps add up to the whole time unless the run panics before |
| `Offline.StepsAreAnswers` | internal/util/leave_cal.go:47-62 | each step is what the callback asked for, or the rest of the time if it asked for more or for nothing |
| `Offline.PanicsExactlyOnZero` | internal/util/leave_cal.go:52-54 | a run panics exactly when the callback asks for a zero step while time remains |
| `Offline.SourcesAddUp` | internal/util/leave_cal.go:56-59 | the source counts add up to the update count, or to one less when the last answer does not fit the time left |
| `Offline.TallyIs` | internal/util/leave_cal.go:56-58 | each counted step counts for the source whose answer it was, in order |
| `Offline.PacedRuns` | internal/util/leave_cal.go:23-64 | with a callback paced by a positive tick a run never panics and takes at most ceil(total / tick) steps |
| `Fsm.Machine.Register` | internal/fsm/fsm.go:69-77 | the cached handler stays the one registered for the current state |
| `Fsm.Machine.Recover` | internal/fsm/fsm.go:49-67 | the registry is rebuilt, state and timers survive, the cached handler is the newly registered one |
| `Fsm.Machine.SwitchState` | internal/fsm/fsm.go:83-113 | a switch happens exactly when both states have a handler, makes its callbacks in order, and restarts the timers with the new state's duration; otherwise nothing changes |
| `Fsm.SwitchOrder` | internal/fsm/fsm.go:95-112 | leave announced, enter announced, left, entered, with the hooks around it all |
| `Fsm.Machine.Update` | internal/fsm/fsm.go:115-134 | a timeout is requested exactly when the state has a duration and the scaled time since it was entered exceeds it; a refused request leaves state and timers |
| `Fsm.Machine.TriggerEvent` | internal/fsm/fsm.go:136-143 | the event reaches exactly the handler registered for the current state |

## Left out

- The pipelines of `Protocol` are step functions rather than methods, because a method body cannot be interrupted; `PaymentService` has them as methods with interference passed in.
- User locks and the scan lock: nothing rests on them. `LockUser` reads the request's uid before the handler that sets it (pkg/middleware/limit/limiter.go:63, pkg/middleware/inout/std.go:51).
- Integers are unbounded: int64 overflow of counts, timestamps and durations is not modelled.
- Columns that nothing decides on: retry_times, update_at, amounts and currencies of new orders; that a product has no price is modelled.
- PaymentService.CheckExpiredPendingOrders: the locks and the lease are inputs that decide whether an order is skipped and when the loop ends; the retry counter is left out.
- PaymentService.Request.CreateOrder: returns the order; the client parameters built from it are in `Payload.ExtraComesBack`.
- Error codes and messages of the service's answers: a request reports a result or a failure.
- Channels other than Google, and the provider's HTTP and Pub/Sub calls with their acknowledgement loop: the provider's answer is arbitrary.
- SHA-256 is taken as injective.
- The queue, Redis, MySQL and the `nova` library are not part of this model beyond the contracts above: a task accepted by the queue leaves it only after a successful delivery, an item transaction is atomic, and a diff's fields decode to what was encoded.
- `AddItem`, the single-item entry point of the item store: it wraps the same two stacking routines.
- Payload.Encrypt: on byte strings, not on the caller's buffer, so sharing of spare capacity with the caller's slice is not captured; AES is any keyed permutation of blocks.
- `DecryptUid`: its number conversion lives in a library that is not part of this model.
- Fsm.Machine.Update: the scaled time step is given, so floating-point rounding of the speed factor is not captured; callbacks do not call back into the machine.
- Offline.RunOffline: the callback is a function of the durations it has been called with, which covers every deterministic callback.
- Login tokens, signatures, middleware, routing, configuration files, deployment and logging: plumbing without a hard property.
