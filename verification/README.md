# A verified model of the marketplace backend

This project models the commerce database of a multi-vendor marketplace and the services that write to it, and proves
what every run of those services keeps. The services are a NestJS application over PostgreSQL; here their tables are
Dafny values and their methods are Dafny methods on mutable tables.

## How to read the model

**State.** `Store.Tables` holds vendors, products, variants, inventories, stock movements, carts, master orders, vendor
orders and order items. `Payments.Ledger` holds payments, attempts and refunds with the payment side of each order,
`Webhooks.Billing` adds webhook events, `Auth.Sessions` holds users and refresh tokens, `Categories` the category
table. Tables are sequences and a row's id is its index, so ids are fresh and rows are never renumbered. Inventories
are keyed by variant id, cart items carry an explicit id because they can be deleted, webhook events are keyed by their
unique (provider, eventId). `Marketplace` runs the shop and the payments together.

**Operations.** Every service call appears twice: as a specification function (`...Spec`, `Deliver`, `Resolve`) and as
a method that writes to a `Store.Database`, `Webhooks.BillingDatabase`, `Auth.SessionStore` or
`Categories.CategoryStore` and whose postcondition equates the new tables and the answer with that function. The
methods follow the statements of the source, loops included, and roll back where the source throws inside a
transaction. The properties are then proved about the functions: for each of them when it accepts and exactly which
rows it changes (`OrderEffects`, `PaymentEffects`, and the last section of the other services' files), and what runs of
them keep.

**Granularity of steps.** A transaction is atomic. What a call reads before its transaction may be stale by the time
the transaction runs. The shop (`ShopRuns`), refunds (`PaymentRuns`) and logins (`Auth`) are proved that way: a write
step carries its earlier reads as parameters, with no assumption about their age. Some guards of the source are outside
the write they protect: payment outcomes, one payment per order, one currency per cart, the single default variant,
category acyclicity. Those properties hold along every run of atomic calls (`PaymentRuns`, `ServiceCalls`,
`Categories`). For each of them the project also proves what a stale check does: exactly when the write still keeps the
property (`StaleOutcomeIff`, `OnePaymentNeedsFreshCheck`, `CurrencyNeedsFreshCheck`, `SingleDefaultNeedsFreshCount`,
`MoveKeepsForestIff`), and for payments over whole runs (`StalePayments`). `OverlappingUpdates` takes the one
transaction apart whose statements matter, the status update with its recomputation.

**Values.** Money is an integer number of minor units, of either sign, because request validation does not force a
price to be non-negative. Time is a parameter. Signing is a flag that says whether it works. A raw refresh token is
identified with its row: generated values are fresh and the keyed hash is injective. Provider references come from a
counter. Order number collisions are a parameter that says where, if anywhere, a generated number is taken. Validated
request fields (quantity at least 1, restock at least 1) are preconditions of the writes.

## Where the code differs from its documentation, or from what a reader may expect

- `README.md:84` lists release among the stock movements. No code releases stock: cancelling a vendor order leaves its
  reservation, and the reconciliation counts order items of every status.
- Refund creation compares with settled refunds only, so a payment can be refunded twice (`FullRefundTwice`);
  `RefundsStayCoveredIff` gives the exact condition.
- A retry sets the payment to PENDING and leaves the order's payment status at FAILED. The ledger invariant says so.
- A webhook event row is inserted before its event is processed and in a separate write. If processing breaks off in
  between, no redelivery of that event is ever processed (`UnprocessedEventIsLost`); the same outcome under another
  event id still is (`FreshEventIdRecovers`).
- Two status updates that interleave inside their transactions can leave a master order stale, for good if they were
  the last ones, and can move it down. `OverlappingUpdates` gives the exact conditions. It assumes READ COMMITTED, the
  database default: the source sets no isolation level.
- No code writes a deletion mark or changes a user's status. Categories carry a deletion flag because their guards read
  it; user status changes are an administrator's step in `Auth`.

## Files

| file | models |
|---|---|
| `Common.dfy` | options, results, searches and sums over tables |
| `Store.dfy` | the shop tables and the database object |
| `MasterOrderStatus.dfy` | derivation of a master order's status |
| `VendorOrders.dfy` | vendor order transitions and the recomputation |
| `Vendors.dfy`, `Inventory.dfy`, `Cart.dfy` | the services that checkout depends on |
| `Checkout.dfy`, `CheckoutInvariants.dfy` | checkout, and what its transaction keeps |
| `ShopRuns.dfy` | every interleaving of the shop's reads and writes |
| `OrderEffects.dfy`, `PaymentEffects.dfy` | when each call is accepted, and row by row what it leaves |
| `ServiceCalls.dfy` | the service calls as runs, and what holds when each call is undisturbed |
| `OverlappingUpdates.dfy` | two status updates interleaved statement by statement |
| `Payments.dfy`, `Webhooks.dfy`, `PaymentRuns.dfy` | payments, attempts, refunds, webhook deliveries, and their runs |
| `StalePayments.dfy` | payment runs in which every check may be stale |
| `Marketplace.dfy` | shop and payments together |
| `Auth.dfy`, `Authorization.dfy` | refresh token families; permissions |
| `Categories.dfy`, `Products.dfy` | category forest; public product pages |

## Model

| member | source | states |
|---|---|---|
| `Webhooks.OrderDoesNotMatter` | src/payments/webhooks.service.ts:79-313 | From any consistent database, two orders of the same deliveries (pairwise different event keys, no two about the same attempt or the same refund) leave identical attempts, payments, refunds, order payment statuses and event rows |
| `Webhooks.DeliveriesCommute` | src/payments/webhooks.service.ts:79-313 | Two deliveries of different events about different subjects can be swapped; includes two settlements of one payment and an outcome next to a settlement, which never concern the same payment |
| `Webhooks.SettlementsCommute` | src/payments/webhooks.service.ts:259-306 | Two pending refunds of the same payment reach the same accumulated total and the same PARTIALLY_REFUNDED or REFUNDED status in either order |
| `Webhooks.OutcomeAndSettlementApart` | src/payments/webhooks.service.ts:157-209 | An attempt still open and a refund never belong to the same payment or order |
| `PaymentRuns.FirstOutcomeWins` | src/payments/webhooks.service.ts:84-105 | Any list of deliveries, with replays, repeats under new event ids and contradictory outcomes, leaves the ledger that the first recognised non-replayed delivery about each attempt or refund leaves alone |
| `PaymentRuns.ResolveSettles` | src/payments/webhooks.service.ts:157-169 | A delivery resolves the attempt or refund it names, and never re-opens a resolved one |
| `PaymentRuns.UnprocessedEventIsLost` | src/payments/webhooks.service.ts:84-101 | After an event row is inserted and its processing breaks off, every redelivery of that event after any run is answered as a duplicate without effect, and the row stays RECEIVED for good |
| `PaymentRuns.DeliveryTakesEffectIff` | src/payments/webhooks.service.ts:84-128 | A delivery is processed exactly when its event is not stored, and moves money exactly when it also names an open attempt or a pending refund |
| `PaymentRuns.FreshEventIdRecovers` | src/payments/webhooks.service.ts:84-128 | After any run without the lost event, its outcome under an event id not seen before has exactly the effect the original would have had if it had never been stored |
| `PaymentEffects.PaymentSucceededEffect` | src/payments/webhooks.service.ts:171-206 | A fresh success for an open attempt: that attempt SUCCEEDED, its payment PAID in full with that reference, its order PAID, the event PROCESSED, and not one other row changed |
| `PaymentEffects.PaymentFailureEffect` | src/payments/webhooks.service.ts:171-206 | A fresh failure for an open attempt: attempt, payment and order FAILED, what was paid untouched, and not one other row changed |
| `PaymentEffects.RefundSuccessEffect` | src/payments/webhooks.service.ts:259-306 | A fresh success for a pending refund: exactly its amount moves from pending to refunded, payment and order get REFUNDED or PARTIALLY_REFUNDED by the new total, and not one other row changed |
| `PaymentEffects.RefundFailureEffect` | src/payments/webhooks.service.ts:264-306 | A fresh failure for a pending refund: that row FAILED, every payment and order as before, and refunded plus pending money smaller by exactly its amount |
| `PaymentEffects.DeliveryAnswers` | src/payments/webhooks.service.ts:79-349 | The answer and the event row of every delivery: stored events leave nothing, unrecognised ones IGNORED, unknown references FAILED, resolved rows IGNORED and open rows PROCESSED; only the last kind moves money |
| `PaymentRuns.RunKeepsInv` | src/payments/webhooks.service.ts:79-313 | Along every run of payment creation, retry, refund requests (with check and insert apart), deliveries, event rows that are never processed and settlements from stale reads, the whole ledger invariant holds; amounts, resolved rows, successful payments and refunded money are never taken back |
| `StalePayments.ConsistentThroughoutIff` | src/payments/webhooks.service.ts:157-206 | With payment creation and payment outcomes running any time after their checks too, the ledger is consistent all along a run if and only if each such transaction is harmless when it runs: no payment of that order yet, or a harmless outcome |
| `PaymentRuns.PaymentStatusIsAFunctionOfTheLedger` | src/payments/webhooks.service.ts:171-206 | In every reachable state the newest attempt carries the number of attempts, every other one is FAILED, and status, paid amount, refunded amount and the order summary are determined by the newest attempt and the sum of settled refunds; the summary differs only after a retry, where it stays FAILED |
| `PaymentRuns.LedgerDeterminesPayment` | src/payments/webhooks.service.ts:276-298 | The same, of any single consistent ledger |
| `PaymentRuns.RefundedIsFinal` | src/payments/webhooks.service.ts:280-289 | A REFUNDED payment is REFUNDED after every further run |
| `PaymentRuns.RefundsStayCoveredIff` | src/payments/payments.service.ts:254-264 | However the open refunds settle, the refunded amount stays within the paid amount, if and only if refunded plus pending refunds fit within it now; the check of refund creation does not look at pending refunds |
| `PaymentRuns.NewRefundCoveredIff` | src/payments/payments.service.ts:260-264 | A new refund keeps its payment covered exactly when it fits beside the pending ones |
| `PaymentRuns.FullRefundTwice` | src/payments/payments.service.ts:241-286 | For every PAID payment of a positive amount, two full refunds are both accepted and both settle, so that twice the paid amount is refunded |
| `PaymentRuns.CoveredThroughoutIff` | src/payments/payments.service.ts:254-280 | A run, with refund inserts any time after their checks, keeps refunded plus pending money of every payment within what was paid if and only if each insert fits beside the pending refunds when it happens |
| `PaymentRuns.DisciplinedRunStaysCovered` | src/payments/payments.service.ts:241-286 | Along such a run no payment of a non-negative amount refunds more than was paid |
| `PaymentRuns.InsertKeepsCoveredIff` | src/payments/payments.service.ts:269-280 | One insert keeps every payment covered exactly when it fits beside the pending refunds of its payment |
| `PaymentRuns.SettlementExposure` | src/payments/webhooks.service.ts:259-298 | A settlement moves pending money to refunded money or drops it, and never adds to their sum |
| `PaymentRuns.StaleOutcomeIff` | src/payments/webhooks.service.ts:157-206 | When the outcome transaction runs after its status check has gone stale, the ledger stays consistent exactly in the listed states: the attempt is the newest and open or FAILED, or a repeated success before any refund, or a failure behind a newer failure, or the zero-amount corner |
| `PaymentRuns.LateFailureReopensPaidPayment` | src/payments/webhooks.service.ts:157-200 | For every open attempt of a positive amount: a success and a failure that both passed the check leave the payment FAILED although fully paid, and a retry is then accepted |
| `Payments.CreateKeepsLedger` | src/payments/payments.service.ts:87-146 | Creating a payment keeps the ledger consistent: the first attempt is number 1 and open, and the amount is the order total |
| `Payments.OnePaymentNeedsFreshCheck` | src/payments/payments.service.ts:100-140 | The existence check is outside the transaction: the insert keeps one payment per order exactly when no payment exists at that moment |
| `Payments.RetryKeepsLedger` | src/payments/payments.service.ts:155-208 | The retry transaction, after any stale read, keeps the ledger consistent; only the order summary stays at FAILED |
| `Payments.HighestIsCount` | src/payments/payments.service.ts:169-180 | The highest attempt number of a payment equals its number of attempts, so the next number continues 1, 2, 3, ... |
| `Payments.RefundKeepsLedger` | src/payments/payments.service.ts:269-280 | Inserting a positive pending refund for a payment that went through keeps the ledger consistent |
| `Payments.RefundableWasPaid` | src/payments/payments.service.ts:260-264 | An amount that passes the refund check is positive and belongs to a payment whose newest attempt SUCCEEDED |
| `PaymentEffects.CreatePaymentIff` | src/payments/payments.service.ts:87-146 | Refused exactly for an order that is not the caller's, or that has a payment; otherwise one PENDING payment and one open attempt over the order's total and currency, and nothing else |
| `PaymentEffects.RetryIff` | src/payments/payments.service.ts:155-208 | Accepted exactly for the owner of a FAILED payment; it adds attempt number count plus one for the same amount and sets PENDING, and nothing else |
| `PaymentEffects.RefundRequestIff` | src/payments/payments.service.ts:241-286 | Accepted exactly for 0 < amount <= paid - refunded of an existing payment; it adds one PENDING refund of that admin, and nothing else |
| `Payments.OutcomeKeepsLedger` | src/payments/webhooks.service.ts:171-206 | Resolving an open attempt either way keeps the ledger consistent |
| `Payments.SettlementKeepsLedger` | src/payments/webhooks.service.ts:259-306 | Settling any refund from any stale read keeps the ledger consistent: each refund contributes to the total at most once |
| `Webhooks.ResolveKeepsLedger` | src/payments/webhooks.service.ts:130-313 | Whatever an event is about, its effect keeps the ledger consistent |
| `Webhooks.BillingDatabase.ProcessEvent` | src/payments/webhooks.service.ts:79-128 | The handler chain on mutable tables computes the delivery function: event row first, replays skipped, one final event status |
| `Webhooks.BillingDatabase.HandlePaymentOutcome` | src/payments/webhooks.service.ts:130-209 | Missing or unknown reference marks the event FAILED, a resolved attempt IGNORED; otherwise attempt, payment and order change together |
| `Webhooks.BillingDatabase.HandleRefundOutcome` | src/payments/webhooks.service.ts:211-313 | The same for refunds, with the settlement transaction as its own step |
| `Webhooks.BillingDatabase.SettleRefund` | src/payments/webhooks.service.ts:259-306 | The settlement transaction: nothing unless the row is still PENDING, else refund, accumulated payment, order and event change together |
| `Webhooks.BillingDatabase.CreateForUser` | src/payments/payments.service.ts:87-146 | Payment creation on mutable tables, with its two refusals |
| `Webhooks.BillingDatabase.Retry` | src/payments/payments.service.ts:155-208 | Retry on mutable tables, with its two refusals |
| `Webhooks.BillingDatabase.CreateRefund` | src/payments/payments.service.ts:241-286 | Refund creation on mutable tables, with its three refusals in order |
| `Marketplace.PaymentsAreForTheGoods` | src/payments/payments.service.ts:112-123 | In every state reachable by checkouts, vendor updates, payments, refunds and webhooks in any interleaving, each payment belongs to one placed order of the same user, asks for exactly the sum of price times quantity over the order items below it, in the currency of each of them, and has collected nothing or exactly that; no two payments share an order |
| `Marketplace.RunKeepsInv` | src/orders/checkout.service.ts:156-171 | The shop tables and the payment ledger hold the same orders with the same owners, totals and currencies along every combined run |
| `Marketplace.VendorTotalsAreGoods` | src/orders/checkout.service.ts:182-233 | Adding up the vendor orders of a master order adds up price times quantity of the items below them |
| `MasterOrderStatus.DerivedStatusMeaning` | src/orders/utils/master-order-status.ts:50-103 | Each of the six results characterised by which child statuses occur, both ways; COMPLETED never results |
| `MasterOrderStatus.OrderIndependent` | src/orders/utils/master-order-status.ts:50-103 | The result depends on the multiset of child statuses only |
| `MasterOrderStatus.InactiveChildrenIgnored` | src/orders/utils/master-order-status.ts:62-64 | Removing CANCELLED and RETURN* children changes nothing while an active child remains |
| `MasterOrderStatus.DeriveIsWeakestLinkFold` | src/orders/utils/master-order-status.ts:53-102 | The every / some / Math.min code computes an independently defined one-pass weakest-link fold |
| `MasterOrderStatus.FoldMeaning` | src/orders/utils/master-order-status.ts:53-102 | What the fold remembers after any list of children, both ways |
| `MasterOrderStatus.ChildStepMovesUp` | src/orders/vendor-orders.service.ts:36-49 | One allowed child transition leaves the derived status alone or moves it up the ladder, or to an early CANCELLED |
| `VendorOrders.UpdateStatus` | src/orders/vendor-orders.service.ts:144-203 | The service call on mutable tables: not found, disallowed target, lost race, or transition with both histories |
| `VendorOrders.CommitStatus` | src/orders/vendor-orders.service.ts:166-200 | The transaction for a status read at any earlier time; a throw restores every table |
| `VendorOrders.RecomputeMasterOrderStatus` | src/orders/vendor-orders.service.ts:217-269 | Inside an atomic transaction the retry loop ends in its first round with the derived status written; its later rounds are the subject of the OverlappingUpdates rows |
| `VendorOrders.StatusCommitKeeps` | src/orders/vendor-orders.service.ts:166-200 | Every master status equals the derivation of its children, and both histories stay linked chains, after any commit however stale its read |
| `OrderEffects.StatusCommitsIff` | src/orders/vendor-orders.service.ts:166-179 | The transaction commits exactly when the vendor order still has the status that was read, and otherwise changes nothing |
| `OrderEffects.StatusCommitEffect` | src/orders/vendor-orders.service.ts:166-258 | It moves exactly that vendor order, with one history row by that actor, and its master to the derived status, with one history row if that is a change; no other row or column changes |
| `OrderEffects.StatusUpdateIff` | src/orders/vendor-orders.service.ts:149-179 | The call succeeds exactly when the target is allowed for the stored status, and otherwise changes nothing |
| `OrderEffects.StatusUpdateEffect` | src/orders/vendor-orders.service.ts:144-203 | After success the vendor order has the target status and the master the derived one |
| `OrderEffects.AllowedIsOneRungUp` | src/orders/vendor-orders.service.ts:36-49 | The transition table is one rung up the fulfilment ladder, or a cancellation from its two lowest rungs |
| `VendorOrders.OwnMasterMovesUp` | src/orders/vendor-orders.service.ts:231-247 | A committed transition never moves its own master order down |
| `VendorOrders.OtherMastersUntouched` | src/orders/vendor-orders.service.ts:227-231 | A transition never changes what another master order derives |
| `VendorOrders.HistoriesAreShort` | src/orders/vendor-orders.service.ts:249-258 | A master history has at most 5 rows and a vendor history at most 6 |
| `OverlappingUpdates.AlwaysEndsRightIff` | src/orders/vendor-orders.service.ts:166-269 | Two status updates of one master order interleaved statement by statement under READ COMMITTED: every interleaving ends with the status both moves derive if and only if neither move is decisive beside the outcome of the other, which is read off the children |
| `OverlappingUpdates.OverlappingUpdatesLeaveMasterStale` | src/orders/vendor-orders.service.ts:166-269 | The same on the tables, for any two transitions of different children: some interleaving leaves the master stale exactly under that condition |
| `OverlappingUpdates.BlindEndsRightIff` | src/orders/vendor-orders.service.ts:227-259 | If both read siblings and master before either commits, the master ends right exactly outside four listed collisions |
| `OverlappingUpdates.BlindUpdatesLeaveMasterStale` | src/orders/vendor-orders.service.ts:227-259 | The same on the tables |
| `OverlappingUpdates.BlindRunEnds` | src/orders/vendor-orders.service.ts:237-263 | After two blind reads every schedule ends with one and the same status: the other update alone if one finds nothing to write, else both, because the row lock forces the second one to read again |
| `OverlappingUpdates.AlwaysMovesUpIff` | src/orders/vendor-orders.service.ts:237-247 | Every change of the master status in every interleaving moves it up if and only if both moves, each alone, derive the same |
| `OverlappingUpdates.MasterCanMoveDown` | src/orders/vendor-orders.service.ts:227-247 | Children going PENDING to CONFIRMED and CONFIRMED to PROCESSING: a late writer puts the master back from CONFIRMED to PENDING |
| `OverlappingUpdates.TwoRoundsSuffice` | src/orders/vendor-orders.service.ts:222-268 | In no interleaving of two updates does the retry loop need a third round or reach its throw, and the master ends with what one move or both derive |
| `OverlappingUpdates.CollisionInstances` | src/orders/vendor-orders.service.ts:227-239 | Three collisions: delivered twice and left PARTIALLY_FULFILLED, cancelled twice and left PENDING, CONFIRMED written where PROCESSING is right |
| `OverlappingUpdates.FinalOverlapIsUnsafe` | src/orders/vendor-orders.service.ts:36-49 | Whenever the last two transitions of a master order overlap, some interleaving leaves it stale |
| `OverlappingUpdates.StaleForGoodIff` | src/orders/vendor-orders.service.ts:144-203 | A stale master stays stale through every later run of the shop if and only if none of its children has a transition left |
| `OverlappingUpdates.NextTransitionHeals` | src/orders/vendor-orders.service.ts:190-194 | The next committed transition of any child brings the master in line again |
| `Checkout.Checkout` | src/orders/checkout.service.ts:89-254 | The service call on mutable tables equals read, validation and transaction, with every refusal in the order of the code |
| `Checkout.Commit` | src/orders/checkout.service.ts:116-251 | The transaction for reads of any age: cart guard, reservations, order number collision, inserts; every throw restores all tables |
| `Checkout.ReserveLines` | src/orders/checkout.service.ts:138-149 | The loop of conditional updates stops at the first one that affects no row |
| `Checkout.ReserveIffFits` | src/orders/checkout.service.ts:138-149 | The loop succeeds if and only if for every requested variant the total over all lines fits in onHand minus reserved, and then adds exactly those totals |
| `Checkout.ReserveOrderIndependent` | src/orders/checkout.service.ts:138-149 | Any order of the lines gives the same verdict and the same inventories |
| `Checkout.GroupByVendor` | src/orders/checkout.service.ts:101-107 | The insertion-ordered map of the loop |
| `Checkout.GroupsPartitionLines` | src/orders/checkout.service.ts:101-107 | Exactly one group per distinct vendor, holding exactly that vendor's lines in cart order, and every line in exactly one group |
| `Checkout.SplitPreservesTotals` | src/orders/checkout.service.ts:151-188 | Any total over the lines equals the sum of the group totals |
| `Checkout.PlaceVendorOrder` | src/orders/checkout.service.ts:183-244 | One vendor order with its subtotal, first history row, items and one RESERVATION row per item |
| `Checkout.PlaceVendorOrders` | src/orders/checkout.service.ts:182-245 | The vendor loop: one vendor order per group in group order, with consecutive item and ledger rows, stopping at the first order number collision |
| `Checkout.PlaceMasterOrder` | src/orders/checkout.service.ts:151-245 | One master order whose subtotal is that of all lines, with one vendor order per group and an item and RESERVATION row per line |
| `Checkout.ValidateAndLoadLines` | src/orders/checkout.service.ts:264-314 | The validation loop returns the lines or the first item's error |
| `Checkout.LoadSucceedsIff` | src/orders/checkout.service.ts:282-311 | Validation succeeds exactly when every item is listed, of an active vendor, in the cart currency and in stock; the lines are then the items in order at current prices |
| `Checkout.FirstFailureDecides` | src/orders/checkout.service.ts:282-311 | The first item that does not pass decides the error: not on sale, else another currency, else out of stock |
| `Checkout.CheckoutRefusals` | src/orders/checkout.service.ts:89-99 | Without an active cart, with an empty one, or with an item that does not pass, the call answers that error and changes nothing; otherwise it is the transaction on the lines read |
| `Checkout.ReserveUniqueOrderNumber` | src/orders/checkout.service.ts:358-375 | The first of five candidates that is not taken, and failure exactly when all five are |
| `CheckoutInvariants.OrderItemsAreTheLines` | src/orders/checkout.service.ts:216-233 | The order items inserted are the cart lines regrouped: any total over them is the total over the lines |
| `OrderEffects.CommitPlacesTheLines` | src/orders/checkout.service.ts:182-233 | Every count or total of the request's lines, over variant, product, vendor, price, currency and quantity in any combination, is that of the new order items read back with the vendor of the vendor order they are under |
| `OrderEffects.VendorsReceiveTheirUnits` | src/orders/checkout.service.ts:182-233 | Each vendor's vendor order holds exactly the units of each variant requested from that vendor |
| `OrderEffects.CommitSplitsByVendor` | src/orders/checkout.service.ts:182-214 | One new PENDING vendor order for each vendor of the request and for no other, for the sum of that vendor's lines |
| `OrderEffects.CommitPlacesOneOrder` | src/orders/checkout.service.ts:123-180 | One new PENDING master order of that user for the sum of all lines; exactly the one cart is converted; catalogue and vendors are untouched |
| `ShopRuns.CommitGivesVendorsTheirItems` | src/orders/checkout.service.ts:101-107 | Every order item lies under the vendor order of the vendor who sells its product, for reads of any age |
| `CheckoutInvariants.CommitKeepsStock` | src/orders/checkout.service.ts:138-244 | After any commit: onHand is the sum of RESTOCK and ADJUSTMENT rows, reserved is the sum of RESERVATION rows and of all order items, within bounds, and exactly one RESERVATION row names each order item, with its variant and quantity |
| `CheckoutInvariants.CommitKeepsStatuses` | src/orders/checkout.service.ts:156-214 | New orders start with the derived status of their all-PENDING children and a one-row history |
| `CheckoutInvariants.CommitKeepsMoney` | src/orders/checkout.service.ts:151-233 | Item totals are price times quantity, they add up to vendor orders, those to the master order, all in one currency, with one vendor order per vendor |
| `CheckoutInvariants.CommitKeepsCarts` | src/orders/checkout.service.ts:123-130 | A commit converts one cart and places one order of the same user |
| `ShopRuns.RunKeepsInv` | src/orders/checkout.service.ts:89-254 | Along every interleaving of checkout reads, checkout commits and the writes of all other services, each write from reads of any age, all table invariants hold; owners, amounts, converted carts and history rows are never taken back |
| `ShopRuns.EveryReachableState` | src/orders/checkout.service.ts:89-254 | The invariants spelled out for every state reachable from the empty shop: derived statuses, short histories, reconciled stock, carts, vendors that trade and sell the items below, and money |
| `ShopRuns.MasterStatusOnlyMovesUp` | src/orders/vendor-orders.service.ts:237-258 | Between any two points of any run a master status is unchanged or has moved up |
| `ShopRuns.OneCheckoutPerCart` | src/orders/checkout.service.ts:123-130 | After one checkout of a cart commits, every later commit for that cart fails without a trace, whatever ran in between |
| `ShopRuns.CheckoutAllOrNothing` | src/orders/checkout.service.ts:116-149 | A failed commit changes nothing; it succeeds exactly when the cart is still ACTIVE, the totals fit and no order number collides; success adds exactly the totals |
| `ShopRuns.UndisturbedCheckoutSucceeds` | src/orders/checkout.service.ts:300-308 | With nothing between its reads and its transaction, a validated checkout never runs out of stock |
| `ShopRuns.CheckoutOrdersTheCartIff` | src/orders/checkout.service.ts:89-244 | A committed checkout orders, variant by variant, what the cart holds at that moment if and only if the cart still agrees row by row with the lines that were read |
| `ShopRuns.UndisturbedCheckoutOrdersTheCart` | src/orders/checkout.service.ts:89-244 | With nothing in between, a checkout orders exactly the cart's quantity of every variant and converts that cart |
| `ShopRuns.VendorsOfOrdersStayTrading` | src/vendors/vendors.service.ts:153-231 | A vendor that is ACTIVE and VERIFIED is so after every run |
| `ShopRuns.CommitTradesWithActiveVendors` | src/orders/checkout.service.ts:289-294 | Vendor orders are placed only with vendors that are ACTIVE and VERIFIED at the commit, although this was read earlier |
| `ServiceCalls.CallIsARun` | src/orders/checkout.service.ts:89-254 | Every service call of the shop, checkout and cart and inventory and vendor calls included, is a run of the steps with stale reads, so all results about runs hold of the calls |
| `ServiceCalls.EveryRunOfCallsKeeps` | src/cart/cart.service.ts:90-104 | Along every run of undisturbed calls each cart holds one currency and each product with variants has exactly one default, its first, besides all table invariants |
| `InventoryService.RestockVariant` | src/catalog/product-variants/inventory.service.ts:58-86 | Restock on mutable tables with its refusal |
| `InventoryService.AdjustVariant` | src/catalog/product-variants/inventory.service.ts:100-139 | Adjustment on mutable tables with its three refusals in order |
| `InventoryService.RestockIff` | src/catalog/product-variants/inventory.service.ts:30-86 | Accepted exactly for a variant of that product with an inventory row; it adds the quantity there, one RESTOCK row, and nothing else |
| `InventoryService.AdjustIff` | src/catalog/product-variants/inventory.service.ts:30-139 | Accepted exactly for a non-zero change of a variant of that product that leaves no less than the reservations; each refusal has its own error and no effect |
| `InventoryService.CreateVariantEffect` | src/catalog/product-variants/product-variants.service.ts:52-88 | Accepted exactly for an existing product; one listed variant with those values and one empty inventory row result |
| `InventoryService.AdjustGuardIsExact` | src/catalog/product-variants/inventory.service.ts:113-119 | Applying an adjustment keeps the stock consistent if and only if the conditional update accepts it |
| `InventoryService.AdjustUndoesRestock` | src/catalog/product-variants/inventory.service.ts:58-139 | Adjusting by the restocked amount is always accepted and restores the inventory |
| `InventoryService.AdjustKeepsStock` | src/catalog/product-variants/inventory.service.ts:112-136 | An adjustment, whatever was read before, keeps ledger, rows and bounds reconciled |
| `InventoryService.StockMovementKeeps` | src/catalog/product-variants/inventory.service.ts:66-83 | One ledger row that moves physical stock and leaves the reservations covered keeps every variant reconciled |
| `InventoryService.CreateForProduct` | src/catalog/product-variants/product-variants.service.ts:52-88 | Variant and inventory row are created together, the default flag from the count |
| `InventoryService.SingleDefaultNeedsFreshCount` | src/catalog/product-variants/product-variants.service.ts:58-76 | The insert keeps exactly one default variant per product if and only if its earlier count is still right |
| `CartService.AddItem` | src/cart/cart.service.ts:86-133 | The add call on mutable tables with its refusals, cart creation and upsert |
| `CartService.GetOrCreateActiveCart` | src/cart/cart.service.ts:186-219 | The active cart, or a new one in the given currency |
| `CartService.UpdateItemQuantity` | src/cart/cart.service.ts:135-148 | Quantity change of an item in the caller's own active cart, refused otherwise |
| `CartService.RemoveItem` | src/cart/cart.service.ts:150-156 | Removal of an item from the caller's own active cart, refused otherwise |
| `CartService.ClearCart` | src/cart/cart.service.ts:163-176 | Emptying the active cart; nothing without one |
| `CartService.AddItemIff` | src/cart/cart.service.ts:86-97 | Accepted exactly for a variant on sale (variant and product listed, vendor ACTIVE) in the currency of the active cart, if there is one; refusals change nothing |
| `CartService.AddItemEffect` | src/cart/cart.service.ts:99-130 | The caller's active cart, new if there was none, then holds exactly that many more units, at the current price; no other cart or table changes |
| `CartService.ItemCallsIff` | src/cart/cart.service.ts:135-156 | Changing and removing are accepted exactly for a row of the caller's own active cart, and otherwise change nothing |
| `CartService.ClearCartEffect` | src/cart/cart.service.ts:163-176 | The caller's active cart is empty afterwards and no other cart has changed |
| `CartService.RowWritesKeepItemIds` | src/cart/cart.service.ts:142-173 | Item ids stay unique over all carts |
| `CartService.AddMerges` | src/cart/cart.service.ts:106-124 | Adding grows the cart's total of that variant by exactly the quantity, no other total, and adds a row only for a new variant |
| `CartService.AddKeepsCarts` | src/cart/cart.service.ts:99-130 | Adding, from any stale read, keeps one active cart per user, one row per variant and the count of conversions |
| `CartService.QuantityKeepsCarts` | src/cart/cart.service.ts:142-145 | Setting a quantity, even of a row whose cart has been converted meanwhile, keeps all cart properties |
| `CartService.QuantityIsLocal` | src/cart/cart.service.ts:142-145 | Afterwards the cart holds exactly the given quantity of that variant; no other variant or cart changes |
| `CartService.RemovalIsLocal` | src/cart/cart.service.ts:153-153 | Afterwards the cart holds none of that variant; no other variant or cart changes |
| `CartService.CurrencyNeedsFreshCheck` | src/cart/cart.service.ts:90-104 | The add transaction keeps every cart to one currency if and only if the active cart it finds has the variant's currency |
| `CartService.AddItemKeepsCurrency` | src/cart/cart.service.ts:86-133 | As one atomic call, adding keeps every cart to one currency |
| `Vendors.VerificationCommitKeeps` | src/vendors/vendors.service.ts:172-181 | No verification update, however stale, un-verifies a VERIFIED vendor or stops a trading one |
| `Vendors.ActivationCommitKeeps` | src/vendors/vendors.service.ts:215-228 | Only VERIFIED vendors become ACTIVE |
| `Vendors.VerifyIff` | src/vendors/vendors.service.ts:153-184 | Accepted exactly from an allowed status; that vendor then has the target status and nothing else has changed |
| `Vendors.ActivateIff` | src/vendors/vendors.service.ts:199-231 | Accepted exactly for a PENDING, VERIFIED vendor, who is then ACTIVE; nothing else has changed |
| `Vendors.CreateVendorIff` | src/vendors/vendors.service.ts:83-118 | Accepted exactly for a user without a vendor, who then has a PENDING, unverified one |
| `Vendors.AllowedFromMeaning` | src/vendors/vendors.service.ts:37-44 | The verification table: to review, from review to verified, and rejection of whatever is undecided |
| `Vendors.CreateForUser` | src/vendors/vendors.service.ts:83-118 | One vendor per user, created PENDING and unverified |
| `Vendors.Verify` | src/vendors/vendors.service.ts:153-184 | Verification call: not found, disallowed transition, lost race, or the new status |
| `Vendors.Activate` | src/vendors/vendors.service.ts:199-231 | Activation call: not found, not eligible, or ACTIVE |
| `Auth.FamiliesAreChains` | src/auth/auth.service.ts:198-282 | In every reachable state a family belongs to one user, all its tokens but possibly the newest are revoked, it has one token more than successful refreshes, and no token was exchanged twice |
| `Auth.RunKeepsInv` | src/auth/auth.service.ts:116-323 | One user per family, a single live token and one token more than exchanges are kept by every login, refresh, logout and status change |
| `Auth.RotationKeepsInv` | src/auth/auth.service.ts:205-265 | A successful refresh extends its family by one and records one exchange |
| `Auth.KilledFamilyStaysDead` | src/auth/auth.service.ts:210-256 | After a reuse detection, a claim by a non-ACTIVE user or the owner's logout, no refresh of any token of that family succeeds after any later run, and no other family is touched by the kill |
| `Auth.DeadForGood` | src/auth/auth.service.ts:205-235 | A family without a live token never gets one again |
| `Auth.WhatKillsAFamily` | src/auth/auth.service.ts:210-254 | What each of the three calls does to its family and to all others; a logout by another user changes nothing |
| `Auth.RefreshSucceedsIff` | src/auth/auth.service.ts:205-270 | Success exactly for a live, unexpired token of an ACTIVE user when signing works; it revokes that token and appends one of the same user and family; a signing failure leaves everything as it was |
| `Auth.LoginIff` | src/auth/auth.service.ts:116-150 | A login succeeds exactly for an existing ACTIVE user with the right password, and a refusal leaves no trace |
| `Auth.LoginOpensAFamily` | src/auth/auth.service.ts:160-169 | It adds exactly one live token of that user with that expiry, in a family that no token had before |
| `Auth.LoginIsAStep` | src/auth/auth.service.ts:116-172 | A login call is at most the one step of the runs that inserts its token |
| `Auth.LoginCanRefresh` | src/auth/auth.service.ts:116-282 | The token of a login can be refreshed at once exactly if it has not expired |
| `Auth.SessionStore.Login` | src/auth/auth.service.ts:116-172 | A new family with one token, or a refusal without effect |
| `Auth.SessionStore.Refresh` | src/auth/auth.service.ts:198-282 | Claim, reuse detection, status check, replacement and rollback on mutable tables |
| `Auth.SessionStore.Logout` | src/auth/auth.service.ts:308-323 | Revokes the family of the caller's own token, else nothing |
| `Categories.AssertNoCycle` | src/catalog/categories/categories.service.ts:123-150 | On any finite parent table, cyclic or with missing rows, the walk terminates and accepts if and only if the category is not reachable from the proposed parent, itself included |
| `Categories.MoveKeepsForestIff` | src/catalog/categories/categories.service.ts:82-98 | Setting a parent keeps the forest exactly when the category is not reachable from it at that moment |
| `Categories.EveryRunKeepsForest` | src/catalog/categories/categories.service.ts:54-103 | Through any run of creates and updates, each atomic, the categories stay a forest with existing parents |
| `Categories.UpdateKeepsForest` | src/catalog/categories/categories.service.ts:77-103 | Every accepted update keeps the forest |
| `Categories.CreateKeepsForest` | src/catalog/categories/categories.service.ts:54-75 | Every accepted create keeps the forest |
| `Categories.UpdateIff` | src/catalog/categories/categories.service.ts:77-103 | Accepted exactly when the category exists and a new parent exists and is not the category or below it; the parent link is then the one asked for and every other row unchanged; each refusal leaves the table alone |
| `Categories.MovedUnderParent` | src/catalog/categories/categories.service.ts:87-98 | After an accepted move the ancestors of the category are its new parent and everything above that |
| `Categories.CreateIff` | src/catalog/categories/categories.service.ts:54-75 | Accepted exactly when its parent, if any, exists; the new row is last and has just that parent |
| `Categories.ConcurrentMovesMakeALoop` | src/catalog/categories/categories.service.ts:82-98 | Two updates that both walk before either writes, moving two unrelated categories under each other, are both accepted and always close a loop |
| `Categories.CategoryStore.Create` | src/catalog/categories/categories.service.ts:54-75 | Create on the mutable table with its refusal |
| `Categories.CategoryStore.Update` | src/catalog/categories/categories.service.ts:77-103 | Update on the mutable table: not found, invalid parent, circular parent (by reachability, not by the walk), or the move |
| `Authorization.GetUserPermissions` | src/auth/authorization/authorization.service.ts:39-67 | No two results share a key, all are granted, and every granted permission is represented by its key |
| `Authorization.CollectionMatchesQueryIff` | src/auth/authorization/authorization.service.ts:39-101 | The list and the direct query agree on every permission if and only if no two granted permissions share a joined key |
| `Authorization.ColonFreeRolesMatchQuery` | src/auth/authorization/authorization.service.ts:57-101 | They agree whenever granted resource names contain no colon |
| `Authorization.CollidingKeysLoseAPermission` | src/auth/authorization/authorization.service.ts:57-62 | Two concrete permissions whose joined keys coincide: one of them is granted but missing from the list |
| `Products.PagesAreTheList` | src/catalog/products/products.service.ts:128-149 | Pages 1 to totalPages concatenate to the whole list; all but the last are full, the last is not empty, and pages beyond are empty |
| `Products.TotalPagesBounds` | src/catalog/products/products.service.ts:147-147 | The page count is the least number of pages that holds everything |

## Left out

- Interleaving of single statements inside one transaction, except for two overlapping status updates
  (`OverlappingUpdates`). Three or more overlapping updates, deadlock and liveness are not modelled.
- The unique-violation fallback of cart creation (`src/cart/cart.service.ts:203-218`) and of the retry insert: with
  atomic transactions they are never reached. That of the vendor insert gives the same answer as its pre-check.
- Checkout.Checkout: running out of order number candidates is not told apart from a collision at the insert; both
  fail without a trace. `Checkout.ReserveUniqueOrderNumber` models the search itself.
- CartService.GetOrCreateActiveCart: does not model the fallback after a unique violation, see above.
- Checkout.Commit: order numbers are not stored; where a generated number collides is a parameter, so their uniqueness
  is not stated.
- Webhooks.OrderDoesNotMatter: each delivery is one step; outcomes whose check has gone stale are the subject of
  `StalePayments.ConsistentThroughoutIff`.
- PaymentRuns.RunKeepsInv: payment creation and payment outcomes are undisturbed calls; with stale checks the invariant
  can break, exactly as `StalePayments.ConsistentThroughoutIff` says.
- VendorOrders.RecomputeMasterOrderStatus: the method runs in one atomic transaction, where the second to fifth rounds
  are never entered; `OverlappingUpdates` models them for two overlapping updates.
- PaymentRuns.DisciplinedRunStaysCovered: payments of a negative total are excluded, because nothing can be refunded of
  them and their refunded amount 0 exceeds what was paid.
- Refund rows carry no currency; the source copies that of the payment (`src/payments/payments.service.ts:275`).
- Widths of database integers and decimals, and rounding: quantities and money are unbounded integers.
- Timestamps, addresses, notes, slugs, SKUs, attribute JSON, generated order, payment and refund numbers: opaque data.
- Statuses that no code writes (payment PROCESSING and CANCELLED, refund PROCESSING and the like).
- Controllers, guards, request validation, view mappers, ownership checks, shops, product images, storage, audit,
  health checks, environment: framework wiring or single-branch checks.
- Password hashing, token generation, HMAC and JWT: represented by their outcomes.
- Creation and update of products beyond their vendor and status; soft deletion, which no code performs.
- Role listing and role checks (`src/auth/authorization/authorization.service.ts:25-32` and `:75-81`): plain queries.
