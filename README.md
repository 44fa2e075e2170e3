# Order lifecycle engine of the gigconnect order service, in Dafny

This project models the order service of a marketplace. The service creates an
order, verifies its payment with the payment gateway, and then moves the order
through cancellation, delivery, delivery-date extension and approval. After
every state change it publishes events to other services and sends
notifications.

The model has five modules:

- `OrderTypes` (`order_types.dfy`) holds the values. It has the order document,
  with its status, flags, payment sub-record, offer, extension proposal,
  delivered work and event stamps. It also has `ExpectedTotal` and the failure
  kinds.
- `Listing` (`listing.dfy`) holds the newest-first ordering (`$sort: {createdAt: -1}`).
  The order listings and the notification listing both use it.
- `NotificationService` (`notification_service.dfy`) holds the notification
  record and the class `NotificationStore`. That class is the notification
  collection, with create, list-by-recipient and mark-as-read.
- `OrderService` (`order_service.dfy`) holds the class `OrderEngine`. It owns:
  - the order store, a `map` from orderId to order;
  - the append-only `outbox` of published update events, order emails, refund
    requests and live notification pushes;
  - the notification collection.
  Each operation checks its guards, writes the store, and only then appends to
  the outbox. `verifyOrder` is split into three parts:
  - `VerifyPreCheck` is the lookup and the guard chain; it changes nothing.
  - `CommitVerification` is the compare-and-swap on txRef plus AWAITING_PAYMENT.
  - `Fulfil` is the three fulfilment effects.

  Splitting it this way lets a client interleave two verifications. The engine
  invariant `Valid()` contains `FulfilledAtMostOnce`, which says two things.
  First, the outbox holds at most one order-placed email (the mark of
  fulfilment) per order. Second, it holds none for an order that is absent or
  still awaiting payment. Every operation preserves this invariant.
- `CreateController` (`create_controller.dfy`) holds the creation handler. It
  covers validation, the service-fee rule, the payload `{...body, serviceFee}`,
  and the 201 reply or the forwarded error.

`Scenarios` (`scenarios.dfy`) holds client runs proved from the operations'
contracts:
- create at price 2500, then verify with 2750;
- a repeated verification;
- two verifications racing between pre-check and commit;
- delivering twice;
- cancelling twice;
- delivering after a cancellation;
- an extension request answered both ways.

Collaborators are parameters:
- the gateway's verify answer is an `Option<GatewayData>`, where `None` means
  the gateway call was rejected;
- the refund outcome is a `bool`;
- the clock and random parts of the transaction reference are strings;
- every clock reading is an opaque `Timestamp`;
- whether the store accepts an insert is a `bool`.

The model follows the code in these places:
- `approveDeliveryDateExtension` copies `newDate`, `days` and `reason` from the
  payload it is given. It does not copy them from the stored `requestExtension`.
- `approveOrder`, `deliverOrder` and the three extension operations have no
  status guard. A CANCELLED order can therefore still be delivered, approved or
  have its delivery date changed.
- `cancelOrder` on an already-cancelled order throws a plain `Error`
  (`AlreadyCancelled`), not a bad request.
- `cancelOrder` stamps `approvedAt`.
- `markNotificationsAsRead` writes a field `read`. The notification schema's
  flag is `isRead`. The stored notification carries both fields, and only
  `read` is ever set.
- The expected payment total is `price + (serviceFee ?? 0)`.
- The amount guard compares the gateway amount with the order found by the
  pre-check lookup. The conditional write may update any order that carries the
  same txRef and is still awaiting payment. `VerifyOrder` states both facts, and
  it ties the amount to the updated order when only one order carries the txRef.

## Model

| member | source | states |
|---|---|---|
| `OrderTypes.ExpectedTotal` | src/services/order.service.ts:88-90 | the amount the gateway must report is at least the price, and equals the price when the fee is missing |
| `CreateController.ServiceFee` | src/controllers/create.ts:15 | the fee is 100 below price 1000; from 1000 on it is price/10 rounded to the nearest whole number, halves up; it is never below 100 |
| `CreateController.FeeExamples` | src/controllers/order/test/create.test.ts:30-96 | the fee values the creation tests expect: 850 gives 100, 2500 gives 250 |
| `CreateController.WithServiceFee` | src/controllers/create.ts:17-21 | the payload is the request body with `serviceFee` set to the computed fee and every other field unchanged |
| `CreateController.HandleCreate` | src/controllers/create.ts:9-32 | a validation error is forwarded as a bad request and the store is untouched; otherwise the fee-carrying payload goes to createOrder; success replies 201 with the created order; a createOrder failure is forwarded with no status and the store is unchanged |
| `OrderService.GenerateTxRef` | src/services/order.service.ts:50-52 | the transaction reference starts with the orderId followed by "-" |
| `OrderService.OrderEngine.CreateOrder` | src/services/order.service.ts:54-70 | on success the order is stored under its orderId with status AWAITING_PAYMENT, payment intent cleared, payment txRef equal to the returned txRef, other payment fields and all other fields as given; a failed insert is CreateFailed and leaves the store unchanged; nothing is published |
| `OrderService.CheckPayment` | src/services/order.service.ts:83-111 | the guard chain, in order: a status other than AWAITING_PAYMENT fails first; then the gateway status must be exactly "successful"; then the amount must equal price + fee; it accepts exactly when all hold |
| `OrderService.OrderEngine.VerifyPreCheck` | src/services/order.service.ts:77-111 | no order with the txRef gives NotFound; otherwise the result is the guard chain applied to an order carrying the txRef; changes nothing |
| `OrderService.OrderEngine.CommitVerification` | src/services/order.service.ts:113-134 | the conditional write succeeds exactly when some order has the txRef and is still AWAITING_PAYMENT; only that order changes, to PROCESSING with the payment fields copied from the gateway; otherwise it fails with a concurrent-modification bad request and the store is unchanged |
| `OrderService.OrderEngine.Fulfil` | src/services/order.service.ts:136-163 | appends exactly a seller update, an order-placed email and a seller notification, in that order; the order's fulfilment count goes from 0 to 1 |
| `OrderService.OrderEngine.CompleteVerification` | src/services/order.service.ts:113-165 | commit then fulfilment; when the commit matches nothing, it fails before any publish or notification |
| `OrderService.Paid` | src/services/order.service.ts:115-124 | the commit's update: status PROCESSING and all five payment fields (txRef, transaction id, gateway status, payment method, fee) taken from the gateway answer; every other field of the order unchanged |
| `OrderService.OrderEngine.VerifyOrder` | src/services/order.service.ts:72-166 | every failure leaves the store, outbox and notifications unchanged; an unknown txRef is NotFound; the outcome is the guard chain's on some order carrying the txRef (the one the lookup found), and with a single such order on that very order; success requires a "successful" gateway answer whose amount matches an awaiting order, changes one order to PROCESSING, and appends the three fulfilment entries exactly once |
| `OrderService.PlacedCountGrows` | src/services/order.service.ts:144-163 | the outbox only grows, so an order's count of order-placed emails never falls |
| `OrderService.FulfilmentBoundKept` | src/services/order.service.ts:126-129 | rewriting one stored order keeps fulfilment at most once per order, unless the rewrite puts the order back to AWAITING_PAYMENT |
| `OrderService.FulfilledOrderFailsVerification` | src/services/order.service.ts:84-86 | an order already fulfilled has been fulfilled exactly once and is past AWAITING_PAYMENT, so the guard chain rejects it with a status error |
| `OrderService.OrderEngine.RequestRefund` | src/services/order.service.ts:190-216 | a refund of 95% of the base price is requested only when a transaction id is recorded; the refund outcome changes nothing |
| `OrderService.OrderEngine.CancelOrder` | src/services/order.service.ts:178-254 | missing order: NotFound; already CANCELLED: fails with no refund, no write and no publish; otherwise status CANCELLED, cancelled set and approvedAt stamped, then refund request (if any), seller event, buyer event (targets from the caller's data) and a seller notification, in that order |
| `OrderService.OrderEngine.ApproveOrder` | src/services/order.service.ts:256-289 | missing order: NotFound with nothing changed; otherwise approved set, status Completed, approvedAt stamped whatever the prior status, then seller and buyer events and a seller notification |
| `OrderService.OrderEngine.DeliverOrder` | src/services/order.service.ts:291-325 | missing order: NotFound with nothing changed; otherwise the work item is appended after the earlier ones, `delivered` takes the flag passed, status DELIVERED, delivery stamped, then a delivery email and a buyer notification |
| `OrderService.OrderEngine.RequestDeliveryExtension` | src/services/order.service.ts:327-364 | missing order: NotFound; otherwise the four proposal fields are overwritten and nothing else changes, then an email and notifications to buyer and seller |
| `OrderService.OrderEngine.ApproveDeliveryDateExtension` | src/services/order.service.ts:366-408 | missing order: NotFound; otherwise the offer takes the new date, days and reason passed, the update is stamped and the proposal reset to the empty sentinel, then an approval email and notifications to buyer and seller |
| `OrderService.OrderEngine.RejectDeliveryDateExtension` | src/services/order.service.ts:410-447 | missing order: NotFound; otherwise only the proposal is reset to the empty sentinel and the offer is untouched, then a rejection email and notifications to seller and buyer |
| `OrderService.OrderEngine.GetOrderByOrderId` | src/services/order.service.ts:25-29 | the stored order with that id, or nothing when absent |
| `Listing.Insert` | src/services/order.service.ts:36 | inserting into a newest-first sequence keeps it ordered by createdAt descending and adds exactly the one element |
| `Listing.SortNewestFirst` | src/services/notification.service.ts:12 | the `$sort: {createdAt: -1}` stage: the result is ordered by createdAt descending and is a permutation of its input |
| `OrderService.OrderEngine.OrdersOf` | src/services/order.service.ts:35-45 | every stored order of the given seller or buyer appears exactly once, nothing else appears, newest first |
| `OrderService.OrderEngine.GetOrdersBySellerId` | src/services/order.service.ts:35-37 | exactly the seller's orders, each once, newest first |
| `OrderService.OrderEngine.GetOrdersByBuyerId` | src/services/order.service.ts:43-45 | exactly the buyer's orders, each once, newest first |
| `OrderService.OrderEngine.SendNotification` | src/services/notification.service.ts:25-39 | the record is addressed to the given user, with the seller as sender, the buyer as receiver, and the message and orderId given; it is persisted first, then pushed together with the order |
| `NotificationService.NotificationStore.CreateNotification` | src/services/notification.service.ts:5-7 | stores exactly the given record, unread, and grows the collection by one |
| `NotificationService.AddressedTo` | src/services/notification.service.ts:11 | keeps exactly the records addressed to the user, each as often as it occurs |
| `NotificationService.NotificationStore.GetNotificationsById` | src/services/notification.service.ts:9-14 | exactly the notifications whose recipient matches, newest first |
| `NotificationService.MarkRead` | src/services/notification.service.ts:17-21 | only the record with the given id changes, and only its `read` flag, which becomes true |
| `NotificationService.MarkReadIdempotent` | src/services/notification.service.ts:16-23 | marking twice is the same as marking once |
| `NotificationService.NotificationStore.MarkNotificationsAsRead` | src/services/notification.service.ts:16-23 | applies that update and returns the updated record; an unknown id matches nothing and yields no record |
| `Scenarios.CreateThenVerify` | src/services/order.service.ts:54-166 | creating at price 2500 gives fee 250 and AWAITING_PAYMENT; verifying with a successful 2750 gives PROCESSING, one seller update, one order-placed email and one seller notification |
| `Scenarios.VerifyTwice` | src/services/order.service.ts:126-134 | a second verification of the same txRef never fulfils the same order again; with one order on the txRef and the gateway echoing it, the second fails on the status guard |
| `Scenarios.VerifyAmongProcessed` | src/services/order.service.ts:77-86 | when every order carrying the txRef is already PROCESSING, whichever one the lookup finds, verification fails with StatusNotValid(Processing) and changes nothing |
| `Scenarios.RacingVerifications` | src/services/order.service.ts:113-134 | two verifications that both pass the pre-check never both fulfil one order; with one order on the txRef the loser fails with a conflict |
| `Scenarios.DeliverTwice` | src/services/order.service.ts:291-305 | two deliveries append both items; the length grows by two |
| `Scenarios.CancelTwice` | src/services/order.service.ts:186-188 | the second cancellation is refused and the cancelled order stays as the first left it |
| `Scenarios.DeliverAfterCancel` | src/services/order.service.ts:291-305 | a cancelled order can still be delivered, and ends DELIVERED with `cancelled` still set |
| `Scenarios.ExtensionAnswers` | src/services/order.service.ts:366-428 | approving moves the proposed terms into the offer and clears the proposal; rejecting clears the proposal and leaves the offer as it was |

## Left out

- Gateway HTTP calls: the verify answer is a parameter. The transaction id
  sent to the gateway is not modelled; the answer stands for the reply about it.
  A refund is logged as a `RefundRequested` outbox entry, and its outcome is a
  parameter that changes nothing.
- Floating point: prices are non-negative integers. `Math.round(price * 0.1)`
  is modelled as `(price + 5) / 10`. The refund `price * 0.95` is modelled as a
  real number. Binary rounding of `0.1` and `0.95` is not modelled.
- Message payloads: the outbox keeps only each entry's kind and target. It does
  not keep the JSON bodies, the lower-casing of usernames, the URLs, or the
  exchange and routing-key strings. Each entry is tagged with the orderId of the
  operation that produced it.
- Live push: the Socket.IO emit and the module-level channel and emitter become
  `Pushed` outbox entries.
- Concurrency: the model is sequential. A race is modelled only at the grain of
  pre-check and commit (`Scenarios.RacingVerifications`). The other operations'
  unconditional writes are atomic steps.
- Publish and store failures: failures after a state write are not modelled.
  This includes the `'Failed to cancel order...'` rethrow in `cancelOrder`
  (order.service.ts:229-253), whose missing-order branch cannot occur in a
  sequential run.
- Order schema: `order.schema.ts` is not part of this model. The store is keyed
  by orderId, so an insert under an orderId already present fails like any
  failed insert. The `createdAt` stamp that the listings sort on is taken as
  stamped at insertion.
- Order fields with no rule: quantity, gig images and titles, emails, reviews,
  and the other event stamps (placeOrder, requirements, orderStarted) are not
  modelled.
- Notification ids: the store's generated `_id` is modelled as the insertion
  index.
- Other files: the HTTP routing and the other controllers, the review-update
  queue consumer, the database and server bootstrap, the test mocks and the
  build script are not part of this model.
- Undefined names: `updateOrderReview`, `sellerDeliverOrder` and
  `markNotificationAsRead` are referenced but not defined in the repository's
  files, so they are not modelled.
