/**
 * The order lifecycle engine: a keyed order store, an append-only outbox of
 * published events, refund requests and live pushes, and the notification
 * collection. Every operation checks its guards, writes the store, and only
 * then appends to the outbox.
 *
 * The payment gateway's verify answer, the refund outcome, the parts of the
 * generated transaction reference and every clock reading are parameters.
 */
module OrderService {
  import opened OrderTypes
  import opened Listing
  import opened NotificationService

  /** The `type` of a seller- or buyer-update message. */
  datatype UpdateKind = CreateOrderKind | CancelOrderKind | ApproveOrderKind | PurchasedGigsKind

  /** The `template` of an order-email message. */
  datatype Template =
    | OrderPlaced
    | OrderDelivered
    | OrderExtension
    | OrderExtensionApproval(accepted: bool)

  /** One outbound effect. Each entry carries the orderId of the operation that
      produced it; the message bodies are not modelled, only kind and target. */
  datatype Entry =
    | SellerUpdate(orderId: string, sellerId: string, kind: UpdateKind)
    | BuyerUpdate(orderId: string, buyerId: string, kind: UpdateKind)
    | OrderEmail(orderId: string, template: Template)
    | Pushed(order: Order, notification: StoredNotification)
    | RefundRequested(orderId: string, transactionId: string, amount: real)

  /** The gateway's verify answer `{status, amount, tx_ref, id, payment_type, app_fee}`. */
  datatype GatewayData = GatewayData(
    status: string, amount: int, txRef: string, id: string, paymentType: string, appFee: int)

  /** The caller-supplied aggregate message of cancel and approve; only the
      targets of the update events are modelled. */
  datatype OrderMessage = OrderMessage(sellerId: string, buyerId: string)

  /** The delivery-extension payload. */
  datatype ExtensionRequest = ExtensionRequest(
    originalDate: string, newDate: string, days: int, reason: string, deliveryDateUpdate: Timestamp)

  /** What createOrder returns: the stored order and its transaction reference. */
  datatype Created = Created(order: Order, txRef: string)

  datatype Party = Seller | Buyer

  const MsgPlaced := "placed an order for your gig."
  const MsgCancelled := "Your order has been cancelled."
  const MsgApproved := "Your order has been approved."
  const MsgDelivered := "Your order has been delivered."
  const MsgExtensionAsked := "There is a delivery extension request for your order."
  const MsgExtensionSent := "Your delivery extension request has been sent to the seller."
  const MsgExtensionApproved := "Your delivery date extension request has been approved."
  const MsgExtensionApprovedBy := "You have approved the delivery date extension request."
  const MsgExtensionRejected := "Your delivery date extension request has been rejected."
  const MsgExtensionRejectedBy := "You have rejected the delivery date extension request."

  /** generateTxRef: `<prefix>-<millis>-<entropy>`; the clock and random parts are opaque. */
  function GenerateTxRef(prefix: string, millis: string, entropy: string): (t: string)
    ensures |t| > |prefix| && t[..|prefix| + 1] == prefix + "-"
  {
    var t := prefix + "-" + millis + "-" + entropy;
    assert t[..|prefix| + 1] == prefix + "-";
    t
  }

  /** The guards of verifyOrder on the order found by its txRef, in the order
      verifyOrder runs them. */
  function CheckPayment(o: Order, gateway: Option<GatewayData>): (r: Result<string>)
    ensures r.Success? <==>
      o.status == AwaitingPayment && gateway.Some? &&
      gateway.value.status == "successful" && gateway.value.amount == ExpectedTotal(o)
    ensures r.Success? ==> r.value == o.orderId
    ensures o.status != AwaitingPayment ==> r == Failure(StatusNotValid(o.status))
    ensures o.status == AwaitingPayment && gateway.Some? && gateway.value.status != "successful" ==>
      r == Failure(PaymentNotSuccessful(gateway.value.status))
    ensures (o.status == AwaitingPayment && gateway.Some? && gateway.value.status == "successful" &&
             gateway.value.amount != ExpectedTotal(o)) ==>
      r == Failure(AmountMismatch(ExpectedTotal(o), gateway.value.amount))
  {
    if o.status != AwaitingPayment then Failure(StatusNotValid(o.status))
    else if gateway.None? then Failure(GatewayUnavailable)
    else if gateway.value.status != "successful" then Failure(PaymentNotSuccessful(gateway.value.status))
    else if gateway.value.amount != ExpectedTotal(o) then
      Failure(AmountMismatch(ExpectedTotal(o), gateway.value.amount))
    else Success(o.orderId)
  }

  /** The `$set` of the verification commit: PROCESSING, payment copied from the gateway. */
  function Paid(o: Order, g: GatewayData): (r: Order)
    ensures r.status == Processing
    ensures r.payment.txRef == Some(g.txRef) && r.payment.transactionId == Some(g.id)
    ensures r.payment.gatewayStatus == Some(g.status) && r.payment.paymentMethod == Some(g.paymentType)
    ensures r.payment.fee == Some(g.appFee)
    ensures r.(status := o.status, payment := o.payment) == o
  {
    o.(status := Processing,
       payment := Payment(Some(g.txRef), Some(g.id), Some(g.status), Some(g.paymentType), Some(g.appFee)))
  }

  /** The refund request cancelOrder makes: 95% of the base price, and only
      when a transaction id is recorded. */
  function RefundRequests(o: Order): seq<Entry> {
    if Truthy(o.payment.transactionId) then
      [RefundRequested(o.orderId, o.payment.transactionId.value, (o.price as real) * 0.95)]
    else []
  }

  predicate HasTxRef(store: map<string, Order>, txRef: string) {
    exists k :: k in store && store[k].payment.txRef == Some(txRef)
  }

  predicate AwaitingWithTxRef(store: map<string, Order>, txRef: string) {
    exists k :: k in store && store[k].payment.txRef == Some(txRef) && store[k].status == AwaitingPayment
  }

  /** At most one order in the store carries `txRef`. */
  predicate UniqueTxRef(store: map<string, Order>, txRef: string) {
    forall j, k ::
      (j in store && k in store && store[j].payment.txRef == Some(txRef) && store[k].payment.txRef == Some(txRef))
      ==> j == k
  }

  function OrderTime(o: Order): Timestamp {
    o.createdAt
  }

  function PartyOf(o: Order, p: Party): string {
    match p
    case Seller => o.sellerId
    case Buyer => o.buyerId
  }

  /** How many order-placed emails, the mark of fulfilment, `log` holds for `orderId`. */
  function PlacedCount(log: seq<Entry>, orderId: string): nat {
    if log == [] then 0
    else
      PlacedCount(log[..|log| - 1], orderId) +
      (if log[|log| - 1] == OrderEmail(orderId, OrderPlaced) then 1 else 0)
  }

  lemma PlacedCountAppend(log: seq<Entry>, e: Entry, orderId: string)
    ensures PlacedCount(log + [e], orderId) ==
      PlacedCount(log, orderId) + (if e == OrderEmail(orderId, OrderPlaced) then 1 else 0)
  {
    assert (log + [e])[..|log|] == log;
  }

  /** The outbox only grows, so fulfilment counts never fall. */
  lemma {:induction false} PlacedCountGrows(log: seq<Entry>, more: seq<Entry>, orderId: string)
    ensures PlacedCount(log + more, orderId) >= PlacedCount(log, orderId)
    decreases |more|
  {
    if more != [] {
      var init, last := more[..|more| - 1], more[|more| - 1];
      assert log + more == (log + init) + [last];
      PlacedCountAppend(log + init, last, orderId);
      PlacedCountGrows(log, init, orderId);
    } else {
      assert log + more == log;
    }
  }

  /** Fulfilment happens at most once per order, and never for an order that
      is absent or still awaiting payment. */
  ghost predicate FulfilledAtMostOnce(store: map<string, Order>, log: seq<Entry>) {
    forall k :: PlacedCount(log, k) <= (if k in store && store[k].status != AwaitingPayment then 1 else 0)
  }

  /** Rewriting one stored order keeps the bound, unless the rewrite puts an
      order back to AWAITING_PAYMENT. */
  lemma FulfilmentBoundKept(store: map<string, Order>, log: seq<Entry>, k: string, o: Order)
    requires FulfilledAtMostOnce(store, log) && k in store
    requires o.status == AwaitingPayment ==> store[k].status == AwaitingPayment
    ensures FulfilledAtMostOnce(store[k := o], log)
  {
    forall j ensures PlacedCount(log, j) <=
      (if j in store[k := o] && store[k := o][j].status != AwaitingPayment then 1 else 0)
    {
      assert PlacedCount(log, j) <= (if j in store && store[j].status != AwaitingPayment then 1 else 0);
    }
  }

  /** An order whose fulfilment has been published is past AWAITING_PAYMENT,
      so the verification guards turn it away: fulfilment is never repeated. */
  lemma FulfilledOrderFailsVerification(store: map<string, Order>, log: seq<Entry>, k: string,
                                        gateway: Option<GatewayData>)
    requires FulfilledAtMostOnce(store, log) && PlacedCount(log, k) > 0
    ensures PlacedCount(log, k) == 1
    ensures k in store && store[k].status != AwaitingPayment
    ensures CheckPayment(store[k], gateway) == Failure(StatusNotValid(store[k].status))
  {
    assert PlacedCount(log, k) <= (if k in store && store[k].status != AwaitingPayment then 1 else 0);
  }

  class OrderEngine {
    /** The order store, keyed by orderId. */
    var store: map<string, Order>
    /** Everything published, requested or pushed, in order. */
    var outbox: seq<Entry>
    /** The notification collection. */
    const notes: NotificationStore

    ghost predicate Valid()
      reads this, notes
    {
      && notes.Valid()
      && (forall k :: k in store ==> store[k].orderId == k)
      && FulfilledAtMostOnce(store, outbox)
    }

    constructor ()
      ensures Valid() && fresh(notes)
      ensures store == map[] && outbox == [] && notes.records == []
    {
      store := map[];
      outbox := [];
      notes := new NotificationStore();
    }

    /** Appends one entry to the outbox. */
    method Emit(e: Entry)
      modifies this
      ensures store == old(store) && outbox == old(outbox) + [e]
      ensures forall k ::
        (PlacedCount(outbox, k) == PlacedCount(old(outbox), k) + (if e == OrderEmail(k, OrderPlaced) then 1 else 0))
    {
      forall k ensures PlacedCount(outbox + [e], k) ==
        PlacedCount(outbox, k) + (if e == OrderEmail(k, OrderPlaced) then 1 else 0)
      {
        PlacedCountAppend(outbox, e, k);
      }
      outbox := outbox + [e];
    }

    /** sendNotification: builds the record from the order, persists it, then
        pushes the order together with the stored record. */
    method SendNotification(order: Order, userTo: string, message: string, now: Timestamp)
      returns (stored: StoredNotification)
      requires notes.Valid()
      modifies this, notes
      ensures notes.Valid() && store == old(store)
      ensures stored == NewRecord(|old(notes.records)|, order, userTo, message, now)
      ensures stored.record == Notification(userTo, order.sellerUsername, order.sellerImage,
                                            order.buyerUsername, order.buyerImage, message, order.orderId)
      ensures notes.records == old(notes.records) + [stored]
      ensures outbox == old(outbox) + [Pushed(order, stored)]
      ensures forall k :: PlacedCount(outbox, k) == PlacedCount(old(outbox), k)
    {
      stored := notes.CreateNotification(BuildNotification(order, userTo, message), now);
      Emit(Pushed(order, stored));
    }

    // ---------------------------------------------------------------- queries

    /** getOrderByOrderId: the stored order with that id, if any. */
    function GetOrderByOrderId(orderId: string): (r: Option<Order>)
      reads this
      ensures r.Some? <==> orderId in store
      ensures r.Some? ==> r.value == store[orderId]
    {
      if orderId in store then Some(store[orderId]) else None
    }

    /** The `$match` on seller or buyer id followed by `$sort: {createdAt: -1}`:
        every matching order exactly once, newest first. */
    method OrdersOf(party: Party, id: string) returns (r: seq<Order>)
      requires Valid()
      ensures NewestFirst(r, OrderTime)
      ensures forall o :: o in r ==> o.orderId in store && store[o.orderId] == o && PartyOf(o, party) == id
      ensures forall k :: k in store && PartyOf(store[k], party) == id ==> multiset(r)[store[k]] == 1
    {
      var todo := store.Keys;
      r := [];
      while todo != {}
        invariant todo <= store.Keys
        invariant NewestFirst(r, OrderTime)
        invariant forall o :: o in r ==>
          o.orderId in store && o.orderId !in todo && store[o.orderId] == o && PartyOf(o, party) == id
        invariant forall k :: k in store && PartyOf(store[k], party) == id ==>
          multiset(r)[store[k]] == if k in todo then 0 else 1
        decreases todo
      {
        var k :| k in todo;
        todo := todo - {k};
        if PartyOf(store[k], party) == id {
          var before := r;
          r := Insert(store[k], r, OrderTime);
          forall o | o in r
            ensures o.orderId in store && o.orderId !in todo && store[o.orderId] == o && PartyOf(o, party) == id
          {
            assert o in multiset(r);
            assert o == store[k] || o in before;
          }
          forall j | j in store && PartyOf(store[j], party) == id
            ensures multiset(r)[store[j]] == if j in todo then 0 else 1
          {
            if j != k {
              assert store[j].orderId != store[k].orderId;
            }
          }
        }
      }
    }

    /** getOrdersBySellerId */
    method GetOrdersBySellerId(sellerId: string) returns (r: seq<Order>)
      requires Valid()
      ensures NewestFirst(r, OrderTime)
      ensures forall o :: o in r ==> o.orderId in store && store[o.orderId] == o && o.sellerId == sellerId
      ensures forall k :: k in store && store[k].sellerId == sellerId ==> multiset(r)[store[k]] == 1
    {
      r := OrdersOf(Seller, sellerId);
    }

    /** getOrdersByBuyerId */
    method GetOrdersByBuyerId(buyerId: string) returns (r: seq<Order>)
      requires Valid()
      ensures NewestFirst(r, OrderTime)
      ensures forall o :: o in r ==> o.orderId in store && store[o.orderId] == o && o.buyerId == buyerId
      ensures forall k :: k in store && store[k].buyerId == buyerId ==> multiset(r)[store[k]] == 1
    {
      r := OrdersOf(Buyer, buyerId);
    }

    // ---------------------------------------------------------------- create

    /** createOrder: stamps a fresh txRef into the payment sub-record, sets
        AWAITING_PAYMENT, clears the payment intent and inserts. A failed
        insert (the store refusing it, or the orderId already present) is a
        bad request and leaves the store as it was. */
    method CreateOrder(data: Order, millis: string, entropy: string, now: Timestamp, insertOk: bool)
      returns (r: Result<Created>)
      requires Valid()
      modifies this
      ensures Valid() && outbox == old(outbox)
      ensures r.Success? <==> insertOk && data.orderId !in old(store)
      ensures r.Failure? ==> r.error == CreateFailed && store == old(store)
      ensures r.Success? ==>
        && r.value.txRef == GenerateTxRef(data.orderId, millis, entropy)
        && r.value.order.status == AwaitingPayment
        && r.value.order.paymentIntent == None
        && r.value.order.payment == data.payment.(txRef := Some(r.value.txRef))
        && r.value.order.createdAt == now
        && r.value.order.(status := data.status, paymentIntent := data.paymentIntent,
                          payment := data.payment, createdAt := data.createdAt) == data
        && store == old(store)[data.orderId := r.value.order]
    {
      var txRef := GenerateTxRef(data.orderId, millis, entropy);
      var order := data.(payment := data.payment.(txRef := Some(txRef)),
                         status := AwaitingPayment, paymentIntent := None, createdAt := now);
      if !insertOk || data.orderId in store {
        return Failure(CreateFailed);
      }
      store := store[data.orderId := order];
      r := Success(Created(order, txRef));
    }

    // ---------------------------------------------------------------- verify

    /** Step 1 of verifyOrder: finds an order by txRef and runs the guards on it.
        Changes nothing. */
    method VerifyPreCheck(txRef: string, gateway: Option<GatewayData>) returns (r: Result<string>)
      requires Valid()
      ensures !HasTxRef(store, txRef) ==> r == Failure(NotFound)
      ensures HasTxRef(store, txRef) ==>
        exists k :: k in store && store[k].payment.txRef == Some(txRef) && r == CheckPayment(store[k], gateway)
    {
      if !HasTxRef(store, txRef) {
        return Failure(NotFound);
      }
      var k :| k in store && store[k].payment.txRef == Some(txRef);
      r := CheckPayment(store[k], gateway);
    }

    /** Step 2 of verifyOrder: the compare-and-swap on `txRef` and
        AWAITING_PAYMENT. When nothing matches it fails and changes nothing. */
    method CommitVerification(txRef: string, g: GatewayData) returns (r: Result<Order>)
      requires Valid()
      modifies this
      ensures Valid() && outbox == old(outbox)
      ensures r.Success? <==> AwaitingWithTxRef(old(store), txRef)
      ensures r.Failure? ==> r.error == ConcurrentModification && store == old(store)
      ensures r.Success? ==>
        var k := r.value.orderId;
        && k in old(store)
        && old(store)[k].payment.txRef == Some(txRef)
        && old(store)[k].status == AwaitingPayment
        && r.value == Paid(old(store)[k], g)
        && store == old(store)[k := r.value]
        && PlacedCount(outbox, k) == 0
    {
      if !AwaitingWithTxRef(store, txRef) {
        return Failure(ConcurrentModification);
      }
      var k :| k in store && store[k].payment.txRef == Some(txRef) && store[k].status == AwaitingPayment;
      assert PlacedCount(outbox, k) <= (if k in store && store[k].status != AwaitingPayment then 1 else 0);
      var o := Paid(store[k], g);
      FulfilmentBoundKept(store, outbox, k, o);
      store := store[k := o];
      r := Success(o);
    }

    /** The fulfilment of verifyOrder: seller update, order-placed email, seller
        notification, in that order. */
    method Fulfil(o: Order, now: Timestamp) returns (n: StoredNotification)
      requires Valid() && o.orderId in store && store[o.orderId] == o && o.status != AwaitingPayment
      requires PlacedCount(outbox, o.orderId) == 0
      modifies this, notes
      ensures Valid() && store == old(store)
      ensures n == NewRecord(|old(notes.records)|, o, o.sellerUsername, MsgPlaced, now)
      ensures notes.records == old(notes.records) + [n]
      ensures outbox == old(outbox) +
        [SellerUpdate(o.orderId, o.sellerId, CreateOrderKind), OrderEmail(o.orderId, OrderPlaced), Pushed(o, n)]
      ensures PlacedCount(outbox, o.orderId) == 1
    {
      ghost var before := outbox;
      Emit(SellerUpdate(o.orderId, o.sellerId, CreateOrderKind));
      Emit(OrderEmail(o.orderId, OrderPlaced));
      assert forall k :: PlacedCount(outbox, k) == PlacedCount(before, k) + (if k == o.orderId then 1 else 0);
      n := SendNotification(o, o.sellerUsername, MsgPlaced, now);
    }

    /** The part of verifyOrder after the pre-check: commit, then fulfilment. */
    method CompleteVerification(txRef: string, g: GatewayData, now: Timestamp) returns (r: Result<Order>)
      requires Valid()
      modifies this, notes
      ensures Valid()
      ensures r.Success? <==> AwaitingWithTxRef(old(store), txRef)
      ensures r.Failure? ==>
        r.error == ConcurrentModification && store == old(store) && outbox == old(outbox) &&
        notes.records == old(notes.records)
      ensures r.Success? ==>
        var k := r.value.orderId;
        && k in old(store)
        && old(store)[k].payment.txRef == Some(txRef)
        && old(store)[k].status == AwaitingPayment
        && r.value == Paid(old(store)[k], g)
        && store == old(store)[k := r.value]
        && |notes.records| == |old(notes.records)| + 1
        && outbox == old(outbox) +
             [SellerUpdate(k, r.value.sellerId, CreateOrderKind), OrderEmail(k, OrderPlaced),
              Pushed(r.value, notes.records[|notes.records| - 1])]
        && notes.records[|notes.records| - 1].record == BuildNotification(r.value, r.value.sellerUsername, MsgPlaced)
        && PlacedCount(old(outbox), k) == 0 && PlacedCount(outbox, k) == 1
    {
      r := CommitVerification(txRef, g);
      if r.Failure? {
        return;
      }
      var _ := Fulfil(r.value, now);
    }

    /** verifyOrder: pre-check, then commit and fulfilment. Every failure leaves
        store, outbox and notifications unchanged. */
    method VerifyOrder(txRef: string, gateway: Option<GatewayData>, now: Timestamp) returns (r: Result<Order>)
      requires Valid()
      modifies this, notes
      ensures Valid()
      ensures r.Failure? ==>
        store == old(store) && outbox == old(outbox) && notes.records == old(notes.records)
      ensures !HasTxRef(old(store), txRef) ==> r == Failure(NotFound)
      ensures HasTxRef(old(store), txRef) ==>
        exists k :: k in old(store) && old(store)[k].payment.txRef == Some(txRef) &&
          (r.Success? <==> CheckPayment(old(store)[k], gateway).Success?) &&
          (r.Failure? ==> r.error == CheckPayment(old(store)[k], gateway).error)
      ensures UniqueTxRef(old(store), txRef) ==>
        forall k :: k in old(store) && old(store)[k].payment.txRef == Some(txRef) ==>
          && (r.Success? <==> CheckPayment(old(store)[k], gateway).Success?)
          && (r.Failure? ==> r.error == CheckPayment(old(store)[k], gateway).error)
      ensures r.Success? ==>
        && gateway.Some? && gateway.value.status == "successful"
        && (exists j :: j in old(store) && old(store)[j].payment.txRef == Some(txRef) &&
              old(store)[j].status == AwaitingPayment && gateway.value.amount == ExpectedTotal(old(store)[j]))
      ensures r.Success? ==>
        var k := r.value.orderId;
        && k in old(store)
        && old(store)[k].payment.txRef == Some(txRef)
        && old(store)[k].status == AwaitingPayment
        && r.value == Paid(old(store)[k], gateway.value)
        && r.value.status == Processing
        && store == old(store)[k := r.value]
        && |notes.records| == |old(notes.records)| + 1
        && outbox == old(outbox) +
             [SellerUpdate(k, r.value.sellerId, CreateOrderKind), OrderEmail(k, OrderPlaced),
              Pushed(r.value, notes.records[|notes.records| - 1])]
        && notes.records[|notes.records| - 1].record == BuildNotification(r.value, r.value.sellerUsername, MsgPlaced)
        && PlacedCount(old(outbox), k) == 0 && PlacedCount(outbox, k) == 1
    {
      var pre := VerifyPreCheck(txRef, gateway);
      if pre.Failure? {
        return Failure(pre.error);
      }
      r := CompleteVerification(txRef, gateway.value, now);
    }

    // ---------------------------------------------------------------- writes

    /** The unconditional `findOneAndUpdate({orderId}, ...)` on a present order. */
    method Put(orderId: string, updated: Order)
      requires Valid() && orderId in store && updated.orderId == orderId
      requires updated.status == AwaitingPayment ==> store[orderId].status == AwaitingPayment
      modifies this
      ensures Valid() && store == old(store)[orderId := updated] && outbox == old(outbox)
    {
      FulfilmentBoundKept(store, outbox, orderId, updated);
      store := store[orderId := updated];
    }

    /** Publishes one entry other than an order-placed email; the
        fulfilment bound is unaffected. */
    method Publish(e: Entry)
      requires Valid() && !(e.OrderEmail? && e.template == OrderPlaced)
      modifies this
      ensures Valid() && store == old(store) && outbox == old(outbox) + [e]
    {
      Emit(e);
    }

    /** The seller-side and buyer-side update events of one operation, in that order. */
    method PublishUpdates(orderId: string, data: OrderMessage, sellerKind: UpdateKind, buyerKind: UpdateKind)
      requires Valid()
      modifies this
      ensures Valid() && store == old(store)
      ensures outbox == old(outbox) + [SellerUpdate(orderId, data.sellerId, sellerKind), BuyerUpdate(orderId, data.buyerId, buyerKind)]
    {
      Publish(SellerUpdate(orderId, data.sellerId, sellerKind));
      Publish(BuyerUpdate(orderId, data.buyerId, buyerKind));
    }

    /** sendNotification from a lifecycle operation, keeping the engine valid. */
    method Notify(order: Order, userTo: string, message: string, now: Timestamp)
      requires Valid()
      modifies this, notes
      ensures Valid() && store == old(store)
      ensures notes.records == old(notes.records) + [NewRecord(|old(notes.records)|, order, userTo, message, now)]
      ensures outbox == old(outbox) + [Pushed(order, NewRecord(|old(notes.records)|, order, userTo, message, now))]
    {
      var _ := SendNotification(order, userTo, message, now);
    }

    /** Two sendNotification calls on the same order, in order. */
    method NotifyPair(order: Order, to1: string, msg1: string, to2: string, msg2: string, now: Timestamp)
      requires Valid()
      modifies this, notes
      ensures Valid() && store == old(store)
      ensures notes.records == old(notes.records) +
        [NewRecord(|old(notes.records)|, order, to1, msg1, now),
         NewRecord(|old(notes.records)| + 1, order, to2, msg2, now)]
      ensures outbox == old(outbox) +
        [Pushed(order, NewRecord(|old(notes.records)|, order, to1, msg1, now)),
         Pushed(order, NewRecord(|old(notes.records)| + 1, order, to2, msg2, now))]
    {
      Notify(order, to1, msg1, now);
      Notify(order, to2, msg2, now);
    }

    // ---------------------------------------------------------------- cancel

    /** The refund step of cancelOrder: requested only when a transaction id is
        recorded. The refund outcome `refundOk` is deliberately unused: a failed
        refund is only logged and cancellation goes on, so nothing else happens. */
    method RequestRefund(o: Order, refundOk: bool)
      requires Valid()
      modifies this
      ensures Valid() && store == old(store) && outbox == old(outbox) + RefundRequests(o)
    {
      if Truthy(o.payment.transactionId) {
        Publish(RefundRequested(o.orderId, o.payment.transactionId.value, (o.price as real) * 0.95));
      }
    }

    /** cancelOrder: NotFound for a missing order, a plain error for one already
        CANCELLED; otherwise a refund request when a transaction id is recorded
        (its outcome only logged), the CANCELLED write, seller and buyer events
        and a seller notification. */
    method CancelOrder(orderId: string, data: OrderMessage, refundOk: bool, now: Timestamp)
      returns (r: Result<Order>)
      requires Valid()
      modifies this, notes
      ensures Valid()
      ensures orderId !in old(store) ==> r == Failure(NotFound)
      ensures orderId in old(store) && old(store)[orderId].status == Cancelled ==> r == Failure(AlreadyCancelled)
      ensures r.Success? <==> orderId in old(store) && old(store)[orderId].status != Cancelled
      ensures r.Failure? ==>
        store == old(store) && outbox == old(outbox) && notes.records == old(notes.records)
      ensures r.Success? ==>
        var o := old(store)[orderId];
        var n := NewRecord(|old(notes.records)|, r.value, o.sellerUsername, MsgCancelled, now);
        && r.value == o.(status := Cancelled, cancelled := true, approvedAt := Some(now))
        && store == old(store)[orderId := r.value]
        && notes.records == old(notes.records) + [n]
        && outbox == old(outbox) + RefundRequests(o) +
             [SellerUpdate(orderId, data.sellerId, CancelOrderKind),
              BuyerUpdate(orderId, data.buyerId, CancelOrderKind),
              Pushed(r.value, n)]
    {
      if orderId !in store {
        return Failure(NotFound);
      }
      var o := store[orderId];
      if o.status == Cancelled {
        return Failure(AlreadyCancelled);
      }
      RequestRefund(o, refundOk);
      var updated := o.(status := Cancelled, cancelled := true, approvedAt := Some(now));
      Put(orderId, updated);
      PublishUpdates(orderId, data, CancelOrderKind, CancelOrderKind);
      Notify(updated, updated.sellerUsername, MsgCancelled, now);
      r := Success(updated);
    }

    // ---------------------------------------------------------------- approve

    /** approveOrder: no status guard; sets approved, 'Completed' and approvedAt,
        then seller and buyer events and a seller notification. */
    method ApproveOrder(orderId: string, data: OrderMessage, now: Timestamp) returns (r: Result<Order>)
      requires Valid()
      modifies this, notes
      ensures Valid()
      ensures r.Success? <==> orderId in old(store)
      ensures r.Failure? ==>
        r.error == NotFound && store == old(store) && outbox == old(outbox) && notes.records == old(notes.records)
      ensures r.Success? ==>
        var o := old(store)[orderId];
        var n := NewRecord(|old(notes.records)|, r.value, o.sellerUsername, MsgApproved, now);
        && r.value == o.(approved := true, status := Completed, approvedAt := Some(now))
        && store == old(store)[orderId := r.value]
        && notes.records == old(notes.records) + [n]
        && outbox == old(outbox) +
             [SellerUpdate(orderId, data.sellerId, ApproveOrderKind),
              BuyerUpdate(orderId, data.buyerId, PurchasedGigsKind),
              Pushed(r.value, n)]
    {
      if orderId !in store {
        return Failure(NotFound);
      }
      var updated := store[orderId].(approved := true, status := Completed, approvedAt := Some(now));
      Put(orderId, updated);
      PublishUpdates(orderId, data, ApproveOrderKind, PurchasedGigsKind);
      Notify(updated, updated.sellerUsername, MsgApproved, now);
      r := Success(updated);
    }

    // ---------------------------------------------------------------- deliver

    /** deliverOrder: no status guard; sets `delivered` to the flag passed,
        'DELIVERED', the delivery stamp, and appends the work item; then a
        delivery email and a buyer notification. */
    method DeliverOrder(orderId: string, delivered: bool, work: DeliveredWork, now: Timestamp)
      returns (r: Result<Order>)
      requires Valid()
      modifies this, notes
      ensures Valid()
      ensures r.Success? <==> orderId in old(store)
      ensures r.Failure? ==>
        r.error == NotFound && store == old(store) && outbox == old(outbox) && notes.records == old(notes.records)
      ensures r.Success? ==>
        var o := old(store)[orderId];
        var n := NewRecord(|old(notes.records)|, r.value, o.buyerUsername, MsgDelivered, now);
        && r.value.deliveredWork == o.deliveredWork + [work]
        && r.value == o.(delivered := delivered, status := Delivered,
                         events := o.events.(orderDelivered := Some(now)),
                         deliveredWork := r.value.deliveredWork)
        && store == old(store)[orderId := r.value]
        && notes.records == old(notes.records) + [n]
        && outbox == old(outbox) + [OrderEmail(orderId, OrderDelivered), Pushed(r.value, n)]
    {
      if orderId !in store {
        return Failure(NotFound);
      }
      var o := store[orderId];
      var updated := o.(delivered := delivered, status := Delivered,
                        events := o.events.(orderDelivered := Some(now)),
                        deliveredWork := o.deliveredWork + [work]);
      Put(orderId, updated);
      Publish(OrderEmail(orderId, OrderDelivered));
      Notify(updated, updated.buyerUsername, MsgDelivered, now);
      r := Success(updated);
    }

    // ---------------------------------------------------------------- extensions

    /** requestDeliveryExtension: overwrites the four proposal fields; an email,
        then notifications to the buyer and to the seller. */
    method RequestDeliveryExtension(orderId: string, data: ExtensionRequest, now: Timestamp)
      returns (r: Result<Order>)
      requires Valid()
      modifies this, notes
      ensures Valid()
      ensures r.Success? <==> orderId in old(store)
      ensures r.Failure? ==>
        r.error == NotFound && store == old(store) && outbox == old(outbox) && notes.records == old(notes.records)
      ensures r.Success? ==>
        var o := old(store)[orderId];
        var n1 := NewRecord(|old(notes.records)|, r.value, o.buyerUsername, MsgExtensionAsked, now);
        var n2 := NewRecord(|old(notes.records)| + 1, r.value, o.sellerUsername, MsgExtensionSent, now);
        && r.value == o.(requestExtension := Extension(data.originalDate, data.newDate, data.days, data.reason))
        && store == old(store)[orderId := r.value]
        && notes.records == old(notes.records) + [n1, n2]
        && outbox == old(outbox) + [OrderEmail(orderId, OrderExtension), Pushed(r.value, n1), Pushed(r.value, n2)]
    {
      if orderId !in store {
        return Failure(NotFound);
      }
      var updated := store[orderId].(requestExtension := Extension(data.originalDate, data.newDate, data.days, data.reason));
      Put(orderId, updated);
      Publish(OrderEmail(orderId, OrderExtension));
      NotifyPair(updated, updated.buyerUsername, MsgExtensionAsked, updated.sellerUsername, MsgExtensionSent, now);
      r := Success(updated);
    }

    /** approveDeliveryDateExtension: copies the date, days and reason passed
        into the offer, stamps the update and clears the proposal; an approval
        email, then notifications to the buyer and to the seller. */
    method ApproveDeliveryDateExtension(orderId: string, data: ExtensionRequest, now: Timestamp)
      returns (r: Result<Order>)
      requires Valid()
      modifies this, notes
      ensures Valid()
      ensures r.Success? <==> orderId in old(store)
      ensures r.Failure? ==>
        r.error == NotFound && store == old(store) && outbox == old(outbox) && notes.records == old(notes.records)
      ensures r.Success? ==>
        var o := old(store)[orderId];
        var n1 := NewRecord(|old(notes.records)|, r.value, o.buyerUsername, MsgExtensionApproved, now);
        var n2 := NewRecord(|old(notes.records)| + 1, r.value, o.sellerUsername, MsgExtensionApprovedBy, now);
        && r.value == o.(offer := o.offer.(newDeliveryDate := data.newDate, deliveryInDays := data.days, reason := data.reason),
                         events := o.events.(deliveryDateUpdate := Some(data.deliveryDateUpdate)),
                         requestExtension := NoExtension)
        && store == old(store)[orderId := r.value]
        && notes.records == old(notes.records) + [n1, n2]
        && outbox == old(outbox) +
             [OrderEmail(orderId, OrderExtensionApproval(true)), Pushed(r.value, n1), Pushed(r.value, n2)]
    {
      if orderId !in store {
        return Failure(NotFound);
      }
      var o := store[orderId];
      var updated := o.(offer := o.offer.(newDeliveryDate := data.newDate, deliveryInDays := data.days, reason := data.reason),
                        events := o.events.(deliveryDateUpdate := Some(data.deliveryDateUpdate)),
                        requestExtension := NoExtension);
      Put(orderId, updated);
      Publish(OrderEmail(orderId, OrderExtensionApproval(true)));
      NotifyPair(updated, updated.buyerUsername, MsgExtensionApproved, updated.sellerUsername, MsgExtensionApprovedBy, now);
      r := Success(updated);
    }

    /** rejectDeliveryDateExtension: clears only the proposal; a rejection
        email, then notifications to the seller and to the buyer. */
    method RejectDeliveryDateExtension(orderId: string, now: Timestamp) returns (r: Result<Order>)
      requires Valid()
      modifies this, notes
      ensures Valid()
      ensures r.Success? <==> orderId in old(store)
      ensures r.Failure? ==>
        r.error == NotFound && store == old(store) && outbox == old(outbox) && notes.records == old(notes.records)
      ensures r.Success? ==>
        var o := old(store)[orderId];
        var n1 := NewRecord(|old(notes.records)|, r.value, o.sellerUsername, MsgExtensionRejected, now);
        var n2 := NewRecord(|old(notes.records)| + 1, r.value, o.buyerUsername, MsgExtensionRejectedBy, now);
        && r.value == o.(requestExtension := NoExtension)
        && store == old(store)[orderId := r.value]
        && notes.records == old(notes.records) + [n1, n2]
        && outbox == old(outbox) +
             [OrderEmail(orderId, OrderExtensionApproval(false)), Pushed(r.value, n1), Pushed(r.value, n2)]
    {
      if orderId !in store {
        return Failure(NotFound);
      }
      var updated := store[orderId].(requestExtension := NoExtension);
      Put(orderId, updated);
      Publish(OrderEmail(orderId, OrderExtensionApproval(false)));
      NotifyPair(updated, updated.sellerUsername, MsgExtensionRejected, updated.buyerUsername, MsgExtensionRejectedBy, now);
      r := Success(updated);
    }
  }
}
