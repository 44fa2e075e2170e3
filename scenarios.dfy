/**
 * Client runs of the engine: the behaviours the order service promises,
 * stated over whole call sequences and proved from the operations' contracts.
 */
module Scenarios {
  import opened OrderTypes
  import opened NotificationService
  import opened OrderService
  import opened CreateController

  /** Create at price 2500, then verify with a successful gateway answer of
      2750: the fee is 250, the order moves from AWAITING_PAYMENT to
      PROCESSING and exactly one fulfilment is published. */
  method CreateThenVerify(body: Order, millis: string, entropy: string, t0: Timestamp, t1: Timestamp,
                          g: GatewayData)
    returns (engine: OrderEngine, reply: Reply, verified: Result<Order>)
    requires body.price == 2500 && g.status == "successful" && g.amount == 2750
    ensures engine.Valid()
    ensures reply.Responded? && reply.created.order.serviceFee == Some(250)
    ensures reply.created.order.status == AwaitingPayment
    ensures verified.Success? && verified.value.status == Processing
    ensures verified.value.orderId == body.orderId && verified.value.serviceFee == Some(250)
    ensures |engine.outbox| == 3 && engine.outbox[0] == SellerUpdate(body.orderId, body.sellerId, CreateOrderKind)
    ensures engine.outbox[1] == OrderEmail(body.orderId, OrderPlaced) && engine.outbox[2].Pushed?
    ensures |engine.notes.records| == 1 && engine.notes.records[0].record.userTo == body.sellerUsername
  {
    engine := new OrderEngine();
    reply := HandleCreate(engine, None, body, millis, entropy, t0, true);
    var txRef := reply.created.txRef;
    var o := engine.store[body.orderId];
    assert engine.store.Keys == {body.orderId};
    assert o.payment.txRef == Some(txRef) && ExpectedTotal(o) == 2750;
    assert UniqueTxRef(engine.store, txRef);
    assert CheckPayment(o, Some(g)).Success?;
    verified := engine.VerifyOrder(txRef, Some(g), t1);
  }

  /** Two verifications of one txRef in a row never fulfil the same order
      twice; when only one order carries the txRef and the gateway echoes it,
      the second fails on the status guard and publishes nothing. */
  method VerifyTwice(engine: OrderEngine, txRef: string, g: GatewayData, t1: Timestamp, t2: Timestamp)
    returns (first: Result<Order>, second: Result<Order>)
    requires engine.Valid()
    modifies engine, engine.notes
    ensures engine.Valid()
    ensures first.Success? ==> PlacedCount(engine.outbox, first.value.orderId) == 1
    ensures first.Success? && second.Success? ==> first.value.orderId != second.value.orderId
    ensures first.Success? && UniqueTxRef(old(engine.store), txRef) && g.txRef == txRef ==>
      second == Failure(StatusNotValid(Processing))
  {
    first := engine.VerifyOrder(txRef, Some(g), t1);
    if first.Success? {
      if UniqueTxRef(old(engine.store), txRef) && g.txRef == txRef {
        PaidKeepsTxRefUnique(old(engine.store), txRef, first.value.orderId, g);
      }
      second := VerifyAgain(engine, txRef, g, t2, first.value.orderId);
    } else {
      second := engine.VerifyOrder(txRef, Some(g), t2);
    }
  }

  /** The second verification of VerifyTwice, once order `k` is fulfilled:
      it cannot fulfil `k` again, and when `k` alone carries `txRef` it fails
      on the status guard. */
  method VerifyAgain(engine: OrderEngine, txRef: string, g: GatewayData, t: Timestamp, k: string)
    returns (second: Result<Order>)
    requires engine.Valid() && PlacedCount(engine.outbox, k) == 1
    modifies engine, engine.notes
    ensures engine.Valid()
    ensures PlacedCount(engine.outbox, k) == 1
    ensures second.Success? ==> second.value.orderId != k
    ensures k in old(engine.store) && old(engine.store)[k].payment.txRef == Some(txRef) &&
            old(engine.store)[k].status == Processing && UniqueTxRef(old(engine.store), txRef) ==>
      second == Failure(StatusNotValid(Processing))
  {
    FulfilledOrderFailsVerification(engine.store, engine.outbox, k, Some(g));
    ghost var before := engine.outbox;
    second := engine.VerifyOrder(txRef, Some(g), t);
    var more := engine.outbox[|before|..];
    assert before + more == engine.outbox;
    PlacedCountGrows(before, more, k);
    assert PlacedCount(engine.outbox, k) <= 1 by {
      assert FulfilledAtMostOnce(engine.store, engine.outbox);
    }
  }

  /** Several stored orders may share a txRef. When all of them are already
      PROCESSING, whichever one the lookup finds fails the status guard, so the
      verification fails with StatusNotValid(Processing) and changes nothing. */
  method VerifyAmongProcessed(engine: OrderEngine, txRef: string, gateway: Option<GatewayData>, t: Timestamp)
    returns (r: Result<Order>)
    requires engine.Valid() && HasTxRef(engine.store, txRef)
    requires forall k :: k in engine.store && engine.store[k].payment.txRef == Some(txRef) ==>
      engine.store[k].status == Processing
    modifies engine, engine.notes
    ensures r == Failure(StatusNotValid(Processing))
    ensures engine.store == old(engine.store) && engine.outbox == old(engine.outbox)
  {
    r := engine.VerifyOrder(txRef, gateway, t);
  }

  /** Marking the one order that carries `txRef` as paid with a gateway
      answer echoing `txRef` leaves it the only one. */
  lemma PaidKeepsTxRefUnique(store: map<string, Order>, txRef: string, k: string, g: GatewayData)
    requires UniqueTxRef(store, txRef) && k in store && store[k].payment.txRef == Some(txRef)
    requires g.txRef == txRef
    ensures UniqueTxRef(store[k := Paid(store[k], g)], txRef)
    ensures store[k := Paid(store[k], g)][k].payment.txRef == Some(txRef)
  {
  }

  /** Two verifications racing on one txRef: both pass the pre-check, then
      both try to commit. The compare-and-swap lets at most one fulfil a given
      order; with a single order carrying the txRef the loser fails with a
      conflict before anything is published. */
  method RacingVerifications(engine: OrderEngine, txRef: string, g: GatewayData, t1: Timestamp, t2: Timestamp)
    returns (won: Result<Order>, lost: Result<Order>)
    requires engine.Valid()
    modifies engine, engine.notes
    ensures engine.Valid()
    ensures won.Success? && lost.Success? ==> won.value.orderId != lost.value.orderId
    ensures won.Success? && UniqueTxRef(old(engine.store), txRef) && g.txRef == txRef ==>
      lost == Failure(ConcurrentModification)
  {
    var p1 := engine.VerifyPreCheck(txRef, Some(g));
    var p2 := engine.VerifyPreCheck(txRef, Some(g));
    if p1.Failure? || p2.Failure? {
      won := Failure(if p1.Failure? then p1.error else p2.error);
      lost := won;
      return;
    }
    won := engine.CompleteVerification(txRef, g, t1);
    ghost var mid := engine.store;
    if won.Success? && UniqueTxRef(old(engine.store), txRef) && g.txRef == txRef {
      assert !AwaitingWithTxRef(mid, txRef);
    }
    lost := engine.CompleteVerification(txRef, g, t2);
  }

  /** Delivering twice appends both work items after the earlier ones. */
  method DeliverTwice(engine: OrderEngine, orderId: string, w1: DeliveredWork, w2: DeliveredWork,
                      t1: Timestamp, t2: Timestamp)
    returns (first: Result<Order>, second: Result<Order>)
    requires engine.Valid() && orderId in engine.store
    modifies engine, engine.notes
    ensures engine.Valid()
    ensures first.Success? && second.Success?
    ensures second.value.deliveredWork == old(engine.store[orderId].deliveredWork) + [w1, w2]
    ensures |second.value.deliveredWork| == |old(engine.store[orderId].deliveredWork)| + 2
    ensures second.value.status == Delivered && second.value.events.orderDelivered == Some(t2)
  {
    first := engine.DeliverOrder(orderId, true, w1, t1);
    second := engine.DeliverOrder(orderId, true, w2, t2);
  }

  /** A second cancellation is refused and changes nothing: no second
      refund request, no write, no event. */
  method CancelTwice(engine: OrderEngine, orderId: string, data: OrderMessage, t1: Timestamp, t2: Timestamp)
    returns (first: Result<Order>, second: Result<Order>)
    requires engine.Valid() && orderId in engine.store && engine.store[orderId].status != Cancelled
    modifies engine, engine.notes
    ensures engine.Valid()
    ensures first.Success? && first.value.status == Cancelled && first.value.cancelled
    ensures second == Failure(AlreadyCancelled)
    ensures orderId in engine.store && engine.store[orderId] == first.value
  {
    first := engine.CancelOrder(orderId, data, false, t1);
    second := engine.CancelOrder(orderId, data, true, t2);
  }

  /** Delivery has no status guard: a cancelled order can still be delivered. */
  method DeliverAfterCancel(engine: OrderEngine, orderId: string, data: OrderMessage, w: DeliveredWork,
                            t1: Timestamp, t2: Timestamp)
    returns (cancelled: Result<Order>, delivered: Result<Order>)
    requires engine.Valid() && orderId in engine.store && engine.store[orderId].status != Cancelled
    modifies engine, engine.notes
    ensures engine.Valid()
    ensures cancelled.Success? && delivered.Success?
    ensures delivered.value.status == Delivered && delivered.value.cancelled
  {
    cancelled := engine.CancelOrder(orderId, data, true, t1);
    delivered := engine.DeliverOrder(orderId, true, w, t2);
  }

  /** Request then approve: the offer takes the approved terms and the
      proposal is cleared. Request then reject: the proposal is cleared and
      the offer is as it was. */
  method ExtensionAnswers(engine: OrderEngine, orderId: string, ask: ExtensionRequest, t: Timestamp)
    returns (approved: Result<Order>, rejected: Result<Order>)
    requires engine.Valid() && orderId in engine.store
    modifies engine, engine.notes
    ensures engine.Valid()
    ensures approved.Success? && rejected.Success?
    ensures approved.value.offer.newDeliveryDate == ask.newDate
    ensures approved.value.offer.deliveryInDays == ask.days && approved.value.offer.reason == ask.reason
    ensures approved.value.requestExtension == NoExtension
    ensures rejected.value.requestExtension == NoExtension
    ensures rejected.value.offer == approved.value.offer
  {
    var asked := engine.RequestDeliveryExtension(orderId, ask, t);
    approved := engine.ApproveDeliveryDateExtension(orderId, ask, t);
    asked := engine.RequestDeliveryExtension(orderId, ask, t);
    rejected := engine.RejectDeliveryDateExtension(orderId, t);
  }
}
