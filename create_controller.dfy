/**
 * The order-creation handler: validation, the service-fee rule, the payload
 * handed to createOrder, and the reply or forwarded error.
 */
module CreateController {
  import opened OrderTypes
  import opened OrderService

  const StatusCreated := 201

  /** `price < 1000 ? 100 : Math.round(price * 0.1)`, on whole prices: the
      rounding of price / 10 to the nearest whole number, halves upwards. */
  function ServiceFee(price: nat): (fee: nat)
    ensures price < 1000 ==> fee == 100
    ensures price >= 1000 ==> 10 * fee - 5 <= price < 10 * fee + 5
    ensures fee >= 100
  {
    if price < 1000 then 100 else (price + 5) / 10
  }

  /** `{...body, serviceFee}`: the request body with only the fee set. */
  function WithServiceFee(body: Order): (payload: Order)
    ensures payload.serviceFee == Some(ServiceFee(body.price))
    ensures payload.(serviceFee := body.serviceFee) == body
  {
    body.(serviceFee := Some(ServiceFee(body.price)))
  }

  /** What the handler does with the request: a 201 reply carrying the
      created order, or the error forwarded to the next handler with no status set. */
  datatype Reply =
    | Responded(status: int, message: string, created: Created)
    | Forwarded(error: Failure)

  /** The create handler. `validationError` is the first validation message,
      if any; the remaining parameters are handed through to createOrder. */
  method HandleCreate(engine: OrderEngine, validationError: Option<string>, body: Order,
                      millis: string, entropy: string, now: Timestamp, insertOk: bool)
    returns (reply: Reply)
    requires engine.Valid()
    modifies engine
    ensures engine.Valid() && engine.outbox == old(engine.outbox)
    ensures validationError.Some? ==>
      reply == Forwarded(ValidationFailed(validationError.value)) && engine.store == old(engine.store)
    ensures validationError.None? ==>
      (reply.Responded? <==> insertOk && body.orderId !in old(engine.store))
    ensures reply.Forwarded? ==> engine.store == old(engine.store)
    ensures validationError.None? && reply.Forwarded? ==> reply.error == CreateFailed
    ensures reply.Responded? ==>
      && reply.status == StatusCreated
      && reply.message == "Order created successfully"
      && reply.created.txRef == GenerateTxRef(body.orderId, millis, entropy)
      && reply.created.order.serviceFee == Some(ServiceFee(body.price))
      && reply.created.order.status == AwaitingPayment
      && reply.created.order.paymentIntent == None
      && reply.created.order.payment == body.payment.(txRef := Some(reply.created.txRef))
      && reply.created.order.(serviceFee := body.serviceFee, status := body.status,
                              paymentIntent := body.paymentIntent, payment := body.payment,
                              createdAt := body.createdAt) == body
      && engine.store == old(engine.store)[body.orderId := reply.created.order]
  {
    if validationError.Some? {
      return Forwarded(ValidationFailed(validationError.value));
    }
    var payload := WithServiceFee(body);
    var result := engine.CreateOrder(payload, millis, entropy, now, insertOk);
    match result
    case Success(created) =>
      reply := Responded(StatusCreated, "Order created successfully", created);
    case Failure(e) =>
      reply := Forwarded(e);
  }

  /** The fee values the creation tests expect. */
  lemma FeeExamples()
    ensures ServiceFee(850) == 100
    ensures ServiceFee(2500) == 250
    ensures ServiceFee(1500) == 150
  {
  }
}
