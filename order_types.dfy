/**
 * The order document and the errors of the order service, as values.
 * Field names follow the persisted order record; the payment sub-record is the
 * gateway ("flutterwave") part of the document.
 */
module OrderTypes {

  datatype Option<+T> = None | Some(value: T)

  /** Instants are opaque: only their order matters (newest-first listings). */
  type Timestamp = int

  /** The string-valued `status` field. `Other` holds any other value a create payload
      may carry before `createOrder` overwrites it. */
  datatype Status =
    | AwaitingPayment   // 'AWAITING_PAYMENT'
    | Processing        // 'PROCESSING'
    | Delivered         // 'DELIVERED'
    | Completed         // 'Completed'
    | Cancelled         // 'CANCELLED'
    | Other(name: string)

  /** The payment sub-record; every field may be absent (`data.flutterwave || {}`). */
  datatype Payment = Payment(
    txRef: Option<string>,
    transactionId: Option<string>,
    gatewayStatus: Option<string>,
    paymentMethod: Option<string>,
    fee: Option<int>)

  /** The offer snapshot: the delivery terms an extension approval rewrites. */
  datatype Offer = Offer(
    gigTitle: string,
    description: string,
    deliveryInDays: int,
    oldDeliveryDate: string,
    newDeliveryDate: string,
    reason: string)

  /** A pending delivery-date change proposal. */
  datatype Extension = Extension(originalDate: string, newDate: string, days: int, reason: string)

  /** The sentinel both extension answers write: {'', '', 0, ''}. */
  const NoExtension := Extension("", "", 0, "")

  datatype DeliveredWork = DeliveredWork(
    message: string, file: string, fileType: string, fileSize: int, fileName: string)

  /** The two milestone stamps the lifecycle operations write. */
  datatype Events = Events(orderDelivered: Option<Timestamp>, deliveryDateUpdate: Option<Timestamp>)

  datatype Order = Order(
    orderId: string,
    invoiceId: string,
    sellerId: string,
    sellerUsername: string,
    sellerImage: string,
    buyerId: string,
    buyerUsername: string,
    buyerImage: string,
    offer: Offer,
    price: nat,
    serviceFee: Option<nat>,
    requirements: string,
    status: Status,
    approved: bool,
    cancelled: bool,
    delivered: bool,
    approvedAt: Option<Timestamp>,
    paymentIntent: Option<string>,
    payment: Payment,
    requestExtension: Extension,
    deliveredWork: seq<DeliveredWork>,
    events: Events,
    createdAt: Timestamp)

  /** The amount the gateway must report: `price + (serviceFee ?? 0)`. */
  function ExpectedTotal(o: Order): (total: int)
    ensures total >= o.price
    ensures o.serviceFee.None? ==> total == o.price
  {
    o.price + match o.serviceFee { case Some(f) => f case None => 0 }
  }

  /** JavaScript truthiness of an optional string: present and non-empty. */
  predicate Truthy(s: Option<string>) {
    s.Some? && s.value != ""
  }

  /** Why an operation failed. Each comment names the error class the service throws. */
  datatype Failure =
    | NotFound                                       // NotFoundError
    | StatusNotValid(current: Status)                // BadRequestError
    | PaymentNotSuccessful(gatewayStatus: string)    // BadRequestError
    | AmountMismatch(expected: int, received: int)   // BadRequestError
    | ConcurrentModification                         // BadRequestError
    | CreateFailed                                   // BadRequestError
    | ValidationFailed(message: string)              // BadRequestError
    | AlreadyCancelled                               // plain Error
    | GatewayUnavailable                             // the rejected gateway call, propagated

  datatype Result<+T> = Success(value: T) | Failure(error: Failure)
}
