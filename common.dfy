/** Option and Result datatypes shared by every service model. */
module Wrappers {

  /** A value that may be absent: a JSON field left out, a row not found. */
  datatype Option<+T> = None | Some(value: T)

  /** The outcome of a handler: the value it reports, or the error category it answers with. */
  datatype Result<+T, +E> = Success(value: T) | Failure(error: E)
}

/** The JSON bodies that the checkout page sends to the payment service. */
module Api {

  /** Body of POST /v1/payments/make, as the page builds it and as the service decodes it. */
  datatype PaymentRequest = PaymentRequest(
    reservationId: int,
    paymentMethod: string,
    userId: int,
    totalCost: real,
    membershipDiscount: real,
    promoDiscount: real)

  /** Body of POST /v1/promotions/apply. */
  datatype PromoRequest = PromoRequest(promoCode: string, reservationId: int)
}
