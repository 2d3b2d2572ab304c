/** The status-code rules by which the orchestrator's HTTP adapters turn a reply into a value or an exception. */
module HttpAdapters {
  import opened Common

  type Id = string

  datatype PaymentStatus = Authorized | Declined | Refunded
  datatype ReservationStatus = Reserved | OutOfStock

  /** Reply bodies; `Detail` is FastAPI's error body, which has none of the keys the saga looks up. */
  datatype Body =
    | PaymentBody(paymentId: Id, paymentStatus: PaymentStatus)
    | ReservationBody(reservationId: Id, reservationStatus: ReservationStatus)
    | Detail

  datatype Response = Response(status: nat, body: Body)

  /** `HttpPaymentService.authorize` and `HttpInventoryService.reserve`: 5xx and 422 raise. */
  function Strict(r: Response): Outcome<Body> {
    if r.status >= 500 then Raise
    else if r.status == 422 then Raise
    else Return(r.body)
  }

  /** `HttpPaymentService.refund`: only 5xx raises, so a 404 comes back as an ordinary value. */
  function Lenient(r: Response): Outcome<Body> {
    if r.status >= 500 then Raise else Return(r.body)
  }

  /** The two rules agree on every reply but a 422, which only the refund lets through; below 500 a refund never raises. */
  lemma {:induction false} RulesDiffer(status: nat, body: Body)
    ensures Strict(Response(status, body)) == Lenient(Response(status, body)) <==> status != 422
    ensures status < 500 ==> Lenient(Response(status, body)) == Return(body)
    ensures status >= 500 ==> Strict(Response(status, body)) == Lenient(Response(status, body)) == Raise
    ensures status == 422 ==> Strict(Response(status, body)) == Raise
  {
  }
}
