/*
 * The payment relay: `/create-order` turns a rupee amount into a gateway
 * order for that many paise, and `/verify` checks the gateway's payment
 * signature. The gateway's order API and HMAC-SHA256 are parameters: the
 * model fixes how they are called and how their answers are used, not what
 * they compute.
 */
module Server {
  import opened Amounts

  /** `Math.round(amount * 100)`: rupees to paise. */
  function ToPaise(amount: real): (paise: int)
    ensures paise as real - 0.5 <= amount * 100.0 < paise as real + 0.5
  {
    Round(amount * 100.0)
  }

  /** A whole number of rupees becomes exactly 100 times as many paise, and dividing by 100 gives it back. */
  lemma WholeRupeesToPaise(rupees: int)
    ensures ToPaise(rupees as real) == 100 * rupees
    ensures ToPaise(rupees as real) / 100 == rupees
  {
  }

  const Currency: string := "INR"

  /** What the relay asks the gateway for. */
  datatype GatewayRequest = GatewayRequest(amount: int, currency: string)

  /** The gateway's order object, returned to the browser as it is. */
  datatype GatewayOrder = GatewayOrder(id: string, amount: int, currency: string)

  /** The gateway's answer: an order, or an error with its message. */
  datatype GatewayReply = Created(order: GatewayOrder) | Failed(message: string)

  /** `/create-order`'s answer: the gateway order (200), or `500 {error, details}`. */
  datatype CreateOrderResponse =
    | OrderCreated(order: GatewayOrder)
    | CreateFailed(status: int, error: string, details: string)

  /** The request for `amount` rupees: converted to paise once, in rupees' currency, nothing else. */
  function OrderRequest(amount: real): (req: GatewayRequest)
    ensures req.currency == "INR"
    ensures req.amount as real - 0.5 <= amount * 100.0 < req.amount as real + 0.5
    ensures amount == amount.Floor as real ==> req.amount == 100 * amount.Floor
  {
    GatewayRequest(ToPaise(amount), Currency)
  }

  /**
   * `/create-order`: one call to the gateway; its order is passed back as it
   * is, and a failure becomes a 500 carrying the gateway's message.
   */
  function CreateOrder(amount: real, gateway: GatewayRequest -> GatewayReply): (r: CreateOrderResponse)
    ensures r.OrderCreated? <==> gateway(OrderRequest(amount)).Created?
    ensures r.OrderCreated? ==> r.order == gateway(OrderRequest(amount)).order
    ensures r.CreateFailed? ==>
      r.status == 500 && r.error == "Order creation failed" && r.details == gateway(OrderRequest(amount)).message
  {
    match gateway(OrderRequest(amount))
    case Created(order) => OrderCreated(order)
    case Failed(message) => CreateFailed(500, "Order creation failed", message)
  }

  /** HMAC-SHA256 as a hex digest: `(key, message) -> signature`. */
  type Hmac = (string, string) -> string

  /** The body of `/verify`. */
  datatype VerifyRequest = VerifyRequest(orderId: string, paymentId: string, signature: string)

  datatype VerifyResponse = VerifyResponse(status: int, success: bool)

  /** The signed message `order_id + "|" + payment_id`. */
  function SignedMessage(orderId: string, paymentId: string): (m: string)
    ensures |m| == |orderId| + 1 + |paymentId|
    ensures m[..|orderId|] == orderId && m[|orderId|] == '|' && m[|orderId| + 1..] == paymentId
  {
    orderId + "|" + paymentId
  }

  /**
   * Two (order, payment) pairs whose order ids hold no `|` sign the same
   * message only when they are the same pair.
   */
  lemma SignedMessageInjective(o1: string, p1: string, o2: string, p2: string)
    requires '|' !in o1 && '|' !in o2
    requires SignedMessage(o1, p1) == SignedMessage(o2, p2)
    ensures o1 == o2 && p1 == p2
  {
  }

  /** Without that condition two different pairs can sign the same message. */
  lemma SignedMessageAmbiguous()
    ensures SignedMessage("a|b", "c") == SignedMessage("a", "b|c")
  {
  }

  /**
   * `/verify`: 200 with success exactly when the keyed HMAC of the message
   * equals the supplied signature, else 400 with failure.
   */
  function Verify(hmac: Hmac, secret: string, req: VerifyRequest): (r: VerifyResponse)
    ensures r.success <==> hmac(secret, SignedMessage(req.orderId, req.paymentId)) == req.signature
    ensures r.status == if r.success then 200 else 400
  {
    var expected := hmac(secret, SignedMessage(req.orderId, req.paymentId));
    if expected == req.signature then VerifyResponse(200, true) else VerifyResponse(400, false)
  }
}
