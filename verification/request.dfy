/**
 * The callback body the storefront posts after the gateway's checkout, and
 * the presence check that opens the handler: each of the five fields must be
 * present and truthy in the JavaScript sense, so an empty string and an amount
 * of 0 count as missing.
 */
module Request {
  import opened Optional
  import opened Carts

  /** The request body; every field may be absent. `paidAmount` is in paise. */
  datatype Body = Body(
    cartId: Option<string>,
    paymentId: Option<string>,
    orderId: Option<string>,
    signature: Option<string>,
    paidAmount: Option<int>)

  /** What a missing body (`req.body || {}`) reads as. */
  const EmptyBody := Body(None, None, None, None, None)

  /** A callback whose five fields all passed the presence check. */
  datatype Callback = Callback(
    cartId: CartId,
    paymentId: string,
    orderId: string,
    signature: string,
    paidAmount: int)

  predicate Present(field: Option<string>)
  {
    field.Some? && field.value != ""
  }

  predicate PresentAmount(field: Option<int>)
  {
    field.Some? && field.value != 0
  }

  /**
   * The callback carried by the body, or None when some field is absent or
   * falsy (an empty string, an amount of 0, or no body at all).
   */
  function Validate(body: Option<Body>): (cb: Option<Callback>)
    ensures cb.None? <==>
      || body.None?
      || body.value.cartId == None || body.value.cartId == Some("")
      || body.value.paymentId == None || body.value.paymentId == Some("")
      || body.value.orderId == None || body.value.orderId == Some("")
      || body.value.signature == None || body.value.signature == Some("")
      || body.value.paidAmount == None || body.value.paidAmount == Some(0)
    ensures cb.Some? ==>
      && body.Some?
      && body.value.cartId == Some(cb.value.cartId)
      && body.value.paymentId == Some(cb.value.paymentId)
      && body.value.orderId == Some(cb.value.orderId)
      && body.value.signature == Some(cb.value.signature)
      && body.value.paidAmount == Some(cb.value.paidAmount)
  {
    var fields := if body.Some? then body.value else EmptyBody;
    if && Present(fields.cartId)
       && Present(fields.paymentId)
       && Present(fields.orderId)
       && Present(fields.signature)
       && PresentAmount(fields.paidAmount)
    then
      Some(Callback(
        fields.cartId.value,
        fields.paymentId.value,
        fields.orderId.value,
        fields.signature.value,
        fields.paidAmount.value))
    else
      None
  }
}
