/**
 * The advisory signature check: the gateway signs `order_id + "|" + payment_id`
 * with HMAC-SHA256 under the shared key secret and sends the hex digest. The
 * digest function is left uninterpreted: it is a parameter, and only equality
 * with the provided signature matters.
 */
module Signature {
  import opened Optional

  /** HMAC-SHA256 rendered as hex: the first argument is the key, the second the message. */
  type Hmac = (string, string) -> string

  /** The key used when the secret is not configured. */
  const PlaceholderSecret: string := "dummy_secret"

  const Separator: char := '|'

  /** The configured key secret, or the placeholder when it is unset or empty. */
  function SigningSecret(configured: Option<string>): (secret: string)
    ensures secret != ""
    ensures configured.Some? && configured.value != "" ==> secret == configured.value
    ensures configured.None? || configured.value == "" ==> secret == PlaceholderSecret
  {
    if configured.Some? && configured.value != "" then configured.value else PlaceholderSecret
  }

  /** The message the gateway signs: the order id and the payment id around one separator. */
  function SignedPayload(orderId: string, paymentId: string): (payload: string)
    ensures |payload| == |orderId| + 1 + |paymentId|
    ensures payload[..|orderId|] == orderId
    ensures payload[|orderId|] == Separator
    ensures payload[|orderId| + 1..] == paymentId
  {
    orderId + [Separator] + paymentId
  }

  predicate SignatureMatches(hmac: Hmac, secret: string, orderId: string, paymentId: string, signature: string)
  {
    signature == hmac(secret, SignedPayload(orderId, paymentId))
  }

  /**
   * As long as order ids carry no separator (gateway ids never do), the signed
   * message determines both ids: a signature over one pair is never a
   * signature over another.
   */
  lemma PayloadDeterminesIds(orderId1: string, paymentId1: string, orderId2: string, paymentId2: string)
    requires Separator !in orderId1 && Separator !in orderId2
    requires SignedPayload(orderId1, paymentId1) == SignedPayload(orderId2, paymentId2)
    ensures orderId1 == orderId2 && paymentId1 == paymentId2
  {
  }
}
