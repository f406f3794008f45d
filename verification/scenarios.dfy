/**
 * Worked examples on one cart: `c1` holds one item and one 50-rupee shipping
 * method, and the callback is for order `order_1`, payment `pay_1`.
 */
module Scenarios {
  import opened Optional
  import opened Carts
  import opened Request
  import opened Signature
  import opened Reconcile
  import opened Retry

  const Cart1: Cart := Cart("c1", [LineItem("item_1", 1, 1200)], [ShippingMethod("ship_1", 50)], map[])

  const Store1: Store := map["c1" := Cart1]

  function CallbackFor(cartId: string, signature: string, paidAmount: int): Option<Body>
  {
    Some(Body(Some(cartId), Some("pay_1"), Some("order_1"), Some(signature), Some(paidAmount)))
  }

  /** The signature the gateway would send for `order_1` and `pay_1`. */
  function Genuine(cfg: Config): string
  {
    cfg.hmac(SigningSecret(cfg.keySecret), "order_1|pay_1")
  }

  /** 5000 paise for a 50-rupee fee, genuinely signed: both flags set, shipping removed, stamp records payment. */
  lemma PaidInFull(cfg: Config)
    requires Genuine(cfg) != ""
    ensures var run := Handle(CallbackFor("c1", Genuine(cfg), 5000), cfg, AllSucceed, Store1);
      && run.outcome.Replied? && run.outcome.reply.Accepted?
      && run.outcome.reply.report.signatureValid
      && run.outcome.reply.report.amountMatches
      && run.outcome.reply.report.expectedAmountPaise == 5000
      && run.outcome.reply.Message() == "SUCCESS: Shipping verified, removed + cart updated"
      && run.store["c1"].shippingMethods == []
      && run.store["c1"].metadata == map[
           ShippingPaidKey := MetaBool(true),
           ShippingPaidAmountKey := MetaInt(50),
           ShippingPaymentIdKey := MetaString("pay_1")]
  {
    var body := CallbackFor("c1", Genuine(cfg), 5000);
    assert Validate(body).Some?;
    HandleAllSucceed(body, cfg, Store1);
    assert SignedPayload("order_1", "pay_1") == "order_1|pay_1";
  }

  /** 4000 paise for the same fee: the amount flag is down, yet shipping is removed and the stamp records it unpaid. */
  lemma Underpaid(cfg: Config)
    requires Genuine(cfg) != ""
    ensures var run := Handle(CallbackFor("c1", Genuine(cfg), 4000), cfg, AllSucceed, Store1);
      && run.outcome.Replied? && run.outcome.reply.Accepted?
      && !run.outcome.reply.report.amountMatches
      && run.outcome.reply.report.receivedAmountPaise == 4000
      && run.store["c1"].shippingMethods == []
      && run.store["c1"].metadata[ShippingPaidKey] == MetaBool(false)
      && run.store["c1"].metadata[ShippingPaidAmountKey] == MetaInt(50)
  {
    var body := CallbackFor("c1", Genuine(cfg), 4000);
    assert Validate(body).Some?;
    HandleAllSucceed(body, cfg, Store1);
  }

  /** A forged signature is only flagged: the request still goes through. */
  lemma TamperedSignature(cfg: Config)
    requires Genuine(cfg) != "forged"
    ensures var run := Handle(CallbackFor("c1", "forged", 5000), cfg, AllSucceed, Store1);
      && run.outcome.Replied? && run.outcome.reply.Accepted?
      && !run.outcome.reply.report.signatureValid
      && run.store["c1"].shippingMethods == []
  {
    var body := CallbackFor("c1", "forged", 5000);
    assert Validate(body).Some?;
    HandleAllSucceed(body, cfg, Store1);
    assert SignedPayload("order_1", "pay_1") == "order_1|pay_1";
  }

  /** An unknown cart: 404 carrying the id, and nothing but the failed retrieval. */
  lemma UnknownCart(cfg: Config)
    ensures var run := Handle(CallbackFor("c2", "sig", 5000), cfg, AllSucceed, Store1);
      && run.outcome == Replied(Rejected(CartNotFound("c2")))
      && run.outcome.reply.Status() == 404
      && run.calls == [RetrieveCart("c2")]
      && run.store == Store1
  {
    var body := CallbackFor("c2", "sig", 5000);
    assert Validate(body).Some?;
    assert "c2" !in Store1;
  }

  /** An amount of 0 counts as missing: 400 before anything else. */
  lemma ZeroAmount(cfg: Config)
    ensures var run := Handle(CallbackFor("c1", "sig", 0), cfg, AllSucceed, Store1);
      && run.outcome.reply.Status() == 400
      && run.calls == []
      && run.store == Store1
  {
  }
}
