/**
 * Repeated callbacks. The handler takes no lock and keeps no record of the
 * callbacks it has seen, so a second delivery of the same callback runs the
 * whole flow again on whatever the first one left behind.
 *
 * On a cart that had no shipping method to begin with, the second run is an
 * exact repeat. On a cart whose shipping method the first run removed, the
 * second run skips the clear but computes the amount check from the cart's
 * new shipping total, which is 0: it overwrites the stamp with
 * `shipping_paid = false` and `shipping_paid_amount = 0`, erasing the record
 * that the shipping fee was paid. `HandleRetrySafe` keeps an existing stamp
 * for the same payment id instead, and a repeated callback then changes
 * nothing. A retry after a first run whose metadata write failed is not
 * helped by that: the clear is committed and no stamp exists, so both
 * handlers record the fee as unpaid with amount 0.
 */
module Retry {
  import opened Optional
  import opened Carts
  import opened Request
  import opened Signature
  import opened Reconcile
  import opened ReconcileProperties

  /** Every external call succeeds and every query returns the cart's row. */
  const AllSucceed: Oracle := Oracle(Succeeds, Succeeds, Rows, Succeeds, Succeeds, Rows)

  /** Under an oracle where nothing fails, the handler always answers `ok: true` for a known cart. */
  lemma AllSucceedAccepts(body: Option<Body>, cfg: Config, store: Store)
    requires Validate(body).Some? && Validate(body).value.cartId in store
    ensures Succeeded(Handle(body, cfg, AllSucceed, store))
    ensures Succeeded(HandleRetrySafe(body, cfg, AllSucceed, store))
  {
    var cb := Validate(body).value;
    HandleReachesSettle(body, cfg, AllSucceed, store);
    SettleShape(cb, SignatureMatches(cfg.hmac, SigningSecret(cfg.keySecret), cb.orderId, cb.paymentId, cb.signature),
      AllSucceed, store, [RetrieveCart(cb.cartId), QueryTotals(cb.cartId)]);
  }

  /** The cart as a run that goes through leaves it: no shipping method, and the stamp merged in unless it is kept. */
  function Reconciled(cart: Cart, cb: Callback, keep: bool): Cart
  {
    cart.(shippingMethods := [], metadata := if keep then cart.metadata else cart.metadata + StampFor(cb, cart))
  }

  /** When nothing fails, the handler as written ends in closed form. */
  lemma HandleAllSucceed(body: Option<Body>, cfg: Config, store: Store)
    requires Validate(body).Some? && Validate(body).value.cartId in store
    ensures var cb := Validate(body).value;
      var cart := store[cb.cartId];
      var run := Handle(body, cfg, AllSucceed, store);
      && Succeeded(run)
      && run.store == store[cb.cartId := Reconciled(cart, cb, false)]
      && run.calls == FullTrace(cb.cartId, cart.shippingMethods != [], StampFor(cb, cart))
      && run.outcome.reply.report == Assess(
           cb, SignatureMatches(cfg.hmac, SigningSecret(cfg.keySecret), cb.orderId, cb.paymentId, cb.signature),
           TotalsOf(cart))
  {
    var cb := Validate(body).value;
    AllSucceedAccepts(body, cfg, store);
    TraceOrder(body, cfg, AllSucceed, store);
    var run := Handle(body, cfg, AllSucceed, store);
    assert run.store[cb.cartId] == Reconciled(store[cb.cartId], cb, false);
  }

  /** When nothing fails, the corrected handler ends in closed form. */
  lemma HandleRetrySafeAllSucceed(body: Option<Body>, cfg: Config, store: Store)
    requires Validate(body).Some? && Validate(body).value.cartId in store
    ensures var cb := Validate(body).value;
      var cart := store[cb.cartId];
      var run := HandleRetrySafe(body, cfg, AllSucceed, store);
      && Succeeded(run)
      && run.store == store[cb.cartId := Reconciled(cart, cb, StampedBy(cart, cb.paymentId))]
  {
    var cb := Validate(body).value;
    AllSucceedAccepts(body, cfg, store);
    var run := HandleRetrySafe(body, cfg, AllSucceed, store);
    assert run.store[cb.cartId] == Reconciled(store[cb.cartId], cb, StampedBy(store[cb.cartId], cb.paymentId));
  }

  /**
   * A callback delivered twice for a cart that had no shipping method: neither
   * run issues the clear, and the second run repeats the first exactly, with
   * the same calls, the same answer and the same store.
   */
  lemma RerunOnClearedCart(body: Option<Body>, cfg: Config, store: Store)
    requires Validate(body).Some? && Validate(body).value.cartId in store
    requires store[Validate(body).value.cartId].shippingMethods == []
    ensures var cartId := Validate(body).value.cartId;
      var first := Handle(body, cfg, AllSucceed, store);
      var second := Handle(body, cfg, AllSucceed, first.store);
      && Succeeded(first) && Succeeded(second)
      && UpdateCart(ClearShippingMethods(cartId)) !in first.calls
      && second.calls == first.calls
      && second.outcome == first.outcome
      && second.store == first.store
  {
    var cb := Validate(body).value;
    var cart := store[cb.cartId];
    var first := Handle(body, cfg, AllSucceed, store);
    HandleAllSucceed(body, cfg, store);
    HandleAllSucceed(body, cfg, first.store);
    var cart' := Reconciled(cart, cb, false);
    assert StampFor(cb, cart') == StampFor(cb, cart);
    assert cart'.metadata + StampFor(cb, cart) == cart'.metadata;
    assert Reconciled(cart', cb, false) == cart';
    assert TotalsOf(cart') == TotalsOf(cart);
  }

  /**
   * A callback delivered twice for a cart whose shipping methods add up to 0:
   * the first run clears them and the second finds none, but both assess the
   * same total of 0, so the second run repeats the answer and the store.
   */
  lemma RerunOnFreeShipping(body: Option<Body>, cfg: Config, store: Store)
    requires Validate(body).Some? && Validate(body).value.cartId in store
    requires MethodsTotal(store[Validate(body).value.cartId].shippingMethods) == 0
    ensures var first := Handle(body, cfg, AllSucceed, store);
      var second := Handle(body, cfg, AllSucceed, first.store);
      && Succeeded(first) && Succeeded(second)
      && second.outcome == first.outcome
      && second.store == first.store
    ensures var cartId := Validate(body).value.cartId;
      var clear := UpdateCart(ClearShippingMethods(cartId));
      var first := Handle(body, cfg, AllSucceed, store);
      var second := Handle(body, cfg, AllSucceed, first.store);
      && clear !in second.calls
      && (clear in first.calls <==> store[cartId].shippingMethods != [])
  {
    var cb := Validate(body).value;
    var cart := store[cb.cartId];
    var first := Handle(body, cfg, AllSucceed, store);
    HandleAllSucceed(body, cfg, store);
    HandleAllSucceed(body, cfg, first.store);
    var cart' := Reconciled(cart, cb, false);
    assert StampFor(cb, cart') == StampFor(cb, cart);
    assert cart'.metadata + StampFor(cb, cart) == cart'.metadata;
    assert Reconciled(cart', cb, false) == cart';
    assert TotalsOf(cart').shippingTotal == TotalsOf(cart).shippingTotal;
    FullTraceClears(cb.cartId, cart.shippingMethods != [], StampFor(cb, cart));
    FullTraceClears(cb.cartId, false, StampFor(cb, cart'));
  }

  /** The full trace holds the clear exactly when it is asked to. */
  lemma FullTraceClears(cartId: CartId, clears: bool, stamp: Metadata)
    ensures UpdateCart(ClearShippingMethods(cartId)) in FullTrace(cartId, clears, stamp) <==> clears
  {
    var full := FullTrace(cartId, clears, stamp);
    if clears {
      assert full[2] == UpdateCart(ClearShippingMethods(cartId));
    } else {
      assert full == [RetrieveCart(cartId), QueryTotals(cartId), UpdateCart(MergeMetadata(cartId, stamp)), RequeryTotals(cartId)];
    }
  }

  /**
   * A callback delivered twice for any known cart: the second run finds no
   * shipping method and skips the clear, still answers `ok: true`, and
   * overwrites the same three keys rather than adding any.
   */
  lemma RerunSkipsClear(body: Option<Body>, cfg: Config, store: Store)
    requires Validate(body).Some? && Validate(body).value.cartId in store
    ensures var cartId := Validate(body).value.cartId;
      var first := Handle(body, cfg, AllSucceed, store);
      var second := Handle(body, cfg, AllSucceed, first.store);
      && Succeeded(first) && Succeeded(second)
      && UpdateCart(ClearShippingMethods(cartId)) !in second.calls
      && second.store[cartId].shippingMethods == []
      && second.store[cartId].metadata.Keys == first.store[cartId].metadata.Keys
  {
    var cb := Validate(body).value;
    var first := Handle(body, cfg, AllSucceed, store);
    HandleAllSucceed(body, cfg, store);
    HandleAllSucceed(body, cfg, first.store);
  }

  /**
   * As written, the second delivery of a callback that paid the shipping fee
   * in full rewrites the stamp as unpaid: the first run records
   * `shipping_paid = true` with the fee, the second `shipping_paid = false`
   * with 0, and answers `amount_matches: false` with an expected amount of 0.
   */
  lemma RerunErasesPaidStamp(body: Option<Body>, cfg: Config, store: Store)
    requires Validate(body).Some? && Validate(body).value.cartId in store
    requires var cb := Validate(body).value;
      var fee := MethodsTotal(store[cb.cartId].shippingMethods);
      fee != 0 && cb.paidAmount == fee * 100
    ensures var cb := Validate(body).value;
      var fee := MethodsTotal(store[cb.cartId].shippingMethods);
      var first := Handle(body, cfg, AllSucceed, store);
      var second := Handle(body, cfg, AllSucceed, first.store);
      && Succeeded(first) && Succeeded(second)
      && first.store[cb.cartId].metadata[ShippingPaidKey] == MetaBool(true)
      && first.store[cb.cartId].metadata[ShippingPaidAmountKey] == MetaInt(fee)
      && second.store[cb.cartId].metadata[ShippingPaidKey] == MetaBool(false)
      && second.store[cb.cartId].metadata[ShippingPaidAmountKey] == MetaInt(0)
      && !second.outcome.reply.report.amountMatches
      && second.outcome.reply.report.expectedAmountPaise == 0
  {
    var cb := Validate(body).value;
    var first := Handle(body, cfg, AllSucceed, store);
    HandleAllSucceed(body, cfg, store);
    HandleAllSucceed(body, cfg, first.store);
  }

  /**
   * With the stamp kept, a repeated callback changes nothing: the second run
   * leaves the store exactly as the first left it, and the first run's stamp
   * still says what the amount check concluded on the cart as it was.
   */
  lemma RetrySafeRerunKeepsStamp(body: Option<Body>, cfg: Config, store: Store)
    requires Validate(body).Some? && Validate(body).value.cartId in store
    requires !StampedBy(store[Validate(body).value.cartId], Validate(body).value.paymentId)
    ensures var cb := Validate(body).value;
      var fee := MethodsTotal(store[cb.cartId].shippingMethods);
      var first := HandleRetrySafe(body, cfg, AllSucceed, store);
      var second := HandleRetrySafe(body, cfg, AllSucceed, first.store);
      && Succeeded(first) && Succeeded(second)
      && second.store == first.store
      && second.store[cb.cartId].shippingMethods == []
      && second.store[cb.cartId].metadata[ShippingPaidKey] == MetaBool(cb.paidAmount == fee * 100)
      && second.store[cb.cartId].metadata[ShippingPaidAmountKey] == MetaInt(fee)
  {
    var cb := Validate(body).value;
    var cart := store[cb.cartId];
    var first := HandleRetrySafe(body, cfg, AllSucceed, store);
    HandleRetrySafeAllSucceed(body, cfg, store);
    HandleRetrySafeAllSucceed(body, cfg, first.store);
    var cart' := Reconciled(cart, cb, false);
    assert StampedBy(cart', cb.paymentId);
    assert Reconciled(cart', cb, true) == cart';
  }

  /**
   * The corrected handler differs from the one as written only on a cart that
   * already carries a stamp from the same payment: on every first delivery
   * the two agree on the answer, the calls and the store.
   */
  lemma RetrySafeAgreesOnFirstDelivery(body: Option<Body>, cfg: Config, oracle: Oracle, store: Store)
    requires Validate(body).Some? && Validate(body).value.cartId in store ==>
      !StampedBy(store[Validate(body).value.cartId], Validate(body).value.paymentId)
    ensures HandleRetrySafe(body, cfg, oracle, store) == Handle(body, cfg, oracle, store)
  {
  }

  /** Every call succeeds except the metadata write, which throws with `message`. */
  function StampFails(message: string): Oracle
  {
    AllSucceed.(writeMetadata := Throws(message))
  }

  /**
   * A retry after the metadata write failed: the first run answers 500 with
   * the shipping methods already removed and no stamp written; the retry,
   * with the stamp kept or not, succeeds and records the fee as unpaid with
   * amount 0, whatever was paid.
   */
  lemma RetryAfterMetadataFailure(body: Option<Body>, cfg: Config, message: string, store: Store)
    requires Validate(body).Some? && Validate(body).value.cartId in store
    requires MethodsTotal(store[Validate(body).value.cartId].shippingMethods) != 0
    requires !StampedBy(store[Validate(body).value.cartId], Validate(body).value.paymentId)
    ensures var cb := Validate(body).value;
      var first := Handle(body, cfg, StampFails(message), store);
      var retried := Handle(body, cfg, AllSucceed, first.store);
      var retriedSafe := HandleRetrySafe(body, cfg, AllSucceed, first.store);
      && first.outcome == Replied(Rejected(MetadataUpdateFailed(message)))
      && first.outcome.reply.Status() == 500
      && first.store[cb.cartId].shippingMethods == []
      && first.store[cb.cartId].metadata == store[cb.cartId].metadata
      && Succeeded(retried) && Succeeded(retriedSafe)
      && retriedSafe.store == retried.store
      && retried.store[cb.cartId].metadata[ShippingPaidKey] == MetaBool(false)
      && retried.store[cb.cartId].metadata[ShippingPaidAmountKey] == MetaInt(0)
  {
    var cb := Validate(body).value;
    var signatureValid :=
      SignatureMatches(cfg.hmac, SigningSecret(cfg.keySecret), cb.orderId, cb.paymentId, cb.signature);
    HandleReachesSettle(body, cfg, StampFails(message), store);
    SettleShape(cb, signatureValid, StampFails(message), store, [RetrieveCart(cb.cartId), QueryTotals(cb.cartId)]);
    var first := Handle(body, cfg, StampFails(message), store);
    assert first.store == Apply(store, ClearShippingMethods(cb.cartId));
    HandleAllSucceed(body, cfg, first.store);
    HandleRetrySafeAllSucceed(body, cfg, first.store);
  }
}
