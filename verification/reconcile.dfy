/**
 * The partial-COD reconciliation handler: a strictly sequential pass over one
 * cart. Every external call can fail, and the failure oracle says which one
 * does; a failure ends the request at once and nothing already committed is
 * rolled back. A run yields the outcome, the store afterwards, and the calls
 * into the cart subsystem in the order they were issued.
 */
module Reconcile {
  import opened Optional
  import opened Carts
  import opened Request
  import opened Signature

  /** How one external call behaves in this request; a thrown error carries its message. */
  datatype Step = Succeeds | Throws(message: string)

  /** How a totals query behaves: it returns the cart's row, returns no row, or throws. */
  datatype QueryStep = Rows | NoRow | QueryThrows(message: string)

  /** The failure oracle: the behaviour of each external call of one request. */
  datatype Oracle = Oracle(
    resolveCartModule: Step,
    retrieveCart: Step,
    queryTotals: QueryStep,
    clearShipping: Step,
    writeMetadata: Step,
    requeryTotals: QueryStep)

  /** Process configuration: the gateway key secret (possibly unset) and the digest function. */
  datatype Config = Config(keySecret: Option<string>, hmac: Hmac)

  /** A call into the cart subsystem. */
  datatype Call =
    | RetrieveCart(cartId: CartId)
    | QueryTotals(cartId: CartId)
    | UpdateCart(update: CartUpdate)
    | RequeryTotals(cartId: CartId)

  /** Every way the handler answers with `ok: false`. */
  datatype Failure =
    | MissingFields
    | CartModuleUnresolved(error: string)
    | CartNotFound(cartId: CartId)
    | TotalsUnavailable(error: string)
    | ShippingRemovalFailed(error: string)
    | MetadataUpdateFailed(error: string)
  {
    function Status(): int
    {
      match this
      case MissingFields => 400
      case CartNotFound(_) => 404
      case _ => 500
    }

    function Message(): string
    {
      match this
      case MissingFields => "Missing required fields"
      case CartModuleUnresolved(_) => "Could not resolve cart module"
      case CartNotFound(_) => "Cart not found"
      case TotalsUnavailable(_) => "Failed to load cart totals"
      case ShippingRemovalFailed(_) => "Failed to remove shipping method"
      case MetadataUpdateFailed(_) => "Failed to update cart metadata"
    }
  }

  /** What the re-query left in `updatedTotals`: the row, `null` after a throw, or nothing when no row came back. */
  datatype Refetch = Refetched(snapshot: TotalsSnapshot) | RefetchNull | RefetchUndefined

  /** The fields of an `ok: true` answer other than `updatedTotals`. */
  datatype Report = Report(
    signatureValid: bool,
    amountMatches: bool,
    expectedAmountPaise: int,
    receivedAmountPaise: int,
    shippingBefore: int)

  datatype Reply =
    | Rejected(failure: Failure)
    | Accepted(report: Report, updatedTotals: Refetch)
  {
    /** The `message` field of the answer. */
    function Message(): string
    {
      match this
      case Rejected(f) => f.Message()
      case Accepted(_, _) => SuccessMessage
    }

    function Status(): int
    {
      match this
      case Rejected(f) => f.Status()
      case Accepted(_, _) => 200
    }
  }

  /** A request either gets a reply or ends in an error the handler does not catch. */
  datatype Outcome = Replied(reply: Reply) | Unhandled

  datatype Run = Run(outcome: Outcome, store: Store, calls: seq<Call>)

  /** Whether a request that repeats a payment already stamped on the cart writes the stamp again. */
  datatype StampPolicy = AlwaysStamp | KeepExistingStamp

  const SuccessMessage: string := "SUCCESS: Shipping verified, removed + cart updated"

  /** Minor units (paise) per major unit (rupee). */
  const PaisePerUnit: int := 100

  const ShippingPaidKey: string := "shipping_paid"
  const ShippingPaidAmountKey: string := "shipping_paid_amount"
  const ShippingPaymentIdKey: string := "shipping_payment_id"

  predicate Succeeded(run: Run)
  {
    run.outcome.Replied? && run.outcome.reply.Accepted?
  }

  predicate Failed(run: Run)
  {
    run.outcome.Replied? && run.outcome.reply.Rejected?
  }

  /** The run ended on a failure raised before any update was attempted. */
  predicate EndedBeforeUpdates(run: Run)
  {
    || run.outcome.Unhandled?
    || (Failed(run) && (run.outcome.reply.failure.CartModuleUnresolved? || run.outcome.reply.failure.CartNotFound?
        || run.outcome.reply.failure.TotalsUnavailable?))
  }

  /** The run ended because an update call threw. */
  predicate UpdateThrew(run: Run)
  {
    Failed(run) && (run.outcome.reply.failure.ShippingRemovalFailed? || run.outcome.reply.failure.MetadataUpdateFailed?)
  }

  /** The calls hold no update to the cart subsystem. */
  predicate NoUpdates(calls: seq<Call>)
  {
    Mutations(calls) == []
  }

  /** The updates among a sequence of calls, in order. */
  function Mutations(calls: seq<Call>): (us: seq<CartUpdate>)
    ensures |us| <= |calls|
    ensures forall u :: u in us <==> UpdateCart(u) in calls
  {
    if calls == [] then []
    else if calls[0].UpdateCart? then [calls[0].update] + Mutations(calls[1..])
    else Mutations(calls[1..])
  }

  /** `shipping_total || 0`. */
  function ShippingTotalOrZero(shippingTotal: Option<int>): int
  {
    if shippingTotal.Some? then shippingTotal.value else 0
  }

  /** The three keys written on the cart: whether the amount matched, the shipping total, the payment id. */
  function Stamp(amountMatches: bool, shippingTotal: int, paymentId: string): Metadata
  {
    map[
      ShippingPaidKey := MetaBool(amountMatches),
      ShippingPaidAmountKey := MetaInt(shippingTotal),
      ShippingPaymentIdKey := MetaString(paymentId)]
  }

  predicate StampedBy(cart: Cart, paymentId: string)
  {
    ShippingPaymentIdKey in cart.metadata && cart.metadata[ShippingPaymentIdKey] == MetaString(paymentId)
  }

  /** The stamp a request writes on a cart as loaded: what the amount check concludes from the cart's shipping total. */
  function StampFor(cb: Callback, cart: Cart): Metadata
  {
    var shippingTotal := MethodsTotal(cart.shippingMethods);
    Stamp(cb.paidAmount == shippingTotal * PaisePerUnit, shippingTotal, cb.paymentId)
  }

  /** The calls of a request that runs to the end, in the order the handler issues them. */
  function FullTrace(cartId: CartId, clears: bool, stamp: Metadata): seq<Call>
  {
    [RetrieveCart(cartId), QueryTotals(cartId)]
    + (if clears then [UpdateCart(ClearShippingMethods(cartId))] else [])
    + [UpdateCart(MergeMetadata(cartId, stamp)), RequeryTotals(cartId)]
  }

  /** Steps 1 to 5: presence check, signature flag, cart module, cart, totals. */
  function HandleWith(policy: StampPolicy, body: Option<Body>, cfg: Config, oracle: Oracle, store: Store): Run
  {
    match Validate(body)
    case None => Run(Replied(Rejected(MissingFields)), store, [])
    case Some(cb) =>
      var signatureValid :=
        SignatureMatches(cfg.hmac, SigningSecret(cfg.keySecret), cb.orderId, cb.paymentId, cb.signature);
      if oracle.resolveCartModule.Throws? then
        Run(Replied(Rejected(CartModuleUnresolved(oracle.resolveCartModule.message))), store, [])
      else if oracle.retrieveCart.Throws? || cb.cartId !in store then
        Run(Replied(Rejected(CartNotFound(cb.cartId))), store, [RetrieveCart(cb.cartId)])
      else
        var loaded := [RetrieveCart(cb.cartId), QueryTotals(cb.cartId)];
        match oracle.queryTotals
        case QueryThrows(error) => Run(Replied(Rejected(TotalsUnavailable(error))), store, loaded)
        // `cartTotals` is undefined and reading `shipping_total` from it throws outside any handler.
        case NoRow => Run(Unhandled, store, loaded)
        case Rows => Settle(policy, cb, signatureValid, oracle, store, loaded)
  }

  /** Step 6: the amount the payment should have been, in paise, and whether it was exactly that. */
  function Assess(cb: Callback, signatureValid: bool, row: TotalsRow): Report
  {
    var shippingTotal := ShippingTotalOrZero(row.shippingTotal);
    var expectedPaise := shippingTotal * PaisePerUnit;
    Report(signatureValid, cb.paidAmount == expectedPaise, expectedPaise, cb.paidAmount, shippingTotal)
  }

  /**
   * Steps 6 to 10 on the cart as loaded: the amount check, the shipping-method
   * clear when one is attached, the metadata stamp, then the re-query and the
   * answer. Whatever the flags say, a request that
   * gets through leaves the cart without shipping methods and stamped (unless
   * the policy keeps a stamp this payment already left), and nothing but this
   * cart's shipping methods and metadata ever changes.
   */
  function Settle(
    policy: StampPolicy, cb: Callback, signatureValid: bool,
    oracle: Oracle, store: Store, issued: seq<Call>): (run: Run)
    requires cb.cartId in store
    ensures run.store.Keys == store.Keys
    ensures forall id :: id in store && id != cb.cartId ==> run.store[id] == store[id]
    ensures run.store[cb.cartId].items == store[cb.cartId].items
    ensures Succeeded(run) || UpdateThrew(run)
    ensures Succeeded(run) ==>
      && run.store[cb.cartId].shippingMethods == []
      && run.outcome.reply.report == Assess(cb, signatureValid, TotalsOf(store[cb.cartId]))
    ensures Succeeded(run) && policy.KeepExistingStamp? && StampedBy(store[cb.cartId], cb.paymentId) ==>
      run.store[cb.cartId].metadata == store[cb.cartId].metadata
    ensures Succeeded(run) && !(policy.KeepExistingStamp? && StampedBy(store[cb.cartId], cb.paymentId)) ==>
      run.store[cb.cartId].metadata == store[cb.cartId].metadata + StampFor(cb, store[cb.cartId])
  {
    var row := TotalsOf(store[cb.cartId]);
    var report := Assess(cb, signatureValid, row);
    var clear := ClearShippingMethods(cb.cartId);
    var clears := |row.shippingMethods| > 0;
    if clears && oracle.clearShipping.Throws? then
      Run(Replied(Rejected(ShippingRemovalFailed(oracle.clearShipping.message))), store, issued + [UpdateCart(clear)])
    else
      var cleared := if clears then Apply(store, clear) else store;
      var issued' := if clears then issued + [UpdateCart(clear)] else issued;
      var stamp := MergeMetadata(cb.cartId, Stamp(report.amountMatches, report.shippingBefore, cb.paymentId));
      if policy.KeepExistingStamp? && StampedBy(cleared[cb.cartId], cb.paymentId) then
        Finish(cb.cartId, report, oracle, cleared, issued')
      else if oracle.writeMetadata.Throws? then
        Run(Replied(Rejected(MetadataUpdateFailed(oracle.writeMetadata.message))), cleared, issued' + [UpdateCart(stamp)])
      else
        Finish(cb.cartId, report, oracle, Apply(cleared, stamp), issued' + [UpdateCart(stamp)])
  }

  /** Step 9: the re-query of the updated cart; a throw degrades to `null`. */
  function Requery(step: QueryStep, cart: Cart): Refetch
  {
    match step
    case Rows => Refetched(SnapshotOf(cart))
    case NoRow => RefetchUndefined
    case QueryThrows(_) => RefetchNull
  }

  /** Steps 9 and 10: the re-query and the `ok: true` answer. */
  function Finish(cartId: CartId, report: Report, oracle: Oracle, store: Store, issued: seq<Call>): Run
    requires cartId in store
  {
    Run(Replied(Accepted(report, Requery(oracle.requeryTotals, store[cartId]))), store, issued + [RequeryTotals(cartId)])
  }

  /**
   * The handler as written. Its contract holds on every path: a request that
   * fails the presence check issues nothing; only the named cart can change;
   * an early failure changes nothing; and an `ok: true` answer leaves the cart
   * with no shipping method and with the three stamp keys, whatever the
   * signature and amount flags say.
   */
  function Handle(body: Option<Body>, cfg: Config, oracle: Oracle, store: Store): (run: Run)
    ensures Validate(body).None? <==> run.outcome == Replied(Rejected(MissingFields))
    ensures Validate(body).None? ==> run.store == store && run.calls == []
    ensures run.store.Keys == store.Keys
    ensures forall id :: id in store && (Validate(body).None? || id != Validate(body).value.cartId) ==>
      run.store[id] == store[id]
    ensures EndedBeforeUpdates(run) ==> run.store == store && NoUpdates(run.calls)
    ensures Succeeded(run) ==>
      var cb := Validate(body).value;
      && cb.cartId in store
      && run.store[cb.cartId].shippingMethods == []
      && run.store[cb.cartId].items == store[cb.cartId].items
      && run.store[cb.cartId].metadata == store[cb.cartId].metadata + StampFor(cb, store[cb.cartId])
    ensures Succeeded(run) ==>
      var cb := Validate(body).value;
      var report := run.outcome.reply.report;
      var shippingTotal := MethodsTotal(store[cb.cartId].shippingMethods);
      && report.signatureValid ==
           (cb.signature == cfg.hmac(SigningSecret(cfg.keySecret), cb.orderId + "|" + cb.paymentId))
      && report.expectedAmountPaise == shippingTotal * 100
      && report.amountMatches == (cb.paidAmount == shippingTotal * 100)
      && report.receivedAmountPaise == cb.paidAmount
      && report.shippingBefore == shippingTotal
  {
    HandleWith(AlwaysStamp, body, cfg, oracle, store)
  }

  /**
   * The handler with the stamp kept when the cart already records this payment
   * id, so that a repeated callback after a successful one leaves the recorded
   * outcome as it was. It does not help a retry after a failed metadata write:
   * the clear is then committed and no stamp exists, so the retry still
   * assesses a shipping total of 0 and records the fee as unpaid.
   */
  function HandleRetrySafe(body: Option<Body>, cfg: Config, oracle: Oracle, store: Store): (run: Run)
    ensures run.store.Keys == store.Keys
    ensures forall id :: id in store && (Validate(body).None? || id != Validate(body).value.cartId) ==>
      run.store[id] == store[id]
    ensures EndedBeforeUpdates(run) ==> run.store == store && NoUpdates(run.calls)
    ensures Succeeded(run) ==> Validate(body).Some?
    ensures Succeeded(run) ==>
      var cb := Validate(body).value;
      && cb.cartId in store
      && run.store[cb.cartId].shippingMethods == []
      && (StampedBy(store[cb.cartId], cb.paymentId) ==> run.store[cb.cartId].metadata == store[cb.cartId].metadata)
      && (!StampedBy(store[cb.cartId], cb.paymentId) ==>
            run.store[cb.cartId].metadata == store[cb.cartId].metadata + StampFor(cb, store[cb.cartId]))
  {
    HandleWith(KeepExistingStamp, body, cfg, oracle, store)
  }
}
