/**
 * What the handler promises across its paths: which failures leave the cart
 * untouched, the order of the calls, the partial-failure semantics, and that
 * neither the signature flag, the amount flag nor the re-query decides
 * whether the request goes through.
 */
module ReconcileProperties {
  import opened Optional
  import opened Carts
  import opened Request
  import opened Signature
  import opened Reconcile

  /** The body with only the signature replaced. */
  function WithSignature(body: Body, signature: string): Body
  {
    body.(signature := Some(signature))
  }

  /** The outcome with the signature flag of an `ok: true` answer replaced. */
  function WithSignatureFlag(outcome: Outcome, flag: bool): Outcome
  {
    if outcome.Replied? && outcome.reply.Accepted? then
      Replied(Accepted(outcome.reply.report.(signatureValid := flag), outcome.reply.updatedTotals))
    else
      outcome
  }

  /** Past the totals query, the handler is steps 6 to 10 on the cart as loaded. */
  lemma HandleReachesSettle(body: Option<Body>, cfg: Config, oracle: Oracle, store: Store)
    requires Validate(body).Some? && Validate(body).value.cartId in store
    requires oracle.resolveCartModule.Succeeds? && oracle.retrieveCart.Succeeds? && oracle.queryTotals.Rows?
    ensures var cb := Validate(body).value;
      Handle(body, cfg, oracle, store) == Settle(
        AlwaysStamp, cb,
        SignatureMatches(cfg.hmac, SigningSecret(cfg.keySecret), cb.orderId, cb.paymentId, cb.signature),
        oracle, store, [RetrieveCart(cb.cartId), QueryTotals(cb.cartId)])
  {
  }

  /**
   * An absent body, an amount of 0 or an empty cart id counts as missing: it
   * answers 400 before any other step, whatever the oracle, with no call.
   */
  lemma FalsyFieldRejected(body: Option<Body>, cfg: Config, oracle: Oracle, store: Store)
    requires body.Some? ==> body.value.paidAmount == Some(0) || body.value.cartId == Some("")
    ensures Handle(body, cfg, oracle, store) == Run(Replied(Rejected(MissingFields)), store, [])
    ensures Handle(body, cfg, oracle, store).outcome.reply.Status() == 400
    ensures !Handle(body, cfg, oracle, store).outcome.reply.Accepted?
    ensures Handle(body, cfg, oracle, store).outcome.reply.Message() == "Missing required fields"
  {
  }

  /** Resolving the cart module fails: 500 with the error's message, no call into the cart subsystem. */
  lemma CartModuleFailure(body: Option<Body>, cfg: Config, oracle: Oracle, store: Store)
    requires Validate(body).Some?
    requires oracle.resolveCartModule.Throws?
    ensures var run := Handle(body, cfg, oracle, store);
      && run.outcome == Replied(Rejected(CartModuleUnresolved(oracle.resolveCartModule.message)))
      && run.outcome.reply.Status() == 500
      && run.store == store
      && run.calls == []
  {
  }

  /** Retrieval fails (the cart is absent or the call throws): 404 carrying the cart id, nothing changed. */
  lemma CartNotFoundFailure(body: Option<Body>, cfg: Config, oracle: Oracle, store: Store)
    requires Validate(body).Some?
    requires oracle.resolveCartModule.Succeeds?
    ensures var cartId := Validate(body).value.cartId;
      var run := Handle(body, cfg, oracle, store);
      (run.outcome == Replied(Rejected(CartNotFound(cartId))))
        <==> (oracle.retrieveCart.Throws? || cartId !in store)
    ensures var cartId := Validate(body).value.cartId;
      var run := Handle(body, cfg, oracle, store);
      oracle.retrieveCart.Throws? || cartId !in store ==>
        && run.outcome.reply.Status() == 404
        && run.store == store
        && run.calls == [RetrieveCart(cartId)]
  {
  }

  /**
   * The totals query throws: 500 with the error's message; it returns no row:
   * the handler throws past its own error handling. Neither changes the store
   * or issues an update.
   */
  lemma TotalsFailure(body: Option<Body>, cfg: Config, oracle: Oracle, store: Store)
    requires Validate(body).Some? && Validate(body).value.cartId in store
    requires oracle.resolveCartModule.Succeeds? && oracle.retrieveCart.Succeeds?
    requires !oracle.queryTotals.Rows?
    ensures var cartId := Validate(body).value.cartId;
      var run := Handle(body, cfg, oracle, store);
      && run.store == store
      && run.calls == [RetrieveCart(cartId), QueryTotals(cartId)]
      && (oracle.queryTotals.QueryThrows? ==>
            && run.outcome == Replied(Rejected(TotalsUnavailable(oracle.queryTotals.message)))
            && run.outcome.reply.Status() == 500)
      && (oracle.queryTotals.NoRow? ==> run.outcome == Unhandled)
  {
  }

  /**
   * Once the totals are loaded, the clear is issued exactly when the cart has
   * a shipping method attached, and before anything else is updated.
   */
  lemma ClearOnlyWhenAttached(body: Option<Body>, cfg: Config, oracle: Oracle, store: Store)
    requires Validate(body).Some? && Validate(body).value.cartId in store
    requires oracle.resolveCartModule.Succeeds? && oracle.retrieveCart.Succeeds? && oracle.queryTotals.Rows?
    ensures var cartId := Validate(body).value.cartId;
      var run := Handle(body, cfg, oracle, store);
      && (UpdateCart(ClearShippingMethods(cartId)) in run.calls <==> store[cartId].shippingMethods != [])
      && (store[cartId].shippingMethods != [] ==> run.calls[2] == UpdateCart(ClearShippingMethods(cartId)))
  {
  }

  /**
   * Partial failure keeps what was committed: a failed clear answers 500 and
   * writes no metadata; a failed metadata write answers 500 and leaves the
   * clear in place.
   */
  lemma PartialFailureKeepsCommittedWork(body: Option<Body>, cfg: Config, oracle: Oracle, store: Store)
    requires Validate(body).Some? && Validate(body).value.cartId in store
    requires oracle.resolveCartModule.Succeeds? && oracle.retrieveCart.Succeeds? && oracle.queryTotals.Rows?
    ensures var cartId := Validate(body).value.cartId;
      var run := Handle(body, cfg, oracle, store);
      store[cartId].shippingMethods != [] && oracle.clearShipping.Throws? ==>
        && run.outcome == Replied(Rejected(ShippingRemovalFailed(oracle.clearShipping.message)))
        && run.outcome.reply.Status() == 500
        && run.store == store
        && Mutations(run.calls) == [ClearShippingMethods(cartId)]
    ensures var cartId := Validate(body).value.cartId;
      var run := Handle(body, cfg, oracle, store);
      (store[cartId].shippingMethods == [] || oracle.clearShipping.Succeeds?) && oracle.writeMetadata.Throws? ==>
        && run.outcome == Replied(Rejected(MetadataUpdateFailed(oracle.writeMetadata.message)))
        && run.outcome.reply.Status() == 500
        && run.store[cartId].shippingMethods == []
        && run.store[cartId].metadata == store[cartId].metadata
        && run.store == Apply(store, ClearShippingMethods(cartId))
  {
  }

  /**
   * The signature flag is advisory: replacing the signature changes nothing
   * but the flag in an `ok: true` answer, so a forged signature goes through
   * whenever a genuine one would.
   */
  lemma SignatureIsAdvisory(body: Body, signature: string, cfg: Config, oracle: Oracle, store: Store)
    requires Validate(Some(body)).Some?
    requires signature != ""
    ensures var run := Handle(Some(body), cfg, oracle, store);
      var forged := Handle(Some(WithSignature(body, signature)), cfg, oracle, store);
      var flag := signature == cfg.hmac(SigningSecret(cfg.keySecret), body.orderId.value + "|" + body.paymentId.value);
      && forged.store == run.store
      && forged.calls == run.calls
      && forged.outcome == WithSignatureFlag(run.outcome, flag)
  {
    var cb := Validate(Some(body)).value;
    var forgedBody := Some(WithSignature(body, signature));
    assert Validate(forgedBody) == Some(cb.(signature := signature));
    if oracle.resolveCartModule.Succeeds? && oracle.retrieveCart.Succeeds? && cb.cartId in store && oracle.queryTotals.Rows? {
      var loaded := [RetrieveCart(cb.cartId), QueryTotals(cb.cartId)];
      var secret := SigningSecret(cfg.keySecret);
      var valid := SignatureMatches(cfg.hmac, secret, cb.orderId, cb.paymentId, cb.signature);
      var forgedValid := SignatureMatches(cfg.hmac, secret, cb.orderId, cb.paymentId, signature);
      HandleReachesSettle(Some(body), cfg, oracle, store);
      HandleReachesSettle(forgedBody, cfg, oracle, store);
      SettleFlagOnly(cb, cb.(signature := signature), valid, forgedValid, oracle, store, loaded);
    }
  }

  /** Steps 6 to 10 read the callback's cart id, amount and payment id, and pass the signature flag through. */
  lemma SettleFlagOnly(
    cb: Callback, cb': Callback, signatureValid: bool, signatureValid': bool,
    oracle: Oracle, store: Store, loaded: seq<Call>)
    requires cb.cartId in store
    requires cb' == cb.(signature := cb'.signature)
    ensures var run := Settle(AlwaysStamp, cb, signatureValid, oracle, store, loaded);
      var run' := Settle(AlwaysStamp, cb', signatureValid', oracle, store, loaded);
      && run'.store == run.store
      && run'.calls == run.calls
      && run'.outcome == WithSignatureFlag(run.outcome, signatureValid')
  {
  }

  /**
   * The amount flag is advisory: whatever amount was paid, the same calls
   * reach the cart subsystem, the request succeeds or fails alike, and the
   * shipping methods end in the same state. Only the stamp differs.
   */
  lemma AmountIsAdvisory(body: Body, paidAmount: int, cfg: Config, oracle: Oracle, store: Store)
    requires Validate(Some(body)).Some?
    requires paidAmount != 0
    ensures var run := Handle(Some(body), cfg, oracle, store);
      var other := Handle(Some(body.(paidAmount := Some(paidAmount))), cfg, oracle, store);
      && |other.calls| == |run.calls|
      && ((UpdateCart(ClearShippingMethods(body.cartId.value)) in other.calls)
            <==> (UpdateCart(ClearShippingMethods(body.cartId.value)) in run.calls))
      && Succeeded(other) == Succeeded(run)
      && other.store.Keys == run.store.Keys
      && (forall id :: id in run.store ==> other.store[id].shippingMethods == run.store[id].shippingMethods)
  {
    var cb := Validate(Some(body)).value;
    var otherBody := Some(body.(paidAmount := Some(paidAmount)));
    assert Validate(otherBody) == Some(cb.(paidAmount := paidAmount));
    if oracle.resolveCartModule.Succeeds? && oracle.retrieveCart.Succeeds? && cb.cartId in store && oracle.queryTotals.Rows? {
      HandleReachesSettle(Some(body), cfg, oracle, store);
      HandleReachesSettle(otherBody, cfg, oracle, store);
      var valid := SignatureMatches(cfg.hmac, SigningSecret(cfg.keySecret), cb.orderId, cb.paymentId, cb.signature);
      SettleAmountOnly(cb, paidAmount, valid, oracle, store, [RetrieveCart(cb.cartId), QueryTotals(cb.cartId)]);
    }
  }

  /** Steps 6 to 10 take the same path whatever amount was paid. */
  lemma SettleAmountOnly(cb: Callback, paidAmount: int, signatureValid: bool, oracle: Oracle, store: Store, loaded: seq<Call>)
    requires cb.cartId in store
    ensures var run := Settle(AlwaysStamp, cb, signatureValid, oracle, store, loaded);
      var other := Settle(AlwaysStamp, cb.(paidAmount := paidAmount), signatureValid, oracle, store, loaded);
      && |other.calls| == |run.calls|
      && ((UpdateCart(ClearShippingMethods(cb.cartId)) in other.calls)
            <==> (UpdateCart(ClearShippingMethods(cb.cartId)) in run.calls))
      && Succeeded(other) == Succeeded(run)
      && other.store.Keys == run.store.Keys
      && (forall id :: id in run.store ==> other.store[id].shippingMethods == run.store[id].shippingMethods)
  {
    SettleShape(cb, signatureValid, oracle, store, loaded);
    SettleShape(cb.(paidAmount := paidAmount), signatureValid, oracle, store, loaded);
  }

  /**
   * The re-query cannot fail the request: whatever it does, the store, the
   * calls and the report are those of a request whose re-query succeeded;
   * a throw leaves `updatedTotals` null, and a row is the updated cart's.
   */
  lemma RequeryIsSoft(body: Option<Body>, cfg: Config, oracle: Oracle, requery: QueryStep, store: Store)
    ensures var run := Handle(body, cfg, oracle, store);
      var other := Handle(body, cfg, oracle.(requeryTotals := requery), store);
      && other.store == run.store
      && other.calls == run.calls
      && Succeeded(other) == Succeeded(run)
      && (Succeeded(run) ==> other.outcome.reply.report == run.outcome.reply.report)
    ensures var run := Handle(body, cfg, oracle, store);
      Succeeded(run) ==>
        var cartId := Validate(body).value.cartId;
        && run.outcome.reply.Status() == 200
        && (oracle.requeryTotals.QueryThrows? ==> run.outcome.reply.updatedTotals == RefetchNull)
        && (oracle.requeryTotals.Rows? ==> run.outcome.reply.updatedTotals == Refetched(SnapshotOf(run.store[cartId])))
        && run.calls[|run.calls| - 1] == RequeryTotals(cartId)
  {
    if Validate(body).Some? && oracle.resolveCartModule.Succeeds? && oracle.retrieveCart.Succeeds?
       && Validate(body).value.cartId in store && oracle.queryTotals.Rows? {
      var cb := Validate(body).value;
      var valid := SignatureMatches(cfg.hmac, SigningSecret(cfg.keySecret), cb.orderId, cb.paymentId, cb.signature);
      HandleReachesSettle(body, cfg, oracle, store);
      HandleReachesSettle(body, cfg, oracle.(requeryTotals := requery), store);
      SettleRequeryOnly(cb, valid, oracle, requery, store, [RetrieveCart(cb.cartId), QueryTotals(cb.cartId)]);
    }
  }

  /** Only `updatedTotals` depends on the re-query in steps 6 to 10. */
  lemma SettleRequeryOnly(cb: Callback, signatureValid: bool, oracle: Oracle, requery: QueryStep, store: Store, loaded: seq<Call>)
    requires cb.cartId in store
    ensures var run := Settle(AlwaysStamp, cb, signatureValid, oracle, store, loaded);
      var other := Settle(AlwaysStamp, cb, signatureValid, oracle.(requeryTotals := requery), store, loaded);
      && other.store == run.store
      && other.calls == run.calls
      && Succeeded(other) == Succeeded(run)
      && (Succeeded(run) ==>
            && other.outcome.reply.report == run.outcome.reply.report
            && run.outcome.reply.updatedTotals == Requery(oracle.requeryTotals, run.store[cb.cartId])
            && run.calls[|run.calls| - 1] == RequeryTotals(cb.cartId))
  {
  }

  /**
   * The calls of every request are a prefix of one fixed order: retrieve,
   * query, the clear when a shipping method is attached, the stamp, the
   * re-query; a request that succeeds issues all of them.
   */
  lemma TraceOrder(body: Option<Body>, cfg: Config, oracle: Oracle, store: Store)
    requires Validate(body).Some?
    ensures var cb := Validate(body).value;
      var run := Handle(body, cfg, oracle, store);
      cb.cartId in store ==>
        var full := FullTrace(cb.cartId, store[cb.cartId].shippingMethods != [], StampFor(cb, store[cb.cartId]));
        && run.calls <= full
        && (Succeeded(run) ==> run.calls == full)
    ensures var cb := Validate(body).value;
      var run := Handle(body, cfg, oracle, store);
      cb.cartId !in store ==> run.calls <= [RetrieveCart(cb.cartId)]
  {
    var cb := Validate(body).value;
    if cb.cartId in store && oracle.resolveCartModule.Succeeds? && oracle.retrieveCart.Succeeds? && oracle.queryTotals.Rows? {
      var signatureValid :=
        SignatureMatches(cfg.hmac, SigningSecret(cfg.keySecret), cb.orderId, cb.paymentId, cb.signature);
      HandleReachesSettle(body, cfg, oracle, store);
      SettleTraceOrder(cb, signatureValid, oracle, store);
    }
  }

  /** Steps 6 to 10 extend the two loading calls along the fixed order, and complete it when they succeed. */
  lemma SettleTraceOrder(cb: Callback, signatureValid: bool, oracle: Oracle, store: Store)
    requires cb.cartId in store
    ensures var run := Settle(AlwaysStamp, cb, signatureValid, oracle, store, [RetrieveCart(cb.cartId), QueryTotals(cb.cartId)]);
      var full := FullTrace(cb.cartId, store[cb.cartId].shippingMethods != [], StampFor(cb, store[cb.cartId]));
      && run.calls <= full
      && (Succeeded(run) ==> run.calls == full)
  {
    var loaded := [RetrieveCart(cb.cartId), QueryTotals(cb.cartId)];
    var clears := store[cb.cartId].shippingMethods != [];
    var stamp := MergeMetadata(cb.cartId, StampFor(cb, store[cb.cartId]));
    var issued := if clears then loaded + [UpdateCart(ClearShippingMethods(cb.cartId))] else loaded;
    var full := FullTrace(cb.cartId, clears, StampFor(cb, store[cb.cartId]));
    assert full == issued + [UpdateCart(stamp)] + [RequeryTotals(cb.cartId)];
    assert issued <= full && issued + [UpdateCart(stamp)] <= full;
    SettleShape(cb, signatureValid, oracle, store, loaded);
  }

  /** The updates of a sequence of calls split along a concatenation. */
  lemma {:induction false} MutationsAppend(a: seq<Call>, b: seq<Call>)
    ensures Mutations(a + b) == Mutations(a) + Mutations(b)
  {
    if a == [] {
      assert a + b == b;
    } else {
      assert (a + b)[1..] == a[1..] + b;
      MutationsAppend(a[1..], b);
    }
  }

  /** Applying two sequences of updates one after the other is applying their concatenation. */
  lemma {:induction false} ApplyAllAppend(store: Store, a: seq<CartUpdate>, b: seq<CartUpdate>)
    ensures ApplyAll(store, a + b) == ApplyAll(ApplyAll(store, a), b)
  {
    if a == [] {
      assert a + b == b;
    } else {
      assert (a + b)[1..] == a[1..] + b;
      ApplyAllAppend(Apply(store, a[0]), a[1..], b);
    }
  }

  lemma ApplyAllSingle(store: Store, u: CartUpdate)
    ensures ApplyAll(store, [u]) == Apply(store, u)
  {
    assert [u][1..] == [];
  }

  /** The updates the clear step leaves issued, and the store they produce. */
  lemma ClearStepExplained(cartId: CartId, store: Store, loaded: seq<Call>, clears: bool)
    requires Mutations(loaded) == []
    ensures var clear := ClearShippingMethods(cartId);
      var issued := if clears then loaded + [UpdateCart(clear)] else loaded;
      var pending := if clears then [clear] else [];
      && Mutations(issued) == pending
      && ApplyAll(store, pending) == (if clears then Apply(store, clear) else store)
  {
    var clear := ClearShippingMethods(cartId);
    assert Mutations([UpdateCart(clear)]) == [clear];
    MutationsAppend(loaded, [UpdateCart(clear)]);
    ApplyAllSingle(store, clear);
  }

  /** Appending the stamp, and then the re-query, to the issued calls. */
  lemma StampStepExplained(cartId: CartId, stamp: CartUpdate, store: Store, cleared: Store, issued: seq<Call>, pending: seq<CartUpdate>)
    requires Mutations(issued) == pending
    requires ApplyAll(store, pending) == cleared
    ensures Mutations(issued + [UpdateCart(stamp)]) == pending + [stamp]
    ensures Mutations(issued + [UpdateCart(stamp)] + [RequeryTotals(cartId)]) == pending + [stamp]
    ensures ApplyAll(store, pending + [stamp]) == Apply(cleared, stamp)
    ensures (pending + [stamp])[..|pending|] == pending
  {
    assert Mutations([UpdateCart(stamp)]) == [stamp];
    MutationsAppend(issued, [UpdateCart(stamp)]);
    assert Mutations([RequeryTotals(cartId)]) == [];
    MutationsAppend(issued + [UpdateCart(stamp)], [RequeryTotals(cartId)]);
    ApplyAllAppend(store, pending, [stamp]);
    ApplyAllSingle(cleared, stamp);
  }

  /** The three ways steps 6 to 10 end, spelled out: the clear throws, the stamp throws, or both commit. */
  lemma SettleShape(cb: Callback, signatureValid: bool, oracle: Oracle, store: Store, loaded: seq<Call>)
    requires cb.cartId in store
    ensures var run := Settle(AlwaysStamp, cb, signatureValid, oracle, store, loaded);
      var clear := ClearShippingMethods(cb.cartId);
      var stamp := MergeMetadata(cb.cartId, StampFor(cb, store[cb.cartId]));
      var clears := store[cb.cartId].shippingMethods != [];
      var cleared := if clears then Apply(store, clear) else store;
      var issued := if clears then loaded + [UpdateCart(clear)] else loaded;
      && (clears && oracle.clearShipping.Throws? ==>
            run.store == store && run.calls == issued && UpdateThrew(run))
      && (!(clears && oracle.clearShipping.Throws?) && oracle.writeMetadata.Throws? ==>
            run.store == cleared && run.calls == issued + [UpdateCart(stamp)] && UpdateThrew(run))
      && (!(clears && oracle.clearShipping.Throws?) && oracle.writeMetadata.Succeeds? ==>
            run.store == Apply(cleared, stamp) && run.calls == issued + [UpdateCart(stamp)] + [RequeryTotals(cb.cartId)]
            && !UpdateThrew(run))
  {
  }

  /** Steps 6 to 10 issue the clear when needed, then the stamp, and the store shows exactly the committed ones. */
  lemma SettleExplainsStore(cb: Callback, signatureValid: bool, oracle: Oracle, store: Store, loaded: seq<Call>)
    requires cb.cartId in store
    requires Mutations(loaded) == []
    ensures var run := Settle(AlwaysStamp, cb, signatureValid, oracle, store, loaded);
      !UpdateThrew(run) ==> run.store == ApplyAll(store, Mutations(run.calls))
    ensures var run := Settle(AlwaysStamp, cb, signatureValid, oracle, store, loaded);
      UpdateThrew(run) ==>
        var us := Mutations(run.calls);
        |us| > 0 && run.store == ApplyAll(store, us[..|us| - 1])
  {
    var clear := ClearShippingMethods(cb.cartId);
    var stamp := MergeMetadata(cb.cartId, StampFor(cb, store[cb.cartId]));
    var clears := store[cb.cartId].shippingMethods != [];
    var cleared := if clears then Apply(store, clear) else store;
    var issued := if clears then loaded + [UpdateCart(clear)] else loaded;
    var pending := if clears then [clear] else [];
    SettleShape(cb, signatureValid, oracle, store, loaded);
    ClearStepExplained(cb.cartId, store, loaded, clears);
    StampStepExplained(cb.cartId, stamp, store, cleared, issued, pending);
  }

  /**
   * The store afterwards is exactly the updates the request issued, applied in
   * order, except the last one when that update threw: nothing else touches
   * the cart subsystem, and nothing committed is undone.
   */
  lemma TraceExplainsStore(body: Option<Body>, cfg: Config, oracle: Oracle, store: Store)
    ensures var run := Handle(body, cfg, oracle, store);
      !UpdateThrew(run) ==> run.store == ApplyAll(store, Mutations(run.calls))
    ensures var run := Handle(body, cfg, oracle, store);
      UpdateThrew(run) ==>
        var us := Mutations(run.calls);
        |us| > 0 && run.store == ApplyAll(store, us[..|us| - 1])
  {
    if && Validate(body).Some? && Validate(body).value.cartId in store
       && oracle.resolveCartModule.Succeeds? && oracle.retrieveCart.Succeeds? && oracle.queryTotals.Rows?
    {
      var cb := Validate(body).value;
      var signatureValid :=
        SignatureMatches(cfg.hmac, SigningSecret(cfg.keySecret), cb.orderId, cb.paymentId, cb.signature);
      var loaded := [RetrieveCart(cb.cartId), QueryTotals(cb.cartId)];
      assert Mutations(loaded) == [];
      HandleReachesSettle(body, cfg, oracle, store);
      SettleExplainsStore(cb, signatureValid, oracle, store, loaded);
    } else {
      EarlyEndIssuesNoUpdate(body, cfg, oracle, store);
    }
  }

  /** A request that ends before the totals row is loaded issues no update and changes nothing. */
  lemma EarlyEndIssuesNoUpdate(body: Option<Body>, cfg: Config, oracle: Oracle, store: Store)
    requires !(&& Validate(body).Some? && Validate(body).value.cartId in store
               && oracle.resolveCartModule.Succeeds? && oracle.retrieveCart.Succeeds? && oracle.queryTotals.Rows?)
    ensures var run := Handle(body, cfg, oracle, store);
      && run.store == store && !UpdateThrew(run) && Mutations(run.calls) == []
  {
    if Validate(body).Some? && oracle.resolveCartModule.Succeeds? {
      var cartId := Validate(body).value.cartId;
      assert Mutations([RetrieveCart(cartId)]) == [];
      assert Mutations([RetrieveCart(cartId), QueryTotals(cartId)]) == [];
    }
  }
}
