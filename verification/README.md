# Partial-COD shipping reconciliation

A model of the storefront endpoint `POST /store/partial-cod`. It handles a
partial cash-on-delivery checkout: the customer pays only the shipping fee
online through Razorpay, and the rest on delivery. When the payment gateway's
callback arrives, the handler does the following in order:

1. Validates the five body fields. A falsy value counts as missing.
2. Computes the HMAC-SHA256 signature flag.
3. Resolves the cart module.
4. Retrieves the cart.
5. Loads the cart's totals.
6. Compares the amount paid with the shipping total in paise.
7. Removes the cart's shipping methods, if any are attached.
8. Stamps three metadata keys: `shipping_paid`, `shipping_paid_amount` and `shipping_payment_id`.
9. Re-queries the totals.
10. Answers with both flags.

The signature and amount checks are advisory: they are reported, but they never stop the request.

The handler is a pure function
`Handle(body, cfg, oracle, store) -> Run(outcome, store', calls)`:

- The cart subsystem is a `Store`, a map from cart id to `Cart`.
- Each external call's success or failure comes from an `Oracle`.
- The answer is an `Outcome`: an HTTP status and body, or `Unhandled` when the handler throws past its own error handling.
- `calls` is the trace of calls issued to the cart subsystem, in order.

Modules:

- `Optional`: the option type.
- `Carts`: carts, the totals the query API derives from them, and the two kinds of update with their effect on the store (`Apply`, `ApplyAll`).
- `Request`: the request body and its falsy-field validation.
- `Signature`: the signing secret's fallback, the signed payload and the signature flag. The HMAC digest itself is a parameter.
- `Reconcile`: the oracle, the trace, the failures with their status codes and messages, and the handler. `Handle` models the code as written. `HandleRetrySafe` is the corrected variant described under Findings.
- `ReconcileProperties`: properties relating runs and traces. These cover the error paths, advisory flags, the call order, the store explained by the trace, and partial failure without rollback.
- `Retry`: what a second delivery of the same callback does, as written and corrected.
- `Scenarios`: worked examples on a cart with a 50-rupee shipping fee.

## Model

| member | source | states |
|---|---|---|
| Request.Validate | src/api/store/partial-cod/route.ts:5-27 | The body is rejected exactly when it is absent, or a field is absent or empty, or the amount is 0. Otherwise the callback carries the five values unchanged. |
| Signature.SigningSecret | src/api/store/partial-cod/route.ts:32 | The secret is the configured one when it is set and non-empty, and `dummy_secret` otherwise. It is never empty. |
| Signature.SignedPayload | src/api/store/partial-cod/route.ts:36 | The signed text is the order id, then `|`, then the payment id, each recoverable at its position. |
| Signature.PayloadDeterminesIds | src/api/store/partial-cod/route.ts:34-39 | When neither order id contains `|`, equal payloads come from equal order and payment ids. |
| Carts.Apply | src/api/store/partial-cod/route.ts:110-115 | An update touches only its own cart. A clear leaves no shipping method and keeps the metadata. A metadata patch overwrites the keys it names and keeps the other keys and the shipping methods. |
| Carts.ApplyAll | src/api/store/partial-cod/route.ts:129-138 | A sequence of updates keeps the set of carts, and leaves every cart no update names unchanged. |
| Carts.ApplyIdempotent | src/api/store/partial-cod/route.ts:110-115 | Applying the same update twice is applying it once. |
| Reconcile.Mutations | src/api/store/partial-cod/route.ts:108-145 | The updates of a trace are exactly its update calls, and there are no more of them than calls. |
| Reconcile.Settle | src/api/store/partial-cod/route.ts:101-177 | From loaded totals, the request either succeeds or ends on a throwing update, and touches no other cart. On success the cart has no shipping method, keeps its items, and carries the stamp of the amount check on the cart as loaded. |
| Reconcile.Handle | src/api/store/partial-cod/route.ts:4-178 | A 400 comes exactly from failed validation, with no call. An error before the updates leaves the store unchanged. On `ok: true` the cart has no shipping method, keeps its items, and carries the three keys. The report's flags are the signature comparison and the equality of the amount with the shipping total times 100. |
| Reconcile.HandleRetrySafe | src/api/store/partial-cod/route.ts:128-138 | The corrected handler keeps an existing stamp for the same payment id, and no other cart changes. Otherwise it behaves as written. It covers a retry after a successful run, not one after a failed metadata write. |
| ReconcileProperties.HandleReachesSettle | src/api/store/partial-cod/route.ts:72-96 | Once the totals row is loaded, the handler continues from the cart as retrieved, with two calls issued. |
| ReconcileProperties.FalsyFieldRejected | src/api/store/partial-cod/route.ts:16-27 | An absent body, an amount of 0 or an empty cart id answers 400 with `Missing required fields`, whatever the oracle, with no call and no change. |
| ReconcileProperties.CartModuleFailure | src/api/store/partial-cod/route.ts:44-53 | A failed resolution answers 500 with the error's message. It issues no call and changes nothing. |
| ReconcileProperties.CartNotFoundFailure | src/api/store/partial-cod/route.ts:58-67 | Retrieval answers 404 with the cart id exactly when the cart is absent or retrieval throws. It issues only the retrieval and changes nothing. |
| ReconcileProperties.TotalsFailure | src/api/store/partial-cod/route.ts:72-96 | A throwing totals query answers 500. A missing row makes the handler throw unhandled. Neither updates anything. |
| ReconcileProperties.ClearOnlyWhenAttached | src/api/store/partial-cod/route.ts:108-116 | The clear is issued exactly when the loaded cart has a shipping method, and as the first update. |
| ReconcileProperties.PartialFailureKeepsCommittedWork | src/api/store/partial-cod/route.ts:117-123 | A throwing clear answers 500 and writes no metadata. A throwing metadata write answers 500 and keeps the clear. |
| ReconcileProperties.SignatureIsAdvisory | src/api/store/partial-cod/route.ts:39 | Replacing the signature changes neither the calls nor the store. It changes only the flag in an `ok: true` answer. |
| ReconcileProperties.SettleFlagOnly | src/api/store/partial-cod/route.ts:101-177 | The last steps depend on the signature only through the flag they report. |
| ReconcileProperties.AmountIsAdvisory | src/api/store/partial-cod/route.ts:101-103 | Whatever amount is paid, the same number of calls is issued, the clear is issued alike, success is alike, and the shipping methods end alike. |
| ReconcileProperties.SettleAmountOnly | src/api/store/partial-cod/route.ts:101-145 | The last steps take the same path whatever amount was paid. |
| ReconcileProperties.RequeryIsSoft | src/api/store/partial-cod/route.ts:150-163 | The re-query cannot fail the request. A throw gives `updatedTotals: null` and a row gives the updated cart's totals. Nothing else changes. |
| ReconcileProperties.SettleRequeryOnly | src/api/store/partial-cod/route.ts:150-177 | Only `updatedTotals` depends on the re-query. |
| ReconcileProperties.TraceOrder | src/api/store/partial-cod/route.ts:58-163 | Every trace is a prefix of the fixed order retrieve, query, clear (when attached), stamp, re-query. A successful request issues the whole of it. |
| ReconcileProperties.SettleTraceOrder | src/api/store/partial-cod/route.ts:108-163 | After the two loading calls, the calls follow the fixed order, and a successful request completes it. |
| ReconcileProperties.EarlyEndIssuesNoUpdate | src/api/store/partial-cod/route.ts:16-96 | A request that ends before the totals row is loaded issues no update and changes nothing. |
| ReconcileProperties.MutationsAppend | src/api/store/partial-cod/route.ts:108-145 | The updates of two concatenated traces are the two lists of updates, concatenated. |
| ReconcileProperties.ApplyAllAppend | src/api/store/partial-cod/route.ts:108-145 | Applying two lists of updates in turn is applying their concatenation. |
| ReconcileProperties.ClearStepExplained | src/api/store/partial-cod/route.ts:108-116 | After the clear step, the issued updates are the clear (or nothing), and applying them gives the store. |
| ReconcileProperties.StampStepExplained | src/api/store/partial-cod/route.ts:128-163 | Appending the stamp and the re-query adds exactly the stamp to the issued updates. |
| ReconcileProperties.SettleShape | src/api/store/partial-cod/route.ts:108-177 | The last steps end in one of three ways: the clear throws, the stamp throws, or both commit and the answer is `ok: true`. |
| ReconcileProperties.SettleExplainsStore | src/api/store/partial-cod/route.ts:108-145 | The store after the updates is the committed updates applied in order. |
| ReconcileProperties.TraceExplainsStore | src/api/store/partial-cod/route.ts:4-178 | The final store is the request's updates applied in order, except a last update that threw. Nothing is rolled back and nothing else is written. |
| Retry.AllSucceedAccepts | src/api/store/partial-cod/route.ts:168-177 | When no call fails, a valid callback for a known cart answers `ok: true`, as written and corrected. |
| Retry.HandleAllSucceed | src/api/store/partial-cod/route.ts:101-177 | When nothing fails, the store, the calls and the report are given in closed form. |
| Retry.HandleRetrySafeAllSucceed | src/api/store/partial-cod/route.ts:128-138 | When nothing fails, the corrected handler's store is given in closed form. |
| Retry.RerunOnClearedCart | src/api/store/partial-cod/route.ts:108-138 | On a cart without shipping methods, a repeated callback repeats the calls, the answer and the store exactly. |
| Retry.RerunOnFreeShipping | src/api/store/partial-cod/route.ts:101-138 | On a cart whose shipping methods add up to 0, a repeated callback repeats the answer and the store. The second run never issues the clear. The first run issues it exactly when a shipping method is attached. |
| Retry.RetryAfterMetadataFailure | src/api/store/partial-cod/route.ts:101-145 | When the first run's metadata write throws, that run answers 500 with the shipping methods removed and no stamp written. A retry then succeeds with or without the fix and records the fee as unpaid with amount 0. |
| Retry.FullTraceClears | src/api/store/partial-cod/route.ts:108-116 | The full trace holds the clear exactly when a shipping method was attached. |
| Retry.RerunSkipsClear | src/api/store/partial-cod/route.ts:108-138 | A repeated callback skips the clear, still answers `ok: true`, and overwrites the same keys. |
| Retry.RerunErasesPaidStamp | src/api/store/partial-cod/route.ts:101-103 | As written, a repeated callback that paid the fee in full rewrites the stamp to unpaid with amount 0. |
| Retry.RetrySafeRerunKeepsStamp | src/api/store/partial-cod/route.ts:128-138 | Corrected, a repeated callback leaves the store as the first one left it. The stamp still says whether the original fee was paid. |
| Retry.RetrySafeAgreesOnFirstDelivery | src/api/store/partial-cod/route.ts:128-138 | On a cart not yet stamped by this payment, the corrected handler and the handler as written agree. |
| Scenarios.PaidInFull | src/api/store/partial-cod/route.ts:101-177 | 5000 paise for a 50-rupee fee with a genuine signature gives both flags true, no shipping method, the stamp `true`, `50`, `pay_1`, and the success message. |
| Scenarios.Underpaid | src/api/store/partial-cod/route.ts:101-138 | 4000 paise for the same fee still succeeds and clears, and the stamp says unpaid. |
| Scenarios.TamperedSignature | src/api/store/partial-cod/route.ts:39 | A forged signature is flagged and the request still succeeds. |
| Scenarios.UnknownCart | src/api/store/partial-cod/route.ts:58-67 | An unknown cart answers 404 with the cart id after the one retrieval, and changes nothing. |
| Scenarios.ZeroAmount | src/api/store/partial-cod/route.ts:21 | An amount of 0 answers 400 and changes nothing. |

## Left out

- The Razorpay order-creation route (`src/api/store/razorpay-order`) is not part of this model. It is a separate endpoint and shares no state with this handler.
- `medusa-config.ts` and module registration are not part of this model. The environment's key secret is the `keySecret` configuration value.
- The HMAC-SHA256 digest and its hex encoding are a parameter `hmac` of the configuration. The model states which key and payload it gets, not what it computes.
- The signature comparison is plain string equality, as in the code. Timing behaviour is not modelled.
- JavaScript value semantics are simplified. `paid_amount` is an integer, and `Number(paid_amount)` is the identity. A string amount, `NaN` and floating point are not modelled, and neither is the truthiness of the string `"0"`. Fields of any other type are strings.
- The totals derived by the query API cover only items and shipping methods: `shipping_total` is the sum of the shipping methods' amounts and `total` is `subtotal + shipping_total`. Taxes, discounts and gift cards are not modelled, because the cart module is not part of this model.
- `updateCarts` with a metadata object is modelled as a key-wise merge (the patch wins), and a throwing `updateCarts` call is modelled as committing nothing. The cart module's own storage semantics are not part of this model.
- A totals row without `shipping_total` cannot occur in this model: the row is derived from the cart and always carries the sum of its shipping methods. The `|| 0` default is modelled by `ShippingTotalOrZero`, but its fallback branch is never reached.
- `req.scope.resolve("query")` throwing is folded into the totals query throwing, which is the same `catch` in the code.
- The handler throwing past its own error handling, when the totals query returns no row, is the outcome `Unhandled`. The framework's error response is not modelled.
- The `res.status().json()` mechanics and concurrent requests on the same cart are not modelled. Statuses and messages are values (`Reply.Status`, `Reply.Message`). Each request runs alone against a store.
- ReconcileProperties.FalsyFieldRejected: covers an absent body, a zero amount and an empty cart id. Every other missing field is covered by the iff in `Reconcile.Handle`'s contract.
- Reconcile.HandleRetrySafe: states the corrected stamping, that no other cart changes, and the shared error paths. It does not make a retry after a failed metadata write keep the fee: no record of the fee survives that failure. Its report is the one of `Reconcile.Handle`, which `Retry.RetrySafeAgreesOnFirstDelivery` relates to it.

## Findings

| source | as written | input that shows it | evidently intended | confidence | as-written member | corrected member |
|---|---|---|---|---|---|---|
| src/api/store/partial-cod/route.ts:101-103 | The amount check and the stamp use the cart's current `shipping_total`. After a first successful run that total is 0, so a repeated callback writes `shipping_paid: false` and `shipping_paid_amount: 0` over the record of a paid fee. | Cart `c1` with one shipping method of 50 and `paid_amount` 5000. The same callback is delivered twice and no call fails. | A retried callback for a payment already recorded must keep the recorded outcome. As written, a retry repeats the first run's stamp only on carts whose loaded shipping total is 0. The corrected handler covers a retry after a successful first run only. A retry after the 500 from the metadata write (route.ts:139-145) still records the fee as unpaid with amount 0 (`Retry.RetryAfterMetadataFailure`), because the clear was committed and no stamp exists. Covering it would need the fee recorded before the clear. | medium, not executed. It relies on the query API deriving `shipping_total` from the attached shipping methods. | Retry.RerunErasesPaidStamp | Retry.RetrySafeRerunKeepsStamp |
