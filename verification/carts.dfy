/**
 * The cart subsystem as the reconciliation handler sees it: a store of carts
 * keyed by id, the totals row its query API projects from a cart, and the two
 * kinds of patch the handler sends through `updateCarts`.
 *
 * Totals are derived the way the cart subsystem derives them, without taxes or
 * adjustments: `shipping_total` is the sum of the attached shipping methods'
 * amounts, `subtotal` the sum of the line items, `total` their sum. Amounts are
 * integers in the store's major currency unit.
 */
module Carts {
  import opened Optional

  type CartId = string

  datatype LineItem = LineItem(id: string, quantity: nat, unitPrice: int)

  datatype ShippingMethod = ShippingMethod(id: string, amount: int)

  /** The JSON values the handler writes into cart metadata. */
  datatype MetaValue = MetaBool(flag: bool) | MetaInt(number: int) | MetaString(text: string)

  type Metadata = map<string, MetaValue>

  datatype Cart = Cart(id: CartId, items: seq<LineItem>, shippingMethods: seq<ShippingMethod>, metadata: Metadata)

  /** Every cart the cart subsystem holds, by id. */
  type Store = map<CartId, Cart>

  function ItemsTotal(items: seq<LineItem>): int
  {
    if items == [] then 0 else items[0].quantity * items[0].unitPrice + ItemsTotal(items[1..])
  }

  function MethodsTotal(methods: seq<ShippingMethod>): int
  {
    if methods == [] then 0 else methods[0].amount + MethodsTotal(methods[1..])
  }

  /** The row of the first totals query: `id, total, subtotal, shipping_total, items.*, shipping_methods.*`. */
  datatype TotalsRow = TotalsRow(
    id: CartId,
    total: int,
    subtotal: int,
    shippingTotal: Option<int>,
    items: seq<LineItem>,
    shippingMethods: seq<ShippingMethod>)

  /** The row of the re-query after the updates: the same fields without `shipping_methods`. */
  datatype TotalsSnapshot = TotalsSnapshot(
    id: CartId,
    total: int,
    subtotal: int,
    shippingTotal: Option<int>,
    items: seq<LineItem>)

  function TotalsOf(cart: Cart): TotalsRow
  {
    var shipping := MethodsTotal(cart.shippingMethods);
    var subtotal := ItemsTotal(cart.items);
    TotalsRow(cart.id, subtotal + shipping, subtotal, Some(shipping), cart.items, cart.shippingMethods)
  }

  function SnapshotOf(cart: Cart): TotalsSnapshot
  {
    var row := TotalsOf(cart);
    TotalsSnapshot(row.id, row.total, row.subtotal, row.shippingTotal, row.items)
  }

  /** One entry of an `updateCarts([...])` call as the handler issues them. */
  datatype CartUpdate =
    | ClearShippingMethods(cartId: CartId)
    | MergeMetadata(cartId: CartId, patch: Metadata)

  /**
   * The effect of one successful update: clearing detaches every shipping
   * method; a metadata patch overwrites the keys it names and keeps the others.
   * An update for an id the store does not hold changes nothing.
   */
  function Apply(store: Store, u: CartUpdate): (r: Store)
    ensures r.Keys == store.Keys
    ensures forall id :: id in store && id != u.cartId ==> r[id] == store[id]
    ensures u.cartId in store ==>
      && r[u.cartId].id == store[u.cartId].id
      && r[u.cartId].items == store[u.cartId].items
    ensures u.ClearShippingMethods? && u.cartId in store ==>
      && r[u.cartId].shippingMethods == []
      && r[u.cartId].metadata == store[u.cartId].metadata
    ensures u.MergeMetadata? && u.cartId in store ==>
      && r[u.cartId].shippingMethods == store[u.cartId].shippingMethods
      && r[u.cartId].metadata.Keys == store[u.cartId].metadata.Keys + u.patch.Keys
      && (forall k :: k in u.patch ==> r[u.cartId].metadata[k] == u.patch[k])
      && (forall k :: k in store[u.cartId].metadata && k !in u.patch ==>
            r[u.cartId].metadata[k] == store[u.cartId].metadata[k])
  {
    if u.cartId !in store then store
    else
      var cart := store[u.cartId];
      match u
      case ClearShippingMethods(_) => store[u.cartId := cart.(shippingMethods := [])]
      case MergeMetadata(_, patch) => store[u.cartId := cart.(metadata := cart.metadata + patch)]
  }

  /** The updates of a sequence applied one after another, in order. */
  function ApplyAll(store: Store, us: seq<CartUpdate>): (r: Store)
    ensures r.Keys == store.Keys
    ensures forall id :: id in store && (forall i :: 0 <= i < |us| ==> us[i].cartId != id) ==> r[id] == store[id]
  {
    if us == [] then store else ApplyAll(Apply(store, us[0]), us[1..])
  }

  /** Applying the same update twice has the effect of applying it once: clearing and overwriting do not accumulate. */
  lemma ApplyIdempotent(store: Store, u: CartUpdate)
    ensures Apply(Apply(store, u), u) == Apply(store, u)
  {
    if u.cartId in store && u.MergeMetadata? {
      var m := store[u.cartId].metadata;
      assert (m + u.patch) + u.patch == m + u.patch;
    }
  }
}
