/**
 * The payment router: `createSession` turns a cart of product ids into an
 * unpaid order and a checkout-session request to the payment provider, and
 * `pollOrderStatus` reports whether an order has been paid.
 */
module PaymentRouter {
  import opened Domain

  /** The errors the router raises to its caller. */
  datatype RouterError = BadRequest | NotFound

  /** One entry of the provider's `line_items`; `adjustable` is `adjustable_quantity.enabled` when given. */
  datatype LineItem = LineItem(price: string, quantity: nat, adjustable: Option<bool>)

  /** Everything `createSession` hands to the provider's session-creation call. */
  datatype SessionRequest = SessionRequest(
    successUrl: string,
    cancelUrl: string,
    paymentMethodTypes: seq<string>,
    mode: string,
    metadata: map<string, string>,
    lineItems: seq<LineItem>)

  /** What the provider's session-creation call does with a request. */
  datatype ProviderReply = SessionCreated(url: string) | ProviderFailed

  /** The fixed service-fee price added to every checkout. */
  const FeePrice: string := "price_1Ow2OkE04bEMgPaXlhvDLBAC"

  /** A product is offered for checkout when its price reference is truthy. */
  predicate Priced(p: Product) {
    p.priceId.Some? && p.priceId.value != ""
  }

  function PriceOf(p: Product): string {
    match p.priceId
    case Some(s) => s
    case None => ""
  }

  function ProductLine(p: Product): LineItem {
    LineItem(PriceOf(p), 1, None)
  }

  const FeeLine: LineItem := LineItem(FeePrice, 1, Some(false))

  /** The product ids an order records for a list of products. */
  function ProductIds(ps: seq<Product>): seq<Id> {
    seq(|ps|, i requires 0 <= i < |ps| => ps[i].id)
  }

  /** The metadata attached to a session, read back by the webhook. */
  function SessionMetadata(userId: Id, orderId: Id): map<string, string> {
    map["userId" := userId, "orderId" := orderId]
  }

  /**
   * Keeps the priced products, in the order found: exactly the priced ones
   * survive, and a list that is already all priced comes back unchanged.
   */
  function FilterPriced(products: seq<Product>): (kept: seq<Product>)
    ensures |kept| <= |products|
    ensures multiset(kept) <= multiset(products)
    ensures forall p :: p in kept <==> p in products && Priced(p)
    ensures (forall p :: p in products ==> Priced(p)) ==> kept == products
  {
    if products == [] then []
    else
      assert products == [products[0]] + products[1..];
      if Priced(products[0]) then [products[0]] + FilterPriced(products[1..])
      else FilterPriced(products[1..])
  }

  /** Filtering a concatenation filters each part and keeps them in order. */
  lemma {:induction false} FilterPricedAppend(a: seq<Product>, b: seq<Product>)
    ensures FilterPriced(a + b) == FilterPriced(a) + FilterPriced(b)
  {
    if a == [] {
      assert a + b == b;
    } else {
      assert (a + b)[1..] == a[1..] + b;
      FilterPricedAppend(a[1..], b);
    }
  }

  /**
   * The `line_items` of a checkout for `priced`: one entry per product, in
   * order, each with its price and quantity 1, then the fee entry.
   */
  predicate LineItemsMatch(priced: seq<Product>, items: seq<LineItem>) {
    && |items| == |priced| + 1
    && (forall i :: 0 <= i < |priced| ==> items[i] == ProductLine(priced[i]))
    && items[|priced|] == FeeLine
  }

  /** Builds `line_items` by pushing one entry per product and then the fee entry. */
  method BuildLineItems(priced: seq<Product>) returns (items: seq<LineItem>)
    ensures LineItemsMatch(priced, items)
  {
    items := [];
    var i := 0;
    while i < |priced|
      invariant 0 <= i <= |priced|
      invariant |items| == i
      invariant forall k :: 0 <= k < i ==> items[k] == ProductLine(priced[k])
    {
      items := items + [ProductLine(priced[i])];
      i := i + 1;
    }
    items := items + [FeeLine];
  }

  /** The products a checkout for `productIds` charges for, given the store's products. */
  function CheckoutProducts(products: seq<Product>, productIds: seq<Id>): seq<Product> {
    FilterPriced(FindByIds(products, productIds))
  }

  /**
   * `createSession` for the signed-in user `caller`. An empty cart is refused
   * before anything is stored. Otherwise an unpaid order owned by the caller,
   * listing the priced products found, is stored under `newOrderId` (the id the
   * store assigns), the session request is sent, and the provider's url is
   * returned, or no url when the provider fails; the order stays either way.
   */
  method CreateSession(db: Database, caller: Id, productIds: seq<Id>, serverUrl: string,
                       newOrderId: Id, provider: ProviderReply)
    returns (url: Result<Option<string>, RouterError>, sent: Option<SessionRequest>)
    requires newOrderId !in db.orders
    modifies db`orders
    ensures productIds == [] ==> url == Err(BadRequest) && sent == None && db.orders == old(db.orders)
    ensures productIds != [] ==>
      var priced := CheckoutProducts(db.products, productIds);
      && db.orders == old(db.orders)[newOrderId := Order(caller, ProductIds(priced), false)]
      && sent.Some?
      && LineItemsMatch(priced, sent.value.lineItems)
      && sent.value.metadata == SessionMetadata(caller, newOrderId)
      && sent.value.successUrl == serverUrl + "/thank-you?orderId=" + newOrderId
      && sent.value.cancelUrl == serverUrl + "/cart"
      && sent.value.paymentMethodTypes == ["card"] && sent.value.mode == "payment"
      && url == Ok(if provider.SessionCreated? then Some(provider.url) else None)
    ensures productIds != [] ==>
      db.orders.Keys == old(db.orders).Keys + {newOrderId} && PollOrderStatus(db, newOrderId) == Ok(false)
  {
    if |productIds| == 0 {
      return Err(BadRequest), None;
    }
    var priced := FilterPriced(FindByIds(db.products, productIds));
    db.orders := db.orders[newOrderId := Order(caller, ProductIds(priced), false)];
    var items := BuildLineItems(priced);
    var request := SessionRequest(
      serverUrl + "/thank-you?orderId=" + newOrderId,
      serverUrl + "/cart",
      ["card"],
      "payment",
      SessionMetadata(caller, newOrderId),
      items);
    sent := Some(request);
    match provider
    case SessionCreated(u) => url := Ok(Some(u));
    case ProviderFailed => url := Ok(None);
  }

  /**
   * `pollOrderStatus`: the paid flag of the order with id `orderId`, or
   * NOT_FOUND when the store holds no such order.
   */
  function PollOrderStatus(db: Database, orderId: Id): (status: Result<bool, RouterError>)
    reads db
    ensures status.Err? <==> orderId !in db.orders
    ensures status.Err? ==> status.error == NotFound
    ensures status.Ok? ==> status.value == db.orders[orderId].isPaid
  {
    if orderId in db.orders then Ok(db.orders[orderId].isPaid) else Err(NotFound)
  }
}
