/**
 * The two halves of a purchase together: the metadata `createSession`
 * attaches to a session comes back in the provider's completion event, and
 * the webhook then marks the order `createSession` stored as paid.
 */
module CheckoutFlow {
  import opened Domain
  import PaymentRouter
  import Webhooks

  /**
   * A completion event carrying a session's metadata passes the metadata
   * guard and pays exactly the session's order, provided the user and the
   * order exist and both ids are non-empty.
   */
  lemma CompletionPaysSessionOrder(users: map<Id, User>, orders: map<Id, Order>, userId: Id, orderId: Id,
                                   receipt: Webhooks.ReceiptOutcome)
    requires userId != "" && orderId != ""
    requires userId in users && orderId in orders
    ensures var d := Webhooks.Verified(Webhooks.Event(Webhooks.CheckoutCompleted,
                                                      PaymentRouter.SessionMetadata(userId, orderId)));
            var t := Webhooks.Reconcile(users, orders, d, receipt);
            && t.orders[orderId] == orders[orderId].(isPaid := true)
            && (forall id :: id in orders && id != orderId ==> t.orders[id] == orders[id])
  {
  }

  /**
   * A checkout for a non-empty cart followed by the provider's completion
   * event for the session it requested: the new order polls as paid.
   */
  method CheckoutThenComplete(db: Database, caller: Id, productIds: seq<Id>, serverUrl: string,
                              newOrderId: Id, provider: PaymentRouter.ProviderReply,
                              receipt: Webhooks.ReceiptOutcome)
    returns (status: nat)
    requires newOrderId !in db.orders
    requires productIds != [] && caller != "" && newOrderId != "" && caller in db.users
    modifies db`orders
    ensures PaymentRouter.PollOrderStatus(db, newOrderId) == Ok(true)
    ensures status == if receipt.Sent? then 200 else 500
  {
    var url, sent := PaymentRouter.CreateSession(db, caller, productIds, serverUrl, newOrderId, provider);
    assert PaymentRouter.PollOrderStatus(db, newOrderId) == Ok(false);
    var event := Webhooks.Event(Webhooks.CheckoutCompleted, sent.value.metadata);
    CompletionPaysSessionOrder(db.users, db.orders, caller, newOrderId, receipt);
    assert Webhooks.ReachesUpdate(db.users, db.orders, Webhooks.Verified(event));
    var responses, calls;
    status, responses, calls := Webhooks.StripeWebhookHandler(db, Webhooks.Verified(event), receipt);
  }
}
