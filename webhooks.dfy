/**
 * The payment provider's webhook handler. It checks the signature, the
 * session metadata and the event type, looks up the user and the order,
 * marks the order paid and sends a receipt. `Reconcile` states the whole
 * transition as a value; `StripeWebhookHandler` performs it step by step
 * on the store.
 */
module Webhooks {
  import opened Domain

  const CheckoutCompleted: string := "checkout.session.completed"

  /** A verified event: its type and its checkout session's metadata (empty when absent). */
  datatype Event = Event(kind: string, metadata: map<string, string>)

  /** The outcome of the provider's signature check on the raw request. */
  datatype Delivery = BadSignature | Verified(event: Event)

  /** Whether the receipt send returned or threw. */
  datatype ReceiptOutcome = Sent | SendFailed

  /** The calls the handler makes on the store and the mailer, in order. */
  datatype Call =
    | FindUser(userId: Id)
    | FindOrder(orderId: Id)
    | SetPaid(orderId: Id)
    | SendReceipt(to: string, orderId: Id, products: seq<Id>)

  /**
   * One delivery's effect: the statuses written to the response, in order
   * (the first is what the provider receives), the calls made, and the
   * orders afterwards.
   */
  datatype Transition = Transition(responses: seq<nat>, calls: seq<Call>, orders: map<Id, Order>)

  /** A metadata value, with a missing key read as the empty (falsy) string. */
  function MetadataField(metadata: map<string, string>, key: string): string {
    if key in metadata then metadata[key] else ""
  }

  function UserIdOf(e: Event): Id { MetadataField(e.metadata, "userId") }

  function OrderIdOf(e: Event): Id { MetadataField(e.metadata, "orderId") }

  /** The metadata guard: both ids present and non-empty. */
  predicate HasIds(e: Event) {
    UserIdOf(e) != "" && OrderIdOf(e) != ""
  }

  /** A verified completion event that passes the metadata guard. */
  predicate IsCompletion(d: Delivery) {
    d.Verified? && HasIds(d.event) && d.event.kind == CheckoutCompleted
  }

  /** The delivery gets past every guard and reaches the order update. */
  predicate ReachesUpdate(users: map<Id, User>, orders: map<Id, Order>, d: Delivery) {
    IsCompletion(d) && UserIdOf(d.event) in users && OrderIdOf(d.event) in orders
  }

  /** The orders with `orderId` marked paid and everything else as it was. */
  function MarkPaid(orders: map<Id, Order>, orderId: Id): map<Id, Order>
    requires orderId in orders
  {
    orders[orderId := orders[orderId].(isPaid := true)]
  }

  /** How many receipt sends a list of calls contains. */
  function ReceiptsSent(calls: seq<Call>): nat {
    if calls == [] then 0
    else (if calls[0].SendReceipt? then 1 else 0) + ReceiptsSent(calls[1..])
  }

  /**
   * The handler's transition. Every guard answers with one response and
   * leaves the orders as they were; a bad signature does so before any
   * lookup. A delivery that reaches the update marks exactly its order paid,
   * whatever the order's owner or previous flag, sends one receipt, and
   * answers 200, or 500 when the send fails, before the final 200.
   */
  function Reconcile(users: map<Id, User>, orders: map<Id, Order>, d: Delivery, receipt: ReceiptOutcome)
    : (t: Transition)
    ensures |t.responses| >= 1
    ensures t.orders.Keys == orders.Keys
    ensures forall id :: id in orders && orders[id].isPaid ==> t.orders[id].isPaid
    ensures d.BadSignature? ==> t.responses == [400] && t.calls == [] && t.orders == orders
    ensures d.Verified? && !HasIds(d.event) ==> t.responses == [400] && t.calls == [] && t.orders == orders
    ensures d.Verified? && HasIds(d.event) && d.event.kind != CheckoutCompleted ==>
      t.responses == [200] && t.calls == [] && t.orders == orders
    ensures IsCompletion(d) && UserIdOf(d.event) !in users ==>
      t.responses == [404] && t.orders == orders && ReceiptsSent(t.calls) == 0
    ensures IsCompletion(d) && UserIdOf(d.event) in users && OrderIdOf(d.event) !in orders ==>
      t.responses == [404] && t.orders == orders && ReceiptsSent(t.calls) == 0
    ensures ReachesUpdate(users, orders, d) ==>
      && t.orders[OrderIdOf(d.event)].isPaid
      && (forall id :: id in orders && id != OrderIdOf(d.event) ==> t.orders[id] == orders[id])
      && t.orders[OrderIdOf(d.event)].user == orders[OrderIdOf(d.event)].user
      && t.orders[OrderIdOf(d.event)].products == orders[OrderIdOf(d.event)].products
      && t.calls == [FindUser(UserIdOf(d.event)), FindOrder(OrderIdOf(d.event)), SetPaid(OrderIdOf(d.event)),
                     SendReceipt(users[UserIdOf(d.event)].email, OrderIdOf(d.event),
                                 orders[OrderIdOf(d.event)].products)]
      && ReceiptsSent(t.calls) == 1
      && t.responses == [if receipt.Sent? then 200 else 500, 200]
    ensures t.responses[0] == 200 ==> t.orders == orders || ReachesUpdate(users, orders, d)
  {
    if d.BadSignature? then Transition([400], [], orders)
    else if !HasIds(d.event) then Transition([400], [], orders)
    else
      var userId, orderId := UserIdOf(d.event), OrderIdOf(d.event);
      if d.event.kind != CheckoutCompleted then Transition([200], [], orders)
      else if userId !in users then Transition([404], [FindUser(userId)], orders)
      else if orderId !in orders then
        var calls := [FindUser(userId), FindOrder(orderId)];
        assert calls[1..] == [FindOrder(orderId)] && calls[1..][1..] == [];
        Transition([404], calls, orders)
      else
        var calls := [FindUser(userId), FindOrder(orderId), SetPaid(orderId),
                      SendReceipt(users[userId].email, orderId, orders[orderId].products)];
        assert ReceiptsSent(calls) == 1 by {
          assert calls[3..][1..] == [] && ReceiptsSent(calls[3..]) == 1;
          assert calls[2..][1..] == calls[3..] && ReceiptsSent(calls[2..]) == 1;
          assert calls[1..][1..] == calls[2..] && ReceiptsSent(calls[1..]) == 1;
        }
        Transition([if receipt.Sent? then 200 else 500, 200], calls, MarkPaid(orders, orderId))
  }

  /**
   * Redelivering an event leaves the orders as the first delivery left them,
   * whatever either receipt send does, and sends the receipt again.
   */
  lemma ReplayIsIdempotent(users: map<Id, User>, orders: map<Id, Order>, d: Delivery,
                            first: ReceiptOutcome, second: ReceiptOutcome)
    ensures var once := Reconcile(users, orders, d, first);
            var twice := Reconcile(users, once.orders, d, second);
            && twice.orders == once.orders
            && ReceiptsSent(twice.calls) == ReceiptsSent(once.calls)
  {
  }

  /**
   * The handler never compares the order's owner with the event's user:
   * giving the order any other owner changes neither the responses, nor the
   * receipt's recipient, nor whether the order ends up paid, nor any other order.
   */
  lemma OwnerIsNotChecked(users: map<Id, User>, orders: map<Id, Order>, d: Delivery,
                          receipt: ReceiptOutcome, orderId: Id, owner: Id)
    requires orderId in orders
    ensures var t := Reconcile(users, orders, d, receipt);
            var t' := Reconcile(users, orders[orderId := orders[orderId].(user := owner)], d, receipt);
            && t'.responses == t.responses
            && t'.calls == t.calls
            && t'.orders[orderId].isPaid == t.orders[orderId].isPaid
            && (forall id :: id in orders && id != orderId ==> t'.orders[id] == t.orders[id])
  {
  }

  /**
   * `stripeWebhookHandler` on the store: the guard chain with its early
   * returns, the update, the receipt send, and the final `200` written after
   * the receipt's own response. Its effect is `Reconcile`'s, and `status` is
   * the first response written.
   */
  method StripeWebhookHandler(db: Database, d: Delivery, receipt: ReceiptOutcome)
    returns (status: nat, responses: seq<nat>, calls: seq<Call>)
    modifies db`orders
    ensures var t := Reconcile(old(db.users), old(db.orders), d, receipt);
            responses == t.responses && calls == t.calls && db.orders == t.orders
    ensures status == responses[0]
    ensures db.users == old(db.users) && db.products == old(db.products)
  {
    calls := [];
    if d.BadSignature? {
      return 400, [400], calls;
    }
    var event := d.event;
    var userId := MetadataField(event.metadata, "userId");
    var orderId := MetadataField(event.metadata, "orderId");
    if userId == "" || orderId == "" {
      return 400, [400], calls;
    }
    responses := [];
    if event.kind == CheckoutCompleted {
      calls := calls + [FindUser(userId)];
      if userId !in db.users {
        return 404, [404], calls;
      }
      var user := db.users[userId];
      calls := calls + [FindOrder(orderId)];
      if orderId !in db.orders {
        return 404, [404], calls;
      }
      var order := db.orders[orderId];
      db.orders := db.orders[orderId := db.orders[orderId].(isPaid := true)];
      calls := calls + [SetPaid(orderId), SendReceipt(user.email, orderId, order.products)];
      match receipt
      case Sent => responses := responses + [200];
      case SendFailed => responses := responses + [500];
    }
    responses := responses + [200];
    status := responses[0];
  }
}
