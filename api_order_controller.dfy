/**
 * The JSON API order controller (app/Http/Controllers/API/OrderController.php):
 * order creation behind the amount rule, and payment processing, which marks
 * both records paid on a successful response, only schedules a delayed retry
 * on any other response, and on an exception schedules a retry and marks both
 * records failed.
 */
module ApiOrderController {
  import opened Wrappers
  import opened OrderStatus
  import opened Records
  import opened Helpers
  import MockStripe

  /** The `amount` rule `/^[A-Za-z$]{1,3}\d+$/`, written out over the characters. */
  predicate AmountRule(s: string) {
    var c := CurrencyRun(s);
    1 <= |c| <= 3 && |c| < |s| && AllDigits(s[|c|..])
  }

  /** The same rule read as the regular expression says it: some split into 1-3 currency characters and digits. */
  ghost predicate MatchesAmountPattern(s: string) {
    exists k :: 1 <= k <= 3 && k < |s| && AllCurrency(s[..k]) && AllDigits(s[k..])
  }

  /** The written-out rule accepts exactly the strings the regular expression matches. */
  lemma AmountRuleMatchesPattern(s: string)
    ensures AmountRule(s) <==> MatchesAmountPattern(s)
  {
    var c := CurrencyRun(s);
    if AmountRule(s) {
      assert s[..|c|] == c;
      assert AllCurrency(s[..|c|]) && AllDigits(s[|c|..]);
    }
    if MatchesAmountPattern(s) {
      var k :| 1 <= k <= 3 && k < |s| && AllCurrency(s[..k]) && AllDigits(s[k..]);
      assert s == s[..k] + s[k..];
      assert s[k..][0] == s[k] && IsDigit(s[k]);
      CurrencyRunOf(s[..k], s[k..]);
    }
  }

  /** `$100` passes the rule. */
  lemma AmountRuleAcceptsDollar()
    ensures AmountRule("$100")
  {
    CurrencyRunOf("$", "100");
    assert "$100" == "$" + "100";
    assert "$100"[1..] == "100";
  }

  /** `INVALID` is refused: its currency part is too long and no digit follows. */
  lemma AmountRuleRefusesWord()
    ensures !AmountRule("INVALID")
  {
    CurrencyRunOf("INVALID", "");
    assert "INVALID" + "" == "INVALID";
  }

  /** `RON5000.00` is refused, although the rule's error message offers it as an example. */
  lemma AmountRuleRefusesDecimal()
    ensures !AmountRule("RON5000.00")
  {
    var s := "RON5000.00";
    CurrencyRunOf("RON", "5000.00");
    assert s == "RON" + "5000.00";
    assert |CurrencyRun(s)| == 3;
    assert s[3..][4] == '.';
  }

  /**
   * For an accepted amount, the extracted currency (1-3 characters) followed
   * by the extracted numeric text gives back the amount.
   */
  lemma AmountRoundTrip(s: string)
    ensures AmountRule(s) ==>
      && ExtractCurrency(s).Some? && ExtractAmount(s).Some?
      && ExtractCurrency(s).value + ExtractAmount(s).value == s
      && 1 <= |ExtractCurrency(s).value| <= 3
  {
    if AmountRule(s) {
      var c := CurrencyRun(s);
      var d := s[|c|..];
      assert s == c + d;
      CurrencyHasNoDigit(c);
      ExtractAmountSkips(c, d);
      NumberOfNumberText(d, "");
    }
  }

  /** `preparePaymentData`: the charge payload built from the order's amount and id. */
  function PreparePaymentData(id: nat, order: Order): (p: Payload)
    ensures p.orderId == id && p.paymentMethod == PaymentMethod
    ensures AmountRule(order.amount) ==>
      p.currency.Some? && p.amount.Some? && p.currency.value + p.amount.value == order.amount
  {
    AmountRoundTrip(order.amount);
    Payload(ExtractAmount(order.amount), ExtractCurrency(order.amount), id, PaymentMethod)
  }

  /** `createOrder`: a pending order for the authenticated user. */
  method CreateOrder(store: Store, userId: nat, amount: string) returns (id: nat)
    requires store.Valid()
    modifies store
    ensures store.Valid()
    ensures id == old(store.nextId) && id !in old(store.orders) && id !in store.transactions
    ensures store.orders == old(store.orders)[id := Order(userId, amount, Pending, None)]
    ensures store.transactions == old(store.transactions) && store.queue == old(store.queue)
    ensures store.trace == old(store.trace) + [OrderCreated(id)]
  {
    id := store.CreateOrder(userId, amount);
  }

  /** `createTransaction`: the order's pending `stripe` transaction. */
  method CreateTransaction(store: Store, id: nat)
    requires store.Valid() && id in store.orders && id !in store.transactions
    modifies store
    ensures store.Valid()
    ensures store.transactions == old(store.transactions)[id := Transaction(PaymentProvider, Pending, None)]
    ensures store.orders == old(store.orders) && store.queue == old(store.queue)
    ensures store.nextId == old(store.nextId)
    ensures store.trace == old(store.trace) + [TransactionCreated(id)]
  {
    store.CreateTransaction(id, PaymentProvider);
  }

  /**
   * `store`: validate the amount (required, then the rule), then create the
   * order and its transaction. A refused amount changes nothing.
   */
  method StoreOrder(store: Store, userId: nat, amount: Option<string>) returns (reply: Reply)
    requires store.Valid()
    modifies store
    ensures store.Valid()
    ensures !(amount.Some? && AmountRule(amount.value)) ==>
      && reply == ValidationFailed("amount")
      && store.orders == old(store.orders) && store.transactions == old(store.transactions)
      && store.nextId == old(store.nextId) && store.trace == old(store.trace)
    ensures amount.Some? && AmountRule(amount.value) ==>
      var id := old(store.nextId);
      && reply == JsonReply("success", "Order created successfully!", 200)
      && id !in old(store.orders) && id !in old(store.transactions)
      && store.orders == old(store.orders)[id := Order(userId, amount.value, Pending, None)]
      && store.transactions == old(store.transactions)[id := Transaction(PaymentProvider, Pending, None)]
      && |store.orders| == |old(store.orders)| + 1
      && |store.transactions| == |old(store.transactions)| + 1
      && store.trace == old(store.trace) + [OrderCreated(id), TransactionCreated(id)]
    ensures store.queue == old(store.queue)
    ensures old(store.Paired()) ==> store.Paired()
  {
    if !(amount.Some? && AmountRule(amount.value)) {
      return ValidationFailed("amount");
    }
    var id := CreateOrder(store, userId, amount.value);
    CreateTransaction(store, id);
    reply := JsonReply("success", "Order created successfully!", 200);
  }

  /** `retryPaymentLater`: queue one payment job for the order, five minutes ahead. */
  method RetryPaymentLater(store: Store, id: nat, payload: Payload)
    requires store.Valid()
    modifies store
    ensures store.Valid()
    ensures store.queue == old(store.queue) + [QueuedJob(id, payload, RetryDelayMinutes)]
    ensures store.orders == old(store.orders) && store.transactions == old(store.transactions)
    ensures store.nextId == old(store.nextId)
    ensures store.trace == old(store.trace) + [RetryQueued(id)]
  {
    store.Dispatch(QueuedJob(id, payload, RetryDelayMinutes));
  }

  /** `handleSuccessfulPayment`: the body into `response_data`, both records `paid`. */
  method HandleSuccessfulPayment(store: Store, id: nat, body: Body)
    requires store.Valid() && id in store.orders && id in store.transactions
    modifies store
    ensures store.Valid()
    ensures store.transactions == old(store.transactions)[id :=
      old(store.transactions)[id].(status := Paid, responseData := Some(JsonBody(body)))]
    ensures store.orders == old(store.orders)[id := old(store.orders)[id].(status := Paid)]
    ensures store.queue == old(store.queue) && store.nextId == old(store.nextId)
    ensures store.trace == old(store.trace) + [TransactionWritten(id), OrderWritten(id)]
  {
    store.UpdateTransaction(id, TransactionAttrs(Some(Paid), Some(JsonBody(body))));
    store.UpdateOrderStatus(id, Paid);
  }

  /**
   * `handleFailedPayment`: schedule a retry with a freshly prepared payload,
   * then the exception message into `response_data` and both records `failed`.
   */
  method HandleFailedPayment(store: Store, id: nat, message: string)
    requires store.Valid() && id in store.orders && id in store.transactions
    modifies store
    ensures store.Valid()
    ensures store.queue == old(store.queue) + [QueuedJob(id, PreparePaymentData(id, old(store.orders)[id]), RetryDelayMinutes)]
    ensures store.transactions == old(store.transactions)[id :=
      old(store.transactions)[id].(status := OrderStatusEnum.Failed, responseData := Some(Message(message)))]
    ensures store.orders == old(store.orders)[id := old(store.orders)[id].(status := OrderStatusEnum.Failed)]
    ensures store.nextId == old(store.nextId)
    ensures store.trace == old(store.trace) + [RetryQueued(id), TransactionWritten(id), OrderWritten(id)]
  {
    RetryPaymentLater(store, id, PreparePaymentData(id, store.orders[id]));
    store.UpdateTransaction(id, TransactionAttrs(Some(OrderStatusEnum.Failed), Some(Message(message))));
    store.UpdateOrderStatus(id, OrderStatusEnum.Failed);
  }

  /**
   * `processPayment` for order `id`, given the gateway's answer. A missing
   * order is a 404 and changes nothing. When the order has no transaction,
   * passing it on to the handlers is a type error that nothing catches, so
   * nothing is written; the retry of a non-successful response does not need
   * the transaction and still happens.
   */
  method ProcessPayment(store: Store, id: nat, response: GatewayResponse) returns (reply: Reply)
    requires store.Valid()
    modifies store
    ensures store.Valid() && store.nextId == old(store.nextId)
    ensures id !in old(store.orders) ==>
      && reply == NotFound
      && store.orders == old(store.orders) && store.transactions == old(store.transactions)
      && store.queue == old(store.queue) && store.trace == old(store.trace)
    ensures id in old(store.orders) ==>
      var order, hasTransaction := old(store.orders)[id], id in old(store.transactions);
      var retry := QueuedJob(id, PreparePaymentData(id, order), RetryDelayMinutes);
      match response
      case Successful(body) =>
        if hasTransaction then
          && reply == JsonReply("success", "Payment processed successfully.", 200)
          && store.orders == old(store.orders)[id := order.(status := Paid)]
          && store.transactions == old(store.transactions)[id :=
               old(store.transactions)[id].(status := Paid, responseData := Some(JsonBody(body)))]
          && store.queue == old(store.queue)
          && store.trace == old(store.trace) + [TransactionWritten(id), OrderWritten(id)]
        else
          && reply == Uncaught
          && store.orders == old(store.orders) && store.transactions == old(store.transactions)
          && store.queue == old(store.queue) && store.trace == old(store.trace)
      case Threw(message) =>
        if hasTransaction then
          && reply == JsonReply("error", "An error occurred: " + message, 500)
          && store.queue == old(store.queue) + [retry]
          && store.orders == old(store.orders)[id := order.(status := OrderStatusEnum.Failed)]
          && store.transactions == old(store.transactions)[id :=
               old(store.transactions)[id].(status := OrderStatusEnum.Failed, responseData := Some(Message(message)))]
          && store.trace == old(store.trace) + [RetryQueued(id), TransactionWritten(id), OrderWritten(id)]
        else
          && reply == Uncaught
          && store.orders == old(store.orders) && store.transactions == old(store.transactions)
          && store.queue == old(store.queue) && store.trace == old(store.trace)
      case _ =>
        && reply == Empty
        && store.queue == old(store.queue) + [retry]
        && store.orders == old(store.orders) && store.transactions == old(store.transactions)
        && store.trace == old(store.trace) + [RetryQueued(id)]
    ensures old(store.Paired()) ==> store.Paired()
  {
    if id !in store.orders {
      return NotFound;
    }
    var payload := PreparePaymentData(id, store.orders[id]);
    var hasTransaction := id in store.transactions;
    match response
    case Successful(body) =>
      if !hasTransaction {
        return Uncaught;
      }
      HandleSuccessfulPayment(store, id, body);
      reply := JsonReply("success", "Payment processed successfully.", 200);
    case Threw(message) =>
      if !hasTransaction {
        return Uncaught;
      }
      HandleFailedPayment(store, id, message);
      reply := JsonReply("error", "An error occurred: " + message, 500);
    case _ =>
      RetryPaymentLater(store, id, payload);
      reply := Empty;
  }

  /**
   * The mock provider's webhook run as the gateway call, then `processPayment`
   * on its answer: for an order with a transaction, both records end with the
   * outcome the mock drew. A `PAID` draw is finalised by the controller; a
   * `FAILED` draw was written by the mock and the controller only queues a retry.
   */
  method ProcessPaymentThroughMock(store: Store, id: nat, draw: int) returns (reply: Reply)
    requires store.Valid()
    modifies store
    ensures store.Valid()
    ensures id !in old(store.orders) ==>
      reply == NotFound && store.orders == old(store.orders) && store.transactions == old(store.transactions)
      && store.queue == old(store.queue)
    ensures id in old(store.orders) && id !in old(store.transactions) ==>
      var outcome := MockStripe.SimulatePaymentStatus(draw);
      && store.orders == old(store.orders)[id := old(store.orders)[id].(status := outcome)]
      && store.transactions == old(store.transactions)
      && (outcome == Paid ==> reply == Uncaught && store.queue == old(store.queue))
      && (outcome == OrderStatusEnum.Failed ==>
            reply == Empty
            && store.queue == old(store.queue) + [QueuedJob(id, PreparePaymentData(id, old(store.orders)[id]), RetryDelayMinutes)])
    ensures id in old(store.orders) && id in old(store.transactions) ==>
      var outcome := MockStripe.SimulatePaymentStatus(draw);
      && id in store.orders && id in store.transactions
      && store.orders[id].status == outcome && store.transactions[id].status == outcome
      && (outcome == Paid ==> reply == JsonReply("success", "Payment processed successfully.", 200)
                              && store.queue == old(store.queue))
      && (outcome == OrderStatusEnum.Failed ==>
            reply == Empty
            && store.queue == old(store.queue) + [QueuedJob(id, PreparePaymentData(id, old(store.orders)[id]), RetryDelayMinutes)])
    ensures old(store.Paired()) ==> store.Paired()
  {
    if id !in store.orders {
      return NotFound;
    }
    var payload := PreparePaymentData(id, store.orders[id]);
    var answer := MockStripe.HandleWebhook(store, payload, draw);
    MockStripe.RespondFollowsOutcome(draw);
    reply := ProcessPayment(store, id, MockStripe.ClientView(answer));
  }
}
