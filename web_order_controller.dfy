/**
 * The browser-facing order controller (app/Http/Controllers/OrderController.php):
 * order creation behind an amount rule that also admits 1-2 fraction digits,
 * and a payment action that marks both records paid or failed from the
 * gateway's answer and never schedules a retry.
 */
module WebOrderController {
  import opened Wrappers
  import opened OrderStatus
  import opened Records
  import opened Helpers
  import MockStripe
  import ApiOrderController

  /** `(\.\d{1,2})?$`: nothing, or a dot and one or two digits. */
  predicate FractionTail(t: string) {
    t == [] || (t[0] == '.' && 2 <= |t| <= 3 && AllDigits(t[1..]))
  }

  /** `\d+(\.\d{1,2})?$` written out: the digit run, then a fraction tail. */
  predicate NumberRule(t: string) {
    var d := |DigitRun(t)|;
    d >= 1 && FractionTail(t[d..])
  }

  /** The `amount` rule `/^[A-Za-z$]{1,3}\d+(\.\d{1,2})?$/`, written out over the characters. */
  predicate AmountRule(s: string) {
    var c := |CurrencyRun(s)|;
    1 <= c <= 3 && NumberRule(s[c..])
  }

  /** `\d+(\.\d{1,2})?$` as the regular expression reads: some split into digits and a fraction tail. */
  ghost predicate MatchesNumberPattern(t: string) {
    exists m :: 1 <= m <= |t| && AllDigits(t[..m]) && FractionTail(t[m..])
  }

  /** The whole rule as the regular expression reads: 1-3 currency characters, then the number. */
  ghost predicate MatchesAmountPattern(s: string) {
    exists k :: 1 <= k <= 3 && k <= |s| && AllCurrency(s[..k]) && MatchesNumberPattern(s[k..])
  }

  /** The written-out number part accepts exactly what its regular expression matches. */
  lemma NumberRuleMatchesPattern(t: string)
    ensures NumberRule(t) <==> MatchesNumberPattern(t)
  {
    var d := DigitRun(t);
    if NumberRule(t) {
      assert t[..|d|] == d;
    }
    if MatchesNumberPattern(t) {
      var m :| 1 <= m <= |t| && AllDigits(t[..m]) && FractionTail(t[m..]);
      assert t == t[..m] + t[m..];
      DigitRunOf(t[..m], t[m..]);
    }
  }

  /** What the written-out rule accepts, the regular expression matches. */
  lemma AmountRuleSound(s: string)
    requires AmountRule(s)
    ensures MatchesAmountPattern(s)
  {
    var c := CurrencyRun(s);
    NumberRuleMatchesPattern(s[|c|..]);
    assert s[..|c|] == c;
  }

  /** What the regular expression matches, the written-out rule accepts. */
  lemma AmountRuleComplete(s: string)
    requires MatchesAmountPattern(s)
    ensures AmountRule(s)
  {
    var k :| 1 <= k <= 3 && k <= |s| && AllCurrency(s[..k]) && MatchesNumberPattern(s[k..]);
    NumberRuleMatchesPattern(s[k..]);
    assert s == s[..k] + s[k..];
    assert IsDigit(DigitRun(s[k..])[0]);
    CurrencyRunOf(s[..k], s[k..]);
  }

  /** The written-out rule accepts exactly the strings the regular expression matches. */
  lemma AmountRuleMatchesPattern(s: string)
    ensures AmountRule(s) <==> MatchesAmountPattern(s)
  {
    if AmountRule(s) {
      AmountRuleSound(s);
    }
    if MatchesAmountPattern(s) {
      AmountRuleComplete(s);
    }
  }

  /** `RON500.00` passes. */
  lemma AmountRuleAcceptsDecimal()
    ensures AmountRule("RON500.00")
  {
    CurrencyRunOf("RON", "500.00");
    assert "RON500.00" == "RON" + "500.00";
    assert "RON500.00"[3..] == "500" + ".00";
    DigitRunOf("500", ".00");
    assert ("500" + ".00")[3..] == ".00";
  }

  /** `RON500.000` is refused: at most two fraction digits. */
  lemma AmountRuleRefusesThreeFractionDigits()
    ensures !AmountRule("RON500.000")
  {
    CurrencyRunOf("RON", "500.000");
    assert "RON500.000" == "RON" + "500.000";
    assert "RON500.000"[3..] == "500" + ".000";
    DigitRunOf("500", ".000");
    assert ("500" + ".000")[3..] == ".000";
  }

  /** The numeric part of an accepted amount is matched whole by `extractAmount`. */
  lemma NumberRoundTrip(t: string)
    requires NumberRule(t)
    ensures ExtractAmount(t) == Some(t)
  {
    var d := DigitRun(t);
    var tail := t[|d|..];
    assert t == d + tail;
    if tail == [] {
      assert t == d;
      NumberOfNumberText(d, "");
    } else {
      var f := tail[1..];
      assert tail == "." + f;
      assert t == d + "." + f;
      NumberOfNumberText(d, f);
    }
  }

  /**
   * For an accepted amount, the extracted currency (1-3 characters) followed
   * by the extracted numeric text gives back the amount.
   */
  lemma AmountRoundTrip(s: string)
    ensures AmountRule(s) ==>
      && ExtractCurrency(s).Some? && ExtractAmount(s).Some?
      && ExtractCurrency(s).value + ExtractAmount(s).value == s
      && 1 <= |ExtractCurrency(s).value| <= 3
  {
    if AmountRule(s) {
      var c := CurrencyRun(s);
      var rest := s[|c|..];
      assert s == c + rest;
      CurrencyHasNoDigit(c);
      ExtractAmountSkips(c, rest);
      NumberRoundTrip(rest);
    }
  }

  /**
   * `paymentStore` builds the same payload inline as the JSON API's
   * `preparePaymentData`; for an amount this rule accepts, its currency and
   * amount rebuild the order's amount.
   */
  lemma PaymentDataRoundTrip(id: nat, order: Order)
    ensures var p := ApiOrderController.PreparePaymentData(id, order);
      && p.orderId == id && p.paymentMethod == PaymentMethod
      && (AmountRule(order.amount) ==>
            p.currency.Some? && p.amount.Some? && p.currency.value + p.amount.value == order.amount)
  {
    AmountRoundTrip(order.amount);
  }

  /** `createOrderWithTransaction`: a pending order and its pending `stripe` transaction. */
  method CreateOrderWithTransaction(store: Store, userId: nat, amount: string) returns (id: nat)
    requires store.Valid()
    modifies store
    ensures store.Valid()
    ensures id == old(store.nextId) && id !in old(store.orders) && id !in old(store.transactions)
    ensures store.orders == old(store.orders)[id := Order(userId, amount, Pending, None)]
    ensures store.transactions == old(store.transactions)[id := Transaction(PaymentProvider, Pending, None)]
    ensures store.queue == old(store.queue)
    ensures store.trace == old(store.trace) + [OrderCreated(id), TransactionCreated(id)]
  {
    id := store.CreateOrder(userId, amount);
    store.CreateTransaction(id, PaymentProvider);
  }

  /** `store`: validate the amount, then create the order with its transaction. */
  method StoreOrder(store: Store, userId: nat, amount: Option<string>) returns (reply: Reply)
    requires store.Valid()
    modifies store
    ensures store.Valid()
    ensures !(amount.Some? && AmountRule(amount.value)) ==>
      && reply == ValidationFailed("amount")
      && store.orders == old(store.orders) && store.transactions == old(store.transactions)
      && store.nextId == old(store.nextId) && store.trace == old(store.trace)
    ensures amount.Some? && AmountRule(amount.value) ==>
      var id := old(store.nextId);
      && reply == Redirect("success", "Order created successfully!")
      && store.orders == old(store.orders)[id := Order(userId, amount.value, Pending, None)]
      && store.transactions == old(store.transactions)[id := Transaction(PaymentProvider, Pending, None)]
      && |store.orders| == |old(store.orders)| + 1
      && |store.transactions| == |old(store.transactions)| + 1
    ensures store.queue == old(store.queue)
    ensures old(store.Paired()) ==> store.Paired()
  {
    if !(amount.Some? && AmountRule(amount.value)) {
      return ValidationFailed("amount");
    }
    var id := CreateOrderWithTransaction(store, userId, amount.value);
    reply := Redirect("success", "Order created successfully!");
  }

  /** `handleFailedPayment`: the message into `response_data`, both records `failed`. */
  method HandleFailedPayment(store: Store, id: nat, message: string) returns (reply: Reply)
    requires store.Valid() && id in store.orders && id in store.transactions
    modifies store
    ensures store.Valid()
    ensures reply == Redirect("error", "An error occurred: " + message)
    ensures store.transactions == old(store.transactions)[id :=
      old(store.transactions)[id].(status := OrderStatusEnum.Failed, responseData := Some(Message(message)))]
    ensures store.orders == old(store.orders)[id := old(store.orders)[id].(status := OrderStatusEnum.Failed)]
    ensures store.queue == old(store.queue) && store.nextId == old(store.nextId)
    ensures store.trace == old(store.trace) + [TransactionWritten(id), OrderWritten(id)]
  {
    store.UpdateTransaction(id, TransactionAttrs(Some(OrderStatusEnum.Failed), Some(Message(message))));
    store.UpdateOrderStatus(id, OrderStatusEnum.Failed);
    reply := Redirect("error", "An error occurred: " + message);
  }

  /**
   * `handlePaymentResponse`: a successful response marks both records paid, a
   * failed one goes to `handleFailedPayment` with its reason phrase, any other
   * leaves both records as they are and answers nothing.
   */
  method HandlePaymentResponse(store: Store, id: nat, response: GatewayResponse) returns (reply: Reply)
    requires store.Valid() && id in store.orders && id in store.transactions
    requires !response.Threw?
    modifies store
    ensures store.Valid()
    ensures store.queue == old(store.queue) && store.nextId == old(store.nextId)
    ensures response.Successful? ==>
      && reply == Redirect("success", "Payment processed successfully.")
      && store.transactions == old(store.transactions)[id :=
           old(store.transactions)[id].(status := Paid, responseData := Some(JsonBody(response.body)))]
      && store.orders == old(store.orders)[id := old(store.orders)[id].(status := Paid)]
      && store.trace == old(store.trace) + [TransactionWritten(id), OrderWritten(id)]
    ensures response.FailedResponse? ==>
      && reply == Redirect("error", "An error occurred: " + response.reason)
      && store.transactions == old(store.transactions)[id :=
           old(store.transactions)[id].(status := OrderStatusEnum.Failed, responseData := Some(Message(response.reason)))]
      && store.orders == old(store.orders)[id := old(store.orders)[id].(status := OrderStatusEnum.Failed)]
      && store.trace == old(store.trace) + [TransactionWritten(id), OrderWritten(id)]
    ensures response.Neither? ==>
      && reply == Empty
      && store.orders == old(store.orders) && store.transactions == old(store.transactions)
      && store.trace == old(store.trace)
  {
    if response.Successful? {
      store.UpdateTransaction(id, TransactionAttrs(Some(Paid), Some(JsonBody(response.body))));
      store.UpdateOrderStatus(id, Paid);
      return Redirect("success", "Payment processed successfully.");
    }
    if response.FailedResponse? {
      reply := HandleFailedPayment(store, id, response.reason);
      return;
    }
    reply := Empty;
  }

  /**
   * `paymentStore` for order `id`, given the gateway's answer. A missing order
   * is a 404; an order without a transaction makes the handlers' type check
   * fail uncaught, with nothing written. No path queues a retry.
   */
  method PaymentStore(store: Store, id: nat, response: GatewayResponse) returns (reply: Reply)
    requires store.Valid()
    modifies store
    ensures store.Valid() && store.nextId == old(store.nextId)
    ensures store.queue == old(store.queue)
    ensures id !in old(store.orders) || id !in old(store.transactions) ==>
      && reply == (if id !in old(store.orders) then NotFound else Uncaught)
      && store.orders == old(store.orders) && store.transactions == old(store.transactions)
      && store.trace == old(store.trace)
    ensures id in old(store.orders) && id in old(store.transactions) ==>
      var order, transaction := old(store.orders)[id], old(store.transactions)[id];
      match response
      case Successful(body) =>
        && reply == Redirect("success", "Payment processed successfully.")
        && store.orders == old(store.orders)[id := order.(status := Paid)]
        && store.transactions == old(store.transactions)[id :=
             transaction.(status := Paid, responseData := Some(JsonBody(body)))]
        && store.trace == old(store.trace) + [TransactionWritten(id), OrderWritten(id)]
      case FailedResponse(reason) =>
        && reply == Redirect("error", "An error occurred: " + reason)
        && store.orders == old(store.orders)[id := order.(status := OrderStatusEnum.Failed)]
        && store.transactions == old(store.transactions)[id :=
             transaction.(status := OrderStatusEnum.Failed, responseData := Some(Message(reason)))]
        && store.trace == old(store.trace) + [TransactionWritten(id), OrderWritten(id)]
      case Threw(message) =>
        && reply == Redirect("error", "An error occurred: " + message)
        && store.orders == old(store.orders)[id := order.(status := OrderStatusEnum.Failed)]
        && store.transactions == old(store.transactions)[id :=
             transaction.(status := OrderStatusEnum.Failed, responseData := Some(Message(message)))]
        && store.trace == old(store.trace) + [TransactionWritten(id), OrderWritten(id)]
      case Neither =>
        && reply == Empty
        && store.orders == old(store.orders) && store.transactions == old(store.transactions)
        && store.trace == old(store.trace)
    ensures old(store.Paired()) ==> store.Paired()
  {
    if id !in store.orders {
      return NotFound;
    }
    if id !in store.transactions {
      return Uncaught;
    }
    if response.Threw? {
      reply := HandleFailedPayment(store, id, response.message);
    } else {
      reply := HandlePaymentResponse(store, id, response);
    }
  }

  /**
   * The mock provider's webhook run as the gateway call, then `paymentStore`
   * on its answer: both records end with the outcome the mock drew, and a
   * failure records the response's reason phrase.
   */
  method PaymentStoreThroughMock(store: Store, id: nat, draw: int) returns (reply: Reply)
    requires store.Valid()
    modifies store
    ensures store.Valid()
    ensures store.queue == old(store.queue)
    ensures id !in old(store.orders) ==>
      reply == NotFound && store.orders == old(store.orders) && store.transactions == old(store.transactions)
    ensures id in old(store.orders) && id !in old(store.transactions) ==>
      && reply == Uncaught
      && store.orders == old(store.orders)[id := old(store.orders)[id].(status := MockStripe.SimulatePaymentStatus(draw))]
      && store.transactions == old(store.transactions)
    ensures id in old(store.orders) && id in old(store.transactions) ==>
      var outcome := MockStripe.SimulatePaymentStatus(draw);
      && id in store.orders && id in store.transactions
      && store.orders[id].status == outcome && store.transactions[id].status == outcome
      && (outcome == OrderStatusEnum.Failed ==>
            reply == Redirect("error", "An error occurred: Bad Request")
            && store.transactions[id].responseData == Some(Message("Bad Request")))
      && (outcome == Paid ==> reply == Redirect("success", "Payment processed successfully."))
    ensures old(store.Paired()) ==> store.Paired()
  {
    if id !in store.orders {
      return NotFound;
    }
    var payload := ApiOrderController.PreparePaymentData(id, store.orders[id]);
    var answer := MockStripe.HandleWebhook(store, payload, draw);
    MockStripe.RespondFollowsOutcome(draw);
    reply := PaymentStore(store, id, MockStripe.ClientView(answer));
  }
}
