/**
 * The mock payment provider (app/Http/Controllers/MockStripeController.php):
 * its webhook validates the order id, draws a random outcome, writes that
 * outcome into the order and its transaction, and answers with a JSON reply
 * whose HTTP code depends on the outcome. The random draw is a parameter.
 */
module MockStripe {
  import opened Wrappers
  import opened OrderStatus
  import opened Records

  /** A JSON reply of the mock: HTTP code and body. */
  datatype MockReply = MockReply(code: int, body: Body)

  /** PHP truthiness of a string: everything but `""` and `"0"`. */
  predicate PhpTruthy(s: string) {
    s != "" && s != "0"
  }

  /** `simulatePaymentStatus`: `rand(0, 1) ? PAID : FAILED`, with the draw given. */
  function SimulatePaymentStatus(draw: int): (s: OrderStatusEnum)
    ensures s != Pending
    ensures s == Paid <==> draw != 0
  {
    if draw != 0 then Paid else Failed
  }

  /** `respondWithSuccess`: `{message, status}` with the given code. */
  function RespondWithSuccess(message: string, status: string, code: int): (r: MockReply)
    ensures r.code == code && r.body.Keys == {"message", "status"}
    ensures r.body["message"] == message && r.body["status"] == status
  {
    MockReply(code, map["message" := message, "status" := status])
  }

  /** `respondWithError`: `{message}`, plus `status` only when a truthy status is supplied. */
  function RespondWithError(message: string, code: int, status: Option<string>): (r: MockReply)
    ensures r.code == code
    ensures "message" in r.body && r.body["message"] == message
    ensures "status" in r.body <==> status.Some? && PhpTruthy(status.value)
    ensures "status" in r.body ==> r.body["status"] == status.value
    ensures r.body.Keys <= {"message", "status"}
  {
    var body := map["message" := message];
    if status.Some? && PhpTruthy(status.value) then MockReply(code, body["status" := status.value])
    else MockReply(code, body)
  }

  /** The `match ($status)` that picks the webhook's reply. */
  function Respond(status: OrderStatusEnum): MockReply {
    match status
    case Paid => RespondWithSuccess("Payment succeeded.", Value(status), 200)
    case _ => RespondWithError("Payment failed.", 400, Some(Value(status)))
  }

  /**
   * The answer of the `exists:orders,id` validation rule for an unknown order
   * id, to a caller that accepts JSON; any other caller is redirected back.
   */
  function UnknownOrderReply(): MockReply {
    MockReply(422, map["message" := "The selected order id is invalid."])
  }

  /** A caller that accepts JSON sees the unknown-id answer as a failed 422 Unprocessable Content. */
  lemma UnknownOrderIsFailedValidation()
    ensures UnknownOrderReply().code == 422 && "message" in UnknownOrderReply().body
    ensures ClientView(UnknownOrderReply()) == FailedResponse("Unprocessable Content")
  {
  }

  /** The reason phrases of the status codes the mock can answer with (RFC 9110, section 15). */
  function ReasonPhrase(code: int): string {
    if code == 400 then "Bad Request"
    else if code == 404 then "Not Found"
    else if code == 422 then "Unprocessable Content"
    else ""
  }

  /** How the caller's HTTP client classifies a mock reply (`successful()` / `failed()`). */
  function ClientView(r: MockReply): (g: GatewayResponse)
    ensures g.Successful? <==> 200 <= r.code < 300
    ensures g.FailedResponse? <==> 400 <= r.code < 600
    ensures g.Successful? ==> g.body == r.body
  {
    if 200 <= r.code < 300 then Successful(r.body)
    else if 400 <= r.code < 600 then FailedResponse(ReasonPhrase(r.code))
    else Neither
  }

  /**
   * The reply follows the outcome: `PAID` is a 200 "Payment succeeded." with
   * status `paid`, `FAILED` a 400 "Payment failed." with status `failed`; the
   * caller sees the first as successful and the second as failed.
   */
  lemma RespondFollowsOutcome(draw: int)
    ensures var s := SimulatePaymentStatus(draw);
      var r := Respond(s);
      && (s == Paid ==> r.code == 200 && r.body == map["message" := "Payment succeeded.", "status" := "paid"])
      && (s == Failed ==> r.code == 400 && r.body == map["message" := "Payment failed.", "status" := "failed"])
      && (ClientView(r).Successful? <==> s == Paid)
      && (ClientView(r) == FailedResponse("Bad Request") <==> s == Failed)
  {
    var s := SimulatePaymentStatus(draw);
    if s == Failed {
      var r := Respond(s);
      assert r == RespondWithError("Payment failed.", 400, Some("failed"));
      assert PhpTruthy("failed");
      assert r.body == map["message" := "Payment failed.", "status" := "failed"];
    }
  }

  /** An error reply supplied with a falsy status (`null`, `""`, `"0"`) carries only the message. */
  lemma ErrorWithoutStatus(message: string, code: int, status: Option<string>)
    requires status.None? || status.value == "" || status.value == "0"
    ensures RespondWithError(message, code, status).body == map["message" := message]
  {
  }

  /** `updateOrderAndTransactionStatus`: the order always, its transaction only if it exists. */
  method UpdateOrderAndTransactionStatus(store: Store, orderId: nat, status: OrderStatusEnum)
    requires store.Valid() && orderId in store.orders
    modifies store
    ensures store.Valid()
    ensures store.orders == old(store.orders)[orderId := old(store.orders)[orderId].(status := status)]
    ensures orderId in old(store.transactions) ==>
      store.transactions == old(store.transactions)[orderId := old(store.transactions)[orderId].(status := status)]
    ensures orderId !in old(store.transactions) ==> store.transactions == old(store.transactions)
    ensures store.queue == old(store.queue) && store.nextId == old(store.nextId)
    ensures store.trace == old(store.trace) + [OrderWritten(orderId)] +
      (if orderId in old(store.transactions) then [TransactionWritten(orderId)] else [])
  {
    store.UpdateOrderStatus(orderId, status);
    if orderId in store.transactions {
      store.UpdateTransaction(orderId, TransactionAttrs(Some(status), None));
    }
  }

  /**
   * `handleWebhook`. An unknown order id is refused by request validation
   * (422 to a caller that accepts JSON) before the lookup, so the lookup's
   * 404 branch is never reached.
   */
  method HandleWebhook(store: Store, request: Payload, draw: int) returns (reply: MockReply)
    requires store.Valid()
    modifies store
    ensures store.Valid()
    ensures reply.code != 404
    ensures request.orderId !in old(store.orders) ==>
      && reply == UnknownOrderReply()
      && store.orders == old(store.orders) && store.transactions == old(store.transactions)
      && store.trace == old(store.trace)
    ensures request.orderId in old(store.orders) ==>
      var id, s := request.orderId, SimulatePaymentStatus(draw);
      && reply == Respond(s)
      && store.orders == old(store.orders)[id := old(store.orders)[id].(status := s)]
      && store.transactions == (if id in old(store.transactions)
           then old(store.transactions)[id := old(store.transactions)[id].(status := s)]
           else old(store.transactions))
    ensures store.queue == old(store.queue) && store.nextId == old(store.nextId)
  {
    if request.orderId !in store.orders {
      reply := UnknownOrderReply();
      return;
    }
    var status := SimulatePaymentStatus(draw);
    UpdateOrderAndTransactionStatus(store, request.orderId, status);
    reply := Respond(status);
  }
}
