/**
 * The persisted state the payment flow works on: the `orders` and
 * `transactions` tables (one transaction per order, keyed here by the order's
 * id), the queue of delayed payment jobs, and the gateway's answer as the
 * controllers see it.
 */
module Records {
  import opened Wrappers
  import opened OrderStatus

  /** A decoded JSON object, as returned by `$response->json()`. */
  type Body = map<string, string>

  /** Delay attached to every retry dispatch: `now()->addMinutes(5)`. */
  const RetryDelayMinutes: nat := 5

  /** The provider every transaction is created with, in both controllers. */
  const PaymentProvider: string := "stripe"

  /** The payment method every charge payload names, in both controllers. */
  const PaymentMethod: string := "card_visa"

  /** What a transaction's `response_data` column holds. */
  datatype ResponseData = JsonBody(body: Body) | Message(text: string)

  datatype Order = Order(userId: nat, amount: string, status: OrderStatusEnum, transactionId: Option<string>)

  datatype Transaction = Transaction(provider: string, status: OrderStatusEnum, responseData: Option<ResponseData>)

  /** The charge request `{amount, currency, order_id, payment_method}`. */
  datatype Payload = Payload(amount: Option<string>, currency: Option<string>, orderId: nat, paymentMethod: string)

  /** A `ProcessPaymentJob` as it sits serialised on the queue, with its delay. */
  datatype QueuedJob = QueuedJob(orderId: nat, payload: Payload, delayMinutes: nat)

  /**
   * The outcome of one HTTP call to the payment provider: a 2xx response with
   * its body, a 4xx/5xx response with its reason phrase, any other status
   * (neither `successful()` nor `failed()`), or an exception with its message.
   */
  datatype GatewayResponse = Successful(body: Body) | FailedResponse(reason: string) | Neither | Threw(message: string)

  /** What a controller action answers. */
  datatype Reply =
    | JsonReply(status: string, message: string, code: int)   // JSON `{status, message}` with an HTTP code
    | Redirect(flash: string, message: string)                // redirect carrying a flash or error message
    | ValidationFailed(field: string)                         // request validation rejected a field (422 in its JSON form)
    | NotFound                                                 // model lookup failed (404)
    | Empty                                                    // the action returned nothing
    | Uncaught                                                 // an error escaped every handler (500)

  /** The side effects on the store, in the order they happen. */
  datatype Effect =
    | OrderCreated(id: nat)
    | TransactionCreated(orderId: nat)
    | OrderWritten(id: nat)
    | TransactionWritten(orderId: nat)
    | RetryQueued(orderId: nat)

  /** The attributes passed to `$transaction->update([...])`. */
  datatype TransactionAttrs = TransactionAttrs(status: Option<OrderStatusEnum>, responseData: Option<ResponseData>)

  /** The mass-assignable attributes of a transaction as the model declares them. */
  const TransactionFillableAsWritten: set<string> := {"order_id", "payment_provider", "stauts", "response_data"}

  /** The mass-assignable attributes with the `status` column spelled correctly. */
  const TransactionFillable: set<string> := {"order_id", "payment_provider", "status", "response_data"}

  /** Mass assignment: attributes not in `fillable` are silently discarded. */
  function Fill(t: Transaction, attrs: TransactionAttrs, fillable: set<string>): Transaction {
    t.(status := if attrs.status.Some? && "status" in fillable then attrs.status.value else t.status,
       responseData := if attrs.responseData.Some? && "response_data" in fillable then attrs.responseData else t.responseData)
  }

  /** With the fillable list as written, an update never changes the status. */
  lemma FillAsWrittenDropsStatus(t: Transaction, attrs: TransactionAttrs)
    ensures Fill(t, attrs, TransactionFillableAsWritten).status == t.status
  {
    assert "status" !in TransactionFillableAsWritten;
  }

  /** With the corrected list, an update writes exactly the attributes it is given. */
  lemma FillWritesGivenAttributes(t: Transaction, attrs: TransactionAttrs)
    ensures Fill(t, attrs, TransactionFillable).status == attrs.status.GetOr(t.status)
    ensures Fill(t, attrs, TransactionFillable).responseData ==
              (if attrs.responseData.Some? then attrs.responseData else t.responseData)
    ensures Fill(t, attrs, TransactionFillable).provider == t.provider
  {
  }

  /** The orders and transactions tables and the delayed-job queue. */
  class Store {
    var orders: map<nat, Order>
    var transactions: map<nat, Transaction>   // keyed by the order id
    var queue: seq<QueuedJob>
    var nextId: nat                           // the next auto-increment order id
    ghost var trace: seq<Effect>

    /** Ids are below the auto-increment counter; every transaction belongs to an order. */
    ghost predicate Valid()
      reads this
    {
      (forall id :: id in orders ==> id < nextId) && transactions.Keys <= orders.Keys
    }

    /** Every order has its transaction. */
    ghost predicate Paired()
      reads this
    {
      orders.Keys == transactions.Keys
    }

    constructor ()
      ensures Valid() && Paired()
      ensures orders == map[] && transactions == map[] && queue == [] && trace == []
    {
      orders, transactions, queue, nextId, trace := map[], map[], [], 0, [];
    }

    /** `Order::create([...])` with a fresh auto-increment id and status `pending`. */
    method CreateOrder(userId: nat, amount: string) returns (id: nat)
      requires Valid()
      modifies this
      ensures Valid()
      ensures id == old(nextId) && id !in old(orders) && id !in transactions
      ensures orders == old(orders)[id := Order(userId, amount, Pending, None)]
      ensures transactions == old(transactions) && queue == old(queue)
      ensures trace == old(trace) + [OrderCreated(id)]
    {
      id := nextId;
      orders := orders[id := Order(userId, amount, Pending, None)];
      nextId := nextId + 1;
      trace := trace + [OrderCreated(id)];
    }

    /** `Transaction::create([...])` for an order that has none yet, with status `pending`. */
    method CreateTransaction(orderId: nat, provider: string)
      requires Valid() && orderId in orders && orderId !in transactions
      modifies this
      ensures Valid()
      ensures transactions == old(transactions)[orderId := Transaction(provider, Pending, None)]
      ensures orders == old(orders) && queue == old(queue) && nextId == old(nextId)
      ensures trace == old(trace) + [TransactionCreated(orderId)]
    {
      transactions := transactions[orderId := Transaction(provider, Pending, None)];
      trace := trace + [TransactionCreated(orderId)];
    }

    /** `$transaction->update($attrs)`, through the (corrected) fillable list. */
    method UpdateTransaction(orderId: nat, attrs: TransactionAttrs)
      requires Valid() && orderId in transactions
      modifies this
      ensures Valid()
      ensures transactions == old(transactions)[orderId := Fill(old(transactions)[orderId], attrs, TransactionFillable)]
      ensures orders == old(orders) && queue == old(queue) && nextId == old(nextId)
      ensures trace == old(trace) + [TransactionWritten(orderId)]
    {
      transactions := transactions[orderId := Fill(transactions[orderId], attrs, TransactionFillable)];
      trace := trace + [TransactionWritten(orderId)];
    }

    /** `$order->update(['status' => ...])`. */
    method UpdateOrderStatus(id: nat, status: OrderStatusEnum)
      requires Valid() && id in orders
      modifies this
      ensures Valid()
      ensures orders == old(orders)[id := old(orders)[id].(status := status)]
      ensures transactions == old(transactions) && queue == old(queue) && nextId == old(nextId)
      ensures trace == old(trace) + [OrderWritten(id)]
    {
      orders := orders[id := orders[id].(status := status)];
      trace := trace + [OrderWritten(id)];
    }

    /** `$order->update(['status' => ..., 'transaction_id' => ...])`. */
    method UpdateOrderPayment(id: nat, status: OrderStatusEnum, transactionId: Option<string>)
      requires Valid() && id in orders
      modifies this
      ensures Valid()
      ensures orders == old(orders)[id := old(orders)[id].(status := status, transactionId := transactionId)]
      ensures transactions == old(transactions) && queue == old(queue) && nextId == old(nextId)
      ensures trace == old(trace) + [OrderWritten(id)]
    {
      orders := orders[id := orders[id].(status := status, transactionId := transactionId)];
      trace := trace + [OrderWritten(id)];
    }

    /** `ProcessPaymentJob::dispatch(...)->delay(...)`: append the job to the queue. */
    method Dispatch(job: QueuedJob)
      requires Valid()
      modifies this
      ensures Valid()
      ensures queue == old(queue) + [job]
      ensures orders == old(orders) && transactions == old(transactions) && nextId == old(nextId)
      ensures trace == old(trace) + [RetryQueued(job.orderId)]
    {
      queue := queue + [job];
      trace := trace + [RetryQueued(job.orderId)];
    }
  }
}
