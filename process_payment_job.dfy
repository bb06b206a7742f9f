/**
 * The delayed retry job (app/Jobs/ProcessPaymentJob.php). It keeps the order
 * and the payload it was dispatched with; when run, it posts the payload with
 * up to three tries and, on a successful response, marks the order paid and
 * stores the response's `transaction_id` on it. It never touches the
 * transaction record and never queues another job.
 */
module PaymentJob {
  import opened Wrappers
  import opened OrderStatus
  import opened Records

  /** `retry(3, 200)`: the number of tries of one run. */
  const Tries: nat := 3

  /** The HTTP client tries again after an exception or a failed (4xx/5xx) response. */
  predicate Retryable(r: GatewayResponse) {
    r.FailedResponse? || r.Threw?
  }

  /**
   * The post with retries: `answer(i)` is what the provider gives on the
   * i-th try. The first non-retryable answer is returned; after three
   * retryable ones, the third is.
   */
  method PostWithRetry(answer: nat -> GatewayResponse) returns (r: GatewayResponse, tries: nat)
    ensures 1 <= tries <= Tries
    ensures r == answer(tries - 1)
    ensures forall i :: 0 <= i < tries - 1 ==> Retryable(answer(i))
    ensures tries < Tries ==> !Retryable(r)
  {
    tries := 1;
    r := answer(0);
    while Retryable(r) && tries < Tries
      invariant 1 <= tries <= Tries
      invariant r == answer(tries - 1)
      invariant forall i :: 0 <= i < tries - 1 ==> Retryable(answer(i))
    {
      r := answer(tries);
      tries := tries + 1;
    }
  }

  /** How a run of the job ends. */
  datatype JobOutcome =
    | Completed                             // `handle` returned
    | Escaped(response: GatewayResponse)    // the last try failed and the HTTP client threw
    | OrderMissing                          // the order could not be restored

  /** The order after a run that got `r`: paid with the response's `transaction_id` when successful. */
  function AfterRun(order: Order, r: GatewayResponse): Order {
    if r.Successful? then
      order.(status := Paid, transactionId := if "transaction_id" in r.body then Some(r.body["transaction_id"]) else None)
    else order
  }

  /** Running the job again with the same answer changes nothing more. */
  lemma AfterRunIdempotent(order: Order, r: GatewayResponse)
    ensures AfterRun(AfterRun(order, r), r) == AfterRun(order, r)
  {
  }

  /** A paid order stays paid, whatever a later run gets. */
  lemma AfterRunKeepsPaid(order: Order, r: GatewayResponse)
    requires order.status == Paid
    ensures AfterRun(order, r).status == Paid
  {
  }

  class ProcessPaymentJob {
    var order: nat
    var paymentData: Payload

    /** The job stores the order and the payload exactly as given. */
    constructor (order: nat, paymentData: Payload)
      ensures this.order == order && this.paymentData == paymentData
    {
      this.order := order;
      this.paymentData := paymentData;
    }

    /** The job a queue entry stands for. */
    constructor FromQueue(entry: QueuedJob)
      ensures order == entry.orderId && paymentData == entry.payload
    {
      order := entry.orderId;
      paymentData := entry.payload;
    }

    /**
     * `handle`: post the payload with up to three tries; a successful response
     * marks the order paid. Nothing else in the store changes.
     */
    method Handle(store: Store, answer: nat -> GatewayResponse) returns (outcome: JobOutcome, tries: nat)
      requires store.Valid()
      modifies store
      ensures store.Valid()
      ensures tries <= Tries
      ensures order !in old(store.orders) ==> outcome == OrderMissing && store.orders == old(store.orders)
      ensures order in old(store.orders) ==>
        && 1 <= tries
        && (forall i :: 0 <= i < tries - 1 ==> Retryable(answer(i)))
        && (tries < Tries ==> !Retryable(answer(tries - 1)))
        && outcome == (if Retryable(answer(tries - 1)) then Escaped(answer(tries - 1)) else Completed)
        && store.orders == old(store.orders)[order := AfterRun(old(store.orders)[order], answer(tries - 1))]
      ensures store.transactions == old(store.transactions)
      ensures store.queue == old(store.queue) && store.nextId == old(store.nextId)
    {
      if order !in store.orders {
        return OrderMissing, 0;
      }
      var r;
      r, tries := PostWithRetry(answer);
      if r.Successful? {
        var transactionId := if "transaction_id" in r.body then Some(r.body["transaction_id"]) else None;
        store.UpdateOrderPayment(order, Paid, transactionId);
      }
      outcome := if Retryable(r) then Escaped(r) else Completed;
    }
  }
}
