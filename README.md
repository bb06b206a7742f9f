# Order payment state machine (payment-gateway)

A Dafny model of the order-and-payment core of a small Laravel application.
A client creates an order whose amount is a string such as `$100` or
`RON500.00`. The order gets a pending `stripe` transaction. The client then
pays the order against a payment provider, which here is the application's
own mock webhook. The outcome is recorded on both records, and in one variant
a retry job is queued with a five-minute delay.

The model has these parts:

- `OrderStatus` (`order_status.dfy`): the status enumeration with its values,
  labels, the `is` test and the `values()`/`labels()` listings.
- `Helpers` (`helpers.dfy`): `extractCurrency` and `extractAmount`. Their
  regular expressions are written out as functions over characters.
- `Records` (`records.dfy`): the `orders` and `transactions` tables and the
  delayed-job queue, as a `Store` class whose methods are the ORM writes. It
  also holds the gateway's answer as a datatype and the transaction model's
  mass-assignment whitelist.
- `ApiOrderController` (`api_order_controller.dfy`): the JSON API controller.
  Its amount rule allows no decimals. On a successful response, `processPayment`
  marks both records paid. On any other response it only queues a retry. On an
  exception it queues a retry and marks both records failed.
- `WebOrderController` (`web_order_controller.dfy`): the browser controller.
  Its amount rule allows 1-2 fraction digits. `paymentStore` marks both records
  paid or failed and never queues anything.
- `MockStripe` (`mock_stripe.dfy`): the mock provider's webhook. It writes the
  drawn outcome into the order and, if there is one, into its transaction.
  Then it answers 200 or 400.
- `PaymentJob` (`process_payment_job.dfy`): the queued retry job. It makes up
  to three tries and marks only the order paid on success.

Each controller also has a composite method that runs the mock webhook as the
gateway call and then the controller on the webhook's answer. In both variants
the final order and transaction status equal the outcome the mock drew.

The gateway's answer is an input: `Successful(body)`, `FailedResponse(reason)`
(4xx/5xx), `Neither` (any other status) or `Threw(message)`. The mock's
`rand(0, 1)` is the integer parameter `draw`. The authenticated user's id is
the parameter `userId`. For the job, the provider's answer to each try is a
function `nat -> GatewayResponse`.

A ghost `trace` on the store records each write and dispatch in order. The
methods' contracts use it to say which records were written and in what
order. For example, the API exception path queues the retry before it
writes either status.

Notes on what the code does:

- For a response that is neither successful nor an exception, the API
  variant writes no status and only queues a retry. The web variant writes
  `failed` on a failed response, writes nothing on any other response, and
  never retries.
- The mock webhook's validation rule `exists:orders,id` already refuses an
  unknown order id: with 422 for a caller that accepts JSON, and with a
  redirect back for any other caller. Its 404 "Order not found" branch can
  therefore never be reached, and the model's webhook never answers 404.
- The API rule's error message offers `RON5000.00` as an example, but the rule
  itself refuses it.

## Model

| member | source | states |
|---|---|---|
| `OrderStatus.Column` | app/Enums/OrderStatusEnum.php:41-44 | `array_column` gives, position by position, the value of each case |
| `OrderStatus.ReduceLabels` | app/Enums/OrderStatusEnum.php:51-57 | the fold's keys are the carry's keys plus every case's value |
| `OrderStatus.ReduceLabelsKeeps` | app/Enums/OrderStatusEnum.php:53-56 | a key no case writes keeps its carried value |
| `OrderStatus.ReduceLabelsAt` | app/Enums/OrderStatusEnum.php:53-56 | after the fold, each case's value maps to that case's label |
| `OrderStatus.TryFrom` | app/Enums/OrderStatusEnum.php:7-9 | a found case has the given value; no case has the value when none is found |
| `OrderStatus.ValueInjective` | app/Enums/OrderStatusEnum.php:7-9 | the three values are distinct |
| `OrderStatus.LabelInjective` | app/Enums/OrderStatusEnum.php:16-23 | contract of `OrderStatus.Label` (`label()`): every case has a non-empty label, and distinct cases have distinct labels |
| `OrderStatus.IsExactlyOwnValue` | app/Enums/OrderStatusEnum.php:31-34 | contract of `OrderStatus.Is`: `is(s)` holds iff `s` is the case's value, the one lookup by `s` finds |
| `OrderStatus.ValuesInOrder` | app/Enums/OrderStatusEnum.php:41-44 | contract of `OrderStatus.Values`: `values()` is `['pending','paid','failed']` in declaration order |
| `OrderStatus.LabelsComplete` | app/Enums/OrderStatusEnum.php:51-57 | contract of `OrderStatus.Labels`: `labels()` has exactly the three values as keys, each mapped to its label |
| `OrderStatus.TryFromValue` | app/Enums/OrderStatusEnum.php:7-9 | looking a case up by its value gives that case |
| `Helpers.CurrencyRun` | app/Helpers/global.php:12 | the longest prefix drawn from `[A-Za-z$]` |
| `Helpers.DigitRun` | app/Helpers/global.php:5 | the longest prefix of digits |
| `Helpers.NumberAt` | app/Helpers/global.php:5 | `\d+(\.\d+)?` matched greedily: a prefix of the input, a number text, not followed by a digit, and taking the fraction whenever a digit follows the dot |
| `Helpers.ExtractAmount` | app/Helpers/global.php:4-7 | null iff the input has no digit; otherwise a whole `\d+(\.\d+)?` text |
| `Helpers.FirstDigit` | app/Helpers/global.php:5 | the position of a digit with no digit before it |
| `Helpers.ExtractAmountFirstMatch` | app/Helpers/global.php:4-7 | for every input with a digit, `extractAmount` is the greedy `\d+(\.\d+)?` match at the first digit, the leftmost match `preg_match` reports |
| `Helpers.ExtractCurrency` | app/Helpers/global.php:11-14 | null iff the input does not start with `[A-Za-z$]`; otherwise the maximal prefix of such characters |
| `Helpers.CurrencyRunOf` | app/Helpers/global.php:12 | the currency run of `c + t` is `c` when `t` does not continue it |
| `Helpers.DigitRunOf` | app/Helpers/global.php:5 | the digit run of `d + t` is `d` when `t` does not continue it |
| `Helpers.CurrencyHasNoDigit` | app/Helpers/global.php:12 | a currency run contains no digit |
| `Helpers.ExtractAmountSkips` | app/Helpers/global.php:5 | a prefix without digits is skipped |
| `Helpers.NumberOfNumberText` | app/Helpers/global.php:5 | digits, with or without a dot and more digits, are matched whole |
| `Helpers.DollarExample` | app/Helpers/global.php:4-14 | `$100` gives currency `$` and amount `100` |
| `Records.FillAsWrittenDropsStatus` | app/Models/Transaction.php:10-15 | contract of `Records.Fill` with the list as written: with the declared whitelist, a transaction update never changes `status` |
| `Records.FillWritesGivenAttributes` | app/Models/Transaction.php:10-15 | contract of `Records.Fill` with the corrected list: with `status` spelled correctly, an update writes exactly the given attributes |
| `Records.Store.CreateOrder` | app/Http/Controllers/API/OrderController.php:107-111 | a fresh id maps to a pending order with the given user and amount; nothing else changes |
| `Records.Store.CreateTransaction` | app/Http/Controllers/API/OrderController.php:122-126 | the order gets a pending transaction with the given provider |
| `Records.Store.UpdateTransaction` | app/Http/Controllers/API/OrderController.php:171-174 | only that transaction changes, through the whitelist |
| `Records.Store.UpdateOrderStatus` | app/Http/Controllers/API/OrderController.php:176-178 | only that order's status changes |
| `Records.Store.UpdateOrderPayment` | app/Jobs/ProcessPaymentJob.php:37-40 | only that order's status and `transaction_id` change |
| `Records.Store.Dispatch` | app/Http/Controllers/API/OrderController.php:218 | exactly one job is appended to the queue |
| `MockStripe.SimulatePaymentStatus` | app/Http/Controllers/MockStripeController.php:54-57 | never `PENDING`; `PAID` iff the draw is truthy |
| `MockStripe.RespondWithSuccess` | app/Http/Controllers/MockStripeController.php:90-96 | body holds exactly `message` and `status`, with the given code |
| `MockStripe.RespondWithError` | app/Http/Controllers/MockStripeController.php:106-114 | body holds `message`, and `status` only when a truthy status is supplied |
| `MockStripe.ClientView` | app/Http/Controllers/API/OrderController.php:68 | a reply is successful iff its code is 200-299, failed iff 400-599 |
| `MockStripe.RespondFollowsOutcome` | app/Http/Controllers/MockStripeController.php:30-33 | contract of `MockStripe.Respond`: `PAID` gives 200 "Payment succeeded." with status `paid`; `FAILED` gives 400 "Payment failed." with status `failed` |
| `MockStripe.UnknownOrderIsFailedValidation` | app/Http/Controllers/MockStripeController.php:44-46 | contract of `MockStripe.UnknownOrderReply`: for a caller that accepts JSON, the `exists:orders,id` rule answers an unknown id with 422 and a message, which the HTTP client sees as a failed "Unprocessable Content" |
| `MockStripe.ErrorWithoutStatus` | app/Http/Controllers/MockStripeController.php:106-113 | with a null or falsy status, the error body is the message alone |
| `MockStripe.UpdateOrderAndTransactionStatus` | app/Http/Controllers/MockStripeController.php:66-80 | the order's status becomes the outcome; the transaction's does too only if it exists; nothing else changes |
| `MockStripe.HandleWebhook` | app/Http/Controllers/MockStripeController.php:18-34 | an unknown id is refused by validation (422 for a caller that accepts JSON) with no change; otherwise the statuses become the draw and the reply follows it; never 404; `response_data` and other orders untouched |
| `ApiOrderController.AmountRuleMatchesPattern` | app/Http/Controllers/API/OrderController.php:86-97 | contract of `ApiOrderController.AmountRule`: the written-out rule accepts exactly the strings that are 1-3 `[A-Za-z$]` characters followed by one or more digits |
| `ApiOrderController.AmountRuleAcceptsDollar` | app/Http/Controllers/API/OrderController.php:89 | `$100` is accepted |
| `ApiOrderController.AmountRuleRefusesWord` | app/Http/Controllers/API/OrderController.php:89 | `INVALID` is refused |
| `ApiOrderController.AmountRuleRefusesDecimal` | app/Http/Controllers/API/OrderController.php:89-93 | `RON5000.00` is refused, although the error message offers it as an example |
| `ApiOrderController.AmountRoundTrip` | app/Http/Controllers/API/OrderController.php:135-143 | for an accepted amount, currency + numeric text equals the amount and the currency has 1-3 characters |
| `ApiOrderController.PreparePaymentData` | app/Http/Controllers/API/OrderController.php:135-143 | the payload carries the order id and `card_visa`, and for an accepted amount its currency and amount rebuild the order's amount |
| `ApiOrderController.CreateOrder` | app/Http/Controllers/API/OrderController.php:105-112 | one pending order with the given amount under a fresh id |
| `ApiOrderController.CreateTransaction` | app/Http/Controllers/API/OrderController.php:120-127 | the order's pending `stripe` transaction |
| `ApiOrderController.StoreOrder` | app/Http/Controllers/API/OrderController.php:27-35 | a refused or missing amount changes nothing; an accepted one adds exactly one pending order and its pending `stripe` transaction and answers success 200 |
| `ApiOrderController.RetryPaymentLater` | app/Http/Controllers/API/OrderController.php:215-219 | exactly one job with the order and the payload, 5 minutes ahead |
| `ApiOrderController.HandleSuccessfulPayment` | app/Http/Controllers/API/OrderController.php:169-179 | `response_data` becomes the body and both records become `paid` |
| `ApiOrderController.HandleFailedPayment` | app/Http/Controllers/API/OrderController.php:189-206 | one retry with a freshly prepared payload is queued before the writes; `response_data` becomes the message and both records become `failed` |
| `ApiOrderController.ProcessPayment` | app/Http/Controllers/API/OrderController.php:56-78 | missing order: 404 and no change. Success: both paid, 200. Exception: one retry, both failed, 500. Any other response: one retry and no status change. Only the addressed order and its transaction are written |
| `ApiOrderController.ProcessPaymentThroughMock` | app/Http/Controllers/API/OrderController.php:61-73 | unknown order: 404 and no change. With its transaction: after webhook then controller, both statuses equal the drawn outcome, and a `FAILED` draw queues exactly one retry. Without one: the webhook still writes the order's status; `PAID` then ends uncaught, and `FAILED` queues one retry |
| `WebOrderController.NumberRuleMatchesPattern` | app/Http/Controllers/OrderController.php:35 | contract of `WebOrderController.NumberRule`: the number part accepts exactly digits then optionally a dot and 1-2 digits |
| `WebOrderController.AmountRuleSound` | app/Http/Controllers/OrderController.php:35 | every amount the written-out rule accepts matches the regular expression |
| `WebOrderController.AmountRuleComplete` | app/Http/Controllers/OrderController.php:35 | every amount the regular expression matches is accepted by the written-out rule |
| `WebOrderController.AmountRuleMatchesPattern` | app/Http/Controllers/OrderController.php:34-38 | contract of `WebOrderController.AmountRule`: the written-out rule accepts exactly 1-3 `[A-Za-z$]`, digits, then optionally `.` and 1-2 digits |
| `WebOrderController.AmountRuleAcceptsDecimal` | app/Http/Controllers/OrderController.php:35 | `RON500.00` is accepted |
| `WebOrderController.AmountRuleRefusesThreeFractionDigits` | app/Http/Controllers/OrderController.php:35 | `RON500.000` is refused |
| `WebOrderController.NumberRoundTrip` | app/Helpers/global.php:5 | `extractAmount` matches an accepted numeric part whole |
| `WebOrderController.AmountRoundTrip` | app/Http/Controllers/OrderController.php:71-72 | for an accepted amount, currency + numeric text equals the amount and the currency has 1-3 characters |
| `WebOrderController.PaymentDataRoundTrip` | app/Http/Controllers/OrderController.php:71-83 | the inline payload, the same as the API variant's, carries the order id and `card_visa`, and for an amount this rule accepts it rebuilds the order's amount |
| `WebOrderController.CreateOrderWithTransaction` | app/Http/Controllers/OrderController.php:109-124 | one pending order with the given amount and one pending `stripe` transaction under its id |
| `WebOrderController.StoreOrder` | app/Http/Controllers/OrderController.php:32-47 | a refused or missing amount changes nothing; an accepted one adds exactly one order and one transaction |
| `WebOrderController.HandleFailedPayment` | app/Http/Controllers/OrderController.php:162-174 | `response_data` becomes the message and both records become `failed` |
| `WebOrderController.HandlePaymentResponse` | app/Http/Controllers/OrderController.php:134-152 | success: body stored, both `paid`; failed response: reason stored, both `failed`; neither: nothing changes |
| `WebOrderController.PaymentStore` | app/Http/Controllers/OrderController.php:67-100 | as above per outcome; an exception stores its message and marks both `failed`; no path queues a retry |
| `WebOrderController.PaymentStoreThroughMock` | app/Http/Controllers/OrderController.php:85-91 | unknown order: 404 and no change. With its transaction: after webhook then controller, both statuses equal the drawn outcome, and a failure records "Bad Request". Without one: the webhook still writes the order's status, then the action ends uncaught. No retry is ever queued |
| `PaymentJob.PostWithRetry` | app/Jobs/ProcessPaymentJob.php:32-34 | at most three tries; the answer is the first non-retryable one, or the third |
| `PaymentJob.AfterRunIdempotent` | app/Jobs/ProcessPaymentJob.php:36-41 | contract of `PaymentJob.AfterRun`: running the job again with the same answer changes nothing more |
| `PaymentJob.AfterRunKeepsPaid` | app/Jobs/ProcessPaymentJob.php:36-41 | contract of `PaymentJob.AfterRun`: a paid order stays paid |
| `PaymentJob.ProcessPaymentJob.constructor` | app/Jobs/ProcessPaymentJob.php:21-25 | the job keeps the order and payload exactly as given |
| `PaymentJob.ProcessPaymentJob.FromQueue` | app/Http/Controllers/API/OrderController.php:218 | the job restored from a queue entry has that entry's order and payload |
| `PaymentJob.ProcessPaymentJob.Handle` | app/Jobs/ProcessPaymentJob.php:30-42 | at most three tries; the answer that counts is the first non-retryable one, or the third. On success the order becomes `paid` and gets the response's `transaction_id`. Otherwise nothing changes. A run whose counted answer is retryable ends by escaping with that answer; a missing order ends the run with no change. The transaction and the queue are never touched |

## Findings

| source | as written | input that shows it | evidently intended | confidence | as-written member | corrected member |
|---|---|---|---|---|---|---|
| app/Models/Transaction.php:13 | the mass-assignable list spells `'stauts'`, so every `update(['status' => ...])` on a transaction silently drops the status | a pending transaction updated with `status => 'paid'` stays pending | `'status'` is mass-assignable, so that the controllers' status writes take effect | high (not executed) | `Records.FillAsWrittenDropsStatus` | `Records.FillWritesGivenAttributes` |

The rest of the model writes through the corrected whitelist
(`Records.TransactionFillable`), so it models what the controllers intend to
write. The same typo would also drop the `status` given to
`Transaction::create`, which leaves the column at its database default. That
default is not part of this model.

## Left out

- HTTP transport is left out: headers, the bearer token, the job's 5 s timeout (the controllers' calls use the HTTP client's default timeout), the pause between tries, route URLs, redirect targets, views and JSON resources (`show`, `showTransaction`, `index`, `pay`). Replies keep only their status, message and code, or their flash message.
- The web `store` success message goes on with a second sentence, " You can pay <a href=...>Here</a>", which links to the payment page. The model drops that whole sentence, not only the link's URL: its flash message is "Order created successfully!".
- The authenticated user (`auth()->id()`, `User::firstOrFail()`) and the JWT token are left out. The user's id is the `userId` parameter. A missing user is not modelled. It would give a 404 in the web `store` before the order is created, and in the web `paymentStore` before the payment call.
- `extractAmount`'s `(float)` conversion is left out. The model returns the matched numeric text.
- `rand(0, 1)` is the `draw` parameter, and the provider's answers are parameters.
- Logging is left out.
- Validation failures are modelled in their JSON form, `ValidationFailed` (a 422 with the field's error). A request that does not accept JSON, such as the web form's `store` or the source's own `Http::post` calls to the webhook, is redirected back with the errors instead.
- Model lookups (`findOrFail`, `find`, route-model binding) are modelled as map membership.
- The controllers keep the order and transaction they loaded before the gateway call, and Eloquent saves only changed attributes. The model writes straight into the store. Every write in the model sets the same value either way, so the end state is the same.
- `Records.Store.CreateTransaction`: the store holds one transaction per order. A second transaction for the same order cannot be represented; no modelled path creates one.
- The Order model's mass-assignable list is not part of this model. `status` and `transaction_id` are assumed writable.
- The validation rules `required|string` are modelled as "amount present". Input that is not a string is left out. A validation failure keeps only the failing field name, not the error body.
- In the regular expressions, PCRE's `$` also matches before a final newline. The model treats `$` as end of input, because the framework trims request strings before validation.
- The queue delay is a constant tag (5 minutes) on the queued entry. Timing and the worker's handling of a job whose last try failed (`Escaped`) are left out. A job whose order cannot be restored ends as `OrderMissing`.
- Concurrency is left out, including races between the webhook's write and the controller's write. The webhook runs as one sequential step inside the gateway call.
- The mock webhook's 404 branch cannot be reached, because validation rejects unknown ids first. It is not modelled as a separate path.
- `app/Http/Controllers/API/UserController.php`, `app/Providers/RateLimitServiceProvider.php`, the routes and the factories are not part of this model.
