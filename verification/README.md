# The order-to-cash pipeline, verified

The laundry platform keeps an order's money and its laundry in three databases. Core owns orders, weights, prices and the
order status; Payment owns payments, the charge/refund ledger and refunds; Reporting and Notification follow along. The
services only agree through outbox tables, relays, an at-least-once broker and consumers that remember event ids. This
project models that system as atomic steps on the services' tables and proves what holds over every run: in whatever order
the steps happen, with any number of relay processes, crashes, lost, repeated and reordered deliveries, and failed
transactions.

How it is built:

- **Transactions as values.** `CoreDb` and `PaymentDb` define each handler's transaction as a function from the tables to
  the new tables and the reply; a failed transaction returns the tables it started from. `Reporting` does the same for the
  projections. `Relay`, `Notification` and `Pipeline` are state machines whose steps interleave freely.
- **Handlers as they run.** `CoreService`, `PaymentService`, `ReportingService`, `RelayService`, `Notification.Notifier`,
  `Migrator.Runner` and `Idempotency.Guard` are classes with loops, field updates and rollbacks, as in the Go code. Every
  method is proved to have exactly the effect and the reply of its transaction. `CoreService.Core` and
  `PaymentService.Payments` carry the invariants of their databases as `Valid()`: every request requires and keeps it, and
  promises its caller what it means, by the lemmas of `CoreGuarantees` and `PaymentInvariants`.
- **Contracts apart from the transactions.** `CoreContracts` and `PaymentContracts` say of every request, in terms of rows
  only, exactly which reply it gets and which rows have changed to what when it is accepted; prices and tax rates are read
  off the validity intervals, amounts are nearest integers. The transactions are proved to meet them, the handlers promise
  them, and `SystemSteps` shows that the steps of the whole system do what they say.
- **Theorems over runs.** `CoreRuns`, `Convergence`, `PaymentInvariants`, `Relay`, `Reporting`, `Pipeline`,
  `LaundryStart`, `TaxSnapshots`, `DailyFigures`, `CancelledOrders`, `Idempotency`, `IdempotentPayments`, `Migrator` and
  `Notification` hold the main results; `Scenario` runs the whole system through an order's life, so that the states they
  speak about are seen to be reached.

Conventions: every transaction on one database is one atomic step; requests to another service are a separate, earlier step
whose answer may be stale by the time it is used (`Pipeline.System.views`, `PaymentDb.State.waiting`). CreateRefund has no
transaction: its first read, its check for a live refund and its insert are three steps, between which anything may run.
Time, new ids, the gateway's answer and Core's answer are parameters. Amounts are unbounded integers in rupiah; weights and
rates are reals. An event's id is the position of its row in the producer's outbox. Dates are whole days of 86400 seconds.

Where the code and its own documentation differ, the model follows the code:

- `is_locked` is checked when an item is weighed, but nothing ever sets it. What protects the weights of a paid order is
  the order status alone (`CoreRuns.WeightsFreeze`). An item weighed again after finalizing, before the payment arrives,
  leaves a stale subtotal (`CoreRuns.SubtotalIsCurrentExactlyWhen`).
- FinalizeWeighing has no status guard, so an order that is already paid for can be given another total: a run that reaches
  such an order is `Scenario.PaidAnotherAmount`, exactly when finalizing again keeps the total is
  `Pipeline.RefinalizingKeepsTheTotalIff`, and exactly when a payment's amount is still the total is
  `Pipeline.PaymentsMatchAFinalizedTotal`.
- The schema has no constraint against two refunds of one payment. Two requests that both pass the check before either
  inserts are both approved, and the money is paid back twice (`PaymentInvariants.PaidBackTwice`). More is paid back than was
  charged exactly when an approval exceeds what is left of its payment, which no handler checks
  (`PaymentInvariants.RefundsStayWithinExactlyWhen` and `PaymentInvariants.ApprovalKeepsWithinIff`); one live refund per
  payment, which is enough, holds exactly when no insert meets a live one (`PaymentInvariants.OneLiveExactlyWhen`).
- A gateway payment that settles after staff cancelled its order stays PAID: CreateRefund refuses cancelled orders, and an
  order that is cancelled stays so (`CancelledOrders.StrandedForGood`; a run that gets there is
  `Scenario.SettledAfterCancelled`, and `CancelledOrders.PresentAnswerClearsIff` says exactly when a request is cleared).
- The idempotency key does not keep a payment from being created twice when a commit is reported as failed. The index
  refuses the second payment exactly when it is paid at once, in cash (`IdempotentPayments.RetryIsAcceptedIff`); no order
  ever has two PAID payments (`IdempotentPayments.NoOrderPaidTwice`).
- The comment on the payment consumer says that events may be processed in either order. That holds for created, paid and
  failed events; it does not hold for a refund (`Convergence.RefundBeforePaymentDiverges`, and
  `Convergence.RefundedExactlyWhen` for exactly when it does).
- `refunded_amount` depends on the order in which different orders' events arrive
  (`Reporting.RefundedAmountDependsOnInterleaving`, and `Pipeline.RefundedAmountAgreesExactlyWhen` for exactly when).
- An order whose completion Reporting consumes before its creation is never counted (`Pipeline.OrdersAreCountedExactlyWhen`),
  nor is a refund consumed before it (`Reporting.RefundCountedExactlyWhen`). A total consumed after the completion never
  reaches gross_amount (`Reporting.LateWeighingIsNotGross`, and `DailyFigures.GrossIsAnAnnouncedTotal` for what does).
- Down is described as undoing the most recently applied migration; it undoes the greatest version
  (`Migrator.DownTakesTheMostRecentIff`).
- A consumer that loses the race for a notifications row gets an error from the empty result, not an empty id, so the
  delivery is requeued; the branch for an empty id is never reached. An event that was notified before is requeued as well
  while its order cannot be read or the check for duplicates fails, since the order is read before that check.
- The unique index on open tax rates does not forbid two of them, since it indexes NULLs; that there is always exactly one
  follows from SetTaxRate (`Catalog.PublishKeepsTax`).

## Model

| member | source | states |
|---|---|---|
| Pipeline.LaundryIsPaidFor | services/core/internal/handler/payment_events.go:110-140 | In every reachable state of Core, Payment, relays, broker and Reporting, an order in Washing or any later laundry state is Paid, has every item weighed and a total, and Payment holds a payment for it with a successful charge of that payment's amount |
| Pipeline.AgreementAtRest | services/core/internal/handler/payment_events.go:60-104 | Once Core has consumed every event about an order and none of its payments was refunded, Core's payment_status is the maximum of those payments' statuses, for any number of attempts |
| Pipeline.RefundedOrdersAreCancelled | services/core/internal/handler/payment_events.go:142-184 | At rest, an order with a refunded payment is Cancelled, whatever arrived before or after the refund |
| Pipeline.OrdersAreCountedOnce | services/reporting/internal/handler/events.go:188-214 | Across Core, relays, broker and Reporting, each day's order_count is the number of orders Reporting holds as completed then and there, each completed in Core, whose outbox never has two completions of one order |
| Pipeline.OrdersAreCountedExactlyWhen | services/reporting/internal/handler/events.go:169-223 | In every reachable state Reporting counts an order, on some day at some outlet, if and only if it consumed the order's completion after the order's creation |
| Pipeline.RefundedAmountAgreesExactlyWhen | services/reporting/internal/handler/events.go:258-288 | In every reachable state, on a day and at an outlet with sales, refunded_amount equals the refund summary if and only if Reporting consumed no refund of that day and outlet before the first completion |
| Pipeline.PaymentsMatchAFinalizedTotal | services/payment/internal/handler/payments.go:64-83 | Every payment's amount is a total that some FinalizeWeighing of its own order announced, and it is the order's total if and only if it is what the last of them announced |
| Pipeline.RefinalizingKeepsTheTotalIff | services/core/internal/handler/orders.go:522-553 | Finalizing an order again, whatever its status, keeps its total if and only if the weighed sum, the tax on it at the rate in force and the fees come to what they came to before |
| Pipeline.RefinalizingCanLeaveTheAmount | services/core/internal/handler/orders.go:496-561 | From any lawful state, an order with a total can be finalized to a total different from any given amount, whatever its status, which it keeps |
| Scenario.PaidAnotherAmount | services/core/internal/handler/orders.go:555-561 | A run of the whole system that ends with an order in Washing, Paid by a payment of 2000, with a total of 2500 |
| Scenario.TenChangesHappen | services/core/internal/handler/orderstate.go:9-20 | A run of the whole system, through weighing, a cash payment, the relay, the laundry and a late refund, in which one order changes status ten times: the bound of ten is reached |
| CancelledOrders.PresentAnswerClearsIff | services/payment/internal/handler/refunds.go:67-101 | In every reachable state, a refund request for a Paid payment that is checked with Core's present answer is cleared if and only if its order is not cancelled and it has no live refund |
| CancelledOrders.CancelledForGood | services/core/internal/handler/orderstate.go:9-20 | A cancelled order stays cancelled in every continuation of any run of the whole system |
| CancelledOrders.StrandedForGood | services/payment/internal/handler/refunds.go:67-101 | A Paid payment of a cancelled order with no refund under way stays Paid, unchanged and without a refund in every continuation of any run in which checks get Core's present answer |
| Scenario.SettledAfterCancelled | services/payment/internal/handler/simulate.go:66-103 | A run of the whole system in which staff cancel an order while its gateway payment is pending, which then settles: its payment is Paid and stranded |
| LaundryStart.PaidStartsTheLaundry | services/core/internal/handler/payment_events.go:110-140 | In every reachable state of the whole system, an order of which Core has consumed a payment.paid ranks above Weighing |
| LaundryStart.NoPaidOrderWaits | services/core/internal/handler/payment_events.go:123-137 | Once Core has consumed every event about an order, the order is past Weighing if any payment of it is Paid |
| LaundryStart.PaymentsWereAskedFor | services/payment/internal/handler/payments.go:58-83 | Every payment in a reachable state was taken for an order that Core itself had, at some earlier moment of the run, in Weighing, not Paid and at a total of exactly the payment's amount |
| LaundryStart.AnswersWereGiven | services/payment/internal/handler/payments.go:53-58 | Every answer that Payment holds is what Core had about the order at some earlier moment of the run |
| SystemSteps.StepsMeetTheContracts | services/core/internal/handler/payment_events.go:17-75 | In every lawful state, each step of the staff, of Payment and of a delivery to Core changes its tables as the contract of its request says, and no other step changes them |
| Pipeline.DoKeepsInv | shared/outbox/outbox.go:99-157 | Every step of the whole system keeps the system invariant: staff requests, answers to Payment, payment requests, relay steps and the three kinds of delivery |
| Pipeline.RunKeepsInv | services/core/internal/handler/payment_events.go:17-75 | The system invariant holds after any run with any failures |
| OrderState.EdgeRaisesRank | services/core/internal/handler/orderstate.go:9-20 | Every status change any part of Core can make strictly raises one rank; the laundry is entered only at Washing; Completed is reached only from PickedUp or Delivered |
| OrderState.StaffTableByRank | services/core/internal/handler/orderstate.go:9-20 | The staff table allows exactly: holding up to Ready, cancelling up to Weighing, and else one stage on, except from Received and from Weighing |
| OrderState.StaffEdgesStayOut | services/core/internal/handler/orderstate.go:3-20 | The staff table never leads into the laundry from outside it |
| OrderState.LifecycleBounded | services/core/internal/handler/orderstate.go:9-38 | A connected history has at most ten changes and enters no status twice |
| CoreRuns.OrdersStayLawful | services/core/internal/handler/orders.go:668-693 | In any run each order's history is a connected path from NULL to CREATED to the current status, at most ten changes, no status twice; and total = subtotal - discount + tax + fees >= 0 with the tax rounded from the snapshot rate |
| CoreRuns.StatusOnlyClimbs | services/core/internal/handler/pickup_delivery.go:187-201 | Between any two points of a run the history only grows at its end and a changed status has a higher rank |
| CoreRuns.WeightsFreeze | services/core/internal/handler/orders.go:452-474 | Item prices never change; once an order has left Created, Received and Weighing no continuation changes its items, so every later FinalizeWeighing computes the same subtotal |
| CoreRuns.SubtotalIsCurrentExactlyWhen | services/core/internal/handler/orders.go:461-463 | After any run the subtotal an order carries is the sum of its items' subtotals if and only if the weighings since its last accepted finalization cancel out, and differs by exactly their sum |
| CoreRuns.OneRequestPerOrder | services/core/migrations/0001_init.up.sql:170-192 | In every reachable state an order has at most one pickup request and at most one delivery request, each for an order that exists |
| CoreRuns.SnapshotPriceNeverRewritten | services/core/internal/handler/orders.go:703-717 | After any run, each item's price is the one and only price that the price table assigns to the order's creation time, outlet first, then global |
| TaxSnapshots.SnapshotRateNeverRewritten | services/core/internal/handler/orders.go:529-553 | In every run, the tax rate an order carries is, in every later table, the one and only rate covering the time at which its last total was announced |
| CoreRuns.AcceptedTotalIsNearExact | services/core/internal/handler/orders.go:522-561 | After any run, an accepted FinalizeWeighing of n items sets a total within n/2 * (1 + rate/100) + 1/2 rupiah of exact weight times price arithmetic |
| Orders.SubtotalsNearWorth | services/core/internal/handler/orders.go:461-462 | The sum of n rounded subtotals is within n/2 of the exact worth and not negative |
| Orders.FinalizedTotalIsNearExact | services/core/internal/handler/orders.go:534-553 | The error bound of one finalization, for any lawful order and any rate from 0 to 100 |
| Orders.ProjectKeepsInv | services/core/internal/handler/payment_events.go:63-181 | The effect of any payment event on an order keeps the order lawful, leaves its total, and moves its status at most to Washing or Cancelled |
| CoreInvariants.PerformKeepsInv | services/core/internal/handler/orders.go:81-261 | Every transaction of Core keeps: lawful orders, prices that match their creation time, the price and tax timelines, an outbox that agrees with the orders, totals equal to the last one announced, and at most one request of a kind per order; rows only evolve and the outbox only grows |
| CoreInvariants.WeighItemKeepsInv | services/core/internal/handler/orders.go:414-488 | Weighing keeps the invariant, and the ITEM_LOCKED reply never occurs |
| CoreInvariants.OnlyEventsSetStatus | services/core/internal/handler/payment_events.go:83-181 | No transaction other than a delivered payment event changes an order's payment_status |
| CoreInvariants.StaffNeverStartsLaundry | services/core/internal/handler/orders.go:612-619 | No request of the staff brings an order into the laundry |
| CoreContracts.CreateOrderCreates | services/core/internal/handler/orders.go:81-261 | CreateOrder is accepted iff the fields are valid, an outlet is there, every line has an active service with a price covering now, and the rows can be inserted; then the order has one item per line in order, with its service, estimate and that price, the discount asked for or 0, the sum of the rounded estimates iff every line has one, and the requests asked for; every other reply is characterised too |
| CoreContracts.WeighItemWeighs | services/core/internal/handler/orders.go:414-488 | WeighItem is accepted iff the weight is not negative, order and item exist, and the order is Received or Weighing; then that item alone has the weight and its price to the nearest rupiah, and the order is in Weighing |
| CoreContracts.FinalizeFinalizes | services/core/internal/handler/orders.go:496-587 | FinalizeWeighing is accepted iff every item is weighed and the bill at the rate whose tax row covers now has no negative amount; then the order stores that rate, the nearest tax, the fees asked for or kept and their sum, and announces them |
| CoreContracts.ChangeStatusChanges | services/core/internal/handler/orders.go:594-664 | A status change is accepted iff the table has it, a reason is given where one is needed and a completed order is Paid; the new status is the one asked for, with one history row and one event |
| CoreContracts.RequestRegisters | services/core/internal/handler/pickup_delivery.go:35-117 | A pickup or delivery request is registered iff the order exists, is Ready for a delivery, and has none of the kind; exactly one row is added |
| CoreContracts.UpdateUpdates | services/core/internal/handler/pickup_delivery.go:145-209 | An accepted update sets the status of the request, and moves its order from Created to Received, or from Ready to Delivered, iff the request is finished and the order is still there |
| CoreContracts.CreatePricingPrices | services/core/internal/handler/catalog.go:94-142 | An accepted price is what the table says about that service and outlet for every time from now on; what it says of earlier times and of other keys is unchanged |
| CoreContracts.SetTaxRateSets | services/core/internal/handler/tax.go:37-78 | An accepted rate is what the table says for every time from now on; what it says of earlier times is unchanged |
| CoreContracts.ConsumePaymentConsumes | services/core/internal/handler/payment_events.go:31-184 | A new payment event of a known order is marked and sets payment_status by its kind; payment.paid moves an order in Weighing to Washing, payment.refunded any order to Cancelled, with one history row and one event, and nothing else moves; every other message changes nothing but the mark |
| CoreGuarantees.CreateOrderTells | services/core/internal/handler/orders.go:81-261 | On any lawful database an accepted order meets the contract of CreateOrder: new, unpaid, one item for each line at the price the table gives that instant, and it has a pickup or delivery request iff one was asked for |
| CoreGuarantees.CreatePricingTells | services/core/internal/handler/catalog.go:112-138 | The contract of CreatePricing holds, and after an accepted one the lookup for that service and outlet finds exactly the new price |
| CoreGuarantees.ChangeStatusTells | services/core/internal/handler/orders.go:612-630 | The contract of the status change holds, and an accepted one raises the rank, leads into the laundry only from within it, and completes only a paid order |
| CoreGuarantees.FinalizeTells | services/core/internal/handler/orders.go:522-570 | An accepted finalization stores the rate of the tax row that covers now and the bill at it; its total is within the rounding bound of the exact amount and is the last one announced |
| CoreGuarantees.ConsumeTells | services/core/internal/handler/payment_events.go:39-75 | The contract of the consumer holds: payment.paid starts the laundry; handling a message once more, at any time, changes nothing; an acknowledged payment event is marked, a requeued one had no effect |
| Convergence.StatusFollowsArrivals | services/core/internal/handler/payment_events.go:31-104 | An order's payment_status after any run is determined by its own events in the order of their first arrival |
| Convergence.SameEventsSameStatus | services/core/internal/handler/payment_events.go:51-69 | Two runs that deliver the same created, paid and failed events of an order, in any order and number and among any other steps, leave it with the same payment_status: the maximum of what it was and what arrived, if it had not been refunded before |
| Convergence.RefundedExactlyWhen | services/core/internal/handler/payment_events.go:147-184 | An order that was Unpaid ends Refunded if and only if a refund arrived after its last payment did |
| Convergence.RefundedIffLastPaymentRefunded | services/core/internal/handler/payment_events.go:122-171 | The same for any sequence of arrivals, together with exactly when it ends Paid |
| Convergence.RefundBeforePaymentDiverges | services/core/internal/handler/payment_events.go:122-167 | The same three events delivered to Core in two orders: with the refund last the order ends Refunded, with the refund before the payment it ends Paid, and Cancelled both times |
| Convergence.RedeliveryIsInvisible | services/core/internal/handler/payment_events.go:39-49 | Over any steps with repeats, crashes and rolled-back failures, Core's whole database equals folding the handlers over first successful occurrences |
| Convergence.NoEventTwice | services/core/internal/handler/payment_events.go:95-104 | Among those occurrences no event appears twice and none had been handled before |
| Convergence.LedgerIsHandled | services/core/internal/handler/outbox_writer.go:28-34 | processed_events is exactly the set of successfully handled events |
| PaymentContracts.CreatePaymentTakes | services/payment/internal/handler/payments.go:46-172 | CreatePayment is accepted iff the fields are valid, the answer is there, its status is Weighing, it is not Paid, its total is the amount, the gateway is up or the method is cash, the id is new, and in cash the order has no Paid payment; each refusal exactly when it is due |
| PaymentContracts.SettleGatewaySettles | services/payment/internal/handler/simulate.go:23-109 | A settlement is accepted iff the payment is a pending gateway payment and, to be paid, its order has no Paid payment; status, ledger row and event are those of the outcome |
| PaymentContracts.BeginRefundBegins | services/payment/internal/handler/refunds.go:50-71 | A refund request goes on iff its payment is Paid, with that payment's order and amount |
| PaymentContracts.CheckRefundChecks | services/payment/internal/handler/refunds.go:72-101 | A request is cleared iff the answer is there, the order is not cancelled, and every refund of the payment was rejected or failed |
| PaymentContracts.ApproveRefundApproves | services/payment/internal/handler/refunds.go:143-219 | An approval is accepted iff the refund is Requested and the amount within it; refund, payment, ledger and event have that amount |
| PaymentContracts.RejectRefundRejects | services/payment/internal/handler/refunds.go:234-265 | A rejection is accepted iff the refund is Requested and a reason is given, and only makes it Rejected |
| PaymentInvariants.TableAndOutboxAgree | services/payment/internal/handler/simulate.go:66-103 | In every reachable state, racing refund requests included, a payment has exactly one created event, a paid event iff Paid or Refunded, a failed event iff Failed, one refunded event for each completed refund, of which it has some iff Refunded, and one successful charge iff Paid or Refunded; no order has two Paid payments |
| PaymentInvariants.RefundsNeverExceedCharge | services/payment/internal/handler/refunds.go:67-118 | In every run in which no insert met a live refund, which suffices and is not needed, whatever ran while requests waited for Core: a requested refund's payment is Paid, a payment has at most one live refund, and refunds never total more than the successful charge |
| PaymentInvariants.RefundsStayWithinExactlyWhen | services/payment/internal/handler/refunds.go:174-206 | After any run, racing refund requests included, the REFUND rows of every payment total at most its successful charge if and only if no accepted approval of the run came to more, with what had been paid back before, than its payment's amount |
| PaymentInvariants.ApprovalKeepsWithinIff | services/payment/internal/handler/refunds.go:174-206 | One accepted approval keeps every payment within its charge if and only if the payment's refunds so far and this one come to at most its amount, whatever other refunds of it are live |
| PaymentInvariants.RequestedIsPaidIff | services/payment/internal/handler/refunds.go:67-118 | In every run, contested or not, the payment of a requested refund is still Paid if and only if none of its refunds has completed |
| PaymentInvariants.OneLiveExactlyWhen | services/payment/internal/handler/refunds.go:88-118 | Throughout a run every payment has at most one live refund if and only if no insert of the run met a live refund of its payment |
| PaymentInvariants.InsertKeepsOneLiveIff | services/payment/internal/handler/refunds.go:104-111 | One insert keeps at most one live refund per payment if and only if the payment has none at that moment, whatever the check saw |
| PaymentInvariants.OneAtATimeSuffices | services/payment/internal/handler/refunds.go:88-111 | If no request passes the check while another one for its payment has passed it and not yet inserted, no insert meets a live refund |
| PaymentInvariants.PaidBackTwice | services/payment/internal/handler/refunds.go:88-111 | A run with two racing requests in which any amount that was paid is paid back twice |
| PaymentInvariants.RefundsAreBounded | services/payment/internal/handler/refunds.go:195-216 | In every run what was paid back is at most the payment's amount for each refunded event |
| PaymentInvariants.PerformKeepsInv | services/payment/internal/handler/refunds.go:143-219 | Every step of Payment keeps payments, ledger, refunds, events and waiting requests in agreement |
| PaymentInvariants.IndexRefusesExactlyWhen | services/payment/migrations/0001_init.up.sql:19 | In every reachable state a pending gateway payment can settle as paid if and only if its order has no Paid payment; otherwise update, ledger row and event are rolled back; settling as failed is never refused |
| Relay.RelayAccounting | shared/outbox/outbox.go:99-157 | With any number of relays, crashes and ambiguous errors: no row is in two live batches, broker copies never exceed retry_count + 1, a pending row has had exactly retry_count attempts, a published row has had one acknowledged publish |
| Relay.SettleTells | shared/outbox/outbox.go:139-154 | A settlement marks an acknowledged row Published and a failed one Pending with one more retry, leaves the row alone if its update is lost, changes no other row, and no relay holds the row afterwards |
| Relay.StuckExactlyWhenLost | shared/outbox/outbox.go:139-154 | In every run a row is in PUBLISHING without being held if and only if an update of it was lost or the relay that held it crashed |
| Relay.PublishedIsTerminal | shared/outbox/outbox.go:149-154 | No later step of any relay touches a published row |
| RelayService.OldestAreClaimed | shared/outbox/outbox.go:100-111 | The claim takes pending rows only, oldest first, and leaves a pending row out only when the batch is full |
| RelayService.OutboxRelay.ClaimOldest | shared/outbox/outbox.go:100-124 | Claiming marks exactly the oldest pending rows PUBLISHING and returns them once each, in any order |
| RelayService.OutboxRelay.PublishRow | shared/outbox/outbox.go:139-154 | Exactly: a written update of an acknowledged publish leaves the row PUBLISHED, of a failed one PENDING with one more retry, and an unwritten one leaves it PUBLISHING; attempts, acknowledgements and copies are counted |
| RelayService.OutboxRelay.Tick | shared/outbox/outbox.go:99-158 | A whole tick claims the oldest pending rows, gives each claimed row its outcome and changes no other, and is a run of relay machine steps in whatever order the claim returned them, that leaves no row held |
| Reporting.RedeliveryIsInvisible | services/reporting/internal/handler/events.go:53-99 | Reporting's tables equal the fold of the projections over first successful occurrences, and its ledger holds exactly their ids |
| Reporting.InterleavingIsInvisible | services/reporting/internal/handler/events.go:114-223 | Two delivery sequences with the same per-order subsequences leave equal order summaries, refund summaries, gross_amount and order_count |
| Reporting.DailyFiguresAreSums | services/reporting/internal/handler/events.go:188-288 | Each daily figure is the sum over orders of what each order's own events contribute |
| Reporting.SummaryFollowsOwnEvents | services/reporting/internal/handler/events.go:127-185 | An order's summary row depends only on that order's events |
| Reporting.RefundedAmountFallsShort | services/reporting/internal/handler/events.go:281-288 | refunded_amount plus what was refunded before the day's sales row existed equals the refund summary |
| Reporting.RefundedAmountAgreesExactlyWhen | services/reporting/internal/handler/events.go:258-288 | On a day with sales and with positive refunds, refunded_amount equals the refund summary if and only if no refund of that day and outlet arrived before its first completion |
| Reporting.CountedExactlyWhen | services/reporting/internal/handler/events.go:127-214 | Folding any events, an order is completed in the summary if and only if its completion came after its creation |
| Reporting.FiguresAreTheWorth | services/reporting/internal/handler/events.go:127-288 | The four daily figures of any events are a sum over positions read off the events alone: a completion is worth the total last weighed since the order's creation, a refund its amount, under the outlet of the first creation, and both nothing when no creation came before |
| Reporting.RowFollowsEvents | services/reporting/internal/handler/events.go:127-167 | An order has a summary row iff its creation was consumed; the row holds the outlet of the first creation and the total of the last order.weighed since |
| Reporting.StatusFollowsEvents | services/reporting/internal/handler/events.go:127-204 | An order's summary row dates from its first creation, has the status its last change since led to, or Created, and was completed when its last completion since occurred |
| Reporting.RefundCountedExactlyWhen | services/reporting/internal/handler/events.go:258-275 | A consumed refund is in the refund summary, of some day and outlet, if and only if its order's creation was consumed first; else it adds nothing anywhere |
| Reporting.LateWeighingIsNotGross | services/reporting/internal/handler/events.go:188-208 | Created, completed, weighed: the day counts the order with a gross of 0 while its row shows a total of 2000 |
| DailyFigures.FiguresAreTheWorth | services/reporting/internal/handler/events.go:24-100 | In every reachable state of the whole system each daily figure is the summed worth of the events Reporting applied, each once |
| DailyFigures.GrossIsAnAnnouncedTotal | services/reporting/internal/handler/events.go:188-208 | In every reachable state a counted completion adds to gross either 0, when no order.weighed of the order was applied between creation and completion, or the total of one of Core's order.weighed rows, which is Core's total if and only if it is the one last announced |
| Reporting.RefundedAmountDependsOnInterleaving | services/reporting/internal/handler/events.go:281-288 | Two sequences with equal per-order subsequences and different refunded_amount |
| Reporting.ApplyKeepsCounts | services/reporting/internal/handler/events.go:188-214 | order_count stays the number of completed orders as long as no completion is applied twice |
| Catalog.PriceHistoryStable | services/core/internal/handler/catalog.go:112-138 | Under an increasing clock, any run of CreatePricing keeps the intervals of each service and outlet contiguous, disjoint and with only the last open, and the price read at time t stays the only price covering t |
| Catalog.PublishKeepsTimeline | services/core/internal/handler/catalog.go:112-138 | One CreatePricing keeps that timeline |
| Catalog.AtMostOneOpen | services/core/internal/handler/catalog.go:112-138 | Each service and outlet has at most one open row |
| Catalog.ActivePriceIsPriceNow | services/core/internal/handler/catalog.go:168-184 | The lookup of open rows agrees with the intervals: it finds the price covering now, and nothing exactly when none does |
| Catalog.OpenPrice | services/core/internal/handler/catalog.go:170-182 | The query result is the price of an open row for the key, and empty exactly when there is none |
| Catalog.PublishSetsPriceFromNow | services/core/internal/handler/catalog.go:112-138 | Publishing a price replaces what the intervals say of its key from now on and nothing else |
| Catalog.ActiveTaxIsTaxNow | services/core/internal/handler/orders.go:529-535 | The lookup of the open rate finds exactly the rate whose interval covers now |
| Catalog.PublishKeepsTax | services/core/internal/handler/tax.go:55-69 | SetTaxRate keeps one unbroken chain of rates with exactly the last open, which becomes the active rate |
| Idempotency.ServeAnswers | shared/idempotency/idempotency.go:29-94 | Each of the six replies exactly when it is due; only a fresh one has an effect, which is the handler's, and records what was answered iff it is not a server error and the write is not lost |
| Idempotency.SettledKeysReplay | shared/idempotency/idempotency.go:35-91 | After a non-5xx outcome under a key and endpoint, every later call whose body and ledger can be read gets the same status and bytes when its body hash is equal and a conflict when it differs, and no later call has an effect |
| Idempotency.SettlesAtMostOnce | shared/idempotency/idempotency.go:48-91 | In a serial run the handler has a non-5xx outcome at most once per key and endpoint |
| Idempotency.LostLedgerWriteRunsTwice | shared/idempotency/idempotency.go:75-89 | When the ledger write is lost the handler runs again, so durable writes are needed |
| Idempotency.Guard.Require | shared/idempotency/idempotency.go:29-94 | The middleware, with its response capture, computes exactly the specified state and ledger, and each reply exactly when it is due: missing key, unreadable body, unreadable ledger, reuse, replay of the record, or what the handler wrote |
| Idempotency.ResponseCapture.Write | shared/idempotency/idempotency.go:114-117 | What the client receives and what is stored for replay grow by the same bytes |
| IdempotentPayments.OnePaymentPerKey | services/payment/internal/handler/payments.go:121-172 | Any number of retries of POST /payments under one key, with any bodies, answers, gateway failures and rolled-back transactions in between, commits at most one payment, and one more for each commit whose success the handler did not hear of |
| IdempotentPayments.OnePaymentExactlyWhen | services/payment/internal/handler/payments.go:121-172 | The calls under one key, however they end, commit at most one payment if and only if none commits a payment after one whose commit was not heard of |
| IdempotentPayments.HeardOfIsFinal | shared/idempotency/idempotency.go:48-91 | Once a call under a key has committed a payment and was heard of, no later call under it commits one |
| IdempotentPayments.RetryIsAcceptedIff | services/payment/internal/handler/payments.go:121-138 | After an accepted payment, heard of or not, a retry with the same body that passes the checks is accepted if and only if the method is not cash; in cash it is answered 409 and changes nothing |
| IdempotentPayments.NoOrderPaidTwice | services/payment/migrations/0001_init.up.sql:19 | Whatever the keys, bodies and fates of the calls, recorded or not, no order ever has two PAID payments |
| IdempotentPayments.CashIsTakenOnce | services/payment/internal/handler/payments.go:121-138 | When every call asks for the same payment in cash, at most one of them adds a payment, under any keys and however the calls end |
| IdempotentPayments.UnheardCommitAddsSecondPending | services/payment/internal/handler/payments.go:167-172 | A gateway payment whose commit succeeds but is reported as failed is answered 500 and not recorded, and the retry adds a second pending payment; nothing has been paid |
| Migrator.ByVersionReads | shared/migrator/migrator.go:31-66 | What the directory is read into: a version for each script that has one, its name that of the first file, its up and down texts the contents of the last file of each kind |
| Migrator.ListingIsUnique | shared/migrator/migrator.go:68-73 | There is only one sorted listing of the scripts, so the order in which the map is walked cannot matter |
| Migrator.Load | shared/migrator/migrator.go:31-74 | load fails exactly when a versioned script cannot be read, and else lists one migration for each version, sorted, with the first name and the last up and down texts found for it |
| Migrator.UpResumes | shared/migrator/migrator.go:98-123 | Up after an Up that stopped anywhere ends like one uninterrupted Up, and together they commit the same scripts in the same order |
| Migrator.AnyInterruptionsResume | shared/migrator/migrator.go:98-123 | The same after any number of interruptions |
| Migrator.CommittedInOrder | shared/migrator/migrator.go:98-123 | Up commits in ascending order, each script once, none that was recorded before |
| Migrator.CommittedMakesTheSchema | shared/migrator/migrator.go:108-122 | The schema after Up is the result of running exactly the committed scripts |
| Migrator.CommittedIsRecorded | shared/migrator/migrator.go:116-119 | Exactly the committed scripts are newly recorded |
| Migrator.UpLeavesAPrefix | shared/migrator/migrator.go:88-126 | From a prefix of the versions Up leaves a prefix wherever it stops, and stops early only at a rejected script |
| Migrator.DownsRestore | shared/migrator/migrator.go:129-168 | When down scripts invert their up scripts, k Downs after Up leave exactly what the first n - k scripts make |
| Migrator.DownTakesTheMostRecentIff | shared/migrator/migrator.go:128-136 | After an Up that committed something, the version Down will take is the last committed one if and only if no greater version was already recorded |
| Migrator.Runner.Up | shared/migrator/migrator.go:88-126 | The loop over the loaded scripts has exactly the specified effect and outcome |
| Migrator.Runner.Down | shared/migrator/migrator.go:129-168 | Down undoes the greatest applied version, and changes nothing when there is none, no file for it, or the script fails |
| Notification.SendAtMostOncePerEvent | services/notification/internal/handler/events.go:179-228 | Over any redeliveries, racing consumers and crashes, Send is called at most once per event, with the text of a notifications row that exists by then |
| Notification.DeliveryRowsAreOutcomes | services/notification/internal/handler/events.go:210-227 | An event has at most one delivery row, and it says what its call of Send returned |
| Notification.MessagesGoToTheCustomer | services/notification/internal/handler/events.go:176-209 | In every run each call of Send is for a wanted event, to the phone that Core named for its customer, with the text rendered for it |
| Notification.SentExactlyWhen | services/notification/internal/handler/events.go:197-210 | An event is sent if and only if a consumer that inserted its row gets to Send |
| Notification.OrphanedRowsAreNeverSent | services/notification/internal/handler/events.go:180-186 | A row whose consumer is gone before sending is never sent by any continuation |
| Notification.OnlyWantedEventsAreSent | services/notification/internal/handler/events.go:59-171 | An event delivered only with kinds that are not notified never gets a row or a message |
| Notification.Notifier.NotifyCustomer | services/notification/internal/handler/events.go:59-229 | One consumer handling a delivery to its end is the run of its four steps, and is requeued exactly when a request or statement that it got to failed: the order's lookup, the check for duplicates, the customer, the insert or the delivery row; the row, the message to the customer's phone and the delivery row are written exactly when it gets that far |
| CoreService.Core.CreateOrder | services/core/internal/handler/orders.go:81-261 | Exactly the transaction and its contract: every reply, one item for each line with its snapshot price, the estimate only when every line has one, the requests asked for, and all rows or none; keeps the invariant |
| CoreService.Core.FindActivePrice | services/core/internal/handler/orders.go:703-717 | The lookup returns the outlet's open price, else the global one |
| CoreService.Core.WeighItem | services/core/internal/handler/orders.go:414-488 | Exactly the transaction: weight, rounded subtotal, and the first weighing's transition with its history row and event; never ITEM_LOCKED, never in the laundry |
| CoreService.Core.FinalizeWeighing | services/core/internal/handler/orders.go:496-587 | Exactly the transaction and its contract: the completeness loop, the sum, the tax at the rate whose row covers now, fees and total, the table's checks, and order.weighed; an accepted total is near the exact amount |
| CoreService.Core.TransitionStatus | services/core/internal/handler/orders.go:668-693 | Status, history row and the event named after the target status are written together |
| CoreService.Core.ChangeOrderStatus | services/core/internal/handler/orders.go:594-664 | Exactly the transaction and its contract: the refusals, and one transition to the status asked for, which raises the rank and does not lead into the laundry |
| CoreService.Core.RequestPickup | services/core/internal/handler/pickup_delivery.go:35-66 | Exactly the transaction, and an accepted request is the only pickup request of its order |
| CoreService.Core.RequestDelivery | services/core/internal/handler/pickup_delivery.go:70-117 | Exactly the transaction, only while the order is Ready, and an accepted request is the only delivery request of its order |
| CoreService.Core.UpdateFulfillment | services/core/internal/handler/pickup_delivery.go:145-209 | Exactly the transaction and its contract: a finished pickup receives a Created order and a finished delivery delivers a Ready one; no other order moves |
| CoreService.Core.CreatePricing | services/core/internal/handler/catalog.go:94-142 | Exactly the transaction: the open row of the key is closed and a new one added at the same instant, or nothing; afterwards the lookup finds the new price |
| CoreService.Core.SetTaxRate | services/core/internal/handler/tax.go:37-78 | Exactly the transaction: the open rate is closed and the new one added, which is then the rate in force |
| CoreService.Core.HandlePaymentEvent | services/core/internal/handler/payment_events.go:31-75 | Exactly the transaction and its contract: dedup by event id, payment_status by the kind of event, payment.paid starts the laundry of an order in Weighing, acknowledged or requeued; handling the message again would change nothing |
| CoreService.Core.ProjectPaymentStatusIf | services/core/internal/handler/payment_events.go:83-104 | The status is written only from the listed statuses; the event is marked either way |
| CoreService.Core.HandlePaymentPaid | services/core/internal/handler/payment_events.go:110-140 | The order is Paid, and if it was in Weighing it is in Washing with one history row and one event, in one commit; requeued without effect when the order is missing |
| CoreService.Core.HandlePaymentRefunded | services/core/internal/handler/payment_events.go:147-184 | A Paid order is Refunded, and any order not yet cancelled is Cancelled with one history row and one event, in one commit |
| CoreService.Core.ConsumePaymentEvents | services/core/internal/handler/payment_events.go:17-29 | The delivery loop is the fold of the handler, and each delivery is answered by the state it met |
| PaymentService.Payments.CreatePayment | services/payment/internal/handler/payments.go:46-180 | Exactly the transaction and its contract: accepted only while Core shows the order in Weighing, not Paid, at exactly this total, with the gateway up or in cash, a new id and, in cash, no Paid payment; then the payment, its charge row and its events |
| PaymentService.Payments.SimulateGatewayCallback | services/payment/internal/handler/simulate.go:23-109 | Exactly the transaction: a pending gateway payment settles with its ledger row and event; when the index refuses, another payment of the order is Paid and nothing changes |
| PaymentService.Payments.BeginRefund | services/payment/internal/handler/refunds.go:50-80 | The first part of CreateRefund remembers the order and amount of a Paid payment |
| PaymentService.Payments.CheckRefund | services/payment/internal/handler/refunds.go:72-101 | The second part, with Core's answer: refused for a cancelled order or a live refund, else cleared to insert; writes nothing |
| PaymentService.Payments.InsertRefund | services/payment/internal/handler/refunds.go:104-118 | The third part inserts; it keeps one live refund per payment if and only if there is none by then |
| PaymentService.Payments.CreateRefund | services/payment/internal/handler/refunds.go:50-126 | With nothing in between, the whole handler adds at most one refund, of the full amount of a Paid payment without a live one, and keeps one live refund per payment |
| PaymentService.Payments.ApproveRefund | services/payment/internal/handler/refunds.go:143-226 | Exactly the transaction: refund, payment, ledger row and event together; payments that were within their charge stay so if and only if the payment's refunds so far and this one come to at most its amount, which one live refund per payment ensures |
| PaymentService.Payments.RejectRefund | services/payment/internal/handler/refunds.go:234-265 | A refund becomes Rejected if and only if it is Requested and a reason is given; nothing else changes |
| ReportingService.Reports.Handle | services/reporting/internal/handler/events.go:64-100 | Exactly the specified projection, ledger entry and acknowledgement for every kind of event; requeued exactly for an unreadable payload, which changes nothing |
| ReportingService.Reports.ProjectOrderCreated | services/reporting/internal/handler/events.go:114-143 | The first created event inserts the summary row; another one changes nothing |
| ReportingService.Reports.ProjectOrderWeighed | services/reporting/internal/handler/events.go:145-167 | The total is set on an existing row and nothing else changes |
| ReportingService.Reports.ProjectOrderStatusChanged | services/reporting/internal/handler/events.go:169-223 | The row's status, and on completion its time and the day's sales, as specified |
| ReportingService.Reports.ProjectRefund | services/reporting/internal/handler/events.go:258-301 | The day's refunds, and the sales row only if it exists |
| ReportingService.Reports.ConsumeAll | services/reporting/internal/handler/events.go:24-51 | The delivery loop is the run of the projections |
| Money.RoundHalfAway | services/core/internal/handler/orders.go:462 | math.Round: within half of the argument, halves away from zero |

## Left out

- float64 rounding, int64 overflow, and NUMERIC(10,3) and NUMERIC(5,2) truncation: weights and rates are exact reals, so the results are for weights of at most three decimals and rates of at most two.
- Races between handlers inside one database, other than those of CreateRefund: the reads before the transaction in ChangeOrderStatus and SimulateGatewayCallback belong to its step, and two first uses of one idempotency key do not run at the same time.
- Eventual delivery: a crashed relay leaves its rows in PUBLISHING for good, so only safety and agreement at rest are proved.
- Authorization, roles and ownership checks: a step is a request that has passed them.
- HTTP routing, JSON, CORS, metrics, logging, health checks, configuration, AMQP connections; a message that cannot be decoded is a case of its own, the rest has no state to prove anything about.
- Customer upsert, outlet recommendation, service and outlet administration: the tables are given, and the request names the resolved outlet.
- order_transfers, administrative override, ON_HOLD resume, dead-lettering and the refund window: described in the documentation, not implemented.
- Payment providers other than cash and the dummy gateway, which always answers PENDING.
- Sessions, users, password hashing, JWT, rate limiting and the proxy: one-branch checks around libraries.
- Message texts, currency formatting and the web front end.
- SQL and triggers: a table is a map or a sequence with the constraints the handlers rely on; order codes, notes, names and updated_at columns are not kept.
- An event names its amount and order but not the other payload fields, which no consumer reads.
- Idempotency.SettledKeysReplay: bodies are compared by their hash, as the code does, so two bodies with one SHA-256 hash count as equal.
- IdempotentPayments.OnePaymentPerKey: assumes, as the ledger does, that a settled response is recorded; it bounds the payments when commits are not heard of, and exactly when there is only one is IdempotentPayments.OnePaymentExactlyWhen.
- CancelledOrders.StrandedForGood: a refund request that still holds an answer from before the cancellation can pass the check; the theorem is about checks with Core's present answer.
- Idempotency.Guard.Require: the handler computes its response before the first byte is captured, so a client that sees part of a response of a handler that later panics is not modelled.
- Migrator.Load: how a file name is split into version, rest and kind is a field of the directory entry; sorting is an insertion into the sorted result.
- Migrator.Runner.Up: a script's effect on the schema is a deterministic function that either succeeds or is rejected as a whole.
- Notification.Notifier.NotifyCustomer: finding the customer and rendering the text is one answer, given or not.
- Pipeline.OrdersAreCountedOnce: says what is counted, not that every completed order is; which ones are is Pipeline.OrdersAreCountedExactlyWhen.
- Convergence.RefundBeforePaymentDiverges: the three deliveries are taken without other steps in between.
