/** One concrete life of the whole system: an order is created, weighed, paid in cash, washed and handed back, and
    refunded at the end. It shows that the states the theorems speak about are reached. */
module Scenario {
  import opened Wrappers
  import opened OrderState
  import opened Events
  import opened Money
  import opened Orders
  import Core = CoreDb
  import Catalog
  import CoreRuns
  import Pay = PaymentDb
  import PaymentInvariants
  import Relay
  import Reporting
  import opened Pipeline
  import opened CancelledOrders

  const OUTLETS: set<OutletId> := {0}
  const SERVICES: map<ServiceId, bool> := map[0 := true]

  function Clock(attempts: seq<Attempt>): int {
    if attempts == [] then 0 else attempts[|attempts| - 1].at
  }

  function Then(attempts: seq<Attempt>, step: Step): seq<Attempt> {
    attempts + [Attempt(step, Clock(attempts) + 1, true)]
  }

  function After(attempts: seq<Attempt>): System {
    Run(Start(OUTLETS, SERVICES), attempts)
  }

  lemma ThenDoes(attempts: seq<Attempt>, step: Step)
    requires Ticking(0, attempts)
    ensures Ticking(0, Then(attempts, step))
    ensures After(Then(attempts, step)) == Do(After(attempts), Clock(attempts) + 1, step).(clock := Clock(attempts) + 1)
  {
    hide Do;
    assert Then(attempts, step)[..|attempts|] == attempts;
  }

  /** A step of Payment changes its tables and tells its relay of new outbox rows. */
  lemma PaymentMoves(before: seq<Attempt>, op: Pay.Op) returns (attempts: seq<Attempt>)
    requires Ticking(0, before) && AnswerKnown(After(before).views, op)
    ensures Ticking(0, attempts)
    ensures
      var s, s' := After(before), After(attempts);
      && s' == s.(pay := s'.pay, payRelay := s'.payRelay, clock := s'.clock)
      && s'.pay == Pay.Perform(s.pay, Clock(before) + 1, op) && s'.payRelay == Sync(s.payRelay, |s'.pay.db.outbox|)
  {
    hide Run, Ticking, Pay.Perform, Sync;
    ThenDoes(before, PaymentStep(op));
    attempts := Then(before, PaymentStep(op));
  }

  // ---------------------------------------------------------------- up to the weighed order

  const ITEM: Item := Item(0, 1000, None, Some(2.0), Some(2000), false)

  const REQUEST: Core.OrderRequest := Core.OrderRequest([Core.Line(0, None)], true, true, Some(0), None, None, None)

  /** Order 0 waits to be paid 2000 rupiah. */
  ghost predicate Weighed(core: Core.Db) {
    && core.orders.Keys == {0}
    && core.taxRates == [Catalog.TaxRow(0.0, 0, None)] && core.processed == {}
    && var o := core.orders[0];
       && o.items == [ITEM] && o.status == Weighing && o.paymentStatus == Unpaid && |o.history| == 3
       && o.discount == 0 && o.pickupFee == 0 && o.deliveryFee == 0 && o.total == Some(2000)
  }

  lemma Priced() returns (attempts: seq<Attempt>)
    ensures Ticking(0, attempts)
    ensures After(attempts).core.prices == [Catalog.PriceRow(0, None, 1000, 1, None)]
    ensures After(attempts) == Start(OUTLETS, SERVICES).(core := After(attempts).core, clock := 1)
    ensures After(attempts).core == Start(OUTLETS, SERVICES).core.(prices := After(attempts).core.prices)
  {
    var step := Staff(Core.OpCreatePricing(0, None, 1000));
    ThenDoes([], step);
    attempts := Then([], step);
    assert After([]) == Start(OUTLETS, SERVICES);
    hide Run, Ticking;
    assert Catalog.CloseOpen([], 0, None, 1) == [];
    assert Core.CreatePricing(Start(OUTLETS, SERVICES).core, 1, 0, None, 1000).db.prices ==
      [Catalog.PriceRow(0, None, 1000, 1, None)];
    assert Sync(Relay.EMPTY, 0) == Relay.EMPTY;
  }

  lemma Created() returns (attempts: seq<Attempt>)
    ensures Ticking(0, attempts)
    ensures
      var s := After(attempts);
      && s.core.orders.Keys == {0}
      && s.core.taxRates == [Catalog.TaxRow(0.0, 0, None)] && s.core.processed == {}
      && s.pay == PaymentInvariants.EMPTY && s.payRelay == Relay.EMPTY
      && var o := s.core.orders[0];
         && o.items == [Item(0, 1000, None, None, None, false)] && o.status == OrderState.Created
         && o.paymentStatus == Unpaid
         && |o.history| == 1 && o.discount == 0 && o.pickupFee == 0 && o.deliveryFee == 0
  {
    attempts := Priced();
    var core := After(attempts).core;
    assert core.prices[1..] == [];
    assert Catalog.OpenPrice(core.prices, 0, Some(0)) == None;
    assert Core.PrepareItem(core, 0, Core.Line(0, None)) == Some(Item(0, 1000, None, None, None, false));
    assert Core.Prepare(core, 0, REQUEST.lines) == [Item(0, 1000, None, None, None, false)];
    var step := Staff(Core.OpCreateOrder(0, REQUEST));
    ThenDoes(attempts, step);
    attempts := Then(attempts, step);
  }

  lemma Received() returns (attempts: seq<Attempt>)
    ensures Ticking(0, attempts)
    ensures
      var s := After(attempts);
      && s.core.orders.Keys == {0}
      && s.core.taxRates == [Catalog.TaxRow(0.0, 0, None)] && s.core.processed == {}
      && s.pay == PaymentInvariants.EMPTY && s.payRelay == Relay.EMPTY
      && var o := s.core.orders[0];
         && o.items == [Item(0, 1000, None, None, None, false)] && o.status == OrderState.Received
         && o.paymentStatus == Unpaid
         && |o.history| == 2 && o.discount == 0 && o.pickupFee == 0 && o.deliveryFee == 0
  {
    attempts := Created();
    var step := Staff(Core.OpChangeStatus(0, Some(OrderState.Received), false));
    ThenDoes(attempts, step);
    attempts := Then(attempts, step);
  }

  lemma OnTheScale() returns (attempts: seq<Attempt>)
    ensures Ticking(0, attempts)
    ensures
      var s := After(attempts);
      && s.core.orders.Keys == {0}
      && s.core.taxRates == [Catalog.TaxRow(0.0, 0, None)] && s.core.processed == {}
      && s.pay == PaymentInvariants.EMPTY && s.payRelay == Relay.EMPTY
      && var o := s.core.orders[0];
         && o.items == [ITEM] && o.status == Weighing && o.paymentStatus == Unpaid
         && |o.history| == 3 && o.discount == 0 && o.pickupFee == 0 && o.deliveryFee == 0
  {
    attempts := Received();
    var step := Staff(Core.OpWeighItem(0, 0, 2.0));
    assert PriceOf(2.0, 1000) == 2000;
    ThenDoes(attempts, step);
    attempts := Then(attempts, step);
  }

  /** What finalizing the one item at no tax comes to. */
  lemma FinalizedAt(o: Order, pickupFee: Option<int>)
    requires o.items == [ITEM] && o.discount == 0 && o.deliveryFee == 0 && o.pickupFee == 0
    ensures
      var done := Finalize(o, 0.0, pickupFee, None);
      && done.items == o.items && done.status == o.status && done.paymentStatus == o.paymentStatus
      && done.history == o.history
      && done.discount == 0 && done.tax == 0 && done.taxRate == 0.0 && done.deliveryFee == 0
      && done.pickupFee == FeeOr(pickupFee, 0)
      && done.total == Some(2000 + FeeOr(pickupFee, 0))
  {
    assert SumSubtotals([ITEM]) == 2000 by { assert [ITEM][1..] == []; }
    assert TaxOn(2000, 0.0) == 0;
  }

  lemma OrderWeighed() returns (attempts: seq<Attempt>)
    ensures Ticking(0, attempts) && Weighed(After(attempts).core)
    ensures After(attempts).pay == PaymentInvariants.EMPTY && After(attempts).payRelay == Relay.EMPTY
  {
    attempts := OnTheScale();
    var step := Staff(Core.OpFinalize(0, None, None));
    FinalizedAt(After(attempts).core.orders[0], None);
    assert Catalog.ActiveTax(After(attempts).core.taxRates) == Some(0.0);
    hide Finalize;
    ThenDoes(attempts, step);
    attempts := Then(attempts, step);
  }

  // ---------------------------------------------------------------- paid and in the laundry

  const VIEW: Pay.OrderView := Pay.OrderView(0, Weighing, Unpaid, Some(2000))
  const TICKET: Pay.Ticket := Pay.Ticket(0, 0, 2000)

  /** Order 0 was paid 2000 rupiah in cash, and Core knows it. */
  ghost predicate CashTaken(s: System) {
    && s.pay.db.payments == map[0 := Pay.Payment(0, 2000, Pay.Cash, Pay.CashDesk, Paid)]
    && s.pay.db.refunds == map[] && s.pay.waiting == {} && s.pay.cleared == multiset{}
    && |s.pay.db.outbox| == 2 && s.pay.db.outbox[1].event == PayEvent(PaidEvent, 0, 0, 2000)
    && |s.payRelay.rows| == 2 && VIEW in s.views
  }

  lemma CashPaid() returns (attempts: seq<Attempt>)
    ensures Ticking(0, attempts) && CashTaken(After(attempts))
    ensures Weighed(After(attempts).core)
      && After(attempts).payRelay == Relay.State([Relay.NEW_ROW, Relay.NEW_ROW], map[])
  {
    attempts := OrderWeighed();
    ThenDoes(attempts, AnswerPayment(0));
    attempts := Then(attempts, AnswerPayment(0));
    assert VIEW in After(attempts).views;
    var step := PaymentStep(Pay.OpCreatePayment(Pay.PaymentRequest(Some(0), 2000, Some(Pay.Cash)), Some(VIEW), true,
      0));
    ThenDoes(attempts, step);
    attempts := Then(attempts, step);
  }

  /** One row of Payment's outbox is claimed and published by a relay process that then stays where it is. */
  lemma Published(before: seq<Attempt>, w: nat, row: nat) returns (attempts: seq<Attempt>)
    requires Ticking(0, before)
    requires
      var r := After(before).payRelay;
      w !in r.workers && row < |r.rows| && r.rows[row] == Relay.NEW_ROW
    ensures Ticking(0, attempts)
    ensures
      var s, s' := After(before), After(attempts);
      && s' == s.(payRelay := s'.payRelay, clock := s'.clock)
      && |s'.payRelay.rows| == |s.payRelay.rows| && InBroker(s'.payRelay, row)
      && s'.payRelay.workers.Keys == s.payRelay.workers.Keys + {w}
      && forall i :: 0 <= i < |s.payRelay.rows| && i != row ==> s'.payRelay.rows[i] == s.payRelay.rows[i]
  {
    var claim, publish := PayRelayStep(Relay.Claim(w, [row])), PayRelayStep(Relay.Publish(w, true, true));
    ThenDoes(before, claim);
    attempts := Then(before, claim);
    assert Relay.AllPending(After(before).payRelay.rows, [row]);
    assert After(attempts).payRelay.workers[w] == Relay.Batch([row]);
    ThenDoes(attempts, publish);
    attempts := Then(attempts, publish);
  }

  /** The order is in the laundry, Paid, and everything about it adds up. */
  ghost predicate InTheWash(s: System, status: Status, length: nat) {
    && CashTaken(s)
    && s.core.orders.Keys == {0} && s.core.processed == {1} && s.core.taxRates == [Catalog.TaxRow(0.0, 0, None)]
    && s.payRelay.workers.Keys == {0} && s.payRelay.rows[0] == Relay.NEW_ROW
    && var o := s.core.orders[0];
       && o.items == [ITEM] && o.status == status && o.paymentStatus == Paid && |o.history| == length
       && o.discount == 0 && o.pickupFee == 0 && o.deliveryFee == 0 && o.total == Some(2000)
  }

  lemma PaidAndWashing() returns (attempts: seq<Attempt>)
    ensures Ticking(0, attempts) && InTheWash(After(attempts), Washing, 4)
  {
    attempts := CashPaid();
    attempts := Published(attempts, 0, 1);
    hide Ticking, Run;
    ThenDoes(attempts, PayToCore(1));
    attempts := Then(attempts, PayToCore(1));
  }

  /** A paid order in the laundry whose total is not what was paid: finalizing it again, with a pickup fee, changed
      it. */
  lemma PaidAnotherAmount() returns (attempts: seq<Attempt>)
    ensures Ticking(0, attempts)
    ensures
      var s := After(attempts);
      && 0 in s.core.orders && s.core.orders[0].status == Washing && s.core.orders[0].paymentStatus == Paid
      && 0 in s.pay.db.payments && s.pay.db.payments[0].order == 0 && s.pay.db.payments[0].status == Paid
      && s.pay.db.payments[0].amount == 2000 && s.core.orders[0].total == Some(2500)
  {
    attempts := PaidAndWashing();
    var step := Staff(Core.OpFinalize(0, Some(500), None));
    FinalizedAt(After(attempts).core.orders[0], Some(500));
    assert Catalog.ActiveTax(After(attempts).core.taxRates) == Some(0.0);
    hide Finalize;
    ThenDoes(attempts, step);
    attempts := Then(attempts, step);
  }

  // ---------------------------------------------------------------- through to the end

  lemma MovedOn(before: seq<Attempt>, from: Status, to: Status, length: nat) returns (attempts: seq<Attempt>)
    requires Ticking(0, before) && InTheWash(After(before), from, length)
    requires IsValidTransition(from, to) && !RequiresReason(to)
    ensures Ticking(0, attempts) && InTheWash(After(attempts), to, length + 1)
  {
    var step := Staff(Core.OpChangeStatus(0, Some(to), false));
    ThenDoes(before, step);
    attempts := Then(before, step);
  }

  lemma RefundBegins(pay: Pay.State, now: int)
    requires pay.db.payments == map[0 := Pay.Payment(0, 2000, Pay.Cash, Pay.CashDesk, Paid)] && pay.waiting == {}
    ensures Pay.Perform(pay, now, Pay.OpBeginRefund(Some(0), true)) == pay.(waiting := {TICKET})
  {
    hide Pay.CheckRefund, Pay.InsertRefund, Pay.ApproveRefund;
  }

  lemma RefundIsCleared(pay: Pay.State, now: int, view: Pay.OrderView)
    requires pay.db.refunds == map[] && pay.waiting == {TICKET} && pay.cleared == multiset{} && view.status != Cancelled
    ensures Pay.Perform(pay, now, Pay.OpCheckRefund(TICKET, Some(view))) == pay.(cleared := multiset{TICKET})
  {
    hide Pay.BeginRefund, Pay.InsertRefund, Pay.ApproveRefund;
  }

  lemma RefundIsInserted(pay: Pay.State, now: int)
    requires 0 in pay.db.payments && pay.db.refunds == map[] && pay.cleared == multiset{TICKET}
    ensures
      Pay.Perform(pay, now, Pay.OpInsertRefund(TICKET, 0)) ==
      pay.(db := pay.db.(refunds := map[0 := Pay.Refund(0, 0, 2000, Pay.RefundRequested)]), cleared := multiset{})
  {
    hide Pay.BeginRefund, Pay.CheckRefund, Pay.ApproveRefund;
  }

  lemma RefundIsApproved(pay: Pay.State, now: int)
    requires pay.db.refunds == map[0 := Pay.Refund(0, 0, 2000, Pay.RefundRequested)]
    ensures
      Pay.Perform(pay, now, Pay.OpApprove(0, None)).db.outbox ==
      pay.db.outbox + [OutboxRow(PayEvent(RefundedEvent, 0, 0, 2000), now)]
  {
    hide Pay.BeginRefund, Pay.CheckRefund, Pay.InsertRefund;
  }

  lemma Refunded(before: seq<Attempt>) returns (attempts: seq<Attempt>)
    requires Ticking(0, before) && CashTaken(After(before))
    ensures Ticking(0, attempts)
    ensures
      var s, s' := After(before), After(attempts);
      && s'.core == s.core && s'.payRelay == s.payRelay.(rows := s.payRelay.rows + [Relay.NEW_ROW])
      && |s'.pay.db.outbox| == 3 && s'.pay.db.outbox[2].event == PayEvent(RefundedEvent, 0, 0, 2000)
  {
    hide Ticking, Run, Pay.Perform;
    RefundBegins(After(before).pay, Clock(before) + 1);
    attempts := PaymentMoves(before, Pay.OpBeginRefund(Some(0), true));
    RefundIsCleared(After(attempts).pay, Clock(attempts) + 1, VIEW);
    attempts := PaymentMoves(attempts, Pay.OpCheckRefund(TICKET, Some(VIEW)));
    RefundIsInserted(After(attempts).pay, Clock(attempts) + 1);
    attempts := PaymentMoves(attempts, Pay.OpInsertRefund(TICKET, 0));
    RefundIsApproved(After(attempts).pay, Clock(attempts) + 1);
    attempts := PaymentMoves(attempts, Pay.OpApprove(0, None));
  }

  lemma HandedBack() returns (attempts: seq<Attempt>)
    ensures Ticking(0, attempts) && InTheWash(After(attempts), Completed, 10)
  {
    hide InTheWash;
    attempts := PaidAndWashing();
    attempts := MovedOn(attempts, Washing, Drying, 4);
    attempts := MovedOn(attempts, Drying, Ironing, 5);
    attempts := MovedOn(attempts, Ironing, Packing, 6);
    attempts := MovedOn(attempts, Packing, Ready, 7);
    attempts := MovedOn(attempts, Ready, PickedUp, 8);
    attempts := MovedOn(attempts, PickedUp, Completed, 9);
  }

  lemma Cancels(before: seq<Attempt>) returns (attempts: seq<Attempt>)
    requires Ticking(0, before)
    requires
      var s := After(before);
      && 0 in s.core.orders && s.core.orders[0].status == Completed && |s.core.orders[0].history| == 10
      && 2 !in s.core.processed
      && |s.pay.db.outbox| == 3 && s.pay.db.outbox[2].event == PayEvent(RefundedEvent, 0, 0, 2000)
      && InBroker(s.payRelay, 2)
    ensures Ticking(0, attempts)
    ensures
      var s := After(attempts);
      && 0 in s.core.orders && s.core.orders[0].status == Cancelled && |s.core.orders[0].history| == 11
  {
    ThenDoes(before, PayToCore(2));
    attempts := Then(before, PayToCore(2));
  }

  /** The longest life of an order: ten changes of status, from Created to Completed and, by a late refund, to
      Cancelled. */
  lemma TenChangesHappen() returns (attempts: seq<Attempt>)
    ensures Ticking(0, attempts)
    ensures
      var s := After(attempts);
      && 0 in s.core.orders && s.core.orders[0].status == Cancelled && |s.core.orders[0].history| - 1 == 10
  {
    hide After, Ticking;
    attempts := HandedBack();
    attempts := Refunded(attempts);
    attempts := Published(attempts, 1, 2);
    attempts := Cancels(attempts);
  }

  // ---------------------------------------------------------------- settled after the order was cancelled

  /** Payment 0 of order 0, through the gateway. */
  ghost predicate AtGateway(pay: Pay.State, status: PayStatus) {
    && pay.db.payments == map[0 := Pay.Payment(0, 2000, Pay.Qris, Pay.Dummy, status)]
    && pay.db.refunds == map[] && pay.cleared == multiset{}
  }

  lemma PaymentIsAskedFor(pay: Pay.State, now: int)
    requires pay == PaymentInvariants.EMPTY
    ensures
      var op := Pay.OpCreatePayment(Pay.PaymentRequest(Some(0), 2000, Some(Pay.Qris)), Some(VIEW), true, 0);
      AtGateway(Pay.Perform(pay, now, op), Pending)
  {
    hide Pay.BeginRefund, Pay.CheckRefund, Pay.InsertRefund, Pay.ApproveRefund, Pay.SettleGateway;
  }

  lemma GatewaySettles(pay: Pay.State, now: int)
    requires AtGateway(pay, Pending)
    ensures AtGateway(Pay.Perform(pay, now, Pay.OpSettle(0, Some(true))), Paid)
  {
    hide Pay.BeginRefund, Pay.CheckRefund, Pay.InsertRefund, Pay.ApproveRefund, Pay.CreatePayment;
  }

  lemma PendingAtGateway() returns (attempts: seq<Attempt>)
    ensures Ticking(0, attempts) && Weighed(After(attempts).core) && AtGateway(After(attempts).pay, Pending)
  {
    hide Run, Ticking, Weighed, AtGateway, Pay.Perform, Sync;
    attempts := OrderWeighed();
    assert Weighed(After(attempts).core) && View(After(attempts).core, 0) == VIEW by {
      OrderIsViewed(After(attempts).core);
    }
    ThenDoes(attempts, AnswerPayment(0));
    attempts := Then(attempts, AnswerPayment(0));
    PaymentIsAskedFor(After(attempts).pay, Clock(attempts) + 1);
    attempts := PaymentMoves(attempts,
      Pay.OpCreatePayment(Pay.PaymentRequest(Some(0), 2000, Some(Pay.Qris)), Some(VIEW), true, 0));
  }

  lemma OrderIsViewed(core: Core.Db)
    requires Weighed(core)
    ensures 0 in core.orders && View(core, 0) == VIEW
  {
  }

  /** A gateway payment that settles after staff cancelled its order is Paid and stranded. */
  lemma SettledAfterCancelled() returns (attempts: seq<Attempt>)
    ensures Ticking(0, attempts)
    ensures Stranded(After(attempts), 0) && After(attempts).pay.db.payments[0].amount == 2000
  {
    attempts := PendingAtGateway();
    hide Core.ConsumePayment, Core.CreateOrder, Core.WeighItem, Core.FinalizeWeighing, Pay.Perform, Relay.Do,
      Reporting.Consume;
    var cancel := Staff(Core.OpChangeStatus(0, Some(Cancelled), true));
    ThenDoes(attempts, cancel);
    attempts := Then(attempts, cancel);
    assert 0 in After(attempts).core.orders && After(attempts).core.orders[0].status == Cancelled;
    hide Run, Ticking, Sync;
    GatewaySettles(After(attempts).pay, Clock(attempts) + 1);
    attempts := PaymentMoves(attempts, Pay.OpSettle(0, Some(true)));
  }
}
