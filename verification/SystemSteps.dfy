/** The steps of the whole system are the requests of its services: whichever request a step stands for, what its
    contract says holds between the tables before the step and after it. */
module SystemSteps {
  import opened Wrappers
  import opened OrderState
  import opened Events
  import opened Catalog
  import opened Orders
  import Core = CoreDb
  import CoreInvariants
  import CoreContracts
  import Pay = PaymentDb
  import PaymentInvariants
  import PaymentContracts
  import Relay
  import Reporting
  import opened Pipeline

  /** Some reply goes with the change that this request of the staff has made. */
  ghost predicate StaffRequest(core: Core.Db, core': Core.Db, now: int, op: Core.Op) {
    exists reply :: StaffReply(core, core', now, op, reply)
  }

  ghost predicate StaffReply(core: Core.Db, core': Core.Db, now: int, op: Core.Op, reply: Core.Reply) {
    match op
    case OpCreateOrder(id, req) => CoreContracts.Creates(core, core', now, id, req, reply)
    case OpWeighItem(id, item, kg) => CoreContracts.Weighs(core, core', now, id, item, kg, reply)
    case OpFinalize(id, pf, df) => CoreContracts.Finalizes(core, core', now, id, pf, df, reply)
    case OpChangeStatus(id, to, hasReason) => CoreContracts.ChangesStatus(core, core', now, id, to, hasReason, reply)
    case OpRequest(kind, request, id) => CoreContracts.Registers(core, core', kind, request, id, reply)
    case OpUpdateRequest(kind, request, status) =>
      CoreContracts.UpdatesRequest(core, core', now, kind, request, status, reply)
    case OpCreatePricing(service, outlet, price) =>
      CoreContracts.Prices(core, core', now, service, outlet, price, reply)
    case OpSetTaxRate(rate, hasReason) => CoreContracts.SetsTaxRate(core, core', now, rate, hasReason, reply)
    case OpConsume(m) => CoreContracts.Consumes(core, core', now, m, reply)
  }

  lemma {:induction false} PerformReplies(core: Core.Db, clock: int, now: int, op: Core.Op)
    requires CoreInvariants.CoreInv(core, clock) && clock < now
    ensures StaffReply(core, Core.Perform(core, now, op).db, now, op, Core.Perform(core, now, op).reply)
  {
    assert Timeline(core.prices, clock) && TaxTimeline(core.taxRates, clock);
    hide CoreInvariants.CoreInv, TaxTimeline, Core.CreateOrder, Core.WeighItem, Core.FinalizeWeighing,
      Core.ChangeStatus,
      Core.RequestFulfillment, Core.UpdateFulfillment, Core.CreatePricing, Core.SetTaxRate, Core.ConsumePayment;
    hide CoreContracts.Creates, CoreContracts.Weighs, CoreContracts.Finalizes, CoreContracts.ChangesStatus,
      CoreContracts.Registers, CoreContracts.UpdatesRequest, CoreContracts.Prices, CoreContracts.SetsTaxRate,
      CoreContracts.Consumes;
    match op
    case OpCreateOrder(id, req) => CoreContracts.CreateOrderCreates(core, clock, now, id, req);
    case OpWeighItem(id, item, kg) => CoreContracts.WeighItemWeighs(core, now, id, item, kg);
    case OpFinalize(id, pf, df) => CoreContracts.FinalizeFinalizes(core, clock, now, id, pf, df);
    case OpChangeStatus(id, to, hasReason) => CoreContracts.ChangeStatusChanges(core, now, id, to, hasReason);
    case OpRequest(kind, request, id) => CoreContracts.RequestRegisters(core, kind, request, id);
    case OpUpdateRequest(kind, request, status) => CoreContracts.UpdateUpdates(core, now, kind, request, status);
    case OpCreatePricing(service, outlet, price) =>
      CoreContracts.CreatePricingPrices(core, clock, now, service, outlet, price);
    case OpSetTaxRate(rate, hasReason) => CoreContracts.SetTaxRateSets(core, clock, now, rate, hasReason);
    case OpConsume(m) => CoreContracts.ConsumePaymentConsumes(core, now, m);
  }

  /** The same for Payment. Requests under way: one that begins waits with its ticket, one that is cleared may insert,
      and an insert or an abandoned request is cleared no more. */
  ghost predicate PaymentReply(pay: Pay.State, pay': Pay.State, now: int, op: Pay.Op) {
    match op
    case OpCreatePayment(req, view, gatewayUp, id) =>
      && pay' == pay.(db := pay'.db)
      && exists reply :: PaymentContracts.TakesPayment(pay.db, pay'.db, now, req, view, gatewayUp, id, reply)
    case OpSettle(id, paid) =>
      && pay' == pay.(db := pay'.db)
      && exists reply :: PaymentContracts.SettlesPayment(pay.db, pay'.db, now, id, paid, reply)
    case OpBeginRefund(payment, hasReason) =>
      exists begun ::
        && PaymentContracts.BeginsRefund(pay.db, payment, hasReason, begun)
        && pay' == pay.(waiting := pay.waiting + if begun.Proceed? then {begun.ticket} else {})
    case OpCheckRefund(t, view) =>
      exists refused ::
        && PaymentContracts.ChecksRefund(pay.db, t, view, refused)
        && pay' == pay.(cleared := pay.cleared + if t in pay.waiting && refused.None? then multiset{t} else multiset{})
    case OpInsertRefund(t, refund) =>
      if t !in pay.cleared then pay' == pay
      else
        && pay' == pay.(db := pay'.db, cleared := pay.cleared - multiset{t})
        && exists reply :: PaymentContracts.InsertsRefund(pay.db, pay'.db, t, refund, reply)
    case OpAbandonRefund(t) => pay' == pay.(cleared := pay.cleared - multiset{t})
    case OpApprove(refund, amount) =>
      && pay' == pay.(db := pay'.db) && (refund in pay.db.refunds ==> pay.db.refunds[refund].payment in pay.db.payments)
      && exists reply :: PaymentContracts.ApprovesRefund(pay.db, pay'.db, now, refund, amount, reply)
    case OpReject(refund, hasReason) =>
      && pay' == pay.(db := pay'.db)
      && exists reply :: PaymentContracts.RejectsRefund(pay.db, pay'.db, refund, hasReason, reply)
  }

  lemma {:induction false} DecisionReplies(pay: Pay.State, now: int, op: Pay.Op)
    requires PaymentInvariants.PayInv(pay)
    requires op.OpCreatePayment? || op.OpSettle? || op.OpApprove? || op.OpReject?
    ensures PaymentReply(pay, Pay.Perform(pay, now, op), now, op)
  {
    PaymentInvariants.IndexHolds(pay);
    hide PaymentInvariants.PayInv, Pay.CreatePayment, Pay.SettleGateway, Pay.ApproveRefund, Pay.RejectRefund,
      PaymentContracts.TakesPayment, PaymentContracts.SettlesPayment, PaymentContracts.ApprovesRefund,
      PaymentContracts.RejectsRefund;
    match op
    case OpCreatePayment(req, view, gatewayUp, id) =>
      PaymentContracts.CreatePaymentTakes(pay.db, now, req, view, gatewayUp, id);
    case OpSettle(id, paid) => PaymentContracts.SettleGatewaySettles(pay.db, now, id, paid);
    case OpApprove(refund, amount) =>
      PaymentInvariants.RefundKnowsPayment(pay, refund);
      PaymentContracts.ApproveRefundApproves(pay.db, now, refund, amount);
    case OpReject(refund, hasReason) => PaymentContracts.RejectRefundRejects(pay.db, refund, hasReason);
  }

  lemma {:induction false} RequestReplies(pay: Pay.State, now: int, op: Pay.Op)
    requires op.OpBeginRefund? || op.OpCheckRefund? || op.OpInsertRefund? || op.OpAbandonRefund?
    ensures PaymentReply(pay, Pay.Perform(pay, now, op), now, op)
  {
    hide Pay.BeginRefund, Pay.CheckRefund, Pay.InsertRefund, PaymentContracts.BeginsRefund,
      PaymentContracts.ChecksRefund, PaymentContracts.InsertsRefund;
    match op
    case OpBeginRefund(payment, hasReason) =>
      PaymentContracts.BeginRefundBegins(pay.db, payment, hasReason);
    case OpCheckRefund(t, view) =>
      PaymentContracts.CheckRefundChecks(pay.db, t, view);
    case OpInsertRefund(t, refund) =>
      PaymentContracts.InsertRefundInserts(pay.db, t, refund);
    case OpAbandonRefund(t) =>
  }

  /** In every lawful state, a step of the staff changes Core as the contract of its request says, a delivery from
      Payment as that of the consumer, a step of Payment changes Payment as that of its request, and no other step
      changes either. */
  lemma {:induction false} StepsMeetTheContracts(s: System, now: int, step: Step)
    requires SystemInv(s) && s.clock < now
    ensures
      var s' := Do(s, now, step);
      match step
      case Staff(op) => s'.pay == s.pay && if op.OpConsume? then s'.core == s.core
                                           else StaffRequest(s.core, s'.core, now, op)
      case PayToCore(row) => s'.pay == s.pay && if !InBroker(s.payRelay, row) || row >= |s.pay.db.outbox|
                                                then s'.core == s.core
                                                else StaffRequest(s.core, s'.core, now,
                                                                  Core.OpConsume(PayMessage(s.pay, row)))
      case PaymentStep(op) => s'.core == s.core && if AnswerKnown(s.views, op) then PaymentReply(s.pay, s'.pay, now, op)
                                                   else s'.pay == s.pay
      case _ => s'.core == s.core && s'.pay == s.pay
  {
    assert CoreInvariants.CoreInv(s.core, s.clock) && PaymentInvariants.PayInv(s.pay);
    hide SystemInv, CoreInvariants.CoreInv, PaymentInvariants.PayInv, Core.Perform, Core.ConsumePayment, Pay.Perform,
      Relay.Do, Reporting.Consume, AnswerKnown, InBroker, Sync, PayMessage, StaffReply, PaymentReply;
    match step
    case Staff(op) => PerformReplies(s.core, s.clock, now, op);
    case PayToCore(row) =>
      if row < |s.pay.db.outbox| {
        PerformReplies(s.core, s.clock, now, Core.OpConsume(PayMessage(s.pay, row)));
        ConsumeIsPerform(s.core, now, PayMessage(s.pay, row));
      }
    case PaymentStep(op) =>
      if op.OpCreatePayment? || op.OpSettle? || op.OpApprove? || op.OpReject? {
        DecisionReplies(s.pay, now, op);
      } else {
        RequestReplies(s.pay, now, op);
      }
    case _ =>
  }
}
