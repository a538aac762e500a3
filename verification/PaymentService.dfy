/** Payment's handlers as they run. Each is proved to have exactly the effect and the reply of its transaction in
    PaymentDb and to keep Payment's invariant, so every object of the class is in a state the theorems are about. A
    handler works on local copies and assigns the fields where it commits; leaving before that is the rollback.
    CreateRefund is three methods: between them it waits for Core, and other requests run. */
module PaymentService {
  import opened Wrappers
  import opened OrderState
  import opened Events
  import Spec = PaymentDb
  import Inv = PaymentInvariants
  import Contract = PaymentContracts

  class Payments {
    var payments: map<PaymentId, Spec.Payment>
    var ledger: seq<Spec.LedgerRow>
    var refunds: map<RefundId, Spec.Refund>
    var outbox: seq<OutboxRow<PayEvent>>
    var waiting: set<Spec.Ticket>
    var cleared: multiset<Spec.Ticket>

    ghost function Tables(): Spec.Db
      reads this
    {
      Spec.Db(payments, ledger, refunds, outbox)
    }

    ghost function State(): Spec.State
      reads this
    {
      Spec.State(Tables(), waiting, cleared)
    }

    ghost predicate Valid()
      reads this
    {
      Inv.PayInv(State())
    }

    constructor ()
      ensures Valid() && State() == Inv.EMPTY
    {
      payments, ledger, refunds, outbox := map[], [], map[], [];
      waiting, cleared := {}, multiset{};
      new;
      Inv.EmptyInv();
    }

    /** The handler, statement by statement. */
    method CreatePaymentTx(now: int, req: Spec.PaymentRequest, view: Option<Spec.OrderView>, gatewayUp: bool,
                           id: PaymentId)
        returns (reply: Spec.Reply)
      modifies this`payments, this`ledger, this`outbox
      ensures Spec.Outcome(Tables(), reply) == Spec.CreatePayment(old(Tables()), now, req, view, gatewayUp, id)
    {
      hide Spec.UniquePaid;
      if req.order.None? || req.amount <= 0 || req.via.None? {
        return Spec.Validation;
      }
      if view.None? {
        return Spec.DependencyUnavailable;
      }
      var order := view.value;
      if order.status != Weighing || order.total.None? {
        return Spec.InvalidOrderState;
      }
      if order.paymentStatus == Paid {
        return Spec.AlreadyPaid;
      }
      if order.total.value != req.amount {
        return Spec.AmountMismatch;
      }

      var status, provider := Pending, Spec.CashDesk;
      if req.via.value == Spec.Cash {
        status := Paid;
      } else {
        if !gatewayUp {
          return Spec.GatewayUnavailable;
        }
        provider := Spec.Dummy;
      }

      var orderId := req.order.value;
      if id in payments {
        return Spec.AlreadyPaid;
      }
      var newPayments := payments[id := Spec.Payment(orderId, req.amount, req.via.value, provider, status)];
      var taken := !Spec.UniquePaid(newPayments);
      if taken {
        return Spec.AlreadyPaid;
      }
      var txStatus := Spec.TxPending;
      if status == Paid {
        txStatus := Spec.TxSuccess;
      }
      var newLedger := ledger + [Spec.LedgerRow(id, Spec.Charge, req.amount, txStatus)];
      var newOutbox := outbox + [OutboxRow(PayEvent(CreatedEvent, id, orderId, req.amount), now)];
      if status == Paid {
        newOutbox := newOutbox + [OutboxRow(PayEvent(PaidEvent, id, orderId, req.amount), now)];
      }
      payments, ledger, outbox := newPayments, newLedger, newOutbox;
      reply := Spec.Accepted;
    }

    /** A payment is accepted only while Core shows its order in Weighing, unpaid, at exactly this total; a cash payment
        has then been charged, the others have not. */
    method CreatePayment(now: int, req: Spec.PaymentRequest, view: Option<Spec.OrderView>, gatewayUp: bool,
                         id: PaymentId)
        returns (reply: Spec.Reply)
      requires Valid()
      modifies this
      ensures Spec.Outcome(Tables(), reply) == Spec.CreatePayment(old(Tables()), now, req, view, gatewayUp, id)
      ensures Valid() && waiting == old(waiting) && cleared == old(cleared)
      ensures Contract.TakesPayment(old(Tables()), Tables(), now, req, view, gatewayUp, id, reply)
      ensures reply == Spec.Accepted ==>
        && id in payments && view.Some? && view.value.total == Some(payments[id].amount)
        && Inv.Count(outbox, CreatedEvent, id) == 1
        && Inv.Charges(ledger, id) == Inv.Count(outbox, PaidEvent, id) == (if req.via == Some(Spec.Cash) then 1 else 0)
    {
      Contract.CreationTells(State(), now, req, view, gatewayUp, id);
      hide Inv.PayInv, Spec.CreatePayment, Contract.TakesPayment, Inv.Count, Inv.Charges;
      reply := CreatePaymentTx(now, req, view, gatewayUp, id);
    }

    method SettlePending(now: int, id: PaymentId, paid: Option<bool>) returns (reply: Spec.Reply)
      modifies this`payments, this`ledger, this`outbox
      ensures Spec.Outcome(Tables(), reply) == Spec.SettleGateway(old(Tables()), now, id, paid)
    {
      hide Spec.UniquePaid, Spec.RecordOutcome;
      if paid.None? {
        return Spec.Validation;
      }
      if id !in payments {
        return Spec.NotFound;
      }
      var payment := payments[id];
      if payment.provider != Spec.Dummy {
        return Spec.NotAGatewayPayment;
      }
      if payment.status != Pending {
        return Spec.InvalidState;
      }
      var taken := Settle(now, id, paid.value);
      if taken {
        return Spec.AlreadyPaid;
      }
      reply := Spec.Accepted;
    }

    /** A pending gateway payment is refused exactly when its order has a Paid payment; settled as paid it has been
        charged once. */
    method SimulateGatewayCallback(now: int, id: PaymentId, paid: Option<bool>) returns (reply: Spec.Reply)
      requires Valid()
      modifies this
      ensures Spec.Outcome(Tables(), reply) == Spec.SettleGateway(old(Tables()), now, id, paid)
      ensures Valid() && waiting == old(waiting) && cleared == old(cleared)
      ensures reply == Spec.Accepted ==> paid.Some? && Inv.StandsAs(Tables(), id, if paid.value then Paid else Failed)
      ensures Contract.SettlesPayment(old(Tables()), Tables(), now, id, paid, reply)
      ensures reply == Spec.AlreadyPaid ==>
        Tables() == old(Tables()) && id in payments && Inv.HasPaid(payments, payments[id].order)
    {
      Inv.SettlementTells(State(), now, id, paid);
      Inv.IndexHolds(State());
      Contract.SettleGatewaySettles(Tables(), now, id, paid);
      hide *;
      reply := SettlePending(now, id, paid);
    }

    /** The settling transaction: the update, and unless it is refused the ledger row and the event. */
    method Settle(now: int, id: PaymentId, paid: bool) returns (taken: bool)
      requires id in payments
      modifies this`payments, this`ledger, this`outbox
      ensures taken <==> !Spec.UniquePaid(Spec.RecordOutcome(old(Tables()), now, id, paid).payments)
      ensures Tables() == if taken then old(Tables()) else Spec.RecordOutcome(old(Tables()), now, id, paid)
    {
      var payment := payments[id];
      var status, txStatus, kind := Paid, Spec.TxSuccess, PaidEvent;
      if !paid {
        status, txStatus, kind := Failed, Spec.TxFailed, FailedEvent;
      }
      var newPayments := payments[id := payment.(status := status)];
      taken := !Spec.UniquePaid(newPayments);
      if taken {
        return;
      }
      payments := newPayments;
      ledger := ledger + [Spec.LedgerRow(id, Spec.Charge, payment.amount, txStatus)];
      outbox := outbox + [OutboxRow(PayEvent(kind, id, payment.order, payment.amount), now)];
    }

    // -------------------------------------------------------------- CreateRefund

    /** Up to the request to Core: what the request remembers is the order and the amount of a Paid payment. */
    method BeginRefund(payment: Option<PaymentId>, hasReason: bool) returns (begun: Spec.Begun)
      requires Valid()
      modifies this
      ensures Valid() && Tables() == old(Tables()) && cleared == old(cleared)
      ensures begun == Spec.BeginRefund(Tables(), payment, hasReason)
      ensures Contract.BeginsRefund(Tables(), payment, hasReason, begun)
      ensures waiting == if begun.Proceed? then old(waiting) + {begun.ticket} else old(waiting)
    {
      Inv.PerformKeepsInv(State(), 0, Spec.OpBeginRefund(payment, hasReason));
      Contract.BeginRefundBegins(Tables(), payment, hasReason);
      hide Inv.PayInv;
      if payment.None? || !hasReason {
        return Spec.Stop(Spec.Validation);
      }
      if payment.value !in payments {
        return Spec.Stop(Spec.NotFound);
      }
      var p := payments[payment.value];
      if p.status != Paid {
        return Spec.Stop(Spec.NotEligible);
      }
      var ticket := Spec.Ticket(payment.value, p.order, p.amount);
      waiting := waiting + {ticket};
      begun := Spec.Proceed(ticket);
    }

    /** With Core's answer, up to and including the query for a live refund. */
    method CheckRefund(t: Spec.Ticket, view: Option<Spec.OrderView>) returns (refused: Option<Spec.Reply>)
      requires Valid() && t in waiting
      modifies this
      ensures Valid() && Tables() == old(Tables()) && waiting == old(waiting)
      ensures refused == Spec.CheckRefund(Tables(), t, view)
      ensures Contract.ChecksRefund(Tables(), t, view, refused)
      ensures cleared == if refused.None? then old(cleared) + multiset{t} else old(cleared)
    {
      Inv.PerformKeepsInv(State(), 0, Spec.OpCheckRefund(t, view));
      Contract.CheckRefundChecks(Tables(), t, view);
      hide Inv.PayInv, Contract.ChecksRefund;
      if view.None? {
        return Some(Spec.DependencyUnavailable);
      }
      if view.value.status == Cancelled {
        return Some(Spec.NotEligible);
      }
      var alreadyRequested := exists r ::
        r in refunds && refunds[r].payment == t.payment &&
        refunds[r].status != Spec.RefundRejected && refunds[r].status != Spec.RefundFailed;
      if alreadyRequested {
        return Some(Spec.NotEligible);
      }
      cleared := cleared + multiset{t};
      refused := None;
    }

    /** The insert. It keeps one live refund per payment exactly when the payment has none by now. */
    method InsertRefund(t: Spec.Ticket, id: RefundId) returns (reply: Spec.Reply)
      requires Valid() && t in cleared
      modifies this
      ensures Spec.Outcome(Tables(), reply) == Spec.InsertRefund(old(Tables()), t, id)
      ensures Contract.InsertsRefund(old(Tables()), Tables(), t, id, reply)
      ensures Valid() && waiting == old(waiting) && cleared == old(cleared) - multiset{t}
      ensures reply == Spec.Accepted && Inv.OneLive(old(Tables())) ==>
        (Inv.OneLive(Tables()) <==> !Spec.HasLiveRefund(old(Tables()), t.payment))
    {
      ghost var before := Tables();
      Inv.RefundInsertKeepsInv(State(), t, id);
      if Inv.OneLive(before) && Spec.InsertRefund(before, t, id).reply == Spec.Accepted {
        Inv.InsertKeepsOneLiveIff(before, t, id);
      }
      Contract.InsertRefundInserts(before, t, id);
      hide Inv.PayInv, Inv.OneLive, Spec.HasLiveRefund, Contract.InsertsRefund;
      cleared := cleared - multiset{t};
      if id in refunds || t.payment !in payments || t.amount <= 0 {
        return Spec.Internal;
      }
      refunds := refunds[id := Spec.Refund(t.payment, t.order, t.amount, Spec.RefundRequested)];
      reply := Spec.Accepted;
    }

    /** The handler when no other request runs between its statements. */
    method CreateRefund(payment: Option<PaymentId>, hasReason: bool, view: Option<Spec.OrderView>, id: RefundId)
        returns (reply: Spec.Reply)
      requires Valid()
      modifies this
      ensures Valid() && cleared == old(cleared)
      ensures Inv.OneLive(old(Tables())) ==> Inv.OneLive(Tables())
      ensures reply == Spec.Accepted ==>
        && id !in old(refunds) && refunds.Keys == old(refunds).Keys + {id} && payments == old(payments)
        && refunds[id].payment in payments && payments[refunds[id].payment].status == Paid
        && refunds[id].amount == payments[refunds[id].payment].amount
        && !Spec.HasLiveRefund(old(Tables()), refunds[id].payment)
      ensures reply != Spec.Accepted ==> Tables() == old(Tables())
    {
      hide Inv.PayInv, Inv.OneLive, Spec.HasLiveRefund;
      var begun := BeginRefund(payment, hasReason);
      if begun.Stop? {
        return begun.reply;
      }
      var t := begun.ticket;
      var refused := CheckRefund(t, view);
      if refused.Some? {
        return refused.value;
      }
      reply := InsertRefund(t, id);
    }

    // -------------------------------------------------------------- deciding a refund

    /** Refund, payment, ledger and event change together. What has been paid back stays within the charge exactly when
        the refunds of the payment so far and this one come to at most its amount; one live refund per payment sees to
        that. */
    method ApproveRefund(now: int, id: RefundId, requested: Option<int>) returns (reply: Spec.Reply)
      requires Valid()
      modifies this
      ensures Spec.Outcome(Tables(), reply) == Spec.ApproveRefund(old(Tables()), now, id, requested)
      ensures Valid() && waiting == old(waiting) && cleared == old(cleared)
      ensures id in old(refunds) ==> old(refunds)[id].payment in old(payments)
      ensures Contract.ApprovesRefund(old(Tables()), Tables(), now, id, requested, reply)
      ensures reply == Spec.Accepted ==>
        id in refunds && Inv.StandsRefunded(Tables(), refunds[id].payment)
      ensures Inv.OneLive(Tables()) ==> Inv.NeverMoreThanCharged(Tables())
      ensures reply == Spec.Accepted && Inv.NeverMoreThanCharged(old(Tables())) ==>
        && id in old(refunds) && old(refunds)[id].payment in old(payments)
        && (Inv.NeverMoreThanCharged(Tables()) <==>
              Inv.RefundedAmount(old(ledger), old(refunds)[id].payment) +
                Inv.ApprovedAmount(old(refunds)[id], requested)
                <= old(payments)[old(refunds)[id].payment].amount)
    {
      Contract.ApprovalPromises(State(), now, id, requested);
      hide *;
      reply := ApproveRefundTx(now, id, requested);
    }

    /** The approving handler, statement by statement. */
    method ApproveRefundTx(now: int, id: RefundId, requested: Option<int>) returns (reply: Spec.Reply)
      requires id in refunds ==> refunds[id].payment in payments
      modifies this`refunds, this`payments, this`ledger, this`outbox
      ensures Spec.Outcome(Tables(), reply) == Spec.ApproveRefund(old(Tables()), now, id, requested)
    {
      hide Spec.CompleteRefund;
      if id !in refunds {
        return Spec.NotFound;
      }
      var r := refunds[id];
      if r.status != Spec.RefundRequested {
        return Spec.InvalidState;
      }
      var amount := r.amount;
      if requested.Some? {
        if requested.value <= 0 || requested.value > r.amount {
          return Spec.Validation;
        }
        amount := requested.value;
      }
      Complete(now, id, amount);
      reply := Spec.Accepted;
    }

    /** The writes of the approving transaction. */
    method Complete(now: int, id: RefundId, amount: int)
      requires id in refunds && refunds[id].payment in payments
      modifies this`refunds, this`payments, this`ledger, this`outbox
      ensures Tables() == Spec.CompleteRefund(old(Tables()), now, id, amount)
    {
      var r := refunds[id];
      refunds := refunds[id := r.(status := Spec.RefundCompleted, amount := amount)];
      payments := payments[r.payment := payments[r.payment].(status := Refunded)];
      ledger := ledger + [Spec.LedgerRow(r.payment, Spec.Refunding, amount, Spec.TxSuccess)];
      outbox := outbox + [OutboxRow(PayEvent(RefundedEvent, r.payment, r.order, amount), now)];
    }

    method RejectRefund(id: RefundId, hasReason: bool) returns (reply: Spec.Reply)
      requires Valid()
      modifies this
      ensures Spec.Outcome(Tables(), reply) == Spec.RejectRefund(old(Tables()), id, hasReason)
      ensures Contract.RejectsRefund(old(Tables()), Tables(), id, hasReason, reply)
      ensures Valid() && waiting == old(waiting) && cleared == old(cleared)
    {
      Inv.RejectingKeepsInv(State(), id, hasReason);
      Contract.RejectRefundRejects(Tables(), id, hasReason);
      hide Inv.PayInv, Contract.RejectsRefund;
      if !hasReason {
        return Spec.Validation;
      }
      var rowsAffected := 0;
      if id in refunds && refunds[id].status == Spec.RefundRequested {
        refunds := refunds[id := refunds[id].(status := Spec.RefundRejected)];
        rowsAffected := 1;
      }
      if rowsAffected == 0 {
        return Spec.InvalidState;
      }
      reply := Spec.Accepted;
    }
  }
}
