/** What each of Payment's requests does, said of the rows before and after it: which reply each request gets, and when
    it is accepted which rows have changed and to what. No transaction of PaymentDb is named. */
module PaymentContracts {
  import opened Wrappers
  import opened OrderState
  import opened Events
  import opened PaymentDb
  import opened PaymentInvariants

  // ---------------------------------------------------------------- POST /payments

  predicate ValidFields(req: PaymentRequest) {
    req.order.Some? && req.amount > 0 && req.via.Some?
  }

  /** The order is on the scale and has a total. */
  predicate AwaitsPayment(view: Option<OrderView>) {
    view.Some? && view.value.status == Weighing && view.value.total.Some?
  }

  predicate CanCharge(req: PaymentRequest, gatewayUp: bool)
    requires req.via.Some?
  {
    req.via.value == Cash || gatewayUp
  }

  /** Nothing in the payments table stands against the new row: its id is new, and in cash its order has no Paid
      payment. */
  ghost predicate Insertable(payments: map<PaymentId, Payment>, req: PaymentRequest, id: PaymentId)
    requires ValidFields(req)
  {
    id !in payments && (req.via.value == Cash ==> !HasPaid(payments, req.order.value))
  }

  /** Exactly the requests that are accepted. */
  ghost predicate MayTake(db: Db, req: PaymentRequest, view: Option<OrderView>, gatewayUp: bool, id: PaymentId) {
    && ValidFields(req) && AwaitsPayment(view)
    && view.value.paymentStatus != Paid && view.value.total == Some(req.amount)
    && CanCharge(req, gatewayUp) && Insertable(db.payments, req, id)
  }

  /** The payment as asked for: Paid with a successful charge if it is cash, else pending at the gateway. */
  ghost predicate Takes(db: Db, db': Db, now: int, req: PaymentRequest, id: PaymentId)
    requires ValidFields(req)
  {
    var order, via := req.order.value, req.via.value;
    var created, paid := OutboxRow(PayEvent(CreatedEvent, id, order, req.amount), now),
                         OutboxRow(PayEvent(PaidEvent, id, order, req.amount), now);
    && db'.refunds == db.refunds
    && if via == Cash then
         && db'.payments == db.payments[id := Payment(order, req.amount, Cash, CashDesk, Paid)]
         && db'.ledger == db.ledger + [LedgerRow(id, Charge, req.amount, TxSuccess)]
         && db'.outbox == db.outbox + [created, paid]
       else
         && db'.payments == db.payments[id := Payment(order, req.amount, via, Dummy, Pending)]
         && db'.ledger == db.ledger + [LedgerRow(id, Charge, req.amount, TxPending)]
         && db'.outbox == db.outbox + [created]
  }

  ghost predicate TakesPayment(db: Db, db': Db, now: int, req: PaymentRequest, view: Option<OrderView>, gatewayUp: bool,
                               id: PaymentId, reply: Reply)
  {
    var known := ValidFields(req) && AwaitsPayment(view);
    var due := known && view.value.paymentStatus != Paid && view.value.total == Some(req.amount);
    && reply in {Accepted, Validation, DependencyUnavailable, InvalidOrderState, AlreadyPaid, AmountMismatch,
                 GatewayUnavailable}
    && (reply == Validation <==> !ValidFields(req))
    && (reply == DependencyUnavailable <==> ValidFields(req) && view.None?)
    && (reply == InvalidOrderState <==> ValidFields(req) && view.Some? && !AwaitsPayment(view))
    && (reply == AmountMismatch <==> known && view.value.paymentStatus != Paid && view.value.total != Some(req.amount))
    && (reply == GatewayUnavailable <==> due && !CanCharge(req, gatewayUp))
    && (reply == AlreadyPaid <==>
          || (known && view.value.paymentStatus == Paid)
          || (due && CanCharge(req, gatewayUp) && !Insertable(db.payments, req, id)))
    && (reply == Accepted <==> MayTake(db, req, view, gatewayUp, id))
    && if reply == Accepted then Takes(db, db', now, req, id) else db' == db
  }

  lemma {:induction false} CreatePaymentTakes(db: Db, now: int, req: PaymentRequest, view: Option<OrderView>,
                                              gatewayUp: bool, id: PaymentId)
    requires UniquePaid(db.payments)
    ensures
      var o := CreatePayment(db, now, req, view, gatewayUp, id);
      TakesPayment(db, o.db, now, req, view, gatewayUp, id, o.reply)
  {
    if ValidFields(req) && id !in db.payments {
      var cash := req.via.value == Cash;
      IndexAfter(db.payments, id, Payment(req.order.value, req.amount, req.via.value, if cash then CashDesk else Dummy,
                                          if cash then Paid else Pending));
    }
    hide UniquePaid, HasPaid;
  }

  /** And what an accepted payment leaves behind: a lawful state, announced once, and charged once exactly if it is
      cash. */
  lemma {:induction false} CreationTells(s: State, now: int, req: PaymentRequest, view: Option<OrderView>,
                                         gatewayUp: bool, id: PaymentId)
    requires PayInv(s)
    ensures
      var o := CreatePayment(s.db, now, req, view, gatewayUp, id);
      && PayInv(s.(db := o.db)) && TakesPayment(s.db, o.db, now, req, view, gatewayUp, id, o.reply)
      && (o.reply == Accepted ==>
            && id in o.db.payments && view.Some? && view.value.total == Some(o.db.payments[id].amount)
            && Count(o.db.outbox, CreatedEvent, id) == 1
            && Charges(o.db.ledger, id) == Count(o.db.outbox, PaidEvent, id) ==
               (if req.via == Some(Cash) then 1 else 0))
  {
    IndexHolds(s);
    CreatePaymentTakes(s.db, now, req, view, gatewayUp, id);
    CreatingKeepsInv(s, now, req, view, gatewayUp, id);
    hide PayInv, CreatePayment, TakesPayment, Count, Charges;
    var o := CreatePayment(s.db, now, req, view, gatewayUp, id);
    if o.reply == Accepted {
      AcceptedIsTaken(s.db, o.db, now, req, view, gatewayUp, id);
      RowsTellStatus(s.(db := o.db), id);
    }
  }

  lemma AcceptedIsTaken(db: Db, db': Db, now: int, req: PaymentRequest, view: Option<OrderView>, gatewayUp: bool,
                        id: PaymentId)
    requires TakesPayment(db, db', now, req, view, gatewayUp, id, Accepted)
    ensures id in db'.payments && view.Some? && view.value.total == Some(db'.payments[id].amount)
    ensures Collected(db'.payments[id].status) <==> req.via == Some(Cash)
  {
    hide HasPaid;
  }

  // ---------------------------------------------------------------- the gateway's outcome

  ghost predicate Records(db: Db, db': Db, now: int, id: PaymentId, paid: bool)
    requires id in db.payments
  {
    var p := db.payments[id];
    && db'.refunds == db.refunds
    && if paid then
         && db'.payments == db.payments[id := p.(status := Paid)]
         && db'.ledger == db.ledger + [LedgerRow(id, Charge, p.amount, TxSuccess)]
         && db'.outbox == db.outbox + [OutboxRow(PayEvent(PaidEvent, id, p.order, p.amount), now)]
       else
         && db'.payments == db.payments[id := p.(status := Failed)]
         && db'.ledger == db.ledger + [LedgerRow(id, Charge, p.amount, TxFailed)]
         && db'.outbox == db.outbox + [OutboxRow(PayEvent(FailedEvent, id, p.order, p.amount), now)]
  }

  ghost predicate SettlesPayment(db: Db, db': Db, now: int, id: PaymentId, paid: Option<bool>, reply: Reply) {
    var known := paid.Some? && id in db.payments;
    var pending := known && db.payments[id].provider == Dummy && db.payments[id].status == Pending;
    var taken := pending && paid.value && HasPaid(db.payments, db.payments[id].order);
    && reply in {Accepted, Validation, NotFound, NotAGatewayPayment, InvalidState, AlreadyPaid}
    && (reply == Validation <==> paid.None?)
    && (reply == NotFound <==> paid.Some? && id !in db.payments)
    && (reply == NotAGatewayPayment <==> known && db.payments[id].provider != Dummy)
    && (reply == InvalidState <==> known && db.payments[id].provider == Dummy && db.payments[id].status != Pending)
    && (reply == AlreadyPaid <==> taken)
    && (reply == Accepted <==> pending && !taken)
    && if reply == Accepted then Records(db, db', now, id, paid.value) else db' == db
  }

  lemma {:induction false} SettleGatewaySettles(db: Db, now: int, id: PaymentId, paid: Option<bool>)
    requires UniquePaid(db.payments)
    ensures var o := SettleGateway(db, now, id, paid); SettlesPayment(db, o.db, now, id, paid, o.reply)
  {
    if id in db.payments && paid.Some? && db.payments[id].status == Pending {
      IndexAfter(db.payments, id, db.payments[id].(status := if paid.value then Paid else Failed));
    }
    hide UniquePaid, HasPaid;
  }

  // ---------------------------------------------------------------- refunds

  /** A request goes on exactly for a Paid payment, with that payment's order and amount. */
  predicate BeginsRefund(db: Db, payment: Option<PaymentId>, hasReason: bool, begun: Begun) {
    var fields := payment.Some? && hasReason;
    && (begun.Proceed? <==> fields && payment.value in db.payments && db.payments[payment.value].status == Paid)
    && (begun.Proceed? ==>
          && begun.ticket.payment == payment.value && begun.ticket.order == db.payments[payment.value].order
          && begun.ticket.amount == db.payments[payment.value].amount)
    && (begun == Stop(Validation) <==> !fields)
    && (begun == Stop(NotFound) <==> fields && payment.value !in db.payments)
    && (begun == Stop(NotEligible) <==>
          fields && payment.value in db.payments && db.payments[payment.value].status != Paid)
  }

  lemma BeginRefundBegins(db: Db, payment: Option<PaymentId>, hasReason: bool)
    ensures BeginsRefund(db, payment, hasReason, BeginRefund(db, payment, hasReason))
  {
  }

  /** A request is cleared exactly when Core's answer is there and is not that the order is cancelled, and every refund
      of the payment so far was rejected or failed. */
  ghost predicate ChecksRefund(db: Db, t: Ticket, view: Option<OrderView>, refused: Option<Reply>) {
    && (refused.None? <==>
          && view.Some? && view.value.status != Cancelled
          && forall r :: r in db.refunds && db.refunds[r].payment == t.payment ==>
               db.refunds[r].status in {RefundRejected, RefundFailed})
    && (refused == Some(DependencyUnavailable) <==> view.None?)
    && (refused.Some? ==> refused.value in {DependencyUnavailable, NotEligible})
  }

  lemma CheckRefundChecks(db: Db, t: Ticket, view: Option<OrderView>)
    ensures ChecksRefund(db, t, view, CheckRefund(db, t, view))
  {
    if HasLiveRefund(db, t.payment) {
      var r :| r in db.refunds && db.refunds[r].payment == t.payment && Live(db.refunds[r]);
      assert db.refunds[r].status !in {RefundRejected, RefundFailed};
    }
  }

  ghost predicate InsertsRefund(db: Db, db': Db, t: Ticket, id: RefundId, reply: Reply) {
    && reply in {Accepted, Internal}
    && (reply == Accepted <==> id !in db.refunds && t.payment in db.payments && t.amount > 0)
    && if reply != Accepted then db' == db
       else
         && db' == db.(refunds := db'.refunds) && id in db'.refunds
         && db'.refunds == db.refunds[id := db'.refunds[id]]
         && db'.refunds[id].payment == t.payment && db'.refunds[id].order == t.order
         && db'.refunds[id].amount == t.amount && db'.refunds[id].status == RefundRequested
  }

  lemma InsertRefundInserts(db: Db, t: Ticket, id: RefundId)
    ensures var o := InsertRefund(db, t, id); InsertsRefund(db, o.db, t, id, o.reply)
  {
  }

  /** The refund is Completed with the amount asked for, or its own; the payment is Refunded, and the amount is in the
      ledger and in the event. */
  ghost predicate Completes(db: Db, db': Db, now: int, id: RefundId, requested: Option<int>)
    requires id in db.refunds && db.refunds[id].payment in db.payments
  {
    var r, p := db.refunds[id], db.refunds[id].payment;
    var amount := if requested.Some? then requested.value else r.amount;
    && db'.refunds == db.refunds[id := Refund(p, r.order, amount, RefundCompleted)]
    && db'.payments == db.payments[p := db.payments[p].(status := Refunded)]
    && db'.ledger == db.ledger + [LedgerRow(p, Refunding, amount, TxSuccess)]
    && db'.outbox == db.outbox + [OutboxRow(PayEvent(RefundedEvent, p, r.order, amount), now)]
  }

  ghost predicate ApprovesRefund(db: Db, db': Db, now: int, id: RefundId, requested: Option<int>, reply: Reply)
    requires id in db.refunds ==> db.refunds[id].payment in db.payments
  {
    var requestedNow := id in db.refunds && db.refunds[id].status == RefundRequested;
    var inRange := requestedNow && (requested.Some? ==> 0 < requested.value <= db.refunds[id].amount);
    && reply in {Accepted, NotFound, InvalidState, Validation}
    && (reply == NotFound <==> id !in db.refunds)
    && (reply == InvalidState <==> id in db.refunds && !requestedNow)
    && (reply == Validation <==> requestedNow && !inRange)
    && (reply == Accepted <==> inRange)
    && if reply == Accepted then Completes(db, db', now, id, requested) else db' == db
  }

  lemma ApproveRefundApproves(db: Db, now: int, id: RefundId, requested: Option<int>)
    requires id in db.refunds ==> db.refunds[id].payment in db.payments
    ensures
      var o := ApproveRefund(db, now, id, requested);
      ApprovesRefund(db, o.db, now, id, requested, o.reply)
  {
  }

  /** What an approval leaves behind: a lawful state, its rows, and the money paid back within the charge exactly when
      the payment's refunds so far and this one come to at most its amount. */
  lemma {:induction false} ApprovalPromises(s: State, now: int, id: RefundId, requested: Option<int>)
    requires PayInv(s)
    ensures id in s.db.refunds ==> s.db.refunds[id].payment in s.db.payments
    ensures
      var o := ApproveRefund(s.db, now, id, requested);
      && PayInv(s.(db := o.db)) && ApprovesRefund(s.db, o.db, now, id, requested, o.reply)
      && (o.reply == Accepted ==> id in s.db.refunds && id in o.db.refunds)
      && (o.reply == Accepted ==> StandsRefunded(o.db, o.db.refunds[id].payment))
      && (OneLive(o.db) ==> NeverMoreThanCharged(o.db))
      && (o.reply == Accepted && NeverMoreThanCharged(s.db) ==>
            (NeverMoreThanCharged(o.db) <==>
               RefundedAmount(s.db.ledger, s.db.refunds[id].payment) + ApprovedAmount(s.db.refunds[id], requested)
                 <= s.db.payments[s.db.refunds[id].payment].amount))
  {
    RefundKnowsPayment(s, id);
    ApproveRefundApproves(s.db, now, id, requested);
    ApprovalTells(s, now, id, requested);
    hide PayInv, ApproveRefund, Completes, StandsRefunded, NeverMoreThanCharged, OneLive, RefundedAmount,
      ApprovedAmount;
    if ApproveRefund(s.db, now, id, requested).reply == Accepted && NeverMoreThanCharged(s.db) {
      ApprovalKeepsWithinIff(s, now, id, requested);
    }
  }

  /** A requested refund is Rejected, so that another one can be asked for; nothing else changes. */
  ghost predicate RejectsRefund(db: Db, db': Db, id: RefundId, hasReason: bool, reply: Reply) {
    var requested := id in db.refunds && db.refunds[id].status == RefundRequested;
    && reply in {Accepted, Validation, InvalidState}
    && (reply == Validation <==> !hasReason)
    && (reply == Accepted <==> hasReason && requested)
    && if reply != Accepted then db' == db
       else db' == db.(refunds := db.refunds[id := db.refunds[id].(status := RefundRejected)])
  }

  lemma RejectRefundRejects(db: Db, id: RefundId, hasReason: bool)
    ensures var o := RejectRefund(db, id, hasReason); RejectsRefund(db, o.db, id, hasReason, o.reply)
  {
  }
}
