/** Payments, their ledger, their refunds and their events agree in every reachable state of Payment. */
module PaymentInvariants {
  import opened Wrappers
  import opened OrderState
  import opened Events
  import opened PaymentDb

  // ---------------------------------------------------------------- counting rows

  function Count(outbox: seq<OutboxRow<PayEvent>>, k: PayKind, p: PaymentId): nat {
    if outbox == [] then 0
    else
      var e := outbox[|outbox| - 1].event;
      Count(outbox[..|outbox| - 1], k, p) + if e.kind == k && e.payment == p then 1 else 0
  }

  /** The number of successful charges of a payment. */
  function Charges(ledger: seq<LedgerRow>, p: PaymentId): nat {
    if ledger == [] then 0
    else
      var row := ledger[|ledger| - 1];
      Charges(ledger[..|ledger| - 1], p) +
        if row.payment == p && row.kind == Charge && row.status == TxSuccess then 1 else 0
  }

  function RefundedAmount(ledger: seq<LedgerRow>, p: PaymentId): int {
    if ledger == [] then 0
    else
      var row := ledger[|ledger| - 1];
      RefundedAmount(ledger[..|ledger| - 1], p) + if row.payment == p && row.kind == Refunding then row.amount else 0
  }

  lemma CountAfter(outbox: seq<OutboxRow<PayEvent>>, row: OutboxRow<PayEvent>)
    ensures forall k, p :: Count(outbox + [row], k, p) ==
              Count(outbox, k, p) + if row.event.kind == k && row.event.payment == p then 1 else 0
  {
    assert (outbox + [row])[..|outbox|] == outbox;
  }

  lemma LedgerAfter(ledger: seq<LedgerRow>, row: LedgerRow)
    ensures forall p :: Charges(ledger + [row], p) ==
              Charges(ledger, p) + if row.payment == p && row.kind == Charge && row.status == TxSuccess then 1 else 0
    ensures forall p :: RefundedAmount(ledger + [row], p) ==
              RefundedAmount(ledger, p) + if row.payment == p && row.kind == Refunding then row.amount else 0
  {
    assert (ledger + [row])[..|ledger|] == ledger;
  }

  /** The completed refunds of a payment. */
  function Completed(refunds: map<RefundId, Refund>, p: PaymentId): set<RefundId> {
    set r | r in refunds && refunds[r].payment == p && refunds[r].status == RefundCompleted
  }

  // ---------------------------------------------------------------- invariant

  predicate Collected(s: PayStatus) {
    s == Paid || s == Refunded
  }

  /** An event of this kind has been emitted for a payment with this status. */
  predicate Announced(k: PayKind, s: PayStatus) {
    match k
    case CreatedEvent => true
    case PaidEvent => Collected(s)
    case FailedEvent => s == Failed
    case RefundedEvent => s == Refunded
  }

  /** How many events of a kind the tables call for: one refunded event for each completed refund, else at most one. */
  function Due(payments: map<PaymentId, Payment>, refunds: map<RefundId, Refund>, k: PayKind, p: PaymentId): nat {
    if k == RefundedEvent then |Completed(refunds, p)|
    else if p in payments && Announced(k, payments[p].status) then 1 else 0
  }

  ghost predicate PaymentsInv(payments: map<PaymentId, Payment>) {
    && (forall p :: p in payments ==> payments[p].amount > 0 && payments[p].status != Unpaid)
    && UniquePaid(payments)
  }

  ghost predicate EventsInv(payments: map<PaymentId, Payment>, refunds: map<RefundId, Refund>,
                            outbox: seq<OutboxRow<PayEvent>>)
  {
    && (forall k, p :: Count(outbox, k, p) == Due(payments, refunds, k, p))
    && (forall i :: 0 <= i < |outbox| ==>
          var e := outbox[i].event;
          && e.payment in payments && e.order == payments[e.payment].order
          && (if e.kind == RefundedEvent then e.amount > 0 else e.amount == payments[e.payment].amount))
  }

  /** What was paid back is at most this amount for each completed refund. */
  ghost predicate Within(ledger: seq<LedgerRow>, refunds: map<RefundId, Refund>, p: PaymentId, amount: int) {
    RefundedAmount(ledger, p) <= |Completed(refunds, p)| * amount
  }

  ghost predicate LedgerInv(payments: map<PaymentId, Payment>, ledger: seq<LedgerRow>, refunds: map<RefundId, Refund>) {
    && (forall p :: Charges(ledger, p) == if p in payments && Collected(payments[p].status) then 1 else 0)
    && (forall i :: 0 <= i < |ledger| ==>
          var row := ledger[i];
          row.payment in payments && (row.kind == Charge ==> row.amount == payments[row.payment].amount))
    && (forall p :: p in payments ==> Within(ledger, refunds, p, payments[p].amount))
  }

  ghost predicate RefundsInv(db: Db) {
    && (forall r :: r in db.refunds ==> RefundInv(db, db.refunds[r]))
    && (forall p :: p in db.payments && db.payments[p].status == Refunded ==> Completed(db.refunds, p) != {})
  }

  ghost predicate RefundInv(db: Db, r: Refund) {
    && r.payment in db.payments
    && var p := db.payments[r.payment];
       && r.order == p.order
       && 0 < r.amount <= p.amount
       && r.status in {RefundRequested, RefundCompleted, RefundRejected}
       && Collected(p.status)
       && (r.status == RefundCompleted ==> p.status == Refunded)
  }

  /** A request under way has seen its payment Paid; since then it can only have been refunded. */
  ghost predicate TicketInv(db: Db, t: Ticket) {
    && t.payment in db.payments
    && t.order == db.payments[t.payment].order && t.amount == db.payments[t.payment].amount
    && Collected(db.payments[t.payment].status)
  }

  ghost predicate TicketsInv(s: State) {
    forall t :: t in s.waiting || t in s.cleared ==> TicketInv(s.db, t)
  }

  ghost predicate PayInv(s: State) {
    && PaymentsInv(s.db.payments)
    && EventsInv(s.db.payments, s.db.refunds, s.db.outbox)
    && LedgerInv(s.db.payments, s.db.ledger, s.db.refunds)
    && RefundsInv(s.db)
    && TicketsInv(s)
  }

  // ---------------------------------------------------------------- every step keeps it

  predicate SameDebt(a: Payment, b: Payment) {
    a.order == b.order && a.amount == b.amount
  }

  /** One more event, matching one change in the tables, keeps the events in step. */
  lemma {:induction false} EventKeepsInv(payments: map<PaymentId, Payment>, refunds: map<RefundId, Refund>,
                                         payments': map<PaymentId, Payment>, refunds': map<RefundId, Refund>,
                                         outbox: seq<OutboxRow<PayEvent>>, row: OutboxRow<PayEvent>)
    requires EventsInv(payments, refunds, outbox)
    requires forall p :: p in payments ==> p in payments' && SameDebt(payments[p], payments'[p])
    requires row.event.payment in payments' && row.event.order == payments'[row.event.payment].order
    requires if row.event.kind == RefundedEvent then row.event.amount > 0
             else row.event.amount == payments'[row.event.payment].amount
    requires forall k, p :: Due(payments', refunds', k, p) ==
               Due(payments, refunds, k, p) + if row.event.kind == k && row.event.payment == p then 1 else 0
    ensures EventsInv(payments', refunds', outbox + [row])
  {
    hide Due;
    CountAfter(outbox, row);
  }

  lemma OpeningIsDue(before: map<PaymentId, Payment>, refunds: map<RefundId, Refund>, id: PaymentId, row: Payment)
    requires id !in before && row.status == Pending
    ensures forall k, p :: Due(before[id := row], refunds, k, p) ==
              Due(before, refunds, k, p) + if k == CreatedEvent && p == id then 1 else 0
  {
  }

  /** A payment that settles owes exactly the event that announces it. */
  lemma SettlingIsDue(before: map<PaymentId, Payment>, refunds: map<RefundId, Refund>, id: PaymentId, row: Payment,
                      kind: PayKind)
    requires id in before && before[id].status == Pending
    requires (row.status, kind) in {(Paid, PaidEvent), (Failed, FailedEvent)}
    ensures forall k, p :: Due(before[id := row], refunds, k, p) ==
              Due(before, refunds, k, p) + if k == kind && p == id then 1 else 0
  {
  }

  /** A refund that completes owes one refunded event; its payment has been collected before and stays so. */
  lemma CompletingIsDue(before: map<PaymentId, Payment>, refunds: map<RefundId, Refund>, id: RefundId, r: Refund,
                        row: Payment)
    requires id in refunds && refunds[id].status == RefundRequested && refunds[id].payment == r.payment
    requires r.status == RefundCompleted && r.payment in before && Collected(before[r.payment].status)
      && Collected(row.status)
    ensures forall k, p :: Due(before[r.payment := row], refunds[id := r], k, p) ==
              Due(before, refunds, k, p) + if k == RefundedEvent && p == r.payment then 1 else 0
  {
    CompletedAfter(refunds, id, r);
  }

  /** What replacing or adding one refund does to the completed ones. */
  lemma CompletedAfter(refunds: map<RefundId, Refund>, id: RefundId, r: Refund)
    requires id in refunds ==> refunds[id].status != RefundCompleted && refunds[id].payment == r.payment
    ensures forall p :: Completed(refunds[id := r], p) ==
              Completed(refunds, p) + if p == r.payment && r.status == RefundCompleted then {id} else {}
    ensures forall p :: id !in Completed(refunds, p)
  {
  }

  /** Payments may come and settle without touching refunds or requests under way. */
  lemma {:induction false} RefundsUntouched(s: State, s': State)
    requires RefundsInv(s.db) && TicketsInv(s)
    requires s'.waiting == s.waiting && s'.cleared == s.cleared && s'.db.refunds == s.db.refunds
    requires forall p :: p in s.db.payments ==> p in s'.db.payments && SameDebt(s.db.payments[p], s'.db.payments[p])
    requires forall p :: p in s.db.payments && Collected(s.db.payments[p].status) ==>
      s'.db.payments[p].status == s.db.payments[p].status
    requires forall p :: p in s'.db.payments && s'.db.payments[p].status == Refunded ==>
      p in s.db.payments && s.db.payments[p].status == Refunded
    ensures RefundsInv(s'.db) && TicketsInv(s')
  {
    hide Completed;
    forall r | r in s'.db.refunds ensures RefundInv(s'.db, s'.db.refunds[r]) {
      assert RefundInv(s.db, s.db.refunds[r]);
    }
    forall t | t in s'.waiting || t in s'.cleared ensures TicketInv(s'.db, t) {
      assert TicketInv(s.db, t);
    }
  }

  /** A charge row that succeeded exactly when its payment has just become Paid. */
  lemma {:induction false} ChargeKeepsLedger(db: Db, payments: map<PaymentId, Payment>, row: LedgerRow)
    requires LedgerInv(db.payments, db.ledger, db.refunds) && RefundsInv(db)
    requires row.kind == Charge && row.payment in payments && row.amount == payments[row.payment].amount > 0
    requires payments[row.payment].status == Paid <==> row.status == TxSuccess
    requires payments[row.payment].status != Refunded
    requires row.payment in db.payments ==>
      db.payments[row.payment].status == Pending && SameDebt(db.payments[row.payment], payments[row.payment])
    requires payments == db.payments[row.payment := payments[row.payment]]
    ensures LedgerInv(payments, db.ledger + [row], db.refunds)
  {
    hide RefundsInv, Within, Completed;
    LedgerAfter(db.ledger, row);
    forall p | p in payments ensures Within(db.ledger + [row], db.refunds, p, payments[p].amount) {
      if p in db.payments {
        WithinAgain(db.ledger, db.refunds, db.ledger + [row], db.refunds, p, payments[p].amount);
      } else {
        NoRowsNoRefund(db.ledger, p);
        NothingIsWithin(db.ledger + [row], db.refunds, p, payments[p].amount);
      }
    }
  }

  lemma WithinAgain(ledger: seq<LedgerRow>, refunds: map<RefundId, Refund>, ledger': seq<LedgerRow>,
                    refunds': map<RefundId, Refund>, p: PaymentId, amount: int)
    requires Within(ledger, refunds, p, amount)
    requires RefundedAmount(ledger', p) == RefundedAmount(ledger, p) && Completed(refunds', p) == Completed(refunds, p)
    ensures Within(ledger', refunds', p, amount)
  {
  }

  lemma NothingIsWithin(ledger: seq<LedgerRow>, refunds: map<RefundId, Refund>, p: PaymentId, amount: int)
    requires RefundedAmount(ledger, p) == 0 && amount > 0
    ensures Within(ledger, refunds, p, amount)
  {
  }

  lemma {:induction false} NoRowsNoRefund(ledger: seq<LedgerRow>, p: PaymentId)
    requires forall i :: 0 <= i < |ledger| ==> ledger[i].payment != p
    ensures RefundedAmount(ledger, p) == 0
  {
    if ledger != [] {
      NoRowsNoRefund(ledger[..|ledger| - 1], p);
    }
  }

  lemma {:induction false} InsertKeepsEvents(db: Db, now: int, id: PaymentId, order: OrderId, amount: int, via: Method,
                                             status: PayStatus)
    requires EventsInv(db.payments, db.refunds, db.outbox) && id !in db.payments
      && (status == Pending || status == Paid)
    ensures var db' := InsertPayment(db, now, id, order, amount, via, status);
      EventsInv(db'.payments, db'.refunds, db'.outbox)
  {
    hide EventsInv, Due;
    var row := InsertPayment(db, now, id, order, amount, via, status).payments[id];
    var pending := db.payments[id := row.(status := Pending)];
    var created := OutboxRow(PayEvent(CreatedEvent, id, order, amount), now);
    OpeningIsDue(db.payments, db.refunds, id, pending[id]);
    EventKeepsInv(db.payments, db.refunds, pending, db.refunds, db.outbox, created);
    if status == Paid {
      SettlingIsDue(pending, db.refunds, id, row, PaidEvent);
      EventKeepsInv(pending, db.refunds, pending[id := row], db.refunds, db.outbox + [created],
                    OutboxRow(PayEvent(PaidEvent, id, order, amount), now));
      assert pending[id := row] == db.payments[id := row];
    }
  }

  lemma {:induction false} InsertKeepsInv(s: State, now: int, id: PaymentId, order: OrderId, amount: int, via: Method,
                                          status: PayStatus)
    requires PayInv(s) && id !in s.db.payments && amount > 0 && (status == Pending || status == Paid)
    requires UniquePaid(InsertPayment(s.db, now, id, order, amount, via, status).payments)
    ensures PayInv(s.(db := InsertPayment(s.db, now, id, order, amount, via, status)))
  {
    var db, db' := s.db, InsertPayment(s.db, now, id, order, amount, via, status);
    InsertedRows(db, now, id, order, amount, via, status);
    assert PaymentsInv(db'.payments);
    hide PaymentsInv, EventsInv, LedgerInv, RefundsInv, UniquePaid, TicketsInv, InsertPayment;
    InsertKeepsEvents(db, now, id, order, amount, via, status);
    ChargeKeepsLedger(db, db'.payments, LedgerRow(id, Charge, amount, if status == Paid then TxSuccess else TxPending));
    RefundsUntouched(s, s.(db := db'));
  }

  lemma InsertedRows(db: Db, now: int, id: PaymentId, order: OrderId, amount: int, via: Method, status: PayStatus)
    ensures
      var db' := InsertPayment(db, now, id, order, amount, via, status);
      && db'.payments == db.payments[id := Payment(order, amount, via, if via == Cash then CashDesk else Dummy, status)]
      && db'.ledger == db.ledger + [LedgerRow(id, Charge, amount, if status == Paid then TxSuccess else TxPending)]
      && db'.refunds == db.refunds && db.outbox <= db'.outbox
  {
  }

  lemma {:induction false} RecordKeepsInv(s: State, now: int, id: PaymentId, paid: bool)
    requires PayInv(s) && id in s.db.payments && s.db.payments[id].status == Pending
    requires UniquePaid(RecordOutcome(s.db, now, id, paid).payments)
    ensures PayInv(s.(db := RecordOutcome(s.db, now, id, paid)))
  {
    var db, db' := s.db, RecordOutcome(s.db, now, id, paid);
    assert db.payments[id].amount > 0;
    RecordedRows(db, now, id, paid);
    assert PaymentsInv(db'.payments);
    hide PaymentsInv, EventsInv, LedgerInv, RefundsInv, UniquePaid, TicketsInv, RecordOutcome;
    RecordKeepsEvents(db, now, id, paid);
    ChargeKeepsLedger(db, db'.payments, db'.ledger[|db.ledger|]);
    RefundsUntouched(s, s.(db := db'));
  }

  lemma {:induction false} RecordKeepsEvents(db: Db, now: int, id: PaymentId, paid: bool)
    requires EventsInv(db.payments, db.refunds, db.outbox) && id in db.payments && db.payments[id].status == Pending
    ensures var db' := RecordOutcome(db, now, id, paid); EventsInv(db'.payments, db'.refunds, db'.outbox)
  {
    var db' := RecordOutcome(db, now, id, paid);
    RecordedRows(db, now, id, paid);
    hide EventsInv, Due, RecordOutcome;
    SettlingIsDue(db.payments, db.refunds, id, db'.payments[id], if paid then PaidEvent else FailedEvent);
    EventKeepsInv(db.payments, db.refunds, db'.payments, db.refunds, db.outbox, db'.outbox[|db.outbox|]);
  }

  lemma RecordedRows(db: Db, now: int, id: PaymentId, paid: bool)
    requires id in db.payments
    ensures
      var p, db' := db.payments[id], RecordOutcome(db, now, id, paid);
      && db'.payments == db.payments[id := p.(status := if paid then Paid else Failed)]
      && db'.ledger == db.ledger + [LedgerRow(id, Charge, p.amount, if paid then TxSuccess else TxFailed)]
      && db'.outbox ==
           db.outbox + [OutboxRow(PayEvent(if paid then PaidEvent else FailedEvent, id, p.order, p.amount), now)]
      && db'.refunds == db.refunds
  {
  }

  /** Adding or rejecting a refund: the payments, and the completed refunds, stay as they are. */
  lemma {:induction false} RefundRowKeepsInv(s: State, id: RefundId, r: Refund)
    requires PayInv(s) && RefundInv(s.db, r) && r.status != RefundCompleted
    requires id in s.db.refunds ==> s.db.refunds[id].status != RefundCompleted && s.db.refunds[id].payment == r.payment
    ensures PayInv(s.(db := s.db.(refunds := s.db.refunds[id := r])))
  {
    NoneMoreCompleted(s.db.refunds, id, r);
    hide Completed, PaymentsInv, EventsInv, LedgerInv, RefundsInv, TicketsInv, RefundInv;
    SameCompletedKeepsRows(s.db, s.db.(refunds := s.db.refunds[id := r]));
    RefundRowKeepsRefunds(s, id, r);
  }

  lemma NoneMoreCompleted(refunds: map<RefundId, Refund>, id: RefundId, r: Refund)
    requires r.status != RefundCompleted && (id in refunds ==> refunds[id].status != RefundCompleted)
    ensures forall p :: Completed(refunds[id := r], p) == Completed(refunds, p)
  {
  }

  lemma {:induction false} RefundRowKeepsRefunds(s: State, id: RefundId, r: Refund)
    requires RefundsInv(s.db) && TicketsInv(s) && RefundInv(s.db, r)
    requires forall p :: Completed(s.db.refunds[id := r], p) == Completed(s.db.refunds, p)
    ensures var s' := s.(db := s.db.(refunds := s.db.refunds[id := r])); RefundsInv(s'.db) && TicketsInv(s')
  {
    hide Completed;
    var db, db' := s.db, s.db.(refunds := s.db.refunds[id := r]);
    forall q | q in db'.refunds ensures RefundInv(db', db'.refunds[q]) {
      if q != id {
        assert RefundInv(db, db.refunds[q]);
      }
    }
    forall t | t in s.waiting || t in s.cleared ensures TicketInv(db', t) {
      assert TicketInv(db, t);
    }
  }

  lemma {:induction false} SameCompletedKeepsRows(db: Db, db': Db)
    requires EventsInv(db.payments, db.refunds, db.outbox) && LedgerInv(db.payments, db.ledger, db.refunds)
    requires db' == db.(refunds := db'.refunds)
    requires forall p :: Completed(db'.refunds, p) == Completed(db.refunds, p)
    ensures EventsInv(db'.payments, db'.refunds, db'.outbox) && LedgerInv(db'.payments, db'.ledger, db'.refunds)
  {
    hide Completed;
    assert forall k, p :: Due(db'.payments, db'.refunds, k, p) == Due(db.payments, db.refunds, k, p);
    forall p | p in db.payments ensures Within(db.ledger, db'.refunds, p, db.payments[p].amount) {
      WithinAgain(db.ledger, db.refunds, db.ledger, db'.refunds, p, db.payments[p].amount);
    }
  }

  lemma CompletionKeepsRefunds(s: State, now: int, id: RefundId, amount: int)
    requires RefundsInv(s.db) && TicketsInv(s)
    requires id in s.db.refunds && s.db.refunds[id].status == RefundRequested && 0 < amount <= s.db.refunds[id].amount
    ensures var s' := s.(db := CompleteRefund(s.db, now, id, amount)); RefundsInv(s'.db) && TicketsInv(s')
  {
    var db, db' := s.db, CompleteRefund(s.db, now, id, amount);
    assert RefundInv(db, db.refunds[id]);
    CompletedRows(db, now, id, amount);
    CompletedAfter(db.refunds, id, db'.refunds[id]);
    hide Completed, CompleteRefund;
    forall p | p in db'.payments && db'.payments[p].status == Refunded ensures Completed(db'.refunds, p) != {} {
      assert Completed(db.refunds, p) <= Completed(db'.refunds, p);
      if p == db.refunds[id].payment {
        assert id in Completed(db'.refunds, p);
      }
    }
    forall r | r in db'.refunds ensures RefundInv(db', db'.refunds[r]) {
      assert RefundInv(db, db.refunds[r]);
    }
    forall t | t in s.waiting || t in s.cleared ensures TicketInv(db', t) {
      assert TicketInv(db, t);
    }
  }

  lemma {:induction false} CompletionKeepsLedger(db: Db, now: int, id: RefundId, amount: int)
    requires LedgerInv(db.payments, db.ledger, db.refunds) && id in db.refunds && RefundInv(db, db.refunds[id])
    requires db.refunds[id].status == RefundRequested && amount <= db.refunds[id].amount
    ensures var db' := CompleteRefund(db, now, id, amount); LedgerInv(db'.payments, db'.ledger, db'.refunds)
  {
    var p, db' := db.refunds[id].payment, CompleteRefund(db, now, id, amount);
    assert p in db.payments && amount <= db.payments[p].amount && Collected(db.payments[p].status);
    hide RefundInv, Completed, Within, CompleteRefund;
    var row := LedgerRow(p, Refunding, amount, TxSuccess);
    CompletedRows(db, now, id, amount);
    LedgerAfter(db.ledger, row);
    forall q | q in db.payments ensures Within(db.ledger + [row], db'.refunds, q, db.payments[q].amount) {
      CompletionStaysWithin(db, id, db'.refunds[id], row, q);
    }
  }

  lemma CompletedRows(db: Db, now: int, id: RefundId, amount: int)
    requires id in db.refunds && db.refunds[id].payment in db.payments
    ensures
      var p, db' := db.refunds[id].payment, CompleteRefund(db, now, id, amount);
      && db'.ledger == db.ledger + [LedgerRow(p, Refunding, amount, TxSuccess)]
      && db'.payments == db.payments[p := db.payments[p].(status := Refunded)]
      && db'.refunds == db.refunds[id := db.refunds[id].(status := RefundCompleted, amount := amount)]
      && db'.outbox == db.outbox + [OutboxRow(PayEvent(RefundedEvent, p, db.refunds[id].order, amount), now)]
  {
  }

  lemma {:induction false} CompletionStaysWithin(db: Db, id: RefundId, r: Refund, row: LedgerRow, q: PaymentId)
    requires id in db.refunds && db.refunds[id].status == RefundRequested
    requires r.status == RefundCompleted && r.payment == db.refunds[id].payment == row.payment && row.kind == Refunding
    requires q in db.payments && Within(db.ledger, db.refunds, q, db.payments[q].amount)
    requires q == row.payment ==> row.amount <= db.payments[q].amount
    ensures Within(db.ledger + [row], db.refunds[id := r], q, db.payments[q].amount)
  {
    LedgerAfter(db.ledger, row);
    CompletedAfter(db.refunds, id, r);
    hide Completed, Within;
    if q == row.payment {
      OneMoreIsWithin(db.ledger, db.refunds, db.ledger + [row], db.refunds[id := r], q, db.payments[q].amount, id);
    } else {
      assert Completed(db.refunds, q) + {} == Completed(db.refunds, q);
      WithinAgain(db.ledger, db.refunds, db.ledger + [row], db.refunds[id := r], q, db.payments[q].amount);
    }
  }

  lemma OneMoreIsWithin(ledger: seq<LedgerRow>, refunds: map<RefundId, Refund>, ledger': seq<LedgerRow>,
                        refunds': map<RefundId, Refund>, p: PaymentId, amount: int, id: RefundId)
    requires Within(ledger, refunds, p, amount) && RefundedAmount(ledger', p) <= RefundedAmount(ledger, p) + amount
    requires Completed(refunds', p) == Completed(refunds, p) + {id} && id !in Completed(refunds, p)
    ensures Within(ledger', refunds', p, amount)
  {
    hide RefundedAmount, Completed;
    var n := |Completed(refunds, p)|;
    assert |Completed(refunds', p)| == n + 1;
    assert (n + 1) * amount == n * amount + amount;
  }

  lemma {:induction false} CompleteKeepsInv(s: State, now: int, id: RefundId, amount: int)
    requires PayInv(s) && id in s.db.refunds && s.db.refunds[id].status == RefundRequested
    requires 0 < amount <= s.db.refunds[id].amount
    ensures PayInv(s.(db := CompleteRefund(s.db, now, id, amount)))
  {
    var db, db' := s.db, CompleteRefund(s.db, now, id, amount);
    assert RefundInv(db, db.refunds[id]);
    var p := db.refunds[id].payment;
    CompletedRows(db, now, id, amount);
    RefundedKeepsPayments(db.payments, p);
    hide PaymentsInv, EventsInv, LedgerInv, RefundsInv, TicketsInv, UniquePaid, Due, Completed, CompleteRefund;
    CompletionKeepsRefunds(s, now, id, amount);
    CompletionKeepsLedger(db, now, id, amount);
    CompletingIsDue(db.payments, db.refunds, id, db'.refunds[id], db'.payments[p]);
    EventKeepsInv(db.payments, db.refunds, db'.payments, db'.refunds, db.outbox, db'.outbox[|db.outbox|]);
  }

  lemma RefundedKeepsPayments(payments: map<PaymentId, Payment>, p: PaymentId)
    requires PaymentsInv(payments) && p in payments
    ensures PaymentsInv(payments[p := payments[p].(status := Refunded)])
  {
  }

  lemma {:induction false} TicketStepsKeepInv(s: State, waiting: set<Ticket>, cleared: multiset<Ticket>)
    requires PayInv(s) && forall t :: t in waiting || t in cleared ==> TicketInv(s.db, t)
    ensures PayInv(s.(waiting := waiting, cleared := cleared))
  {
    hide PaymentsInv, EventsInv, LedgerInv, RefundsInv;
  }

  lemma {:induction false} RefundInsertKeepsInv(s: State, t: Ticket, id: RefundId)
    requires PayInv(s) && t in s.cleared
    ensures PayInv(s.(db := InsertRefund(s.db, t, id).db, cleared := s.cleared - multiset{t}))
  {
    assert TicketsInv(s) && TicketInv(s.db, t);
    hide PayInv;
    var s0 := s.(cleared := s.cleared - multiset{t});
    TicketStepsKeepInv(s, s.waiting, s0.cleared);
    if InsertRefund(s.db, t, id).reply == Accepted {
      RefundRowKeepsInv(s0, id, Refund(t.payment, t.order, t.amount, RefundRequested));
    }
  }

  lemma {:induction false} BeginKeepsInv(s: State, payment: Option<PaymentId>, hasReason: bool)
    requires PayInv(s)
    ensures
      var b := BeginRefund(s.db, payment, hasReason);
      b.Proceed? ==> PayInv(s.(waiting := s.waiting + {b.ticket}))
  {
    var b := BeginRefund(s.db, payment, hasReason);
    if b.Proceed? {
      assert TicketsInv(s) && TicketInv(s.db, b.ticket);
      hide PayInv, BeginRefund, TicketInv;
      TicketStepsKeepInv(s, s.waiting + {b.ticket}, s.cleared);
    }
  }

  lemma {:induction false} ClearKeepsInv(s: State, t: Ticket)
    requires PayInv(s) && t in s.waiting
    ensures PayInv(s.(cleared := s.cleared + multiset{t}))
  {
    assert TicketsInv(s);
    hide PayInv, TicketInv;
    TicketStepsKeepInv(s, s.waiting, s.cleared + multiset{t});
  }

  lemma {:induction false} AbandonKeepsInv(s: State, t: Ticket)
    requires PayInv(s)
    ensures PayInv(s.(cleared := s.cleared - multiset{t}))
  {
    assert TicketsInv(s);
    hide PayInv, TicketInv;
    TicketStepsKeepInv(s, s.waiting, s.cleared - multiset{t});
  }

  lemma {:induction false} RequestStepKeepsInv(s: State, now: int, op: Op)
    requires PayInv(s) && (op.OpBeginRefund? || op.OpCheckRefund? || op.OpInsertRefund? || op.OpAbandonRefund?)
    ensures PayInv(Perform(s, now, op))
  {
    hide PayInv, BeginRefund, CheckRefund, InsertRefund;
    match op
    case OpBeginRefund(payment, hasReason) => BeginKeepsInv(s, payment, hasReason);
    case OpCheckRefund(t, view) =>
      if t in s.waiting {
        ClearKeepsInv(s, t);
      }
    case OpInsertRefund(t, refund) =>
      if t in s.cleared {
        RefundInsertKeepsInv(s, t, refund);
      }
    case OpAbandonRefund(t) => AbandonKeepsInv(s, t);
  }

  lemma {:induction false} ApprovingKeepsInv(s: State, now: int, id: RefundId, requested: Option<int>)
    requires PayInv(s)
    ensures PayInv(s.(db := ApproveRefund(s.db, now, id, requested).db))
  {
    if id in s.db.refunds {
      assert RefundInv(s.db, s.db.refunds[id]);
    }
    hide PayInv, RefundInv, CompleteRefund;
    if ApproveRefund(s.db, now, id, requested).reply == Accepted {
      CompleteKeepsInv(s, now, id, if requested.Some? then requested.value else s.db.refunds[id].amount);
    }
  }

  lemma {:induction false} RejectingKeepsInv(s: State, id: RefundId, hasReason: bool)
    requires PayInv(s)
    ensures PayInv(s.(db := RejectRefund(s.db, id, hasReason).db))
  {
    if id in s.db.refunds {
      assert RefundInv(s.db, s.db.refunds[id]);
    }
    if RejectRefund(s.db, id, hasReason).reply == Accepted {
      assert RefundInv(s.db, s.db.refunds[id].(status := RefundRejected));
      hide PayInv, RefundInv;
      RefundRowKeepsInv(s, id, s.db.refunds[id].(status := RefundRejected));
    }
  }

  lemma {:induction false} CreatingKeepsInv(s: State, now: int, req: PaymentRequest, view: Option<OrderView>,
                                            gatewayUp: bool, id: PaymentId)
    requires PayInv(s)
    ensures PayInv(s.(db := CreatePayment(s.db, now, req, view, gatewayUp, id).db))
  {
    hide PayInv, UniquePaid, InsertPayment;
    if CreatePayment(s.db, now, req, view, gatewayUp, id).reply == Accepted {
      InsertKeepsInv(s, now, id, req.order.value, req.amount, req.via.value,
                     if req.via.value == Cash then Paid else Pending);
    }
  }

  lemma {:induction false} SettlingKeepsInv(s: State, now: int, id: PaymentId, paid: Option<bool>)
    requires PayInv(s)
    ensures PayInv(s.(db := SettleGateway(s.db, now, id, paid).db))
  {
    hide PayInv, UniquePaid, RecordOutcome;
    if SettleGateway(s.db, now, id, paid).reply == Accepted {
      RecordKeepsInv(s, now, id, paid.value);
    }
  }

  lemma {:induction false} PerformKeepsInv(s: State, now: int, op: Op)
    requires PayInv(s)
    ensures PayInv(Perform(s, now, op))
  {
    hide PayInv, CreatePayment, SettleGateway, BeginRefund, CheckRefund, InsertRefund, ApproveRefund, RejectRefund;
    match op
    case OpCreatePayment(req, view, gatewayUp, id) => CreatingKeepsInv(s, now, req, view, gatewayUp, id);
    case OpSettle(id, paid) => SettlingKeepsInv(s, now, id, paid);
    case OpApprove(refund, amount) => ApprovingKeepsInv(s, now, refund, amount);
    case OpReject(refund, hasReason) => RejectingKeepsInv(s, refund, hasReason);
    case _ => RequestStepKeepsInv(s, now, op);
  }

  /** Payments are never deleted and keep their order and amount; events are only appended. */
  ghost predicate Grows(db: Db, db': Db) {
    && (forall p :: p in db.payments ==> p in db'.payments && SameDebt(db.payments[p], db'.payments[p]))
    && db.outbox <= db'.outbox
  }

  lemma {:induction false} PerformGrows(s: State, now: int, op: Op)
    ensures Grows(s.db, Perform(s, now, op).db)
    ensures forall p :: p in Perform(s, now, op).db.payments && p !in s.db.payments ==>
              op.OpCreatePayment? && op.view.Some? && op.req.order.Some? && op.view.value.total == Some(op.req.amount)
              && SameDebt(Perform(s, now, op).db.payments[p],
                   Payment(op.req.order.value, op.req.amount, Cash, CashDesk, Paid))
  {
    if op.OpCreatePayment? {
      CreateGrows(s.db, now, op.req, op.view, op.gatewayUp, op.id);
      hide CreatePayment, Grows;
    } else if op.OpSettle? {
      SettleGrows(s.db, now, op.id, op.paid);
      hide SettleGateway, Grows;
    } else if op.OpApprove? {
      ApproveGrows(s.db, now, op.refund, op.amount);
      hide ApproveRefund;
    } else {
      hide HasLiveRefund, CheckRefund, BeginRefund;
    }
  }

  lemma {:induction false} CreateGrows(db: Db, now: int, req: PaymentRequest, view: Option<OrderView>, gatewayUp: bool,
                                       id: PaymentId)
    ensures
      var db' := CreatePayment(db, now, req, view, gatewayUp, id).db;
      && Grows(db, db')
      && forall p :: p in db'.payments && p !in db.payments ==>
           view.Some? && req.order.Some? && view.value.total == Some(req.amount)
           && SameDebt(db'.payments[p], Payment(req.order.value, req.amount, Cash, CashDesk, Paid))
  {
    if Refusal(req, view, gatewayUp).None? {
      InsertedRows(db, now, id, req.order.value, req.amount, req.via.value,
                   if req.via.value == Cash then Paid else Pending);
    }
    hide UniquePaid, InsertPayment;
  }

  lemma {:induction false} SettleGrows(db: Db, now: int, id: PaymentId, paid: Option<bool>)
    ensures var db' := SettleGateway(db, now, id, paid).db; Grows(db, db') && db'.payments.Keys == db.payments.Keys
  {
    hide UniquePaid;
  }

  lemma {:induction false} ApproveGrows(db: Db, now: int, id: RefundId, amount: Option<int>)
    ensures var db' := ApproveRefund(db, now, id, amount).db; Grows(db, db') && db'.payments.Keys == db.payments.Keys
  {
  }

  // ---------------------------------------------------------------- whole runs

  datatype Attempt = Attempt(op: Op, at: int, commits: bool)

  const EMPTY: State := State(Db(map[], [], map[], []), {}, multiset{})

  /** Any interleaving of requests; those that do not commit leave no trace. */
  function Run(s: State, steps: seq<Attempt>): State {
    if steps == [] then s
    else
      var before, last := Run(s, steps[..|steps| - 1]), steps[|steps| - 1];
      if last.commits then Perform(before, last.at, last.op) else before
  }

  lemma EmptyInv()
    ensures PayInv(EMPTY)
  {
    assert forall p :: Completed(EMPTY.db.refunds, p) == {};
  }

  lemma {:induction false} RunKeepsInv(s: State, steps: seq<Attempt>)
    requires PayInv(s)
    ensures PayInv(Run(s, steps))
  {
    hide PayInv, Perform;
    if steps != [] {
      var front, last := steps[..|steps| - 1], steps[|steps| - 1];
      RunKeepsInv(s, front);
      PerformKeepsInv(Run(s, front), last.at, last.op);
    }
  }

  /** In every reachable state a payment has exactly one created event, a paid event iff it is Paid or Refunded, a
      failed event iff Failed, one refunded event for each of its completed refunds, which it has iff it is Refunded,
      and one successful charge iff Paid or Refunded; and no order has two Paid payments. */
  lemma {:induction false} TableAndOutboxAgree(steps: seq<Attempt>, p: PaymentId)
    requires p in Run(EMPTY, steps).db.payments
    ensures
      var db := Run(EMPTY, steps).db;
      var status := db.payments[p].status;
      && Count(db.outbox, CreatedEvent, p) == 1
      && Count(db.outbox, PaidEvent, p) == (if status in {Paid, Refunded} then 1 else 0)
      && Count(db.outbox, FailedEvent, p) == (if status == Failed then 1 else 0)
      && Count(db.outbox, RefundedEvent, p) == |Completed(db.refunds, p)|
      && (status == Refunded <==> Completed(db.refunds, p) != {})
      && (OneLive(db) ==> Count(db.outbox, RefundedEvent, p) == (if status == Refunded then 1 else 0))
      && Charges(db.ledger, p) == (if status in {Paid, Refunded} then 1 else 0)
      && (forall q :: q in db.payments && q != p && db.payments[q].order == db.payments[p].order ==>
            status != Paid || db.payments[q].status != Paid)
  {
    EmptyInv();
    RunKeepsInv(EMPTY, steps);
    var db := Run(EMPTY, steps).db;
    assert Due(db.payments, db.refunds, CreatedEvent, p) == 1;
    NoneCompleted(db, p);
    if OneLive(db) {
      AtMostOneCompleted(db, p);
    }
  }

  /** The index lets a gateway payment become Paid exactly when its order has no Paid payment; a settlement that it
      refuses is rolled back, rows, ledger and events alike, and a failure is never refused. */
  lemma {:induction false} IndexRefusesExactlyWhen(steps: seq<Attempt>, now: int, q: PaymentId)
    requires
      var db := Run(EMPTY, steps).db;
      q in db.payments && db.payments[q].provider == Dummy && db.payments[q].status == Pending
    ensures
      var db := Run(EMPTY, steps).db;
      var taken := HasPaid(db.payments, db.payments[q].order);
      && (SettleGateway(db, now, q, Some(true)).reply == Accepted <==> !taken)
      && (taken ==> SettleGateway(db, now, q, Some(true)) == Outcome(db, AlreadyPaid))
      && SettleGateway(db, now, q, Some(false)).reply == Accepted
  {
    EmptyInv();
    RunKeepsInv(EMPTY, steps);
    SettlementExactly(Run(EMPTY, steps), now, q);
    hide Run;
  }

  lemma {:induction false} SettlementExactly(s: State, now: int, q: PaymentId)
    requires PayInv(s) && q in s.db.payments && s.db.payments[q].provider == Dummy && s.db.payments[q].status == Pending
    ensures SettleGateway(s.db, now, q, Some(true)) ==
              if HasPaid(s.db.payments, s.db.payments[q].order) then Outcome(s.db, AlreadyPaid)
              else Outcome(RecordOutcome(s.db, now, q, true), Accepted)
    ensures SettleGateway(s.db, now, q, Some(false)).reply == Accepted
  {
    var payments := s.db.payments;
    IndexAfter(payments, q, payments[q].(status := Paid));
    IndexAfter(payments, q, payments[q].(status := Failed));
    RecordedRows(s.db, now, q, true);
    RecordedRows(s.db, now, q, false);
    hide PayInv, UniquePaid, HasPaid, RecordOutcome;
  }

  /** The index refuses a new or newly Paid row exactly when its order has a Paid payment. */
  lemma IndexAfter(payments: map<PaymentId, Payment>, id: PaymentId, row: Payment)
    requires UniquePaid(payments) && (id in payments ==> payments[id].status != Paid)
    ensures UniquePaid(payments[id := row]) <==> row.status != Paid || !HasPaid(payments, row.order)
  {
    var after := payments[id := row];
    if row.status == Paid && HasPaid(payments, row.order) {
      var p :| p in payments && payments[p].order == row.order && payments[p].status == Paid;
      assert p != id && after[p].status == Paid && after[id].status == Paid && after[p].order == after[id].order;
    }
  }

  // ---------------------------------------------------------------- one live refund

  ghost predicate OneLive(db: Db) {
    forall r, q ::
      (r in db.refunds && q in db.refunds && Live(db.refunds[r]) && Live(db.refunds[q])
       && db.refunds[r].payment == db.refunds[q].payment) ==> r == q
  }

  lemma AtMostOneCompleted(db: Db, p: PaymentId)
    requires OneLive(db)
    ensures |Completed(db.refunds, p)| <= 1
  {
    var c := Completed(db.refunds, p);
    if c != {} {
      var r: RefundId :| r in c;
      forall q | q in c ensures q == r {
        assert Live(db.refunds[r]) && Live(db.refunds[q]);
      }
      assert c == {r};
    }
  }

  /** An insert keeps one live refund per payment exactly when the payment has none at that moment, whatever the check
      that came before it saw. */
  lemma InsertKeepsOneLiveIff(db: Db, t: Ticket, id: RefundId)
    requires OneLive(db) && InsertRefund(db, t, id).reply == Accepted
    ensures OneLive(InsertRefund(db, t, id).db) <==> !HasLiveRefund(db, t.payment)
  {
    var db' := InsertRefund(db, t, id).db;
    if HasLiveRefund(db, t.payment) {
      var r :| r in db.refunds && db.refunds[r].payment == t.payment && Live(db.refunds[r]);
      assert db'.refunds[r] == db.refunds[r] && Live(db'.refunds[id]) && r != id;
    } else {
      forall r, q | r in db'.refunds && q in db'.refunds && Live(db'.refunds[r]) && Live(db'.refunds[q])
                    && db'.refunds[r].payment == db'.refunds[q].payment
        ensures r == q
      {
        assert r != id ==> db'.refunds[r] == db.refunds[r];
        assert q != id ==> db'.refunds[q] == db.refunds[q];
      }
    }
  }

  /** This step adds a refund to a payment that has a live one. */
  ghost predicate Contested(s: State, a: Attempt) {
    && a.commits && a.op.OpInsertRefund? && a.op.ticket in s.cleared
    && InsertRefund(s.db, a.op.ticket, a.op.refund).reply == Accepted
    && HasLiveRefund(s.db, a.op.ticket.payment)
  }

  lemma {:induction false} StepKeepsOneLiveIff(s: State, a: Attempt)
    requires OneLive(s.db)
    ensures OneLive((if a.commits then Perform(s, a.at, a.op) else s).db) <==> !Contested(s, a)
  {
    hide HasLiveRefund, UniquePaid;
    if a.commits && a.op.OpInsertRefund? && a.op.ticket in s.cleared
       && InsertRefund(s.db, a.op.ticket, a.op.refund).reply == Accepted {
      InsertKeepsOneLiveIff(s.db, a.op.ticket, a.op.refund);
    }
  }

  ghost predicate Uncontested(s: State, steps: seq<Attempt>) {
    forall i :: 0 <= i < |steps| ==> !Contested(Run(s, steps[..i]), steps[i])
  }

  /** Throughout a run every payment has at most one live refund exactly when no insert of the run met a live one. */
  lemma {:induction false} OneLiveExactlyWhen(s: State, steps: seq<Attempt>)
    requires OneLive(s.db)
    ensures (forall i :: 0 <= i <= |steps| ==> OneLive(Run(s, steps[..i]).db)) <==> Uncontested(s, steps)
  {
    hide OneLive, Contested, Perform, Run;
    if steps == [] {
      assert steps[..0] == [];
      assert Run(s, []) == s by { RunNothing(s); }
    } else {
      var n := |steps| - 1;
      var front := steps[..n];
      OneLiveExactlyWhen(s, front);
      assert forall i :: 0 <= i <= n ==> front[..i] == steps[..i];
      assert forall i :: 0 <= i < n ==> front[i] == steps[i];
      assert steps[..|steps|] == steps && front[..n] == front;
      if OneLive(Run(s, front).db) {
        LastStepKeepsOneLiveIff(s, steps);
      }
    }
  }

  lemma RunNothing(s: State)
    ensures Run(s, []) == s
  {
  }

  lemma {:induction false} LastStepKeepsOneLiveIff(s: State, steps: seq<Attempt>)
    requires steps != [] && OneLive(Run(s, steps[..|steps| - 1]).db)
    ensures OneLive(Run(s, steps).db) <==> !Contested(Run(s, steps[..|steps| - 1]), steps[|steps| - 1])
  {
    hide OneLive, Contested, Perform;
    StepKeepsOneLiveIff(Run(s, steps[..|steps| - 1]), steps[|steps| - 1]);
  }

  /** No refund request passes the check while another one for its payment has passed it and not yet inserted. */
  ghost predicate OneAtATime(s: State, steps: seq<Attempt>) {
    forall i :: 0 <= i < |steps| && steps[i].commits && steps[i].op.OpCheckRefund? ==>
      forall t :: t in Run(s, steps[..i]).cleared ==> t.payment != steps[i].op.ticket.payment
  }

  /** A cleared request is the only one for its payment, which has no live refund. */
  ghost predicate QueueInv(s: State) {
    && (forall t :: t in s.cleared ==> s.cleared[t] == 1 && !HasLiveRefund(s.db, t.payment))
    && (forall t, u :: t in s.cleared && u in s.cleared && t.payment == u.payment ==> t == u)
  }

  /** Only an insert can make a refund live, and only for its own payment. */
  lemma LiveAfter(s: State, now: int, op: Op, p: PaymentId)
    requires HasLiveRefund(Perform(s, now, op).db, p)
    ensures HasLiveRefund(s.db, p) || (op.OpInsertRefund? && op.ticket in s.cleared && op.ticket.payment == p)
  {
    hide UniquePaid, CheckRefund, BeginRefund;
    var db' := Perform(s, now, op).db;
    var r :| r in db'.refunds && db'.refunds[r].payment == p && Live(db'.refunds[r]);
    if r in s.db.refunds {
      assert op.OpInsertRefund? || (s.db.refunds[r].payment == p && Live(s.db.refunds[r]));
    }
  }

  lemma {:induction false} StepKeepsQueue(s: State, now: int, op: Op)
    requires QueueInv(s)
    requires op.OpCheckRefund? ==> forall t :: t in s.cleared ==> t.payment != op.ticket.payment
    ensures QueueInv(Perform(s, now, op))
  {
    hide HasLiveRefund, Perform;
    var s' := Perform(s, now, op);
    ClearedAfter(s, now, op);
    forall t | t in s'.cleared ensures !HasLiveRefund(s'.db, t.payment) {
      if HasLiveRefund(s'.db, t.payment) {
        LiveAfter(s, now, op, t.payment);
      }
    }
  }

  lemma ClearedAfter(s: State, now: int, op: Op)
    ensures
      var s' := Perform(s, now, op);
      if op.OpCheckRefund? then
        && (s'.cleared == s.cleared || s'.cleared == s.cleared + multiset{op.ticket})
        && (s'.cleared != s.cleared ==> !HasLiveRefund(s'.db, op.ticket.payment))
      else if op.OpInsertRefund? then s'.cleared == s.cleared - multiset{op.ticket}
      else s'.cleared <= s.cleared
  {
    hide HasLiveRefund, UniquePaid, CreatePayment, SettleGateway, BeginRefund, InsertRefund, ApproveRefund,
      RejectRefund;
  }

  /** Checking one request of a payment at a time is enough. The handler that checks and inserts without another refund
      request in between is a special case. */
  lemma {:induction false} OneAtATimeSuffices(steps: seq<Attempt>)
    requires OneAtATime(EMPTY, steps)
    ensures Uncontested(EMPTY, steps) && QueueInv(Run(EMPTY, steps))
  {
    hide Perform;
    if steps == [] {
      assert QueueInv(EMPTY);
    } else {
      hide QueueInv;
      var n := |steps| - 1;
      var front := steps[..n];
      assert forall i :: 0 <= i <= n ==> front[..i] == steps[..i];
      OneAtATimeSuffices(front);
      if steps[n].commits {
        StepKeepsQueue(Run(EMPTY, front), steps[n].at, steps[n].op);
      }
    }
  }

  /** As long as no insert met a live refund, and whatever else ran while requests waited for Core: a requested refund's
      payment is Paid, a payment has at most one refund that is not rejected or failed, and what was paid back never
      exceeds the charge. */
  lemma {:induction false} RefundsNeverExceedCharge(steps: seq<Attempt>)
    requires Uncontested(EMPTY, steps)
    ensures
      var db := Run(EMPTY, steps).db;
      && (forall r :: r in db.refunds && db.refunds[r].status == RefundRequested ==>
            db.refunds[r].payment in db.payments && db.payments[db.refunds[r].payment].status == Paid)
      && OneLive(db)
      && NeverMoreThanCharged(db)
  {
    EmptyInv();
    RunKeepsInv(EMPTY, steps);
    OneLiveExactlyWhen(EMPTY, steps);
    assert steps[..|steps|] == steps;
    OneLiveBoundsRefunds(Run(EMPTY, steps));
  }

  lemma NoneCompleted(db: Db, p: PaymentId)
    requires RefundsInv(db) && p in db.payments
    ensures db.payments[p].status != Refunded ==> Completed(db.refunds, p) == {}
  {
    forall r | r in db.refunds && db.payments[p].status != Refunded ensures r !in Completed(db.refunds, p) {
      assert RefundInv(db, db.refunds[r]);
    }
  }

  lemma {:induction false} OneLiveBoundsRefunds(s: State)
    requires PayInv(s) && OneLive(s.db)
    ensures forall r :: r in s.db.refunds && s.db.refunds[r].status == RefundRequested ==>
              s.db.refunds[r].payment in s.db.payments && s.db.payments[s.db.refunds[r].payment].status == Paid
    ensures NeverMoreThanCharged(s.db)
  {
    var db := s.db;
    forall p | p in db.payments
      ensures RefundedAmount(db.ledger, p) <= if Charges(db.ledger, p) == 1 then db.payments[p].amount else 0
    {
      assert Within(db.ledger, db.refunds, p, db.payments[p].amount) && db.payments[p].amount > 0;
      assert Charges(db.ledger, p) == if Collected(db.payments[p].status) then 1 else 0;
      hide PayInv, OneLive, Within;
      AtMostOneCompleted(db, p);
      NoneCompleted(db, p);
      AtMostTheCharge(db, p);
    }
    forall r | r in db.refunds && db.refunds[r].status == RefundRequested
      ensures db.refunds[r].payment in db.payments && db.payments[db.refunds[r].payment].status == Paid
    {
      assert RefundInv(db, db.refunds[r]) && RefundsInv(db);
      RequestedNotCompleted(db, r);
    }
  }

  lemma RequestedNotCompleted(db: Db, r: RefundId)
    requires OneLive(db) && r in db.refunds && db.refunds[r].status == RefundRequested
    ensures Completed(db.refunds, db.refunds[r].payment) == {}
  {
    assert Live(db.refunds[r]);
    forall q | q in db.refunds ensures q !in Completed(db.refunds, db.refunds[r].payment) {
      assert Live(db.refunds[q]) && db.refunds[q].payment == db.refunds[r].payment ==> q == r;
    }
  }

  lemma AtMostTheCharge(db: Db, p: PaymentId)
    requires p in db.payments && db.payments[p].amount > 0 && Within(db.ledger, db.refunds, p, db.payments[p].amount)
    requires |Completed(db.refunds, p)| <= 1
    ensures RefundedAmount(db.ledger, p) <= if Completed(db.refunds, p) == {} then 0 else db.payments[p].amount
  {
  }

  // ---------------------------------------------------------------- what a lawful state tells about one payment

  ghost predicate NeverMoreThanCharged(db: Db) {
    forall p :: p in db.payments ==>
      RefundedAmount(db.ledger, p) <= if Charges(db.ledger, p) == 1 then db.payments[p].amount else 0
  }

  lemma {:induction false} RowsTellStatus(s: State, p: PaymentId)
    requires PayInv(s) && p in s.db.payments
    ensures Count(s.db.outbox, CreatedEvent, p) == 1
    ensures
      Charges(s.db.ledger, p) == Count(s.db.outbox, PaidEvent, p) ==
      if Collected(s.db.payments[p].status) then 1 else 0
  {
    assert Count(s.db.outbox, CreatedEvent, p) == Due(s.db.payments, s.db.refunds, CreatedEvent, p);
    assert Count(s.db.outbox, PaidEvent, p) == Due(s.db.payments, s.db.refunds, PaidEvent, p);
  }

  lemma {:induction false} RowsTellRefunds(s: State, p: PaymentId)
    requires PayInv(s)
    ensures Count(s.db.outbox, RefundedEvent, p) == |Completed(s.db.refunds, p)|
  {
    assert Count(s.db.outbox, RefundedEvent, p) == Due(s.db.payments, s.db.refunds, RefundedEvent, p);
  }

  lemma {:induction false} RefundKnowsPayment(s: State, id: RefundId)
    requires PayInv(s)
    ensures id in s.db.refunds ==> s.db.refunds[id].payment in s.db.payments
  {
    assert id in s.db.refunds ==> RefundInv(s.db, s.db.refunds[id]);
  }

  lemma IndexHolds(s: State)
    requires PayInv(s)
    ensures UniquePaid(s.db.payments)
  {
  }

  /** A payment of this order is Paid. */
  ghost predicate HasPaid(payments: map<PaymentId, Payment>, order: OrderId) {
    exists p :: p in payments && payments[p].order == order && payments[p].status == Paid
  }

  /** The payment has this status, and the rows that go with it: charged and announced once if Paid, else not at all. */
  ghost predicate StandsAs(db: Db, id: PaymentId, status: PayStatus) {
    && id in db.payments && db.payments[id].status == status
    && Charges(db.ledger, id) == Count(db.outbox, PaidEvent, id) == if Collected(status) then 1 else 0
  }

  /** A settlement leaves a lawful state; it is refused by the index only when the order has a Paid payment. */
  lemma {:induction false} SettlementTells(s: State, now: int, id: PaymentId, paid: Option<bool>)
    requires PayInv(s)
    ensures
      var o := SettleGateway(s.db, now, id, paid);
      && PayInv(s.(db := o.db))
      && (o.reply == Accepted ==> paid.Some? && StandsAs(o.db, id, if paid.value then Paid else Failed))
      && (o.reply == AlreadyPaid ==>
            o.db == s.db && id in s.db.payments && HasPaid(s.db.payments, s.db.payments[id].order))
  {
    SettlingKeepsInv(s, now, id, paid);
    var o := SettleGateway(s.db, now, id, paid);
    hide PayInv, UniquePaid, Count, Charges;
    if o.reply == Accepted {
      RowsTellStatus(s.(db := o.db), id);
    } else if o.reply == AlreadyPaid {
      TakenMeansPaid(s, id, if paid.value then Paid else Failed);
    }
  }

  /** The payment is Refunded, and each of its completed refunds has been announced once. */
  ghost predicate StandsRefunded(db: Db, p: PaymentId) {
    && p in db.payments && db.payments[p].status == Refunded
    && Count(db.outbox, RefundedEvent, p) == |Completed(db.refunds, p)|
  }

  /** An approval leaves a lawful state, with the payment Refunded, one refunded event for each of its completed
      refunds, and, while no payment has two live refunds, no more paid back than charged. */
  lemma {:induction false} ApprovalTells(s: State, now: int, id: RefundId, requested: Option<int>)
    requires PayInv(s)
    ensures
      var o := ApproveRefund(s.db, now, id, requested);
      && PayInv(s.(db := o.db))
      && (o.reply == Accepted ==>
            id in o.db.refunds && StandsRefunded(o.db, o.db.refunds[id].payment))
      && (OneLive(o.db) ==> NeverMoreThanCharged(o.db))
  {
    ApprovingKeepsInv(s, now, id, requested);
    RefundKnowsPayment(s, id);
    var s' := s.(db := ApproveRefund(s.db, now, id, requested).db);
    ApprovedRow(s.db, now, id, requested);
    hide PayInv, Count, Completed, OneLive, NeverMoreThanCharged, ApproveRefund;
    PaidBackWithinCharges(s');
    if id in s'.db.refunds {
      RowsTellRefunds(s', s'.db.refunds[id].payment);
    }
  }

  lemma ApprovedRow(db: Db, now: int, id: RefundId, requested: Option<int>)
    requires id in db.refunds ==> db.refunds[id].payment in db.payments
    ensures
      var o := ApproveRefund(db, now, id, requested);
      o.reply == Accepted ==>
        && id in o.db.refunds && o.db.refunds[id].payment in o.db.payments
        && o.db.payments[o.db.refunds[id].payment].status == Refunded
  {
  }

  lemma {:induction false} TakenMeansPaid(s: State, id: PaymentId, status: PayStatus)
    requires PayInv(s) && id in s.db.payments
    requires !UniquePaid(s.db.payments[id := s.db.payments[id].(status := status)])
    ensures HasPaid(s.db.payments, s.db.payments[id].order)
  {
    var after := s.db.payments[id := s.db.payments[id].(status := status)];
    var p, q :| p in after && q in after && after[p].status == Paid && after[q].status == Paid
      && after[p].order == after[q].order && p != q;
    assert UniquePaid(s.db.payments);
    assert p == id || q == id;
    var other := if p == id then q else p;
    assert s.db.payments[other] == after[other];
  }

  lemma {:induction false} PaidBackWithinCharges(s: State)
    requires PayInv(s)
    ensures OneLive(s.db) ==> NeverMoreThanCharged(s.db)
  {
    if OneLive(s.db) {
      OneLiveBoundsRefunds(s);
    }
  }

  // ---------------------------------------------------------------- money paid back

  /** The amount that an approval pays back: the one asked for, else the refund's. */
  function ApprovedAmount(r: Refund, requested: Option<int>): int {
    if requested.Some? then requested.value else r.amount
  }

  lemma ApprovalPays(db: Db, now: int, id: RefundId, requested: Option<int>)
    requires id in db.refunds && db.refunds[id].payment in db.payments
    requires ApproveRefund(db, now, id, requested).reply == Accepted
    ensures
      var r, db' := db.refunds[id], ApproveRefund(db, now, id, requested).db;
      var a := ApprovedAmount(r, requested);
      && (requested.Some? ==> 0 < a <= r.amount)
      && db'.ledger == db.ledger + [LedgerRow(r.payment, Refunding, a, TxSuccess)]
      && db'.payments == db.payments[r.payment := db.payments[r.payment].(status := Refunded)]
  {
  }

  /** One approval keeps what was paid back within the charge exactly when the payment's refunds so far and this one
      come to at most its amount, whatever other refunds of it are live. */
  lemma {:induction false} ApprovalKeepsWithinIff(s: State, now: int, id: RefundId, requested: Option<int>)
    requires PayInv(s) && NeverMoreThanCharged(s.db)
    requires ApproveRefund(s.db, now, id, requested).reply == Accepted
    ensures id in s.db.refunds && s.db.refunds[id].payment in s.db.payments
    ensures
      var p := s.db.refunds[id].payment;
      NeverMoreThanCharged(ApproveRefund(s.db, now, id, requested).db) <==>
        RefundedAmount(s.db.ledger, p) + ApprovedAmount(s.db.refunds[id], requested) <= s.db.payments[p].amount
  {
    RefundKnowsPayment(s, id);
    var db, p, a := s.db, s.db.refunds[id].payment, ApprovedAmount(s.db.refunds[id], requested);
    assert RefundInv(db, db.refunds[id]);
    assert Charges(db.ledger, p) == 1;
    ApprovalPays(db, now, id, requested);
    LedgerAfter(db.ledger, LedgerRow(p, Refunding, a, TxSuccess));
    hide PayInv, RefundInv, ApproveRefund, ApprovedAmount;
  }

  /** This step pays back more of a payment than is left of it. */
  ghost predicate Overpays(s: State, a: Attempt) {
    && a.commits && a.op.OpApprove?
    && ApproveRefund(s.db, a.at, a.op.refund, a.op.amount).reply == Accepted
    && var r := s.db.refunds[a.op.refund];
       r.payment in s.db.payments
       && RefundedAmount(s.db.ledger, r.payment) + ApprovedAmount(r, a.op.amount) > s.db.payments[r.payment].amount
  }

  /** Every payment that was there is still there, with its amount, and no less of it has been paid back. */
  ghost predicate PaysForward(db: Db, db': Db) {
    forall p :: p in db.payments ==>
      && p in db'.payments && db'.payments[p].amount == db.payments[p].amount
      && RefundedAmount(db.ledger, p) <= RefundedAmount(db'.ledger, p)
  }

  lemma {:induction false} RefundsOf(s: State, p: PaymentId)
    requires PayInv(s)
    ensures p in s.db.payments && !Collected(s.db.payments[p].status) ==> RefundedAmount(s.db.ledger, p) <= 0
    ensures p !in s.db.payments ==> RefundedAmount(s.db.ledger, p) == 0
    ensures p in s.db.payments ==> s.db.payments[p].amount > 0
    ensures Charges(s.db.ledger, p) == if p in s.db.payments && Collected(s.db.payments[p].status) then 1 else 0
  {
    if p in s.db.payments {
      NoneCompleted(s.db, p);
      assert Within(s.db.ledger, s.db.refunds, p, s.db.payments[p].amount);
    } else {
      NoRowsNoRefund(s.db.ledger, p);
    }
  }

  lemma {:induction false} ApprovalPaysForward(s: State, now: int, id: RefundId, requested: Option<int>)
    requires PayInv(s)
    ensures PaysForward(s.db, ApproveRefund(s.db, now, id, requested).db)
  {
    RefundKnowsPayment(s, id);
    if ApproveRefund(s.db, now, id, requested).reply == Accepted {
      var r := s.db.refunds[id];
      assert RefundInv(s.db, r);
      ApprovalPays(s.db, now, id, requested);
      LedgerAfter(s.db.ledger, LedgerRow(r.payment, Refunding, ApprovedAmount(r, requested), TxSuccess));
    }
    hide PayInv, RefundInv, ApproveRefund;
  }

  /** Creating and settling payments add charge rows only. */
  lemma {:induction false} ChargesPayNothingBack(db: Db, now: int, op: Op)
    requires op.OpCreatePayment? || op.OpSettle?
    ensures
      var db' := (if op.OpCreatePayment? then CreatePayment(db, now, op.req, op.view, op.gatewayUp, op.id)
                  else SettleGateway(db, now, op.id, op.paid)).db;
      forall p :: RefundedAmount(db'.ledger, p) == RefundedAmount(db.ledger, p)
  {
    if op.OpCreatePayment? && Refusal(op.req, op.view, op.gatewayUp).None? {
      var status := if op.req.via.value == Cash then Paid else Pending;
      InsertedRows(db, now, op.id, op.req.order.value, op.req.amount, op.req.via.value, status);
      LedgerAfter(db.ledger, LedgerRow(op.id, Charge, op.req.amount, if status == Paid then TxSuccess else TxPending));
    } else if op.OpSettle? && op.id in db.payments && op.paid.Some? {
      RecordedRows(db, now, op.id, op.paid.value);
      LedgerAfter(db.ledger,
        LedgerRow(op.id, Charge, db.payments[op.id].amount, if op.paid.value then TxSuccess else TxFailed));
    }
    hide UniquePaid, InsertPayment, RecordOutcome;
  }

  lemma RequestsPayNothingBack(s: State, now: int, op: Op)
    requires !op.OpApprove? && !op.OpCreatePayment? && !op.OpSettle?
    ensures Perform(s, now, op).db.ledger == s.db.ledger && Perform(s, now, op).db.payments == s.db.payments
  {
    hide HasLiveRefund, CheckRefund, BeginRefund, CreatePayment, SettleGateway, ApproveRefund;
  }

  lemma {:induction false} StepPaysForward(s: State, now: int, op: Op)
    requires PayInv(s)
    ensures PaysForward(s.db, Perform(s, now, op).db)
    ensures !op.OpApprove? ==>
      forall p :: RefundedAmount(Perform(s, now, op).db.ledger, p) == RefundedAmount(s.db.ledger, p)
  {
    PerformGrows(s, now, op);
    hide PayInv, Completed;
    if op.OpApprove? {
      ApprovalPaysForward(s, now, op.refund, op.amount);
      hide ApproveRefund;
    } else if op.OpCreatePayment? || op.OpSettle? {
      ChargesPayNothingBack(s.db, now, op);
      hide CreatePayment, SettleGateway;
    } else {
      RequestsPayNothingBack(s, now, op);
      hide Perform;
    }
  }

  /** A step goes over the charge of some payment exactly when it is an approval that overpays. */
  lemma {:induction false} StepKeepsWithinIff(s: State, a: Attempt)
    requires PayInv(s) && NeverMoreThanCharged(s.db)
    ensures NeverMoreThanCharged((if a.commits then Perform(s, a.at, a.op) else s).db) <==> !Overpays(s, a)
  {
    hide NeverMoreThanCharged, PayInv, ApprovedAmount;
    if a.commits {
      if a.op.OpApprove? {
        hide CreatePayment, SettleGateway, CheckRefund, InsertRefund, RejectRefund, CompleteRefund;
        if ApproveRefund(s.db, a.at, a.op.refund, a.op.amount).reply == Accepted {
          ApprovalKeepsWithinIff(s, a.at, a.op.refund, a.op.amount);
        }
      } else {
        hide Perform;
        StaysWithin(s, a.at, a.op);
      }
    }
  }

  lemma {:induction false} StaysWithin(s: State, now: int, op: Op)
    requires PayInv(s) && NeverMoreThanCharged(s.db) && !op.OpApprove?
    ensures NeverMoreThanCharged(Perform(s, now, op).db)
  {
    var s' := Perform(s, now, op);
    StepPaysForward(s, now, op);
    PerformKeepsInv(s, now, op);
    hide PayInv, Perform;
    forall p | p in s'.db.payments
      ensures RefundedAmount(s'.db.ledger, p) <= if Charges(s'.db.ledger, p) == 1 then s'.db.payments[p].amount else 0
    {
      RefundsOf(s, p);
      RefundsOf(s', p);
    }
  }

  /** What is over the charge stays over it. */
  lemma {:induction false} ExcessStays(s: State, s': State)
    requires PayInv(s) && PayInv(s') && PaysForward(s.db, s'.db) && !NeverMoreThanCharged(s.db)
    ensures !NeverMoreThanCharged(s'.db)
  {
    hide PayInv;
    var p :| p in s.db.payments
             && RefundedAmount(s.db.ledger, p) > if Charges(s.db.ledger, p) == 1 then s.db.payments[p].amount else 0;
    RefundsOf(s, p);
    RefundsOf(s', p);
  }

  ghost predicate NothingOverpaid(s: State, steps: seq<Attempt>) {
    forall i :: 0 <= i < |steps| ==> !Overpays(Run(s, steps[..i]), steps[i])
  }

  /** A step leaves every payment within its charge exactly when all of them were and it is not an approval that
      overpays. */
  lemma {:induction false} StepEndsWithinIff(s: State, a: Attempt)
    requires PayInv(s)
    ensures
      NeverMoreThanCharged((if a.commits then Perform(s, a.at, a.op) else s).db) <==>
      NeverMoreThanCharged(s.db) && !Overpays(s, a)
  {
    hide PayInv, NeverMoreThanCharged, Overpays, Perform;
    if NeverMoreThanCharged(s.db) {
      StepKeepsWithinIff(s, a);
    } else if a.commits {
      StepPaysForward(s, a.at, a.op);
      PerformKeepsInv(s, a.at, a.op);
      ExcessStays(s, Perform(s, a.at, a.op));
    }
  }

  /** After any run, racing refund requests included, no payment has had more paid back than was charged exactly when no
      approval of the run paid back more than was left of its payment. */
  lemma {:induction false} WithinChargeExactlyWhen(s: State, steps: seq<Attempt>)
    requires PayInv(s) && NeverMoreThanCharged(s.db)
    ensures NeverMoreThanCharged(Run(s, steps).db) <==> NothingOverpaid(s, steps)
  {
    hide PayInv, NeverMoreThanCharged, Overpays, NothingOverpaid, Perform;
    if steps == [] {
      assert NothingOverpaid(s, []) by { NothingToOverpay(s); }
    } else {
      var n := |steps| - 1;
      var front, last := steps[..n], steps[n];
      WithinChargeExactlyWhen(s, front);
      RunKeepsInv(s, front);
      StepEndsWithinIff(Run(s, front), last);
      NothingOverpaidUpTo(s, steps);
    }
  }

  lemma NothingToOverpay(s: State)
    ensures NothingOverpaid(s, [])
  {
  }

  lemma NothingOverpaidUpTo(s: State, steps: seq<Attempt>)
    requires steps != []
    ensures
      var front, last := steps[..|steps| - 1], steps[|steps| - 1];
      NothingOverpaid(s, steps) <==> NothingOverpaid(s, front) && !Overpays(Run(s, front), last)
  {
    hide Overpays, Run;
    var n := |steps| - 1;
    assert forall i :: 0 <= i < n ==> steps[..n][..i] == steps[..i] && steps[..n][i] == steps[i];
    assert forall i :: 0 <= i < n ==> !Overpays(Run(s, steps[..i]), steps[i]) ==
                                      !Overpays(Run(s, steps[..n][..i]), steps[..n][i]);
  }

  /** The same from the empty tables. */
  lemma {:induction false} RefundsStayWithinExactlyWhen(steps: seq<Attempt>)
    ensures NeverMoreThanCharged(Run(EMPTY, steps).db) <==> NothingOverpaid(EMPTY, steps)
  {
    EmptyInv();
    WithinChargeExactlyWhen(EMPTY, steps);
  }

  /** In every run, contested or not, a requested refund's payment is still Paid exactly when none of its refunds has
      completed. */
  lemma {:induction false} RequestedIsPaidIff(steps: seq<Attempt>, r: RefundId)
    requires r in Run(EMPTY, steps).db.refunds && Run(EMPTY, steps).db.refunds[r].status == RefundRequested
    ensures
      var db := Run(EMPTY, steps).db;
      var p := db.refunds[r].payment;
      p in db.payments && (db.payments[p].status == Paid <==> Completed(db.refunds, p) == {})
  {
    EmptyInv();
    RunKeepsInv(EMPTY, steps);
    var db := Run(EMPTY, steps).db;
    assert RefundInv(db, db.refunds[r]) && RefundsInv(db);
    hide PayInv, Run;
    NoneCompleted(db, db.refunds[r].payment);
  }

  /** In every run, contested or not, each refunded event stands for one completed refund of at most the charge. */
  lemma {:induction false} RefundsAreBounded(steps: seq<Attempt>, p: PaymentId)
    requires p in Run(EMPTY, steps).db.payments
    ensures
      var db := Run(EMPTY, steps).db;
      RefundedAmount(db.ledger, p) <= Count(db.outbox, RefundedEvent, p) * db.payments[p].amount
  {
    EmptyInv();
    RunKeepsInv(EMPTY, steps);
    var db := Run(EMPTY, steps).db;
    assert Count(db.outbox, RefundedEvent, p) == Due(db.payments, db.refunds, RefundedEvent, p);
    assert Within(db.ledger, db.refunds, p, db.payments[p].amount);
  }

  function Next(s: State, op: Op): State {
    Perform(s, 1, op)
  }

  lemma RunSnoc(s: State, steps: seq<Attempt>, op: Op)
    ensures Run(s, steps + [Attempt(op, 1, true)]) == Next(Run(s, steps), op)
  {
    assert (steps + [Attempt(op, 1, true)])[..|steps|] == steps;
  }

  lemma CashIsTaken(order: OrderId, amount: int, view: OrderView)
    requires amount > 0 && view == OrderView(order, Weighing, Unpaid, Some(amount))
    ensures
      var s := Next(EMPTY, OpCreatePayment(PaymentRequest(Some(order), amount, Some(Cash)), Some(view), true, 0));
      && s.db.payments == map[0 := Payment(order, amount, Cash, CashDesk, Paid)] && s.db.refunds == map[]
      && s.db.ledger == [LedgerRow(0, Charge, amount, TxSuccess)] && s.waiting == {} && s.cleared == multiset{}
  {
    assert UniquePaid(map[0 := Payment(order, amount, Cash, CashDesk, Paid)]);
    hide UniquePaid;
  }

  lemma RequestBegins(s: State, t: Ticket)
    requires t.payment in s.db.payments && s.db.payments[t.payment].status == Paid
    requires t.order == s.db.payments[t.payment].order && t.amount == s.db.payments[t.payment].amount
    ensures Next(s, OpBeginRefund(Some(t.payment), true)) == s.(waiting := s.waiting + {t})
  {
  }

  lemma CheckPasses(s: State, t: Ticket, view: OrderView)
    requires t in s.waiting && view.status != Cancelled && !HasLiveRefund(s.db, t.payment)
    ensures Next(s, OpCheckRefund(t, Some(view))) == s.(cleared := s.cleared + multiset{t})
  {
    hide HasLiveRefund;
  }

  lemma InsertPasses(s: State, t: Ticket, id: RefundId)
    requires t in s.cleared && id !in s.db.refunds && t.payment in s.db.payments && t.amount > 0
    ensures Next(s, OpInsertRefund(t, id)) ==
              s.(db := s.db.(refunds := s.db.refunds[id := Refund(t.payment, t.order, t.amount, RefundRequested)]),
                 cleared := s.cleared - multiset{t})
  {
  }

  lemma ApprovalPasses(s: State, id: RefundId)
    requires id in s.db.refunds && s.db.refunds[id].status == RefundRequested
      && s.db.refunds[id].payment in s.db.payments
    ensures
      var r, s' := s.db.refunds[id], Next(s, OpApprove(id, None));
      && s'.db.ledger == s.db.ledger + [LedgerRow(r.payment, Refunding, r.amount, TxSuccess)]
      && s'.db.payments == s.db.payments[r.payment := s.db.payments[r.payment].(status := Refunded)]
      && s'.db.refunds == s.db.refunds[id := r.(status := RefundCompleted)]
  {
  }

  /** Check, check, insert, insert, approve, approve. */
  lemma RaceFrom(before: seq<Attempt>, t: Ticket, view: OrderView) returns (steps: seq<Attempt>)
    requires
      var s := Run(EMPTY, before);
      t in s.waiting && t.payment in s.db.payments && s.db.refunds == map[] && view.status != Cancelled && t.amount > 0
    ensures
      var s, row := Run(EMPTY, before), LedgerRow(t.payment, Refunding, t.amount, TxSuccess);
      && Run(EMPTY, steps).db.ledger == s.db.ledger + [row] + [row]
      && Run(EMPTY, steps).db.payments == s.db.payments[t.payment := s.db.payments[t.payment].(status := Refunded)]
  {
    var s := Run(EMPTY, before);
    assert !HasLiveRefund(s.db, t.payment);
    assert !HasLiveRefund(s.(cleared := s.cleared + multiset{t}).db, t.payment);
    hide Run, Next, HasLiveRefund;
    CheckPasses(s, t, view);
    steps := Extend(before, OpCheckRefund(t, Some(view)));
    CheckPasses(Run(EMPTY, steps), t, view);
    steps := Extend(steps, OpCheckRefund(t, Some(view)));
    InsertPasses(Run(EMPTY, steps), t, 0);
    steps := Extend(steps, OpInsertRefund(t, 0));
    InsertPasses(Run(EMPTY, steps), t, 1);
    steps := Extend(steps, OpInsertRefund(t, 1));
    ApprovalPasses(Run(EMPTY, steps), 0);
    steps := Extend(steps, OpApprove(0, None));
    ApprovalPasses(Run(EMPTY, steps), 1);
    steps := Extend(steps, OpApprove(1, None));
  }

  lemma Extend(steps: seq<Attempt>, op: Op) returns (steps': seq<Attempt>)
    ensures Run(EMPTY, steps') == Next(Run(EMPTY, steps), op)
  {
    RunSnoc(EMPTY, steps, op);
    steps' := steps + [Attempt(op, 1, true)];
  }

  /** Two refund requests that both pass the check before either inserts: both refunds are approved, and any amount that
      was paid is paid back twice. */
  lemma PaidBackTwice(order: OrderId, amount: int) returns (steps: seq<Attempt>)
    requires amount > 0
    ensures
      var db := Run(EMPTY, steps).db;
      && db.payments.Keys == {0} && db.payments[0].order == order && db.payments[0].amount == amount
      && Charges(db.ledger, 0) == 1
      && RefundedAmount(db.ledger, 0) == 2 * amount
  {
    var view, t := OrderView(order, Weighing, Unpaid, Some(amount)), Ticket(0, order, amount);
    assert Run(EMPTY, []) == EMPTY;
    hide Run, Next, Charges, RefundedAmount;
    CashIsTaken(order, amount, view);
    steps := Extend([], OpCreatePayment(PaymentRequest(Some(order), amount, Some(Cash)), Some(view), true, 0));
    RequestBegins(Run(EMPTY, steps), t);
    steps := Extend(steps, OpBeginRefund(Some(0), true));
    steps := RaceFrom(steps, t, view);
    OneChargeTwoRefunds(amount);
  }

  lemma OneChargeTwoRefunds(amount: int)
    ensures
      var charge, row := LedgerRow(0, Charge, amount, TxSuccess), LedgerRow(0, Refunding, amount, TxSuccess);
      Charges([charge] + [row] + [row], 0) == 1 && RefundedAmount([charge] + [row] + [row], 0) == 2 * amount
  {
    var charge, row := LedgerRow(0, Charge, amount, TxSuccess), LedgerRow(0, Refunding, amount, TxSuccess);
    LedgerAfter([], charge);
    assert [] + [charge] == [charge];
    LedgerAfter([charge], row);
    LedgerAfter([charge] + [row], row);
  }
}
