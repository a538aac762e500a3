/** Payment's database as one value, what each of its transactions does to it, and the state they run in: a refund
    request reads its payment, waits for Core, looks for a live refund and inserts, in four separate steps. */
module PaymentDb {
  import opened Wrappers
  import opened OrderState
  import opened Events

  datatype Method = Cash | Qris | Transfer | Card
  datatype Provider = CashDesk | Dummy

  datatype Payment = Payment(order: OrderId, amount: int, via: Method, provider: Provider, status: PayStatus)

  datatype TxKind = Charge | Refunding
  datatype TxStatus = TxPending | TxSuccess | TxFailed

  /** A row of payment_transactions. */
  datatype LedgerRow = LedgerRow(payment: PaymentId, kind: TxKind, amount: int, status: TxStatus)

  datatype RefundStatus =
    | RefundRequested | RefundApproved | RefundProcessing | RefundCompleted | RefundFailed | RefundRejected
  datatype Refund = Refund(payment: PaymentId, order: OrderId, amount: int, status: RefundStatus)

  datatype Db = Db(payments: map<PaymentId, Payment>, ledger: seq<LedgerRow>, refunds: map<RefundId, Refund>,
                   outbox: seq<OutboxRow<PayEvent>>)

  datatype Reply =
    | Accepted | Validation | DependencyUnavailable | InvalidOrderState | AlreadyPaid | AmountMismatch
    | GatewayUnavailable
    | NotFound | NotAGatewayPayment | InvalidState | NotEligible | Internal

  datatype Outcome = Outcome(db: Db, reply: Reply)

  /** What Core's internal endpoint answered about an order, possibly some time ago. */
  datatype OrderView = OrderView(order: OrderId, status: Status, paymentStatus: PayStatus, total: Option<int>)

  datatype PaymentRequest = PaymentRequest(order: Option<OrderId>, amount: int, via: Option<Method>)

  function Emit(db: Db, e: PayEvent, now: int): Db {
    db.(outbox := db.outbox + [OutboxRow(e, now)])
  }

  /** The partial unique index on payments (order_id) WHERE status = 'PAID'. */
  predicate UniquePaid(payments: map<PaymentId, Payment>) {
    forall p, q ::
      (p in payments && q in payments && payments[p].status == Paid && payments[q].status == Paid
       && payments[p].order == payments[q].order) ==> p == q
  }

  /** A transaction whose last state violates the index is rolled back. */
  function CommitUnlessTaken(db: Db, db': Db): Outcome {
    if UniquePaid(db'.payments) then Outcome(db', Accepted) else Outcome(db, AlreadyPaid)
  }

  // ---------------------------------------------------------------- POST /payments

  /** What is checked before the transaction. `view` is None when Core could not be reached or does not know the order;
      `gatewayUp` is what Provider.Charge answers for a payment that is not cash. */
  function Refusal(req: PaymentRequest, view: Option<OrderView>, gatewayUp: bool): Option<Reply> {
    if req.order.None? || req.amount <= 0 || req.via.None? then Some(Validation)
    else if view.None? then Some(DependencyUnavailable)
    else if view.value.status != Weighing || view.value.total.None? then Some(InvalidOrderState)
    else if view.value.paymentStatus == Paid then Some(AlreadyPaid)
    else if view.value.total.value != req.amount then Some(AmountMismatch)
    else if req.via.value != Cash && !gatewayUp then Some(GatewayUnavailable)
    else None
  }

  /** `id` is the new row's UUID. */
  function CreatePayment(db: Db, now: int, req: PaymentRequest, view: Option<OrderView>, gatewayUp: bool, id: PaymentId)
    : Outcome
  {
    var refusal := Refusal(req, view, gatewayUp);
    if refusal.Some? then Outcome(db, refusal.value)
    else if id in db.payments then Outcome(db, AlreadyPaid)
    else
      var status := if req.via.value == Cash then Paid else Pending;
      CommitUnlessTaken(db, InsertPayment(db, now, id, req.order.value, req.amount, req.via.value, status))
  }

  function InsertPayment(db: Db, now: int, id: PaymentId, order: OrderId, amount: int, via: Method, status: PayStatus)
    : Db
  {
    var row := Payment(order, amount, via, if via == Cash then CashDesk else Dummy, status);
    var charged := db.(payments := db.payments[id := row],
                       ledger := db.ledger +
                         [LedgerRow(id, Charge, amount, if status == Paid then TxSuccess else TxPending)]);
    var created := Emit(charged, PayEvent(CreatedEvent, id, order, amount), now);
    if status == Paid then Emit(created, PayEvent(PaidEvent, id, order, amount), now) else created
  }

  // ---------------------------------------------------------------- POST /payments/{id}/simulate

  /** `paid` is None when the requested outcome is neither PAID nor FAILED. */
  function SettleGateway(db: Db, now: int, id: PaymentId, paid: Option<bool>): Outcome {
    if paid.None? then Outcome(db, Validation)
    else if id !in db.payments then Outcome(db, NotFound)
    else
      var p := db.payments[id];
      if p.provider != Dummy then Outcome(db, NotAGatewayPayment)
      else if p.status != Pending then Outcome(db, InvalidState)
      else CommitUnlessTaken(db, RecordOutcome(db, now, id, paid.value))
  }

  function RecordOutcome(db: Db, now: int, id: PaymentId, paid: bool): Db
    requires id in db.payments
  {
    var p := db.payments[id];
    Emit(db.(payments := db.payments[id := p.(status := if paid then Paid else Failed)],
             ledger := db.ledger + [LedgerRow(id, Charge, p.amount, if paid then TxSuccess else TxFailed)]),
         PayEvent(if paid then PaidEvent else FailedEvent, id, p.order, p.amount), now)
  }

  // ---------------------------------------------------------------- refunds

  /** What CreateRefund holds while it asks Core about the order. */
  datatype Ticket = Ticket(payment: PaymentId, order: OrderId, amount: int)

  datatype Begun = Proceed(ticket: Ticket) | Stop(reply: Reply)

  function BeginRefund(db: Db, payment: Option<PaymentId>, hasReason: bool): Begun {
    if payment.None? || !hasReason then Stop(Validation)
    else if payment.value !in db.payments then Stop(NotFound)
    else
      var p := db.payments[payment.value];
      if p.status != Paid then Stop(NotEligible) else Proceed(Ticket(payment.value, p.order, p.amount))
  }

  predicate Live(r: Refund) {
    r.status != RefundRejected && r.status != RefundFailed
  }

  predicate HasLiveRefund(db: Db, payment: PaymentId) {
    exists r :: r in db.refunds && db.refunds[r].payment == payment && Live(db.refunds[r])
  }

  /** With Core's answer: the EXISTS query for a live refund, a statement of its own. None lets the request go on. */
  function CheckRefund(db: Db, t: Ticket, view: Option<OrderView>): Option<Reply> {
    if view.None? then Some(DependencyUnavailable)
    else if view.value.status == Cancelled then Some(NotEligible)
    else if HasLiveRefund(db, t.payment) then Some(NotEligible)
    else None
  }

  /** The INSERT, another statement: no constraint forbids a second refund of the payment. */
  function InsertRefund(db: Db, t: Ticket, id: RefundId): Outcome {
    if id in db.refunds || t.payment !in db.payments || t.amount <= 0 then Outcome(db, Internal)
    else Outcome(db.(refunds := db.refunds[id := Refund(t.payment, t.order, t.amount, RefundRequested)]), Accepted)
  }

  function ApproveRefund(db: Db, now: int, id: RefundId, amount: Option<int>): Outcome {
    if id !in db.refunds then Outcome(db, NotFound)
    else
      var r := db.refunds[id];
      if r.status != RefundRequested then Outcome(db, InvalidState)
      else if amount.Some? && (amount.value <= 0 || amount.value > r.amount) then Outcome(db, Validation)
      else Outcome(CompleteRefund(db, now, id, if amount.Some? then amount.value else r.amount), Accepted)
  }

  function CompleteRefund(db: Db, now: int, id: RefundId, amount: int): Db
    requires id in db.refunds
  {
    var r := db.refunds[id];
    Emit(db.(refunds := db.refunds[id := r.(status := RefundCompleted, amount := amount)],
             payments := if r.payment !in db.payments then db.payments
                         else db.payments[r.payment := db.payments[r.payment].(status := Refunded)],
             ledger := db.ledger + [LedgerRow(r.payment, Refunding, amount, TxSuccess)]),
         PayEvent(RefundedEvent, r.payment, r.order, amount), now)
  }

  function RejectRefund(db: Db, id: RefundId, hasReason: bool): Outcome {
    if !hasReason then Outcome(db, Validation)
    else if id !in db.refunds || db.refunds[id].status != RefundRequested then Outcome(db, InvalidState)
    else Outcome(db.(refunds := db.refunds[id := db.refunds[id].(status := RefundRejected)]), Accepted)
  }

  // ---------------------------------------------------------------- one step of Payment

  /** The database and the refund requests under way: `waiting` have read their payment and wait for Core, `cleared`
      have passed the check and not yet inserted. A waiting ticket is kept after use, so that any number of identical
      requests may be waiting at the same time. */
  datatype State = State(db: Db, waiting: set<Ticket>, cleared: multiset<Ticket>)

  datatype Op =
    | OpCreatePayment(req: PaymentRequest, view: Option<OrderView>, gatewayUp: bool, id: PaymentId)
    | OpSettle(id: PaymentId, paid: Option<bool>)
    | OpBeginRefund(payment: Option<PaymentId>, hasReason: bool)
    | OpCheckRefund(ticket: Ticket, view: Option<OrderView>)
    | OpInsertRefund(ticket: Ticket, refund: RefundId)
    | OpAbandonRefund(ticket: Ticket)
    | OpApprove(refund: RefundId, amount: Option<int>)
    | OpReject(refund: RefundId, hasReason: bool)

  function Perform(s: State, now: int, op: Op): State {
    match op
    case OpCreatePayment(req, view, gatewayUp, id) => s.(db := CreatePayment(s.db, now, req, view, gatewayUp, id).db)
    case OpSettle(id, paid) => s.(db := SettleGateway(s.db, now, id, paid).db)
    case OpBeginRefund(payment, hasReason) =>
      var b := BeginRefund(s.db, payment, hasReason);
      if b.Proceed? then s.(waiting := s.waiting + {b.ticket}) else s
    case OpCheckRefund(t, view) =>
      if t in s.waiting && CheckRefund(s.db, t, view).None? then s.(cleared := s.cleared + multiset{t}) else s
    case OpInsertRefund(t, refund) =>
      if t in s.cleared then s.(db := InsertRefund(s.db, t, refund).db, cleared := s.cleared - multiset{t}) else s
    case OpAbandonRefund(t) => s.(cleared := s.cleared - multiset{t})
    case OpApprove(refund, amount) => s.(db := ApproveRefund(s.db, now, refund, amount).db)
    case OpReject(refund, hasReason) => s.(db := RejectRefund(s.db, refund, hasReason).db)
  }
}
