/** The whole order-to-cash system: Core, Payment, both outbox relays, the broker and Reporting, with every step of each
    in any order. An envelope the broker has received may be delivered any number of times, in any order, or never. */
module Pipeline {
  import opened Wrappers
  import opened OrderState
  import opened Events
  import opened Orders
  import Core = CoreDb
  import Catalog
  import CoreInvariants
  import CoreRuns
  import opened Convergence
  import Pay = PaymentDb
  import PaymentInvariants
  import Relay
  import Reporting

  /** `views` are the answers Core has given Payment; a request may still be holding any of them. */
  datatype System = System(clock: int, core: Core.Db, pay: Pay.State, views: set<Pay.OrderView>,
                           coreRelay: Relay.State, payRelay: Relay.State, reports: Reporting.Db)

  datatype Step =
    | Staff(op: Core.Op)
    | AnswerPayment(order: OrderId)
    | PaymentStep(request: Pay.Op)
    | CoreRelayStep(step: Relay.Step)
    | PayRelayStep(step: Relay.Step)
    | PayToCore(row: nat)
    | CoreToReporting(row: nat)
    | PayToReporting(row: nat)

  datatype Attempt = Attempt(step: Step, at: int, commits: bool)

  /** New outbox rows start out pending. */
  function Sync(r: Relay.State, n: nat): Relay.State {
    if n <= |r.rows| then r else r.(rows := r.rows + seq(n - |r.rows|, _ => Relay.NEW_ROW))
  }

  predicate InBroker(r: Relay.State, row: nat) {
    row < |r.rows| && r.rows[row].copies > 0
  }

  function View(core: Core.Db, id: OrderId): Pay.OrderView
    requires id in core.orders
  {
    var o := core.orders[id];
    Pay.OrderView(id, o.status, o.paymentStatus, o.total)
  }

  /** A request only uses an answer that Core gave about its own order. */
  predicate AnswerKnown(views: set<Pay.OrderView>, op: Pay.Op) {
    && (op.OpCreatePayment? && op.view.Some? ==> op.view.value in views && op.req.order == Some(op.view.value.order))
    && (op.OpCheckRefund? && op.view.Some? ==> op.view.value in views && op.ticket.order == op.view.value.order)
  }

  function PayMessage(pay: Pay.State, row: nat): Core.Message
    requires row < |pay.db.outbox|
  {
    Core.Envelope(row, Core.Payment(pay.db.outbox[row].event))
  }

  function Do(s: System, now: int, step: Step): System {
    match step
    case Staff(op) =>
      if op.OpConsume? then s
      else
        var core := Core.Perform(s.core, now, op).db;
        s.(core := core, coreRelay := Sync(s.coreRelay, |core.outbox|))
    case AnswerPayment(id) => if id in s.core.orders then s.(views := s.views + {View(s.core, id)}) else s
    case PaymentStep(op) =>
      if !AnswerKnown(s.views, op) then s
      else
        var pay := Pay.Perform(s.pay, now, op);
        s.(pay := pay, payRelay := Sync(s.payRelay, |pay.db.outbox|))
    case CoreRelayStep(r) => if r.Append? then s else s.(coreRelay := Relay.Do(s.coreRelay, r))
    case PayRelayStep(r) => if r.Append? then s else s.(payRelay := Relay.Do(s.payRelay, r))
    case PayToCore(row) =>
      if InBroker(s.payRelay, row) && row < |s.pay.db.outbox| then
        var core := Core.ConsumePayment(s.core, now, PayMessage(s.pay, row)).db;
        s.(core := core, coreRelay := Sync(s.coreRelay, |core.outbox|))
      else s
    case CoreToReporting(row) =>
      if InBroker(s.coreRelay, row) && row < |s.core.outbox| then
        s.(reports := Reporting.Consume(s.reports, Some(CoreEnvelope(s.core, row))).db)
      else s
    case PayToReporting(row) =>
      if InBroker(s.payRelay, row) && row < |s.pay.db.outbox| then
        s.(reports := Reporting.Consume(s.reports, Some(PayEnvelope(s.pay, row))).db)
      else s
  }

  function CoreEnvelope(core: Core.Db, row: nat): Reporting.Envelope
    requires row < |core.outbox|
  {
    Reporting.Envelope(Reporting.CoreRow(row), core.outbox[row].createdAt, Reporting.OfCore(core.outbox[row].event))
  }

  function PayEnvelope(pay: Pay.State, row: nat): Reporting.Envelope
    requires row < |pay.db.outbox|
  {
    Reporting.Envelope(Reporting.PaymentRow(row), pay.db.outbox[row].createdAt,
      Reporting.OfPayment(pay.db.outbox[row].event))
  }

  /** The clock moves with every attempt; one that does not commit changes nothing else. */
  function Run(s: System, attempts: seq<Attempt>): System {
    if attempts == [] then s
    else
      var before, last := Run(s, attempts[..|attempts| - 1]), attempts[|attempts| - 1];
      (if last.commits then Do(before, last.at, last.step) else before).(clock := last.at)
  }

  ghost predicate Ticking(clock: int, attempts: seq<Attempt>) {
    && (forall i :: 0 <= i < |attempts| ==> clock < attempts[i].at)
    && (forall i, j :: 0 <= i < j < |attempts| ==> attempts[i].at < attempts[j].at)
  }

  function Start(outlets: set<OutletId>, services: map<ServiceId, bool>): System {
    System(0, CoreRuns.Seeded(outlets, services), PaymentInvariants.EMPTY, {}, Relay.EMPTY, Relay.EMPTY,
           Reporting.Db(Reporting.NO_ROWS, {}))
  }

  // ---------------------------------------------------------------- what ties the databases together

  /** Core has finalized this total for the order at some time. */
  ghost predicate WasTotal(core: Core.Db, id: OrderId, total: int) {
    id in core.orders && core.orders[id].total.Some? && CoreInvariants.Weighed(core.outbox, id, total)
  }

  /** Every answer Payment holds, and hence every payment, goes back to a total that Core finalized. */
  ghost predicate AmountsInv(core: Core.Db, pay: Pay.Db, views: set<Pay.OrderView>) {
    && (forall v :: v in views ==> v.order in core.orders && (v.total.Some? ==> WasTotal(core, v.order, v.total.value)))
    && (forall p :: p in pay.payments ==> WasTotal(core, pay.payments[p].order, pay.payments[p].amount))
  }

  /** Core has consumed event m, and it was about this order. */
  predicate Consumed(core: Core.Db, outbox: seq<OutboxRow<PayEvent>>, m: int, id: OrderId) {
    0 <= m < |outbox| && m in core.processed && outbox[m].event.order == id
  }

  ghost predicate HasConsumed(core: Core.Db, outbox: seq<OutboxRow<PayEvent>>, id: OrderId, k: PayKind) {
    exists m :: Consumed(core, outbox, m, id) && outbox[m].event.kind == k
  }

  /** An order in the laundry has a total and was paid for; an order whose refund was consumed is cancelled. */
  ghost predicate LaundryInv(core: Core.Db, outbox: seq<OutboxRow<PayEvent>>) {
    && (forall m :: m in core.processed ==> m < |outbox|)
    && (forall id :: id in core.orders && InLaundry(core.orders[id].status) ==>
          core.orders[id].total.Some? && HasConsumed(core, outbox, id, PaidEvent))
    && (forall id :: id in core.orders && HasConsumed(core, outbox, id, RefundedEvent) ==>
          core.orders[id].status == Cancelled)
  }

  /** As long as no refund of the order has been consumed, its payment_status is the maximum of what has been. */
  ghost predicate ProjectionInv(core: Core.Db, outbox: seq<OutboxRow<PayEvent>>) {
    forall id :: id in core.orders && !HasConsumed(core, outbox, id, RefundedEvent) ==> Projected(core, outbox, id)
  }

  ghost predicate Projected(core: Core.Db, outbox: seq<OutboxRow<PayEvent>>, id: OrderId)
    requires id in core.orders
  {
    var status := core.orders[id].paymentStatus;
    && status != Refunded
    && (forall m :: Consumed(core, outbox, m, id) ==> PayRank(Target(outbox[m].event.kind)) <= PayRank(status))
    && (status == Unpaid || exists m :: Consumed(core, outbox, m, id) && Target(outbox[m].event.kind) == status)
  }

  ghost predicate RelaysInv(s: System) {
    && Relay.RelayInv(s.coreRelay) && |s.coreRelay.rows| == |s.core.outbox|
    && Relay.RelayInv(s.payRelay) && |s.payRelay.rows| == |s.pay.db.outbox|
  }

  /** Reporting has counted an order only after consuming that order's completion. */
  ghost predicate ReportsInv(core: Core.Db, reports: Reporting.Db) {
    && Reporting.CountsMatch(reports.tables)
    && (forall id :: id in reports.tables.orders && reports.tables.orders[id].completedAt.Some? ==>
          CompletionConsumed(core, reports, id))
  }

  ghost predicate CompletionConsumed(core: Core.Db, reports: Reporting.Db, id: OrderId) {
    exists i :: 0 <= i < |core.outbox| && Reporting.CoreRow(i) in reports.processed
                && CoreInvariants.IsCompletion(core.outbox[i].event) && core.outbox[i].event.order == id
  }

  ghost predicate SystemInv(s: System) {
    && CoreInvariants.CoreInv(s.core, s.clock)
    && PaymentInvariants.PayInv(s.pay)
    && RelaysInv(s)
    && AmountsInv(s.core, s.pay.db, s.views)
    && LaundryInv(s.core, s.pay.db.outbox)
    && ProjectionInv(s.core, s.pay.db.outbox)
    && ReportsInv(s.core, s.reports)
  }

  // ---------------------------------------------------------------- growth keeps the ties

  lemma AmountsSurvive(core: Core.Db, core': Core.Db, pay: Pay.Db, views: set<Pay.OrderView>)
    requires AmountsInv(core, pay, views) && CoreInvariants.Grows(core, core')
    ensures AmountsInv(core', pay, views)
  {
    hide CoreInvariants.Weighed, Evolves;
    forall id, total | WasTotal(core, id, total)
      ensures WasTotal(core', id, total)
    {
      TotalSurvives(core, core', id, total);
    }
  }

  lemma TotalSurvives(core: Core.Db, core': Core.Db, id: OrderId, total: int)
    requires WasTotal(core, id, total) && CoreInvariants.Grows(core, core')
    ensures WasTotal(core', id, total)
  {
    CoreInvariants.StillWeighed(core.outbox, core'.outbox, id, total);
  }

  lemma ReportsSurvive(core: Core.Db, core': Core.Db, reports: Reporting.Db)
    requires ReportsInv(core, reports) && core.outbox <= core'.outbox
    ensures ReportsInv(core', reports)
  {
    forall id | id in reports.tables.orders && reports.tables.orders[id].completedAt.Some?
      ensures CompletionConsumed(core', reports, id)
    {
      assert CompletionConsumed(core, reports, id);
      var i :| 0 <= i < |core.outbox| && Reporting.CoreRow(i) in reports.processed
               && CoreInvariants.IsCompletion(core.outbox[i].event) && core.outbox[i].event.order == id;
      assert core'.outbox[i] == core.outbox[i];
    }
  }

  lemma SyncKeepsInv(r: Relay.State, n: nat)
    requires Relay.RelayInv(r) && |r.rows| <= n
    ensures Relay.RelayInv(Sync(r, n)) && |Sync(r, n).rows| == n
  {
    var r' := Sync(r, n);
    forall w | w in r'.workers ensures Relay.WorkerInv(r'.rows, r'.workers[w]) {
      assert Relay.WorkerInv(r.rows, r.workers[w]);
    }
  }

  /** What Core has consumed does not change when the outbox grows. */
  lemma ConsumedSurvives(core: Core.Db, outbox: seq<OutboxRow<PayEvent>>, outbox': seq<OutboxRow<PayEvent>>,
                         id: OrderId, k: PayKind)
    requires outbox <= outbox' && forall m :: m in core.processed ==> m < |outbox|
    ensures HasConsumed(core, outbox, id, k) <==> HasConsumed(core, outbox', id, k)
    ensures forall m :: Consumed(core, outbox, m, id) <==> Consumed(core, outbox', m, id)
  {
    assert forall m :: 0 <= m < |outbox| ==> outbox'[m] == outbox[m];
    if HasConsumed(core, outbox, id, k) {
      var m :| Consumed(core, outbox, m, id) && outbox[m].event.kind == k;
      assert Consumed(core, outbox', m, id);
    }
    if HasConsumed(core, outbox', id, k) {
      var m :| Consumed(core, outbox', m, id) && outbox'[m].event.kind == k;
      assert Consumed(core, outbox, m, id);
    }
  }

  lemma OutboxGrowthKeepsTies(core: Core.Db, outbox: seq<OutboxRow<PayEvent>>, outbox': seq<OutboxRow<PayEvent>>)
    requires LaundryInv(core, outbox) && ProjectionInv(core, outbox) && outbox <= outbox'
    ensures LaundryInv(core, outbox') && ProjectionInv(core, outbox')
  {
    forall id | id in core.orders && InLaundry(core.orders[id].status)
      ensures core.orders[id].total.Some? && HasConsumed(core, outbox', id, PaidEvent)
    {
      ConsumedSurvives(core, outbox, outbox', id, PaidEvent);
    }
    forall id | id in core.orders && HasConsumed(core, outbox', id, RefundedEvent)
      ensures core.orders[id].status == Cancelled
    {
      ConsumedSurvives(core, outbox, outbox', id, RefundedEvent);
    }
    forall id | id in core.orders && !HasConsumed(core, outbox', id, RefundedEvent)
      ensures Projected(core, outbox', id)
    {
      ConsumedSurvives(core, outbox, outbox', id, RefundedEvent);
      assert Projected(core, outbox, id);
    }
  }

  // ---------------------------------------------------------------- the steps

  ghost predicate EventsKnown(core: Core.Db, outbox: seq<OutboxRow<PayEvent>>) {
    forall i :: 0 <= i < |outbox| ==>
      outbox[i].event.order in core.orders && core.orders[outbox[i].event.order].total.Some?
  }

  lemma PaymentEventsAreKnown(s: System)
    requires PaymentInvariants.PayInv(s.pay) && AmountsInv(s.core, s.pay.db, s.views)
    ensures EventsKnown(s.core, s.pay.db.outbox)
  {
  }

  lemma {:induction false} StaffKeepsTies(core: Core.Db, now: int, op: Core.Op, outbox: seq<OutboxRow<PayEvent>>)
    requires !op.OpConsume? && CoreInvariants.Grows(core, Core.Perform(core, now, op).db)
    requires LaundryInv(core, outbox) && ProjectionInv(core, outbox) && EventsKnown(core, outbox)
    ensures LaundryInv(Core.Perform(core, now, op).db, outbox) && ProjectionInv(Core.Perform(core, now, op).db, outbox)
  {
    hide Core.Perform, InLaundry, Target, PayRank, Path;
    var core' := Core.Perform(core, now, op).db;
    CoreInvariants.PerformMarks(core, now, op);
    assert core'.processed == core.processed;
    assert forall m, id :: Consumed(core', outbox, m, id) == Consumed(core, outbox, m, id);
    assert forall id, k :: HasConsumed(core', outbox, id, k) == HasConsumed(core, outbox, id, k);
    forall id | id in core'.orders && InLaundry(core'.orders[id].status)
      ensures core'.orders[id].total.Some? && HasConsumed(core', outbox, id, PaidEvent)
    {
      CoreInvariants.StaffNeverStartsLaundry(core, now, op, id);
    }
    forall id | id in core'.orders && HasConsumed(core', outbox, id, RefundedEvent)
      ensures core'.orders[id].status == Cancelled
    {
      var m :| Consumed(core, outbox, m, id) && outbox[m].event.kind == RefundedEvent;
      assert id in core.orders && Evolves(core.orders[id], core'.orders[id]);
    }
    forall id | id in core'.orders && !HasConsumed(core', outbox, id, RefundedEvent)
      ensures Projected(core', outbox, id)
    {
      if id in core.orders {
        CoreInvariants.OnlyEventsSetStatus(core, now, op, id);
        assert Projected(core, outbox, id);
      } else {
        CoreInvariants.NewOrdersAreUnpaid(core, now, op, id);
      }
    }
  }

  lemma {:induction false} StaffKeepsInv(s: System, now: int, op: Core.Op)
    requires SystemInv(s) && s.clock < now && !op.OpConsume?
    ensures SystemInv(Do(s, now, Staff(op)).(clock := now))
  {
    hide CoreInvariants.CoreInv, PaymentInvariants.PayInv, CoreInvariants.Grows, LaundryInv, ProjectionInv,
      AmountsInv, ReportsInv, Core.Perform, EventsKnown;
    var core' := Core.Perform(s.core, now, op).db;
    CoreInvariants.PerformKeepsInv(s.core, s.clock, now, op);
    PaymentEventsAreKnown(s);
    StaffKeepsTies(s.core, now, op, s.pay.db.outbox);
    CoreGrowthKeepsRest(s, core');
  }

  lemma {:induction false} CoreGrowthKeepsRest(s: System, core': Core.Db)
    requires SystemInv(s) && CoreInvariants.Grows(s.core, core')
    ensures AmountsInv(core', s.pay.db, s.views) && ReportsInv(core', s.reports)
    ensures RelaysInv(s.(core := core', coreRelay := Sync(s.coreRelay, |core'.outbox|)))
  {
    AmountsSurvive(s.core, core', s.pay.db, s.views);
    ReportsSurvive(s.core, core', s.reports);
    SyncKeepsInv(s.coreRelay, |core'.outbox|);
  }

  lemma DeliveryKeepsLaundry(core: Core.Db, now: int, outbox: seq<OutboxRow<PayEvent>>, row: nat)
    requires row < |outbox| && LaundryInv(core, outbox) && EventsKnown(core, outbox)
    ensures LaundryInv(Core.ConsumePayment(core, now, Core.Envelope(row, Core.Payment(outbox[row].event))).db, outbox)
  {
    var e := outbox[row].event;
    var core' := Core.ConsumePayment(core, now, Core.Envelope(row, Core.Payment(e))).db;
    if row !in core.processed {
      var o := core.orders[e.order];
      forall id | id in core'.orders && InLaundry(core'.orders[id].status)
        ensures core'.orders[id].total.Some? && HasConsumed(core', outbox, id, PaidEvent)
      {
        if InLaundry(core.orders[id].status) {
          assert HasConsumed(core, outbox, id, PaidEvent);
          var m :| Consumed(core, outbox, m, id) && outbox[m].event.kind == PaidEvent;
          assert Consumed(core', outbox, m, id);
        } else {
          assert id == e.order && e.kind == PaidEvent;
          assert Consumed(core', outbox, row, id);
        }
      }
      forall id | id in core'.orders && HasConsumed(core', outbox, id, RefundedEvent)
        ensures core'.orders[id].status == Cancelled
      {
        var m :| Consumed(core', outbox, m, id) && outbox[m].event.kind == RefundedEvent;
        if m != row {
          assert Consumed(core, outbox, m, id);
          assert core.orders[id].status == Cancelled;
        }
      }
    }
  }

  lemma {:induction false} DeliveryKeepsProjection(core: Core.Db, now: int, outbox: seq<OutboxRow<PayEvent>>, row: nat)
    requires row < |outbox| && ProjectionInv(core, outbox) && EventsKnown(core, outbox)
    ensures ProjectionInv(Core.ConsumePayment(core, now, Core.Envelope(row, Core.Payment(outbox[row].event))).db,
      outbox)
  {
    var e := outbox[row].event;
    var core' := Core.ConsumePayment(core, now, Core.Envelope(row, Core.Payment(e))).db;
    if row !in core.processed {
      forall id | id in core'.orders && !HasConsumed(core', outbox, id, RefundedEvent)
        ensures Projected(core', outbox, id)
      {
        ProjectionStep(core, now, outbox, row, id);
      }
    }
  }

  lemma ProjectionStep(core: Core.Db, now: int, outbox: seq<OutboxRow<PayEvent>>, row: nat, id: OrderId)
    requires row < |outbox| && ProjectionInv(core, outbox) && row !in core.processed
    requires id in core.orders && outbox[row].event.order in core.orders
    requires !HasConsumed(Core.ConsumePayment(core, now, Core.Envelope(row, Core.Payment(outbox[row].event))).db,
      outbox, id, RefundedEvent)
    ensures
      var core' := Core.ConsumePayment(core, now, Core.Envelope(row, Core.Payment(outbox[row].event))).db;
      id in core'.orders && Projected(core', outbox, id)
  {
    hide Core.ConsumePayment, ProjectionInv;
    var e := outbox[row].event;
    var core' := Core.ConsumePayment(core, now, Core.Envelope(row, Core.Payment(e))).db;
    DeliveryEffect(core, now, row, e, id);
    MoreConsumed(core, core', outbox, id, RefundedEvent);
    WasProjected(core, outbox, id);
    assert forall m :: Consumed(core', outbox, m, id) <==> Consumed(core, outbox, m, id) || (m == row && e.order == id);
    if e.order == id {
      assert Consumed(core', outbox, row, id);
    }
    if core'.orders[id].paymentStatus != Unpaid && core'.orders[id].paymentStatus == core.orders[id].paymentStatus {
      var m :| Consumed(core, outbox, m, id) && Target(outbox[m].event.kind) == core.orders[id].paymentStatus;
      assert Consumed(core', outbox, m, id);
    }
  }

  lemma MoreConsumed(core: Core.Db, core': Core.Db, outbox: seq<OutboxRow<PayEvent>>, id: OrderId, k: PayKind)
    requires core.processed <= core'.processed
    ensures HasConsumed(core, outbox, id, k) ==> HasConsumed(core', outbox, id, k)
  {
    if HasConsumed(core, outbox, id, k) {
      var m :| Consumed(core, outbox, m, id) && outbox[m].event.kind == k;
      assert Consumed(core', outbox, m, id);
    }
  }

  lemma WasProjected(core: Core.Db, outbox: seq<OutboxRow<PayEvent>>, id: OrderId)
    requires ProjectionInv(core, outbox) && id in core.orders && !HasConsumed(core, outbox, id, RefundedEvent)
    ensures Projected(core, outbox, id)
  {
  }

  /** What one first delivery does to an order's payment_status and to the ledger. */
  lemma DeliveryEffect(core: Core.Db, now: int, row: nat, e: PayEvent, id: OrderId)
    requires row !in core.processed && e.order in core.orders && id in core.orders
    ensures
      var core' := Core.ConsumePayment(core, now, Core.Envelope(row, Core.Payment(e))).db;
      && core'.processed == core.processed + {row}
      && id in core'.orders
      && core'.orders[id].paymentStatus ==
           if e.order == id then SettleOne(core.orders[id].paymentStatus, e.kind) else core.orders[id].paymentStatus
  {
  }

  lemma {:induction false} PayToCoreKeepsInv(s: System, now: int, row: nat)
    requires SystemInv(s) && s.clock < now
    ensures SystemInv(Do(s, now, PayToCore(row)).(clock := now))
  {
    hide CoreInvariants.CoreInv, PaymentInvariants.PayInv, CoreInvariants.Grows, LaundryInv, ProjectionInv,
      AmountsInv, ReportsInv, Core.ConsumePayment, EventsKnown;
    CoreInvariants.TimePasses(s.core, s.clock, now);
    if InBroker(s.payRelay, row) && row < |s.pay.db.outbox| {
      var core' := Core.ConsumePayment(s.core, now, PayMessage(s.pay, row)).db;
      CoreInvariants.PerformKeepsInv(s.core, s.clock, now, Core.OpConsume(PayMessage(s.pay, row)));
      PaymentEventsAreKnown(s);
      DeliveryKeepsLaundry(s.core, now, s.pay.db.outbox, row);
      DeliveryKeepsProjection(s.core, now, s.pay.db.outbox, row);
      CoreGrowthKeepsRest(s, core');
    }
  }

  lemma {:induction false} PaymentKeepsInv(s: System, now: int, op: Pay.Op)
    requires SystemInv(s) && s.clock < now && AnswerKnown(s.views, op)
    ensures SystemInv(Do(s, now, PaymentStep(op)).(clock := now))
  {
    hide CoreInvariants.CoreInv, PaymentInvariants.PayInv, LaundryInv, ProjectionInv, ReportsInv, Pay.Perform,
      WasTotal, Relay.RelayInv;
    var pay' := Pay.Perform(s.pay, now, op);
    CoreInvariants.TimePasses(s.core, s.clock, now);
    PaymentInvariants.PerformKeepsInv(s.pay, now, op);
    PaymentInvariants.PerformGrows(s.pay, now, op);
    OutboxGrowthKeepsTies(s.core, s.pay.db.outbox, pay'.db.outbox);
    SyncKeepsInv(s.payRelay, |pay'.db.outbox|);
  }

  lemma AnswerIsTrue(core: Core.Db, clock: int, pay: Pay.Db, views: set<Pay.OrderView>, id: OrderId)
    requires CoreInvariants.CoreInv(core, clock) && AmountsInv(core, pay, views) && id in core.orders
    ensures AmountsInv(core, pay, views + {View(core, id)})
  {
    assert CoreInvariants.OutboxInv(core);
    hide CoreInvariants.CoreInv, CoreInvariants.Weighed;
  }

  lemma {:induction false} AnswerKeepsInv(s: System, now: int, id: OrderId)
    requires SystemInv(s) && s.clock < now && id in s.core.orders
    ensures SystemInv(Do(s, now, AnswerPayment(id)).(clock := now))
  {
    hide CoreInvariants.CoreInv, PaymentInvariants.PayInv, LaundryInv, ProjectionInv, ReportsInv, AmountsInv,
      Relay.RelayInv;
    CoreInvariants.TimePasses(s.core, s.clock, now);
    AnswerIsTrue(s.core, s.clock, s.pay.db, s.views, id);
  }

  lemma {:induction false} RelayKeepsInv(s: System, now: int, step: Step)
    requires SystemInv(s) && s.clock < now && (step.CoreRelayStep? || step.PayRelayStep?)
    ensures SystemInv(Do(s, now, step).(clock := now))
  {
    hide CoreInvariants.CoreInv, PaymentInvariants.PayInv, LaundryInv, ProjectionInv, ReportsInv, AmountsInv,
      Relay.RelayInv;
    CoreInvariants.TimePasses(s.core, s.clock, now);
    if step.CoreRelayStep? {
      Relay.DoKeepsInv(s.coreRelay, step.step);
    } else {
      Relay.DoKeepsInv(s.payRelay, step.step);
    }
  }

  /** A completion in Core's outbox is the only one of its order. */
  lemma CompletionIsTheOne(core: Core.Db, reports: Reporting.Db, row: nat)
    requires CoreInvariants.OutboxInv(core) && row < |core.outbox|
      && CoreInvariants.IsCompletion(core.outbox[row].event)
    requires CompletionConsumed(core, reports, core.outbox[row].event.order)
    ensures Reporting.CoreRow(row) in reports.processed
  {
    var i :| 0 <= i < |core.outbox| && Reporting.CoreRow(i) in reports.processed
             && CoreInvariants.IsCompletion(core.outbox[i].event)
             && core.outbox[i].event.order == core.outbox[row].event.order;
    assert i == row;
  }

  lemma CoreToReportingKeepsReports(core: Core.Db, reports: Reporting.Db, row: nat)
    requires CoreInvariants.OutboxInv(core) && ReportsInv(core, reports) && row < |core.outbox|
    ensures ReportsInv(core, Reporting.Consume(reports, Some(CoreEnvelope(core, row))).db)
  {
    var env := CoreEnvelope(core, row);
    var reports' := Reporting.Consume(reports, Some(env)).db;
    if env.id !in reports.processed {
      forall id | id in reports.tables.orders && Reporting.IsCompletionOf(env, id)
        ensures reports.tables.orders[id].completedAt.None?
      {
        if reports.tables.orders[id].completedAt.Some? {
          CompletionIsTheOne(core, reports, row);
        }
      }
      Reporting.ApplyKeepsCounts(reports.tables, env);
      StillCounted(core, reports, env);
    }
  }

  lemma StillCounted(core: Core.Db, reports: Reporting.Db, env: Reporting.Envelope)
    requires ReportsInv(core, reports)
    requires env.id.CoreRow? ==> env.id.row < |core.outbox| && env == CoreEnvelope(core, env.id.row)
    requires env.id.PaymentRow? ==> env.body.OfPayment?
    requires
      var orders := Reporting.Apply(reports.tables, env).orders;
      forall id :: id in orders && orders[id].completedAt.Some? ==>
        || Reporting.IsCompletionOf(env, id)
        || (id in reports.tables.orders && reports.tables.orders[id].completedAt.Some?)
    ensures
      var reports' := Reporting.Db(Reporting.Apply(reports.tables, env), reports.processed + {env.id});
      forall id :: id in reports'.tables.orders && reports'.tables.orders[id].completedAt.Some? ==>
        CompletionConsumed(core, reports', id)
  {
    hide Reporting.Apply;
    var reports' := Reporting.Db(Reporting.Apply(reports.tables, env), reports.processed + {env.id});
    forall id | id in reports'.tables.orders && reports'.tables.orders[id].completedAt.Some?
      ensures CompletionConsumed(core, reports', id)
    {
      if Reporting.IsCompletionOf(env, id) {
        var i := env.id.row;
        assert Reporting.CoreRow(i) in reports'.processed && CoreInvariants.IsCompletion(core.outbox[i].event);
      } else {
        assert CompletionConsumed(core, reports, id);
        var i :| 0 <= i < |core.outbox| && Reporting.CoreRow(i) in reports.processed
                 && CoreInvariants.IsCompletion(core.outbox[i].event) && core.outbox[i].event.order == id;
        assert Reporting.CoreRow(i) in reports'.processed;
      }
    }
  }

  lemma PayToReportingKeepsReports(core: Core.Db, reports: Reporting.Db, row: nat, e: OutboxRow<PayEvent>)
    requires ReportsInv(core, reports)
    ensures
      var env := Reporting.Envelope(Reporting.PaymentRow(row), e.createdAt, Reporting.OfPayment(e.event));
      ReportsInv(core, Reporting.Consume(reports, Some(env)).db)
  {
    hide Reporting.Apply;
    var env := Reporting.Envelope(Reporting.PaymentRow(row), e.createdAt, Reporting.OfPayment(e.event));
    Reporting.ApplyKeepsCounts(reports.tables, env);
    StillCounted(core, reports, env);
  }

  lemma {:induction false} NewReportsKeepInv(s: System, now: int, reports: Reporting.Db)
    requires SystemInv(s) && s.clock < now && ReportsInv(s.core, reports)
    ensures SystemInv(s.(reports := reports, clock := now))
  {
    CoreInvariants.TimePasses(s.core, s.clock, now);
    hide CoreInvariants.CoreInv, PaymentInvariants.PayInv, LaundryInv, ProjectionInv, AmountsInv, ReportsInv, RelaysInv;
    assert RelaysInv(s.(reports := reports, clock := now)) by { SameRelays(s, s.(reports := reports, clock := now)); }
  }

  lemma SameRelays(s: System, s': System)
    requires RelaysInv(s) && s' == s.(reports := s'.reports, clock := s'.clock)
    ensures RelaysInv(s')
  {
  }

  lemma ReportingStep(s: System, now: int, row: nat)
    ensures
      Do(s, now, CoreToReporting(row)) ==
        if InBroker(s.coreRelay, row) && row < |s.core.outbox|
        then s.(reports := Reporting.Consume(s.reports, Some(CoreEnvelope(s.core, row))).db) else s
    ensures
      Do(s, now, PayToReporting(row)) ==
        if InBroker(s.payRelay, row) && row < |s.pay.db.outbox|
        then s.(reports := Reporting.Consume(s.reports, Some(PayEnvelope(s.pay, row))).db) else s
  {
    hide Reporting.Consume, Core.Perform, Core.ConsumePayment, Pay.Perform, Relay.Do, InBroker, CoreEnvelope,
      PayEnvelope;
  }

  lemma {:induction false} CoreToReportingKeepsInv(s: System, now: int, row: nat)
    requires SystemInv(s) && s.clock < now
    ensures SystemInv(Do(s, now, CoreToReporting(row)).(clock := now))
  {
    assert CoreInvariants.OutboxInv(s.core) && ReportsInv(s.core, s.reports);
    hide SystemInv, ReportsInv, CoreInvariants.OutboxInv, Reporting.Consume, Do, InBroker, CoreEnvelope;
    ReportingStep(s, now, row);
    if row < |s.core.outbox| {
      CoreToReportingKeepsReports(s.core, s.reports, row);
    }
    NewReportsKeepInv(s, now, Do(s, now, CoreToReporting(row)).reports);
  }

  lemma {:induction false} PayToReportingKeepsInv(s: System, now: int, row: nat)
    requires SystemInv(s) && s.clock < now
    ensures SystemInv(Do(s, now, PayToReporting(row)).(clock := now))
  {
    assert ReportsInv(s.core, s.reports);
    hide SystemInv, ReportsInv, Reporting.Consume, Do, InBroker;
    ReportingStep(s, now, row);
    if row < |s.pay.db.outbox| {
      PayToReportingKeepsReports(s.core, s.reports, row, s.pay.db.outbox[row]);
    }
    NewReportsKeepInv(s, now, Do(s, now, PayToReporting(row)).reports);
  }

  lemma {:induction false} DoKeepsInv(s: System, now: int, step: Step)
    requires SystemInv(s) && s.clock < now
    ensures SystemInv(Do(s, now, step).(clock := now))
  {
    hide SystemInv;
    TimePasses(s, now);
    match step
    case Staff(op) =>
      if !op.OpConsume? {
        StaffKeepsInv(s, now, op);
      }
    case AnswerPayment(id) =>
      if id in s.core.orders {
        AnswerKeepsInv(s, now, id);
      }
    case PaymentStep(op) =>
      if AnswerKnown(s.views, op) {
        PaymentKeepsInv(s, now, op);
      }
    case CoreRelayStep(r) => RelayKeepsInv(s, now, step);
    case PayRelayStep(r) => RelayKeepsInv(s, now, step);
    case PayToCore(row) => PayToCoreKeepsInv(s, now, row);
    case CoreToReporting(row) => CoreToReportingKeepsInv(s, now, row);
    case PayToReporting(row) => PayToReportingKeepsInv(s, now, row);
  }

  lemma TimePasses(s: System, now: int)
    requires SystemInv(s) && s.clock < now
    ensures SystemInv(s.(clock := now))
  {
    CoreInvariants.TimePasses(s.core, s.clock, now);
  }

  lemma StartInv(outlets: set<OutletId>, services: map<ServiceId, bool>)
    ensures SystemInv(Start(outlets, services))
  {
    CoreRuns.SeededInv(outlets, services);
    PaymentInvariants.EmptyInv();
    forall k
      ensures Reporting.At(Reporting.NO_ROWS, k).count == |Reporting.CompletedOn(Reporting.NO_ROWS.orders, k)|
    {
      assert Reporting.CompletedOn(Reporting.NO_ROWS.orders, k) == {};
    }
  }

  lemma {:induction false} RunKeepsInv(s: System, attempts: seq<Attempt>)
    requires SystemInv(s) && Ticking(s.clock, attempts)
    ensures SystemInv(Run(s, attempts))
    ensures Run(s, attempts).clock == if attempts == [] then s.clock else attempts[|attempts| - 1].at
  {
    hide SystemInv, Do;
    if attempts != [] {
      var front, last := attempts[..|attempts| - 1], attempts[|attempts| - 1];
      RunKeepsInv(s, front);
      var before := Run(s, front);
      if last.commits {
        DoKeepsInv(before, last.at, last.step);
      } else {
        TimePasses(before, last.at);
      }
    }
  }

  /** Core's orders only evolve and its outbox only grows, whatever the rest of the system does. */
  lemma {:induction false} DoGrows(s: System, now: int, step: Step)
    requires SystemInv(s) && s.clock < now
    ensures CoreInvariants.Grows(s.core, Do(s, now, step).core)
  {
    hide CoreInvariants.CoreInv, CoreInvariants.Grows, Core.Perform, Core.ConsumePayment, Pay.Perform, Relay.Do,
      Reporting.Consume;
    CoreInvariants.GrowsReflexive(s.core);
    if step.Staff? {
      CoreInvariants.PerformKeepsInv(s.core, s.clock, now, step.op);
    } else if step.PayToCore? && step.row < |s.pay.db.outbox| {
      var op := Core.OpConsume(PayMessage(s.pay, step.row));
      CoreInvariants.PerformKeepsInv(s.core, s.clock, now, op);
      assert Core.Perform(s.core, now, op).db == Core.ConsumePayment(s.core, now, PayMessage(s.pay, step.row)).db by {
        ConsumeIsPerform(s.core, now, PayMessage(s.pay, step.row));
      }
    }
  }

  lemma ConsumeIsPerform(core: Core.Db, now: int, m: Core.Message)
    ensures Core.Perform(core, now, Core.OpConsume(m)).db == Core.ConsumePayment(core, now, m).db
  {
    hide Core.ConsumePayment;
  }

  lemma {:induction false} RunGrows(s: System, attempts: seq<Attempt>)
    requires SystemInv(s) && Ticking(s.clock, attempts)
    ensures CoreInvariants.Grows(s.core, Run(s, attempts).core)
  {
    hide SystemInv, Do, CoreInvariants.Grows;
    if attempts == [] {
      CoreInvariants.GrowsReflexive(s.core);
    } else {
      var front, last := attempts[..|attempts| - 1], attempts[|attempts| - 1];
      RunGrows(s, front);
      RunKeepsInv(s, front);
      if last.commits {
        DoGrows(Run(s, front), last.at, last.step);
        CoreInvariants.GrowsTransitive(s.core, Run(s, front).core, Do(Run(s, front), last.at, last.step).core);
      }
    }
  }

  // ---------------------------------------------------------------- theorems about every reachable state

  /** A payment for the order with a successful charge of its amount in the ledger. */
  ghost predicate Charged(pay: Pay.Db, id: OrderId, p: PaymentId) {
    && p in pay.payments && pay.payments[p].order == id
    && exists i ::
         && 0 <= i < |pay.ledger|
         && pay.ledger[i] == Pay.LedgerRow(p, Pay.Charge, pay.payments[p].amount, Pay.TxSuccess)
  }

  lemma {:induction false} CountedIfPresent(outbox: seq<OutboxRow<PayEvent>>, m: nat)
    requires m < |outbox|
    ensures PaymentInvariants.Count(outbox, outbox[m].event.kind, outbox[m].event.payment) >= 1
  {
    if m < |outbox| - 1 {
      CountedIfPresent(outbox[..|outbox| - 1], m);
    }
  }

  lemma {:induction false} PresentIfCounted(outbox: seq<OutboxRow<PayEvent>>, k: PayKind, p: PaymentId) returns (m: nat)
    requires PaymentInvariants.Count(outbox, k, p) >= 1
    ensures m < |outbox| && outbox[m].event.kind == k && outbox[m].event.payment == p
  {
    var last := outbox[|outbox| - 1].event;
    if last.kind == k && last.payment == p {
      m := |outbox| - 1;
    } else {
      m := PresentIfCounted(outbox[..|outbox| - 1], k, p);
    }
  }

  lemma {:induction false} ChargePresent(ledger: seq<Pay.LedgerRow>, p: PaymentId) returns (i: nat)
    requires PaymentInvariants.Charges(ledger, p) >= 1
    ensures i < |ledger| && ledger[i].payment == p && ledger[i].kind == Pay.Charge && ledger[i].status == Pay.TxSuccess
  {
    var last := ledger[|ledger| - 1];
    if last.payment == p && last.kind == Pay.Charge && last.status == Pay.TxSuccess {
      i := |ledger| - 1;
    } else {
      i := ChargePresent(ledger[..|ledger| - 1], p);
    }
  }

  /** The status of a payment whose event of this kind is in the outbox. */
  lemma EventTellsStatus(pay: Pay.State, m: nat)
    requires PaymentInvariants.PayInv(pay) && m < |pay.db.outbox|
    ensures
      var e := pay.db.outbox[m].event;
      && e.payment in pay.db.payments && pay.db.payments[e.payment].order == e.order
      && PaymentInvariants.Announced(e.kind, pay.db.payments[e.payment].status)
  {
    var e := pay.db.outbox[m].event;
    CountedIfPresent(pay.db.outbox, m);
    assert PaymentInvariants.Count(pay.db.outbox, e.kind, e.payment) ==
           PaymentInvariants.Due(pay.db.payments, pay.db.refunds, e.kind, e.payment);
    PaymentInvariants.NoneCompleted(pay.db, e.payment);
  }

  /** End-to-end safety: in every reachable state an order in the laundry or beyond is Paid, has every item weighed and
      a total, and Payment holds a payment for it with a successful charge of that payment's amount. */
  lemma {:induction false} LaundryIsPaidFor(outlets: set<OutletId>, services: map<ServiceId, bool>,
                                            attempts: seq<Attempt>, id: OrderId)
    requires Ticking(0, attempts)
    requires
      var core := Run(Start(outlets, services), attempts).core;
      id in core.orders && InLaundry(core.orders[id].status)
    ensures
      var s := Run(Start(outlets, services), attempts);
      var o := s.core.orders[id];
      && o.paymentStatus == Paid
      && o.total.Some? && AllWeighed(o.items)
      && exists p :: Charged(s.pay.db, id, p)
  {
    StartInv(outlets, services);
    RunKeepsInv(Start(outlets, services), attempts);
    var s := Run(Start(outlets, services), attempts);
    ConsumedPaymentIsCharged(s, id);
  }

  lemma ConsumedPaymentIsCharged(s: System, id: OrderId)
    requires PaymentInvariants.PayInv(s.pay) && HasConsumed(s.core, s.pay.db.outbox, id, PaidEvent)
    ensures exists p :: Charged(s.pay.db, id, p)
  {
    var m :| Consumed(s.core, s.pay.db.outbox, m, id) && s.pay.db.outbox[m].event.kind == PaidEvent;
    EventTellsStatus(s.pay, m);
    var p := s.pay.db.outbox[m].event.payment;
    assert PaymentInvariants.Charges(s.pay.db.ledger, p) == 1;
    var i := ChargePresent(s.pay.db.ledger, p);
    assert Charged(s.pay.db, id, p);
  }

  /** Core has consumed every event that Payment has written about the order. */
  ghost predicate AtRest(s: System, id: OrderId) {
    forall m :: 0 <= m < |s.pay.db.outbox| && s.pay.db.outbox[m].event.order == id ==> m in s.core.processed
  }

  /** status is the largest of Unpaid and the statuses of the order's payments. */
  ghost predicate LargestPaymentStatus(pay: Pay.Db, id: OrderId, status: PayStatus) {
    && (forall p :: p in pay.payments && pay.payments[p].order == id ==>
          PayRank(pay.payments[p].status) <= PayRank(status))
    && (status == Unpaid
        || exists p :: p in pay.payments && pay.payments[p].order == id && pay.payments[p].status == status)
  }

  /** Agreement at rest: once Core has consumed every event about an order and none of its payments was refunded, Core's
      payment_status is the maximum of the payments' statuses, however many payments were tried. */
  lemma AgreementAtRest(outlets: set<OutletId>, services: map<ServiceId, bool>, attempts: seq<Attempt>, id: OrderId)
    requires Ticking(0, attempts)
    requires
      var s := Run(Start(outlets, services), attempts);
      && id in s.core.orders && AtRest(s, id)
      && forall p :: p in s.pay.db.payments && s.pay.db.payments[p].order == id ==>
           s.pay.db.payments[p].status != Refunded
    ensures
      var s := Run(Start(outlets, services), attempts);
      LargestPaymentStatus(s.pay.db, id, s.core.orders[id].paymentStatus)
  {
    StartInv(outlets, services);
    RunKeepsInv(Start(outlets, services), attempts);
    RestingStatusIsLargest(Run(Start(outlets, services), attempts), id);
  }

  lemma {:induction false} RestingStatusIsLargest(s: System, id: OrderId)
    requires PaymentInvariants.PayInv(s.pay) && ProjectionInv(s.core, s.pay.db.outbox) && id in s.core.orders
      && AtRest(s, id)
    requires forall p :: p in s.pay.db.payments && s.pay.db.payments[p].order == id ==>
      s.pay.db.payments[p].status != Refunded
    ensures LargestPaymentStatus(s.pay.db, id, s.core.orders[id].paymentStatus)
  {
    var outbox, status, payments := s.pay.db.outbox, s.core.orders[id].paymentStatus, s.pay.db.payments;
    NoRefundConsumed(s, id);
    assert Projected(s.core, outbox, id);
    hide PaymentInvariants.PayInv, ProjectionInv, AtRest;
    forall p | p in payments && payments[p].order == id
      ensures PayRank(payments[p].status) <= PayRank(status)
    {
      AnnouncedStatus(s, id, p);
    }
    if status != Unpaid {
      var m :| Consumed(s.core, outbox, m, id) && Target(outbox[m].event.kind) == status;
      EventTellsStatus(s.pay, m);
      var p := outbox[m].event.payment;
      assert payments[p].status == Refunded || PayRank(payments[p].status) >= PayRank(status);
      AnnouncedStatus(s, id, p);
      assert p in payments && payments[p].order == id && payments[p].status == status;
    }
  }

  lemma NoRefundConsumed(s: System, id: OrderId)
    requires PaymentInvariants.PayInv(s.pay)
    requires forall p :: p in s.pay.db.payments && s.pay.db.payments[p].order == id ==>
      s.pay.db.payments[p].status != Refunded
    ensures !HasConsumed(s.core, s.pay.db.outbox, id, RefundedEvent)
  {
    hide PaymentInvariants.PayInv;
    forall m | Consumed(s.core, s.pay.db.outbox, m, id) ensures s.pay.db.outbox[m].event.kind != RefundedEvent {
      EventTellsStatus(s.pay, m);
    }
  }

  /** A payment's own status has been announced, and at rest Core has consumed the announcement. */
  lemma {:induction false} AnnouncedStatus(s: System, id: OrderId, p: PaymentId)
    requires PaymentInvariants.PayInv(s.pay) && AtRest(s, id)
    requires p in s.pay.db.payments && s.pay.db.payments[p].order == id && s.pay.db.payments[p].status != Refunded
    ensures s.pay.db.payments[p].status != Unpaid
    ensures
      exists m ::
        Consumed(s.core, s.pay.db.outbox, m, id)
        && Target(s.pay.db.outbox[m].event.kind) == s.pay.db.payments[p].status
  {
    var outbox, payments := s.pay.db.outbox, s.pay.db.payments;
    var k := match payments[p].status case Failed => FailedEvent case Paid => PaidEvent case _ => CreatedEvent;
    assert payments[p].status != Unpaid;
    assert PaymentInvariants.Count(outbox, k, p) == PaymentInvariants.Due(payments, s.pay.db.refunds, k, p);
    var m := PresentIfCounted(outbox, k, p);
    assert outbox[m].event.order == payments[p].order by {
      assert PaymentInvariants.EventsInv(payments, s.pay.db.refunds, outbox);
    }
    hide PaymentInvariants.PayInv;
    assert Consumed(s.core, outbox, m, id);
  }

  /** Counted once: each day's order_count at an outlet is exactly the number of orders Reporting holds as completed
      then and there, each of them completed in Core, whose outbox never holds two completions of one order. */
  lemma {:induction false} OrdersAreCountedOnce(outlets: set<OutletId>, services: map<ServiceId, bool>,
                                                attempts: seq<Attempt>)
    requires Ticking(0, attempts)
    ensures
      var s := Run(Start(outlets, services), attempts);
      && (forall k :: Reporting.At(s.reports.tables, k).count == |Reporting.CompletedOn(s.reports.tables.orders, k)|)
      && (forall k, id :: id in Reporting.CompletedOn(s.reports.tables.orders, k) ==>
            id in s.core.orders && CompletionConsumed(s.core, s.reports, id)
              && Rank(s.core.orders[id].status) >= Rank(Completed))
      && (forall i, j :: 0 <= i < j < |s.core.outbox| && CoreInvariants.IsCompletion(s.core.outbox[i].event)
                         && CoreInvariants.IsCompletion(s.core.outbox[j].event) ==>
            s.core.outbox[i].event.order != s.core.outbox[j].event.order)
  {
    StartInv(outlets, services);
    RunKeepsInv(Start(outlets, services), attempts);
    var s := Run(Start(outlets, services), attempts);
    assert CoreInvariants.OutboxInv(s.core);
    forall k, id | id in Reporting.CompletedOn(s.reports.tables.orders, k)
      ensures id in s.core.orders && CompletionConsumed(s.core, s.reports, id)
        && Rank(s.core.orders[id].status) >= Rank(Completed)
    {
      assert CompletionConsumed(s.core, s.reports, id);
    }
  }

  /** What Reporting is handed in the course of a run. */
  function Received(s: System, attempts: seq<Attempt>): seq<Reporting.Attempt> {
    if attempts == [] then []
    else
      var before, last := Run(s, attempts[..|attempts| - 1]), attempts[|attempts| - 1];
      Received(s, attempts[..|attempts| - 1]) +
        match last.step
        case CoreToReporting(row) =>
          if InBroker(before.coreRelay, row) && row < |before.core.outbox|
          then [Reporting.Attempt(Some(CoreEnvelope(before.core, row)), last.commits)] else []
        case PayToReporting(row) =>
          if InBroker(before.payRelay, row) && row < |before.pay.db.outbox|
          then [Reporting.Attempt(Some(PayEnvelope(before.pay, row)), last.commits)] else []
        case _ => []
  }

  lemma {:induction false} ReportsFollowReceived(s: System, attempts: seq<Attempt>)
    ensures Run(s, attempts).reports == Reporting.Run(s.reports, Received(s, attempts))
  {
    hide Reporting.Consume, Core.Perform, Core.ConsumePayment, Pay.Perform, Relay.Do;
    if attempts != [] {
      var front := attempts[..|attempts| - 1];
      ReportsFollowReceived(s, front);
      var earlier, all := Received(s, front), Received(s, attempts);
      if |all| == |earlier| + 1 {
        assert all[..|earlier|] == earlier;
      } else {
        assert all == earlier;
      }
    }
  }

  /** In every reachable state, at rest or not, Reporting counts an order - on some day, at some outlet - exactly when
      it consumed the order's completion after the order's creation. */
  lemma {:induction false} OrdersAreCountedExactlyWhen(outlets: set<OutletId>, services: map<ServiceId, bool>,
                                                       attempts: seq<Attempt>, id: OrderId)
    ensures
      var s := Run(Start(outlets, services), attempts);
      (exists k :: id in Reporting.CompletedOn(s.reports.tables.orders, k)) <==>
        Reporting.CreatedThenCompleted(Reporting.FirstSuccesses(Received(Start(outlets, services), attempts)), id)
  {
    hide Run, Received;
    var s, received := Run(Start(outlets, services), attempts), Received(Start(outlets, services), attempts);
    ReportsFollowReceived(Start(outlets, services), attempts);
    Reporting.RedeliveryIsInvisible(received);
    Reporting.CountedExactlyWhen(Reporting.FirstSuccesses(received), id);
    var orders := s.reports.tables.orders;
    if id in orders && orders[id].completedAt.Some? {
      assert id in Reporting.CompletedOn(orders,
        Reporting.Key(Reporting.Day(orders[id].completedAt.value), orders[id].outlet));
    }
  }

  predicate PositiveIfRefund(a: Reporting.Attempt) {
    a.message.Some? && a.message.value.body.OfPayment? && a.message.value.body.pay.kind == RefundedEvent ==>
      a.message.value.body.pay.amount > 0
  }

  lemma {:induction false} ReceivedRefundsArePositive(s: System, attempts: seq<Attempt>)
    requires SystemInv(s) && Ticking(s.clock, attempts)
    ensures forall a :: a in Received(s, attempts) ==> PositiveIfRefund(a)
  {
    hide SystemInv, Do;
    if attempts != [] {
      var front, last := attempts[..|attempts| - 1], attempts[|attempts| - 1];
      ReceivedRefundsArePositive(s, front);
      RunKeepsInv(s, front);
      RefundEventsArePositive(Run(s, front));
    }
  }

  lemma {:induction false} RefundEventsArePositive(s: System)
    requires SystemInv(s)
    ensures forall i :: 0 <= i < |s.pay.db.outbox| && s.pay.db.outbox[i].event.kind == RefundedEvent ==>
      s.pay.db.outbox[i].event.amount > 0
  {
    assert PaymentInvariants.EventsInv(s.pay.db.payments, s.pay.db.refunds, s.pay.db.outbox);
    hide SystemInv;
  }

  lemma {:induction false} FirstSuccessesStayPositive(received: seq<Reporting.Attempt>)
    requires forall a :: a in received ==> PositiveIfRefund(a)
    ensures Reporting.PositiveRefunds(Reporting.FirstSuccesses(received))
  {
    if received != [] {
      var front, last := received[..|received| - 1], received[|received| - 1];
      FirstSuccessesStayPositive(front);
      assert PositiveIfRefund(last);
    }
  }

  /** In every reachable state, on a day and at an outlet with sales, Reporting's refunded_amount agrees with its refund
      summary exactly when it consumed no refund of that day and outlet before the first completion. */
  lemma {:induction false} RefundedAmountAgreesExactlyWhen(outlets: set<OutletId>, services: map<ServiceId, bool>,
                                                           attempts: seq<Attempt>, k: Reporting.Key)
    requires Ticking(0, attempts) && k in Run(Start(outlets, services), attempts).reports.tables.sales
    ensures
      var t := Run(Start(outlets, services), attempts).reports.tables;
      t.sales[k].refunded == Reporting.At(t, k).refundAmount <==>
        !Reporting.RefundedEarly(Reporting.FirstSuccesses(Received(Start(outlets, services), attempts)), k)
  {
    hide Run, Received, SystemInv;
    var received := Received(Start(outlets, services), attempts);
    StartInv(outlets, services);
    ReceivedRefundsArePositive(Start(outlets, services), attempts);
    FirstSuccessesStayPositive(received);
    ReportsFollowReceived(Start(outlets, services), attempts);
    Reporting.RedeliveryIsInvisible(received);
    Reporting.RefundedAmountAgreesExactlyWhen(Reporting.FirstSuccesses(received), k);
  }

  /** Every payment's amount is a total that some FinalizeWeighing of its order announced; it is still the order's total
      exactly when it is what the last of them announced. */
  lemma {:induction false} PaymentsMatchAFinalizedTotal(outlets: set<OutletId>, services: map<ServiceId, bool>,
                                                        attempts: seq<Attempt>, p: PaymentId)
    requires Ticking(0, attempts) && p in Run(Start(outlets, services), attempts).pay.db.payments
    ensures
      var s := Run(Start(outlets, services), attempts);
      var payment := s.pay.db.payments[p];
      && payment.order in s.core.orders && s.core.orders[payment.order].total.Some?
      && CoreInvariants.Weighed(s.core.outbox, payment.order, payment.amount)
      && (s.core.orders[payment.order].total == Some(payment.amount) <==>
            CoreInvariants.LastTotal(s.core.outbox, payment.order) == Some(payment.amount))
  {
    hide CoreInvariants.StateInv, CoreInvariants.RequestsInv, PaymentInvariants.PayInv, LaundryInv, ProjectionInv,
      ReportsInv, RelaysInv, Run;
    StartInv(outlets, services);
    RunKeepsInv(Start(outlets, services), attempts);
    var s := Run(Start(outlets, services), attempts);
    assert WasTotal(s.core, s.pay.db.payments[p].order, s.pay.db.payments[p].amount);
  }

  /** FinalizeWeighing has no status guard. Whatever the order's status, and whether or not it is paid, finalizing it
      again keeps its total exactly when the weighed sum, the tax on it at the rate now in force and the fees come to
      what they came to before. */
  lemma {:induction false} RefinalizingKeepsTheTotalIff(core: Core.Db, clock: int, now: int, id: OrderId,
                                                        pickupFee: Option<int>, deliveryFee: Option<int>)
    requires CoreInvariants.CoreInv(core, clock) && id in core.orders && core.orders[id].total.Some?
    requires Core.FinalizeWeighing(core, now, id, pickupFee, deliveryFee).reply == Core.Accepted
    ensures
      var o, o' := core.orders[id], Core.FinalizeWeighing(core, now, id, pickupFee, deliveryFee).db.orders[id];
      var sum := SumSubtotals(o.items);
      && o'.status == o.status && o'.paymentStatus == o.paymentStatus
      && (o'.total == o.total <==>
            sum + TaxOn(sum, Catalog.ActiveTax(core.taxRates).value)
            + FeeOr(pickupFee, o.pickupFee) + FeeOr(deliveryFee, o.deliveryFee)
            == o.subtotal.value + o.tax + o.pickupFee + o.deliveryFee)
  {
    assert MoneyInv(core.orders[id]) by { assert OrderInv(core.orders[id]); }
    hide CoreInvariants.CoreInv, SumSubtotals, TaxOn, Catalog.ActiveTax, AllWeighed;
  }

  /** The order has a total, and the tables allow another one. */
  ghost predicate Ready(core: Core.Db, id: OrderId) {
    && id in core.orders && core.orders[id].total.Some?
    && var o, rate := core.orders[id], Catalog.ActiveTax(core.taxRates);
       && o.discount >= 0 && o.deliveryFee >= 0 && AllWeighed(o.items)
       && rate.Some? && rate.value >= 0.0
       && SumSubtotals(o.items) >= 0 && TaxOn(SumSubtotals(o.items), rate.value) >= 0
  }

  lemma ReadyToFinalize(core: Core.Db, clock: int, id: OrderId)
    requires CoreInvariants.CoreInv(core, clock) && id in core.orders && core.orders[id].total.Some?
    ensures Ready(core, id)
  {
    var o := core.orders[id];
    assert OrderInv(o) && Catalog.TaxTimeline(core.taxRates, clock);
    Catalog.TaxAlwaysActive(core.taxRates, clock);
    SubtotalsNearWorth(o.items);
    hide CoreInvariants.CoreInv, SumSubtotals, ExactWorth, TaxOn, Catalog.ActiveTax, InLaundry, Path;
    TaxIsNonNegative(SumSubtotals(o.items), core.taxRates[|core.taxRates| - 1].rate);
  }

  lemma FinalizedPasses(o: Order, rate: real, fee: int)
    requires o.discount >= 0 && o.deliveryFee >= 0 && rate >= 0.0 && fee >= o.discount
    requires SumSubtotals(o.items) >= 0 && TaxOn(SumSubtotals(o.items), rate) >= 0
    ensures
      var done, sum := Finalize(o, rate, Some(fee), None), SumSubtotals(o.items);
      && PassesChecks(done) && done.status == o.status
      && done.total == Some(sum - o.discount + o.deliveryFee + TaxOn(sum, rate) + fee)
  {
    hide SumSubtotals, TaxOn;
  }

  /** What finalizing an order that has a total comes to, when the pickup fee covers the discount. */
  lemma RefinalizedTotal(core: Core.Db, now: int, id: OrderId, fee: int)
    requires Ready(core, id) && fee >= core.orders[id].discount
    ensures
      var o, sum := core.orders[id], SumSubtotals(core.orders[id].items);
      var outcome := Core.FinalizeWeighing(core, now, id, Some(fee), None);
      && outcome.reply == Core.Accepted
      && outcome.db.orders[id].status == o.status
      && outcome.db.orders[id].total ==
           Some(sum - o.discount + o.deliveryFee + TaxOn(sum, Catalog.ActiveTax(core.taxRates).value) + fee)
  {
    hide SumSubtotals, TaxOn, Catalog.ActiveTax, AllWeighed, Finalize, PassesChecks;
    FinalizedPasses(core.orders[id], Catalog.ActiveTax(core.taxRates).value, fee);
  }

  /** So whatever was paid, an order that has a total can always be finalized to another one, and keeps its status. */
  lemma RefinalizingCanLeaveTheAmount(core: Core.Db, clock: int, now: int, id: OrderId, amount: int) returns (fee: int)
    requires CoreInvariants.CoreInv(core, clock) && id in core.orders && core.orders[id].total.Some?
    ensures
      var outcome := Core.FinalizeWeighing(core, now, id, Some(fee), None);
      && outcome.reply == Core.Accepted
      && outcome.db.orders[id].status == core.orders[id].status
      && outcome.db.orders[id].total != Some(amount)
  {
    ReadyToFinalize(core, clock, id);
    hide CoreInvariants.CoreInv, Core.FinalizeWeighing, SumSubtotals, TaxOn, Catalog.ActiveTax;
    fee := core.orders[id].discount;
    RefinalizedTotal(core, now, id, fee);
    RefinalizedTotal(core, now, id, fee + 1);
    if Core.FinalizeWeighing(core, now, id, Some(fee), None).db.orders[id].total == Some(amount) {
      fee := fee + 1;
    }
  }

  lemma TaxIsNonNegative(subtotal: int, rate: real)
    requires subtotal >= 0 && rate >= 0.0
    ensures TaxOn(subtotal, rate) >= 0
  {
    assert rate / 100.0 * subtotal as real >= 0.0;
  }

  /** A refund that Core has consumed cancels the order for good, whatever arrived before or after it. */
  lemma RefundedOrdersAreCancelled(outlets: set<OutletId>, services: map<ServiceId, bool>, attempts: seq<Attempt>,
                                   id: OrderId)
    requires Ticking(0, attempts)
    requires
      var s := Run(Start(outlets, services), attempts);
      id in s.core.orders && AtRest(s, id)
      && exists p ::
           p in s.pay.db.payments && s.pay.db.payments[p].order == id && s.pay.db.payments[p].status == Refunded
    ensures Run(Start(outlets, services), attempts).core.orders[id].status == Cancelled
  {
    StartInv(outlets, services);
    RunKeepsInv(Start(outlets, services), attempts);
    RestingRefundIsCancelled(Run(Start(outlets, services), attempts), id);
  }

  lemma RestingRefundIsCancelled(s: System, id: OrderId)
    requires PaymentInvariants.PayInv(s.pay) && LaundryInv(s.core, s.pay.db.outbox) && id in s.core.orders
      && AtRest(s, id)
    requires
      exists p :: p in s.pay.db.payments && s.pay.db.payments[p].order == id && s.pay.db.payments[p].status == Refunded
    ensures s.core.orders[id].status == Cancelled
  {
    var p :| p in s.pay.db.payments && s.pay.db.payments[p].order == id && s.pay.db.payments[p].status == Refunded;
    assert PaymentInvariants.Count(s.pay.db.outbox, RefundedEvent, p) ==
           PaymentInvariants.Due(s.pay.db.payments, s.pay.db.refunds, RefundedEvent, p);
    assert PaymentInvariants.Completed(s.pay.db.refunds, p) != {};
    var m := PresentIfCounted(s.pay.db.outbox, RefundedEvent, p);
    assert Consumed(s.core, s.pay.db.outbox, m, id);
    assert HasConsumed(s.core, s.pay.db.outbox, id, RefundedEvent);
  }
}
