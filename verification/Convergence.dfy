/** What Core's payment_status comes to, as a function of the payment events that arrived. */
module Convergence {
  import opened Wrappers
  import opened OrderState
  import opened Events
  import opened Orders
  import opened CoreDb
  import opened CoreInvariants
  import opened CoreRuns

  function PayRank(s: PayStatus): nat {
    match s case Unpaid => 0 case Pending => 1 case Failed => 2 case Paid => 3 case Refunded => 4
  }

  function Target(k: PayKind): PayStatus {
    match k
    case CreatedEvent => Pending
    case FailedEvent => Failed
    case PaidEvent => Paid
    case RefundedEvent => Refunded
  }

  // ---------------------------------------------------------------- which deliveries count

  predicate Delivers(a: Attempt) {
    a.commits && a.op.OpConsume? && a.op.message.Envelope? && a.op.message.body.Payment?
  }

  /** The (event id, event) pairs that some committed attempt delivered. */
  function Deliveries(steps: seq<Attempt>): set<(nat, PayEvent)> {
    if steps == [] then {}
    else
      var rest, last := Deliveries(steps[..|steps| - 1]), steps[|steps| - 1];
      if Delivers(last) then rest + {(last.op.message.id, last.op.message.body.event)} else rest
  }

  predicate Seen(steps: seq<Attempt>, m: nat) {
    exists d :: d in Deliveries(steps) && d.0 == m
  }

  /** An event id always carries the same event. */
  ghost predicate Consistent(steps: seq<Attempt>) {
    forall d, d' :: d in Deliveries(steps) && d' in Deliveries(steps) && d.0 == d'.0 ==> d == d'
  }

  predicate FirstDelivery(done: set<nat>, before: seq<Attempt>, a: Attempt) {
    Delivers(a) && a.op.message.id !in done && !Seen(before, a.op.message.id)
  }

  /** The events of one order, each where it first arrived. */
  function Arrivals(done: set<nat>, steps: seq<Attempt>, id: OrderId): seq<PayEvent> {
    if steps == [] then []
    else
      var front, last := steps[..|steps| - 1], steps[|steps| - 1];
      Arrivals(done, front, id) +
        (if FirstDelivery(done, front, last) && last.op.message.body.event.order == id then [last.op.message.body.event]
           else [])
  }

  lemma {:induction false} ArrivalsAreDeliveries(done: set<nat>, steps: seq<Attempt>, id: OrderId)
    requires Consistent(steps)
    ensures forall e :: e in Arrivals(done, steps, id) <==>
              e.order == id && exists d :: d in Deliveries(steps) && d.0 !in done && d.1 == e
  {
    if steps != [] {
      var front, last := steps[..|steps| - 1], steps[|steps| - 1];
      assert Deliveries(front) <= Deliveries(steps);
      ArrivalsAreDeliveries(done, front, id);
      if Delivers(last) {
        var d := (last.op.message.id, last.op.message.body.event);
        assert d in Deliveries(steps);
        if Seen(front, d.0) {
          var d' :| d' in Deliveries(front) && d'.0 == d.0;
          assert d' in Deliveries(steps);
        }
      }
    }
  }

  lemma {:induction false} ProcessedWereSeen(db: Db, steps: seq<Attempt>, m: nat)
    requires m in Run(db, steps).processed
    ensures m in db.processed || Seen(steps, m)
  {
    hide Perform;
    if steps != [] {
      var front, last := steps[..|steps| - 1], steps[|steps| - 1];
      DeliveriesGrow(steps);
      if m in Run(db, front).processed {
        ProcessedWereSeen(db, front, m);
        if Seen(front, m) {
          var d :| d in Deliveries(front) && d.0 == m;
          assert d in Deliveries(steps);
        }
      } else {
        PerformMarks(Run(db, front), last.at, last.op);
        assert (m, last.op.message.body.event) in Deliveries(steps);
      }
    }
  }

  lemma {:induction false} SeenAreProcessed(db: Db, steps: seq<Attempt>, d: (nat, PayEvent))
    requires d in Deliveries(steps) && d.1.order in db.orders
    ensures d.0 in Run(db, steps).processed && d.1.order in Run(db, steps).orders
  {
    hide Perform;
    var front, last := steps[..|steps| - 1], steps[|steps| - 1];
    OrdersStay(db, front);
    OrdersStay(db, steps);
    if d in Deliveries(front) {
      SeenAreProcessed(db, front, d);
      PerformKeepsRows(Run(db, front), last.at, last.op);
    } else {
      DeliveryMarks(Run(db, front), last.at, last.op);
    }
  }

  lemma DeliveryMarks(db: Db, now: int, op: Op)
    requires op.OpConsume? && op.message.Envelope? && op.message.body.Payment?
      && op.message.body.event.order in db.orders
    ensures op.message.id in Perform(db, now, op).db.processed
  {
  }

  lemma {:induction false} OrdersStay(db: Db, steps: seq<Attempt>)
    ensures db.orders.Keys <= Run(db, steps).orders.Keys
    ensures db.processed <= Run(db, steps).processed
  {
    if steps != [] {
      hide Perform;
      var last := steps[|steps| - 1];
      OrdersStay(db, steps[..|steps| - 1]);
      PerformKeepsRows(Run(db, steps[..|steps| - 1]), last.at, last.op);
    }
  }

  // ---------------------------------------------------------------- the status follows the arrivals

  function SettleOne(s: PayStatus, k: PayKind): PayStatus {
    match k
    case CreatedEvent => if s == Unpaid then Pending else s
    case FailedEvent => if s == Unpaid || s == Pending then Failed else s
    case PaidEvent => Paid
    case RefundedEvent => if s == Paid then Refunded else s
  }

  function Settle(s: PayStatus, arrivals: seq<PayEvent>): PayStatus {
    if arrivals == [] then s else SettleOne(Settle(s, arrivals[..|arrivals| - 1]), arrivals[|arrivals| - 1].kind)
  }

  lemma DeliverySettles(db: Db, a: Attempt, id: OrderId)
    requires Delivers(a) && id in db.orders
    ensures
      var m, e, db' := a.op.message.id, a.op.message.body.event, Perform(db, a.at, a.op).db;
      && id in db'.orders
      && db'.orders[id].paymentStatus ==
           if m in db.processed || e.order != id then db.orders[id].paymentStatus
           else SettleOne(db.orders[id].paymentStatus, e.kind)
  {
    hide CreateOrder, WeighItem, FinalizeWeighing, ChangeStatus, RequestFulfillment, UpdateFulfillment, CreatePricing,
      SetTaxRate;
  }

  /** Repeats, failures, other orders' events and staff steps are all invisible to an order's payment_status. */
  lemma {:induction false} StatusFollowsArrivals(db: Db, steps: seq<Attempt>, id: OrderId)
    requires id in db.orders && Consistent(steps)
    ensures id in Run(db, steps).orders
    ensures Run(db, steps).orders[id].paymentStatus ==
      Settle(db.orders[id].paymentStatus, Arrivals(db.processed, steps, id))
  {
    hide Perform, Deliveries, SettleOne;
    if steps != [] {
      var front, last := steps[..|steps| - 1], steps[|steps| - 1];
      var before, earlier := Run(db, front), Arrivals(db.processed, front, id);
      DeliveriesGrow(steps);
      StatusFollowsArrivals(db, front, id);
      assert earlier + [] == earlier;
      if Delivers(last) {
        var e := last.op.message.body.event;
        DeliverySettles(before, last, id);
        if e.order == id {
          FirstIffUnprocessed(db, steps);
          assert (earlier + [e])[..|earlier|] == earlier;
        }
      } else if last.commits {
        OnlyEventsSetStatus(before, last.at, last.op, id);
      }
    }
  }

  lemma DeliveriesGrow(steps: seq<Attempt>)
    requires steps != []
    ensures Deliveries(steps[..|steps| - 1]) <= Deliveries(steps)
    ensures var last := steps[|steps| - 1];
      Delivers(last) ==> (last.op.message.id, last.op.message.body.event) in Deliveries(steps)
    ensures Consistent(steps) ==> Consistent(steps[..|steps| - 1])
  {
  }

  /** The ledger tells a first delivery from a repeat. */
  lemma FirstIffUnprocessed(db: Db, steps: seq<Attempt>)
    requires steps != [] && Consistent(steps)
    requires var last := steps[|steps| - 1]; Delivers(last) && last.op.message.body.event.order in db.orders
    ensures
      var front, last := steps[..|steps| - 1], steps[|steps| - 1];
      FirstDelivery(db.processed, front, last) <==> last.op.message.id !in Run(db, front).processed
  {
    var front, last := steps[..|steps| - 1], steps[|steps| - 1];
    var m := last.op.message.id;
    OrdersStay(db, front);
    DeliveriesGrow(steps);
    if m in Run(db, front).processed {
      ProcessedWereSeen(db, front, m);
    } else if Seen(front, m) {
      var d :| d in Deliveries(front) && d.0 == m;
      assert d == (m, last.op.message.body.event);
      SeenAreProcessed(db, front, d);
    }
  }

  // ---------------------------------------------------------------- without refunds: the maximum

  /** m is the largest of s and the targets of the events. */
  ghost predicate IsMaximum(m: PayStatus, s: PayStatus, events: seq<PayEvent>) {
    && PayRank(s) <= PayRank(m)
    && (forall e :: e in events ==> PayRank(Target(e.kind)) <= PayRank(m))
    && (m == s || exists e :: e in events && Target(e.kind) == m)
  }

  lemma {:induction false} SettleIsMaximum(s: PayStatus, events: seq<PayEvent>)
    requires s != Refunded && forall e :: e in events ==> e.kind != RefundedEvent
    ensures IsMaximum(Settle(s, events), s, events)
  {
    if events != [] {
      var front, last := events[..|events| - 1], events[|events| - 1];
      SettleIsMaximum(s, front);
      assert events == front + [last];
      assert last in events;
    }
  }

  lemma MaximumIsUnique(m: PayStatus, m': PayStatus, s: PayStatus, x: seq<PayEvent>, y: seq<PayEvent>)
    requires IsMaximum(m, s, x) && IsMaximum(m', s, y) && forall e :: e in x <==> e in y
    ensures m == m'
  {
  }

  lemma {:induction false} OnlyPaidUndoesRefunded(events: seq<PayEvent>)
    requires forall e :: e in events ==> e.kind != RefundedEvent
    ensures Settle(Refunded, events) == if exists e :: e in events && e.kind == PaidEvent then Paid else Refunded
  {
    if events != [] {
      var front, last := events[..|events| - 1], events[|events| - 1];
      OnlyPaidUndoesRefunded(front);
      assert events == front + [last];
      assert last in events;
    }
  }

  ghost predicate NoRefundFor(steps: seq<Attempt>, id: OrderId) {
    forall d :: d in Deliveries(steps) && d.1.order == id ==> d.1.kind != RefundedEvent
  }

  /** Two runs from one database that deliver the same created, paid and failed events for an order - in any order, any
      number of times, among any other steps and failures - leave it with the same payment_status: the maximum, unless
      it had been refunded before. */
  lemma {:induction false} SameEventsSameStatus(db: Db, a: seq<Attempt>, b: seq<Attempt>, id: OrderId)
    requires id in db.orders
    requires Consistent(a) && Consistent(b) && NoRefundFor(a, id)
    requires forall d: (nat, PayEvent) :: d.1.order == id ==> (d in Deliveries(a) <==> d in Deliveries(b))
    ensures id in Run(db, a).orders && id in Run(db, b).orders
    ensures Run(db, a).orders[id].paymentStatus == Run(db, b).orders[id].paymentStatus
    ensures db.orders[id].paymentStatus != Refunded ==>
              IsMaximum(Run(db, a).orders[id].paymentStatus, db.orders[id].paymentStatus, Arrivals(db.processed, a, id))
  {
    hide Perform, Settle, IsMaximum;
    var s, x, y := db.orders[id].paymentStatus, Arrivals(db.processed, a, id), Arrivals(db.processed, b, id);
    StatusFollowsArrivals(db, a, id);
    StatusFollowsArrivals(db, b, id);
    ArrivalsAreDeliveries(db.processed, a, id);
    ArrivalsAreDeliveries(db.processed, b, id);
    forall e
      ensures e in x <==> e in y
      ensures e in x ==> e.kind != RefundedEvent
    {
      if e in x {
        var d :| d in Deliveries(a) && d.0 !in db.processed && d.1 == e;
        assert d in Deliveries(b);
      }
      if e in y {
        var d :| d in Deliveries(b) && d.0 !in db.processed && d.1 == e;
        assert d in Deliveries(a);
      }
    }
    if s == Refunded {
      OnlyPaidUndoesRefunded(x);
      OnlyPaidUndoesRefunded(y);
    } else {
      SettleIsMaximum(s, x);
      SettleIsMaximum(s, y);
      MaximumIsUnique(Settle(s, x), Settle(s, y), s, x, y);
    }
  }

  // ---------------------------------------------------------------- with refunds: the last payment decides

  /** A refund arrived at or after position i and no payment did. */
  ghost predicate RefundedSince(arrivals: seq<PayEvent>, i: nat) {
    && (exists j :: i <= j < |arrivals| && arrivals[j].kind == RefundedEvent)
    && (forall j :: i <= j < |arrivals| ==> arrivals[j].kind != PaidEvent)
  }

  ghost predicate PaidThenRefunded(arrivals: seq<PayEvent>) {
    exists i :: 0 <= i < |arrivals| && arrivals[i].kind == PaidEvent && RefundedSince(arrivals, i + 1)
  }

  ghost predicate Contains(arrivals: seq<PayEvent>, k: PayKind) {
    exists i :: 0 <= i < |arrivals| && arrivals[i].kind == k
  }

  lemma PaidThenRefundedExtends(front: seq<PayEvent>, last: PayEvent)
    ensures PaidThenRefunded(front + [last]) <==>
              (PaidThenRefunded(front) && last.kind != PaidEvent)
                 || (last.kind == RefundedEvent && Contains(front, PaidEvent))
  {
    var all := front + [last];
    if PaidThenRefunded(all) {
      var i :| 0 <= i < |all| && all[i].kind == PaidEvent && RefundedSince(all, i + 1);
      var j :| i + 1 <= j < |all| && all[j].kind == RefundedEvent;
      assert front[i].kind == PaidEvent;
      assert all[|front|].kind != PaidEvent;
      if j < |front| {
        assert forall k :: 0 <= k < |front| ==> front[k] == all[k];
        assert front[j].kind == RefundedEvent && RefundedSince(front, i + 1);
      }
    }
    if PaidThenRefunded(front) && last.kind != PaidEvent {
      var i :| 0 <= i < |front| && front[i].kind == PaidEvent && RefundedSince(front, i + 1);
      var j :| i + 1 <= j < |front| && front[j].kind == RefundedEvent;
      assert all[j].kind == RefundedEvent;
      assert all[i].kind == PaidEvent && RefundedSince(all, i + 1);
    }
    if last.kind == RefundedEvent && Contains(front, PaidEvent) {
      var i := LastPaid(front);
      assert all[|front|].kind == RefundedEvent;
      assert all[i].kind == PaidEvent && RefundedSince(all, i + 1);
    }
  }

  lemma {:induction false} LastPaid(arrivals: seq<PayEvent>) returns (i: nat)
    requires Contains(arrivals, PaidEvent)
    ensures i < |arrivals| && arrivals[i].kind == PaidEvent
    ensures forall j :: i < j < |arrivals| ==> arrivals[j].kind != PaidEvent
  {
    var n := |arrivals| - 1;
    if arrivals[n].kind == PaidEvent {
      i := n;
    } else {
      var k :| 0 <= k < |arrivals| && arrivals[k].kind == PaidEvent;
      assert arrivals[..n][k].kind == PaidEvent;
      i := LastPaid(arrivals[..n]);
      assert forall j :: i < j < n ==> arrivals[j] == arrivals[..n][j];
    }
  }

  /** Exactly when an order that starts Unpaid ends Refunded: a refund arrived after the last payment did. Any other
      sequence that contains a payment ends Paid, so a refund that arrives before its payment is lost. */
  lemma {:induction false} RefundedIffLastPaymentRefunded(arrivals: seq<PayEvent>)
    ensures Settle(Unpaid, arrivals) == Refunded <==> PaidThenRefunded(arrivals)
    ensures Settle(Unpaid, arrivals) == Paid <==> Contains(arrivals, PaidEvent) && !PaidThenRefunded(arrivals)
  {
    if arrivals != [] {
      var front, last := arrivals[..|arrivals| - 1], arrivals[|arrivals| - 1];
      assert arrivals == front + [last];
      RefundedIffLastPaymentRefunded(front);
      PaidThenRefundedExtends(front, last);
      if Contains(front, PaidEvent) {
        var i :| 0 <= i < |front| && front[i].kind == PaidEvent;
        assert arrivals[i].kind == PaidEvent;
      }
      if last.kind == PaidEvent {
        assert arrivals[|front|].kind == PaidEvent;
      }
    }
  }

  /** So over any run, an order that was Unpaid is Refunded exactly when a refund arrived after its last payment. */
  lemma RefundedExactlyWhen(db: Db, steps: seq<Attempt>, id: OrderId)
    requires id in db.orders && db.orders[id].paymentStatus == Unpaid && Consistent(steps)
    ensures id in Run(db, steps).orders
    ensures Run(db, steps).orders[id].paymentStatus == Refunded <==> PaidThenRefunded(Arrivals(db.processed, steps, id))
  {
    StatusFollowsArrivals(db, steps, id);
    RefundedIffLastPaymentRefunded(Arrivals(db.processed, steps, id));
  }

  function Delivery(m: nat, kind: PayKind, p: PaymentId, id: OrderId, amount: int): Attempt {
    Attempt(OpConsume(Envelope(m, Payment(PayEvent(kind, p, id, amount)))), 1, true)
  }

  /** One more first delivery: what it does to the order's two statuses and to the ledger. */
  lemma DeliverNext(db: Db, steps: seq<Attempt>, m: nat, kind: PayKind, p: PaymentId, id: OrderId, amount: int)
    requires id in Run(db, steps).orders && m !in Run(db, steps).processed
    ensures
      var before, after := Run(db, steps), Run(db, steps + [Delivery(m, kind, p, id, amount)]);
      && id in after.orders && after.processed == before.processed + {m}
      && after.orders[id].paymentStatus == SettleOne(before.orders[id].paymentStatus, kind)
      && (kind == RefundedEvent || before.orders[id].status == Cancelled ==> after.orders[id].status == Cancelled)
  {
    assert (steps + [Delivery(m, kind, p, id, amount)])[..|steps|] == steps;
  }

  /** The same three events delivered to Core in two orders: when payment.refunded overtakes payment.paid the order
      stays Paid, when it does not the order is Refunded. It is Cancelled either way. */
  lemma RefundBeforePaymentDiverges(db: Db, p: PaymentId, id: OrderId, amount: int, c: nat, d: nat, r: nat)
    requires id in db.orders && db.orders[id].paymentStatus == Unpaid
    requires c != d && d != r && c != r && c !in db.processed && d !in db.processed && r !in db.processed
    ensures
      var created, paid, refunded :=
        Delivery(c, CreatedEvent, p, id, amount), Delivery(d, PaidEvent, p, id, amount),
          Delivery(r, RefundedEvent, p, id, amount);
      var inOrder, overtaken := Run(db, [created, paid, refunded]), Run(db, [created, refunded, paid]);
      && id in inOrder.orders && inOrder.orders[id].paymentStatus == Refunded && inOrder.orders[id].status == Cancelled
      && id in overtaken.orders && overtaken.orders[id].paymentStatus == Paid
      && overtaken.orders[id].status == Cancelled
  {
    hide Perform;
    var created, paid, refunded :=
      Delivery(c, CreatedEvent, p, id, amount), Delivery(d, PaidEvent, p, id, amount),
        Delivery(r, RefundedEvent, p, id, amount);
    DeliverNext(db, [], c, CreatedEvent, p, id, amount);
    assert [] + [created] == [created];
    DeliverNext(db, [created], d, PaidEvent, p, id, amount);
    DeliverNext(db, [created] + [paid], r, RefundedEvent, p, id, amount);
    DeliverNext(db, [created], r, RefundedEvent, p, id, amount);
    DeliverNext(db, [created] + [refunded], d, PaidEvent, p, id, amount);
    assert [created] + [paid] + [refunded] == [created, paid, refunded];
    assert [created] + [refunded] + [paid] == [created, refunded, paid];
  }

  // ---------------------------------------------------------------- redelivery

  /** An attempt on this database that commits and, when it is a delivery, handles an event without an error. */
  predicate Succeeds(db: Db, a: Attempt) {
    a.commits && (a.op.OpConsume? ==> Delivers(a) && ConsumePayment(db, a.at, a.op.message).reply == Ack)
  }

  /** The ids of the events that were handled successfully. */
  function Handled(db: Db, steps: seq<Attempt>): set<nat> {
    if steps == [] then {}
    else
      var front, last := steps[..|steps| - 1], steps[|steps| - 1];
      Handled(db, front) + (if Delivers(last) && Succeeds(Run(db, front), last) then {last.op.message.id} else {})
  }

  /** The run with every failed attempt and every repeat of an event that was already handled left out. */
  function FirstSuccesses(db: Db, steps: seq<Attempt>): seq<Attempt> {
    if steps == [] then []
    else
      var front, last := steps[..|steps| - 1], steps[|steps| - 1];
      FirstSuccesses(db, front) +
        (if Succeeds(Run(db, front), last)
           && (last.op.OpConsume? ==> last.op.message.id !in db.processed + Handled(db, front))
         then [last] else [])
  }

  lemma AttemptMarks(db: Db, a: Attempt)
    ensures
      var db' := if a.commits then Perform(db, a.at, a.op).db else db;
      && db'.processed == db.processed + (if Delivers(a) && Succeeds(db, a) then {a.op.message.id} else {})
      && (a.op.OpConsume? && (!Succeeds(db, a) || a.op.message.id in db.processed) ==> db' == db)
  {
    hide Project, Weigh, Finalize, Preparable, Estimate, InsertRequest, PassesChecks;
    PerformKeepsRows(db, a.at, a.op);
    PerformMarks(db, a.at, a.op);
  }

  /** The dedup ledger is exactly the set of handled events. */
  lemma {:induction false} LedgerIsHandled(db: Db, steps: seq<Attempt>)
    ensures Run(db, steps).processed == db.processed + Handled(db, steps)
  {
    hide Perform, Succeeds;
    if steps != [] {
      LedgerIsHandled(db, steps[..|steps| - 1]);
      AttemptMarks(Run(db, steps[..|steps| - 1]), steps[|steps| - 1]);
    }
  }

  /** Redelivery is invisible: over any steps, with repeats, crashes before the acknowledgement and rolled-back
      failures, Core's whole database equals folding the handlers over first successful occurrences only. */
  lemma {:induction false} RedeliveryIsInvisible(db: Db, steps: seq<Attempt>)
    ensures Run(db, steps) == Run(db, FirstSuccesses(db, steps))
  {
    hide Perform, ConsumePayment;
    if steps != [] {
      var front, last := steps[..|steps| - 1], steps[|steps| - 1];
      RedeliveryIsInvisible(db, front);
      LedgerIsHandled(db, front);
      AttemptMarks(Run(db, front), last);
      var kept := FirstSuccesses(db, front);
      if FirstSuccesses(db, steps) == kept + [last] {
        assert (kept + [last])[..|kept|] == kept;
      } else {
        assert FirstSuccesses(db, steps) == kept + [] == kept;
      }
    }
  }

  /** Each delivery left in the run is of a handled event that was not handled before, and no event has two. */
  ghost predicate EachOnce(kept: seq<Attempt>, done: set<nat>, handled: set<nat>) {
    && (forall i :: 0 <= i < |kept| && kept[i].op.OpConsume? ==>
          Delivers(kept[i]) && kept[i].op.message.id in handled && kept[i].op.message.id !in done)
    && (forall i, j :: 0 <= i < j < |kept| && kept[i].op.OpConsume? && kept[j].op.OpConsume? ==>
          kept[i].op.message.id != kept[j].op.message.id)
  }

  lemma KeepOne(kept: seq<Attempt>, done: set<nat>, handled: set<nat>, a: Attempt)
    requires EachOnce(kept, done, handled)
    requires a.op.OpConsume? ==> Delivers(a) && a.op.message.id !in done + handled
    ensures EachOnce(kept + [a], done, handled + if a.op.OpConsume? then {a.op.message.id} else {})
  {
    var all := kept + [a];
    forall i, j | 0 <= i < j < |all| && all[i].op.OpConsume? && all[j].op.OpConsume?
      ensures Delivers(all[i]) && Delivers(all[j]) && all[i].op.message.id != all[j].op.message.id
    {
      assert all[i] == kept[i];
      if j < |kept| {
        assert all[j] == kept[j];
      }
    }
  }

  lemma {:induction false} NoEventTwice(db: Db, steps: seq<Attempt>)
    ensures EachOnce(FirstSuccesses(db, steps), db.processed, Handled(db, steps))
  {
    hide Perform, ConsumePayment, Run;
    if steps != [] {
      var front, last := steps[..|steps| - 1], steps[|steps| - 1];
      NoEventTwice(db, front);
      var before, kept := FirstSuccesses(db, front), FirstSuccesses(db, steps);
      if Succeeds(Run(db, front), last)
        && (last.op.OpConsume? ==> last.op.message.id !in db.processed + Handled(db, front))
      {
        KeepOne(before, db.processed, Handled(db, front), last);
        assert kept == before + [last];
        assert Handled(db, steps) == Handled(db, front) + if last.op.OpConsume? then {last.op.message.id} else {};
      } else {
        assert kept == before + [] == before;
        assert Handled(db, front) <= Handled(db, steps);
      }
    }
  }
}
