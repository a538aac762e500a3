/** From the scale to the washing machine: a payment is only taken for an order that Core showed in Weighing, and once
    Core has consumed the payment the order is not in Weighing any more. */
module LaundryStart {
  import opened Wrappers
  import opened OrderState
  import opened Events
  import opened Orders
  import Core = CoreDb
  import CoreInvariants
  import CoreContracts
  import Pay = PaymentDb
  import PaymentInvariants
  import PaymentContracts
  import Relay
  import Reporting
  import opened Convergence
  import opened Pipeline

  // ---------------------------------------------------------------- the invariant

  /** The order was in Weighing, unpaid, at this total when Core answered. */
  predicate Shows(v: Pay.OrderView, id: OrderId, amount: int) {
    v.order == id && v.status == Weighing && v.paymentStatus != Paid && v.total == Some(amount)
  }

  ghost predicate AskedFor(views: set<Pay.OrderView>, id: OrderId, amount: int) {
    exists v :: v in views && Shows(v, id, amount)
  }

  ghost predicate AskedInv(payments: map<PaymentId, Pay.Payment>, views: set<Pay.OrderView>) {
    forall p :: p in payments ==> AskedFor(views, payments[p].order, payments[p].amount)
  }

  /** An answer is about an order that has got at least as far since. */
  ghost predicate ViewsInv(core: Core.Db, views: set<Pay.OrderView>) {
    forall v :: v in views ==> v.order in core.orders && Rank(v.status) <= Rank(core.orders[v.order].status)
  }

  ghost predicate StartedInv(core: Core.Db, outbox: seq<OutboxRow<PayEvent>>) {
    forall id :: id in core.orders && HasConsumed(core, outbox, id, PaidEvent) ==>
      Rank(core.orders[id].status) > Rank(Weighing)
  }

  ghost predicate HandoverInv(s: System) {
    && AskedInv(s.pay.db.payments, s.views) && ViewsInv(s.core, s.views)
    && StartedInv(s.core, s.pay.db.outbox)
  }

  // ---------------------------------------------------------------- what a step can change

  lemma ViewsGrow(s: System, now: int, step: Step)
    ensures
      Do(s, now, step).views ==
      if step.AnswerPayment? && step.order in s.core.orders then s.views + {View(s.core, step.order)} else s.views
  {
    hide Core.Perform, Core.ConsumePayment, Pay.Perform, Relay.Do, Reporting.Consume, AnswerKnown, InBroker, Sync;
  }

  lemma PayMoves(s: System, now: int, step: Step)
    ensures
      Do(s, now, step).pay ==
      if step.PaymentStep? && AnswerKnown(s.views, step.request) then Pay.Perform(s.pay, now, step.request) else s.pay
  {
    hide Core.Perform, Core.ConsumePayment, Pay.Perform, Relay.Do, Reporting.Consume, AnswerKnown, InBroker, Sync;
  }

  /** Core consumes a payment event only by a delivery of it. */
  lemma CoreMoves(s: System, now: int, step: Step)
    ensures
      var core' := Do(s, now, step).core;
      if step.PayToCore? && InBroker(s.payRelay, step.row) && step.row < |s.pay.db.outbox|
      then core' == Core.ConsumePayment(s.core, now, PayMessage(s.pay, step.row)).db
      else core'.processed <= s.core.processed
  {
    if step.Staff? {
      CoreInvariants.PerformMarks(s.core, now, step.op);
    }
    hide Core.Perform, Core.ConsumePayment, Pay.Perform, Relay.Do, Reporting.Consume, AnswerKnown, InBroker, Sync,
      PayMessage;
  }

  // ---------------------------------------------------------------- steps keep it

  lemma MoreViewsKeepAsked(payments: map<PaymentId, Pay.Payment>, views: set<Pay.OrderView>,
                           views': set<Pay.OrderView>)
    requires AskedInv(payments, views) && views <= views'
    ensures AskedInv(payments, views')
  {
    forall p | p in payments
      ensures AskedFor(views', payments[p].order, payments[p].amount)
    {
      assert AskedFor(views, payments[p].order, payments[p].amount);
      var v :| v in views && Shows(v, payments[p].order, payments[p].amount);
      assert v in views';
    }
  }

  lemma {:induction false} TakingKeepsAsked(pay: Pay.State, now: int, op: Pay.Op, views: set<Pay.OrderView>)
    requires PaymentInvariants.PayInv(pay) && AskedInv(pay.db.payments, views) && AnswerKnown(views, op)
    ensures AskedInv(Pay.Perform(pay, now, op).db.payments, views)
  {
    var pay' := Pay.Perform(pay, now, op);
    PaymentInvariants.PerformGrows(pay, now, op);
    NewPaymentWasAskedFor(pay, now, op, views);
    hide PaymentInvariants.PayInv, Pay.Perform, AskedFor, AnswerKnown;
    forall p | p in pay'.db.payments
      ensures AskedFor(views, pay'.db.payments[p].order, pay'.db.payments[p].amount)
    {
      if p in pay.db.payments {
        assert PaymentInvariants.SameDebt(pay.db.payments[p], pay'.db.payments[p]);
        assert AskedFor(views, pay.db.payments[p].order, pay.db.payments[p].amount);
      }
    }
  }

  lemma {:induction false} NewPaymentWasAskedFor(pay: Pay.State, now: int, op: Pay.Op, views: set<Pay.OrderView>)
    requires PaymentInvariants.PayInv(pay) && AnswerKnown(views, op)
    ensures
      var payments := Pay.Perform(pay, now, op).db.payments;
      forall p :: p in payments && p !in pay.db.payments ==> AskedFor(views, payments[p].order, payments[p].amount)
  {
    PaymentInvariants.PerformGrows(pay, now, op);
    if op.OpCreatePayment? {
      PaymentInvariants.IndexHolds(pay);
      PaymentContracts.CreatePaymentTakes(pay.db, now, op.req, op.view, op.gatewayUp, op.id);
      hide PaymentInvariants.PayInv, Pay.CreatePayment, PaymentContracts.Insertable;
      if Pay.CreatePayment(pay.db, now, op.req, op.view, op.gatewayUp, op.id).reply == Pay.Accepted {
        assert op.view.value in views && Shows(op.view.value, op.req.order.value, op.req.amount);
      }
    } else {
      hide Pay.Perform, PaymentInvariants.PayInv, AskedFor;
    }
  }

  lemma GrowthKeepsViews(core: Core.Db, core': Core.Db, views: set<Pay.OrderView>)
    requires ViewsInv(core, views) && CoreInvariants.Grows(core, core')
    ensures ViewsInv(core', views)
  {
    forall v | v in views
      ensures v.order in core'.orders && Rank(v.status) <= Rank(core'.orders[v.order].status)
    {
      assert Evolves(core.orders[v.order], core'.orders[v.order]);
    }
  }

  /** As long as Core consumes nothing about an order, having started stays having started. */
  lemma GrowthKeepsStarted(core: Core.Db, core': Core.Db, outbox: seq<OutboxRow<PayEvent>>)
    requires StartedInv(core, outbox) && CoreInvariants.Grows(core, core') && core'.processed <= core.processed
    requires forall m :: 0 <= m < |outbox| && outbox[m].event.order in core'.orders ==>
      outbox[m].event.order in core.orders
    ensures StartedInv(core', outbox)
  {
    forall id | id in core'.orders && HasConsumed(core', outbox, id, PaidEvent)
      ensures Rank(core'.orders[id].status) > Rank(Weighing)
    {
      var m :| Consumed(core', outbox, m, id) && outbox[m].event.kind == PaidEvent;
      assert Consumed(core, outbox, m, id);
      assert HasConsumed(core, outbox, id, PaidEvent) && Evolves(core.orders[id], core'.orders[id]);
    }
  }

  /** The delivery of a payment.paid leads the order out of Weighing. */
  lemma PaidLeavesWeighing(core: Core.Db, core': Core.Db, now: int, eventId: nat, e: PayEvent)
    requires e.kind == PaidEvent && e.order in core.orders && Rank(core.orders[e.order].status) >= Rank(Weighing)
    requires CoreContracts.Projects(core, core', now, eventId, e)
    ensures e.order in core'.orders && Rank(core'.orders[e.order].status) > Rank(Weighing)
  {
  }

  lemma {:induction false} DeliveryKeepsStarted(core: Core.Db, now: int, outbox: seq<OutboxRow<PayEvent>>, row: nat)
    requires StartedInv(core, outbox) && row < |outbox|
    requires EventsKnown(core, outbox)
    requires Rank(core.orders[outbox[row].event.order].status) >= Rank(Weighing)
    requires
      var m := Core.Envelope(row, Core.Payment(outbox[row].event));
      CoreInvariants.Grows(core, Core.ConsumePayment(core, now, m).db)
    ensures
      var m := Core.Envelope(row, Core.Payment(outbox[row].event));
      StartedInv(Core.ConsumePayment(core, now, m).db, outbox)
  {
    var e := outbox[row].event;
    var m := Core.Envelope(row, Core.Payment(e));
    var core' := Core.ConsumePayment(core, now, m).db;
    CoreContracts.ConsumePaymentConsumes(core, now, m);
    hide Core.ConsumePayment, CoreInvariants.Grows;
    if row !in core.processed {
      assert CoreContracts.Projects(core, core', now, row, e);
      ProjectedOrders(core, core', now, row, e);
      forall id | id in core'.orders && HasConsumed(core', outbox, id, PaidEvent)
        ensures Rank(core'.orders[id].status) > Rank(Weighing)
      {
        var k :| Consumed(core', outbox, k, id) && outbox[k].event.kind == PaidEvent;
        if k == row {
          PaidLeavesWeighing(core, core', now, row, e);
        } else {
          assert Consumed(core, outbox, k, id);
          StillStarted(core, core', id);
        }
      }
    }
  }

  lemma ProjectedOrders(core: Core.Db, core': Core.Db, now: int, eventId: nat, e: PayEvent)
    requires e.order in core.orders && CoreContracts.Projects(core, core', now, eventId, e)
    ensures core'.orders.Keys == core.orders.Keys && core'.processed == core.processed + {eventId}
  {
  }

  lemma StillStarted(core: Core.Db, core': Core.Db, id: OrderId)
    requires CoreInvariants.Grows(core, core') && id in core.orders
    requires Rank(core.orders[id].status) > Rank(Weighing)
    ensures id in core'.orders && Rank(core'.orders[id].status) > Rank(Weighing)
  {
    assert Evolves(core.orders[id], core'.orders[id]);
  }

  /** Payment only sends events about orders that Core had shown in Weighing. */
  lemma EventOrdersGotThere(s: System, row: nat)
    requires PaymentInvariants.PayInv(s.pay) && AskedInv(s.pay.db.payments, s.views) && ViewsInv(s.core, s.views)
    requires row < |s.pay.db.outbox|
    ensures
      var id := s.pay.db.outbox[row].event.order;
      id in s.core.orders && Rank(s.core.orders[id].status) >= Rank(Weighing)
  {
    var e := s.pay.db.outbox[row].event;
    EventTellsStatus(s.pay, row);
    hide PaymentInvariants.PayInv;
    var p := s.pay.db.payments[e.payment];
    assert AskedFor(s.views, p.order, p.amount);
    var v :| v in s.views && Shows(v, p.order, p.amount);
  }

  lemma MoreEventsKeepStarted(core: Core.Db, outbox: seq<OutboxRow<PayEvent>>, outbox': seq<OutboxRow<PayEvent>>)
    requires StartedInv(core, outbox) && outbox <= outbox' && forall m :: m in core.processed ==> m < |outbox|
    ensures StartedInv(core, outbox')
  {
    forall id | id in core.orders && HasConsumed(core, outbox', id, PaidEvent)
      ensures Rank(core.orders[id].status) > Rank(Weighing)
    {
      ConsumedSurvives(core, outbox, outbox', id, PaidEvent);
    }
  }

  lemma {:induction false} DoKeepsStarted(s: System, now: int, step: Step)
    requires SystemInv(s) && HandoverInv(s) && s.clock < now
    ensures StartedInv(Do(s, now, step).core, Do(s, now, step).pay.db.outbox)
  {
    assert LaundryInv(s.core, s.pay.db.outbox);
    var s' := Do(s, now, step);
    DoGrows(s, now, step);
    CoreMoves(s, now, step);
    PayMoves(s, now, step);
    PaymentEventsAreKnown(s);
    hide SystemInv, Do, HasConsumed, Pay.Perform, AnswerKnown, StartedInv, InBroker;
    if step.PayToCore? && InBroker(s.payRelay, step.row) && step.row < |s.pay.db.outbox| {
      EventOrdersGotThere(s, step.row);
      DeliveryKeepsStarted(s.core, now, s.pay.db.outbox, step.row);
    } else {
      GrowthKeepsStarted(s.core, s'.core, s.pay.db.outbox);
      if step.PaymentStep? && AnswerKnown(s.views, step.request) {
        PaymentInvariants.PerformGrows(s.pay, now, step.request);
        MoreEventsKeepStarted(s'.core, s.pay.db.outbox, s'.pay.db.outbox);
      }
    }
  }

  lemma {:induction false} DoKeepsAsked(s: System, now: int, step: Step)
    requires SystemInv(s) && HandoverInv(s) && s.clock < now
    ensures AskedInv(Do(s, now, step).pay.db.payments, Do(s, now, step).views)
  {
    PayIsLawful(s);
    PayMoves(s, now, step);
    ViewsGrow(s, now, step);
    hide SystemInv, StartedInv, ViewsInv, Do, Pay.Perform, AnswerKnown, AskedInv, View;
    if step.PaymentStep? && AnswerKnown(s.views, step.request) {
      TakingKeepsAsked(s.pay, now, step.request, s.views);
    } else {
      MoreViewsKeepAsked(s.pay.db.payments, s.views, Do(s, now, step).views);
    }
  }

  lemma {:induction false} DoKeepsViews(s: System, now: int, step: Step)
    requires SystemInv(s) && HandoverInv(s) && s.clock < now
    ensures ViewsInv(Do(s, now, step).core, Do(s, now, step).views)
  {
    DoGrows(s, now, step);
    ViewsGrow(s, now, step);
    hide SystemInv, StartedInv, AskedInv, ViewsInv, Do, View, Rank, CoreInvariants.Grows;
    GrowthKeepsViews(s.core, Do(s, now, step).core, s.views);
    if step.AnswerPayment? && step.order in s.core.orders {
      AnswerKeepsViews(s.core, Do(s, now, step).core, s.views, step.order);
    }
  }

  lemma AnswerKeepsViews(core: Core.Db, core': Core.Db, views: set<Pay.OrderView>, id: OrderId)
    requires CoreInvariants.Grows(core, core') && ViewsInv(core', views) && id in core.orders
    ensures ViewsInv(core', views + {View(core, id)})
  {
    StillThere(core, core', id);
    hide CoreInvariants.Grows, Rank;
  }

  lemma StillThere(core: Core.Db, core': Core.Db, id: OrderId)
    requires CoreInvariants.Grows(core, core') && id in core.orders
    ensures id in core'.orders && Rank(core.orders[id].status) <= Rank(core'.orders[id].status)
  {
    assert Evolves(core.orders[id], core'.orders[id]);
  }

  lemma PayIsLawful(s: System)
    requires SystemInv(s)
    ensures PaymentInvariants.PayInv(s.pay)
  {
  }

  lemma {:induction false} RunKeepsHandover(s: System, attempts: seq<Attempt>)
    requires SystemInv(s) && HandoverInv(s) && Ticking(s.clock, attempts)
    ensures HandoverInv(Run(s, attempts))
  {
    hide SystemInv, Do, StartedInv, AskedInv, ViewsInv;
    if attempts != [] {
      var front, last := attempts[..|attempts| - 1], attempts[|attempts| - 1];
      RunKeepsHandover(s, front);
      RunKeepsInv(s, front);
      DoKeepsStarted(Run(s, front), last.at, last.step);
      DoKeepsAsked(Run(s, front), last.at, last.step);
      DoKeepsViews(Run(s, front), last.at, last.step);
    }
  }

  lemma StartHandover(outlets: set<OutletId>, services: map<ServiceId, bool>)
    ensures HandoverInv(Start(outlets, services))
  {
  }

  // ---------------------------------------------------------------- theorems

  /** In every reachable state, an order of which Core has consumed a payment.paid has left Weighing behind. */
  lemma {:induction false} PaidStartsTheLaundry(outlets: set<OutletId>, services: map<ServiceId, bool>,
                                                attempts: seq<Attempt>, id: OrderId)
    requires Ticking(0, attempts)
    requires
      var s := Run(Start(outlets, services), attempts);
      id in s.core.orders && HasConsumed(s.core, s.pay.db.outbox, id, PaidEvent)
    ensures Rank(Run(Start(outlets, services), attempts).core.orders[id].status) > Rank(Weighing)
  {
    hide Run, SystemInv;
    StartInv(outlets, services);
    StartHandover(outlets, services);
    RunKeepsHandover(Start(outlets, services), attempts);
  }

  /** So once Core has consumed every event about an order, it is not waiting on the scale with a Paid payment. */
  lemma {:induction false} NoPaidOrderWaits(outlets: set<OutletId>, services: map<ServiceId, bool>,
                                            attempts: seq<Attempt>, id: OrderId, p: PaymentId)
    requires Ticking(0, attempts)
    requires
      var s := Run(Start(outlets, services), attempts);
      && id in s.core.orders && AtRest(s, id)
      && p in s.pay.db.payments && s.pay.db.payments[p].order == id && s.pay.db.payments[p].status == Paid
    ensures Rank(Run(Start(outlets, services), attempts).core.orders[id].status) > Rank(Weighing)
  {
    hide Run, SystemInv, AtRest, Rank;
    StartInv(outlets, services);
    RunKeepsInv(Start(outlets, services), attempts);
    var s := Run(Start(outlets, services), attempts);
    PayIsLawful(s);
    AnnouncedStatus(s, id, p);
    var m :| Consumed(s.core, s.pay.db.outbox, m, id) && Target(s.pay.db.outbox[m].event.kind) == Paid;
    PaidStartsTheLaundry(outlets, services, attempts, id);
  }

  /** Every answer that Payment holds is what Core said about the order at some earlier moment of the run. */
  lemma {:induction false} AnswersWereGiven(s: System, attempts: seq<Attempt>, v: Pay.OrderView)
    requires v in Run(s, attempts).views && v !in s.views
    ensures
      exists i ::
        && 0 <= i < |attempts|
        && v.order in Run(s, attempts[..i]).core.orders && v == View(Run(s, attempts[..i]).core, v.order)
  {
    hide Do;
    var n := |attempts| - 1;
    assert attempts != [];
    var before := Run(s, attempts[..n]);
    ViewsGrow(before, attempts[n].at, attempts[n].step);
    if v in before.views {
      AnswersWereGiven(s, attempts[..n], v);
      var i :|
        && 0 <= i < n
        && v.order in Run(s, attempts[..n][..i]).core.orders && v == View(Run(s, attempts[..n][..i]).core, v.order);
      assert attempts[..n][..i] == attempts[..i];
    }
  }

  /** Every payment was taken for an order that Core itself had, at some moment before, in Weighing, not Paid, at a
      total of exactly the payment's amount. */
  lemma {:induction false} PaymentsWereAskedFor(outlets: set<OutletId>, services: map<ServiceId, bool>,
                                                attempts: seq<Attempt>, p: PaymentId)
    requires Ticking(0, attempts) && p in Run(Start(outlets, services), attempts).pay.db.payments
    ensures
      var payment := Run(Start(outlets, services), attempts).pay.db.payments[p];
      exists i ::
        && 0 <= i < |attempts|
        && var orders := Run(Start(outlets, services), attempts[..i]).core.orders;
           && payment.order in orders && orders[payment.order].status == Weighing
           && orders[payment.order].paymentStatus != Paid && orders[payment.order].total == Some(payment.amount)
  {
    hide SystemInv, StartedInv, ViewsInv, Run;
    StartInv(outlets, services);
    StartHandover(outlets, services);
    RunKeepsHandover(Start(outlets, services), attempts);
    var s := Run(Start(outlets, services), attempts);
    assert AskedFor(s.views, s.pay.db.payments[p].order, s.pay.db.payments[p].amount);
    var v :| v in s.views && Shows(v, s.pay.db.payments[p].order, s.pay.db.payments[p].amount);
    AnswersWereGiven(Start(outlets, services), attempts, v);
    var i :|
      && 0 <= i < |attempts|
      && v.order in Run(Start(outlets, services), attempts[..i]).core.orders
      && v == View(Run(Start(outlets, services), attempts[..i]).core, v.order);
  }
}
