/** Payments of cancelled orders. A gateway payment may settle after staff cancelled its order; it is Paid then, and a
    refund request that asks Core is refused because the order is cancelled. */
module CancelledOrders {
  import opened Wrappers
  import opened OrderState
  import opened Events
  import opened Orders
  import Core = CoreDb
  import CoreInvariants
  import Pay = PaymentDb
  import PaymentInvariants
  import Relay
  import Reporting
  import opened Pipeline

  /** A Paid payment of a cancelled order, with no live refund and no request past the check. */
  ghost predicate Stranded(s: System, p: PaymentId) {
    && Unrefunded(s.pay, p)
    && s.pay.db.payments[p].order in s.core.orders
    && s.core.orders[s.pay.db.payments[p].order].status == Cancelled
  }

  ghost predicate Unrefunded(pay: Pay.State, p: PaymentId) {
    && p in pay.db.payments && pay.db.payments[p].status == Paid && !Pay.HasLiveRefund(pay.db, p)
    && forall t :: t in pay.cleared ==> t.payment != p
  }

  /** A refund check uses what Core says at that moment, or no answer at all. */
  predicate AsksNow(s: System, step: Step) {
    step.PaymentStep? && step.request.OpCheckRefund? && step.request.view.Some? ==>
      var view := step.request.view.value;
      view.order in s.core.orders && view == View(s.core, view.order)
  }

  ghost predicate ChecksAskNow(s: System, attempts: seq<Attempt>) {
    forall i :: 0 <= i < |attempts| ==> AsksNow(Run(s, attempts[..i]), attempts[i].step)
  }

  // ---------------------------------------------------------------- one request

  lemma RequestIsClearedIff(pay: Pay.State, now: int, p: PaymentId, view: Pay.OrderView)
    requires p in pay.db.payments && pay.db.payments[p].status == Paid
    ensures
      var t := Pay.Ticket(p, pay.db.payments[p].order, pay.db.payments[p].amount);
      var waiting := Pay.Perform(pay, now, Pay.OpBeginRefund(Some(p), true));
      var checked := Pay.Perform(waiting, now, Pay.OpCheckRefund(t, Some(view)));
      && t in waiting.waiting && checked.db == pay.db
      && (checked.cleared[t] > pay.cleared[t] <==> view.status != Cancelled && !Pay.HasLiveRefund(pay.db, p))
  {
    hide Pay.HasLiveRefund, Pay.InsertRefund, Pay.ApproveRefund, Pay.CreatePayment, Pay.SettleGateway, Pay.RejectRefund;
  }

  lemma PresentAnswerClears(s: System, now: int, p: PaymentId)
    requires SystemInv(s) && p in s.pay.db.payments && s.pay.db.payments[p].status == Paid
    ensures
      var payment := s.pay.db.payments[p];
      var t := Pay.Ticket(p, payment.order, payment.amount);
      var waiting := Pay.Perform(s.pay, now, Pay.OpBeginRefund(Some(p), true));
      && t in waiting.waiting && payment.order in s.core.orders
      && var checked := Pay.Perform(waiting, now, Pay.OpCheckRefund(t, Some(View(s.core, payment.order))));
         && checked.db == s.pay.db
         && (checked.cleared[t] > s.pay.cleared[t] <==>
               s.core.orders[payment.order].status != Cancelled && !Pay.HasLiveRefund(s.pay.db, p))
  {
    assert AmountsInv(s.core, s.pay.db, s.views);
    hide SystemInv, Pay.HasLiveRefund, Pay.Perform;
    assert WasTotal(s.core, s.pay.db.payments[p].order, s.pay.db.payments[p].amount);
    RequestIsClearedIff(s.pay, now, p, View(s.core, s.pay.db.payments[p].order));
  }

  // ---------------------------------------------------------------- for good

  lemma CancelledStays(o: Order, o': Order)
    requires o.status == Cancelled && Evolves(o, o')
    ensures o'.status == Cancelled
  {
  }

  lemma {:induction false} StaysCancelled(s: System, attempts: seq<Attempt>, id: OrderId)
    requires SystemInv(s) && Ticking(s.clock, attempts)
    requires id in s.core.orders && s.core.orders[id].status == Cancelled
    ensures id in Run(s, attempts).core.orders && Run(s, attempts).core.orders[id].status == Cancelled
  {
    hide SystemInv, Run, Evolves;
    RunGrows(s, attempts);
    CancelledStays(s.core.orders[id], Run(s, attempts).core.orders[id]);
  }

  lemma SameRefundsStayUnrefunded(pay: Pay.State, pay': Pay.State, p: PaymentId)
    requires Unrefunded(pay, p)
    requires p in pay'.db.payments && pay'.db.payments[p] == pay.db.payments[p]
    requires forall r :: r in pay'.db.refunds && pay'.db.refunds[r].payment == p ==>
               r in pay.db.refunds && pay.db.refunds[r] == pay'.db.refunds[r]
    requires forall t :: t in pay'.cleared ==> t in pay.cleared || t.payment != p
    ensures Unrefunded(pay', p)
  {
    forall r | r in pay'.db.refunds && pay'.db.refunds[r].payment == p
      ensures !Pay.Live(pay'.db.refunds[r])
    {
      assert pay.db.refunds[r].payment == p;
    }
  }

  lemma PaymentRowIsKept(pay: Pay.State, now: int, op: Pay.Op, p: PaymentId)
    requires Unrefunded(pay, p) && (op.OpCreatePayment? || op.OpSettle?)
    ensures
      var pay' := Pay.Perform(pay, now, op);
      && p in pay'.db.payments && pay'.db.payments[p] == pay.db.payments[p]
      && pay'.db.refunds == pay.db.refunds && pay'.cleared == pay.cleared
  {
    hide Pay.UniquePaid, Pay.Refusal;
  }

  lemma RefundDecisionIsElsewhere(pay: Pay.State, now: int, op: Pay.Op, p: PaymentId)
    requires Unrefunded(pay, p) && (op.OpApprove? || op.OpReject?)
    ensures
      var pay' := Pay.Perform(pay, now, op);
      && p in pay'.db.payments && pay'.db.payments[p] == pay.db.payments[p] && pay'.cleared == pay.cleared
      && forall r :: r in pay'.db.refunds && pay'.db.refunds[r].payment == p ==>
           r in pay.db.refunds && pay.db.refunds[r] == pay'.db.refunds[r]
  {
    if op.refund in pay.db.refunds && pay.db.refunds[op.refund].payment == p {
      assert !Pay.Live(pay.db.refunds[op.refund]);
    }
  }

  lemma RequestIsElsewhere(pay: Pay.State, now: int, op: Pay.Op, p: PaymentId)
    requires Unrefunded(pay, p) && (op.OpBeginRefund? || op.OpCheckRefund? || op.OpInsertRefund? || op.OpAbandonRefund?)
    requires op.OpCheckRefund? && op.ticket.payment == p && op.ticket in pay.waiting && op.view.Some? ==>
               op.view.value.status == Cancelled
    ensures
      var pay' := Pay.Perform(pay, now, op);
      && pay'.db.payments == pay.db.payments
      && (forall t :: t in pay'.cleared ==> t in pay.cleared || t.payment != p)
      && forall r :: r in pay'.db.refunds && pay'.db.refunds[r].payment == p ==>
           r in pay.db.refunds && pay.db.refunds[r] == pay'.db.refunds[r]
  {
    hide Pay.HasLiveRefund, Pay.CreatePayment, Pay.SettleGateway, Pay.ApproveRefund, Pay.RejectRefund;
    if op.OpInsertRefund? {
      hide Pay.BeginRefund, Pay.CheckRefund;
    } else {
      hide Pay.InsertRefund;
    }
  }

  /** No step of Payment refunds the payment unless a check is told that its order is not cancelled. */
  lemma {:induction false} PaymentStaysUnrefunded(pay: Pay.State, now: int, op: Pay.Op, p: PaymentId)
    requires Unrefunded(pay, p)
    requires op.OpCheckRefund? && op.ticket.payment == p && op.ticket in pay.waiting && op.view.Some? ==>
               op.view.value.status == Cancelled
    ensures Unrefunded(Pay.Perform(pay, now, op), p)
    ensures Pay.Perform(pay, now, op).db.payments[p] == pay.db.payments[p]
  {
    assert p in pay.db.payments;
    hide Unrefunded, Pay.Perform;
    match op
    case OpCreatePayment(_, _, _, _) => PaymentRowIsKept(pay, now, op, p);
    case OpSettle(_, _) => PaymentRowIsKept(pay, now, op, p);
    case OpApprove(_, _) => RefundDecisionIsElsewhere(pay, now, op, p);
    case OpReject(_, _) => RefundDecisionIsElsewhere(pay, now, op, p);
    case _ => RequestIsElsewhere(pay, now, op, p);
    SameRefundsStayUnrefunded(pay, Pay.Perform(pay, now, op), p);
  }

  lemma PayMovesOnlyByPayment(s: System, now: int, step: Step)
    ensures
      Do(s, now, step).pay ==
      if step.PaymentStep? && AnswerKnown(s.views, step.request) then Pay.Perform(s.pay, now, step.request) else s.pay
  {
    hide Core.Perform, Core.ConsumePayment, Pay.Perform, Relay.Do, Reporting.Consume, AnswerKnown, InBroker, Sync;
  }

  /** A request waiting for the payment is about its order, so the present answer is that it is cancelled. */
  lemma PresentAnswerIsCancelled(s: System, op: Pay.Op, p: PaymentId)
    requires SystemInv(s) && Stranded(s, p) && AnswerKnown(s.views, op) && AsksNow(s, PaymentStep(op))
    requires op.OpCheckRefund? && op.ticket.payment == p && op.ticket in s.pay.waiting && op.view.Some?
    ensures op.view.value.status == Cancelled
  {
    assert PaymentInvariants.TicketsInv(s.pay);
    hide SystemInv, Unrefunded;
  }

  lemma {:induction false} StepKeepsStranded(s: System, now: int, step: Step, p: PaymentId)
    requires SystemInv(s) && s.clock < now && Stranded(s, p) && AsksNow(s, step)
    ensures Stranded(Do(s, now, step), p)
    ensures Do(s, now, step).pay.db.payments[p] == s.pay.db.payments[p]
  {
    var id := s.pay.db.payments[p].order;
    DoGrows(s, now, step);
    CancelledStays(s.core.orders[id], Do(s, now, step).core.orders[id]);
    PayMovesOnlyByPayment(s, now, step);
    hide SystemInv, Do, Unrefunded, CoreInvariants.Grows, Evolves, Pay.Perform, AnswerKnown;
    if step.PaymentStep? && AnswerKnown(s.views, step.request) {
      var op := step.request;
      if op.OpCheckRefund? && op.ticket.payment == p && op.ticket in s.pay.waiting && op.view.Some? {
        PresentAnswerIsCancelled(s, op, p);
      }
      hide AsksNow;
      PaymentStaysUnrefunded(s.pay, now, op, p);
    }
  }

  lemma ChecksAskNowBefore(s: System, attempts: seq<Attempt>)
    requires attempts != [] && ChecksAskNow(s, attempts)
    ensures ChecksAskNow(s, attempts[..|attempts| - 1])
    ensures AsksNow(Run(s, attempts[..|attempts| - 1]), attempts[|attempts| - 1].step)
  {
    hide AsksNow, Run;
    var front := attempts[..|attempts| - 1];
    assert forall i :: 0 <= i < |front| ==> front[..i] == attempts[..i] && front[i] == attempts[i];
  }

  /** The payment is stranded and reads as it did. */
  ghost predicate StrandedAs(s: System, p: PaymentId, payment: Pay.Payment) {
    Stranded(s, p) && s.pay.db.payments[p] == payment
  }

  lemma AttemptKeepsStranded(s: System, a: Attempt, p: PaymentId, payment: Pay.Payment)
    requires SystemInv(s) && s.clock < a.at && StrandedAs(s, p, payment) && AsksNow(s, a.step)
    ensures StrandedAs((if a.commits then Do(s, a.at, a.step) else s).(clock := a.at), p, payment)
  {
    hide SystemInv, Do, AsksNow, Unrefunded;
    if a.commits {
      StepKeepsStranded(s, a.at, a.step, p);
    }
  }

  lemma {:induction false} StaysStranded(s: System, attempts: seq<Attempt>, p: PaymentId)
    requires SystemInv(s) && Ticking(s.clock, attempts) && Stranded(s, p) && ChecksAskNow(s, attempts)
    ensures StrandedAs(Run(s, attempts), p, s.pay.db.payments[p])
  {
    hide SystemInv, Do, AsksNow, ChecksAskNow;
    if attempts != [] {
      var front, last := attempts[..|attempts| - 1], attempts[|attempts| - 1];
      hide Stranded, StrandedAs;
      ChecksAskNowBefore(s, attempts);
      StaysStranded(s, front, p);
      RunKeepsInv(s, front);
      AttemptKeepsStranded(Run(s, front), last, p, s.pay.db.payments[p]);
    }
  }

  // ---------------------------------------------------------------- theorems about every reachable state

  /** In every reachable state, with Core's present answer, a refund request for a Paid payment passes the check exactly
      when its order is not cancelled and it has no live refund. */
  lemma PresentAnswerClearsIff(outlets: set<OutletId>, services: map<ServiceId, bool>, attempts: seq<Attempt>, now: int,
                               p: PaymentId)
    requires Ticking(0, attempts)
    requires
      var payments := Run(Start(outlets, services), attempts).pay.db.payments;
      p in payments && payments[p].status == Paid
    ensures
      var s := Run(Start(outlets, services), attempts);
      var payment := s.pay.db.payments[p];
      var t := Pay.Ticket(p, payment.order, payment.amount);
      var waiting := Pay.Perform(s.pay, now, Pay.OpBeginRefund(Some(p), true));
      && t in waiting.waiting && payment.order in s.core.orders
      && var checked := Pay.Perform(waiting, now, Pay.OpCheckRefund(t, Some(View(s.core, payment.order))));
         && checked.db == s.pay.db
         && (checked.cleared[t] > s.pay.cleared[t] <==>
               s.core.orders[payment.order].status != Cancelled && !Pay.HasLiveRefund(s.pay.db, p))
  {
    hide Run, Ticking, SystemInv, Pay.Perform, Pay.HasLiveRefund;
    StartInv(outlets, services);
    RunKeepsInv(Start(outlets, services), attempts);
    PresentAnswerClears(Run(Start(outlets, services), attempts), now, p);
  }

  /** A run that goes on is a run from where it was. */
  lemma {:induction false} RunContinues(s: System, attempts: seq<Attempt>, more: seq<Attempt>)
    ensures Run(s, attempts + more) == Run(Run(s, attempts), more)
  {
    hide Do;
    if more == [] {
      assert attempts + more == attempts;
    } else {
      var n := |more| - 1;
      RunContinues(s, attempts, more[..n]);
      assert (attempts + more)[..|attempts| + n] == attempts + more[..n];
    }
  }

  lemma TickingContinues(attempts: seq<Attempt>, more: seq<Attempt>)
    requires Ticking(0, attempts + more)
    ensures Ticking(0, attempts)
    ensures Ticking(if attempts == [] then 0 else attempts[|attempts| - 1].at, more)
  {
    assert forall i :: 0 <= i < |attempts| ==> (attempts + more)[i] == attempts[i];
    assert forall i :: 0 <= i < |more| ==> (attempts + more)[|attempts| + i] == more[i];
  }

  lemma ReachedAndGoingOn(outlets: set<OutletId>, services: map<ServiceId, bool>, attempts: seq<Attempt>,
                          more: seq<Attempt>)
    requires Ticking(0, attempts + more)
    ensures
      var s := Run(Start(outlets, services), attempts);
      SystemInv(s) && Ticking(s.clock, more) && Run(Start(outlets, services), attempts + more) == Run(s, more)
  {
    hide SystemInv, Run, Ticking;
    TickingContinues(attempts, more);
    StartInv(outlets, services);
    RunKeepsInv(Start(outlets, services), attempts);
    RunContinues(Start(outlets, services), attempts, more);
  }

  /** A cancelled order stays cancelled, whatever happens anywhere in the system. */
  lemma {:induction false} CancelledForGood(outlets: set<OutletId>, services: map<ServiceId, bool>,
                                            attempts: seq<Attempt>, more: seq<Attempt>, id: OrderId)
    requires Ticking(0, attempts + more)
    requires
      var orders := Run(Start(outlets, services), attempts).core.orders;
      id in orders && orders[id].status == Cancelled
    ensures
      var orders := Run(Start(outlets, services), attempts + more).core.orders;
      id in orders && orders[id].status == Cancelled
  {
    hide SystemInv, Run, Ticking;
    ReachedAndGoingOn(outlets, services, attempts, more);
    StaysCancelled(Run(Start(outlets, services), attempts), more, id);
  }

  /** A payment that is stranded stays so: as long as checks ask Core for its present answer, no continuation of any run
      of the system refunds it or changes its row. */
  lemma {:induction false} StrandedForGood(outlets: set<OutletId>, services: map<ServiceId, bool>,
                                           attempts: seq<Attempt>, more: seq<Attempt>, p: PaymentId)
    requires Ticking(0, attempts + more)
    requires Stranded(Run(Start(outlets, services), attempts), p)
    requires ChecksAskNow(Run(Start(outlets, services), attempts), more)
    ensures
      var payment := Run(Start(outlets, services), attempts).pay.db.payments[p];
      StrandedAs(Run(Start(outlets, services), attempts + more), p, payment)
  {
    hide SystemInv, Run, Ticking, ChecksAskNow;
    ReachedAndGoingOn(outlets, services, attempts, more);
    StaysStranded(Run(Start(outlets, services), attempts), more, p);
  }
}
