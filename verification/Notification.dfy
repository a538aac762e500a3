/** Notification's consumers: any number of them, each handling one delivery at a time, sharing one database. A delivery
    is handled in four steps - look up, insert, send, record - and a consumer can crash between any two of them. */
module Notification {
  import opened Wrappers
  import opened OrderState

  type EventId = nat
  type WorkerId = nat

  datatype Kind =
    | OrderCreated | OrderWeighed | StatusChanged(to: Status) | OrderCompleted
    | PaymentPaid | PaymentFailed | PaymentRefunded
    | Unhandled | Malformed

  /** A broker envelope. Envelopes with the same event id are copies of one event. */
  datatype Envelope = Envelope(event: EventId, kind: Kind)

  /** The moments a customer is messaged at; a READY order is one, the other status changes are not. */
  predicate Wanted(kind: Kind) {
    match kind
    case StatusChanged(to) => to == Ready
    case Unhandled => false
    case Malformed => false
    case _ => true
  }

  /** Every message but the first reads the order back from Core, before anything else. */
  predicate ReadsOrder(kind: Kind) {
    Wanted(kind) && kind != OrderCreated
  }

  /** What Core answers about the customer; None when the request, or the one for the order before it, fails. */
  datatype Customer = Customer(phone: string, text: string)

  datatype Message = Message(event: EventId, phone: string, text: string)
  datatype Delivery = Delivery(event: EventId, sent: bool)

  datatype Phase =
    | Rendered(m: Message)
    | Inserted(m: Message)
    | Called(m: Message, sent: bool)

  /** `rows` are the notifications rows with their payload, `calls` the calls of Sender.Send and what they returned. */
  datatype State = State(rows: map<EventId, string>, deliveries: seq<Delivery>, calls: seq<(Message, bool)>,
                         workers: map<WorkerId, Phase>)

  datatype Step =
    | Check(w: WorkerId, env: Envelope, customer: Option<Customer>)
    | Insert(w: WorkerId, reaches: bool)
    | Send(w: WorkerId, sent: bool)
    | Record(w: WorkerId, reaches: bool)
    | Crash(w: WorkerId)

  function Done(s: State, w: WorkerId): State {
    s.(workers := s.workers - {w})
  }

  /** A step that its consumer cannot take changes nothing. `reaches` is false when the statement fails. */
  function Do(s: State, step: Step): State {
    var w := step.w;
    match step
    case Check(_, env, customer) =>
      if w in s.workers || !Wanted(env.kind) || env.event in s.rows || customer.None? || customer.value.phone == ""
        then s
      else s.(workers := s.workers[w := Rendered(Message(env.event, customer.value.phone, customer.value.text))])
    case Insert(_, reaches) =>
      if w !in s.workers || !s.workers[w].Rendered? then s
      else
        var m := s.workers[w].m;
        if !reaches || m.event in s.rows then Done(s, w)
        else s.(rows := s.rows[m.event := m.text], workers := s.workers[w := Inserted(m)])
    case Send(_, sent) =>
      if w !in s.workers || !s.workers[w].Inserted? then s
      else
        var m := s.workers[w].m;
        s.(calls := s.calls + [(m, sent)], workers := s.workers[w := Called(m, sent)])
    case Record(_, reaches) =>
      if w !in s.workers || !s.workers[w].Called? then s
      else
        var p := s.workers[w];
        Done(if reaches then s.(deliveries := s.deliveries + [Delivery(p.m.event, p.sent)]) else s, w)
    case Crash(_) => Done(s, w)
  }

  function Run(s: State, steps: seq<Step>): State {
    if steps == [] then s else Do(Run(s, steps[..|steps| - 1]), steps[|steps| - 1])
  }

  const EMPTY := State(map[], [], [], map[])

  predicate Holds(s: State, w: WorkerId, e: EventId) {
    w in s.workers && s.workers[w].Inserted? && s.workers[w].m.event == e
  }

  predicate Pending(s: State, w: WorkerId, e: EventId) {
    w in s.workers && s.workers[w].Called? && s.workers[w].m.event == e
  }

  predicate Sent(s: State, e: EventId) {
    exists i :: 0 <= i < |s.calls| && s.calls[i].0.event == e
  }

  predicate Delivered(s: State, e: EventId) {
    exists i :: 0 <= i < |s.deliveries| && s.deliveries[i].event == e
  }

  /** Every call is for its own row and carries that row's text; a consumer about to send is the only one for its event,
      which has not been sent. */
  ghost predicate CallsInv(s: State) {
    && (forall i :: 0 <= i < |s.calls| ==>
          s.calls[i].0.event in s.rows && s.rows[s.calls[i].0.event] == s.calls[i].0.text)
    && (forall i, j :: 0 <= i < j < |s.calls| ==> s.calls[i].0.event != s.calls[j].0.event)
    && (forall w :: w in s.workers && s.workers[w].Inserted? ==>
          && s.workers[w].m.event in s.rows && s.rows[s.workers[w].m.event] == s.workers[w].m.text
          && !Sent(s, s.workers[w].m.event))
    && (forall v, w, e :: Holds(s, v, e) && Holds(s, w, e) ==> v == w)
  }

  predicate IsOutcome(d: Delivery, calls: seq<(Message, bool)>) {
    exists j :: 0 <= j < |calls| && Delivery(calls[j].0.event, calls[j].1) == d
  }

  /** Every delivery row is the outcome of its event's call, and no event has two. */
  ghost predicate RowsInv(s: State) {
    && (forall i :: 0 <= i < |s.deliveries| ==>
          IsOutcome(s.deliveries[i], s.calls))
    && (forall i, j :: 0 <= i < j < |s.deliveries| ==> s.deliveries[i].event != s.deliveries[j].event)
  }

  /** A consumer about to write a delivery row made the call it reports, and is the only one for its event. */
  ghost predicate PendingInv(s: State) {
    && (forall w :: w in s.workers && s.workers[w].Called? ==>
          && (s.workers[w].m, s.workers[w].sent) in s.calls
          && !Delivered(s, s.workers[w].m.event))
    && (forall v, w, e :: Pending(s, v, e) && Pending(s, w, e) ==> v == w)
  }

  ghost predicate DeliveriesInv(s: State) {
    RowsInv(s) && PendingInv(s)
  }

  lemma DoKeepsCalls(s: State, step: Step)
    requires CallsInv(s)
    ensures CallsInv(Do(s, step))
  {
    var t, w := Do(s, step), step.w;
    forall v, u, e | Holds(t, v, e) && Holds(t, u, e) ensures v == u {
      assert v != w ==> Holds(s, v, e);
      assert u != w ==> Holds(s, u, e);
    }
    forall v | v in t.workers && t.workers[v].Inserted? ensures !Sent(t, t.workers[v].m.event) {
      var e := t.workers[v].m.event;
      assert Holds(t, v, e);
      if v != w {
        assert Holds(s, v, e);
        assert step.Send? ==> !Holds(s, w, e);
      }
    }
  }

  lemma DoKeepsRows(s: State, step: Step)
    requires DeliveriesInv(s)
    ensures RowsInv(Do(s, step))
  {
    var t := Do(s, step);
    forall i | 0 <= i < |t.deliveries|
      ensures IsOutcome(t.deliveries[i], t.calls)
    {
      if i < |s.deliveries| {
        assert IsOutcome(s.deliveries[i], s.calls);
        var j :| 0 <= j < |s.calls| && Delivery(s.calls[j].0.event, s.calls[j].1) == s.deliveries[i];
        assert t.calls[j] == s.calls[j];
      } else {
        var j :| 0 <= j < |s.calls| && s.calls[j] == (s.workers[step.w].m, s.workers[step.w].sent);
        assert t.calls[j] == s.calls[j];
      }
    }
    forall i, j | 0 <= i < j < |t.deliveries| ensures t.deliveries[i].event != t.deliveries[j].event {
      if j == |s.deliveries| {
        var e := s.workers[step.w].m.event;
        assert !Delivered(s, e) && s.deliveries[i] == t.deliveries[i];
      }
    }
  }

  lemma DoKeepsPending(s: State, step: Step)
    requires CallsInv(s) && DeliveriesInv(s)
    ensures PendingInv(Do(s, step))
  {
    var t, w := Do(s, step), step.w;
    DeliveredWasSent(s);
    hide RowsInv;
    forall v, u, e | Pending(t, v, e) && Pending(t, u, e) ensures v == u {
      assert v != w ==> Pending(s, v, e);
      assert u != w ==> Pending(s, u, e);
      CalledWasSent(s, v, e);
      CalledWasSent(s, u, e);
    }
    forall v | v in t.workers && t.workers[v].Called?
      ensures (t.workers[v].m, t.workers[v].sent) in t.calls
      ensures !Delivered(t, t.workers[v].m.event)
    {
      var e := t.workers[v].m.event;
      if v != w {
        assert Pending(s, v, e);
        assert step.Record? ==> !Pending(s, w, e);
      }
    }
  }

  lemma DeliveredWasSent(s: State)
    requires DeliveriesInv(s)
    ensures forall e :: Delivered(s, e) ==> Sent(s, e)
  {
    forall e | Delivered(s, e) ensures Sent(s, e) {
      var i :| 0 <= i < |s.deliveries| && s.deliveries[i].event == e;
      assert IsOutcome(s.deliveries[i], s.calls);
      var j :| 0 <= j < |s.calls| && Delivery(s.calls[j].0.event, s.calls[j].1) == s.deliveries[i];
      assert s.calls[j].0.event == e;
    }
  }

  lemma CalledWasSent(s: State, w: WorkerId, e: EventId)
    requires DeliveriesInv(s)
    ensures Pending(s, w, e) ==> Sent(s, e)
  {
  }

  lemma {:induction false} RunKeepsInv(steps: seq<Step>)
    ensures CallsInv(Run(EMPTY, steps)) && DeliveriesInv(Run(EMPTY, steps))
  {
    if steps != [] {
      var n := |steps| - 1;
      RunKeepsInv(steps[..n]);
      DoKeepsCalls(Run(EMPTY, steps[..n]), steps[n]);
      DoKeepsRows(Run(EMPTY, steps[..n]), steps[n]);
      DoKeepsPending(Run(EMPTY, steps[..n]), steps[n]);
    }
  }

  /** However often events are redelivered, whichever consumers race and wherever they crash: Send is called at most
      once per event, with the text of a notifications row that exists by then. */
  lemma SendAtMostOncePerEvent(steps: seq<Step>, i: nat, j: nat)
    ensures
      var s := Run(EMPTY, steps);
      && (i < j < |s.calls| ==> s.calls[i].0.event != s.calls[j].0.event)
      && (i < |s.calls| ==> s.calls[i].0.event in s.rows && s.rows[s.calls[i].0.event] == s.calls[i].0.text)
  {
    RunKeepsInv(steps);
  }

  /** A notification has at most one delivery row, and it says what the call returned. */
  lemma DeliveryRowsAreOutcomes(steps: seq<Step>, i: nat, j: nat)
    ensures
      var s := Run(EMPTY, steps);
      && (i < j < |s.deliveries| ==> s.deliveries[i].event != s.deliveries[j].event)
      && (i < |s.deliveries| && j < |s.calls| && s.calls[j].0.event == s.deliveries[i].event ==>
            s.deliveries[i].sent == s.calls[j].1)
      && (i < |s.deliveries| ==> Sent(s, s.deliveries[i].event))
  {
    RunKeepsInv(steps);
    var s := Run(EMPTY, steps);
    if i < |s.deliveries| {
      assert IsOutcome(s.deliveries[i], s.calls);
      var k :| 0 <= k < |s.calls| && Delivery(s.calls[k].0.event, s.calls[k].1) == s.deliveries[i];
      assert s.calls[k].0.event == s.deliveries[i].event;
    }
  }

  /** The price of at-most-once: a row whose consumer is gone is never sent, whatever happens afterwards. */
  lemma {:induction false} OrphanedRowsAreNeverSent(s: State, steps: seq<Step>, e: EventId)
    requires e in s.rows && (forall w :: !Holds(s, w, e)) && !Sent(s, e)
    ensures !Sent(Run(s, steps), e)
    ensures e in Run(s, steps).rows && (forall w :: !Holds(Run(s, steps), w, e))
  {
    if steps != [] {
      var n := |steps| - 1;
      OrphanedRowsAreNeverSent(s, steps[..n], e);
      var before, after := Run(s, steps[..n]), Do(Run(s, steps[..n]), steps[n]);
      forall w ensures !Holds(after, w, e) {
        assert !Holds(before, w, e);
      }
      assert !Holds(before, steps[n].w, e);
    }
  }

  /** Only wanted events are messaged: a row or a consumer holding one comes from a delivery of a wanted kind. */
  lemma {:induction false} OnlyWantedEventsAreSent(steps: seq<Step>, e: EventId)
    requires forall i :: 0 <= i < |steps| && steps[i].Check? && steps[i].env.event == e ==> !Wanted(steps[i].env.kind)
    ensures
      var s := Run(EMPTY, steps);
      e !in s.rows && !Sent(s, e) && forall w :: w in s.workers ==> s.workers[w].m.event != e
  {
    if steps != [] {
      OnlyWantedEventsAreSent(steps[..|steps| - 1], e);
    }
  }

  // ---------------------------------------------------------------- what is sent, and when

  /** The step in which a consumer renders this message: a wanted event, to the phone that Core gave for its
      customer. */
  predicate Renders(step: Step, m: Message) {
    && step.Check? && step.env.event == m.event && Wanted(step.env.kind) && step.customer.Some?
    && step.customer.value.phone == m.phone && m.phone != "" && step.customer.value.text == m.text
  }

  ghost predicate WasRendered(steps: seq<Step>, m: Message) {
    exists k :: 0 <= k < |steps| && Renders(steps[k], m)
  }

  ghost predicate AllRendered(s: State, steps: seq<Step>) {
    && (forall w :: w in s.workers ==> WasRendered(steps, s.workers[w].m))
    && (forall i :: 0 <= i < |s.calls| ==> WasRendered(steps, s.calls[i].0))
  }

  lemma StepIsRendered(s: State, steps: seq<Step>, step: Step)
    requires AllRendered(s, steps)
    ensures AllRendered(Do(s, step), steps + [step])
  {
    var t, all := Do(s, step), steps + [step];
    forall m | WasRendered(steps, m)
      ensures WasRendered(all, m)
    {
      var k :| 0 <= k < |steps| && Renders(steps[k], m);
      assert all[k] == steps[k];
    }
    assert all[|steps|] == step;
    forall w | w in t.workers
      ensures WasRendered(all, t.workers[w].m)
    {
      if w in s.workers {
        assert WasRendered(steps, s.workers[w].m);
      } else {
        assert Renders(step, t.workers[w].m);
      }
    }
    hide Renders;
    forall i | 0 <= i < |t.calls|
      ensures WasRendered(all, t.calls[i].0)
    {
      if i < |s.calls| {
        assert t.calls[i] == s.calls[i];
      }
    }
  }

  /** In every run, each call of Send goes to the customer that Core named for its event, with the text rendered for
      it. */
  lemma {:induction false} MessagesGoToTheCustomer(steps: seq<Step>, i: nat)
    requires i < |Run(EMPTY, steps).calls|
    ensures exists k :: 0 <= k < |steps| && Renders(steps[k], Run(EMPTY, steps).calls[i].0)
  {
    RunRenders(steps);
    assert WasRendered(steps, Run(EMPTY, steps).calls[i].0);
  }

  lemma {:induction false} RunRenders(steps: seq<Step>)
    ensures AllRendered(Run(EMPTY, steps), steps)
  {
    if steps != [] {
      var n := |steps| - 1;
      RunRenders(steps[..n]);
      StepIsRendered(Run(EMPTY, steps[..n]), steps[..n], steps[n]);
      assert steps[..n] + [steps[n]] == steps;
    }
  }

  lemma StepSends(s: State, step: Step, e: EventId)
    ensures Sent(Do(s, step), e) <==> Sent(s, e) || (step.Send? && Holds(s, step.w, e))
  {
    var t := Do(s, step);
    if Sent(s, e) {
      var i :| 0 <= i < |s.calls| && s.calls[i].0.event == e;
      assert t.calls[i] == s.calls[i];
    }
    if step.Send? && Holds(s, step.w, e) {
      assert t.calls[|s.calls|].0.event == e;
    }
  }

  /** An event is messaged exactly when a consumer that inserted its row gets to Send. */
  lemma {:induction false} SentExactlyWhen(steps: seq<Step>, e: EventId)
    ensures
      Sent(Run(EMPTY, steps), e) <==>
      exists k :: 0 <= k < |steps| && steps[k].Send? && Holds(Run(EMPTY, steps[..k]), steps[k].w, e)
  {
    hide Do, Holds, Sent;
    if steps == [] {
      assert !Sent(EMPTY, e) by { NothingSent(e); }
    } else {
      var n := |steps| - 1;
      SentExactlyWhen(steps[..n], e);
      StepSends(Run(EMPTY, steps[..n]), steps[n], e);
      assert forall k :: 0 <= k < n ==> steps[..n][..k] == steps[..k] && steps[..n][k] == steps[k];
      if k :| 0 <= k < n && steps[..n][k].Send? && Holds(Run(EMPTY, steps[..n][..k]), steps[..n][k].w, e) {
        assert steps[k].Send? && Holds(Run(EMPTY, steps[..k]), steps[k].w, e);
      }
      if k :| 0 <= k < |steps| && steps[k].Send? && Holds(Run(EMPTY, steps[..k]), steps[k].w, e) {
        if k < n {
          assert steps[..n][k].Send? && Holds(Run(EMPTY, steps[..n][..k]), steps[..n][k].w, e);
        }
      }
    }
  }

  lemma NothingSent(e: EventId)
    ensures !Sent(EMPTY, e)
  {
  }

  // ---------------------------------------------------------------- one consumer

  /** What Core, the database and the sender answer while one delivery is handled. */
  datatype Answers = Answers(orderFound: bool, checked: bool, customer: Option<Customer>, inserted: bool, sent: bool,
                             recorded: bool)

  datatype Verdict = Ack | Requeue

  /** Without the order, or an answer to whether the event was notified before, the customer is never asked for. */
  function Asked(env: Envelope, a: Answers): Option<Customer> {
    if (ReadsOrder(env.kind) && !a.orderFound) || !a.checked then None else a.customer
  }

  function Handling(w: WorkerId, env: Envelope, a: Answers): seq<Step> {
    [Check(w, env, Asked(env, a)), Insert(w, a.inserted), Send(w, a.sent), Record(w, a.recorded)]
  }

  /** The handler gets as far as the sender: the event is wanted and new, and every answer before that is there. */
  predicate GetsToSend(rows: map<EventId, string>, env: Envelope, a: Answers) {
    && Wanted(env.kind) && (ReadsOrder(env.kind) ==> a.orderFound) && a.checked && env.event !in rows
    && a.customer.Some? && a.customer.value.phone != "" && a.inserted
  }

  class Notifier {
    var rows: map<EventId, string>
    var deliveries: seq<Delivery>
    var calls: seq<(Message, bool)>

    ghost function Shared(): State
      reads this
    {
      State(rows, deliveries, calls, map[])
    }

    constructor ()
      ensures Shared() == EMPTY
    {
      rows, deliveries, calls := map[], [], [];
    }

    /** Handling a delivery to the end is the run of its four steps. It is requeued exactly when a request or a
        statement that it got to failed: an event that was notified before is requeued, too, while its order cannot be
        read or the question whether it was notified fails. The customer is sent the rendered text exactly when the
        handler gets that far. */
    method NotifyCustomer(env: Envelope, a: Answers) returns (v: Verdict)
      modifies this
      ensures Shared() == Run(old(Shared()), Handling(0, env, a))
      ensures v == Ack <==>
        || !Wanted(env.kind)
        || ((ReadsOrder(env.kind) ==> a.orderFound)
            && a.checked
            && (env.event in old(rows)
                || (a.customer.Some? && (a.customer.value.phone == "" || (a.inserted && a.recorded)))))
      ensures
        if GetsToSend(old(rows), env, a) then
          && rows == old(rows)[env.event := a.customer.value.text]
          && calls == old(calls) + [(Message(env.event, a.customer.value.phone, a.customer.value.text), a.sent)]
          && deliveries == old(deliveries) + (if a.recorded then [Delivery(env.event, a.sent)] else [])
        else Shared() == old(Shared())
    {
      Unroll(Shared(), Handling(0, env, a));
      if !Wanted(env.kind) {
        return Ack;
      }
      if env.kind != OrderCreated && !a.orderFound {
        return Requeue;
      }
      if !a.checked {
        return Requeue;
      }
      if env.event in rows {
        return Ack;
      }
      if a.customer.None? {
        return Requeue;
      }
      if a.customer.value.phone == "" {
        return Ack;
      }
      var message := Message(env.event, a.customer.value.phone, a.customer.value.text);
      if !a.inserted {
        return Requeue;
      }
      rows := rows[env.event := message.text];
      calls := calls + [(message, a.sent)];
      if !a.recorded {
        return Requeue;
      }
      deliveries := deliveries + [Delivery(env.event, a.sent)];
      v := Ack;
    }
  }

  lemma Unroll(s: State, steps: seq<Step>)
    requires |steps| == 4
    ensures Run(s, steps) == Do(Do(Do(Do(s, steps[0]), steps[1]), steps[2]), steps[3])
  {
    assert steps[..3][..2] == steps[..2] && steps[..2][..1] == steps[..1] && steps[..1][..0] == [];
    assert Run(s, steps[..1]) == Do(s, steps[0]);
    assert Run(s, steps[..2]) == Do(Run(s, steps[..1]), steps[1]);
    assert Run(s, steps[..3]) == Do(Run(s, steps[..2]), steps[2]);
  }
}
