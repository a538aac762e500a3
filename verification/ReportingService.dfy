/** Reporting's consumers as they run: statements on the report tables. Each handler is proved to have exactly the
    effect of its projection, and the delivery loop to be the run of them. */
module ReportingService {
  import opened Wrappers
  import opened OrderState
  import opened Events
  import Spec = Reporting

  class Reports {
    var orders: map<OrderId, Spec.Summary>
    var sales: map<Spec.Key, Spec.Sales>
    var refunds: map<Spec.Key, Spec.Refunds>
    var processed: set<Spec.EventId>

    ghost function Tables(): Spec.Tables
      reads this
    {
      Spec.Tables(orders, sales, refunds)
    }

    constructor ()
      ensures Tables() == Spec.NO_ROWS && processed == {}
    {
      orders, sales, refunds, processed := map[], map[], map[], {};
    }

    method ProjectOrderCreated(at: int, id: OrderId, outlet: OutletId)
      modifies this`orders
      ensures orders == if id in old(orders) then old(orders)
                        else old(orders)[id := Spec.Summary(outlet, Created, None, at, None)]
    {
      if id !in orders {
        orders := orders[id := Spec.Summary(outlet, Created, None, at, None)];
      }
    }

    method ProjectOrderWeighed(id: OrderId, total: int)
      modifies this`orders
      ensures orders == if id in old(orders) then old(orders)[id := old(orders)[id].(total := Some(total))]
        else old(orders)
    {
      if id in orders {
        orders := orders[id := orders[id].(total := Some(total))];
      }
    }

    method ProjectOrderStatusChanged(at: int, id: OrderId, to: Status)
      modifies this`orders, this`sales
      ensures Tables() == Spec.ProjectMove(old(Tables()), at, id, to)
    {
      ghost var before := orders;
      if id in orders {
        orders := orders[id := orders[id].(status := to)];
      }
      if to == Completed {
        if id in orders {
          var outlet, amount := orders[id].outlet, 0;
          if orders[id].total.Some? {
            amount := orders[id].total.value;
          }
          var key := Spec.Key(Spec.Day(at), outlet);
          orders := orders[id := orders[id].(completedAt := Some(at))];
          assert orders == before[id := before[id].(status := to, completedAt := Some(at))];
          if key in sales {
            var row := sales[key];
            sales := sales[key := row.(gross := row.gross + amount, count := row.count + 1)];
          } else {
            sales := sales[key := Spec.Sales(amount, 1, 0)];
          }
        }
      }
    }

    method ProjectRefund(at: int, id: OrderId, amount: int)
      modifies this`refunds, this`sales
      ensures Tables() == Spec.ProjectRefund(old(Tables()), at, id, amount)
    {
      if id in orders {
        var key := Spec.Key(Spec.Day(at), orders[id].outlet);
        if key in refunds {
          refunds := refunds[key := Spec.Refunds(refunds[key].count + 1, refunds[key].amount + amount)];
        } else {
          refunds := refunds[key := Spec.Refunds(1, amount)];
        }
        if key in sales {
          sales := sales[key := sales[key].(refunded := sales[key].refunded + amount)];
        }
      }
    }

    /** handleCoreEvent and handlePaymentEvent. */
    method Handle(m: Option<Spec.Envelope>) returns (verdict: Spec.Verdict)
      modifies this
      ensures Spec.Outcome(Spec.Db(Tables(), processed), verdict) ==
        Spec.Consume(Spec.Db(old(Tables()), old(processed)), m)
      ensures verdict == Spec.Requeue <==> m.Some? && m.value.id !in old(processed) && m.value.body.BadPayload?
      ensures processed == old(processed) + (if m.Some? && verdict == Spec.Ack then {m.value.id} else {})
      ensures verdict == Spec.Requeue || (m.Some? && m.value.id in old(processed)) ==> Tables() == old(Tables())
    {
      if m.None? {
        return Spec.Ack;
      }
      var env := m.value;
      if env.id in processed {
        return Spec.Ack;
      }
      match env.body {
        case OfCore(OrderCreated(id, outlet)) =>
          ProjectOrderCreated(env.occurredAt, id, outlet);
        case OfCore(OrderWeighed(id, _, _, total)) =>
          ProjectOrderWeighed(id, total);
        case OfCore(OrderMoved(_, id, _, to)) =>
          ProjectOrderStatusChanged(env.occurredAt, id, to);
        case OfPayment(e) =>
          if e.kind == RefundedEvent {
            ProjectRefund(env.occurredAt, e.order, e.amount);
          }
        case UnknownType =>
        case BadPayload =>
          return Spec.Requeue;
      }
      processed := processed + {env.id};
      verdict := Spec.Ack;
    }

    /** The delivery loop over a finite stretch of deliveries, each committing. */
    method ConsumeAll(deliveries: seq<Option<Spec.Envelope>>)
      modifies this
      ensures Spec.Db(Tables(), processed) == Spec.Run(Spec.Db(old(Tables()), old(processed)), Committing(deliveries))
    {
      for i := 0 to |deliveries|
        invariant Spec.Db(Tables(), processed) ==
          Spec.Run(Spec.Db(old(Tables()), old(processed)), Committing(deliveries[..i]))
      {
        var _ := Handle(deliveries[i]);
        assert Committing(deliveries[..i + 1])[..i] == Committing(deliveries[..i]);
      }
      assert deliveries[..|deliveries|] == deliveries;
    }
  }

  function Committing(deliveries: seq<Option<Spec.Envelope>>): seq<Spec.Attempt> {
    seq(|deliveries|, i requires 0 <= i < |deliveries| => Spec.Attempt(deliveries[i], true))
  }
}
