/** What every transaction of Core keeps, and what holds over any run of them. */
module CoreInvariants {
  import opened Wrappers
  import opened OrderState
  import opened Events
  import opened Catalog
  import opened Orders
  import opened CoreDb

  predicate IsCompletion(e: CoreEvent) {
    e.OrderMoved? && e.to == Completed
  }

  ghost predicate Weighed(outbox: seq<OutboxRow<CoreEvent>>, id: OrderId, total: int) {
    exists i ::
      && 0 <= i < |outbox| && outbox[i].event.OrderWeighed?
      && outbox[i].event.order == id && outbox[i].event.total == total
  }

  /** Each item was priced at the price its order's creation time has in the table. */
  ghost predicate PricesRemembered(prices: seq<PriceRow>, o: Order) {
    forall i :: 0 <= i < |o.items| ==>
      PriceAt(prices, o.items[i].service, Some(o.outlet), o.createdAt, o.items[i].unitPrice)
  }

  /** Outbox and orders agree: at most one completion per order, emitted only by an order that got that far,
      and the order's total is one that some order.weighed announced. */
  ghost predicate OutboxInv(db: Db) {
    && (forall i :: 0 <= i < |db.outbox| ==> db.outbox[i].event.order in db.orders)
    && (forall i :: 0 <= i < |db.outbox| && IsCompletion(db.outbox[i].event) ==>
          Rank(db.orders[db.outbox[i].event.order].status) >= Rank(Completed))
    && (forall i, j ::
          0 <= i < j < |db.outbox| && IsCompletion(db.outbox[i].event) && IsCompletion(db.outbox[j].event) ==>
          db.outbox[i].event.order != db.outbox[j].event.order)
    && (forall id :: id in db.orders && db.orders[id].total.Some? ==> Weighed(db.outbox, id, db.orders[id].total.value))
  }

  /** Every request is for an order that exists, and no order has two: order_id is UNIQUE. */
  ghost predicate OneRequestEach(rows: map<RequestId, Fulfillment>, orders: map<OrderId, Order>) {
    && (forall r :: r in rows ==> rows[r].order in orders)
    && (forall r, q :: r in rows && q in rows && rows[r].order == rows[q].order ==> r == q)
  }

  ghost predicate RequestsInv(db: Db) {
    OneRequestEach(db.pickups, db.orders) && OneRequestEach(db.deliveries, db.orders)
  }

  /** The total that the order's last order.weighed announced. */
  function LastTotal(outbox: seq<OutboxRow<CoreEvent>>, id: OrderId): Option<int> {
    if outbox == [] then None
    else
      var e := outbox[|outbox| - 1].event;
      if e.OrderWeighed? && e.order == id then Some(e.total) else LastTotal(outbox[..|outbox| - 1], id)
  }

  /** Row i is the last total Core has announced for the order. */
  predicate IsLastWeighing(outbox: seq<OutboxRow<CoreEvent>>, i: nat, id: OrderId) {
    && i < |outbox| && outbox[i].event.OrderWeighed? && outbox[i].event.order == id
    && forall j :: i < j < |outbox| ==> !(outbox[j].event.OrderWeighed? && outbox[j].event.order == id)
  }

  ghost predicate TotalsInv(db: Db) {
    forall id :: id in db.orders ==> db.orders[id].total == LastTotal(db.outbox, id)
  }

  ghost predicate CoreInv(db: Db, clock: int) {
    StateInv(db, clock) && RequestsInv(db) && TotalsInv(db)
  }

  /** Orders are lawful and priced as their creation time demands, and agree with the catalog and the outbox. */
  ghost predicate StateInv(db: Db, clock: int) {
    && (forall id :: id in db.orders ==>
          OrderInv(db.orders[id]) && db.orders[id].createdAt <= clock && PricesRemembered(db.prices, db.orders[id]))
    && Timeline(db.prices, clock)
    && TaxTimeline(db.taxRates, clock)
    && OutboxInv(db)
  }

  lemma ClockAdvances(db: Db, clock: int, now: int)
    requires StateInv(db, clock) && clock <= now
    ensures StateInv(db, now)
  {
  }

  lemma TimePasses(db: Db, clock: int, now: int)
    requires CoreInv(db, clock) && clock <= now
    ensures CoreInv(db, now)
  {
    hide StateInv;
    ClockAdvances(db, clock, now);
  }

  /** Orders are never deleted and only evolve; the outbox and the dedup ledger only grow. */
  ghost predicate Grows(db: Db, db': Db) {
    && (forall id :: id in db.orders ==> id in db'.orders && Evolves(db.orders[id], db'.orders[id]))
    && db.outbox <= db'.outbox
    && db.processed <= db'.processed
  }

  lemma GrowsReflexive(db: Db)
    ensures Grows(db, db)
  {
  }

  lemma GrowsTransitive(a: Db, b: Db, c: Db)
    requires Grows(a, b) && Grows(b, c)
    ensures Grows(a, c)
  {
    forall id | id in a.orders
      ensures id in c.orders && Evolves(a.orders[id], c.orders[id])
    {
      EvolvesTransitive(a.orders[id], b.orders[id], c.orders[id]);
    }
  }

  // ---------------------------------------------------------------- shapes of a write

  /** An event that may accompany the replacement of o by o'. */
  ghost predicate Fits(id: OrderId, o: Order, o': Order, e: CoreEvent) {
    && e.order == id
    && (IsCompletion(e) ==> Rank(o.status) < Rank(Completed) <= Rank(o'.status))
    && (o'.total.Some? && o'.total != o.total ==> e.OrderWeighed? && e.total == o'.total.value)
  }

  lemma ReplaceKeepsInv(db: Db, clock: int, id: OrderId, o': Order)
    requires StateInv(db, clock) && id in db.orders
    requires OrderInv(o') && Evolves(db.orders[id], o') && o'.total == db.orders[id].total
    ensures StateInv(db.(orders := db.orders[id := o']), clock) && Grows(db, db.(orders := db.orders[id := o']))
  {
    hide OrderInv, Timeline, TaxTimeline, PriceAt;
    var db' := db.(orders := db.orders[id := o']);
    assert PricesRemembered(db.prices, db.orders[id]);
    assert PricesRemembered(db.prices, o');
    assert forall k :: k in db'.orders && db'.orders[k].total.Some? ==> db.orders[k].total == db'.orders[k].total;
  }

  lemma {:induction false} WriteKeepsInv(db: Db, clock: int, now: int, id: OrderId, o': Order, e: CoreEvent)
    requires StateInv(db, clock) && id in db.orders
    requires OrderInv(o') && Evolves(db.orders[id], o') && Fits(id, db.orders[id], o', e)
    ensures StateInv(Write(db, id, o', e, now), clock) && Grows(db, Write(db, id, o', e, now))
  {
    hide OrderInv, Timeline, TaxTimeline, PriceAt;
    var db' := Write(db, id, o', e, now);
    assert PricesRemembered(db.prices, db.orders[id]);
    assert PricesRemembered(db.prices, o');
    forall k | k in db'.orders && db'.orders[k].total.Some?
      ensures Weighed(db'.outbox, k, db'.orders[k].total.value)
    {
      if db'.orders[k].total == db.orders[k].total {
        StillWeighed(db.outbox, db'.outbox, k, db'.orders[k].total.value);
      } else {
        assert db'.outbox[|db.outbox|].event == e;
      }
    }
  }

  lemma {:induction false} TransitionKeepsInv(db: Db, clock: int, now: int, id: OrderId, to: Status)
    requires StateInv(db, clock) && id in db.orders
    requires Edge(db.orders[id].status, to) && (InLaundry(to) ==> db.orders[id].paymentStatus == Paid)
    ensures StateInv(Transition(db, id, db.orders[id], to, now), clock)
      && Grows(db, Transition(db, id, db.orders[id], to, now))
  {
    hide Timeline, TaxTimeline, PricesRemembered, OutboxInv;
    var o := db.orders[id];
    MoveKeepsInv(o, to);
    EdgeRaisesRank(o.status, to);
    WriteKeepsInv(db, clock, now, id, Move(o, to), MoveEvent(id, o.status, to));
  }

  /** The invariant does not depend on the request tables, and the ledger may grow. */
  lemma SideTablesKeepInv(db: Db, clock: int, db': Db)
    requires StateInv(db, clock)
    requires db' == db.(pickups := db'.pickups, deliveries := db'.deliveries, processed := db'.processed)
    requires db.processed <= db'.processed
    ensures StateInv(db', clock) && Grows(db, db')
  {
    hide OrderInv, Timeline, TaxTimeline;
  }

  // ---------------------------------------------------------------- the transactions

  lemma InsertKeepsInv(db: Db, clock: int, now: int, id: OrderId, o: Order)
    requires StateInv(db, clock) && id !in db.orders
    requires OrderInv(o) && o.createdAt <= clock && PricesRemembered(db.prices, o) && o.total.None?
    ensures StateInv(Write(db, id, o, OrderCreated(id, o.outlet), now), clock)
    ensures Grows(db, Write(db, id, o, OrderCreated(id, o.outlet), now))
  {
    hide OrderInv, Timeline, TaxTimeline, PriceAt;
    var db' := Write(db, id, o, OrderCreated(id, o.outlet), now);
    forall k | k in db'.orders && db'.orders[k].total.Some?
      ensures Weighed(db'.outbox, k, db'.orders[k].total.value)
    {
      StillWeighed(db.outbox, db'.outbox, k, db.orders[k].total.value);
    }
  }

  lemma StillWeighed(outbox: seq<OutboxRow<CoreEvent>>, outbox': seq<OutboxRow<CoreEvent>>, id: OrderId, total: int)
    requires Weighed(outbox, id, total) && outbox <= outbox'
    ensures Weighed(outbox', id, total)
  {
    var i :| 0 <= i < |outbox| && outbox[i].event.OrderWeighed? && outbox[i].event.order == id
      && outbox[i].event.total == total;
    assert outbox'[i] == outbox[i];
  }

  lemma {:induction false} CreateOrderKeepsInv(db: Db, clock: int, now: int, id: OrderId, req: OrderRequest)
    requires StateInv(db, clock) && clock < now
    ensures StateInv(CreateOrder(db, now, id, req).db, now) && Grows(db, CreateOrder(db, now, id, req).db)
  {
    hide Timeline, TaxTimeline, PriceAt, ActivePrice, OutboxInv, Grows;
    ClockAdvances(db, clock, now);
    GrowsReflexive(db);
    if CreateOrder(db, now, id, req).reply == Accepted {
      var outlet := req.outlet.value;
      var db0 := db.(pickups := InsertRequest(db.pickups, req.pickup, id).value,
                     deliveries := InsertRequest(db.deliveries, req.delivery, id).value);
      var o := CreateOrder(db, now, id, req).db.orders[id];
      forall i | 0 <= i < |o.items|
        ensures ItemInv(o.items[i]) && PriceAt(db.prices, o.items[i].service, Some(outlet), now, o.items[i].unitPrice)
      {
        assert o.items[i] == PrepareItem(db, outlet, req.lines[i]).value;
        ActivePriceIsPriceNow(db.prices, clock, o.items[i].service, Some(outlet), now);
      }
      SideTablesKeepInv(db, now, db0);
      InsertKeepsInv(db0, now, now, id, o);
      GrowsTransitive(db, db0, CreateOrder(db, now, id, req).db);
    }
  }

  lemma {:induction false} RequestKeepsInv(db: Db, clock: int, now: int, kind: Kind, request: RequestId, id: OrderId)
    requires StateInv(db, clock) && clock < now
    ensures StateInv(RequestFulfillment(db, kind, request, id).db, now)
      && Grows(db, RequestFulfillment(db, kind, request, id).db)
  {
    ClockAdvances(db, clock, now);
    GrowsReflexive(db);
  }

  lemma {:induction false} WeighItemKeepsInv(db: Db, clock: int, now: int, id: OrderId, item: nat, kg: real)
    requires StateInv(db, clock) && clock < now
    ensures StateInv(WeighItem(db, now, id, item, kg).db, now) && Grows(db, WeighItem(db, now, id, item, kg).db)
    ensures WeighItem(db, now, id, item, kg).reply != ItemLocked
  {
    ClockAdvances(db, clock, now);
    GrowsReflexive(db);
    if kg >= 0.0 && id in db.orders && item < |db.orders[id].items| {
      var o := db.orders[id];
      assert ItemInv(o.items[item]);
      if o.status == Received || o.status == Weighing {
        WeighKeepsInv(o, item, kg);
        if o.status == Received {
          WriteKeepsInv(db, now, now, id, Weigh(o, item, kg), MoveEvent(id, Received, Weighing));
        } else {
          ReplaceKeepsInv(db, now, id, Weigh(o, item, kg));
        }
      }
    }
  }

  lemma {:induction false} FinalizeWeighingKeepsInv(db: Db, clock: int, now: int, id: OrderId, pickupFee: Option<int>,
                                                    deliveryFee: Option<int>)
    requires StateInv(db, clock) && clock < now
    ensures StateInv(FinalizeWeighing(db, now, id, pickupFee, deliveryFee).db, now)
    ensures Grows(db, FinalizeWeighing(db, now, id, pickupFee, deliveryFee).db)
  {
    ClockAdvances(db, clock, now);
    GrowsReflexive(db);
    TaxAlwaysActive(db.taxRates, clock);
    if id in db.orders && AllWeighed(db.orders[id].items) {
      var o := Finalize(db.orders[id], ActiveTax(db.taxRates).value, pickupFee, deliveryFee);
      if PassesChecks(o) {
        FinalizeKeepsInv(db.orders[id], ActiveTax(db.taxRates).value, pickupFee, deliveryFee);
        WriteKeepsInv(db, now, now, id, o, OrderWeighed(id, o.subtotal.value, o.tax, o.total.value));
      }
    }
  }

  lemma {:induction false} ChangeStatusKeepsInv(db: Db, clock: int, now: int, id: OrderId, to: Option<Status>,
                                                hasReason: bool)
    requires StateInv(db, clock) && clock < now
    ensures StateInv(ChangeStatus(db, now, id, to, hasReason).db, now)
      && Grows(db, ChangeStatus(db, now, id, to, hasReason).db)
  {
    hide Timeline, TaxTimeline, PricesRemembered, OutboxInv, Path, ItemInv, MoneyInv, Grows, Transition;
    ClockAdvances(db, clock, now);
    GrowsReflexive(db);
    if id in db.orders && to.Some? && IsValidTransition(db.orders[id].status, to.value) {
      EdgeRaisesRank(db.orders[id].status, to.value);
      assert OrderInv(db.orders[id]);
      TransitionKeepsInv(db, now, now, id, to.value);
    }
  }

  lemma {:induction false} FulfillmentKeepsInv(db: Db, clock: int, now: int, kind: Kind, request: RequestId,
                                               status: FulfillmentStatus)
    requires StateInv(db, clock) && clock < now
    ensures StateInv(UpdateFulfillment(db, now, kind, request, status).db, now)
    ensures Grows(db, UpdateFulfillment(db, now, kind, request, status).db)
  {
    hide Timeline, TaxTimeline, PricesRemembered, OutboxInv, Path, ItemInv, MoneyInv, Grows, Transition;
    ClockAdvances(db, clock, now);
    GrowsReflexive(db);
    var rows := Requests(db, kind);
    if status != Requested && request in rows {
      var id := rows[request].order;
      var db' := WithRequests(db, kind, rows[request := Fulfillment(id, status)]);
      SideTablesKeepInv(db, now, db');
      if status == Done && id in db.orders && db.orders[id].status == FromStatus(kind) {
        assert OrderInv(db'.orders[id]);
        TransitionKeepsInv(db', now, now, id, ToStatus(kind));
        GrowsTransitive(db, db', Transition(db', id, db'.orders[id], ToStatus(kind), now));
      }
    }
  }

  lemma CreatePricingKeepsInv(db: Db, clock: int, now: int, service: ServiceId, outlet: Option<OutletId>, price: int)
    requires StateInv(db, clock) && clock < now
    ensures StateInv(CreatePricing(db, now, service, outlet, price).db, now)
    ensures Grows(db, CreatePricing(db, now, service, outlet, price).db)
  {
    ClockAdvances(db, clock, now);
    GrowsReflexive(db);
    var db' := CreatePricing(db, now, service, outlet, price).db;
    if price > 0 && service in db.services {
      PublishKeepsTimeline(db.prices, clock, service, outlet, price, now);
      forall id | id in db'.orders
        ensures PricesRemembered(db'.prices, db'.orders[id])
      {
        var o := db.orders[id];
        assert PricesRemembered(db.prices, o);
        forall i | 0 <= i < |o.items|
          ensures PriceAt(db'.prices, o.items[i].service, Some(o.outlet), o.createdAt, o.items[i].unitPrice)
        {
          PublishKeepsPast(db.prices, service, outlet, price, now, o.items[i].service, Some(o.outlet), o.createdAt,
            o.items[i].unitPrice);
        }
      }
    }
  }

  lemma SetTaxRateKeepsInv(db: Db, clock: int, now: int, rate: real, hasReason: bool)
    requires StateInv(db, clock) && clock < now
    ensures StateInv(SetTaxRate(db, now, rate, hasReason).db, now) && Grows(db, SetTaxRate(db, now, rate, hasReason).db)
  {
    ClockAdvances(db, clock, now);
    GrowsReflexive(db);
    if 0.0 <= rate <= 100.0 {
      PublishKeepsTax(db.taxRates, clock, rate, now);
      hide StateInv, TaxTimeline, PublishTax;
      NewTaxesKeepInv(db, now, PublishTax(db.taxRates, rate, now));
    }
  }

  lemma NewTaxesKeepInv(db: Db, clock: int, taxRates: seq<TaxRow>)
    requires StateInv(db, clock) && TaxTimeline(taxRates, clock)
    ensures StateInv(db.(taxRates := taxRates), clock) && Grows(db, db.(taxRates := taxRates))
  {
    hide OrderInv, Timeline, TaxTimeline, PricesRemembered, Weighed;
  }

  lemma {:induction false} ConsumeKeepsInv(db: Db, clock: int, now: int, m: Message)
    requires StateInv(db, clock) && clock < now
    ensures StateInv(ConsumePayment(db, now, m).db, now) && Grows(db, ConsumePayment(db, now, m).db)
  {
    hide Timeline, TaxTimeline, PricesRemembered, OrderInv, Move, Write;
    ClockAdvances(db, clock, now);
    GrowsReflexive(db);
    if m.Envelope? && m.id !in db.processed && m.body.Payment? {
      var e := m.body.event;
      var marked := db.(processed := db.processed + {m.id});
      SideTablesKeepInv(db, now, marked);
      if e.order in db.orders {
        var o := db.orders[e.order];
        var o' := Project(o, e.kind);
        ProjectKeepsInv(o, e.kind);
        if o'.status != o.status {
          WriteKeepsInv(marked, now, now, e.order, o', MoveEvent(e.order, o.status, o'.status));
        } else {
          ReplaceKeepsInv(marked, now, e.order, o');
        }
        GrowsTransitive(db, marked, ConsumePayment(db, now, m).db);
      }
    }
  }

  lemma {:induction false} PerformKeepsState(db: Db, clock: int, now: int, op: Op)
    requires StateInv(db, clock) && clock < now
    ensures StateInv(Perform(db, now, op).db, now) && Grows(db, Perform(db, now, op).db)
  {
    hide StateInv, Grows;
    ClockAdvances(db, clock, now);
    GrowsReflexive(db);
    match op
    case OpCreateOrder(id, req) => CreateOrderKeepsInv(db, clock, now, id, req);
    case OpWeighItem(id, item, kg) => WeighItemKeepsInv(db, clock, now, id, item, kg);
    case OpFinalize(id, pf, df) => FinalizeWeighingKeepsInv(db, clock, now, id, pf, df);
    case OpChangeStatus(id, to, hasReason) => ChangeStatusKeepsInv(db, clock, now, id, to, hasReason);
    case OpRequest(kind, request, id) => RequestKeepsInv(db, clock, now, kind, request, id);
    case OpUpdateRequest(kind, request, status) => FulfillmentKeepsInv(db, clock, now, kind, request, status);
    case OpCreatePricing(service, outlet, price) => CreatePricingKeepsInv(db, clock, now, service, outlet, price);
    case OpSetTaxRate(rate, hasReason) => SetTaxRateKeepsInv(db, clock, now, rate, hasReason);
    case OpConsume(m) => ConsumeKeepsInv(db, clock, now, m);
  }

  lemma MoreOrdersKeepRequests(rows: map<RequestId, Fulfillment>, orders: map<OrderId, Order>,
                               orders': map<OrderId, Order>)
    requires OneRequestEach(rows, orders) && orders.Keys <= orders'.Keys
    ensures OneRequestEach(rows, orders')
  {
  }

  lemma InsertKeepsRequests(rows: map<RequestId, Fulfillment>, orders: map<OrderId, Order>, id: Option<RequestId>,
                            order: OrderId, o: Order)
    requires OneRequestEach(rows, orders) && order !in orders && InsertRequest(rows, id, order).Some?
    ensures OneRequestEach(InsertRequest(rows, id, order).value, orders[order := o])
  {
  }

  lemma {:induction false} RequestKeepsRequests(db: Db, now: int, op: Op)
    requires RequestsInv(db) && op.OpRequest?
    ensures RequestsInv(Perform(db, now, op).db)
  {
  }

  lemma UpdatingARequest(rows: map<RequestId, Fulfillment>, orders: map<OrderId, Order>, orders': map<OrderId, Order>,
                         r: RequestId, status: FulfillmentStatus)
    requires OneRequestEach(rows, orders) && orders.Keys <= orders'.Keys && r in rows
    ensures OneRequestEach(rows[r := Fulfillment(rows[r].order, status)], orders')
  {
  }

  lemma {:induction false} UpdateKeepsRequests(db: Db, now: int, op: Op)
    requires RequestsInv(db) && op.OpUpdateRequest?
    ensures RequestsInv(Perform(db, now, op).db)
  {
    hide Move, MoveEvent, OneRequestEach;
    PerformKeepsRows(db, now, op);
    var orders' := Perform(db, now, op).db.orders;
    MoreOrdersKeepRequests(db.pickups, db.orders, orders');
    MoreOrdersKeepRequests(db.deliveries, db.orders, orders');
    if op.request in Requests(db, op.kind) {
      UpdatingARequest(Requests(db, op.kind), db.orders, orders', op.request, op.status);
    }
  }

  lemma {:induction false} CreateKeepsRequests(db: Db, now: int, op: Op)
    requires RequestsInv(db) && op.OpCreateOrder?
    ensures RequestsInv(Perform(db, now, op).db)
  {
    hide Preparable, Prepare, Estimate, InsertRequest, OneRequestEach;
    if Perform(db, now, op).reply == Accepted {
      var o := Perform(db, now, op).db.orders[op.id];
      InsertKeepsRequests(db.pickups, db.orders, op.req.pickup, op.id, o);
      InsertKeepsRequests(db.deliveries, db.orders, op.req.delivery, op.id, o);
    }
  }

  lemma {:induction false} RequestTablesStay(db: Db, now: int, op: Op)
    requires !op.OpRequest? && !op.OpUpdateRequest? && !op.OpCreateOrder?
    ensures Perform(db, now, op).db.pickups == db.pickups && Perform(db, now, op).db.deliveries == db.deliveries
  {
    hide Weigh, Finalize, Project, PassesChecks, ActiveTax, PublishPrice, PublishTax, IsValidTransition;
  }

  lemma {:induction false} PerformKeepsRequests(db: Db, now: int, op: Op)
    requires RequestsInv(db)
    ensures RequestsInv(Perform(db, now, op).db)
  {
    hide Perform, OneRequestEach;
    if op.OpRequest? {
      RequestKeepsRequests(db, now, op);
    } else if op.OpUpdateRequest? {
      UpdateKeepsRequests(db, now, op);
    } else if op.OpCreateOrder? {
      CreateKeepsRequests(db, now, op);
    } else {
      PerformKeepsRows(db, now, op);
      RequestTablesStay(db, now, op);
      MoreOrdersKeepRequests(db.pickups, db.orders, Perform(db, now, op).db.orders);
      MoreOrdersKeepRequests(db.deliveries, db.orders, Perform(db, now, op).db.orders);
    }
  }

  lemma LastTotalAfter(outbox: seq<OutboxRow<CoreEvent>>, row: OutboxRow<CoreEvent>, id: OrderId)
    ensures LastTotal(outbox + [row], id) ==
              if row.event.OrderWeighed? && row.event.order == id then Some(row.event.total) else LastTotal(outbox, id)
  {
    assert (outbox + [row])[..|outbox|] == outbox;
  }

  lemma {:induction false} NeverWeighed(outbox: seq<OutboxRow<CoreEvent>>, id: OrderId)
    requires forall i :: 0 <= i < |outbox| ==> outbox[i].event.order != id
    ensures LastTotal(outbox, id) == None
  {
    if outbox != [] {
      NeverWeighed(outbox[..|outbox| - 1], id);
    }
  }

  lemma {:induction false} LastTotalWasWeighed(outbox: seq<OutboxRow<CoreEvent>>, id: OrderId)
    ensures LastTotal(outbox, id).Some? ==> Weighed(outbox, id, LastTotal(outbox, id).value)
  {
    if outbox != [] {
      var n := |outbox| - 1;
      LastTotalWasWeighed(outbox[..n], id);
      if LastTotal(outbox[..n], id).Some? {
        StillWeighed(outbox[..n], outbox, id, LastTotal(outbox[..n], id).value);
      }
    }
  }

  /** From db to db' nothing was announced and no total changed, or one event was appended and set the total it
      announces. */
  ghost predicate TotalsFollow(db: Db, db': Db) {
    || (db'.outbox == db.outbox && forall id :: id in db'.orders ==>
          id in db.orders && db'.orders[id].total == db.orders[id].total)
    || exists row :: db'.outbox == db.outbox + [row] && Announces(db.orders, db'.orders, row.event)
  }

  ghost predicate Announces(orders: map<OrderId, Order>, orders': map<OrderId, Order>, e: CoreEvent) {
    forall id :: id in orders' ==>
      if e.OrderWeighed? && e.order == id then orders'[id].total == Some(e.total)
      else orders'[id].total == if id in orders then orders[id].total else None
  }

  /** One order is written and its event appended. */
  lemma WriteFollows(db: Db, db0: Db, id: OrderId, o: Order, e: CoreEvent, now: int)
    requires db0 == db.(pickups := db0.pickups, deliveries := db0.deliveries, processed := db0.processed)
    requires if e.OrderWeighed? then e.order == id && o.total == Some(e.total)
             else o.total == if id in db.orders then db.orders[id].total else None
    ensures TotalsFollow(db, Write(db0, id, o, e, now))
  {
    assert Announces(db.orders, Write(db0, id, o, e, now).orders, OutboxRow(e, now).event);
  }

  lemma NothingFollows(db: Db, db': Db)
    requires db'.outbox == db.outbox && forall id :: id in db'.orders ==>
      id in db.orders && db'.orders[id].total == db.orders[id].total
    ensures TotalsFollow(db, db')
  {
  }

  lemma {:induction false} TotalsOfCreate(db: Db, now: int, id: OrderId, req: OrderRequest)
    ensures TotalsFollow(db, CreateOrder(db, now, id, req).db)
  {
    hide TotalsFollow, Preparable, Prepare, Estimate, InsertRequest, Write;
    var o := CreateOrder(db, now, id, req);
    if o.reply == Accepted {
      var outlet := req.outlet.value;
      var order := NewOrder(outlet, now, Prepare(db, outlet, req.lines), Estimate(Prepare(db, outlet, req.lines)),
                            if req.discount.Some? then req.discount.value else 0);
      var db0 := db.(pickups := InsertRequest(db.pickups, req.pickup, id).value,
                     deliveries := InsertRequest(db.deliveries, req.delivery, id).value);
      WriteFollows(db, db0, id, order, OrderCreated(id, outlet), now);
    } else {
      NothingFollows(db, db);
    }
  }

  lemma {:induction false} TotalsOfWeigh(db: Db, now: int, id: OrderId, item: nat, kg: real)
    ensures TotalsFollow(db, WeighItem(db, now, id, item, kg).db)
  {
    hide TotalsFollow, Write, WeighedItem;
    var outcome := WeighItem(db, now, id, item, kg);
    if outcome.reply == Accepted && db.orders[id].status == Received {
      WriteFollows(db, db, id, Weigh(db.orders[id], item, kg), MoveEvent(id, Received, Weighing), now);
    } else {
      NothingFollows(db, outcome.db);
    }
  }

  lemma {:induction false} TotalsOfFinalize(db: Db, now: int, id: OrderId, pickupFee: Option<int>,
                                            deliveryFee: Option<int>)
    ensures TotalsFollow(db, FinalizeWeighing(db, now, id, pickupFee, deliveryFee).db)
  {
    hide TotalsFollow, Write, SumSubtotals, TaxOn, PassesChecks, ActiveTax, AllWeighed;
    var outcome := FinalizeWeighing(db, now, id, pickupFee, deliveryFee);
    if outcome.reply == Accepted {
      var o := Finalize(db.orders[id], ActiveTax(db.taxRates).value, pickupFee, deliveryFee);
      WriteFollows(db, db, id, o, OrderWeighed(id, o.subtotal.value, o.tax, o.total.value), now);
    } else {
      NothingFollows(db, db);
    }
  }

  lemma {:induction false} TotalsOfChange(db: Db, now: int, id: OrderId, to: Option<Status>, hasReason: bool)
    ensures TotalsFollow(db, ChangeStatus(db, now, id, to, hasReason).db)
  {
    hide TotalsFollow, Write, IsValidTransition;
    if ChangeStatus(db, now, id, to, hasReason).reply == Accepted {
      WriteFollows(db, db, id, Move(db.orders[id], to.value), MoveEvent(id, db.orders[id].status, to.value), now);
    } else {
      NothingFollows(db, db);
    }
  }

  lemma {:induction false} TotalsOfUpdate(db: Db, now: int, kind: Kind, request: RequestId, status: FulfillmentStatus)
    ensures TotalsFollow(db, UpdateFulfillment(db, now, kind, request, status).db)
  {
    hide TotalsFollow, Write;
    var outcome, rows := UpdateFulfillment(db, now, kind, request, status), Requests(db, kind);
    if outcome.db.orders != db.orders {
      var id := rows[request].order;
      WriteFollows(db, WithRequests(db, kind, rows[request := Fulfillment(id, status)]), id,
        Move(db.orders[id], ToStatus(kind)),
                   MoveEvent(id, db.orders[id].status, ToStatus(kind)), now);
    } else {
      UpdateAnnouncesMoves(db, now, kind, request, status);
      NothingFollows(db, outcome.db);
    }
  }

  lemma UpdateAnnouncesMoves(db: Db, now: int, kind: Kind, request: RequestId, status: FulfillmentStatus)
    ensures
      var db' := UpdateFulfillment(db, now, kind, request, status).db;
      db'.orders == db.orders ==> db'.outbox == db.outbox
  {
    var rows := Requests(db, kind);
    if request in rows && rows[request].order in db.orders {
      var o := db.orders[rows[request].order];
      assert |Move(o, ToStatus(kind)).history| == |o.history| + 1;
    }
  }

  lemma {:induction false} TotalsOfConsume(db: Db, now: int, m: Message)
    ensures TotalsFollow(db, ConsumePayment(db, now, m).db)
  {
    hide TotalsFollow, Write;
    var outcome := ConsumePayment(db, now, m);
    if m.Envelope? && m.body.Payment? && m.body.event.order in db.orders && m.id !in db.processed {
      var o, e := db.orders[m.body.event.order], m.body.event;
      var o' := Project(o, e.kind);
      if o'.status != o.status {
        WriteFollows(db, db.(processed := db.processed + {m.id}), e.order, o', MoveEvent(e.order, o.status, o'.status),
          now);
      } else {
        NothingFollows(db, outcome.db);
      }
    } else {
      NothingFollows(db, outcome.db);
    }
  }

  lemma {:induction false} TotalsOfSideTables(db: Db, now: int, op: Op)
    requires op.OpRequest? || op.OpCreatePricing? || op.OpSetTaxRate?
    ensures TotalsFollow(db, Perform(db, now, op).db)
  {
    hide PublishPrice, PublishTax;
  }

  lemma {:induction false} TotalsEffect(db: Db, now: int, op: Op)
    ensures TotalsFollow(db, Perform(db, now, op).db)
  {
    hide TotalsFollow, CreateOrder, WeighItem, FinalizeWeighing, ChangeStatus, UpdateFulfillment, ConsumePayment,
         RequestFulfillment, CreatePricing, SetTaxRate;
    match op
    case OpCreateOrder(id, req) => TotalsOfCreate(db, now, id, req);
    case OpWeighItem(id, item, kg) => TotalsOfWeigh(db, now, id, item, kg);
    case OpFinalize(id, pf, df) => TotalsOfFinalize(db, now, id, pf, df);
    case OpChangeStatus(id, to, hasReason) => TotalsOfChange(db, now, id, to, hasReason);
    case OpUpdateRequest(kind, request, status) => TotalsOfUpdate(db, now, kind, request, status);
    case OpConsume(m) => TotalsOfConsume(db, now, m);
    case OpRequest(_, _, _) => TotalsOfSideTables(db, now, op);
    case OpCreatePricing(_, _, _) => TotalsOfSideTables(db, now, op);
    case OpSetTaxRate(_, _) => TotalsOfSideTables(db, now, op);
  }

  lemma {:induction false} PerformKeepsTotals(db: Db, now: int, op: Op)
    requires TotalsInv(db) && OutboxInv(db)
    ensures TotalsInv(Perform(db, now, op).db)
  {
    TotalsEffect(db, now, op);
    hide Perform;
    var db' := Perform(db, now, op).db;
    if row :| db'.outbox == db.outbox + [row] && Announces(db.orders, db'.orders, row.event) {
      forall id | id in db'.orders ensures db'.orders[id].total == LastTotal(db'.outbox, id) {
        LastTotalAfter(db.outbox, row, id);
        if id !in db.orders {
          NeverWeighed(db.outbox, id);
        }
      }
    }
  }

  lemma {:induction false} PerformKeepsInv(db: Db, clock: int, now: int, op: Op)
    requires CoreInv(db, clock) && clock < now
    ensures CoreInv(Perform(db, now, op).db, now) && Grows(db, Perform(db, now, op).db)
  {
    assert OutboxInv(db);
    hide StateInv, RequestsInv, TotalsInv, OutboxInv, Grows, Perform;
    PerformKeepsState(db, clock, now, op);
    PerformKeepsRequests(db, now, op);
    PerformKeepsTotals(db, now, op);
  }

  lemma OrderChangeKeepsRows(db: Db, now: int, op: Op)
    requires op.OpCreateOrder? || op.OpWeighItem? || op.OpFinalize? || op.OpChangeStatus?
    ensures db.orders.Keys <= Perform(db, now, op).db.orders.Keys
    ensures db.processed <= Perform(db, now, op).db.processed
  {
    hide RequestFulfillment, UpdateFulfillment, CreatePricing, SetTaxRate, ConsumePayment;
    hide Weigh, Finalize, PassesChecks, ActiveTax, Preparable, Prepare, Estimate, InsertRequest, MoveEvent, Move;
  }

  /** Without any assumption on the database: rows stay, and only a delivered payment event writes payment_status. */
  lemma PerformKeepsRows(db: Db, now: int, op: Op)
    ensures db.orders.Keys <= Perform(db, now, op).db.orders.Keys
    ensures db.processed <= Perform(db, now, op).db.processed
  {
    if op.OpCreateOrder? || op.OpWeighItem? || op.OpFinalize? || op.OpChangeStatus? {
      OrderChangeKeepsRows(db, now, op);
    } else {
      hide CreateOrder, WeighItem, FinalizeWeighing, ChangeStatus;
      hide Project, PublishPrice, PublishTax, MoveEvent, Move, Requests;
    }
  }

  lemma PerformMarks(db: Db, now: int, op: Op)
    ensures
      Perform(db, now, op).db.processed <=
      db.processed +
        if op.OpConsume? && op.message.Envelope? && op.message.body.Payment? then {op.message.id} else {}
  {
    hide Weigh, Finalize, Project, PassesChecks, ActiveTax, Preparable, Estimate, InsertRequest, PublishPrice,
      PublishTax;
  }

  lemma OnlyEventsSetStatus(db: Db, now: int, op: Op, id: OrderId)
    requires id in db.orders
    requires op.OpConsume? ==> op.message.Undecodable? || !op.message.body.Payment?
    ensures id in Perform(db, now, op).db.orders
      && Perform(db, now, op).db.orders[id].paymentStatus == db.orders[id].paymentStatus
  {
    hide PassesChecks, ActiveTax, Preparable, Estimate, InsertRequest, PublishPrice, PublishTax, IsValidTransition;
    PerformKeepsRows(db, now, op);
  }

  lemma SideTableOps(db: Db, now: int, op: Op)
    requires op.OpRequest? || op.OpCreatePricing? || op.OpSetTaxRate?
    ensures Perform(db, now, op).db.orders == db.orders
  {
  }

  /** No request of the staff brings an order into the laundry: only payment.paid does. */
  lemma StaffNeverStartsLaundry(db: Db, now: int, op: Op, id: OrderId)
    requires !op.OpConsume? && id in Perform(db, now, op).db.orders
    requires InLaundry(Perform(db, now, op).db.orders[id].status)
    ensures id in db.orders && InLaundry(db.orders[id].status)
  {
    if op.OpRequest? || op.OpCreatePricing? || op.OpSetTaxRate? {
      SideTableOps(db, now, op);
    } else if op.OpChangeStatus? {
      ChangeStaysOut(db, now, op, id);
    } else if op.OpUpdateRequest? {
      UpdateStaysOut(db, now, op, id);
    } else {
      WeighingStaysOut(db, now, op, id);
    }
    hide Perform, InLaundry;
  }

  lemma {:induction false} ChangeStaysOut(db: Db, now: int, op: Op, id: OrderId)
    requires op.OpChangeStatus? && id in Perform(db, now, op).db.orders
      && InLaundry(Perform(db, now, op).db.orders[id].status)
    ensures id in db.orders && InLaundry(db.orders[id].status)
  {
    if op.id in db.orders && op.to.Some? && IsValidTransition(db.orders[op.id].status, op.to.value) {
      StaffEdgesStayOut(db.orders[op.id].status, op.to.value);
    }
    hide IsValidTransition, InLaundry;
  }

  lemma {:induction false} WeighingStaysOut(db: Db, now: int, op: Op, id: OrderId)
    requires op.OpCreateOrder? || op.OpWeighItem? || op.OpFinalize?
    requires id in Perform(db, now, op).db.orders && InLaundry(Perform(db, now, op).db.orders[id].status)
    ensures id in db.orders && InLaundry(db.orders[id].status)
  {
    hide SumSubtotals, TaxOn, PassesChecks, ActiveTax, Preparable, Prepare, Estimate, InsertRequest, WeighedItem,
      AllWeighed;
  }

  lemma {:induction false} UpdateStaysOut(db: Db, now: int, op: Op, id: OrderId)
    requires op.OpUpdateRequest? && id in Perform(db, now, op).db.orders
      && InLaundry(Perform(db, now, op).db.orders[id].status)
    ensures id in db.orders && InLaundry(db.orders[id].status)
  {
  }

  /** Orders a staff request creates are unpaid and have no total. */
  lemma NewOrdersAreUnpaid(db: Db, now: int, op: Op, id: OrderId)
    requires id !in db.orders && id in Perform(db, now, op).db.orders
    ensures Perform(db, now, op).db.orders[id].paymentStatus == Unpaid
  {
    hide Finalize, PassesChecks, ActiveTax, Preparable, Prepare, Estimate, InsertRequest, PublishPrice, PublishTax,
      WeighedItem, Weigh, Project;
  }
}
