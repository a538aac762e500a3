/** What each of Core's requests promises its caller, on any lawful database: a lawful database, the reply and the
    changed rows that its contract names, and what an accepted reply means. */
module CoreGuarantees {
  import opened Wrappers
  import opened OrderState
  import opened Events
  import opened Catalog
  import opened Orders
  import opened CoreDb
  import opened CoreInvariants
  import opened CoreContracts
  import CoreRuns

  /** From now on the price looked up is the one just set. */
  lemma {:induction false} CreatePricingTells(db: Db, clock: int, now: int, service: ServiceId,
                                              outlet: Option<OutletId>, price: int)
    requires CoreInv(db, clock) && clock < now
    ensures
      var o := CreatePricing(db, now, service, outlet, price);
      && CoreInv(o.db, now) && Prices(db, o.db, now, service, outlet, price, o.reply)
      && (o.reply == Accepted ==> ActivePrice(o.db.prices, service, outlet) == Some(price))
  {
    CreatePricingPrices(db, clock, now, service, outlet, price);
    PerformKeepsInv(db, clock, now, OpCreatePricing(service, outlet, price));
    var o := CreatePricing(db, now, service, outlet, price);
    assert Perform(db, now, OpCreatePricing(service, outlet, price)) == o;
    if o.reply == Accepted {
      assert Timeline(o.db.prices, now);
      hide CoreInv, Prices;
      LastIsOpenPrice(o.db.prices, now, service, outlet);
    }
  }

  lemma LastIsOpenPrice(rows: seq<PriceRow>, clock: int, s: ServiceId, o: Option<OutletId>)
    requires Timeline(rows, clock) && rows != [] && rows[|rows| - 1].OpenFor(s, o)
    ensures OpenPrice(rows, s, o) == Some(rows[|rows| - 1].price)
  {
    var n := |rows| - 1;
    assert OpenPrice(rows, s, o).Some?;
    var i :| 0 <= i < |rows| && rows[i].OpenFor(s, o) && rows[i].price == OpenPrice(rows, s, o).value;
    AtMostOneOpen(rows, clock, i, n);
  }

  /** From now on the rate in force is the one just set. */
  lemma {:induction false} SetTaxRateTells(db: Db, clock: int, now: int, rate: real, hasReason: bool)
    requires CoreInv(db, clock) && clock < now
    ensures
      var o := SetTaxRate(db, now, rate, hasReason);
      && CoreInv(o.db, now) && SetsTaxRate(db, o.db, now, rate, hasReason, o.reply)
      && (o.reply == Accepted ==> ActiveTax(o.db.taxRates) == Some(rate))
  {
    SetTaxRateSets(db, clock, now, rate, hasReason);
    PerformKeepsInv(db, clock, now, OpSetTaxRate(rate, hasReason));
    assert Perform(db, now, OpSetTaxRate(rate, hasReason)) == SetTaxRate(db, now, rate, hasReason);
    assert TaxTimeline(db.taxRates, clock);
    hide CoreInv, SetsTaxRate;
    if 0.0 <= rate <= 100.0 {
      PublishKeepsTax(db.taxRates, clock, rate, now);
    }
  }

  /** A staff change raises the rank, does not lead into the laundry, and completes only paid orders. */
  lemma {:induction false} ChangeStatusTells(db: Db, clock: int, now: int, id: OrderId, to: Option<Status>,
                                             hasReason: bool)
    requires CoreInv(db, clock) && clock < now
    ensures
      var o := ChangeStatus(db, now, id, to, hasReason);
      && CoreInv(o.db, now) && ChangesStatus(db, o.db, now, id, to, hasReason, o.reply)
      && (o.reply == Accepted ==>
            && id in db.orders && id in o.db.orders && Rank(db.orders[id].status) < Rank(o.db.orders[id].status)
            && (InLaundry(o.db.orders[id].status) ==> InLaundry(db.orders[id].status))
            && (o.db.orders[id].status == Completed ==> o.db.orders[id].paymentStatus == Paid))
  {
    PerformKeepsInv(db, clock, now, OpChangeStatus(id, to, hasReason));
    assert Perform(db, now, OpChangeStatus(id, to, hasReason)) == ChangeStatus(db, now, id, to, hasReason);
    hide CoreInv, Perform, ChangeStatus, ChangesStatus;
    ChangeStatusChanges(db, now, id, to, hasReason);
    ChangeStatusClimbs(db, now, id, to, hasReason);
  }

  lemma {:induction false} ChangeStatusClimbs(db: Db, now: int, id: OrderId, to: Option<Status>, hasReason: bool)
    ensures
      var o := ChangeStatus(db, now, id, to, hasReason);
      o.reply == Accepted ==>
        && id in db.orders && id in o.db.orders && Rank(db.orders[id].status) < Rank(o.db.orders[id].status)
        && (InLaundry(o.db.orders[id].status) ==> InLaundry(db.orders[id].status))
        && (o.db.orders[id].status == Completed ==> o.db.orders[id].paymentStatus == Paid)
  {
    if id in db.orders && to.Some? && IsValidTransition(db.orders[id].status, to.value) {
      EdgeRaisesRank(db.orders[id].status, to.value);
      StaffEdgesStayOut(db.orders[id].status, to.value);
    }
    hide IsValidTransition, Rank, InLaundry;
  }

  /** A new order is unpaid, has no total, and each of its items has the price that the table gives this instant. */
  ghost predicate FreshlyPriced(db: Db, id: OrderId, now: int) {
    && id in db.orders && db.orders[id].status == Created && db.orders[id].paymentStatus == Unpaid
    && db.orders[id].total.None?
    && forall i :: 0 <= i < |db.orders[id].items| ==>
         PriceAt(db.prices, db.orders[id].items[i].service, Some(db.orders[id].outlet), now,
           db.orders[id].items[i].unitPrice)
  }

  lemma {:induction false} CreateOrderTells(db: Db, clock: int, now: int, id: OrderId, req: OrderRequest)
    requires CoreInv(db, clock) && clock < now
    ensures
      var o := CreateOrder(db, now, id, req);
      && CoreInv(o.db, now) && Creates(db, o.db, now, id, req, o.reply)
      && (o.reply == Accepted ==>
            && id !in db.orders && FreshlyPriced(o.db, id, now)
            && (HasRequest(o.db.pickups, id) <==> req.pickup.Some?)
            && (HasRequest(o.db.deliveries, id) <==> req.delivery.Some?))
  {
    CreateOrderCreates(db, clock, now, id, req);
    PerformKeepsInv(db, clock, now, OpCreateOrder(id, req));
    var o := CreateOrder(db, now, id, req);
    assert Perform(db, now, OpCreateOrder(id, req)) == o;
    hide StateInv, Perform, CreateOrder;
    if o.reply == Accepted {
      PlacedIsFresh(db, o.db, now, id, req);
      RequestsOfNewOrder(db, o.db, now, id, req);
      hide CoreInv, Creates, Places, FreshlyPriced, HasRequest;
    }
  }

  lemma PlacedIsFresh(db: Db, db': Db, now: int, id: OrderId, req: OrderRequest)
    requires req.outlet.Some? && Places(db, db', now, id, req)
    ensures FreshlyPriced(db', id, now)
  {
    hide PriceAt, Estimates, RequestInserted;
    assert forall i :: 0 <= i < |db'.orders[id].items| ==>
      ItemFor(db.prices, req.outlet.value, now, req.lines[i], db'.orders[id].items[i]);
  }

  /** A new order has exactly the requests that were asked for. */
  lemma RequestsOfNewOrder(db: Db, db': Db, now: int, id: OrderId, req: OrderRequest)
    requires RequestsInv(db) && id !in db.orders && req.outlet.Some? && Places(db, db', now, id, req)
    ensures HasRequest(db'.pickups, id) <==> req.pickup.Some?
    ensures HasRequest(db'.deliveries, id) <==> req.delivery.Some?
  {
    assert RequestInserted(db.pickups, db'.pickups, req.pickup, id);
    assert RequestInserted(db.deliveries, db'.deliveries, req.delivery, id);
    hide Places;
    if req.pickup.Some? {
      assert db'.pickups[req.pickup.value].order == id;
    }
    if req.delivery.Some? {
      assert db'.deliveries[req.delivery.value].order == id;
    }
  }

  /** No item is ever locked, and nothing is weighed once the order is in the laundry. */
  lemma {:induction false} WeighItemTells(db: Db, clock: int, now: int, id: OrderId, item: nat, kg: real)
    requires CoreInv(db, clock) && clock < now
    ensures
      var o := WeighItem(db, now, id, item, kg);
      && CoreInv(o.db, now) && Weighs(db, o.db, now, id, item, kg, o.reply) && o.reply != ItemLocked
      && (o.reply == Accepted ==>
            id in db.orders && !InLaundry(db.orders[id].status) && id in o.db.orders
              && o.db.orders[id].status == Weighing)
  {
    PerformKeepsInv(db, clock, now, OpWeighItem(id, item, kg));
    WeighItemKeepsInv(db, clock, now, id, item, kg);
    assert Perform(db, now, OpWeighItem(id, item, kg)) == WeighItem(db, now, id, item, kg);
    hide CoreInv, StateInv, WeighItem, Perform, Weighs;
    WeighItemWeighs(db, now, id, item, kg);
    WeighedBeforeLaundry(db, now, id, item, kg);
  }

  lemma {:induction false} WeighedBeforeLaundry(db: Db, now: int, id: OrderId, item: nat, kg: real)
    ensures
      var o := WeighItem(db, now, id, item, kg);
      o.reply == Accepted ==>
        id in db.orders && !InLaundry(db.orders[id].status) && id in o.db.orders && o.db.orders[id].status == Weighing
  {
    hide WeighedItem;
  }

  /** The total is near the exact amount, and it is the one that is announced. */
  lemma {:induction false} FinalizeTells(db: Db, clock: int, now: int, id: OrderId, pickupFee: Option<int>,
                                         deliveryFee: Option<int>)
    requires CoreInv(db, clock) && clock < now
    ensures
      var o := FinalizeWeighing(db, now, id, pickupFee, deliveryFee);
      && CoreInv(o.db, now) && Finalizes(db, o.db, now, id, pickupFee, deliveryFee, o.reply)
      && (o.reply == Accepted ==>
            id in o.db.orders && CoreRuns.TotalIsNearExact(o.db.orders[id])
              && o.db.orders[id].total == LastTotal(o.db.outbox, id))
  {
    FinalizeFinalizes(db, clock, now, id, pickupFee, deliveryFee);
    PerformKeepsInv(db, clock, now, OpFinalize(id, pickupFee, deliveryFee));
    var o := FinalizeWeighing(db, now, id, pickupFee, deliveryFee);
    assert Perform(db, now, OpFinalize(id, pickupFee, deliveryFee)) == o;
    assert TotalsInv(o.db);
    hide CoreInv, CoreRuns.TotalIsNearExact, FinalizeWeighing, Finalizes;
    if o.reply == Accepted {
      CoreRuns.FinalizeIsNearExact(db, clock, now, id, pickupFee, deliveryFee);
    }
  }

  /** The order has this request and no other. */
  ghost predicate OnlyOne(rows: map<RequestId, Fulfillment>, id: OrderId, request: RequestId) {
    request in rows && forall r :: r in rows ==> (rows[r].order == id <==> r == request)
  }

  lemma {:induction false} RequestTells(db: Db, clock: int, now: int, kind: Kind, request: RequestId, id: OrderId)
    requires CoreInv(db, clock) && clock < now
    ensures
      var o := RequestFulfillment(db, kind, request, id);
      && CoreInv(o.db, now) && Registers(db, o.db, kind, request, id, o.reply)
      && (o.reply == Accepted ==> OnlyOne(Requests(o.db, kind), id, request))
  {
    PerformKeepsInv(db, clock, now, OpRequest(kind, request, id));
    assert Perform(db, now, OpRequest(kind, request, id)) == RequestFulfillment(db, kind, request, id);
    hide CoreInv, Perform, Registers;
    RequestRegisters(db, kind, request, id);
    OnlyRequest(db, kind, request, id);
  }

  lemma {:induction false} OnlyRequest(db: Db, kind: Kind, request: RequestId, id: OrderId)
    ensures
      var o := RequestFulfillment(db, kind, request, id);
      o.reply == Accepted ==> OnlyOne(Requests(o.db, kind), id, request)
  {
  }

  /** The only order that can change is the request's, and only by the one transition from the expected status. */
  ghost predicate OnlyMoves(db: Db, db': Db, from: Status, to: Status) {
    && db'.orders.Keys == db.orders.Keys
    && forall id :: id in db.orders && db'.orders[id] != db.orders[id] ==>
         db.orders[id].status == from && db'.orders[id] == Move(db.orders[id], to)
  }

  lemma {:induction false} UpdateTells(db: Db, clock: int, now: int, kind: Kind, request: RequestId,
                                       status: FulfillmentStatus)
    requires CoreInv(db, clock) && clock < now
    ensures
      var o := UpdateFulfillment(db, now, kind, request, status);
      && CoreInv(o.db, now) && UpdatesRequest(db, o.db, now, kind, request, status, o.reply) && o.reply != Internal
      && OnlyMoves(db, o.db, FromStatus(kind), ToStatus(kind))
      && (status != Done ==> o.db.orders == db.orders)
  {
    hide StateInv, RequestsInv, TotalsInv, UpdateFulfillment, OnlyMoves, UpdatesRequest;
    PerformKeepsInv(db, clock, now, OpUpdateRequest(kind, request, status));
    UpdateUpdates(db, now, kind, request, status);
    RequestsKnowOrders(db, now, kind, request, status);
    UpdateOnlyMoves(db, now, kind, request, status);
  }

  lemma RequestsKnowOrders(db: Db, now: int, kind: Kind, request: RequestId, status: FulfillmentStatus)
    requires RequestsInv(db)
    ensures UpdateFulfillment(db, now, kind, request, status).reply != Internal
  {
  }

  lemma {:induction false} UpdateOnlyMoves(db: Db, now: int, kind: Kind, request: RequestId, status: FulfillmentStatus)
    ensures OnlyMoves(db, UpdateFulfillment(db, now, kind, request, status).db, FromStatus(kind), ToStatus(kind))
    ensures status != Done ==> UpdateFulfillment(db, now, kind, request, status).db.orders == db.orders
  {
    hide Move;
  }

  /** Handling the message again, at any time, would change nothing; a message acknowledged for its event has been
      marked. */
  ghost predicate Handled(db: Db, m: Message) {
    forall later :: ConsumePayment(db, later, m).db == db
  }

  lemma {:induction false} ConsumeTells(db: Db, clock: int, now: int, m: Message)
    requires CoreInv(db, clock) && clock < now
    ensures
      var o := ConsumePayment(db, now, m);
      && CoreInv(o.db, now) && Consumes(db, o.db, now, m, o.reply) && Handled(o.db, m)
      && (m.Envelope? && m.body.Payment? && o.reply == Ack ==> m.id in o.db.processed)
      && (o.reply == Requeue ==> o.db == db)
  {
    PerformKeepsInv(db, clock, now, OpConsume(m));
    assert Perform(db, now, OpConsume(m)) == ConsumePayment(db, now, m);
    hide CoreInv, Perform, ConsumePayment, Handled, Consumes;
    ConsumePaymentConsumes(db, now, m);
    ConsumedIsHandled(db, now, m);
  }

  lemma {:induction false} ConsumedIsHandled(db: Db, now: int, m: Message)
    ensures
      var o := ConsumePayment(db, now, m);
      && Handled(o.db, m)
      && (m.Envelope? && m.body.Payment? && o.reply == Ack ==> m.id in o.db.processed)
      && (o.reply == Requeue ==> o.db == db)
  {
    hide Project, Write;
    var o := ConsumePayment(db, now, m);
    if o.reply == Requeue {
      assert o.db == db;
    } else if m.Envelope? && m.body.Payment? {
      assert m.id in o.db.processed by {
        if m.id !in db.processed {
          MarkedWhenAcknowledged(db, now, m);
        }
      }
    }
  }

  lemma MarkedWhenAcknowledged(db: Db, now: int, m: Message)
    requires m.Envelope? && m.body.Payment? && ConsumePayment(db, now, m).reply == Ack
    ensures m.id in ConsumePayment(db, now, m).db.processed
  {
    hide Project;
  }

  lemma ConsumeNothing(db: Db)
    ensures ConsumeAll(db, [], []) == db
  {
  }

  lemma ConsumeNext(db: Db, at: seq<int>, messages: seq<Message>, i: nat)
    requires i < |at| == |messages|
    ensures ConsumeAll(db, at[..i + 1], messages[..i + 1]) ==
      ConsumePayment(ConsumeAll(db, at[..i], messages[..i]), at[i], messages[i]).db
  {
    hide ConsumePayment;
    assert at[..i + 1][..i] == at[..i] && messages[..i + 1][..i] == messages[..i];
  }
}
