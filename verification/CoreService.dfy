/** Core's handlers as they run: statements on tables held in fields. Each handler is proved to have exactly the effect
    and the reply of its transaction in CoreDb and to keep Core's invariant, so every object of the class is in a state
    the theorems are about. A handler that can fail after its first write works on local copies and assigns the fields
    where it commits. */
module CoreService {
  import opened Wrappers
  import opened OrderState
  import opened Events
  import opened Money
  import opened Catalog
  import opened Orders
  import Spec = CoreDb
  import Inv = CoreInvariants
  import Contract = CoreContracts
  import Promise = CoreGuarantees
  import CoreRuns

  /** A method named Tx is the body of a handler, statement by statement; the method without it is the request. */
  class Core {
    var outlets: set<OutletId>
    var services: map<ServiceId, bool>
    var prices: seq<PriceRow>
    var taxRates: seq<TaxRow>
    var orders: map<OrderId, Order>
    var pickups: map<Spec.RequestId, Spec.Fulfillment>
    var deliveries: map<Spec.RequestId, Spec.Fulfillment>
    var outbox: seq<OutboxRow<CoreEvent>>
    var processed: set<nat>

    /** The time of the last request. */
    ghost var clock: int

    ghost predicate Valid()
      reads this
    {
      Inv.CoreInv(Tables(), clock)
    }

    ghost function Tables(): Spec.Db
      reads this
    {
      Spec.Db(outlets, services, prices, taxRates, orders, pickups, deliveries, outbox, processed)
    }

    /** The database after the migrations: no orders, and a tax rate of zero. */
    constructor (outlets: set<OutletId>, services: map<ServiceId, bool>)
      ensures Valid() && clock == 0 && Tables() == CoreRuns.Seeded(outlets, services)
    {
      this.outlets, this.services := outlets, services;
      prices, taxRates, orders := [], [TaxRow(0.0, 0, None)], map[];
      pickups, deliveries, outbox, processed := map[], map[], [], {};
      clock := 0;
      new;
      CoreRuns.SeededInv(outlets, services);
    }

    // -------------------------------------------------------------- catalog and tax

    method FindOpenPrice(s: ServiceId, o: Option<OutletId>) returns (price: Option<int>)
      ensures price == OpenPrice(prices, s, o)
    {
      for i := 0 to |prices|
        invariant OpenPrice(prices, s, o) == OpenPrice(prices[i..], s, o)
      {
        assert prices[i..][0] == prices[i] && prices[i..][1..] == prices[i + 1..];
        if prices[i].OpenFor(s, o) {
          return Some(prices[i].price);
        }
      }
      price := None;
    }

    method FindActivePrice(s: ServiceId, o: Option<OutletId>) returns (price: Option<int>)
      ensures price == ActivePrice(prices, s, o)
    {
      if o.Some? {
        price := FindOpenPrice(s, o);
        if price.Some? {
          return;
        }
      }
      price := FindOpenPrice(s, None);
    }

    method FindActiveTax() returns (rate: Option<real>)
      ensures rate == ActiveTax(taxRates)
    {
      for i := 0 to |taxRates|
        invariant ActiveTax(taxRates) == ActiveTax(taxRates[i..])
      {
        assert taxRates[i..][0] == taxRates[i] && taxRates[i..][1..] == taxRates[i + 1..];
        if taxRates[i].to.None? {
          return Some(taxRates[i].rate);
        }
      }
      rate := None;
    }

    method CloseOpenPrices(now: int, s: ServiceId, o: Option<OutletId>) returns (rows: seq<PriceRow>)
      ensures rows == CloseOpen(prices, s, o, now)
    {
      rows := prices;
      for i := 0 to |rows|
        invariant |rows| == |prices|
        invariant forall k :: 0 <= k < i ==> rows[k] == CloseOpen(prices, s, o, now)[k]
        invariant forall k :: i <= k < |rows| ==> rows[k] == prices[k]
      {
        if rows[i].service == s && rows[i].outlet == o && rows[i].to.None? {
          rows := rows[i := rows[i].(to := Some(now))];
        }
      }
    }

    method CreatePricingTx(now: int, service: ServiceId, outlet: Option<OutletId>, price: int)
      returns (reply: Spec.Reply)
      modifies this`prices
      ensures Spec.Outcome(Tables(), reply) == Spec.CreatePricing(old(Tables()), now, service, outlet, price)
    {
      if price <= 0 {
        return Spec.Validation;
      }
      var rows := CloseOpenPrices(now, service, outlet);
      if service !in services {
        return Spec.Internal;
      }
      prices := rows + [PriceRow(service, outlet, price, now, None)];
      reply := Spec.Accepted;
    }

    /** From now on the price that is looked up is the new one. */
    method CreatePricing(now: int, service: ServiceId, outlet: Option<OutletId>, price: int) returns (reply: Spec.Reply)
      requires Valid() && clock < now
      modifies this
      ensures Spec.Outcome(Tables(), reply) == Spec.CreatePricing(old(Tables()), now, service, outlet, price)
      ensures Valid() && clock == now
      ensures reply == Spec.Accepted ==> ActivePrice(prices, service, outlet) == Some(price)
      ensures Contract.Prices(old(Tables()), Tables(), now, service, outlet, price, reply)
    {
      Promise.CreatePricingTells(Tables(), clock, now, service, outlet, price);
      hide *;
      reply := CreatePricingTx(now, service, outlet, price);
      clock := now;
    }

    method CloseTaxRates(now: int) returns (rows: seq<TaxRow>)
      ensures rows == CloseTax(taxRates, now)
    {
      rows := taxRates;
      for i := 0 to |rows|
        invariant |rows| == |taxRates|
        invariant forall k :: 0 <= k < i ==> rows[k] == CloseTax(taxRates, now)[k]
        invariant forall k :: i <= k < |rows| ==> rows[k] == taxRates[k]
      {
        if rows[i].to.None? {
          rows := rows[i := rows[i].(to := Some(now))];
        }
      }
    }

    method SetTaxRateTx(now: int, rate: real, hasReason: bool) returns (reply: Spec.Reply)
      modifies this`taxRates
      ensures Spec.Outcome(Tables(), reply) == Spec.SetTaxRate(old(Tables()), now, rate, hasReason)
    {
      if rate < 0.0 || rate > 100.0 || !hasReason {
        return Spec.Validation;
      }
      var rows := CloseTaxRates(now);
      taxRates := rows + [TaxRow(rate, now, None)];
      reply := Spec.Accepted;
    }

    /** From now on the rate in force is the new one. */
    method SetTaxRate(now: int, rate: real, hasReason: bool) returns (reply: Spec.Reply)
      requires Valid() && clock < now
      modifies this
      ensures Spec.Outcome(Tables(), reply) == Spec.SetTaxRate(old(Tables()), now, rate, hasReason)
      ensures Valid() && clock == now
      ensures reply == Spec.Accepted ==> ActiveTax(taxRates) == Some(rate)
      ensures Contract.SetsTaxRate(old(Tables()), Tables(), now, rate, hasReason, reply)
    {
      Promise.SetTaxRateTells(Tables(), clock, now, rate, hasReason);
      hide *;
      reply := SetTaxRateTx(now, rate, hasReason);
      clock := now;
    }

    // -------------------------------------------------------------- the order state machine

    /** transitionStatusTx. */
    method TransitionStatus(now: int, id: OrderId, from: Status, to: Status)
      requires id in orders && orders[id].status == from
      modifies this`orders, this`outbox
      ensures Tables() == Spec.Transition(old(Tables()), id, old(orders[id]), to, now)
    {
      var o := orders[id];
      orders := orders[id := o.(status := to, history := o.history + [HistoryRow(Some(from), to)])];
      var name := StatusChanged;
      if to == Completed {
        name := OrderCompleted;
      } else if to == Cancelled {
        name := OrderCancelled;
      }
      outbox := outbox + [OutboxRow(OrderMoved(name, id, from, to), now)];
    }

    method ChangeOrderStatusTx(now: int, id: OrderId, to: Option<Status>, hasReason: bool) returns (reply: Spec.Reply)
      modifies this`orders, this`outbox
      ensures Spec.Outcome(Tables(), reply) == Spec.ChangeStatus(old(Tables()), now, id, to, hasReason)
    {
      if id !in orders {
        return Spec.NotFound;
      }
      var from, paymentStatus := orders[id].status, orders[id].paymentStatus;
      if to == Some(Washing) && from == Weighing {
        return Spec.InvalidTransition;
      }
      if to.None? || !IsValidTransition(from, to.value) {
        return Spec.InvalidTransition;
      }
      if RequiresReason(to.value) && !hasReason {
        return Spec.Validation;
      }
      if RequiresPaidBeforeCompleting(to.value) && paymentStatus != Paid {
        return Spec.PaymentNotCollected;
      }
      TransitionStatus(now, id, from, to.value);
      reply := Spec.Accepted;
    }

    /** An accepted change raises the rank, does not lead into the laundry, and completes only paid orders. */
    method ChangeOrderStatus(now: int, id: OrderId, to: Option<Status>, hasReason: bool) returns (reply: Spec.Reply)
      requires Valid() && clock < now
      modifies this
      ensures Spec.Outcome(Tables(), reply) == Spec.ChangeStatus(old(Tables()), now, id, to, hasReason)
      ensures Valid() && clock == now
      ensures reply == Spec.Accepted ==>
        && id in old(orders) && id in orders && Rank(old(orders)[id].status) < Rank(orders[id].status)
        && (InLaundry(orders[id].status) ==> InLaundry(old(orders)[id].status))
        && (orders[id].status == Completed ==> orders[id].paymentStatus == Paid)
      ensures Contract.ChangesStatus(old(Tables()), Tables(), now, id, to, hasReason, reply)
    {
      Promise.ChangeStatusTells(Tables(), clock, now, id, to, hasReason);
      hide *;
      reply := ChangeOrderStatusTx(now, id, to, hasReason);
      clock := now;
    }

    // -------------------------------------------------------------- creating an order

    method PrepareLine(outlet: OutletId, line: Spec.Line) returns (item: Option<Item>)
      ensures item == Spec.PrepareItem(Tables(), outlet, line)
    {
      if line.service !in services || !services[line.service] {
        return None;
      }
      var price := FindActivePrice(line.service, Some(outlet));
      if price.None? {
        return None;
      }
      item := Some(Item(line.service, price.value, line.estimatedKg, None, None, false));
    }

    /** The items of a new order and the sum of their estimates, when every line has one. */
    method PrepareLines(outlet: OutletId, lines: seq<Spec.Line>)
      returns (items: Option<seq<Item>>, estimate: Option<int>)
      ensures items.Some? <==> Spec.Preparable(Tables(), outlet, lines)
      ensures
        items.Some? ==> items.value == Spec.Prepare(Tables(), outlet, lines) && estimate == Spec.Estimate(items.value)
    {
      hide Spec.PrepareItem, ActivePrice, PriceOf;
      var prepared: seq<Item>, estSum, haveEstimate := [], 0, true;
      for i := 0 to |lines|
        invariant |prepared| == i
        invariant forall k :: 0 <= k < i ==> Spec.PrepareItem(Tables(), outlet, lines[k]) == Some(prepared[k])
        invariant estSum == Spec.SumEstimates(prepared)
        invariant haveEstimate <==> forall k :: 0 <= k < i ==> prepared[k].estimatedKg.Some?
      {
        var item := PrepareLine(outlet, lines[i]);
        if item.None? {
          return None, None;
        }
        if item.value.estimatedKg.Some? {
          estSum := estSum + PriceOf(item.value.estimatedKg.value, item.value.unitPrice);
        } else {
          haveEstimate := false;
        }
        ghost var before := prepared;
        prepared := prepared + [item.value];
        assert prepared[..i] == before;
      }
      assert prepared == Spec.Prepare(Tables(), outlet, lines);
      items := Some(prepared);
      estimate := if haveEstimate then Some(estSum) else None;
    }

    method CreateOrderTx(now: int, id: OrderId, req: Spec.OrderRequest) returns (reply: Spec.Reply)
      modifies this`orders, this`pickups, this`deliveries, this`outbox
      ensures Spec.Outcome(Tables(), reply) == Spec.CreateOrder(old(Tables()), now, id, req)
    {
      hide Spec.Preparable, Spec.Prepare, Spec.Estimate;
      if |req.lines| == 0 || !req.knownSource || !req.knownFulfillment {
        return Spec.Validation;
      }
      if req.outlet.None? {
        return Spec.NoOutlet;
      }
      var outlet, discount := req.outlet.value, 0;
      if req.discount.Some? {
        discount := req.discount.value;
      }

      var prepared, estimatedTotal := PrepareLines(outlet, req.lines);
      if prepared.None? {
        return Spec.Validation;
      }

      if id in orders || outlet !in outlets || discount < 0 {
        return Spec.Internal;
      }
      var o := Order(outlet, now, prepared.value, Created, Unpaid, estimatedTotal, discount, None, 0.0, 0, 0, 0, None,
                     [HistoryRow(None, Created)]);
      var newPickups, newDeliveries := pickups, deliveries;
      if req.pickup.Some? {
        if req.pickup.value in pickups {
          return Spec.Internal;
        }
        newPickups := pickups[req.pickup.value := Spec.Fulfillment(id, Spec.Requested)];
      }
      if req.delivery.Some? {
        if req.delivery.value in deliveries {
          return Spec.Internal;
        }
        newDeliveries := deliveries[req.delivery.value := Spec.Fulfillment(id, Spec.Requested)];
      }
      orders, pickups, deliveries := orders[id := o], newPickups, newDeliveries;
      outbox := outbox + [OutboxRow(OrderCreated(id, outlet), now)];
      reply := Spec.Accepted;
    }

    /** An accepted order is unpaid, has one item for each line at the price that the table gives this instant, and the
        requests that were asked for. */
    method CreateOrder(now: int, id: OrderId, req: Spec.OrderRequest) returns (reply: Spec.Reply)
      requires Valid() && clock < now
      modifies this
      ensures Spec.Outcome(Tables(), reply) == Spec.CreateOrder(old(Tables()), now, id, req)
      ensures Valid() && clock == now
      ensures Contract.Creates(old(Tables()), Tables(), now, id, req, reply)
      ensures reply == Spec.Accepted ==>
        && id !in old(orders) && Promise.FreshlyPriced(Tables(), id, now)
        && (Contract.HasRequest(pickups, id) <==> req.pickup.Some?)
        && (Contract.HasRequest(deliveries, id) <==> req.delivery.Some?)
    {
      Promise.CreateOrderTells(Tables(), clock, now, id, req);
      hide *;
      reply := CreateOrderTx(now, id, req);
      clock := now;
    }

    // -------------------------------------------------------------- weighing

    method WeighItemTx(now: int, id: OrderId, item: nat, kg: real) returns (reply: Spec.Reply)
      modifies this`orders, this`outbox
      ensures Spec.Outcome(Tables(), reply) == Spec.WeighItem(old(Tables()), now, id, item, kg)
    {
      hide PriceOf, IsValidTransition;
      if kg < 0.0 {
        return Spec.Validation;
      }
      if id !in orders || item >= |orders[id].items| {
        return Spec.NotFound;
      }
      var o := orders[id];
      var row := o.items[item];
      if o.status != Received && o.status != Weighing {
        return Spec.InvalidState;
      }
      if row.isLocked {
        return Spec.ItemLocked;
      }
      var subtotal := PriceOf(kg, row.unitPrice);
      var weighed := row.(actualKg := Some(kg), subtotal := Some(subtotal));
      assert weighed == WeighedItem(row, kg);
      var updated := o.(items := o.items[item := weighed]);
      orders := orders[id := updated];
      if o.status == Received {
        TransitionStatus(now, id, Received, Weighing);
        assert orders == old(orders)[id := Move(updated, Weighing)];
      }
      reply := Spec.Accepted;
    }

    /** No item is ever found locked, and nothing is weighed once the order is in the laundry. */
    method WeighItem(now: int, id: OrderId, item: nat, kg: real) returns (reply: Spec.Reply)
      requires Valid() && clock < now
      modifies this
      ensures Spec.Outcome(Tables(), reply) == Spec.WeighItem(old(Tables()), now, id, item, kg)
      ensures Valid() && clock == now
      ensures reply != Spec.ItemLocked
      ensures Contract.Weighs(old(Tables()), Tables(), now, id, item, kg, reply)
      ensures reply == Spec.Accepted ==>
        id in old(orders) && !InLaundry(old(orders)[id].status) && id in orders && orders[id].status == Weighing
    {
      Promise.WeighItemTells(Tables(), clock, now, id, item, kg);
      hide *;
      reply := WeighItemTx(now, id, item, kg);
      clock := now;
    }

    method IsIncomplete(items: seq<Item>) returns (incomplete: bool)
      ensures incomplete <==> !AllWeighed(items)
    {
      for i := 0 to |items|
        invariant forall k :: 0 <= k < i ==> items[k].actualKg.Some?
      {
        if items[i].actualKg.None? {
          return true;
        }
      }
      incomplete := false;
    }

    method AddSubtotals(items: seq<Item>) returns (subtotal: int)
      ensures subtotal == SumSubtotals(items)
    {
      subtotal := 0;
      for i := 0 to |items|
        invariant subtotal + SumSubtotals(items[i..]) == SumSubtotals(items)
      {
        assert items[i..][0] == items[i] && items[i..][1..] == items[i + 1..];
        if items[i].subtotal.Some? {
          subtotal := subtotal + items[i].subtotal.value;
        }
      }
    }

    method FinalizeWeighingTx(now: int, id: OrderId, newPickupFee: Option<int>, newDeliveryFee: Option<int>)
        returns (reply: Spec.Reply)
      modifies this`orders, this`outbox
      ensures Spec.Outcome(Tables(), reply) ==
        Spec.FinalizeWeighing(old(Tables()), now, id, newPickupFee, newDeliveryFee)
    {
      hide SumSubtotals, ActiveTax, TaxOn;
      var items := if id in orders then orders[id].items else [];
      var incomplete := IsIncomplete(items);
      if incomplete {
        return Spec.IncompleteWeighing;
      }
      var subtotal := AddSubtotals(items);
      var taxRate := FindActiveTax();
      if taxRate.None? {
        return Spec.Internal;
      }
      if id !in orders {
        return Spec.NotFound;
      }
      var finalized := Total(orders[id], subtotal, taxRate.value, newPickupFee, newDeliveryFee);
      if !PassesChecks(finalized) {
        return Spec.Internal;
      }
      orders := orders[id := finalized];
      outbox := outbox + [OutboxRow(OrderWeighed(id, subtotal, finalized.tax, finalized.total.value), now)];
      reply := Spec.Accepted;
    }

    /** An accepted total is at the tax rate whose row covers this instant, near the exact amount, and is the one
        announced. */
    method FinalizeWeighing(now: int, id: OrderId, newPickupFee: Option<int>, newDeliveryFee: Option<int>)
        returns (reply: Spec.Reply)
      requires Valid() && clock < now
      modifies this
      ensures Spec.Outcome(Tables(), reply) ==
        Spec.FinalizeWeighing(old(Tables()), now, id, newPickupFee, newDeliveryFee)
      ensures Valid() && clock == now
      ensures reply == Spec.Accepted ==>
        id in orders && CoreRuns.TotalIsNearExact(orders[id]) && orders[id].total == Inv.LastTotal(outbox, id)
      ensures Contract.Finalizes(old(Tables()), Tables(), now, id, newPickupFee, newDeliveryFee, reply)
    {
      Promise.FinalizeTells(Tables(), clock, now, id, newPickupFee, newDeliveryFee);
      hide *;
      reply := FinalizeWeighingTx(now, id, newPickupFee, newDeliveryFee);
      clock := now;
    }

    method Total(o: Order, subtotal: int, taxRate: real, newPickupFee: Option<int>, newDeliveryFee: Option<int>)
        returns (finalized: Order)
      requires subtotal == SumSubtotals(o.items)
      ensures finalized == Finalize(o, taxRate, newPickupFee, newDeliveryFee)
    {
      hide SumSubtotals, TaxOn;
      var taxAmount := TaxOn(subtotal, taxRate);
      var pickupFee, deliveryFee := o.pickupFee, o.deliveryFee;
      if newPickupFee.Some? {
        pickupFee := newPickupFee.value;
      }
      if newDeliveryFee.Some? {
        deliveryFee := newDeliveryFee.value;
      }
      var total := subtotal - o.discount + taxAmount + pickupFee + deliveryFee;
      finalized := o.(subtotal := Some(subtotal), taxRate := taxRate, tax := taxAmount,
                      pickupFee := pickupFee, deliveryFee := deliveryFee, total := Some(total));
    }

    // -------------------------------------------------------------- pickup and delivery

    method RequestPickupTx(now: int, request: Spec.RequestId, id: OrderId) returns (reply: Spec.Reply)
      modifies this`pickups
      ensures Spec.Outcome(Tables(), reply) == Spec.RequestFulfillment(old(Tables()), Spec.Pickup, request, id)
    {
      if id !in orders {
        return Spec.Internal;
      }
      if request in pickups || exists r :: r in pickups && pickups[r].order == id {
        return Spec.AlreadyRequested;
      }
      pickups := pickups[request := Spec.Fulfillment(id, Spec.Requested)];
      reply := Spec.Accepted;
    }

    /** An accepted request is the only pickup request of its order. */
    method RequestPickup(now: int, request: Spec.RequestId, id: OrderId) returns (reply: Spec.Reply)
      requires Valid() && clock < now
      modifies this
      ensures Spec.Outcome(Tables(), reply) == Spec.RequestFulfillment(old(Tables()), Spec.Pickup, request, id)
      ensures Valid() && clock == now
      ensures reply == Spec.Accepted ==> Promise.OnlyOne(pickups, id, request)
      ensures Contract.Registers(old(Tables()), Tables(), Spec.Pickup, request, id, reply)
    {
      Promise.RequestTells(Tables(), clock, now, Spec.Pickup, request, id);
      hide Inv.CoreInv, Spec.RequestFulfillment, Promise.OnlyOne, Contract.Registers;
      reply := RequestPickupTx(now, request, id);
      clock := now;
    }

    method RequestDeliveryTx(now: int, request: Spec.RequestId, id: OrderId) returns (reply: Spec.Reply)
      modifies this`deliveries
      ensures Spec.Outcome(Tables(), reply) == Spec.RequestFulfillment(old(Tables()), Spec.Delivery, request, id)
    {
      if id !in orders {
        return Spec.NotFound;
      }
      if orders[id].status != Ready {
        return Spec.InvalidState;
      }
      if request in deliveries || exists r :: r in deliveries && deliveries[r].order == id {
        return Spec.AlreadyRequested;
      }
      deliveries := deliveries[request := Spec.Fulfillment(id, Spec.Requested)];
      reply := Spec.Accepted;
    }

    /** An accepted request is the only delivery request of its order. */
    method RequestDelivery(now: int, request: Spec.RequestId, id: OrderId) returns (reply: Spec.Reply)
      requires Valid() && clock < now
      modifies this
      ensures Spec.Outcome(Tables(), reply) == Spec.RequestFulfillment(old(Tables()), Spec.Delivery, request, id)
      ensures Valid() && clock == now
      ensures reply == Spec.Accepted ==> Promise.OnlyOne(deliveries, id, request)
      ensures Contract.Registers(old(Tables()), Tables(), Spec.Delivery, request, id, reply)
    {
      Promise.RequestTells(Tables(), clock, now, Spec.Delivery, request, id);
      hide Inv.CoreInv, Spec.RequestFulfillment, Promise.OnlyOne, Contract.Registers;
      reply := RequestDeliveryTx(now, request, id);
      clock := now;
    }

    method UpdateFulfillmentTx(now: int, kind: Spec.Kind, request: Spec.RequestId, status: Spec.FulfillmentStatus,
                             from: Status, to: Status) returns (reply: Spec.Reply)
      requires from == Spec.FromStatus(kind) && to == Spec.ToStatus(kind)
      modifies this`orders, this`pickups, this`deliveries, this`outbox
      ensures Spec.Outcome(Tables(), reply) == Spec.UpdateFulfillment(old(Tables()), now, kind, request, status)
    {
      if status == Spec.Requested {
        return Spec.Validation;
      }
      var rows := if kind == Spec.Pickup then pickups else deliveries;
      if request !in rows {
        return Spec.NotFound;
      }
      var id := rows[request].order;
      rows := rows[request := Spec.Fulfillment(id, status)];
      if status == Spec.Done && id !in orders {
        return Spec.Internal;
      }
      if kind == Spec.Pickup {
        pickups := rows;
      } else {
        deliveries := rows;
      }
      if status == Spec.Done {
        if orders[id].status == from {
          TransitionStatus(now, id, from, to);
        }
      }
      reply := Spec.Accepted;
    }

    /** The only order that can move is the request's own, by the one transition from the expected status. */
    method UpdateFulfillment(now: int, kind: Spec.Kind, request: Spec.RequestId, status: Spec.FulfillmentStatus,
                             from: Status, to: Status) returns (reply: Spec.Reply)
      requires Valid() && clock < now
      requires from == Spec.FromStatus(kind) && to == Spec.ToStatus(kind)
      modifies this
      ensures Spec.Outcome(Tables(), reply) == Spec.UpdateFulfillment(old(Tables()), now, kind, request, status)
      ensures Valid() && clock == now
      ensures Promise.OnlyMoves(old(Tables()), Tables(), from, to) && (status != Spec.Done ==> orders == old(orders))
      ensures Contract.UpdatesRequest(old(Tables()), Tables(), now, kind, request, status, reply)
        && reply != Spec.Internal
    {
      Promise.UpdateTells(Tables(), clock, now, kind, request, status);
      hide *;
      reply := UpdateFulfillmentTx(now, kind, request, status, from, to);
      clock := now;
    }

    // -------------------------------------------------------------- payment events

    method HandlePaymentEventTx(now: int, m: Spec.Message) returns (reply: Spec.Reply)
      modifies this`orders, this`outbox, this`processed
      ensures Spec.Outcome(Tables(), reply) == Spec.ConsumePayment(old(Tables()), now, m)
    {
      if m.Undecodable? {
        return Spec.Ack;
      }
      if m.id in processed {
        return Spec.Ack;
      }
      if !m.body.Payment? {
        return Spec.Ack;
      }
      var e := m.body.event;
      match e.kind {
        case CreatedEvent =>
          ProjectPaymentStatusIf(m.id, e.order, Pending, {Unpaid});
          reply := Spec.Ack;
        case FailedEvent =>
          ProjectPaymentStatusIf(m.id, e.order, Failed, {Unpaid, Pending});
          reply := Spec.Ack;
        case PaidEvent =>
          reply := HandlePaymentPaid(now, m.id, e);
        case RefundedEvent =>
          reply := HandlePaymentRefunded(now, m.id, e);
      }
    }

    /** payment.paid starts the laundry of an order in Weighing. The message can be handled again at any time without
        effect; one that is requeued has had none. */
    method HandlePaymentEvent(now: int, m: Spec.Message) returns (reply: Spec.Reply)
      requires Valid() && clock < now
      modifies this
      ensures Spec.Outcome(Tables(), reply) == Spec.ConsumePayment(old(Tables()), now, m)
      ensures Valid() && clock == now
      ensures Promise.Handled(Tables(), m) && (reply == Spec.Requeue ==> Tables() == old(Tables()))
      ensures m.Envelope? && m.body.Payment? && reply == Spec.Ack ==> m.id in processed
      ensures Contract.Consumes(old(Tables()), Tables(), now, m, reply)
    {
      Promise.ConsumeTells(Tables(), clock, now, m);
      hide *;
      reply := HandlePaymentEventTx(now, m);
      clock := now;
    }

    method ProjectPaymentStatusIf(eventId: nat, id: OrderId, status: PayStatus, from: set<PayStatus>)
      modifies this`orders, this`processed
      ensures
        var marked := old(Tables()).(processed := old(processed) + {eventId});
        if id in old(orders) && old(orders)[id].paymentStatus in from
        then Tables() == marked.(orders := old(orders)[id := old(orders)[id].(paymentStatus := status)])
        else Tables() == marked
    {
      if id in orders && orders[id].paymentStatus in from {
        orders := orders[id := orders[id].(paymentStatus := status)];
      }
      processed := processed + {eventId};
    }

    method HandlePaymentPaid(now: int, eventId: nat, e: PayEvent) returns (reply: Spec.Reply)
      requires e.kind == PaidEvent
      modifies this`orders, this`outbox, this`processed
      ensures Spec.Outcome(Tables(), reply) == Spec.ProjectPayment(old(Tables()), now, eventId, e)
      ensures
        if e.order in old(orders)
        then reply == Spec.Ack && Contract.Projects(old(Tables()), Tables(), now, eventId, e)
        else reply == Spec.Requeue && Tables() == old(Tables())
    {
      if e.order in orders {
        Contract.EventProjects(Tables(), now, eventId, e);
      }
      hide Contract.Projects, Spec.MoveEvent;
      if e.order !in orders {
        return Spec.Requeue;
      }
      var status := orders[e.order].status;
      ghost var paid := orders[e.order].(paymentStatus := Paid);
      orders := orders[e.order := orders[e.order].(paymentStatus := Paid)];
      if status == Weighing {
        TransitionStatus(now, e.order, Weighing, Washing);
        assert orders == old(orders)[e.order := Move(paid, Washing)];
      }
      processed := processed + {eventId};
      reply := Spec.Ack;
    }

    method HandlePaymentRefunded(now: int, eventId: nat, e: PayEvent) returns (reply: Spec.Reply)
      requires e.kind == RefundedEvent
      modifies this`orders, this`outbox, this`processed
      ensures Spec.Outcome(Tables(), reply) == Spec.ProjectPayment(old(Tables()), now, eventId, e)
      ensures
        if e.order in old(orders)
        then reply == Spec.Ack && Contract.Projects(old(Tables()), Tables(), now, eventId, e)
        else reply == Spec.Requeue && Tables() == old(Tables())
    {
      if e.order in orders {
        Contract.EventProjects(Tables(), now, eventId, e);
      }
      hide Contract.Projects, Spec.MoveEvent;
      if e.order !in orders {
        return Spec.Requeue;
      }
      var status := orders[e.order].status;
      if orders[e.order].paymentStatus == Paid {
        orders := orders[e.order := orders[e.order].(paymentStatus := Refunded)];
      }
      ghost var refunded := orders[e.order];
      assert orders == old(orders)[e.order := refunded];
      if status != Cancelled {
        TransitionStatus(now, e.order, status, Cancelled);
        assert orders == old(orders)[e.order := Move(refunded, Cancelled)];
      }
      processed := processed + {eventId};
      reply := Spec.Ack;
    }

    /** ConsumePaymentEvents over a finite stretch of the broker's deliveries, returning what each is answered with. */
    method ConsumePaymentEvents(at: seq<int>, deliveries: seq<Spec.Message>) returns (replies: seq<Spec.Reply>)
      requires |at| == |deliveries| && Valid()
      requires forall i :: 0 <= i < |at| ==> clock < at[i]
      requires forall i, j :: 0 <= i < j < |at| ==> at[i] < at[j]
      modifies this
      ensures Valid()
      ensures Tables() == Spec.ConsumeAll(old(Tables()), at, deliveries)
      ensures |replies| == |deliveries|
      ensures forall i :: 0 <= i < |replies| ==>
        replies[i] ==
          Spec.ConsumePayment(Spec.ConsumeAll(old(Tables()), at[..i], deliveries[..i]), at[i], deliveries[i]).reply
    {
      hide *;
      replies := [];
      ghost var before := Tables();
      assert at[..0] == [] && deliveries[..0] == [];
      Promise.ConsumeNothing(before);
      for i := 0 to |deliveries|
        invariant |replies| == i && Valid() && clock == if i == 0 then old(clock) else at[i - 1]
        invariant Tables() == Spec.ConsumeAll(before, at[..i], deliveries[..i])
        invariant forall k :: 0 <= k < i ==>
          replies[k] ==
            Spec.ConsumePayment(Spec.ConsumeAll(before, at[..k], deliveries[..k]), at[k], deliveries[k]).reply
      {
        Promise.ConsumeNext(before, at, deliveries, i);
        var reply := HandlePaymentEvent(at[i], deliveries[i]);
        replies := replies + [reply];
      }
      assert at[..|at|] == at && deliveries[..|deliveries|] == deliveries;
    }
  }
}
