/** What each of Core's requests does, said of the rows before and after it: which reply each request gets, and when it
    is accepted which rows have changed and to what. Prices and tax rates are read off the validity intervals of their
    tables, amounts are said to be nearest integers, and no transaction of CoreDb is named. */
module CoreContracts {
  import opened Wrappers
  import opened OrderState
  import opened Events
  import opened Money
  import opened Catalog
  import opened Orders
  import opened CoreDb
  import opened CoreInvariants

  // ---------------------------------------------------------------- shapes of a change

  /** One row was appended to the outbox at this time. */
  ghost predicate Appends(before: seq<OutboxRow<CoreEvent>>, after: seq<OutboxRow<CoreEvent>>, now: int) {
    |after| == |before| + 1 && before <= after && after[|before|].createdAt == now
  }

  /** The event of a status change; completions and cancellations have names of their own. */
  predicate TellsMove(e: CoreEvent, id: OrderId, from: Status, to: Status) {
    && e.OrderMoved? && e.order == id && e.from == from && e.to == to
    && (e.name == OrderCompleted <==> to == Completed) && (e.name == OrderCancelled <==> to == Cancelled)
  }

  /** In the order tables this order alone has changed. */
  ghost predicate OnlyOrder(db: Db, db': Db, id: OrderId) {
    id in db'.orders && db'.orders == db.orders[id := db'.orders[id]]
  }

  /** One more history row and one more event lead the order from its status to this one. */
  ghost predicate Moves(db: Db, db': Db, now: int, id: OrderId, to: Status)
    requires id in db.orders && id in db'.orders
  {
    var from := db.orders[id].status;
    && db'.orders[id].status == to
    && db'.orders[id].history == db.orders[id].history + [HistoryRow(Some(from), to)]
    && Appends(db.outbox, db'.outbox, now) && TellsMove(db'.outbox[|db.outbox|].event, id, from, to)
  }

  ghost predicate Stays(db: Db, db': Db, id: OrderId)
    requires id in db.orders && id in db'.orders
  {
    && db'.orders[id].status == db.orders[id].status && db'.orders[id].history == db.orders[id].history
    && db'.outbox == db.outbox
  }

  // ---------------------------------------------------------------- POST /orders

  predicate ValidFields(req: OrderRequest) {
    |req.lines| > 0 && req.knownSource && req.knownFulfillment
  }

  function Discount(req: OrderRequest): int {
    if req.discount.Some? then req.discount.value else 0
  }

  /** The service is active and has a price at the outlet, its own or the global one, at this time. */
  ghost predicate Offered(db: Db, outlet: OutletId, line: Line, now: int) {
    && line.service in db.services && db.services[line.service]
    && exists p :: PriceAt(db.prices, line.service, Some(outlet), now, p)
  }

  ghost predicate AllOffered(db: Db, req: OrderRequest, now: int)
    requires req.outlet.Some?
  {
    forall i :: 0 <= i < |req.lines| ==> Offered(db, req.outlet.value, req.lines[i], now)
  }

  /** The constraints on the rows to insert. */
  predicate Insertable(db: Db, id: OrderId, req: OrderRequest)
    requires req.outlet.Some?
  {
    && id !in db.orders && req.outlet.value in db.outlets && Discount(req) >= 0
    && (req.pickup.Some? ==> req.pickup.value !in db.pickups)
    && (req.delivery.Some? ==> req.delivery.value !in db.deliveries)
  }

  ghost predicate ItemFor(prices: seq<PriceRow>, outlet: OutletId, now: int, line: Line, item: Item) {
    && item.service == line.service && item.estimatedKg == line.estimatedKg
    && item.actualKg.None? && item.subtotal.None? && !item.isLocked
    && PriceAt(prices, line.service, Some(outlet), now, item.unitPrice)
  }

  function Sum(parts: seq<int>): int {
    if parts == [] then 0 else parts[0] + Sum(parts[1..])
  }

  predicate EstimatePart(item: Item, part: int) {
    item.estimatedKg.Some? && Nearest(part, item.estimatedKg.value * item.unitPrice as real)
  }

  /** The parts are the items' rounded estimates. */
  ghost predicate EstimateParts(items: seq<Item>, parts: seq<int>) {
    |parts| == |items| && forall i :: 0 <= i < |items| ==> EstimatePart(items[i], parts[i])
  }

  /** There is an estimate exactly when every item has one, and it is the sum of the rounded ones. */
  ghost predicate Estimates(items: seq<Item>, estimate: Option<int>) {
    && (estimate.Some? <==> forall i :: 0 <= i < |items| ==> items[i].estimatedKg.Some?)
    && (estimate.Some? ==> exists parts :: EstimateParts(items, parts) && estimate.value == Sum(parts))
  }

  ghost predicate RequestInserted(rows: map<RequestId, Fulfillment>, rows': map<RequestId, Fulfillment>,
                                  request: Option<RequestId>, id: OrderId)
  {
    if request.Some? then rows' == rows[request.value := Fulfillment(id, Requested)] else rows' == rows
  }

  /** A new order with one item for each requested line, in order, and the requests that go with it. */
  ghost predicate Places(db: Db, db': Db, now: int, id: OrderId, req: OrderRequest)
    requires req.outlet.Some?
  {
    && db' == db.(orders := db'.orders, pickups := db'.pickups, deliveries := db'.deliveries, outbox := db'.outbox)
    && OnlyOrder(db, db', id)
    && var o, outlet := db'.orders[id], req.outlet.value;
       && o.outlet == outlet && o.createdAt == now && o.discount == Discount(req)
       && o.status == Created && o.paymentStatus == Unpaid && o.history == [HistoryRow(None, Created)]
       && o.subtotal.None? && o.total.None? && o.taxRate == 0.0 && o.tax == o.pickupFee == o.deliveryFee == 0
       && |o.items| == |req.lines|
       && (forall i :: 0 <= i < |o.items| ==> ItemFor(db.prices, outlet, now, req.lines[i], o.items[i]))
       && Estimates(o.items, o.estimatedTotal)
       && RequestInserted(db.pickups, db'.pickups, req.pickup, id)
       && RequestInserted(db.deliveries, db'.deliveries, req.delivery, id)
       && db'.outbox == db.outbox + [OutboxRow(OrderCreated(id, outlet), now)]
  }

  ghost predicate Creates(db: Db, db': Db, now: int, id: OrderId, req: OrderRequest, reply: Reply) {
    && reply in {Accepted, Validation, NoOutlet, Internal}
    && (reply == NoOutlet <==> ValidFields(req) && req.outlet.None?)
    && (reply == Validation <==> !ValidFields(req) || (req.outlet.Some? && !AllOffered(db, req, now)))
    && (reply == Accepted <==>
          ValidFields(req) && req.outlet.Some? && AllOffered(db, req, now) && Insertable(db, id, req))
    && if reply == Accepted then Places(db, db', now, id, req) else db' == db
  }

  lemma {:induction false} CreateOrderCreates(db: Db, clock: int, now: int, id: OrderId, req: OrderRequest)
    requires Timeline(db.prices, clock) && clock < now
    ensures var o := CreateOrder(db, now, id, req); Creates(db, o.db, now, id, req, o.reply)
  {
    if req.outlet.Some? {
      LinesArePrepared(db, clock, now, req);
      if ValidFields(req) && Preparable(db, req.outlet.value, req.lines) && Insertable(db, id, req) {
        NewOrderPlaces(db, clock, now, id, req);
      }
    }
    hide Timeline, Preparable, Prepare, Estimate, AllOffered, Places, Write, NewOrder;
  }

  lemma {:induction false} NewOrderPlaces(db: Db, clock: int, now: int, id: OrderId, req: OrderRequest)
    requires Timeline(db.prices, clock) && clock < now
    requires ValidFields(req) && req.outlet.Some? && Preparable(db, req.outlet.value, req.lines)
    requires Insertable(db, id, req)
    ensures CreateOrder(db, now, id, req).reply == Accepted
      && Places(db, CreateOrder(db, now, id, req).db, now, id, req)
  {
    LinesArePrepared(db, clock, now, req);
    EstimateIsSum(Prepare(db, req.outlet.value, req.lines));
    hide Timeline, Preparable, Prepare, Estimate, Estimates, AllOffered, ItemFor;
  }

  lemma {:induction false} LinesArePrepared(db: Db, clock: int, now: int, req: OrderRequest)
    requires Timeline(db.prices, clock) && clock < now && req.outlet.Some?
    ensures AllOffered(db, req, now) <==> Preparable(db, req.outlet.value, req.lines)
    ensures Preparable(db, req.outlet.value, req.lines) ==>
      var items := Prepare(db, req.outlet.value, req.lines);
      |items| == |req.lines|
      && forall i :: 0 <= i < |items| ==> ItemFor(db.prices, req.outlet.value, now, req.lines[i], items[i])
  {
    forall i | 0 <= i < |req.lines|
      ensures Offered(db, req.outlet.value, req.lines[i], now) <==>
                PrepareItem(db, req.outlet.value, req.lines[i]).Some?
      ensures PrepareItem(db, req.outlet.value, req.lines[i]).Some? ==>
        ItemFor(db.prices, req.outlet.value, now, req.lines[i], PrepareItem(db, req.outlet.value, req.lines[i]).value)
    {
      LineIsPrepared(db, clock, now, req.outlet.value, req.lines[i]);
    }
    hide Offered, PrepareItem, ItemFor;
  }

  lemma LineIsPrepared(db: Db, clock: int, now: int, outlet: OutletId, line: Line)
    requires Timeline(db.prices, clock) && clock < now
    ensures Offered(db, outlet, line, now) <==> PrepareItem(db, outlet, line).Some?
    ensures PrepareItem(db, outlet, line).Some? ==>
      ItemFor(db.prices, outlet, now, line, PrepareItem(db, outlet, line).value)
  {
    ActivePriceIsPriceNow(db.prices, clock, line.service, Some(outlet), now);
    hide Timeline, PriceAt, ActivePrice;
  }

  lemma {:induction false} EstimateIsSum(items: seq<Item>)
    ensures Estimates(items, Estimate(items))
  {
    if forall i :: 0 <= i < |items| ==> items[i].estimatedKg.Some? {
      var parts := seq(|items|, i requires 0 <= i < |items| => PriceOf(items[i].estimatedKg.value, items[i].unitPrice));
      PartsAddUp(items, parts);
      assert EstimateParts(items, parts);
    }
  }

  lemma {:induction false} PartsAddUp(items: seq<Item>, parts: seq<int>)
    requires forall i :: 0 <= i < |items| ==> items[i].estimatedKg.Some?
    requires |parts| == |items|
    requires forall i :: 0 <= i < |items| ==> parts[i] == PriceOf(items[i].estimatedKg.value, items[i].unitPrice)
    ensures SumEstimates(items) == Sum(parts)
  {
    if items != [] {
      var n := |items| - 1;
      PartsAddUp(items[..n], parts[..n]);
      SumSnoc(parts[..n], parts[n]);
      assert parts[..n] + [parts[n]] == parts;
    }
  }

  lemma {:induction false} SumSnoc(parts: seq<int>, last: int)
    ensures Sum(parts + [last]) == Sum(parts) + last
  {
    if parts == [] {
      assert [last][1..] == [];
    } else {
      SumSnoc(parts[1..], last);
      assert (parts + [last])[1..] == parts[1..] + [last];
    }
  }

  // ---------------------------------------------------------------- weighing

  /** The item gets the weight and its price, rounded; the first weighing moves the order to Weighing. */
  ghost predicate RecordsWeight(db: Db, db': Db, now: int, id: OrderId, item: nat, kg: real)
    requires id in db.orders && item < |db.orders[id].items|
  {
    && db' == db.(orders := db'.orders, outbox := db'.outbox) && OnlyOrder(db, db', id)
    && (if db.orders[id].status == Received then Moves(db, db', now, id, Weighing) else Stays(db, db', id))
    && var o, o' := db.orders[id], db'.orders[id];
       && |o'.items| == |o.items|
       && o' == o.(items := o.items[item := o'.items[item]], status := Weighing, history := o'.history)
       && WeighedAt(o.items[item], o'.items[item], kg)
  }

  ghost predicate WeighedAt(row: Item, row': Item, kg: real) {
    && row' == row.(actualKg := Some(kg), subtotal := row'.subtotal)
    && row'.subtotal.Some? && Nearest(row'.subtotal.value, kg * row.unitPrice as real)
  }

  ghost predicate Weighs(db: Db, db': Db, now: int, id: OrderId, item: nat, kg: real, reply: Reply) {
    var found := id in db.orders && item < |db.orders[id].items|;
    && reply in {Accepted, Validation, NotFound, InvalidState, ItemLocked}
    && (reply == Validation <==> kg < 0.0)
    && (reply == NotFound <==> kg >= 0.0 && !found)
    && (reply == InvalidState <==> kg >= 0.0 && found && db.orders[id].status !in {Received, Weighing})
    && (reply == ItemLocked ==> found && db.orders[id].items[item].isLocked)
    && (reply == Accepted ==> found && !db.orders[id].items[item].isLocked)
    && if reply == Accepted then RecordsWeight(db, db', now, id, item, kg) else db' == db
  }

  lemma {:induction false} WeighItemWeighs(db: Db, now: int, id: OrderId, item: nat, kg: real)
    ensures var o := WeighItem(db, now, id, item, kg); Weighs(db, o.db, now, id, item, kg, o.reply)
  {
    hide RoundHalfAway;
  }

  // ---------------------------------------------------------------- finalizing

  /** What the order comes to at this rate: the rounded tax on the weighed sum, and the fees asked for or kept. */
  ghost predicate Bill(o: Order, rate: real, tax: int, pickupFee: int, deliveryFee: int, total: int) {
    && Nearest(tax, rate / 100.0 * SumSubtotals(o.items) as real)
    && total == SumSubtotals(o.items) - o.discount + tax + pickupFee + deliveryFee
  }

  function Fee(asked: Option<int>, kept: int): int {
    if asked.Some? then asked.value else kept
  }

  /** At the rate in force at this time, no amount of the bill is negative. */
  ghost predicate Payable(db: Db, now: int, o: Order, pickupFee: Option<int>, deliveryFee: Option<int>) {
    exists rate, tax, total ::
      && TaxAt(db.taxRates, now, rate)
      && Bill(o, rate, tax, Fee(pickupFee, o.pickupFee), Fee(deliveryFee, o.deliveryFee), total)
      && tax >= 0 && Fee(pickupFee, o.pickupFee) >= 0 && Fee(deliveryFee, o.deliveryFee) >= 0 && total >= 0
  }

  /** The order keeps the rate whose row covers this time, and the bill at that rate, which is announced. */
  ghost predicate Totals(db: Db, db': Db, now: int, id: OrderId, pickupFee: Option<int>, deliveryFee: Option<int>)
    requires id in db.orders
  {
    && db' == db.(orders := db'.orders, outbox := db'.outbox) && OnlyOrder(db, db', id)
    && var o, o' := db.orders[id], db'.orders[id];
       && o' == o.(subtotal := o'.subtotal, taxRate := o'.taxRate, tax := o'.tax, pickupFee := o'.pickupFee,
                   deliveryFee := o'.deliveryFee, total := o'.total)
       && TaxAt(db.taxRates, now, o'.taxRate)
       && o'.subtotal == Some(SumSubtotals(o.items))
       && o'.pickupFee == Fee(pickupFee, o.pickupFee) && o'.deliveryFee == Fee(deliveryFee, o.deliveryFee)
       && o'.total.Some? && Bill(o, o'.taxRate, o'.tax, o'.pickupFee, o'.deliveryFee, o'.total.value)
       && db'.outbox == db.outbox + [OutboxRow(OrderWeighed(id, o'.subtotal.value, o'.tax, o'.total.value), now)]
  }

  ghost predicate Finalizes(db: Db, db': Db, now: int, id: OrderId, pickupFee: Option<int>, deliveryFee: Option<int>,
                            reply: Reply)
  {
    var known := id in db.orders;
    && reply in {Accepted, NotFound, IncompleteWeighing, Internal}
    && (reply == NotFound <==> !known)
    && (reply == IncompleteWeighing <==> known && !AllWeighed(db.orders[id].items))
    && (reply == Accepted <==>
          known && AllWeighed(db.orders[id].items) && Payable(db, now, db.orders[id], pickupFee, deliveryFee))
    && if reply == Accepted then Totals(db, db', now, id, pickupFee, deliveryFee) else db' == db
  }

  lemma {:induction false} FinalizeFinalizes(db: Db, clock: int, now: int, id: OrderId, pickupFee: Option<int>,
                                             deliveryFee: Option<int>)
    requires TaxTimeline(db.taxRates, clock) && clock < now
    ensures
      var o := FinalizeWeighing(db, now, id, pickupFee, deliveryFee);
      Finalizes(db, o.db, now, id, pickupFee, deliveryFee, o.reply)
  {
    TaxAlwaysActive(db.taxRates, clock);
    var rate := ActiveTax(db.taxRates).value;
    assert rate >= 0.0;
    forall r ensures TaxAt(db.taxRates, now, r) <==> r == rate {
      ActiveTaxIsTaxNow(db.taxRates, clock, now, r);
    }
    hide TaxTimeline, ActiveTax, TaxAt, AllWeighed, Finalize, PassesChecks, Payable, Totals;
    if id in db.orders && AllWeighed(db.orders[id].items) {
      PayableIff(db, now, db.orders[id], rate, pickupFee, deliveryFee);
      if PassesChecks(Finalize(db.orders[id], rate, pickupFee, deliveryFee)) {
        FinalizedTotals(db, now, id, pickupFee, deliveryFee);
      }
    }
  }

  lemma FinalizedTotals(db: Db, now: int, id: OrderId, pickupFee: Option<int>, deliveryFee: Option<int>)
    requires id in db.orders && AllWeighed(db.orders[id].items) && ActiveTax(db.taxRates).Some?
    requires TaxAt(db.taxRates, now, ActiveTax(db.taxRates).value)
    requires PassesChecks(Finalize(db.orders[id], ActiveTax(db.taxRates).value, pickupFee, deliveryFee))
    ensures Totals(db, FinalizeWeighing(db, now, id, pickupFee, deliveryFee).db, now, id, pickupFee, deliveryFee)
  {
    BillIsFinal(db.orders[id], ActiveTax(db.taxRates).value, pickupFee, deliveryFee);
    hide TaxAt, ActiveTax, AllWeighed, Finalize, PassesChecks, Bill, SumSubtotals;
  }

  lemma BillIsFinal(o: Order, rate: real, pickupFee: Option<int>, deliveryFee: Option<int>)
    ensures
      var done := Finalize(o, rate, pickupFee, deliveryFee);
      && done == o.(subtotal := Some(SumSubtotals(o.items)), taxRate := rate, tax := done.tax,
                    pickupFee := Fee(pickupFee, o.pickupFee), deliveryFee := Fee(deliveryFee, o.deliveryFee),
                    total := done.total)
      && done.total.Some? && Bill(o, rate, done.tax, done.pickupFee, done.deliveryFee, done.total.value)
  {
    OneIsNearest(TaxOn(SumSubtotals(o.items), rate), rate / 100.0 * SumSubtotals(o.items) as real);
    hide SumSubtotals, Nearest, RoundHalfAway;
  }

  lemma PayableIff(db: Db, now: int, o: Order, rate: real, pickupFee: Option<int>, deliveryFee: Option<int>)
    requires rate >= 0.0 && forall r :: TaxAt(db.taxRates, now, r) <==> r == rate
    ensures Payable(db, now, o, pickupFee, deliveryFee) <==> PassesChecks(Finalize(o, rate, pickupFee, deliveryFee))
  {
    var done, pf, df := Finalize(o, rate, pickupFee, deliveryFee), Fee(pickupFee, o.pickupFee),
      Fee(deliveryFee, o.deliveryFee);
    BillIsFinal(o, rate, pickupFee, deliveryFee);
    forall tax, total | Bill(o, rate, tax, pf, df, total)
      ensures tax == done.tax && total == done.total.value
    {
      OneIsNearest(tax, rate / 100.0 * SumSubtotals(o.items) as real);
    }
    hide Finalize, TaxAt, Bill;
    if PassesChecks(done) {
      assert TaxAt(db.taxRates, now, rate) && Bill(o, rate, done.tax, pf, df, done.total.value);
    }
  }

  // ---------------------------------------------------------------- status changes

  ghost predicate ChangesStatus(db: Db, db': Db, now: int, id: OrderId, to: Option<Status>, hasReason: bool,
                                reply: Reply)
  {
    var known := id in db.orders;
    var allowed := known && to.Some? && IsValidTransition(db.orders[id].status, to.value);
    && reply in {Accepted, NotFound, InvalidTransition, Validation, PaymentNotCollected}
    && (reply == NotFound <==> !known)
    && (reply == InvalidTransition <==> known && !allowed)
    && (reply == Validation <==> allowed && to.value in {OnHold, Cancelled} && !hasReason)
    && (reply == PaymentNotCollected <==> allowed && to.value == Completed && db.orders[id].paymentStatus != Paid)
    && if reply != Accepted then db' == db
       else
         && allowed && db' == db.(orders := db'.orders, outbox := db'.outbox) && OnlyOrder(db, db', id)
         && db'.orders[id] == db.orders[id].(status := to.value, history := db'.orders[id].history)
         && Moves(db, db', now, id, to.value)
  }

  lemma {:induction false} ChangeStatusChanges(db: Db, now: int, id: OrderId, to: Option<Status>, hasReason: bool)
    ensures
      var o := ChangeStatus(db, now, id, to, hasReason);
      ChangesStatus(db, o.db, now, id, to, hasReason, o.reply)
  {
    hide IsValidTransition;
  }

  // ---------------------------------------------------------------- pickup and delivery

  ghost predicate HasRequest(rows: map<RequestId, Fulfillment>, id: OrderId) {
    exists r :: r in rows && rows[r].order == id
  }

  ghost predicate Registers(db: Db, db': Db, kind: Kind, request: RequestId, id: OrderId, reply: Reply) {
    var rows := if kind == Pickup then db.pickups else db.deliveries;
    var known := id in db.orders;
    var open := known && (kind == Delivery ==> db.orders[id].status == Ready);
    && reply in {Accepted, NotFound, InvalidState, AlreadyRequested, Internal}
    && (reply == Internal <==> kind == Pickup && !known)
    && (reply == NotFound <==> kind == Delivery && !known)
    && (reply == InvalidState <==> known && !open)
    && (reply == AlreadyRequested <==> open && (request in rows || HasRequest(rows, id)))
    && if reply != Accepted then db' == db
       else if kind == Pickup then db' == db.(pickups := rows[request := Fulfillment(id, Requested)])
       else db' == db.(deliveries := rows[request := Fulfillment(id, Requested)])
  }

  lemma {:induction false} RequestRegisters(db: Db, kind: Kind, request: RequestId, id: OrderId)
    ensures
      var o := RequestFulfillment(db, kind, request, id);
      Registers(db, o.db, kind, request, id, o.reply)
  {
  }

  /** The request gets the status; finishing a pickup receives an order that is still Created, finishing a delivery
      delivers one that is still Ready, and no other order moves. */
  ghost predicate Advances(db: Db, db': Db, now: int, kind: Kind, request: RequestId, status: FulfillmentStatus)
  {
    var rows, rows' := if kind == Pickup then db.pickups else db.deliveries,
                       if kind == Pickup then db'.pickups else db'.deliveries;
    var from, to := if kind == Pickup then Created else Ready, if kind == Pickup then Received else Delivered;
    && request in rows && rows' == rows[request := Fulfillment(rows[request].order, status)]
    && (if kind == Pickup then db' == db.(pickups := rows', orders := db'.orders, outbox := db'.outbox)
        else db' == db.(deliveries := rows', orders := db'.orders, outbox := db'.outbox))
    && var id := rows[request].order;
       if status == Done && id in db.orders && db.orders[id].status == from then
         && OnlyOrder(db, db', id)
         && db'.orders[id] == db.orders[id].(status := to, history := db'.orders[id].history)
         && Moves(db, db', now, id, to)
       else db'.orders == db.orders && db'.outbox == db.outbox
  }

  ghost predicate UpdatesRequest(db: Db, db': Db, now: int, kind: Kind, request: RequestId, status: FulfillmentStatus,
                                 reply: Reply)
  {
    var rows := if kind == Pickup then db.pickups else db.deliveries;
    && reply in {Accepted, Validation, NotFound, Internal}
    && (reply == Validation <==> status == Requested)
    && (reply == NotFound <==> status != Requested && request !in rows)
    && (reply == Internal <==> status == Done && request in rows && rows[request].order !in db.orders)
    && if reply == Accepted then Advances(db, db', now, kind, request, status) else db' == db
  }

  lemma {:induction false} UpdateUpdates(db: Db, now: int, kind: Kind, request: RequestId, status: FulfillmentStatus)
    ensures
      var o := UpdateFulfillment(db, now, kind, request, status);
      UpdatesRequest(db, o.db, now, kind, request, status, o.reply)
  {
  }

  // ---------------------------------------------------------------- prices and tax rates

  /** From now on the service costs this at the outlet, or everywhere if it has no price of its own there; what the
      table says about earlier times and about other services and outlets stays. */
  ghost predicate SetsPrice(rows: seq<PriceRow>, rows': seq<PriceRow>, now: int, service: ServiceId,
                            outlet: Option<OutletId>, price: int)
  {
    forall s, o, t, p ::
      CoveredAt(rows', s, o, t, p) <==>
      if s == service && o == outlet && now <= t then p == price else CoveredAt(rows, s, o, t, p)
  }

  ghost predicate Prices(db: Db, db': Db, now: int, service: ServiceId, outlet: Option<OutletId>, price: int,
                         reply: Reply)
  {
    && reply in {Accepted, Validation, Internal}
    && (reply == Validation <==> price <= 0)
    && (reply == Internal <==> price > 0 && service !in db.services)
    && if reply != Accepted then db' == db
       else db' == db.(prices := db'.prices) && SetsPrice(db.prices, db'.prices, now, service, outlet, price)
  }

  lemma {:induction false} CreatePricingPrices(db: Db, clock: int, now: int, service: ServiceId,
                                               outlet: Option<OutletId>, price: int)
    requires Bounded(db.prices, clock) && clock < now
    ensures
      var o := CreatePricing(db, now, service, outlet, price);
      Prices(db, o.db, now, service, outlet, price, o.reply)
  {
    forall s, o, t, p
      ensures
        CoveredAt(PublishPrice(db.prices, service, outlet, price, now), s, o, t, p) <==>
        if s == service && o == outlet && now <= t then p == price else CoveredAt(db.prices, s, o, t, p)
    {
      PublishSetsPriceFromNow(db.prices, clock, service, outlet, price, now, s, o, t, p);
    }
    hide PublishPrice, CoveredAt;
  }

  /** From now on the rate is this one; what the table says about earlier times stays. */
  ghost predicate SetsTax(rows: seq<TaxRow>, rows': seq<TaxRow>, now: int, rate: real) {
    forall t, r :: TaxAt(rows', t, r) <==> if now <= t then r == rate else TaxAt(rows, t, r)
  }

  ghost predicate SetsTaxRate(db: Db, db': Db, now: int, rate: real, hasReason: bool, reply: Reply) {
    && reply in {Accepted, Validation}
    && (reply == Accepted <==> 0.0 <= rate <= 100.0 && hasReason)
    && if reply != Accepted then db' == db
       else db' == db.(taxRates := db'.taxRates) && SetsTax(db.taxRates, db'.taxRates, now, rate)
  }

  lemma {:induction false} SetTaxRateSets(db: Db, clock: int, now: int, rate: real, hasReason: bool)
    requires TaxTimeline(db.taxRates, clock) && clock < now
    ensures var o := SetTaxRate(db, now, rate, hasReason); SetsTaxRate(db, o.db, now, rate, hasReason, o.reply)
  {
    forall t, r
      ensures
        TaxAt(PublishTax(db.taxRates, rate, now), t, r) <==> if now <= t then r == rate else TaxAt(db.taxRates, t, r)
    {
      PublishSetsTaxFromNow(db.taxRates, clock, rate, now, t, r);
    }
    hide PublishTax, TaxAt;
  }

  // ---------------------------------------------------------------- payment events

  /** payment.created makes an Unpaid order Pending; payment.failed an Unpaid or Pending one Failed; payment.paid any
      order Paid; payment.refunded a Paid one Refunded. */
  function StatusAfter(before: PayStatus, kind: PayKind): PayStatus {
    match kind
    case CreatedEvent => if before == Unpaid then Pending else before
    case FailedEvent => if before == Unpaid || before == Pending then Failed else before
    case PaidEvent => Paid
    case RefundedEvent => if before == Paid then Refunded else before
  }

  /** The event is marked and its order's payment_status follows it. payment.paid starts the laundry of an order in
      Weighing, payment.refunded cancels any order that is not, and nothing else moves. */
  ghost predicate Projects(db: Db, db': Db, now: int, eventId: nat, e: PayEvent)
    requires e.order in db.orders
  {
    && db' == db.(orders := db'.orders, outbox := db'.outbox, processed := db.processed + {eventId})
    && OnlyOrder(db, db', e.order)
    && var o, o' := db.orders[e.order], db'.orders[e.order];
       && o' == o.(paymentStatus := StatusAfter(o.paymentStatus, e.kind), status := o'.status, history := o'.history)
       && if e.kind == PaidEvent && o.status == Weighing then Moves(db, db', now, e.order, Washing)
          else if e.kind == RefundedEvent && o.status != Cancelled then Moves(db, db', now, e.order, Cancelled)
          else Stays(db, db', e.order)
  }

  ghost predicate Consumes(db: Db, db': Db, now: int, m: Message, reply: Reply) {
    && reply in {Ack, Requeue}
    && if m.Undecodable? || m.id in db.processed || !m.body.Payment? then reply == Ack && db' == db
       else
         var e := m.body.event;
         if e.order in db.orders then reply == Ack && Projects(db, db', now, m.id, e)
         else if e.kind in {PaidEvent, RefundedEvent} then reply == Requeue && db' == db
         else reply == Ack && db' == db.(processed := db.processed + {m.id})
  }

  lemma {:induction false} ConsumePaymentConsumes(db: Db, now: int, m: Message)
    ensures var o := ConsumePayment(db, now, m); Consumes(db, o.db, now, m, o.reply)
  {
    if m.Envelope? && m.body.Payment? && m.body.event.order in db.orders {
      EventProjects(db, now, m.id, m.body.event);
      hide Projects, ProjectPayment;
    }
  }

  lemma EventProjects(db: Db, now: int, eventId: nat, e: PayEvent)
    requires e.order in db.orders
    ensures
      var o := ProjectPayment(db, now, eventId, e);
      o.reply == Ack && Projects(db, o.db, now, eventId, e)
  {
  }
}
