/** Core's database as one value, and what each of Core's transactions does to it. A transaction that fails
    returns the database it started from. */
module CoreDb {
  import opened Wrappers
  import opened OrderState
  import opened Events
  import opened Money
  import opened Catalog
  import opened Orders

  type RequestId = nat

  datatype Kind = Pickup | Delivery
  datatype FulfillmentStatus = Requested | Scheduled | Done | Withdrawn
  datatype Fulfillment = Fulfillment(order: OrderId, status: FulfillmentStatus)

  /** `services` maps a service to its is_active flag; `processed` holds the ids of consumed payment events. */
  datatype Db = Db(outlets: set<OutletId>, services: map<ServiceId, bool>, prices: seq<PriceRow>, taxRates: seq<TaxRow>,
                   orders: map<OrderId, Order>, pickups: map<RequestId, Fulfillment>,
                   deliveries: map<RequestId, Fulfillment>, outbox: seq<OutboxRow<CoreEvent>>, processed: set<nat>)

  datatype Reply =
    | Accepted | Validation | NoOutlet | NotFound | InvalidState | ItemLocked | IncompleteWeighing
    | InvalidTransition | PaymentNotCollected | AlreadyRequested | Internal | Ack | Requeue

  datatype Outcome = Outcome(db: Db, reply: Reply)

  datatype Line = Line(service: ServiceId, estimatedKg: Option<real>)

  /** A POST /orders body after the customer and the outlet have been resolved. `outlet` is None when no outlet
      is active; `pickup` and `delivery` carry the id of the request row to insert, when one is asked for. */
  datatype OrderRequest = OrderRequest(lines: seq<Line>, knownSource: bool, knownFulfillment: bool,
                                       outlet: Option<OutletId>, discount: Option<int>, pickup: Option<RequestId>,
                                       delivery: Option<RequestId>)

  /** A delivery from the broker as the payment consumer sees it. */
  datatype Message = Undecodable | Envelope(id: nat, body: Body)
  datatype Body = UnknownType | NoOrderId | Payment(event: PayEvent)

  function Emit(db: Db, e: CoreEvent, now: int): Db {
    db.(outbox := db.outbox + [OutboxRow(e, now)])
  }

  function MoveEvent(id: OrderId, from: Status, to: Status): CoreEvent {
    OrderMoved(if to == Completed then OrderCompleted
               else if to == Cancelled then OrderCancelled
               else StatusChanged, id, from, to)
  }

  /** One order is replaced and its event is appended, in one commit. */
  function Write(db: Db, id: OrderId, o: Order, e: CoreEvent, now: int): Db {
    Emit(db.(orders := db.orders[id := o]), e, now)
  }

  function Transition(db: Db, id: OrderId, o: Order, to: Status, now: int): Db {
    Write(db, id, Move(o, to), MoveEvent(id, o.status, to), now)
  }

  // ---------------------------------------------------------------- POST /orders

  function PrepareItem(db: Db, outlet: OutletId, line: Line): Option<Item> {
    if line.service !in db.services || !db.services[line.service] then None
    else
      var price := ActivePrice(db.prices, line.service, Some(outlet));
      if price.None? then None else Some(Item(line.service, price.value, line.estimatedKg, None, None, false))
  }

  predicate Preparable(db: Db, outlet: OutletId, lines: seq<Line>) {
    forall i :: 0 <= i < |lines| ==> PrepareItem(db, outlet, lines[i]).Some?
  }

  function Prepare(db: Db, outlet: OutletId, lines: seq<Line>): seq<Item>
    requires Preparable(db, outlet, lines)
  {
    seq(|lines|, i requires 0 <= i < |lines| => PrepareItem(db, outlet, lines[i]).value)
  }

  function SumEstimates(items: seq<Item>): int {
    if items == [] then 0
    else
      var last := items[|items| - 1];
      SumEstimates(items[..|items| - 1]) +
        (if last.estimatedKg.Some? then PriceOf(last.estimatedKg.value, last.unitPrice) else 0)
  }

  function Estimate(items: seq<Item>): Option<int> {
    if forall i :: 0 <= i < |items| ==> items[i].estimatedKg.Some? then Some(SumEstimates(items)) else None
  }

  function InsertRequest(rows: map<RequestId, Fulfillment>, id: Option<RequestId>, order: OrderId)
    : Option<map<RequestId, Fulfillment>>
  {
    if id.None? then Some(rows)
    else if id.value in rows then None
    else Some(rows[id.value := Fulfillment(order, Requested)])
  }

  function CreateOrder(db: Db, now: int, id: OrderId, req: OrderRequest): Outcome {
    if |req.lines| == 0 || !req.knownSource || !req.knownFulfillment then Outcome(db, Validation)
    else if req.outlet.None? then Outcome(db, NoOutlet)
    else if !Preparable(db, req.outlet.value, req.lines) then Outcome(db, Validation)
    else
      var items := Prepare(db, req.outlet.value, req.lines);
      var discount := if req.discount.Some? then req.discount.value else 0;
      var pickups := InsertRequest(db.pickups, req.pickup, id);
      var deliveries := InsertRequest(db.deliveries, req.delivery, id);
      if id in db.orders || req.outlet.value !in db.outlets || discount < 0 || pickups.None? || deliveries.None? then
        Outcome(db, Internal)
      else
        var o := NewOrder(req.outlet.value, now, items, Estimate(items), discount);
        var requested := db.(pickups := pickups.value, deliveries := deliveries.value);
        Outcome(Write(requested, id, o, OrderCreated(id, o.outlet), now), Accepted)
  }

  // ---------------------------------------------------------------- weighing

  function WeighItem(db: Db, now: int, id: OrderId, item: nat, kg: real): Outcome {
    if kg < 0.0 then Outcome(db, Validation)
    else if id !in db.orders || item >= |db.orders[id].items| then Outcome(db, NotFound)
    else
      var o := db.orders[id];
      if o.status != Received && o.status != Weighing then Outcome(db, InvalidState)
      else if o.items[item].isLocked then Outcome(db, ItemLocked)
      else
        var o' := Weigh(o, item, kg);
        Outcome(if o.status == Received then Write(db, id, o', MoveEvent(id, Received, Weighing), now)
                else db.(orders := db.orders[id := o']), Accepted)
  }

  function FinalizeWeighing(db: Db, now: int, id: OrderId, pickupFee: Option<int>, deliveryFee: Option<int>): Outcome {
    if id in db.orders && !AllWeighed(db.orders[id].items) then Outcome(db, IncompleteWeighing)
    else if ActiveTax(db.taxRates).None? then Outcome(db, Internal)
    else if id !in db.orders then Outcome(db, NotFound)
    else
      var o := Finalize(db.orders[id], ActiveTax(db.taxRates).value, pickupFee, deliveryFee);
      if !PassesChecks(o) then Outcome(db, Internal)
      else Outcome(Write(db, id, o, OrderWeighed(id, o.subtotal.value, o.tax, o.total.value), now), Accepted)
  }

  // ---------------------------------------------------------------- status changes

  /** `to` is None for a string that is not a status. */
  function ChangeStatus(db: Db, now: int, id: OrderId, to: Option<Status>, hasReason: bool): Outcome {
    if id !in db.orders then Outcome(db, NotFound)
    else
      var o := db.orders[id];
      if to.None? || !IsValidTransition(o.status, to.value) then Outcome(db, InvalidTransition)
      else if RequiresReason(to.value) && !hasReason then Outcome(db, Validation)
      else if RequiresPaidBeforeCompleting(to.value) && o.paymentStatus != Paid then Outcome(db, PaymentNotCollected)
      else Outcome(Transition(db, id, o, to.value, now), Accepted)
  }

  function Requests(db: Db, kind: Kind): map<RequestId, Fulfillment> {
    match kind case Pickup => db.pickups case Delivery => db.deliveries
  }

  function WithRequests(db: Db, kind: Kind, rows: map<RequestId, Fulfillment>): Db {
    match kind case Pickup => db.(pickups := rows) case Delivery => db.(deliveries := rows)
  }

  function RequestFulfillment(db: Db, kind: Kind, request: RequestId, id: OrderId): Outcome {
    var rows := Requests(db, kind);
    if id !in db.orders then Outcome(db, if kind == Pickup then Internal else NotFound)
    else if kind == Delivery && db.orders[id].status != Ready then Outcome(db, InvalidState)
    else if request in rows || exists r :: r in rows && rows[r].order == id then Outcome(db, AlreadyRequested)
    else Outcome(WithRequests(db, kind, rows[request := Fulfillment(id, Requested)]), Accepted)
  }

  function FromStatus(kind: Kind): Status {
    match kind case Pickup => Created case Delivery => Ready
  }

  function ToStatus(kind: Kind): Status {
    match kind case Pickup => Received case Delivery => Delivered
  }

  function UpdateFulfillment(db: Db, now: int, kind: Kind, request: RequestId, status: FulfillmentStatus): Outcome {
    var rows := Requests(db, kind);
    if status == Requested then Outcome(db, Validation)
    else if request !in rows then Outcome(db, NotFound)
    else
      var id := rows[request].order;
      var db' := WithRequests(db, kind, rows[request := Fulfillment(id, status)]);
      if status != Done then Outcome(db', Accepted)
      else if id !in db.orders then Outcome(db, Internal)
      else if db.orders[id].status != FromStatus(kind) then Outcome(db', Accepted)
      else Outcome(Transition(db', id, db.orders[id], ToStatus(kind), now), Accepted)
  }

  // ---------------------------------------------------------------- catalog

  function CreatePricing(db: Db, now: int, service: ServiceId, outlet: Option<OutletId>, price: int): Outcome {
    if price <= 0 then Outcome(db, Validation)
    else if service !in db.services then Outcome(db, Internal)
    else Outcome(db.(prices := PublishPrice(db.prices, service, outlet, price, now)), Accepted)
  }

  function SetTaxRate(db: Db, now: int, rate: real, hasReason: bool): Outcome {
    if rate < 0.0 || rate > 100.0 || !hasReason then Outcome(db, Validation)
    else Outcome(db.(taxRates := PublishTax(db.taxRates, rate, now)), Accepted)
  }

  // ---------------------------------------------------------------- payment events

  /** The payment consumer. An event for a missing order is only an error where the handler reads the order back. */
  function ConsumePayment(db: Db, now: int, m: Message): Outcome {
    if m.Undecodable? || m.id in db.processed || !m.body.Payment? then Outcome(db, Ack)
    else ProjectPayment(db, now, m.id, m.body.event)
  }

  function ProjectPayment(db: Db, now: int, eventId: nat, e: PayEvent): Outcome {
    var marked := db.(processed := db.processed + {eventId});
    if e.order !in db.orders then
      if e.kind == PaidEvent || e.kind == RefundedEvent then Outcome(db, Requeue) else Outcome(marked, Ack)
    else
      var o := db.orders[e.order];
      var o' := Project(o, e.kind);
      if o'.status != o.status
        then Outcome(Write(marked, e.order, o', MoveEvent(e.order, o.status, o'.status), now), Ack)
      else Outcome(marked.(orders := marked.orders[e.order := o']), Ack)
  }

  function ConsumeAll(db: Db, at: seq<int>, messages: seq<Message>): Db
    requires |at| == |messages|
  {
    if messages == [] then db
    else
      var n := |messages| - 1;
      ConsumePayment(ConsumeAll(db, at[..n], messages[..n]), at[n], messages[n]).db
  }

  // ---------------------------------------------------------------- one step of Core

  datatype Op =
    | OpCreateOrder(id: OrderId, req: OrderRequest)
    | OpWeighItem(id: OrderId, item: nat, kg: real)
    | OpFinalize(id: OrderId, pickupFee: Option<int>, deliveryFee: Option<int>)
    | OpChangeStatus(id: OrderId, to: Option<Status>, hasReason: bool)
    | OpRequest(kind: Kind, request: RequestId, id: OrderId)
    | OpUpdateRequest(kind: Kind, request: RequestId, status: FulfillmentStatus)
    | OpCreatePricing(service: ServiceId, outlet: Option<OutletId>, price: int)
    | OpSetTaxRate(rate: real, hasReason: bool)
    | OpConsume(message: Message)

  function Perform(db: Db, now: int, op: Op): Outcome {
    match op
    case OpCreateOrder(id, req) => CreateOrder(db, now, id, req)
    case OpWeighItem(id, item, kg) => WeighItem(db, now, id, item, kg)
    case OpFinalize(id, pf, df) => FinalizeWeighing(db, now, id, pf, df)
    case OpChangeStatus(id, to, hasReason) => ChangeStatus(db, now, id, to, hasReason)
    case OpRequest(kind, request, id) => RequestFulfillment(db, kind, request, id)
    case OpUpdateRequest(kind, request, status) => UpdateFulfillment(db, now, kind, request, status)
    case OpCreatePricing(service, outlet, price) => CreatePricing(db, now, service, outlet, price)
    case OpSetTaxRate(rate, hasReason) => SetTaxRate(db, now, rate, hasReason)
    case OpConsume(m) => ConsumePayment(db, now, m)
  }
}
