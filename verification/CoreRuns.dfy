/** Whole runs of Core: staff requests and deliveries of payment events, in any order, some of which fail and roll
    back. */
module CoreRuns {
  import opened Wrappers
  import opened OrderState
  import opened Events
  import opened Money
  import opened Catalog
  import opened Orders
  import opened CoreDb
  import opened CoreInvariants

  /** An attempted transaction. One that does not commit leaves no trace; a crash between the commit and the
      acknowledgement is a committed attempt followed by a redelivery. */
  datatype Attempt = Attempt(op: Op, at: int, commits: bool)

  function Run(db: Db, steps: seq<Attempt>): Db {
    if steps == [] then db
    else
      var before, last := Run(db, steps[..|steps| - 1]), steps[|steps| - 1];
      if last.commits then Perform(before, last.at, last.op).db else before
  }

  ghost predicate Ticking(clock: int, steps: seq<Attempt>) {
    && (forall i :: 0 <= i < |steps| ==> clock < steps[i].at)
    && (forall i, j :: 0 <= i < j < |steps| ==> steps[i].at < steps[j].at)
  }

  function Clock(clock: int, steps: seq<Attempt>): int {
    if steps == [] then clock else steps[|steps| - 1].at
  }

  /** Migration 0002 seeds one open tax rate of 0; the outlets and services are whatever the owner registered. */
  function Seeded(outlets: set<OutletId>, services: map<ServiceId, bool>): Db {
    Db(outlets, services, [], [TaxRow(0.0, 0, None)], map[], map[], map[], [], {})
  }

  lemma SeededInv(outlets: set<OutletId>, services: map<ServiceId, bool>)
    ensures CoreInv(Seeded(outlets, services), 0)
  {
  }

  lemma {:induction false} RunKeepsInv(db: Db, clock: int, steps: seq<Attempt>)
    requires CoreInv(db, clock) && Ticking(clock, steps)
    ensures CoreInv(Run(db, steps), Clock(clock, steps)) && Grows(db, Run(db, steps))
  {
    hide CoreInv, Grows, Perform;
    if steps == [] {
      GrowsReflexive(db);
    } else {
      var front, last := steps[..|steps| - 1], steps[|steps| - 1];
      RunKeepsInv(db, clock, front);
      var before := Run(db, front);
      TimePasses(before, Clock(clock, front), last.at);
      GrowsReflexive(before);
      PerformKeepsInv(before, Clock(clock, front), last.at, last.op);
      GrowsTransitive(db, before, Run(db, steps));
    }
  }

  /** In every run each order's history is a connected path of rank-raising edges from NULL -> CREATED to the current
      status, with at most ten changes and no status entered twice; and its total adds up. */
  lemma {:induction false} OrdersStayLawful(outlets: set<OutletId>, services: map<ServiceId, bool>, steps: seq<Attempt>,
                                            id: OrderId)
    requires Ticking(0, steps) && id in Run(Seeded(outlets, services), steps).orders
    ensures
      var o := Run(Seeded(outlets, services), steps).orders[id];
      && Path(o.history) && o.history[|o.history| - 1].to == o.status
      && |o.history| - 1 <= 10
      && (forall i, j :: 0 <= i < j < |o.history| ==> o.history[i].to != o.history[j].to)
      && MoneyInv(o)
  {
    SeededInv(outlets, services);
    RunKeepsInv(Seeded(outlets, services), 0, steps);
    LifecycleBounded(Run(Seeded(outlets, services), steps).orders[id].history);
  }

  /** Any status change between two points of a run raises the rank, and the later history extends the earlier one. */
  lemma {:induction false} StatusOnlyClimbs(db: Db, clock: int, steps: seq<Attempt>, id: OrderId)
    requires CoreInv(db, clock) && Ticking(clock, steps) && id in db.orders
    ensures id in Run(db, steps).orders
    ensures
      var o, o' := db.orders[id], Run(db, steps).orders[id];
      && o.history <= o'.history
      && (o'.status != o.status ==> Rank(o.status) < Rank(o'.status))
  {
    RunKeepsInv(db, clock, steps);
  }

  /** Once an order has left Received and Weighing its items never change, so every later FinalizeWeighing computes
      the same subtotal. Before that, prices are already fixed. */
  lemma {:induction false} WeightsFreeze(db: Db, clock: int, steps: seq<Attempt>, id: OrderId)
    requires CoreInv(db, clock) && Ticking(clock, steps) && id in db.orders
    ensures id in Run(db, steps).orders
    ensures
      var o, o' := db.orders[id], Run(db, steps).orders[id];
      && |o'.items| == |o.items|
      && (forall i :: 0 <= i < |o.items| ==> o'.items[i].unitPrice == o.items[i].unitPrice)
      && (o.status !in {Created, Received, Weighing} ==>
            && o'.items == o.items
            && forall rate, pf, df :: Finalize(o', rate, pf, df).subtotal == Some(SumSubtotals(o.items)))
  {
    hide CoreInv, Run, SumSubtotals, TaxOn;
    RunKeepsInv(db, clock, steps);
  }

  /** The price an item was created with is, in every later table, the one price covering the order's creation time. */
  lemma {:induction false} SnapshotPriceNeverRewritten(outlets: set<OutletId>, services: map<ServiceId, bool>,
                                                       steps: seq<Attempt>, id: OrderId, i: nat)
    requires Ticking(0, steps)
    requires
      var db := Run(Seeded(outlets, services), steps);
      id in db.orders && i < |db.orders[id].items|
    ensures
      var db := Run(Seeded(outlets, services), steps);
      var o := db.orders[id];
      forall p :: PriceAt(db.prices, o.items[i].service, Some(o.outlet), o.createdAt, p) <==> p == o.items[i].unitPrice
  {
    SeededInv(outlets, services);
    RunKeepsInv(Seeded(outlets, services), 0, steps);
    var db := Run(Seeded(outlets, services), steps);
    var o := db.orders[id];
    assert PricesRemembered(db.prices, o);
    forall p | PriceAt(db.prices, o.items[i].service, Some(o.outlet), o.createdAt, p)
      ensures p == o.items[i].unitPrice
    {
      PriceAtUnique(db.prices, Clock(0, steps), o.items[i].service, Some(o.outlet), o.createdAt, p,
        o.items[i].unitPrice);
    }
  }

  lemma FinalizeIsNearExact(db: Db, clock: int, now: int, id: OrderId, pickupFee: Option<int>, deliveryFee: Option<int>)
    requires CoreInv(db, clock)
    requires FinalizeWeighing(db, now, id, pickupFee, deliveryFee).reply == Accepted
    ensures id in FinalizeWeighing(db, now, id, pickupFee, deliveryFee).db.orders
    ensures TotalIsNearExact(FinalizeWeighing(db, now, id, pickupFee, deliveryFee).db.orders[id])
  {
    hide PricesRemembered, Timeline, OutboxInv, Path, ExactTotal, Slack, SumSubtotals, TaxOn;
    TaxAlwaysActive(db.taxRates, clock);
    assert OrderInv(db.orders[id]);
    FinalizedTotalIsNearExact(db.orders[id], ActiveTax(db.taxRates).value, pickupFee, deliveryFee);
  }

  /** The total is within n/2 * (1 + rate/100) + 1/2 rupiah of exact weight x price arithmetic on the order's n
      items. */
  ghost predicate TotalIsNearExact(o: Order) {
    && AllWeighed(o.items) && o.total.Some?
    && -Slack(|o.items|, o.taxRate) <= o.total.value as real - ExactTotal(o) <= Slack(|o.items|, o.taxRate)
  }

  /** In any run, after any re-weighs and tax-rate changes, this holds right after every accepted FinalizeWeighing. */
  lemma {:induction false} AcceptedTotalIsNearExact(outlets: set<OutletId>, services: map<ServiceId, bool>,
                                                    steps: seq<Attempt>, now: int, id: OrderId, pickupFee: Option<int>,
                                                    deliveryFee: Option<int>)
    requires Ticking(0, steps)
    requires FinalizeWeighing(Run(Seeded(outlets, services), steps), now, id, pickupFee, deliveryFee).reply == Accepted
    ensures id in FinalizeWeighing(Run(Seeded(outlets, services), steps), now, id, pickupFee, deliveryFee).db.orders
    ensures
      var db := Run(Seeded(outlets, services), steps);
      TotalIsNearExact(FinalizeWeighing(db, now, id, pickupFee, deliveryFee).db.orders[id])
  {
    SeededInv(outlets, services);
    RunKeepsInv(Seeded(outlets, services), 0, steps);
    FinalizeIsNearExact(Run(Seeded(outlets, services), steps), Clock(0, steps), now, id, pickupFee, deliveryFee);
  }

  /** In every run an order has at most one pickup request and at most one delivery request, each for an order that
      exists. */
  lemma {:induction false} OneRequestPerOrder(outlets: set<OutletId>, services: map<ServiceId, bool>,
                                              steps: seq<Attempt>)
    requires Ticking(0, steps)
    ensures
      var db := Run(Seeded(outlets, services), steps);
      OneRequestEach(db.pickups, db.orders) && OneRequestEach(db.deliveries, db.orders)
  {
    hide StateInv, TotalsInv, OneRequestEach;
    SeededInv(outlets, services);
    RunKeepsInv(Seeded(outlets, services), 0, steps);
  }

  // ---------------------------------------------------------------- weighing again after finalizing

  /** By how much the items' subtotals exceed the order's subtotal. */
  function Drift(o: Order): int
    requires o.subtotal.Some?
  {
    SumSubtotals(o.items) - o.subtotal.value
  }

  /** What weighing one item adds to the sum of the subtotals. */
  function WeighingAdds(item: Item, kg: real): int {
    PriceOf(kg, item.unitPrice) - if item.subtotal.Some? then item.subtotal.value else 0
  }

  /** The drift that an attempt leaves, given the drift before it: finalizing clears it, weighing adds to it. */
  function DriftNext(db: Db, a: Attempt, id: OrderId, before: int): int {
    if !a.commits || id !in db.orders then before
    else
      match a.op
      case OpFinalize(i, pf, df) =>
        if i == id && FinalizeWeighing(db, a.at, i, pf, df).reply == Accepted then 0 else before
      case OpWeighItem(i, item, kg) =>
        if i == id && WeighItem(db, a.at, i, item, kg).reply == Accepted
          then before + WeighingAdds(db.orders[id].items[item], kg)
        else before
      case _ => before
  }

  function DriftAfter(db: Db, steps: seq<Attempt>, id: OrderId): int {
    if steps == [] then if id in db.orders && db.orders[id].subtotal.Some? then Drift(db.orders[id]) else 0
    else
      var front, last := steps[..|steps| - 1], steps[|steps| - 1];
      DriftNext(Run(db, front), last, id, DriftAfter(db, front, id))
  }

  lemma {:induction false} ReplacingASubtotal(items: seq<Item>, i: nat, kg: real)
    requires i < |items|
    ensures SumSubtotals(items[i := WeighedItem(items[i], kg)]) == SumSubtotals(items) + WeighingAdds(items[i], kg)
    decreases |items|
  {
    hide PriceOf;
    var items' := items[i := WeighedItem(items[i], kg)];
    if i == 0 {
      assert items'[1..] == items[1..];
    } else {
      assert items'[1..] == items[1..][i - 1 := WeighedItem(items[i], kg)];
      ReplacingASubtotal(items[1..], i - 1, kg);
    }
  }

  /** Nothing but weighing and finalizing touches what the drift is made of. */
  lemma {:induction false} ItemsStay(db: Db, now: int, op: Op, id: OrderId)
    requires id in db.orders && !(op.OpFinalize? && op.id == id) && !(op.OpWeighItem? && op.id == id)
    ensures id in Perform(db, now, op).db.orders && SameItems(db.orders[id], Perform(db, now, op).db.orders[id])
  {
    if op.OpConsume? {
      ConsumeLeavesItems(db, now, op.message, id);
      hide ConsumePayment;
    } else if op.OpUpdateRequest? {
      UpdateLeavesItems(db, now, op.kind, op.request, op.status, id);
      hide UpdateFulfillment;
    } else {
      hide Finalize, PassesChecks, ActiveTax, Preparable, Prepare, Estimate, InsertRequest, PublishPrice, PublishTax,
           IsValidTransition, Weigh, AllWeighed;
    }
  }

  predicate SameItems(o: Order, o': Order) {
    o'.items == o.items && o'.subtotal == o.subtotal
  }

  lemma {:induction false} ConsumeLeavesItems(db: Db, now: int, m: Message, id: OrderId)
    requires id in db.orders
    ensures id in ConsumePayment(db, now, m).db.orders
      && SameItems(db.orders[id], ConsumePayment(db, now, m).db.orders[id])
  {
  }

  lemma {:induction false} UpdateLeavesItems(db: Db, now: int, kind: Kind, request: RequestId,
                                             status: FulfillmentStatus, id: OrderId)
    requires id in db.orders
    ensures
      var db' := UpdateFulfillment(db, now, kind, request, status).db;
      id in db'.orders && SameItems(db.orders[id], db'.orders[id])
  {
  }

  lemma {:induction false} WeighingDrifts(db: Db, now: int, id: OrderId, item: nat, kg: real)
    requires id in db.orders
    ensures
      var outcome := WeighItem(db, now, id, item, kg);
      && id in outcome.db.orders && outcome.db.orders[id].subtotal == db.orders[id].subtotal
      && (outcome.reply == Accepted ==>
            && item < |db.orders[id].items|
            && SumSubtotals(outcome.db.orders[id].items) ==
                 SumSubtotals(db.orders[id].items) + WeighingAdds(db.orders[id].items[item], kg))
      && (outcome.reply != Accepted ==> outcome.db == db)
  {
    hide SumSubtotals, WeighingAdds, WeighedItem;
    if item < |db.orders[id].items| {
      ReplacingASubtotal(db.orders[id].items, item, kg);
    }
  }

  /** An order's first state has no subtotal. */
  lemma {:induction false} NewOrdersHaveNoSubtotal(db: Db, now: int, op: Op, id: OrderId)
    requires id !in db.orders && id in Perform(db, now, op).db.orders
    ensures Perform(db, now, op).db.orders[id].subtotal == None
  {
    hide SumSubtotals, TaxOn, PassesChecks, ActiveTax, Preparable, Prepare, Estimate, InsertRequest, PublishPrice,
      PublishTax,
         IsValidTransition, WeighedItem, Weigh, Project;
  }

  lemma {:induction false} StepDrifts(db: Db, a: Attempt, id: OrderId, before: int)
    requires id in db.orders && db.orders[id].subtotal.Some? ==> Drift(db.orders[id]) == before
    ensures
      var db' := if a.commits then Perform(db, a.at, a.op).db else db;
      id in db'.orders && db'.orders[id].subtotal.Some? ==> Drift(db'.orders[id]) == DriftNext(db, a, id, before)
  {
    if a.commits {
      if id !in db.orders {
        hide Perform;
        if id in Perform(db, a.at, a.op).db.orders {
          NewOrdersHaveNoSubtotal(db, a.at, a.op, id);
        }
      } else if a.op.OpWeighItem? && a.op.id == id {
        hide WeighItem, SumSubtotals, WeighingAdds;
        WeighingDrifts(db, a.at, id, a.op.item, a.op.kg);
      } else if !(a.op.OpFinalize? && a.op.id == id) {
        hide Perform, SumSubtotals;
        ItemsStay(db, a.at, a.op, id);
      } else {
        hide SumSubtotals, TaxOn, PassesChecks, ActiveTax;
      }
    }
  }

  /** After any run, the subtotal an order carries - into the laundry, when it is paid - is the sum of its items'
      subtotals exactly when the weighings since its last finalization cancel out. */
  lemma {:induction false} SubtotalIsCurrentExactlyWhen(db: Db, steps: seq<Attempt>, id: OrderId)
    requires id in Run(db, steps).orders && Run(db, steps).orders[id].subtotal.Some?
    ensures
      var o := Run(db, steps).orders[id];
      && SumSubtotals(o.items) == o.subtotal.value + DriftAfter(db, steps, id)
      && (o.subtotal == Some(SumSubtotals(o.items)) <==> DriftAfter(db, steps, id) == 0)
  {
    RunDrifts(db, steps, id);
  }

  lemma {:induction false} RunDrifts(db: Db, steps: seq<Attempt>, id: OrderId)
    ensures id in Run(db, steps).orders && Run(db, steps).orders[id].subtotal.Some? ==>
              Drift(Run(db, steps).orders[id]) == DriftAfter(db, steps, id)
  {
    hide Perform, Drift, DriftNext;
    if steps != [] {
      RunDrifts(db, steps[..|steps| - 1], id);
      StepDrifts(Run(db, steps[..|steps| - 1]), steps[|steps| - 1], id, DriftAfter(db, steps[..|steps| - 1], id));
    }
  }
}
