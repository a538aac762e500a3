/** The tax rate of an order is the one that was in force when its total was last finalized, in every later table. */
module TaxSnapshots {
  import opened Wrappers
  import opened OrderState
  import opened Events
  import opened Catalog
  import opened Orders
  import opened CoreDb
  import opened CoreInvariants
  import opened CoreContracts
  import opened CoreRuns

  /** The order's last total was announced at a time that the table still gives the order's rate. */
  ghost predicate RateRemembered(db: Db, clock: int, id: OrderId)
    requires id in db.orders
  {
    exists i :: 0 <= i < |db.outbox| && RememberedAt(db, clock, id, i)
  }

  ghost predicate RememberedAt(db: Db, clock: int, id: OrderId, i: nat)
    requires id in db.orders && i < |db.outbox|
  {
    && IsLastWeighing(db.outbox, i, id) && db.outbox[i].createdAt <= clock
    && TaxAt(db.taxRates, db.outbox[i].createdAt, db.orders[id].taxRate)
  }

  ghost predicate RatesInv(db: Db, clock: int) {
    forall id :: id in db.orders && db.orders[id].total.Some? ==> RateRemembered(db, clock, id)
  }

  // ---------------------------------------------------------------- steps

  /** No total and no rate was written or announced. */
  ghost predicate Undisturbed(db: Db, db': Db) {
    && db'.taxRates == db.taxRates
    && (forall id :: id in db'.orders && db'.orders[id].total.Some? ==>
          id in db.orders && db.orders[id].total.Some? && db'.orders[id].taxRate == db.orders[id].taxRate)
    && (db'.outbox == db.outbox || exists row :: db'.outbox == db.outbox + [row] && !row.event.OrderWeighed?)
  }

  lemma LastWeighingStays(outbox: seq<OutboxRow<CoreEvent>>, row: OutboxRow<CoreEvent>, i: nat, id: OrderId)
    requires IsLastWeighing(outbox, i, id) && !(row.event.OrderWeighed? && row.event.order == id)
    ensures IsLastWeighing(outbox + [row], i, id)
  {
  }

  lemma UndisturbedKeepsRates(db: Db, db': Db, clock: int, now: int)
    requires RatesInv(db, clock) && Undisturbed(db, db') && clock <= now
    ensures RatesInv(db', now)
  {
    hide TaxAt, IsLastWeighing;
    forall id | id in db'.orders && db'.orders[id].total.Some?
      ensures RateRemembered(db', now, id)
    {
      assert RateRemembered(db, clock, id);
      var i :| 0 <= i < |db.outbox| && RememberedAt(db, clock, id, i);
      if row :| db'.outbox == db.outbox + [row] && !row.event.OrderWeighed? {
        LastWeighingStays(db.outbox, row, i, id);
      }
      assert RememberedAt(db', now, id, i);
    }
  }

  lemma TotalsKeepRates(db: Db, db': Db, clock: int, now: int, id: OrderId, pickupFee: Option<int>,
                        deliveryFee: Option<int>)
    requires RatesInv(db, clock) && clock <= now && id in db.orders
    requires Totals(db, db', now, id, pickupFee, deliveryFee)
    ensures RatesInv(db', now)
  {
    hide TaxAt, Bill, SumSubtotals;
    var row := db'.outbox[|db.outbox|];
    assert db'.outbox == db.outbox + [row];
    forall k | k in db'.orders && db'.orders[k].total.Some?
      ensures RateRemembered(db', now, k)
    {
      if k == id {
        assert RememberedAt(db', now, id, |db.outbox|);
      } else {
        assert RateRemembered(db, clock, k);
        var i :| 0 <= i < |db.outbox| && RememberedAt(db, clock, k, i);
        LastWeighingStays(db.outbox, row, i, k);
        assert RememberedAt(db', now, k, i);
      }
    }
  }

  lemma SetTaxKeepsRates(db: Db, db': Db, clock: int, now: int, rate: real)
    requires RatesInv(db, clock) && clock < now
    requires db' == db.(taxRates := db'.taxRates) && SetsTax(db.taxRates, db'.taxRates, now, rate)
    ensures RatesInv(db', now)
  {
    hide TaxAt, IsLastWeighing;
    forall id | id in db'.orders && db'.orders[id].total.Some?
      ensures RateRemembered(db', now, id)
    {
      assert RateRemembered(db, clock, id);
      var i :| 0 <= i < |db.outbox| && RememberedAt(db, clock, id, i);
      assert RememberedAt(db', now, id, i);
    }
  }

  /** Every transaction but an accepted finalization and an accepted SetTaxRate leaves rates and totals alone. */
  lemma OthersLeaveRates(db: Db, clock: int, now: int, op: Op)
    requires CoreInv(db, clock) && clock < now && !op.OpFinalize? && !op.OpSetTaxRate?
    ensures Undisturbed(db, Perform(db, now, op).db)
  {
    var db' := Perform(db, now, op).db;
    assert Timeline(db.prices, clock);
    hide CoreInv, Timeline, Bounded, CreateOrder, WeighItem, ChangeStatus, RequestFulfillment, UpdateFulfillment,
      CreatePricing, ConsumePayment;
    match op
    case OpCreateOrder(id, req) =>
      CreateOrderCreates(db, clock, now, id, req);
      CreatingLeavesRates(db, db', now, id, req, Perform(db, now, op).reply);
    case OpWeighItem(id, item, kg) =>
      WeighItemWeighs(db, now, id, item, kg);
      WeighingLeavesRates(db, db', now, id, item, kg, Perform(db, now, op).reply);
    case OpChangeStatus(id, to, hasReason) =>
      ChangeStatusChanges(db, now, id, to, hasReason);
      ChangingLeavesRates(db, db', now, id, to, hasReason, Perform(db, now, op).reply);
    case OpRequest(kind, request, id) =>
      RequestRegisters(db, kind, request, id);
      hide HasRequest;
    case OpUpdateRequest(kind, request, status) =>
      UpdateUpdates(db, now, kind, request, status);
      UpdatingLeavesRates(db, db', now, kind, request, status, Perform(db, now, op).reply);
    case OpCreatePricing(service, outlet, price) =>
      PricingLeavesRates(db, now, service, outlet, price);
    case OpConsume(m) =>
      ConsumePaymentConsumes(db, now, m);
      ConsumingLeavesRates(db, db', now, m, Perform(db, now, op).reply);
  }

  lemma AppendedIsRow(before: seq<OutboxRow<CoreEvent>>, after: seq<OutboxRow<CoreEvent>>, now: int)
    requires Appends(before, after, now)
    ensures after == before + [after[|before|]]
  {
  }

  lemma CreatingLeavesRates(db: Db, db': Db, now: int, id: OrderId, req: OrderRequest, reply: Reply)
    requires Creates(db, db', now, id, req, reply)
    ensures Undisturbed(db, db')
  {
    hide AllOffered, ItemFor, Estimates, RequestInserted;
  }

  lemma WeighingLeavesRates(db: Db, db': Db, now: int, id: OrderId, item: nat, kg: real, reply: Reply)
    requires Weighs(db, db', now, id, item, kg, reply)
    ensures Undisturbed(db, db')
  {
    hide WeighedAt;
    if reply == Accepted && db'.outbox != db.outbox {
      AppendedIsRow(db.outbox, db'.outbox, now);
    }
  }

  lemma ChangingLeavesRates(db: Db, db': Db, now: int, id: OrderId, to: Option<Status>, hasReason: bool, reply: Reply)
    requires ChangesStatus(db, db', now, id, to, hasReason, reply)
    ensures Undisturbed(db, db')
  {
    if reply == Accepted {
      AppendedIsRow(db.outbox, db'.outbox, now);
    }
  }

  lemma UpdatingLeavesRates(db: Db, db': Db, now: int, kind: Kind, request: RequestId, status: FulfillmentStatus,
                            reply: Reply)
    requires UpdatesRequest(db, db', now, kind, request, status, reply)
    ensures Undisturbed(db, db')
  {
    if reply == Accepted && db'.outbox != db.outbox {
      AppendedIsRow(db.outbox, db'.outbox, now);
    }
  }

  lemma PricingLeavesRates(db: Db, now: int, service: ServiceId, outlet: Option<OutletId>, price: int)
    ensures Undisturbed(db, CreatePricing(db, now, service, outlet, price).db)
  {
    hide PublishPrice;
  }

  lemma ConsumingLeavesRates(db: Db, db': Db, now: int, m: Message, reply: Reply)
    requires Consumes(db, db', now, m, reply)
    ensures Undisturbed(db, db')
  {
    if db'.outbox != db.outbox {
      AppendedIsRow(db.outbox, db'.outbox, now);
    }
  }

  lemma {:induction false} PerformKeepsRates(db: Db, clock: int, now: int, op: Op)
    requires CoreInv(db, clock) && RatesInv(db, clock) && clock < now
    ensures RatesInv(Perform(db, now, op).db, now)
  {
    var db' := Perform(db, now, op).db;
    if op.OpFinalize? {
      assert TaxTimeline(db.taxRates, clock);
      hide CoreInv, RatesInv, FinalizeWeighing, Totals, AllWeighed, Payable;
      FinalizeFinalizes(db, clock, now, op.id, op.pickupFee, op.deliveryFee);
      if Perform(db, now, op).reply == Accepted {
        TotalsKeepRates(db, db', clock, now, op.id, op.pickupFee, op.deliveryFee);
      } else {
        TimeKeepsRates(db, clock, now);
      }
    } else if op.OpSetTaxRate? {
      assert TaxTimeline(db.taxRates, clock);
      hide CoreInv, RatesInv, SetTaxRate, SetsTax;
      SetTaxRateSets(db, clock, now, op.rate, op.hasReason);
      if Perform(db, now, op).reply == Accepted {
        SetTaxKeepsRates(db, db', clock, now, op.rate);
      } else {
        TimeKeepsRates(db, clock, now);
      }
    } else {
      hide CoreInv, RatesInv, Perform, Undisturbed;
      OthersLeaveRates(db, clock, now, op);
      UndisturbedKeepsRates(db, db', clock, now);
    }
  }

  lemma TimeKeepsRates(db: Db, clock: int, now: int)
    requires RatesInv(db, clock) && clock <= now
    ensures RatesInv(db, now)
  {
    UndisturbedKeepsRates(db, db, clock, now);
  }

  // ---------------------------------------------------------------- runs

  lemma {:induction false} RunKeepsRates(db: Db, clock: int, steps: seq<Attempt>)
    requires CoreInv(db, clock) && RatesInv(db, clock) && Ticking(clock, steps)
    ensures RatesInv(Run(db, steps), Clock(clock, steps))
  {
    hide CoreInv, RatesInv, Perform, Grows;
    if steps != [] {
      var front, last := steps[..|steps| - 1], steps[|steps| - 1];
      RunKeepsRates(db, clock, front);
      RunKeepsInv(db, clock, front);
      TimeKeepsRates(Run(db, front), Clock(clock, front), last.at);
      if last.commits {
        PerformKeepsRates(Run(db, front), Clock(clock, front), last.at, last.op);
      }
    }
  }

  /** In every run, the rate an order carries is, in every later table, the one rate covering the time at which its last
      total was announced: whatever rates were set since, and however often it was finalized. */
  lemma {:induction false} SnapshotRateNeverRewritten(outlets: set<OutletId>, services: map<ServiceId, bool>,
                                                      steps: seq<Attempt>, id: OrderId)
    requires Ticking(0, steps)
    requires
      var db := Run(Seeded(outlets, services), steps);
      id in db.orders && db.orders[id].total.Some?
    ensures
      var db := Run(Seeded(outlets, services), steps);
      exists i ::
        && 0 <= i < |db.outbox| && IsLastWeighing(db.outbox, i, id)
        && forall r :: TaxAt(db.taxRates, db.outbox[i].createdAt, r) <==> r == db.orders[id].taxRate
  {
    hide Run;
    SeededInv(outlets, services);
    RunKeepsInv(Seeded(outlets, services), 0, steps);
    RunKeepsRates(Seeded(outlets, services), 0, steps);
    OneRateThen(Run(Seeded(outlets, services), steps), Clock(0, steps), id);
  }

  lemma OneRateThen(db: Db, clock: int, id: OrderId)
    requires TaxTimeline(db.taxRates, clock) && id in db.orders && RateRemembered(db, clock, id)
    ensures
      exists i ::
        && 0 <= i < |db.outbox| && IsLastWeighing(db.outbox, i, id)
        && forall r :: TaxAt(db.taxRates, db.outbox[i].createdAt, r) <==> r == db.orders[id].taxRate
  {
    hide TaxTimeline, TaxAt, IsLastWeighing;
    var i :| 0 <= i < |db.outbox| && RememberedAt(db, clock, id, i);
    forall r | TaxAt(db.taxRates, db.outbox[i].createdAt, r)
      ensures r == db.orders[id].taxRate
    {
      TaxAtUnique(db.taxRates, clock, db.outbox[i].createdAt, r, db.orders[id].taxRate);
    }
  }
}
