/** What Reporting's daily figures say about Core, in every reachable state of the whole system. */
module DailyFigures {
  import opened Wrappers
  import opened Events
  import Core = CoreDb
  import CoreInvariants
  import Reporting
  import opened Pipeline

  /** The events Reporting has applied in the course of a run, each once, in order. */
  function Applied(outlets: set<OutletId>, services: map<ServiceId, bool>, attempts: seq<Attempt>)
    : seq<Reporting.Envelope>
  {
    Reporting.FirstSuccesses(Received(Start(outlets, services), attempts))
  }

  /** In every reachable state a day's gross_amount, order_count, refund_count and refund_amount at an outlet are what
      the applied events are worth: each completion the total last weighed before it, each refund its amount, and either
      of them nothing if its order's creation had not been applied. */
  lemma {:induction false} FiguresAreTheWorth(outlets: set<OutletId>, services: map<ServiceId, bool>,
                                              attempts: seq<Attempt>, k: Reporting.Key)
    ensures
      Reporting.At(Run(Start(outlets, services), attempts).reports.tables, k) ==
      Reporting.TotalWorth(Applied(outlets, services, attempts), k)
  {
    hide Run, Received, Reporting.At, Reporting.TotalWorth;
    ReportsFollowReceived(Start(outlets, services), attempts);
    Reporting.RedeliveryIsInvisible(Received(Start(outlets, services), attempts));
    Reporting.FiguresAreTheWorth(Applied(outlets, services, attempts), k);
  }

  // ---------------------------------------------------------------- where the applied events come from

  /** An event of Core that was received is a row of Core's outbox. */
  predicate FromCore(core: Core.Db, env: Reporting.Envelope) {
    env.body.OfCore? ==> env.id.CoreRow? && env.id.row < |core.outbox| && env == CoreEnvelope(core, env.id.row)
  }

  predicate ReceivedFromCore(core: Core.Db, a: Reporting.Attempt) {
    a.message.Some? && FromCore(core, a.message.value)
  }

  lemma StillFromCore(core: Core.Db, core': Core.Db, received: seq<Reporting.Attempt>)
    requires core.outbox <= core'.outbox && forall a :: a in received ==> ReceivedFromCore(core, a)
    ensures forall a :: a in received ==> ReceivedFromCore(core', a)
  {
    forall a | a in received
      ensures ReceivedFromCore(core', a)
    {
      assert ReceivedFromCore(core, a);
      if a.message.value.body.OfCore? {
        assert core'.outbox[a.message.value.id.row] == core.outbox[a.message.value.id.row];
      }
    }
  }

  lemma {:induction false} ReceivedAreRows(s: System, attempts: seq<Attempt>)
    requires SystemInv(s) && Ticking(s.clock, attempts)
    ensures forall a :: a in Received(s, attempts) ==> ReceivedFromCore(Run(s, attempts).core, a)
  {
    hide SystemInv, Do, ReceivedFromCore;
    if attempts != [] {
      var front, last := attempts[..|attempts| - 1], attempts[|attempts| - 1];
      ReceivedAreRows(s, front);
      RunKeepsInv(s, front);
      var before := Run(s, front);
      DoGrows(before, last.at, last.step);
      StillFromCore(before.core, Run(s, attempts).core, Received(s, front));
      LastReceivedIsRow(s, attempts);
    }
  }

  lemma LastReceivedIsRow(s: System, attempts: seq<Attempt>)
    requires attempts != []
    requires Run(s, attempts[..|attempts| - 1]).core.outbox <= Run(s, attempts).core.outbox
    ensures
      forall a :: a in Received(s, attempts) ==>
        a in Received(s, attempts[..|attempts| - 1]) || ReceivedFromCore(Run(s, attempts).core, a)
  {
    var n := |attempts| - 1;
    var front, last := Received(s, attempts[..n]), attempts[n].step;
    var before, after := Run(s, attempts[..n]), Run(s, attempts);
    hide Run, InBroker;
    forall a | a in Received(s, attempts) && a !in front
      ensures ReceivedFromCore(after.core, a)
    {
      if last.CoreToReporting? {
        assert last.row < |before.core.outbox| && a.message == Some(CoreEnvelope(before.core, last.row));
        assert after.core.outbox[last.row] == before.core.outbox[last.row];
      }
    }
  }

  lemma {:induction false} FirstSuccessesAreReceived(core: Core.Db, received: seq<Reporting.Attempt>)
    requires forall a :: a in received ==> ReceivedFromCore(core, a)
    ensures forall env :: env in Reporting.FirstSuccesses(received) ==> FromCore(core, env)
  {
    if received != [] {
      var front, last := received[..|received| - 1], received[|received| - 1];
      FirstSuccessesAreReceived(core, front);
      assert ReceivedFromCore(core, last);
    }
  }

  lemma {:induction false} AppliedAreRows(outlets: set<OutletId>, services: map<ServiceId, bool>,
                                          attempts: seq<Attempt>)
    requires Ticking(0, attempts)
    ensures
      forall env :: env in Applied(outlets, services, attempts) ==>
        FromCore(Run(Start(outlets, services), attempts).core, env)
  {
    hide Run, Received, SystemInv, FromCore;
    StartInv(outlets, services);
    ReceivedAreRows(Start(outlets, services), attempts);
    FirstSuccessesAreReceived(Run(Start(outlets, services), attempts).core,
      Received(Start(outlets, services), attempts));
  }

  // ---------------------------------------------------------------- gross and Core's total

  lemma {:induction false} LastWeighingSetsTheTotal(outbox: seq<OutboxRow<CoreEvent>>, i: nat, id: OrderId)
    requires CoreInvariants.IsLastWeighing(outbox, i, id)
    ensures CoreInvariants.LastTotal(outbox, id) == Some(outbox[i].event.total)
  {
    if i < |outbox| - 1 {
      LastWeighingSetsTheTotal(outbox[..|outbox| - 1], i, id);
    }
  }

  /** What a counted completion adds to its day's gross, in every reachable state: 0 if no weighing of the order was
      applied between its creation and its completion, although Core has a total; else the total of one of Core's
      order.weighed rows. That is Core's total exactly when it is the one last announced, and surely when the row is the
      last one. */
  lemma {:induction false} GrossIsAnAnnouncedTotal(outlets: set<OutletId>, services: map<ServiceId, bool>,
                                                   attempts: seq<Attempt>, j: nat, id: OrderId)
    requires Ticking(0, attempts) && j < |Applied(outlets, services, attempts)|
    requires Reporting.IsCompletionOf(Applied(outlets, services, attempts)[j], id)
    requires Reporting.WasCreated(Applied(outlets, services, attempts)[..j], id)
    ensures
      var core, envs := Run(Start(outlets, services), attempts).core, Applied(outlets, services, attempts);
      var counted := Reporting.LastWeighing(envs[..j], id);
      && id in core.orders
      && (exists k :: Reporting.Adds(envs, j, k) == Reporting.Figures(Gross(counted), 1, 0, 0))
      && (counted.Some? ==>
            && Reporting.IsWeighingOf(counted.value, id)
            && counted.value.id.CoreRow? && counted.value.id.row < |core.outbox|
            && core.outbox[counted.value.id.row].event == counted.value.body.core
            && CoreInvariants.Weighed(core.outbox, id, Gross(counted))
            && (core.orders[id].total == Some(Gross(counted)) <==>
                  CoreInvariants.LastTotal(core.outbox, id) == Some(Gross(counted)))
            && (CoreInvariants.IsLastWeighing(core.outbox, counted.value.id.row, id) ==>
                  core.orders[id].total == Some(Gross(counted))))
  {
    hide Run, SystemInv, Received, Reporting.LastWeighing, Reporting.OutletOf, Reporting.WasCreated, Reporting.Fold;
    var s, envs := Run(Start(outlets, services), attempts), Applied(outlets, services, attempts);
    AppliedAreRows(outlets, services, attempts);
    StartInv(outlets, services);
    RunKeepsInv(Start(outlets, services), attempts);
    OrdersOfRows(s);
    assert FromCore(s.core, envs[j]);
    CompletionIsWorth(envs, j, id);
    Reporting.LastWeighingIsOne(envs[..j], id);
    var counted := Reporting.LastWeighing(envs[..j], id);
    if counted.Some? {
      assert FromCore(s.core, counted.value);
      var row := counted.value.id.row;
      assert s.core.outbox[row].event == counted.value.body.core;
      if CoreInvariants.IsLastWeighing(s.core.outbox, row, id) {
        LastWeighingSetsTheTotal(s.core.outbox, row, id);
      }
    }
  }

  function Gross(counted: Option<Reporting.Envelope>): int {
    if counted.Some? && counted.value.body.OfCore? && counted.value.body.core.OrderWeighed?
    then counted.value.body.core.total else 0
  }

  lemma OrdersOfRows(s: System)
    requires SystemInv(s)
    ensures CoreInvariants.OutboxInv(s.core) && CoreInvariants.TotalsInv(s.core)
  {
  }

  lemma CompletionIsWorth(envs: seq<Reporting.Envelope>, j: nat, id: OrderId)
    requires j < |envs| && Reporting.IsCompletionOf(envs[j], id) && Reporting.WasCreated(envs[..j], id)
    ensures
      exists k :: Reporting.Adds(envs, j, k) ==
                  Reporting.Figures(Gross(Reporting.LastWeighing(envs[..j], id)), 1, 0, 0)
  {
    Reporting.OutletOnceCreated(envs[..j], id);
    Reporting.LastWeighingIsOne(envs[..j], id);
    var k := Reporting.Key(Reporting.Day(envs[j].occurredAt), Reporting.OutletOf(envs[..j], id).value);
    Reporting.EventsAddTheirWorth(envs, j, k);
    hide Reporting.Adds, Reporting.WasCreated, Reporting.LastWeighing, Reporting.OutletOf;
    assert Reporting.Adds(envs, j, k) == Reporting.Figures(Gross(Reporting.LastWeighing(envs[..j], id)), 1, 0, 0);
  }
}
