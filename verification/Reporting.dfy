/** Reporting's projections: what each event does to the tables, and what the tables are as a function of the events. */
module Reporting {
  import opened Wrappers
  import opened OrderState
  import opened Events

  datatype Summary = Summary(outlet: OutletId, status: Status, total: Option<int>, createdAt: int,
                             completedAt: Option<int>)
  datatype Key = Key(day: int, outlet: OutletId)
  datatype Sales = Sales(gross: int, count: nat, refunded: int)
  datatype Refunds = Refunds(count: nat, amount: int)

  /** rpt_order_summary, rpt_daily_outlet_sales and rpt_refund_summary. */
  datatype Tables = Tables(orders: map<OrderId, Summary>, sales: map<Key, Sales>, refunds: map<Key, Refunds>)

  datatype EventId = CoreRow(row: nat) | PaymentRow(row: nat)
  datatype Body = OfCore(core: CoreEvent) | OfPayment(pay: PayEvent) | UnknownType | BadPayload
  datatype Envelope = Envelope(id: EventId, occurredAt: int, body: Body)

  datatype Db = Db(tables: Tables, processed: set<EventId>)

  const NO_ROWS: Tables := Tables(map[], map[], map[])
  const SECONDS_PER_DAY: int := 86400

  function Day(t: int): int {
    t / SECONDS_PER_DAY
  }

  // ---------------------------------------------------------------- the projections

  /** INSERT INTO rpt_daily_outlet_sales ... ON CONFLICT DO UPDATE. */
  function AddSale(sales: map<Key, Sales>, k: Key, amount: int): map<Key, Sales> {
    sales[k := if k in sales then sales[k].(gross := sales[k].gross + amount, count := sales[k].count + 1)
      else Sales(amount, 1, 0)]
  }

  function AddRefund(refunds: map<Key, Refunds>, k: Key, amount: int): map<Key, Refunds> {
    refunds[k := if k in refunds then Refunds(refunds[k].count + 1, refunds[k].amount + amount) else Refunds(1, amount)]
  }

  function ProjectMove(t: Tables, at: int, id: OrderId, to: Status): Tables {
    if id !in t.orders then t
    else
      var moved := t.orders[id].(status := to);
      if to != Completed then t.(orders := t.orders[id := moved])
      else
        t.(orders := t.orders[id := moved.(completedAt := Some(at))],
           sales := AddSale(t.sales, Key(Day(at), moved.outlet), if moved.total.Some? then moved.total.value else 0))
  }

  /** The refund is added to the day's sales row only if that row already exists. */
  function ProjectRefund(t: Tables, at: int, id: OrderId, amount: int): Tables {
    if id !in t.orders then t
    else
      var k := Key(Day(at), t.orders[id].outlet);
      t.(refunds := AddRefund(t.refunds, k, amount),
         sales := if k in t.sales then t.sales[k := t.sales[k].(refunded := t.sales[k].refunded + amount)] else t.sales)
  }

  function Apply(t: Tables, env: Envelope): Tables {
    match env.body
    case OfCore(OrderCreated(id, outlet)) =>
      if id in t.orders then t else t.(orders := t.orders[id := Summary(outlet, Created, None, env.occurredAt, None)])
    case OfCore(OrderWeighed(id, _, _, total)) =>
      if id in t.orders then t.(orders := t.orders[id := t.orders[id].(total := Some(total))]) else t
    case OfCore(OrderMoved(_, id, _, to)) => ProjectMove(t, env.occurredAt, id, to)
    case OfPayment(e) => if e.kind == RefundedEvent then ProjectRefund(t, env.occurredAt, e.order, e.amount) else t
    case UnknownType => t
    case BadPayload => t
  }

  datatype Verdict = Ack | Requeue
  datatype Outcome = Outcome(db: Db, verdict: Verdict)

  /** One delivery: None is a message that is not an envelope. A payload of a known type that cannot be read is an
      error. */
  function Consume(db: Db, m: Option<Envelope>): Outcome {
    if m.None? || m.value.id in db.processed then Outcome(db, Ack)
    else if m.value.body.BadPayload? then Outcome(db, Requeue)
    else Outcome(Db(Apply(db.tables, m.value), db.processed + {m.value.id}), Ack)
  }

  // ---------------------------------------------------------------- redelivery

  /** A delivery attempt; one that does not commit is rolled back and requeued. */
  datatype Attempt = Attempt(message: Option<Envelope>, commits: bool)

  function Run(db: Db, attempts: seq<Attempt>): Db {
    if attempts == [] then db
    else
      var before, last := Run(db, attempts[..|attempts| - 1]), attempts[|attempts| - 1];
      if last.commits then Consume(before, last.message).db else before
  }

  function Fold(t: Tables, envs: seq<Envelope>): Tables {
    if envs == [] then t else Apply(Fold(t, envs[..|envs| - 1]), envs[|envs| - 1])
  }

  predicate Succeeds(a: Attempt) {
    a.commits && a.message.Some? && !a.message.value.body.BadPayload?
  }

  function Ids(envs: seq<Envelope>): set<EventId> {
    set env | env in envs :: env.id
  }

  /** The envelopes of the successful attempts, each id where it first succeeded. */
  function FirstSuccesses(attempts: seq<Attempt>): seq<Envelope> {
    if attempts == [] then []
    else
      var front, last := FirstSuccesses(attempts[..|attempts| - 1]), attempts[|attempts| - 1];
      if Succeeds(last) && last.message.value.id !in Ids(front) then front + [last.message.value] else front
  }

  /** Repeats, crashes between commit and acknowledgement, and rolled-back failures are invisible: the tables are the
      fold of the projections over first successful occurrences, and no event is folded twice. */
  lemma {:induction false} RedeliveryIsInvisible(attempts: seq<Attempt>)
    ensures Run(Db(NO_ROWS, {}), attempts) == Db(Fold(NO_ROWS, FirstSuccesses(attempts)), Ids(FirstSuccesses(attempts)))
    ensures forall i, j :: 0 <= i < j < |FirstSuccesses(attempts)| ==>
      FirstSuccesses(attempts)[i].id != FirstSuccesses(attempts)[j].id
  {
    if attempts != [] {
      var front, last := FirstSuccesses(attempts[..|attempts| - 1]), attempts[|attempts| - 1];
      RedeliveryIsInvisible(attempts[..|attempts| - 1]);
      if Succeeds(last) && last.message.value.id !in Ids(front) {
        var env := last.message.value;
        assert (front + [env])[..|front|] == front;
        assert Ids(front + [env]) == Ids(front) + {env.id};
      }
    }
  }

  // ---------------------------------------------------------------- one order at a time

  function OrderOf(env: Envelope): Option<OrderId> {
    match env.body
    case OfCore(e) => Some(e.order)
    case OfPayment(e) => Some(e.order)
    case UnknownType => None
    case BadPayload => None
  }

  /** The events of one order, in order. */
  function Only(envs: seq<Envelope>, id: OrderId): seq<Envelope> {
    if envs == [] then []
    else
      var front, last := Only(envs[..|envs| - 1], id), envs[|envs| - 1];
      if OrderOf(last) == Some(id) then front + [last] else front
  }

  datatype Figures = Figures(gross: int, count: int, refundCount: int, refundAmount: int)
  {
    function Plus(f: Figures): Figures {
      Figures(gross + f.gross, count + f.count, refundCount + f.refundCount, refundAmount + f.refundAmount)
    }
  }

  const ZERO: Figures := Figures(0, 0, 0, 0)

  /** A day's figures at an outlet; no row reads as zeros. */
  function At(t: Tables, k: Key): Figures {
    Figures(if k in t.sales then t.sales[k].gross else 0, if k in t.sales then t.sales[k].count else 0,
            if k in t.refunds then t.refunds[k].count else 0, if k in t.refunds then t.refunds[k].amount else 0)
  }

  function Row(t: Tables, id: OrderId): Option<Summary> {
    if id in t.orders then Some(t.orders[id]) else None
  }

  /** What an event adds to a day's figures, given only its own order's summary. */
  function Contribution(s: Option<Summary>, env: Envelope, k: Key): Figures {
    if s.None? || k != Key(Day(env.occurredAt), s.value.outlet) then ZERO
    else
      match env.body
      case OfCore(OrderMoved(_, _, _, to)) =>
        if to == Completed then Figures(if s.value.total.Some? then s.value.total.value else 0, 1, 0, 0) else ZERO
      case OfCore(OrderCreated(_, _)) => ZERO
      case OfCore(OrderWeighed(_, _, _, _)) => ZERO
      case OfPayment(e) => if e.kind == RefundedEvent then Figures(0, 0, 1, e.amount) else ZERO
      case UnknownType => ZERO
      case BadPayload => ZERO
  }

  lemma RowsAreLocal(t: Tables, u: Tables, env: Envelope, id: OrderId)
    requires Row(t, id) == Row(u, id)
    ensures OrderOf(env) == Some(id) ==> Row(Apply(t, env), id) == Row(Apply(u, env), id)
    ensures OrderOf(env) != Some(id) ==> Row(Apply(t, env), id) == Row(t, id)
    ensures OrderOf(env).None? ==> Apply(t, env) == t
  {
    hide AddSale, AddRefund;
  }

  lemma SaleFigures(t: Tables, orders: map<OrderId, Summary>, k0: Key, amount: int, k: Key)
    ensures k == k0 ==>
      At(t.(orders := orders, sales := AddSale(t.sales, k0, amount)), k) == At(t, k).Plus(Figures(amount, 1, 0, 0))
    ensures k != k0 ==> At(t.(orders := orders, sales := AddSale(t.sales, k0, amount)), k) == At(t, k)
  {
  }

  lemma RefundFigures(t: Tables, sales: map<Key, Sales>, k0: Key, amount: int, k: Key)
    requires sales.Keys == t.sales.Keys
    requires forall j :: j in sales ==> sales[j].gross == t.sales[j].gross && sales[j].count == t.sales[j].count
    ensures k == k0 ==>
      At(t.(refunds := AddRefund(t.refunds, k0, amount), sales := sales), k) == At(t, k).Plus(Figures(0, 0, 1, amount))
    ensures k != k0 ==> At(t.(refunds := AddRefund(t.refunds, k0, amount), sales := sales), k) == At(t, k)
  {
  }

  lemma PlusZero(f: Figures)
    ensures f.Plus(ZERO) == f
  {
  }

  lemma {:induction false} FiguresAreLocal(t: Tables, env: Envelope, k: Key)
    requires OrderOf(env).Some?
    ensures At(Apply(t, env), k) == At(t, k).Plus(Contribution(Row(t, OrderOf(env).value), env, k))
  {
    hide AddSale, AddRefund, At, Day;
    PlusZero(At(t, k));
    var id := OrderOf(env).value;
    if id in t.orders {
      var k0 := Key(Day(env.occurredAt), t.orders[id].outlet);
      if env.body.OfCore? && env.body.core.OrderMoved? && env.body.core.to == Completed {
        var total := t.orders[id].total;
        SaleFigures(t, Apply(t, env).orders, k0, if total.Some? then total.value else 0, k);
        if k == k0 {
          assert Contribution(Row(t, id), env, k) == Figures(if total.Some? then total.value else 0, 1, 0, 0);
        } else {
          assert Contribution(Row(t, id), env, k) == ZERO;
        }
      } else if env.body.OfPayment? && env.body.pay.kind == RefundedEvent {
        RefundFigures(t, Apply(t, env).sales, k0, env.body.pay.amount, k);
        if k == k0 {
          assert Contribution(Row(t, id), env, k) == Figures(0, 0, 1, env.body.pay.amount);
        } else {
          assert Contribution(Row(t, id), env, k) == ZERO;
        }
      } else {
        SameSalesSameFigures(t, Apply(t, env), k);
      }
    } else {
      SameSalesSameFigures(t, Apply(t, env), k);
    }
  }

  lemma SameSalesSameFigures(t: Tables, u: Tables, k: Key)
    requires t.sales == u.sales && t.refunds == u.refunds
    ensures At(t, k) == At(u, k)
  {
  }

  /** An event reads and writes its own order's summary only, and adds a contribution that depends on nothing else. */
  lemma {:induction false} ApplyIsLocal(t: Tables, u: Tables, env: Envelope, id: OrderId, k: Key)
    requires Row(t, id) == Row(u, id)
    ensures OrderOf(env) == Some(id) ==>
              && Row(Apply(t, env), id) == Row(Apply(u, env), id)
              && At(Apply(t, env), k) == At(t, k).Plus(Contribution(Row(t, id), env, k))
    ensures OrderOf(env) != Some(id) ==> Row(Apply(t, env), id) == Row(t, id)
    ensures OrderOf(env).None? ==> Apply(t, env) == t
  {
    hide Apply, Row, At, Contribution;
    RowsAreLocal(t, u, env, id);
    if OrderOf(env).Some? {
      FiguresAreLocal(t, env, k);
    }
  }

  lemma {:induction false} SummaryFollowsOwnEvents(envs: seq<Envelope>, id: OrderId)
    ensures Row(Fold(NO_ROWS, envs), id) == Row(Fold(NO_ROWS, Only(envs, id)), id)
  {
    hide Apply, Row;
    if envs != [] {
      var front, last := envs[..|envs| - 1], envs[|envs| - 1];
      SummaryFollowsOwnEvents(front, id);
      var mine := Only(front, id);
      ApplyIsLocal(Fold(NO_ROWS, front), Fold(NO_ROWS, mine), last, id, Key(0, 0));
      assert (mine + [last])[..|mine|] == mine;
    }
  }

  // ---------------------------------------------------------------- daily figures are sums over orders

  /** What one order alone would have put in the tables. */
  function Share(envs: seq<Envelope>, id: OrderId, k: Key): Figures {
    At(Fold(NO_ROWS, Only(envs, id)), k)
  }

  ghost function Pick(ids: set<OrderId>): OrderId
    requires ids != {}
    ensures Pick(ids) in ids
  {
    var id :| id in ids; id
  }

  ghost function SumShares(ids: set<OrderId>, envs: seq<Envelope>, k: Key): Figures {
    if ids == {} then ZERO else Share(envs, Pick(ids), k).Plus(SumShares(ids - {Pick(ids)}, envs, k))
  }

  ghost predicate Spans(ids: set<OrderId>, envs: seq<Envelope>) {
    forall env :: env in envs && OrderOf(env).Some? ==> OrderOf(env).value in ids
  }

  lemma {:induction false} SharesAgree(ids: set<OrderId>, a: seq<Envelope>, b: seq<Envelope>, k: Key)
    requires forall id :: id in ids ==> Share(a, id, k) == Share(b, id, k)
    ensures SumShares(ids, a, k) == SumShares(ids, b, k)
  {
    if ids != {} {
      SharesAgree(ids - {Pick(ids)}, a, b, k);
    }
  }

  lemma {:induction false} OneShareChanges(ids: set<OrderId>, a: seq<Envelope>, b: seq<Envelope>, k: Key, id: OrderId,
                                           d: Figures)
    requires id in ids && Share(b, id, k) == Share(a, id, k).Plus(d)
    requires forall other :: other in ids && other != id ==> Share(a, other, k) == Share(b, other, k)
    ensures SumShares(ids, b, k) == SumShares(ids, a, k).Plus(d)
  {
    hide Share;
    var p := Pick(ids);
    if p == id {
      SharesAgree(ids - {p}, a, b, k);
    } else {
      OneShareChanges(ids - {p}, a, b, k, id, d);
    }
  }

  lemma {:induction false} NoEventsNoShares(ids: set<OrderId>, k: Key)
    ensures SumShares(ids, [], k) == ZERO
  {
    if ids != {} {
      NoEventsNoShares(ids - {Pick(ids)}, k);
    }
  }

  /** Every daily figure is the sum, over any set of orders that includes those delivered, of what each order alone
      contributes. */
  lemma {:induction false} DailyFiguresAreSums(ids: set<OrderId>, envs: seq<Envelope>, k: Key)
    requires Spans(ids, envs)
    ensures At(Fold(NO_ROWS, envs), k) == SumShares(ids, envs, k)
  {
    hide Apply, Row, Contribution, At;
    if envs == [] {
      NoEventsNoShares(ids, k);
      assert At(NO_ROWS, k) == ZERO by {
        EmptyFigures(k);
      }
    } else {
      var front, last := envs[..|envs| - 1], envs[|envs| - 1];
      DailyFiguresAreSums(ids, front, k);
      if OrderOf(last).None? {
        ApplyIsLocal(Fold(NO_ROWS, front), Fold(NO_ROWS, front), last, 0, k);
        assert forall id :: Only(envs, id) == Only(front, id);
        SharesAgree(ids, front, envs, k);
      } else {
        var id := OrderOf(last).value;
        assert last in envs;
        var mine := Only(front, id);
        SummaryFollowsOwnEvents(front, id);
        ApplyIsLocal(Fold(NO_ROWS, front), Fold(NO_ROWS, mine), last, id, k);
        ApplyIsLocal(Fold(NO_ROWS, mine), Fold(NO_ROWS, front), last, id, k);
        assert (mine + [last])[..|mine|] == mine;
        OneShareChanges(ids, front, envs, k, id, Contribution(Row(Fold(NO_ROWS, front), id), last, k));
      }
    }
  }

  lemma EmptyFigures(k: Key)
    ensures At(NO_ROWS, k) == ZERO
  {
  }

  function Orders(envs: seq<Envelope>): set<OrderId> {
    set env | env in envs && OrderOf(env).Some? :: OrderOf(env).value
  }

  /** A row exists exactly when something was counted in it. */
  ghost predicate RowsCount(t: Tables) {
    && (forall k :: k in t.sales ==> t.sales[k].count > 0)
    && (forall k :: k in t.refunds ==> t.refunds[k].count > 0)
  }

  lemma {:induction false} FoldRowsCount(envs: seq<Envelope>)
    ensures RowsCount(Fold(NO_ROWS, envs))
  {
    if envs != [] {
      FoldRowsCount(envs[..|envs| - 1]);
    }
  }

  /** Two delivery sequences with the same per-order subsequences leave equal order summaries, equal refund summaries
      and, for every day and outlet, equal gross_amount and order_count: how events of different orders interleave is
      invisible. */
  lemma InterleavingIsInvisible(a: seq<Envelope>, b: seq<Envelope>)
    requires forall id :: Only(a, id) == Only(b, id)
    ensures Fold(NO_ROWS, a).orders == Fold(NO_ROWS, b).orders
    ensures Fold(NO_ROWS, a).refunds == Fold(NO_ROWS, b).refunds
    ensures Fold(NO_ROWS, a).sales.Keys == Fold(NO_ROWS, b).sales.Keys
    ensures forall k :: k in Fold(NO_ROWS, a).sales ==>
              && Fold(NO_ROWS, a).sales[k].gross == Fold(NO_ROWS, b).sales[k].gross
              && Fold(NO_ROWS, a).sales[k].count == Fold(NO_ROWS, b).sales[k].count
  {
    var x, y, ids := Fold(NO_ROWS, a), Fold(NO_ROWS, b), Orders(a) + Orders(b);
    forall id
      ensures Row(x, id) == Row(y, id)
    {
      SummaryFollowsOwnEvents(a, id);
      SummaryFollowsOwnEvents(b, id);
    }
    forall k
      ensures At(x, k) == At(y, k)
    {
      DailyFiguresAreSums(ids, a, k);
      DailyFiguresAreSums(ids, b, k);
      SharesAgree(ids, a, b, k);
    }
    FoldRowsCount(a);
    FoldRowsCount(b);
    SameRowsSameTables(x, y);
  }

  lemma SameRowsSameTables(x: Tables, y: Tables)
    requires RowsCount(x) && RowsCount(y)
    requires forall id :: Row(x, id) == Row(y, id)
    requires forall k :: At(x, k) == At(y, k)
    ensures x.orders == y.orders && x.refunds == y.refunds && x.sales.Keys == y.sales.Keys
    ensures forall k :: k in x.sales ==> x.sales[k].gross == y.sales[k].gross && x.sales[k].count == y.sales[k].count
  {
    assert forall id :: id in x.orders <==> Row(x, id).Some?;
    assert forall id :: id in y.orders <==> Row(y, id).Some?;
    assert forall k :: k in x.refunds <==> At(x, k).refundCount > 0;
    assert forall k :: k in y.refunds <==> At(y, k).refundCount > 0;
    assert forall k :: k in x.sales <==> At(x, k).count > 0;
    assert forall k :: k in y.sales <==> At(y, k).count > 0;
    forall k | k in x.refunds
      ensures x.refunds[k] == y.refunds[k]
    {
      assert At(x, k) == At(y, k);
    }
    forall k | k in x.sales
      ensures x.sales[k].gross == y.sales[k].gross && x.sales[k].count == y.sales[k].count
    {
      assert At(x, k) == At(y, k);
    }
  }

  // ---------------------------------------------------------------- refunded_amount

  /** The refunds that reached a day before its sales row existed. */
  function Missed(envs: seq<Envelope>, k: Key): int {
    if envs == [] then 0
    else
      var front, last := envs[..|envs| - 1], envs[|envs| - 1];
      var t := Fold(NO_ROWS, front);
      Missed(front, k) + (if k in t.sales then 0 else At(Apply(t, last), k).refundAmount - At(t, k).refundAmount)
  }

  /** refunded_amount is not a sum over orders: it falls short of the refund summary by what arrived too early. */
  lemma {:induction false} RefundedAmountFallsShort(envs: seq<Envelope>, k: Key)
    ensures
      var t := Fold(NO_ROWS, envs);
      if k in t.sales then t.sales[k].refunded + Missed(envs, k) == At(t, k).refundAmount
      else Missed(envs, k) == At(t, k).refundAmount
  {
    if envs != [] {
      RefundedAmountFallsShort(envs[..|envs| - 1], k);
    }
  }

  /** What event i adds to a day's figures where it arrives. */
  function Adds(envs: seq<Envelope>, i: nat, k: Key): Figures
    requires i < |envs|
  {
    if OrderOf(envs[i]).None? then ZERO
      else Contribution(Row(Fold(NO_ROWS, envs[..i]), OrderOf(envs[i]).value), envs[i], k)
  }

  /** A refund of that day and outlet arrives before any completion of that day and outlet has. */
  ghost predicate RefundedEarly(envs: seq<Envelope>, k: Key) {
    exists i :: 0 <= i < |envs| && Adds(envs, i, k).refundCount > 0 && !CompletedBefore(envs, i, k)
  }

  ghost predicate CompletedBefore(envs: seq<Envelope>, i: nat, k: Key) {
    exists j :: 0 <= j < i && j < |envs| && Adds(envs, j, k).count > 0
  }

  predicate PositiveRefunds(envs: seq<Envelope>) {
    forall i :: 0 <= i < |envs| && envs[i].body.OfPayment? && envs[i].body.pay.kind == RefundedEvent ==>
      envs[i].body.pay.amount > 0
  }

  /** The last event's part in the figures. */
  lemma LastAdds(envs: seq<Envelope>, k: Key)
    requires envs != []
    ensures
      var n := |envs| - 1;
      && At(Fold(NO_ROWS, envs), k) == At(Fold(NO_ROWS, envs[..n]), k).Plus(Adds(envs, n, k))
      && (forall i :: 0 <= i < n ==> Adds(envs[..n], i, k) == Adds(envs, i, k))
  {
    var n := |envs| - 1;
    hide Apply, At, Contribution;
    assert forall i :: 0 <= i < n ==> envs[..n][..i] == envs[..i];
    if OrderOf(envs[n]).Some? {
      FiguresAreLocal(Fold(NO_ROWS, envs[..n]), envs[n], k);
    } else {
      ApplyIsLocal(Fold(NO_ROWS, envs[..n]), Fold(NO_ROWS, envs[..n]), envs[n], 0, k);
      PlusZero(At(Fold(NO_ROWS, envs[..n]), k));
    }
  }

  lemma RowsAreCounts(t: Tables, k: Key)
    requires RowsCount(t)
    ensures k in t.sales <==> At(t, k).count > 0
    ensures At(t, k).count >= 0
  {
  }

  /** A sales row exists once a completion of that day and outlet has arrived. */
  lemma {:induction false} SalesRowOnceCompleted(envs: seq<Envelope>, k: Key)
    ensures k in Fold(NO_ROWS, envs).sales <==> CompletedBefore(envs, |envs|, k)
  {
    hide Apply, Contribution, Adds, At, RowsCount;
    FoldRowsCount(envs);
    RowsAreCounts(Fold(NO_ROWS, envs), k);
    if envs == [] {
      EmptyFigures(k);
    } else {
      var n := |envs| - 1;
      SalesRowOnceCompleted(envs[..n], k);
      FoldRowsCount(envs[..n]);
      RowsAreCounts(Fold(NO_ROWS, envs[..n]), k);
      LastAdds(envs, k);
      CountsGrow(envs, n, k);
      if CompletedBefore(envs[..n], n, k) {
        var j :| 0 <= j < n && Adds(envs[..n], j, k).count > 0;
        assert Adds(envs, j, k).count > 0;
      }
      if CompletedBefore(envs, |envs|, k) {
        var j :| 0 <= j < |envs| && Adds(envs, j, k).count > 0;
        if j < n {
          assert Adds(envs[..n], j, k).count > 0;
        }
      }
    }
  }

  lemma CountsGrow(envs: seq<Envelope>, i: nat, k: Key)
    requires i < |envs|
    ensures Adds(envs, i, k).count >= 0 && Adds(envs, i, k).refundCount >= 0
    ensures PositiveRefunds(envs) ==> (Adds(envs, i, k).refundAmount > 0 <==> Adds(envs, i, k).refundCount > 0)
    ensures PositiveRefunds(envs) ==> Adds(envs, i, k).refundAmount >= 0
  {
  }

  lemma {:induction false} MissedWhenEarly(envs: seq<Envelope>, k: Key)
    requires PositiveRefunds(envs)
    ensures Missed(envs, k) >= 0
    ensures Missed(envs, k) > 0 <==> RefundedEarly(envs, k)
  {
    hide Apply, Contribution, Adds, At;
    if envs != [] {
      var n := |envs| - 1;
      var front := envs[..n];
      MissedWhenEarly(front, k);
      LastAdds(envs, k);
      CountsGrow(envs, n, k);
      SalesRowOnceCompleted(front, k);
      CompletedBeforeInFront(envs, k);
      if RefundedEarly(front, k) {
        var i :| 0 <= i < n && Adds(front, i, k).refundCount > 0 && !CompletedBefore(front, i, k);
        assert Adds(envs, i, k).refundCount > 0 && !CompletedBefore(envs, i, k);
      }
      if RefundedEarly(envs, k) {
        var i :| 0 <= i < |envs| && Adds(envs, i, k).refundCount > 0 && !CompletedBefore(envs, i, k);
        if i < n {
          assert Adds(front, i, k).refundCount > 0 && !CompletedBefore(front, i, k);
        }
      }
    }
  }

  lemma CompletedBeforeInFront(envs: seq<Envelope>, k: Key)
    requires envs != []
    ensures forall i :: 0 <= i < |envs| ==> (CompletedBefore(envs[..|envs| - 1], i, k) <==> CompletedBefore(envs, i, k))
  {
    hide Adds;
    var front := envs[..|envs| - 1];
    LastAdds(envs, k);
    forall i | 0 <= i < |envs|
      ensures CompletedBefore(front, i, k) <==> CompletedBefore(envs, i, k)
    {
      if CompletedBefore(front, i, k) {
        var j :| 0 <= j < i && j < |front| && Adds(front, j, k).count > 0;
        assert Adds(envs, j, k).count > 0;
      }
      if CompletedBefore(envs, i, k) {
        var j :| 0 <= j < i && j < |envs| && Adds(envs, j, k).count > 0;
        assert Adds(front, j, k).count > 0;
      }
    }
  }

  /** On a day with sales, refunded_amount agrees with the refund summary exactly when no refund of that day and outlet
      arrived before its first completion. Payment only sends positive amounts. */
  lemma {:induction false} RefundedAmountAgreesExactlyWhen(envs: seq<Envelope>, k: Key)
    requires PositiveRefunds(envs) && k in Fold(NO_ROWS, envs).sales
    ensures
      var t := Fold(NO_ROWS, envs);
      t.sales[k].refunded == At(t, k).refundAmount <==> !RefundedEarly(envs, k)
  {
    hide RefundedEarly;
    RefundedAmountFallsShort(envs, k);
    MissedWhenEarly(envs, k);
  }

  /** One order's refund delivered before or after another order's completion on the same day and outlet: the per-order
      subsequences are the same, refunded_amount is not. */
  lemma RefundedAmountDependsOnInterleaving() returns (a: seq<Envelope>, b: seq<Envelope>, k: Key)
    ensures forall id :: Only(a, id) == Only(b, id)
    ensures k in Fold(NO_ROWS, a).sales && k in Fold(NO_ROWS, b).sales
    ensures Fold(NO_ROWS, a).sales[k].refunded != Fold(NO_ROWS, b).sales[k].refunded
  {
    k := Key(0, 7);
    var created1 := Envelope(CoreRow(0), 0, OfCore(OrderCreated(1, 7)));
    var created2 := Envelope(CoreRow(1), 0, OfCore(OrderCreated(2, 7)));
    var completed := Envelope(CoreRow(2), 0, OfCore(OrderMoved(OrderCompleted, 1, PickedUp, Completed)));
    var refunded := Envelope(PaymentRow(0), 0, OfPayment(PayEvent(RefundedEvent, 0, 2, 500)));
    a, b := [created1, created2, completed, refunded], [created1, created2, refunded, completed];
    var start := [created1, created2];
    assert start[..1] == [created1] && a[..2] == start && b[..2] == start;
    assert a[..3] == start + [completed] && (start + [completed])[..2] == start;
    assert b[..3] == start + [refunded] && (start + [refunded])[..2] == start;
    var t := Fold(NO_ROWS, start);
    assert Fold(NO_ROWS, [created1]) == Apply(NO_ROWS, created1);
    assert t == Apply(Fold(NO_ROWS, [created1]), created2);
    assert Fold(NO_ROWS, a) == Apply(Apply(t, completed), refunded);
    assert Fold(NO_ROWS, b) == Apply(Apply(t, refunded), completed);
    assert forall id :: Only(a[..3], id) == Only(start, id) + if id == 1 then [completed] else [];
    assert forall id :: Only(b[..3], id) == Only(start, id) + if id == 2 then [refunded] else [];
  }

  // ---------------------------------------------------------------- counted once

  function CompletedOn(orders: map<OrderId, Summary>, k: Key): set<OrderId> {
    set id | id in orders && orders[id].completedAt.Some?
      && Key(Day(orders[id].completedAt.value), orders[id].outlet) == k
  }

  /** Each day's order_count is the number of orders completed at that outlet on that day. */
  ghost predicate CountsMatch(t: Tables) {
    forall k :: At(t, k).count == |CompletedOn(t.orders, k)|
  }

  predicate IsCompletionOf(env: Envelope, id: OrderId) {
    env.body.OfCore? && env.body.core.OrderMoved? && env.body.core.to == Completed && env.body.core.order == id
  }

  lemma CompletionKeepsCounts(t: Tables, at: int, id: OrderId)
    requires CountsMatch(t) && (id in t.orders ==> t.orders[id].completedAt.None?)
    ensures CountsMatch(ProjectMove(t, at, id, Completed))
  {
    var t' := ProjectMove(t, at, id, Completed);
    forall k
      ensures At(t', k).count == |CompletedOn(t'.orders, k)|
    {
      assert At(t, k).count == |CompletedOn(t.orders, k)|;
      if id in t.orders && k == Key(Day(at), t.orders[id].outlet) {
        assert CompletedOn(t'.orders, k) == CompletedOn(t.orders, k) + {id};
      } else {
        assert CompletedOn(t'.orders, k) == CompletedOn(t.orders, k);
      }
    }
  }

  lemma SameCompletionsKeepCounts(t: Tables, t': Tables)
    requires CountsMatch(t)
    requires forall k :: At(t', k).count == At(t, k).count && CompletedOn(t'.orders, k) == CompletedOn(t.orders, k)
    ensures CountsMatch(t')
  {
    forall k
      ensures At(t', k).count == |CompletedOn(t'.orders, k)|
    {
      assert At(t, k).count == |CompletedOn(t.orders, k)|;
    }
  }

  /** Counting stays exact as long as an order's completion is applied at most once. */
  lemma ApplyKeepsCounts(t: Tables, env: Envelope)
    requires CountsMatch(t)
    requires forall id :: id in t.orders && IsCompletionOf(env, id) ==> t.orders[id].completedAt.None?
    ensures CountsMatch(Apply(t, env))
    ensures forall id :: id in Apply(t, env).orders && Apply(t, env).orders[id].completedAt.Some? ==>
              IsCompletionOf(env, id) || (id in t.orders && t.orders[id].completedAt.Some?)
  {
    if env.body.OfCore? && env.body.core.OrderMoved? && env.body.core.to == Completed {
      assert IsCompletionOf(env, env.body.core.order);
      CompletionKeepsCounts(t, env.occurredAt, env.body.core.order);
    } else {
      var t' := Apply(t, env);
      forall k
        ensures At(t', k).count == At(t, k).count && CompletedOn(t'.orders, k) == CompletedOn(t.orders, k)
      {
      }
      SameCompletionsKeepCounts(t, t');
    }
  }

  predicate IsCreationOf(env: Envelope, id: OrderId) {
    env.body.OfCore? && env.body.core.OrderCreated? && env.body.core.order == id
  }

  ghost predicate WasCreated(envs: seq<Envelope>, id: OrderId) {
    exists i :: 0 <= i < |envs| && IsCreationOf(envs[i], id)
  }

  ghost predicate CreatedThenCompleted(envs: seq<Envelope>, id: OrderId) {
    exists j :: 0 <= j < |envs| && IsCompletionOf(envs[j], id) && WasCreated(envs[..j], id)
  }

  /** An order is counted exactly when its completion was consumed after its creation. A completion consumed first is
      marked as processed and never counted. */
  lemma {:induction false} CountedExactlyWhen(envs: seq<Envelope>, id: OrderId)
    ensures id in Fold(NO_ROWS, envs).orders <==> WasCreated(envs, id)
    ensures id in Fold(NO_ROWS, envs).orders && Fold(NO_ROWS, envs).orders[id].completedAt.Some? <==>
      CreatedThenCompleted(envs, id)
  {
    hide AddSale, AddRefund;
    if envs != [] {
      var n := |envs| - 1;
      var front := envs[..n];
      CountedExactlyWhen(front, id);
      assert WasCreated(envs, id) <==> WasCreated(front, id) || IsCreationOf(envs[n], id) by {
        if WasCreated(front, id) {
          var i :| 0 <= i < n && IsCreationOf(front[i], id);
          assert IsCreationOf(envs[i], id);
        }
        if i :| 0 <= i < n && IsCreationOf(envs[i], id) {
          assert IsCreationOf(front[i], id);
        }
      }
      assert forall j :: 0 <= j <= n ==> front[..j] == envs[..j];
      assert CreatedThenCompleted(envs, id) <==>
        CreatedThenCompleted(front, id) || (IsCompletionOf(envs[n], id) && WasCreated(front, id)) by {
        if CreatedThenCompleted(front, id) {
          var j :| 0 <= j < n && IsCompletionOf(front[j], id) && WasCreated(front[..j], id);
          assert IsCompletionOf(envs[j], id) && WasCreated(envs[..j], id);
        }
        if j :| 0 <= j < n && IsCompletionOf(envs[j], id) && WasCreated(envs[..j], id) {
          assert IsCompletionOf(front[j], id) && WasCreated(front[..j], id);
        }
      }
    }
  }

  // ---------------------------------------------------------------- the figures, read off the events alone

  predicate IsWeighingOf(env: Envelope, id: OrderId) {
    env.body.OfCore? && env.body.core.OrderWeighed? && env.body.core.order == id
  }

  predicate IsRefundOf(env: Envelope, id: OrderId) {
    env.body.OfPayment? && env.body.pay.kind == RefundedEvent && env.body.pay.order == id
  }

  /** The outlet named by the first creation of the order among these events. */
  function OutletOf(envs: seq<Envelope>, id: OrderId): Option<OutletId> {
    if envs == [] then None
    else
      var earlier, last := OutletOf(envs[..|envs| - 1], id), envs[|envs| - 1];
      if earlier.None? && IsCreationOf(last, id) then Some(last.body.core.outlet) else earlier
  }

  /** The order's last order.weighed among these events that did not come before its creation. */
  function LastWeighing(envs: seq<Envelope>, id: OrderId): Option<Envelope> {
    if envs == [] then None
    else
      var front, last := envs[..|envs| - 1], envs[|envs| - 1];
      if IsWeighingOf(last, id) && OutletOf(front, id).Some? then Some(last) else LastWeighing(front, id)
  }

  function KnownTotal(envs: seq<Envelope>, id: OrderId): (total: Option<int>)
    ensures total.Some? <==> LastWeighing(envs, id).Some?
  {
    LastWeighingIsOne(envs, id);
    var w := LastWeighing(envs, id);
    if w.None? then None else Some(w.value.body.core.total)
  }

  lemma LastWeighingIsOne(envs: seq<Envelope>, id: OrderId)
    ensures var w := LastWeighing(envs, id); w.Some? ==> IsWeighingOf(w.value, id) && w.value in envs
  {
    if envs != [] {
      LastWeighingIsOne(envs[..|envs| - 1], id);
    }
  }

  predicate IsMoveOf(env: Envelope, id: OrderId) {
    env.body.OfCore? && env.body.core.OrderMoved? && env.body.core.order == id
  }

  /** The order's first creation, and its last status change and last completion that did not come before it. */
  function FirstCreation(envs: seq<Envelope>, id: OrderId): Option<Envelope> {
    if envs == [] then None
    else
      var earlier, last := FirstCreation(envs[..|envs| - 1], id), envs[|envs| - 1];
      if earlier.None? && IsCreationOf(last, id) then Some(last) else earlier
  }

  function LastMove(envs: seq<Envelope>, id: OrderId): (move: Option<Envelope>)
    ensures move.Some? ==> IsMoveOf(move.value, id)
  {
    if envs == [] then None
    else
      var front, last := envs[..|envs| - 1], envs[|envs| - 1];
      if IsMoveOf(last, id) && FirstCreation(front, id).Some? then Some(last) else LastMove(front, id)
  }

  function LastCompletion(envs: seq<Envelope>, id: OrderId): Option<Envelope> {
    if envs == [] then None
    else
      var front, last := envs[..|envs| - 1], envs[|envs| - 1];
      if IsCompletionOf(last, id) && FirstCreation(front, id).Some? then Some(last) else LastCompletion(front, id)
  }

  /** An order's summary row dates from its first creation, has the status that its last change since led to, or
      Created, and was completed when its last completion since occurred. */
  lemma {:induction false} StatusFollowsEvents(envs: seq<Envelope>, id: OrderId)
    ensures
      var row, first, move := Row(Fold(NO_ROWS, envs), id), FirstCreation(envs, id), LastMove(envs, id);
      && (row.Some? <==> first.Some?)
      && (row.Some? ==>
            && row.value.createdAt == first.value.occurredAt
            && row.value.status == (if move.Some? then move.value.body.core.to else Created)
            && row.value.completedAt ==
                 (if LastCompletion(envs, id).Some? then Some(LastCompletion(envs, id).value.occurredAt) else None))
      && (row.None? ==> move.None? && LastCompletion(envs, id).None?)
  {
    hide AddSale, AddRefund, Day;
    if envs != [] {
      StatusFollowsEvents(envs[..|envs| - 1], id);
    }
  }

  /** What event i is worth on a day at an outlet: a completion is worth the total last weighed, a refund its amount,
      and both are worth nothing unless the order's creation came first. */
  function Worth(envs: seq<Envelope>, i: nat, k: Key): Figures
    requires i < |envs|
  {
    var env, before := envs[i], envs[..i];
    if OrderOf(env).None? || Day(env.occurredAt) != k.day || OutletOf(before, OrderOf(env).value) != Some(k.outlet)
      then ZERO
    else
      var id := OrderOf(env).value;
      if IsCompletionOf(env, id) then
        Figures(if KnownTotal(before, id).Some? then KnownTotal(before, id).value else 0, 1, 0, 0)
      else if IsRefundOf(env, id) then Figures(0, 0, 1, env.body.pay.amount)
      else ZERO
  }

  function TotalWorth(envs: seq<Envelope>, k: Key): Figures {
    if envs == [] then ZERO
    else TotalWorth(envs[..|envs| - 1], k).Plus(Worth(envs, |envs| - 1, k))
  }

  /** An order's summary row holds the outlet of its first creation and the total of its last weighing since. */
  lemma {:induction false} RowFollowsEvents(envs: seq<Envelope>, id: OrderId)
    ensures
      var row := Row(Fold(NO_ROWS, envs), id);
      && (row.Some? <==> OutletOf(envs, id).Some?)
      && (row.Some? ==> row.value.outlet == OutletOf(envs, id).value && row.value.total == KnownTotal(envs, id))
      && (row.None? ==> KnownTotal(envs, id) == None)
  {
    hide AddSale, AddRefund, Day;
    if envs != [] {
      RowFollowsEvents(envs[..|envs| - 1], id);
    }
  }

  /** Each event adds to the daily figures what it is worth, whatever else was consumed. */
  lemma {:induction false} EventsAddTheirWorth(envs: seq<Envelope>, i: nat, k: Key)
    requires i < |envs|
    ensures Adds(envs, i, k) == Worth(envs, i, k)
  {
    hide Fold, Row, OutletOf, KnownTotal, Day;
    if OrderOf(envs[i]).Some? {
      RowFollowsEvents(envs[..i], OrderOf(envs[i]).value);
    }
  }

  /** The daily sales and refunds are the summed worth of the events consumed. */
  lemma {:induction false} FiguresAreTheWorth(envs: seq<Envelope>, k: Key)
    ensures At(Fold(NO_ROWS, envs), k) == TotalWorth(envs, k)
  {
    hide Fold, Adds, Worth, At;
    if envs == [] {
      NothingFolded(k);
    } else {
      var n := |envs| - 1;
      FiguresAreTheWorth(envs[..n], k);
      LastAdds(envs, k);
      EventsAddTheirWorth(envs, n, k);
    }
  }

  lemma NothingFolded(k: Key)
    ensures At(Fold(NO_ROWS, []), k) == ZERO
  {
    EmptyFigures(k);
  }

  lemma {:induction false} OutletOnceCreated(envs: seq<Envelope>, id: OrderId)
    ensures OutletOf(envs, id).Some? <==> WasCreated(envs, id)
  {
    RowFollowsEvents(envs, id);
    CountedExactlyWhen(envs, id);
  }

  /** A refund reaches the refund summary - some day's, at some outlet - exactly when the order's creation was consumed
      first; a refund consumed before it is marked as processed and never counted. */
  lemma {:induction false} RefundCountedExactlyWhen(envs: seq<Envelope>, i: nat, id: OrderId)
    requires i < |envs| && IsRefundOf(envs[i], id)
    ensures (exists k :: Adds(envs, i, k) == Figures(0, 0, 1, envs[i].body.pay.amount)) <==> WasCreated(envs[..i], id)
    ensures !WasCreated(envs[..i], id) ==> forall k :: Adds(envs, i, k) == ZERO
  {
    OutletOnceCreated(envs[..i], id);
    forall k
      ensures Adds(envs, i, k) == Worth(envs, i, k)
    {
      EventsAddTheirWorth(envs, i, k);
    }
    if WasCreated(envs[..i], id) {
      var k := Key(Day(envs[i].occurredAt), OutletOf(envs[..i], id).value);
      assert Adds(envs, i, k) == Figures(0, 0, 1, envs[i].body.pay.amount);
    }
  }

  /** A weighing consumed after the completion changes the order's row and not the day's gross. */
  lemma LateWeighingIsNotGross() returns (envs: seq<Envelope>, k: Key)
    ensures CreatedThenCompleted(envs, 1)
    ensures
      var t := Fold(NO_ROWS, envs);
      && At(t, k) == Figures(0, 1, 0, 0)
      && Row(t, 1).Some? && Row(t, 1).value.outlet == k.outlet && Row(t, 1).value.total == Some(2000)
  {
    k := Key(0, 7);
    var created := Envelope(CoreRow(0), 0, OfCore(OrderCreated(1, 7)));
    var completed := Envelope(CoreRow(2), 0, OfCore(OrderMoved(OrderCompleted, 1, PickedUp, Completed)));
    var weighed := Envelope(CoreRow(1), 0, OfCore(OrderWeighed(1, 2000, 0, 2000)));
    envs := [created, completed, weighed];
    assert envs[..2] == [created, completed] && [created, completed][..1] == [created] && [created][..0] == [];
    assert IsCompletionOf(envs[1], 1) && WasCreated(envs[..1], 1) by {
      assert IsCreationOf(envs[..1][0], 1);
    }
    assert Fold(NO_ROWS, [created]) == Apply(NO_ROWS, created);
    assert Fold(NO_ROWS, [created, completed]) == Apply(Fold(NO_ROWS, [created]), completed);
    assert Fold(NO_ROWS, envs) == Apply(Fold(NO_ROWS, [created, completed]), weighed);
  }
}
