/** One order row with its items and status history: what each write does to it, the invariant every write
    keeps, and how an order can evolve. */
module Orders {
  import opened Wrappers
  import opened OrderState
  import opened Events
  import opened Money

  /** A row of order_items; its id is its position in the order. Weights are kilograms. */
  datatype Item = Item(service: ServiceId, unitPrice: int, estimatedKg: Option<real>,
                       actualKg: Option<real>, subtotal: Option<int>, isLocked: bool)

  datatype Order = Order(outlet: OutletId, createdAt: int, items: seq<Item>, status: Status, paymentStatus: PayStatus,
                         estimatedTotal: Option<int>, discount: int, subtotal: Option<int>, taxRate: real, tax: int,
                         pickupFee: int, deliveryFee: int, total: Option<int>, history: seq<HistoryRow>)

  function NewOrder(outlet: OutletId, now: int, items: seq<Item>, estimatedTotal: Option<int>, discount: int): Order {
    Order(outlet, now, items, Created, Unpaid, estimatedTotal, discount, None, 0.0, 0, 0, 0, None,
      [HistoryRow(None, Created)])
  }

  /** transitionStatusTx: the status and its history row are written together. */
  function Move(o: Order, to: Status): Order {
    o.(status := to, history := o.history + [HistoryRow(Some(o.status), to)])
  }

  function WeighedItem(item: Item, kg: real): Item {
    item.(actualKg := Some(kg), subtotal := Some(PriceOf(kg, item.unitPrice)))
  }

  /** WeighItem: the first weighing also moves the order from Received to Weighing. */
  function Weigh(o: Order, i: nat, kg: real): Order
    requires i < |o.items|
  {
    var weighed := o.(items := o.items[i := WeighedItem(o.items[i], kg)]);
    if o.status == Received then Move(weighed, Weighing) else weighed
  }

  predicate AllWeighed(items: seq<Item>) {
    forall i :: 0 <= i < |items| ==> items[i].actualKg.Some?
  }

  /** COALESCE(SUM(subtotal), 0); SUM skips NULLs. */
  function SumSubtotals(items: seq<Item>): int {
    if items == [] then 0
    else (if items[0].subtotal.Some? then items[0].subtotal.value else 0) + SumSubtotals(items[1..])
  }

  function TaxOn(subtotal: int, rate: real): int {
    RoundHalfAway(rate / 100.0 * subtotal as real)
  }

  function FeeOr(fee: Option<int>, current: int): int {
    if fee.Some? then fee.value else current
  }

  function Finalize(o: Order, rate: real, pickupFee: Option<int>, deliveryFee: Option<int>): Order {
    var subtotal := SumSubtotals(o.items);
    var tax := TaxOn(subtotal, rate);
    var pf, df := FeeOr(pickupFee, o.pickupFee), FeeOr(deliveryFee, o.deliveryFee);
    o.(subtotal := Some(subtotal), taxRate := rate, tax := tax, pickupFee := pf, deliveryFee := df,
       total := Some(subtotal - o.discount + tax + pf + df))
  }

  /** The CHECK constraints of the orders table on the columns FinalizeWeighing writes. */
  predicate PassesChecks(o: Order) {
    && o.tax >= 0 && o.taxRate >= 0.0 && o.pickupFee >= 0 && o.deliveryFee >= 0
    && (o.total.Some? ==> o.total.value >= 0)
  }

  /** The effect of one payment event on its order. */
  function Project(o: Order, kind: PayKind): Order {
    match kind
    case CreatedEvent => if o.paymentStatus == Unpaid then o.(paymentStatus := Pending) else o
    case FailedEvent => if o.paymentStatus in {Unpaid, Pending} then o.(paymentStatus := Failed) else o
    case PaidEvent =>
      var paid := o.(paymentStatus := Paid);
      if o.status == Weighing then Move(paid, Washing) else paid
    case RefundedEvent =>
      var refunded := if o.paymentStatus == Paid then o.(paymentStatus := Refunded) else o;
      if o.status != Cancelled then Move(refunded, Cancelled) else refunded
  }

  // ---------------------------------------------------------------- invariant

  ghost predicate ItemInv(item: Item) {
    && !item.isLocked
    && item.unitPrice > 0
    && (item.actualKg.Some? <==> item.subtotal.Some?)
    && (item.actualKg.Some? ==>
          item.actualKg.value >= 0.0 && item.subtotal.value == PriceOf(item.actualKg.value, item.unitPrice))
  }

  /** total = subtotal - discount + tax + fees >= 0, with the tax rounded from the snapshot rate. */
  ghost predicate MoneyInv(o: Order) {
    && o.discount >= 0 && o.pickupFee >= 0 && o.deliveryFee >= 0
    && 0.0 <= o.taxRate <= 100.0
    && (o.total.Some? <==> o.subtotal.Some?)
    && (o.total.Some? ==>
          && AllWeighed(o.items)
          && o.tax == TaxOn(o.subtotal.value, o.taxRate)
          && o.total.value == o.subtotal.value - o.discount + o.tax + o.pickupFee + o.deliveryFee
          && o.total.value >= 0)
  }

  ghost predicate OrderInv(o: Order) {
    && |o.items| > 0
    && (forall i :: 0 <= i < |o.items| ==> ItemInv(o.items[i]))
    && MoneyInv(o)
    && (InLaundry(o.status) ==> o.paymentStatus == Paid)
    && Path(o.history) && o.history[|o.history| - 1].to == o.status
  }

  /** What any number of writes can do to an order: prices are fixed at creation, the rank never falls, the
      history only grows, a total is never unset, and items are frozen once the order has left Weighing. */
  ghost predicate Evolves(o: Order, o': Order) {
    && o'.outlet == o.outlet && o'.createdAt == o.createdAt && o'.discount == o.discount
    && |o'.items| == |o.items|
    && (forall i :: 0 <= i < |o.items| ==>
          o'.items[i].service == o.items[i].service && o'.items[i].unitPrice == o.items[i].unitPrice)
    && (Rank(o.status) > Rank(Weighing) ==> o'.items == o.items)
    && Rank(o.status) <= Rank(o'.status)
    && (o.status != o'.status ==> Rank(o.status) < Rank(o'.status))
    && o.history <= o'.history
    && (o.total.Some? ==> o'.total.Some?)
    && (InLaundry(o'.status) ==> InLaundry(o.status) || Rank(o.status) <= Rank(Weighing))
  }

  lemma EvolvesTransitive(a: Order, b: Order, c: Order)
    requires Evolves(a, b) && Evolves(b, c)
    ensures Evolves(a, c)
  {
  }

  lemma {:induction false} MoveKeepsInv(o: Order, to: Status)
    requires OrderInv(o) && Edge(o.status, to)
    requires InLaundry(to) ==> o.paymentStatus == Paid
    ensures OrderInv(Move(o, to)) && Evolves(o, Move(o, to))
  {
    EdgeRaisesRank(o.status, to);
    PathExtends(o.history, to);
  }

  lemma WeighKeepsInv(o: Order, i: nat, kg: real)
    requires OrderInv(o) && i < |o.items| && kg >= 0.0
    requires o.status == Received || o.status == Weighing
    ensures OrderInv(Weigh(o, i, kg)) && Evolves(o, Weigh(o, i, kg))
  {
    var worth := kg * o.items[i].unitPrice as real;
    assert ItemInv(WeighedItem(o.items[i], kg));
    var weighed := o.(items := o.items[i := WeighedItem(o.items[i], kg)]);
    assert OrderInv(weighed);
    if o.status == Received {
      MoveKeepsInv(weighed, Weighing);
    }
  }

  lemma FinalizeKeepsInv(o: Order, rate: real, pickupFee: Option<int>, deliveryFee: Option<int>)
    requires OrderInv(o) && AllWeighed(o.items) && 0.0 <= rate <= 100.0
    requires PassesChecks(Finalize(o, rate, pickupFee, deliveryFee))
    ensures OrderInv(Finalize(o, rate, pickupFee, deliveryFee)) && Evolves(o, Finalize(o, rate, pickupFee, deliveryFee))
  {
  }

  lemma ProjectKeepsInv(o: Order, kind: PayKind)
    requires OrderInv(o)
    ensures OrderInv(Project(o, kind)) && Evolves(o, Project(o, kind))
    ensures Project(o, kind).total == o.total && Project(o, kind).status in {o.status, Washing, Cancelled}
  {
    match kind
    case CreatedEvent =>
    case FailedEvent =>
    case PaidEvent =>
      var paid := o.(paymentStatus := Paid);
      if o.status == Weighing {
        MoveKeepsInv(paid, Washing);
      }
    case RefundedEvent =>
      if o.status != Cancelled {
        var moved := Move(o, Cancelled);
        MoveKeepsInv(o, Cancelled);
        assert Project(o, kind) == moved || Project(o, kind) == moved.(paymentStatus := Refunded);
      }
  }

  // ---------------------------------------------------------------- money bound

  /** The exact worth of the laundry, without rounding. */
  ghost function ExactWorth(items: seq<Item>): real
    requires AllWeighed(items)
  {
    if items == [] then 0.0
    else items[0].actualKg.value * items[0].unitPrice as real + ExactWorth(items[1..])
  }

  lemma {:induction false} SubtotalsNearWorth(items: seq<Item>)
    requires AllWeighed(items) && forall i :: 0 <= i < |items| ==> ItemInv(items[i])
    ensures -(|items| as real) / 2.0 <= SumSubtotals(items) as real - ExactWorth(items) <= |items| as real / 2.0
    ensures SumSubtotals(items) >= 0
  {
    if items != [] {
      SubtotalsNearWorth(items[1..]);
      var worth := items[0].actualKg.value * items[0].unitPrice as real;
      assert items[0].subtotal.value == RoundHalfAway(worth);
      assert worth >= 0.0;
    }
  }

  /** An amount with the tax on it, unrounded. */
  ghost function Taxed(amount: real, rate: real): real {
    amount * (1.0 + rate / 100.0)
  }

  ghost function ExactTotal(o: Order): real
    requires AllWeighed(o.items)
  {
    Taxed(ExactWorth(o.items), o.taxRate) - o.discount as real + o.pickupFee as real + o.deliveryFee as real
  }

  /** Half a rupiah for each of n items, scaled by the tax, and half a rupiah for the tax itself. */
  ghost function Slack(n: nat, rate: real): real {
    Taxed(n as real / 2.0, rate) + 0.5
  }

  /** Scaling a rounding error of at most `half` by the tax factor, and rounding the tax once more. */
  lemma TaxedBound(s: real, w: real, r: real, half: real, tax: real)
    requires -half <= s - w <= half && r >= 0.0
    requires -0.5 <= tax - r * s <= 0.5
    ensures -(half * (1.0 + r) + 0.5) <= s + tax - w * (1.0 + r) <= half * (1.0 + r) + 0.5
  {
    var d := s - w;
    assert -(half * r) <= d * r <= half * r;
    assert d * r == r * s - w * r;
    assert w * (1.0 + r) == w + w * r && half * (1.0 + r) == half + half * r;
  }

  lemma TaxOnIsNear(subtotal: int, worth: real, rate: real, half: real)
    requires -half <= subtotal as real - worth <= half && rate >= 0.0
    ensures
      -(Taxed(half, rate) + 0.5) <=
      subtotal as real + TaxOn(subtotal, rate) as real - Taxed(worth, rate) <=
      Taxed(half, rate) + 0.5
  {
    var tax := TaxOn(subtotal, rate);
    TaxedBound(subtotal as real, worth, rate / 100.0, half, tax as real);
  }

  /** Right after FinalizeWeighing on n items the total is within n/2 * (1 + rate/100) + 1/2 rupiah of the exact
      amount. */
  lemma FinalizedTotalIsNearExact(o: Order, rate: real, pickupFee: Option<int>, deliveryFee: Option<int>)
    requires OrderInv(o) && AllWeighed(o.items) && 0.0 <= rate <= 100.0
    ensures
      var done := Finalize(o, rate, pickupFee, deliveryFee);
      -Slack(|o.items|, rate) <= done.total.value as real - ExactTotal(done) <= Slack(|o.items|, rate)
  {
    SubtotalsNearWorth(o.items);
    hide OrderInv, ExactWorth, SumSubtotals, TaxOn, Taxed;
    TaxOnIsNear(SumSubtotals(o.items), ExactWorth(o.items), rate, |o.items| as real / 2.0);
  }
}
