/** Versioned service prices and the versioned tax rate. A new version closes the open one at the same instant. */
module Catalog {
  import opened Wrappers
  import opened Events

  /** A row of service_prices; `outlet` is None for a global price, `to` is None while the row is in force. */
  datatype PriceRow = PriceRow(service: ServiceId, outlet: Option<OutletId>, price: int, from: int, to: Option<int>)
  {
    predicate For(s: ServiceId, o: Option<OutletId>) {
      service == s && outlet == o
    }

    predicate OpenFor(s: ServiceId, o: Option<OutletId>) {
      For(s, o) && to.None?
    }

    predicate Covers(t: int) {
      from <= t && (to.Some? ==> t < to.value)
    }
  }

  /** UPDATE service_prices SET effective_to = now WHERE the key matches AND effective_to IS NULL. */
  function CloseOpen(rows: seq<PriceRow>, s: ServiceId, o: Option<OutletId>, now: int): (closed: seq<PriceRow>)
  {
    seq(|rows|, i requires 0 <= i < |rows| => if rows[i].OpenFor(s, o) then rows[i].(to := Some(now)) else rows[i])
  }

  function PublishPrice(rows: seq<PriceRow>, s: ServiceId, o: Option<OutletId>, price: int, now: int): seq<PriceRow>
  {
    CloseOpen(rows, s, o, now) + [PriceRow(s, o, price, now, None)]
  }

  /** The first open row for the key, as QueryRow returns it. */
  function OpenPrice(rows: seq<PriceRow>, s: ServiceId, o: Option<OutletId>): (p: Option<int>)
    ensures p.Some? ==> exists i :: 0 <= i < |rows| && rows[i].OpenFor(s, o) && rows[i].price == p.value
    ensures p.None? <==> forall i :: 0 <= i < |rows| ==> !rows[i].OpenFor(s, o)
  {
    if rows == [] then None
    else if rows[0].OpenFor(s, o) then Some(rows[0].price)
    else
      var rest := OpenPrice(rows[1..], s, o);
      assert forall i :: 0 < i < |rows| ==> rows[i] == rows[1..][i - 1];
      rest
  }

  /** activePrice and activePriceTx: outlet-specific first, then global. */
  function ActivePrice(rows: seq<PriceRow>, s: ServiceId, o: Option<OutletId>): Option<int>
  {
    if o.Some? && OpenPrice(rows, s, o).Some? then OpenPrice(rows, s, o) else OpenPrice(rows, s, None)
  }

  /** Per key the validity intervals are non-empty, disjoint, ordered and contiguous, and only the last is open. */
  ghost predicate Timeline(rows: seq<PriceRow>, clock: int) {
    Bounded(rows, clock) && Disjoint(rows) && Contiguous(rows)
  }

  ghost predicate Bounded(rows: seq<PriceRow>, clock: int) {
    && (forall i :: 0 <= i < |rows| ==> rows[i].price > 0 && rows[i].from <= clock)
    && (forall i :: 0 <= i < |rows| && rows[i].to.Some? ==> rows[i].from < rows[i].to.value <= clock)
  }

  ghost predicate Disjoint(rows: seq<PriceRow>) {
    forall i, j :: 0 <= i < j < |rows| && rows[j].For(rows[i].service, rows[i].outlet) ==>
      rows[i].to.Some? && rows[i].to.value <= rows[j].from
  }

  ghost predicate Contiguous(rows: seq<PriceRow>) {
    forall i :: 0 <= i < |rows| && rows[i].to.Some? ==> HasSuccessor(rows, i)
  }

  ghost predicate HasSuccessor(rows: seq<PriceRow>, i: nat)
    requires i < |rows| && rows[i].to.Some?
  {
    exists j :: i < j < |rows| && rows[j].For(rows[i].service, rows[i].outlet) && rows[j].from == rows[i].to.value
  }

  /** The price the table assigns to time t by its intervals alone: the outlet's own, else the global one. */
  ghost predicate PriceAt(rows: seq<PriceRow>, s: ServiceId, o: Option<OutletId>, t: int, p: int) {
    || (o.Some? && CoveredAt(rows, s, o, t, p))
    || ((o.None? || !Covered(rows, s, o, t)) && CoveredAt(rows, s, None, t, p))
  }

  ghost predicate CoveredAt(rows: seq<PriceRow>, s: ServiceId, o: Option<OutletId>, t: int, p: int) {
    exists i :: 0 <= i < |rows| && rows[i].For(s, o) && rows[i].Covers(t) && rows[i].price == p
  }

  ghost predicate Covered(rows: seq<PriceRow>, s: ServiceId, o: Option<OutletId>, t: int) {
    exists i :: 0 <= i < |rows| && rows[i].For(s, o) && rows[i].Covers(t)
  }

  lemma AtMostOneOpen(rows: seq<PriceRow>, clock: int, i: nat, j: nat)
    requires Timeline(rows, clock) && i < |rows| && j < |rows|
    requires rows[i].to.None? && rows[j].OpenFor(rows[i].service, rows[i].outlet)
    ensures i == j
  {
  }

  lemma PriceAtUnique(rows: seq<PriceRow>, clock: int, s: ServiceId, o: Option<OutletId>, t: int, p: int, q: int)
    requires Timeline(rows, clock)
    requires PriceAt(rows, s, o, t, p) && PriceAt(rows, s, o, t, q)
    ensures p == q
  {
    forall k: Option<OutletId> | CoveredAt(rows, s, k, t, p) && CoveredAt(rows, s, k, t, q)
      ensures p == q
    {
      var i :| 0 <= i < |rows| && rows[i].For(s, k) && rows[i].Covers(t) && rows[i].price == p;
      var j :| 0 <= j < |rows| && rows[j].For(s, k) && rows[j].Covers(t) && rows[j].price == q;
    }
    if o.Some? && CoveredAt(rows, s, o, t, p) {
      assert Covered(rows, s, o, t);
    }
    if o.Some? && CoveredAt(rows, s, o, t, q) {
      assert Covered(rows, s, o, t);
    }
  }

  lemma PublishKeepsTimeline(rows: seq<PriceRow>, clock: int, s: ServiceId, o: Option<OutletId>, price: int, now: int)
    requires Timeline(rows, clock) && clock < now && price > 0
    ensures Timeline(PublishPrice(rows, s, o, price, now), now)
  {
    PublishKeepsDisjoint(rows, clock, s, o, price, now);
    PublishKeepsContiguous(rows, s, o, price, now);
  }

  lemma PublishKeepsDisjoint(rows: seq<PriceRow>, clock: int, s: ServiceId, o: Option<OutletId>, price: int, now: int)
    requires Bounded(rows, clock) && Disjoint(rows) && clock < now
    ensures Disjoint(PublishPrice(rows, s, o, price, now))
  {
    var next := PublishPrice(rows, s, o, price, now);
    forall i, j | 0 <= i < j < |next| && next[j].For(next[i].service, next[i].outlet)
      ensures next[i].to.Some? && next[i].to.value <= next[j].from
    {
      if j < |rows| {
        assert rows[j].For(rows[i].service, rows[i].outlet);
      }
    }
  }

  lemma PublishKeepsContiguous(rows: seq<PriceRow>, s: ServiceId, o: Option<OutletId>, price: int, now: int)
    requires Contiguous(rows)
    ensures Contiguous(PublishPrice(rows, s, o, price, now))
  {
    var next := PublishPrice(rows, s, o, price, now);
    forall i | 0 <= i < |next| && next[i].to.Some?
      ensures HasSuccessor(next, i)
    {
      if rows[i].to.Some? {
        assert HasSuccessor(rows, i);
        var j :| i < j < |rows| && rows[j].For(rows[i].service, rows[i].outlet) && rows[j].from == rows[i].to.value;
        assert next[j].For(next[i].service, next[i].outlet) && next[j].from == next[i].to.value;
      } else {
        assert next[|rows|].For(next[i].service, next[i].outlet) && next[|rows|].from == next[i].to.value;
      }
    }
  }

  /** What an earlier instant was charged never changes: publishing at `now` leaves every time before it alone. */
  lemma PublishKeepsPast(rows: seq<PriceRow>, s: ServiceId, o: Option<OutletId>, price: int, now: int,
                         s': ServiceId, o': Option<OutletId>, t: int, p: int)
    requires t < now
    ensures PriceAt(rows, s', o', t, p) <==> PriceAt(PublishPrice(rows, s, o, price, now), s', o', t, p)
  {
    var next := PublishPrice(rows, s, o, price, now);
    forall k: Option<OutletId>
      ensures CoveredAt(rows, s', k, t, p) <==> CoveredAt(next, s', k, t, p)
      ensures Covered(rows, s', k, t) <==> Covered(next, s', k, t)
    {
      assert forall i :: 0 <= i < |rows| ==>
        (next[i].For(s', k) <==> rows[i].For(s', k)) && (next[i].Covers(t) <==> rows[i].Covers(t))
           && next[i].price == rows[i].price;
      assert !next[|rows|].Covers(t);
      if CoveredAt(rows, s', k, t, p) {
        var i :| 0 <= i < |rows| && rows[i].For(s', k) && rows[i].Covers(t) && rows[i].price == p;
        assert next[i].For(s', k) && next[i].Covers(t);
      }
      if Covered(rows, s', k, t) {
        var i :| 0 <= i < |rows| && rows[i].For(s', k) && rows[i].Covers(t);
        assert next[i].For(s', k) && next[i].Covers(t);
      }
    }
  }

  /** The lookup CreateOrder makes agrees with the intervals. */
  lemma ActivePriceIsPriceNow(rows: seq<PriceRow>, clock: int, s: ServiceId, o: Option<OutletId>, now: int)
    requires Timeline(rows, clock) && clock < now
    ensures ActivePrice(rows, s, o).Some? ==>
      ActivePrice(rows, s, o).value > 0 && PriceAt(rows, s, o, now, ActivePrice(rows, s, o).value)
    ensures ActivePrice(rows, s, o).None? ==> forall p :: !PriceAt(rows, s, o, now, p)
  {
    assert forall i :: 0 <= i < |rows| ==> (rows[i].Covers(now) <==> rows[i].to.None?);
  }

  datatype PricingRequest = PricingRequest(service: ServiceId, outlet: Option<OutletId>, price: int, at: int)

  /** The requests run one after the other, each at its own time. */
  function PublishAll(rows: seq<PriceRow>, reqs: seq<PricingRequest>): seq<PriceRow>
    decreases |reqs|
  {
    if reqs == [] then rows
    else PublishAll(PublishPrice(rows, reqs[0].service, reqs[0].outlet, reqs[0].price, reqs[0].at), reqs[1..])
  }

  ghost predicate StrictlyAfter(clock: int, reqs: seq<PricingRequest>) {
    && (forall i :: 0 <= i < |reqs| ==> clock < reqs[i].at && reqs[i].price > 0)
    && (forall i, j :: 0 <= i < j < |reqs| ==> reqs[i].at < reqs[j].at)
  }

  /** Any run of accepted CreatePricing calls keeps the timeline, and the price an order took at time t stays
      the only price covering t in every later table. */
  lemma {:induction false} PriceHistoryStable(rows: seq<PriceRow>, clock: int, reqs: seq<PricingRequest>,
                                              s: ServiceId, o: Option<OutletId>, t: int)
    requires Timeline(rows, clock) && StrictlyAfter(clock, reqs)
    requires clock < t && forall i :: 0 <= i < |reqs| ==> t < reqs[i].at
    requires ActivePrice(rows, s, o).Some?
    ensures Timeline(PublishAll(rows, reqs), if reqs == [] then clock else reqs[|reqs| - 1].at)
    ensures forall p :: PriceAt(PublishAll(rows, reqs), s, o, t, p) <==> p == ActivePrice(rows, s, o).value
  {
    var price := ActivePrice(rows, s, o).value;
    ActivePriceIsPriceNow(rows, clock, s, o, t);
    forall p | PriceAt(rows, s, o, t, p)
      ensures p == price
    {
      PriceAtUnique(rows, clock, s, o, t, p, price);
    }
    PublishAllKeepsPast(rows, clock, reqs, s, o, t);
  }

  lemma {:induction false} PublishAllKeepsPast(rows: seq<PriceRow>, clock: int, reqs: seq<PricingRequest>,
                                               s: ServiceId, o: Option<OutletId>, t: int)
    requires Timeline(rows, clock) && StrictlyAfter(clock, reqs)
    requires forall i :: 0 <= i < |reqs| ==> t < reqs[i].at
    ensures Timeline(PublishAll(rows, reqs), if reqs == [] then clock else reqs[|reqs| - 1].at)
    ensures forall p :: PriceAt(PublishAll(rows, reqs), s, o, t, p) <==> PriceAt(rows, s, o, t, p)
    decreases |reqs|
  {
    if reqs != [] {
      var r := reqs[0];
      var next := PublishPrice(rows, r.service, r.outlet, r.price, r.at);
      PublishKeepsTimeline(rows, clock, r.service, r.outlet, r.price, r.at);
      forall p
        ensures PriceAt(next, s, o, t, p) <==> PriceAt(rows, s, o, t, p)
      {
        PublishKeepsPast(rows, r.service, r.outlet, r.price, r.at, s, o, t, p);
      }
      PublishAllKeepsPast(next, r.at, reqs[1..], s, o, t);
    }
  }

  /** Publishing replaces what the table says about the key from now on, and nothing else: not about an earlier time,
      and not about another service or outlet. */
  lemma PublishSetsPriceFromNow(rows: seq<PriceRow>, clock: int, s: ServiceId, o: Option<OutletId>, price: int,
                                now: int, s': ServiceId, o': Option<OutletId>, t: int, p: int)
    requires Bounded(rows, clock) && clock < now
    ensures
      CoveredAt(PublishPrice(rows, s, o, price, now), s', o', t, p) <==>
      if s' == s && o' == o && now <= t then p == price else CoveredAt(rows, s', o', t, p)
  {
    var next := PublishPrice(rows, s, o, price, now);
    assert forall i :: 0 <= i < |rows| ==>
      && next[i].For(s', o') == rows[i].For(s', o') && next[i].price == rows[i].price
      && next[i].Covers(t) == (rows[i].Covers(t) && !(rows[i].OpenFor(s, o) && now <= t));
    if CoveredAt(rows, s', o', t, p) && !(s' == s && o' == o && now <= t) {
      var i :| 0 <= i < |rows| && rows[i].For(s', o') && rows[i].Covers(t) && rows[i].price == p;
      assert next[i].For(s', o') && next[i].Covers(t) && next[i].price == p;
    }
    if s' == s && o' == o && now <= t && p == price {
      assert next[|rows|].For(s', o') && next[|rows|].Covers(t) && next[|rows|].price == p;
    }
  }

  /** A row of tax_rates; the rate is a percentage. */
  datatype TaxRow = TaxRow(rate: real, from: int, to: Option<int>)
  {
    predicate Covers(t: int) {
      from <= t && (to.Some? ==> t < to.value)
    }
  }

  /** The rate the table assigns to time t by its intervals alone. */
  ghost predicate TaxAt(rows: seq<TaxRow>, t: int, rate: real) {
    exists i :: 0 <= i < |rows| && rows[i].Covers(t) && rows[i].rate == rate
  }

  function CloseTax(rows: seq<TaxRow>, now: int): seq<TaxRow> {
    seq(|rows|, i requires 0 <= i < |rows| => if rows[i].to.None? then rows[i].(to := Some(now)) else rows[i])
  }

  function PublishTax(rows: seq<TaxRow>, rate: real, now: int): seq<TaxRow> {
    CloseTax(rows, now) + [TaxRow(rate, now, None)]
  }

  /** activeTaxRateValue: the first row without an end. */
  function ActiveTax(rows: seq<TaxRow>): (r: Option<real>)
    ensures r.Some? ==> exists i :: 0 <= i < |rows| && rows[i].to.None? && rows[i].rate == r.value
    ensures r.None? <==> forall i :: 0 <= i < |rows| ==> rows[i].to.Some?
  {
    if rows == [] then None
    else if rows[0].to.None? then Some(rows[0].rate)
    else
      var rest := ActiveTax(rows[1..]);
      assert forall i :: 0 < i < |rows| ==> rows[i] == rows[1..][i - 1];
      rest
  }

  /** The tax rows form one chain of intervals whose last, and only the last, is open. */
  ghost predicate TaxTimeline(rows: seq<TaxRow>, clock: int) {
    && |rows| > 0
    && rows[|rows| - 1].to.None?
    && (forall i :: 0 <= i < |rows| ==> 0.0 <= rows[i].rate <= 100.0 && rows[i].from <= clock)
    && (forall i :: 0 <= i < |rows| - 1 ==> rows[i].to == Some(rows[i + 1].from) && rows[i].from < rows[i + 1].from)
  }

  lemma PublishKeepsTax(rows: seq<TaxRow>, clock: int, rate: real, now: int)
    requires TaxTimeline(rows, clock) && clock < now && 0.0 <= rate <= 100.0
    ensures TaxTimeline(PublishTax(rows, rate, now), now)
    ensures ActiveTax(PublishTax(rows, rate, now)) == Some(rate)
  {
    var next := PublishTax(rows, rate, now);
    assert forall i :: 0 <= i < |next| && next[i].to.None? ==> i == |rows|;
    assert next[|rows|].to.None?;
  }

  lemma TaxAlwaysActive(rows: seq<TaxRow>, clock: int)
    requires TaxTimeline(rows, clock)
    ensures ActiveTax(rows) == Some(rows[|rows| - 1].rate)
  {
    assert rows[|rows| - 1].to.None?;
  }

  /** From the first row on, the intervals of a chain lie in order. */
  lemma {:induction false} TaxIntervalsAscend(rows: seq<TaxRow>, clock: int, i: nat, j: nat)
    requires TaxTimeline(rows, clock) && i < j < |rows|
    ensures rows[i].to.Some? && rows[i].to.value <= rows[j].from
    decreases j
  {
    assert rows[j - 1].to == Some(rows[j].from) && rows[j - 1].from < rows[j].from;
    if i < j - 1 {
      TaxIntervalsAscend(rows, clock, i, j - 1);
    }
  }

  lemma {:induction false} TaxAtUnique(rows: seq<TaxRow>, clock: int, t: int, r: real, q: real)
    requires TaxTimeline(rows, clock) && TaxAt(rows, t, r) && TaxAt(rows, t, q)
    ensures r == q
  {
    var i :| 0 <= i < |rows| && rows[i].Covers(t) && rows[i].rate == r;
    var j :| 0 <= j < |rows| && rows[j].Covers(t) && rows[j].rate == q;
    if i < j {
      TaxIntervalsAscend(rows, clock, i, j);
    } else if j < i {
      TaxIntervalsAscend(rows, clock, j, i);
    }
  }

  /** The lookup FinalizeWeighing makes agrees with the intervals. */
  lemma ActiveTaxIsTaxNow(rows: seq<TaxRow>, clock: int, now: int, rate: real)
    requires TaxTimeline(rows, clock) && clock < now
    ensures TaxAt(rows, now, rate) <==> ActiveTax(rows) == Some(rate)
  {
    TaxAlwaysActive(rows, clock);
    assert rows[|rows| - 1].Covers(now);
    assert TaxAt(rows, now, rows[|rows| - 1].rate);
    if TaxAt(rows, now, rate) {
      TaxAtUnique(rows, clock, now, rate, rows[|rows| - 1].rate);
    }
  }

  /** Setting a rate replaces what the table says from now on, and nothing about an earlier time. */
  lemma PublishSetsTaxFromNow(rows: seq<TaxRow>, clock: int, rate: real, now: int, t: int, r: real)
    requires TaxTimeline(rows, clock) && clock < now
    ensures TaxAt(PublishTax(rows, rate, now), t, r) <==> if now <= t then r == rate else TaxAt(rows, t, r)
  {
    var next := PublishTax(rows, rate, now);
    forall i | 0 <= i < |rows| - 1
      ensures next[i] == rows[i] && rows[i].to.Some? && rows[i].to.value <= clock
    {
      assert rows[i].to == Some(rows[i + 1].from);
    }
    assert next[|rows| - 1].Covers(t) == (rows[|rows| - 1].Covers(t) && t < now);
    if now <= t && r == rate {
      assert next[|rows|].Covers(t) && next[|rows|].rate == r;
    }
    if t < now && TaxAt(rows, t, r) {
      var i :| 0 <= i < |rows| && rows[i].Covers(t) && rows[i].rate == r;
      assert next[i].Covers(t) && next[i].rate == r;
    }
  }
}
