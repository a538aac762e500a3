/** POST /payments behind the idempotency middleware. */
module IdempotentPayments {
  import opened Wrappers
  import opened OrderState
  import opened Events
  import opened Idempotency
  import Pay = PaymentDb

  /** How the transaction of a call ends, if it gets that far: it commits, it fails and is rolled back, or it commits
      and the handler is told that it failed. */
  datatype Fate = Commits | RollsBack | CommitsUnheard

  /** A POST /payments call with everything its handler meets: the time, Core's answer, the gateway, the new id and the
      fate of its transaction. */
  datatype Request = Request(body: Pay.PaymentRequest, at: int, view: Option<Pay.OrderView>, gatewayUp: bool,
                             id: PaymentId, fate: Fate)

  function StatusCode(r: Pay.Reply): int {
    match r
    case Accepted => 201
    case Validation => 422
    case DependencyUnavailable => 503
    case InvalidOrderState => 409
    case AlreadyPaid => 409
    case AmountMismatch => 409
    case GatewayUnavailable => 503
    case NotFound => 404
    case NotAGatewayPayment => 409
    case InvalidState => 409
    case NotEligible => 409
    case Internal => 500
  }

  function Attempted(db: Pay.Db, q: Request): Pay.Outcome {
    var outcome := Pay.CreatePayment(db, q.at, q.body, q.view, q.gatewayUp, q.id);
    if Pay.Refusal(q.body, q.view, q.gatewayUp).Some? then outcome
    else
      match q.fate
      case Commits => outcome
      case RollsBack => Pay.Outcome(db, Pay.Internal)
      case CommitsUnheard => if outcome.reply == Pay.Accepted then Pay.Outcome(outcome.db, Pay.Internal) else outcome
  }

  function Answer(render: Pay.Reply -> seq<Byte>, db: Pay.Db, q: Request): (Pay.Db, Written) {
    var outcome := Attempted(db, q);
    (outcome.db, Written(Some(StatusCode(outcome.reply)), [render(outcome.reply)]))
  }

  function Handle(render: Pay.Reply -> seq<Byte>): Handler<Pay.Db, Request> {
    (db: Pay.Db, q: Request) => Answer(render, db, q)
  }

  ghost predicate SameScope(calls: seq<Call<Request>>, scope: Scope) {
    forall i :: 0 <= i < |calls| ==> calls[i].scope == scope
  }

  /** The calls whose commit was not heard of. */
  function Unheard(calls: seq<Call<Request>>): nat {
    if calls == [] then 0
    else Unheard(calls[..|calls| - 1]) + if calls[|calls| - 1].request.fate == CommitsUnheard then 1 else 0
  }

  /** A call adds at most one payment, and only with a 201, or when its commit is not heard of. */
  lemma HandleCommits(render: Pay.Reply -> seq<Byte>, db: Pay.Db, q: Request)
    ensures
      var r := Handle(render)(db, q);
      || r.0 == db
      || (q.id !in db.payments && r.0.payments.Keys == db.payments.Keys + {q.id} && |r.0.payments| == |db.payments| + 1
          && (StatusOf(r.1) == 201 || q.fate == CommitsUnheard))
  {
    CreateAddsOne(db, q);
    hide Pay.CreatePayment, Pay.Refusal;
  }

  lemma CreateAddsOne(db: Pay.Db, q: Request)
    ensures
      var outcome := Pay.CreatePayment(db, q.at, q.body, q.view, q.gatewayUp, q.id);
      if outcome.reply == Pay.Accepted then
        && q.id !in db.payments && outcome.db.payments.Keys == db.payments.Keys + {q.id}
        && |outcome.db.payments| == |db.payments| + 1
      else outcome.db == db
  {
    if !Pay.Refusal(q.body, q.view, q.gatewayUp).Some? && q.id !in db.payments {
      InsertAddsOne(db, q, if q.body.via.value == Pay.Cash then Paid else Pending);
      hide Pay.InsertPayment, Pay.UniquePaid, Pay.Refusal;
    }
  }

  lemma InsertAddsOne(db: Pay.Db, q: Request, status: PayStatus)
    requires q.id !in db.payments && q.body.order.Some? && q.body.via.Some?
    ensures
      var db' := Pay.InsertPayment(db, q.at, q.id, q.body.order.value, q.body.amount, q.body.via.value, status);
      db'.payments.Keys == db.payments.Keys + {q.id} && |db'.payments| == |db.payments| + 1
  {
    var db' := Pay.InsertPayment(db, q.at, q.id, q.body.order.value, q.body.amount, q.body.via.value, status);
    assert db'.payments == db.payments[q.id := db'.payments[q.id]];
    hide Pay.InsertPayment;
    SizeAfterInsert(db.payments, q.id, db'.payments[q.id]);
  }

  lemma SizeAfterInsert(payments: map<PaymentId, Pay.Payment>, id: PaymentId, p: Pay.Payment)
    requires id !in payments
    ensures payments[id := p].Keys == payments.Keys + {id} && |payments[id := p]| == |payments| + 1
  {
    assert |payments[id := p]| == |payments[id := p].Keys| && |payments| == |payments.Keys|;
  }

  /** However often a client retries a payment under one key - whatever the bodies, answers of Core, gateway failures
      and transactions rolled back in between - at most one payment is committed, and one more for each commit that was
      not heard of. */
  lemma {:induction false} OnePaymentPerKey(db: Pay.Db, calls: seq<Call<Request>>, scope: Scope,
                                            hash: Request -> string, render: Pay.Reply -> seq<Byte>)
    requires AllDurable(calls) && SameScope(calls, scope)
    ensures
      var end := Run(Guarded(db, map[]), calls, hash, Handle(render));
      && |end.state.payments| <= |db.payments| + Unheard(calls) + (if scope in end.ledger then 1 else 0)
      && (Unheard(calls) == 0 ==>
            && (scope !in end.ledger ==> end.state == db)
            && (end.state == db
                || exists id :: id !in db.payments && end.state.payments.Keys == db.payments.Keys + {id}))
  {
    hide Handle;
    if calls != [] {
      var front, last := calls[..|calls| - 1], calls[|calls| - 1];
      OnePaymentPerKey(db, front, scope, hash, render);
      var before := Run(Guarded(db, map[]), front, hash, Handle(render));
      if scope !in before.ledger {
        HandleCommits(render, before.state, last.request);
      }
    }
  }

  // ---------------------------------------------------------------- exactly when there is a second payment

  function StateAfter(db: Pay.Db, calls: seq<Call<Request>>, hash: Request -> string, render: Pay.Reply -> seq<Byte>)
    : Pay.Db
  {
    Run(Guarded(db, map[]), calls, hash, Handle(render)).state
  }

  /** Call i commits a payment. */
  predicate Adds(db: Pay.Db, calls: seq<Call<Request>>, i: nat, hash: Request -> string, render: Pay.Reply -> seq<Byte>)
    requires i < |calls|
  {
    StateAfter(db, calls[..i + 1], hash, render) != StateAfter(db, calls[..i], hash, render)
  }

  /** What a call does to Payment's tables: nothing, or what its handler does. */
  lemma CallServes(db: Pay.Db, calls: seq<Call<Request>>, i: nat, hash: Request -> string,
                   render: Pay.Reply -> seq<Byte>)
    requires i < |calls|
    ensures
      var before, after := StateAfter(db, calls[..i], hash, render), StateAfter(db, calls[..i + 1], hash, render);
      after == before || after == Attempted(before, calls[i].request).db
  {
    assert calls[..i + 1][..i] == calls[..i];
    hide Attempted;
  }

  /** Once a call of the key has added a payment and was heard of, no later call of the key adds one. */
  lemma {:induction false} HeardOfIsFinal(db: Pay.Db, calls: seq<Call<Request>>, i: nat, j: nat,
                                          hash: Request -> string, render: Pay.Reply -> seq<Byte>)
    requires AllDurable(calls) && i < j < |calls| && calls[i].scope == calls[j].scope
    requires Adds(db, calls, i, hash, render) && calls[i].request.fate != CommitsUnheard
    ensures !Adds(db, calls, j, hash, render)
  {
    hide Handle;
    var start, scope := Guarded(db, map[]), calls[i].scope;
    var before, after := Run(start, calls[..i], hash, Handle(render)), Run(start, calls[..i + 1], hash, Handle(render));
    assert calls[..i + 1][..i] == calls[..i] && calls[..j + 1][..j] == calls[..j];
    HandleCommits(render, before.state, calls[i].request);
    assert scope in after.ledger;
    assert calls[..j] == calls[..i + 1] + calls[i + 1..j];
    RunSplits(start, calls[..i + 1], calls[i + 1..j], hash, Handle(render));
    LedgerOnlyGrows(after, calls[i + 1..j], scope, hash, Handle(render));
  }

  /** However the calls under one key end, they commit at most one payment exactly when none adds a payment after one
      whose commit was not heard of. */
  lemma {:induction false} OnePaymentExactlyWhen(db: Pay.Db, calls: seq<Call<Request>>, scope: Scope,
                                                 hash: Request -> string, render: Pay.Reply -> seq<Byte>)
    requires AllDurable(calls) && SameScope(calls, scope)
    ensures
      (forall i, j :: 0 <= i < j < |calls| ==>
         !(Adds(db, calls, i, hash, render) && Adds(db, calls, j, hash, render))) <==>
      (forall i, j ::
         0 <= i < j < |calls| && Adds(db, calls, i, hash, render) && calls[i].request.fate == CommitsUnheard ==>
         !Adds(db, calls, j, hash, render))
  {
    hide Adds;
    forall i, j |
        0 <= i < j < |calls| && Adds(db, calls, i, hash, render) && calls[i].request.fate != CommitsUnheard
      ensures !Adds(db, calls, j, hash, render)
    {
      HeardOfIsFinal(db, calls, i, j, hash, render);
    }
  }

  /** After an accepted payment, whether or not its client heard of it, a retry with the same body that passes the
      checks is accepted exactly when the method is not cash: the index refuses a second paid row, not a second pending
      one. */
  lemma {:induction false} RetryIsAcceptedIff(db: Pay.Db, q: Request, retry: Request)
    requires Pay.UniquePaid(db.payments)
      && Pay.CreatePayment(db, q.at, q.body, q.view, q.gatewayUp, q.id).reply == Pay.Accepted
    requires retry.body == q.body && Pay.Refusal(retry.body, retry.view, retry.gatewayUp).None?
    requires retry.id !in Pay.CreatePayment(db, q.at, q.body, q.view, q.gatewayUp, q.id).db.payments
    ensures
      var after := Pay.CreatePayment(db, q.at, q.body, q.view, q.gatewayUp, q.id).db;
      var again := Pay.CreatePayment(after, retry.at, retry.body, retry.view, retry.gatewayUp, retry.id);
      if q.body.via == Some(Pay.Cash) then again == Pay.Outcome(after, Pay.AlreadyPaid) else again.reply == Pay.Accepted
  {
    var status := if q.body.via.value == Pay.Cash then Paid else Pending;
    var row := Pay.InsertPayment(db, q.at, q.id, q.body.order.value, q.body.amount, q.body.via.value,
      status).payments[q.id];
    var after := Pay.CreatePayment(db, q.at, q.body, q.view, q.gatewayUp, q.id).db;
    assert after.payments == db.payments[q.id := row];
    SecondRow(after.payments, q.id, retry.id, row);
    hide Pay.UniquePaid, Pay.Refusal;
  }

  /** A second row like an existing one violates the index exactly when it is Paid. */
  lemma SecondRow(payments: map<PaymentId, Pay.Payment>, id: PaymentId, other: PaymentId, row: Pay.Payment)
    requires Pay.UniquePaid(payments) && id in payments && payments[id] == row && other !in payments
    ensures Pay.UniquePaid(payments[other := row]) <==> row.status != Paid
  {
    var both := payments[other := row];
    if row.status == Paid {
      assert both[id].status == Paid && both[other].status == Paid && both[id].order == both[other].order;
    }
  }

  /** Whatever the keys, the bodies and the fates of the calls, recorded or not, no order has two Paid payments. */
  lemma {:induction false} NoOrderPaidTwice(db: Pay.Db, calls: seq<Call<Request>>, hash: Request -> string,
                                            render: Pay.Reply -> seq<Byte>)
    requires Pay.UniquePaid(db.payments)
    ensures Pay.UniquePaid(StateAfter(db, calls, hash, render).payments)
  {
    hide Pay.UniquePaid, Attempted;
    if calls != [] {
      var n := |calls| - 1;
      NoOrderPaidTwice(db, calls[..n], hash, render);
      CallServes(db, calls, n, hash, render);
      assert calls[..n + 1] == calls;
      AttemptKeepsUnique(StateAfter(db, calls[..n], hash, render), calls[n].request);
    }
  }

  lemma AttemptKeepsUnique(db: Pay.Db, q: Request)
    requires Pay.UniquePaid(db.payments)
    ensures Pay.UniquePaid(Attempted(db, q).db.payments)
  {
    hide Pay.UniquePaid, Pay.InsertPayment;
  }

  /** So when every call asks for the same payment in cash, at most one of them adds a payment, however they end, under
      any keys, recorded or not. */
  lemma {:induction false} CashIsTakenOnce(db: Pay.Db, calls: seq<Call<Request>>, body: Pay.PaymentRequest, i: nat,
                                           j: nat, hash: Request -> string, render: Pay.Reply -> seq<Byte>)
    requires Pay.UniquePaid(db.payments) && body.via == Some(Pay.Cash) && body.order.Some?
    requires forall k :: 0 <= k < |calls| ==> calls[k].request.body == body
    requires i < j < |calls| && Adds(db, calls, i, hash, render)
    ensures !Adds(db, calls, j, hash, render)
  {
    var before, after := StateAfter(db, calls[..j], hash, render), StateAfter(db, calls[..i + 1], hash, render);
    CallServes(db, calls, i, hash, render);
    AddedCashIsPaid(StateAfter(db, calls[..i], hash, render), calls[i].request);
    assert PaidFor(after, body.order.value);
    StaysPaid(db, calls, i + 1, j, body.order.value, hash, render);
    NoOrderPaidTwice(db, calls[..j], hash, render);
    CallServes(db, calls, j, hash, render);
    PaidIsRefused(before, calls[j].request);
  }

  predicate PaidFor(db: Pay.Db, order: OrderId) {
    exists p :: p in db.payments && db.payments[p].order == order && db.payments[p].status == Paid
  }

  lemma AddedCashIsPaid(db: Pay.Db, q: Request)
    requires q.body.via == Some(Pay.Cash) && q.body.order.Some? && Attempted(db, q).db != db
    ensures PaidFor(Attempted(db, q).db, q.body.order.value)
  {
    hide Pay.UniquePaid;
    assert q.id in Attempted(db, q).db.payments;
  }

  lemma PaidIsRefused(db: Pay.Db, q: Request)
    requires Pay.UniquePaid(db.payments) && q.body.via == Some(Pay.Cash) && q.body.order.Some?
      && PaidFor(db, q.body.order.value)
    ensures Attempted(db, q).db == db
  {
    if Pay.Refusal(q.body, q.view, q.gatewayUp).None? && q.id !in db.payments {
      var p :| p in db.payments && db.payments[p].order == q.body.order.value && db.payments[p].status == Paid;
      var both := Pay.InsertPayment(db, q.at, q.id, q.body.order.value, q.body.amount, q.body.via.value, Paid).payments;
      assert both[p].status == Paid && both[q.id].status == Paid && both[p].order == both[q.id].order && p != q.id;
      assert !Pay.UniquePaid(both);
    }
    hide Pay.UniquePaid;
  }

  lemma {:induction false} StaysPaid(db: Pay.Db, calls: seq<Call<Request>>, i: nat, j: nat, order: OrderId,
                                     hash: Request -> string, render: Pay.Reply -> seq<Byte>)
    requires i <= j <= |calls| && PaidFor(StateAfter(db, calls[..i], hash, render), order)
    ensures PaidFor(StateAfter(db, calls[..j], hash, render), order)
    decreases j
  {
    if i < j {
      StaysPaid(db, calls, i, j - 1, order, hash, render);
      CallServes(db, calls, j - 1, hash, render);
      AttemptKeepsPaid(StateAfter(db, calls[..j - 1], hash, render), calls[j - 1].request, order);
      hide PaidFor, Attempted;
    }
  }

  lemma AttemptKeepsPaid(db: Pay.Db, q: Request, order: OrderId)
    requires PaidFor(db, order)
    ensures PaidFor(Attempted(db, q).db, order)
  {
    hide Pay.UniquePaid;
    var p :| p in db.payments && db.payments[p].order == order && db.payments[p].status == Paid;
    assert p in Attempted(db, q).db.payments && Attempted(db, q).db.payments[p] == db.payments[p];
  }

  /** Without cash there can be a second payment: a commit that is not heard of is answered 500 and not recorded, and
      the retry adds a second pending payment for the order. */
  lemma UnheardCommitAddsSecondPending(order: OrderId, amount: int, via: Pay.Method, key: string,
                                       hash: Request -> string, render: Pay.Reply -> seq<Byte>)
      returns (calls: seq<Call<Request>>)
    requires amount > 0 && key != "" && via != Pay.Cash
    ensures AllDurable(calls) && |calls| == 2 && Unheard(calls) == 1
      && SameScope(calls, Scope(key, "POST /api/v1/payments"))
    ensures
      var row := Pay.Payment(order, amount, via, Pay.Dummy, Pending);
      StateAfter(Pay.Db(map[], [], map[], []), calls, hash, render).payments == map[0 := row, 1 := row]
  {
    var body, view := Pay.PaymentRequest(Some(order), amount, Some(via)),
      Some(Pay.OrderView(order, Weighing, Unpaid, Some(amount)));
    var first, second := Request(body, 1, view, true, 0, CommitsUnheard), Request(body, 2, view, true, 1, Commits);
    var scope := Scope(key, "POST /api/v1/payments");
    calls := [Call(scope, first, true, true, true), Call(scope, second, true, true, true)];
    var one := [calls[0]];
    assert calls[..1] == one && one[..0] == [];
    assert Unheard(one) == 1;
    var empty, row := Pay.Db(map[], [], map[], []), Pay.Payment(order, amount, via, Pay.Dummy, Pending);
    var g := Run(Guarded(empty, map[]), one, hash, Handle(render));
    assert Run(Guarded(empty, map[]), one[..0], hash, Handle(render)) == Guarded(empty, map[]);
    assert g == Serve(Guarded(empty, map[]), calls[0], hash, Handle(render)).0;
    assert g == Guarded(Attempted(empty, first).db, map[]);
    assert g.state.payments == map[0 := row];
    assert Attempted(g.state, second).db.payments == map[0 := row, 1 := row];
  }
}
