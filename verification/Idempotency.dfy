/** The Idempotency-Key ledger around a handler. The handler is a parameter: from its state and a request it computes
    its new state and what it writes to the response. */
module Idempotency {
  import opened Wrappers

  type Byte = b: int | 0 <= b < 256

  /** What a handler does to its ResponseWriter: an optional WriteHeader and any number of Writes. */
  datatype Written = Written(header: Option<int>, chunks: seq<seq<Byte>>)

  datatype Entry = Entry(hash: string, status: int, body: seq<Byte>)
  datatype Scope = Scope(key: string, endpoint: string)

  /** A request under an idempotency key. `readable` says whether its body could be read, `reachable` whether the ledger
      could, and `durable` whether the ledger insert after the handler reaches the database. */
  datatype Call<Q> = Call(scope: Scope, request: Q, readable: bool, reachable: bool, durable: bool)

  datatype Reply =
    | KeyRequired
    | MalformedRequest
    | LedgerUnavailable
    | KeyReused
    | Replayed(status: int, body: seq<Byte>)
    | Fresh(status: int, body: seq<Byte>)

  datatype Guarded<S> = Guarded(state: S, ledger: map<Scope, Entry>)

  type Handler<!S, !Q> = (S, Q) -> (S, Written)

  function Flatten(chunks: seq<seq<Byte>>): seq<Byte> {
    if chunks == [] then [] else Flatten(chunks[..|chunks| - 1]) + chunks[|chunks| - 1]
  }

  /** net/http answers 200 when the handler never calls WriteHeader. */
  function StatusOf(w: Written): int {
    if w.header.Some? then w.header.value else 200
  }

  function Serve<S, Q>(g: Guarded<S>, c: Call<Q>, hash: Q -> string, handle: Handler<S, Q>): (Guarded<S>, Reply) {
    if c.scope.key == "" then (g, KeyRequired)
    else if !c.readable then (g, MalformedRequest)
    else if !c.reachable then (g, LedgerUnavailable)
    else if c.scope in g.ledger then
      var e := g.ledger[c.scope];
      (g, if e.hash != hash(c.request) then KeyReused else Replayed(e.status, e.body))
    else
      var (s, w) := handle(g.state, c.request);
      var status, body := StatusOf(w), Flatten(w.chunks);
      (Guarded(s, if status < 500 && c.durable then g.ledger[c.scope := Entry(hash(c.request), status, body)]
         else g.ledger),
       Fresh(status, body))
  }

  /** What one call gets. Without a key, a readable body or a reachable ledger it is turned away; a known key replays
      what is recorded, or is a conflict when it was recorded for another body; and an unknown one runs the handler,
      answers what it wrote, and records that unless it is a server error or the write is lost. Only the last of these
      has an effect. */
  ghost predicate Answers<S, Q>(g: Guarded<S>, g': Guarded<S>, c: Call<Q>, reply: Reply, hash: Q -> string,
                                handle: Handler<S, Q>)
  {
    var served := c.scope.key != "" && c.readable && c.reachable;
    var known := served && c.scope in g.ledger;
    && (reply == KeyRequired <==> c.scope.key == "")
    && (reply == MalformedRequest <==> c.scope.key != "" && !c.readable)
    && (reply == LedgerUnavailable <==> c.scope.key != "" && c.readable && !c.reachable)
    && (reply == KeyReused <==> known && g.ledger[c.scope].hash != hash(c.request))
    && (reply.Replayed? <==> known && g.ledger[c.scope].hash == hash(c.request))
    && (reply.Replayed? ==> reply.status == g.ledger[c.scope].status && reply.body == g.ledger[c.scope].body)
    && (reply.Fresh? <==> served && !known)
    && if !reply.Fresh? then g' == g
       else
         var (after, written) := handle(g.state, c.request);
         && reply.status == (if written.header.Some? then written.header.value else 200)
         && reply.body == Flatten(written.chunks) && g'.state == after
         && if reply.status < 500 && c.durable
            then g'.ledger == g.ledger[c.scope := Entry(hash(c.request), reply.status, reply.body)]
            else g'.ledger == g.ledger
  }

  lemma {:induction false} ServeAnswers<S, Q>(g: Guarded<S>, c: Call<Q>, hash: Q -> string, handle: Handler<S, Q>)
    ensures Answers(g, Serve(g, c, hash, handle).0, c, Serve(g, c, hash, handle).1, hash, handle)
  {
    hide Flatten;
  }

  function Run<S, Q>(g: Guarded<S>, calls: seq<Call<Q>>, hash: Q -> string, handle: Handler<S, Q>): Guarded<S> {
    if calls == [] then g
    else Serve(Run(g, calls[..|calls| - 1], hash, handle), calls[|calls| - 1], hash, handle).0
  }

  /** The reply to call i of a serial run. */
  function ReplyTo<S, Q>(g: Guarded<S>, calls: seq<Call<Q>>, i: nat, hash: Q -> string, handle: Handler<S, Q>): Reply
    requires i < |calls|
  {
    Serve(Run(g, calls[..i], hash, handle), calls[i], hash, handle).1
  }

  ghost predicate AllDurable<Q>(calls: seq<Call<Q>>) {
    forall i :: 0 <= i < |calls| ==> calls[i].durable
  }

  /** Call i ran the handler, and it did not fail with a server error. */
  predicate Settles<S, Q>(g: Guarded<S>, calls: seq<Call<Q>>, i: nat, hash: Q -> string, handle: Handler<S, Q>)
    requires i < |calls|
  {
    var r := ReplyTo(g, calls, i, hash, handle); r.Fresh? && r.status < 500
  }

  lemma {:induction false} LedgerOnlyGrows<S, Q>(g: Guarded<S>, calls: seq<Call<Q>>, scope: Scope, hash: Q -> string,
                                                 handle: Handler<S, Q>)
    requires scope in g.ledger
    ensures scope in Run(g, calls, hash, handle).ledger && Run(g, calls, hash, handle).ledger[scope] == g.ledger[scope]
  {
    if calls != [] {
      LedgerOnlyGrows(g, calls[..|calls| - 1], scope, hash, handle);
    }
  }

  lemma {:induction false} RunSplits<S, Q>(g: Guarded<S>, a: seq<Call<Q>>, b: seq<Call<Q>>, hash: Q -> string,
                                           handle: Handler<S, Q>)
    ensures Run(g, a + b, hash, handle) == Run(Run(g, a, hash, handle), b, hash, handle)
    decreases |b|
  {
    if b == [] {
      assert a + b == a;
    } else {
      var n := |b| - 1;
      assert (a + b)[..|a + b| - 1] == a + b[..n];
      RunSplits(g, a, b[..n], hash, handle);
    }
  }

  /** Once a call has settled a key, every later call under it that can be read gets the same status and bytes when its
      body has the same hash and a conflict when it does not, and no later call runs the handler again. */
  lemma SettledKeysReplay<S, Q>(g: Guarded<S>, calls: seq<Call<Q>>, i: nat, j: nat, hash: Q -> string,
                                handle: Handler<S, Q>)
    requires AllDurable(calls) && i < j < |calls| && calls[j].scope == calls[i].scope
    requires Settles(g, calls, i, hash, handle)
    ensures
      var first := ReplyTo(g, calls, i, hash, handle);
      ReplyTo(g, calls, j, hash, handle) ==
        if !calls[j].readable then MalformedRequest
        else if !calls[j].reachable then LedgerUnavailable
        else if hash(calls[j].request) == hash(calls[i].request) then Replayed(first.status, first.body) else KeyReused
    ensures Run(g, calls[..j + 1], hash, handle) == Run(g, calls[..j], hash, handle)
  {
    var after := Run(g, calls[..i + 1], hash, handle);
    assert calls[..i + 1][..i] == calls[..i];
    assert calls[i].scope in after.ledger;
    assert calls[..j] == calls[..i + 1] + calls[i + 1..j];
    RunSplits(g, calls[..i + 1], calls[i + 1..j], hash, handle);
    LedgerOnlyGrows(after, calls[i + 1..j], calls[i].scope, hash, handle);
    assert calls[..j + 1][..j] == calls[..j];
  }

  /** So under one key and endpoint the handler settles at most once in a serial run. */
  lemma SettlesAtMostOnce<S, Q>(g: Guarded<S>, calls: seq<Call<Q>>, i: nat, j: nat, hash: Q -> string,
                                handle: Handler<S, Q>)
    requires AllDurable(calls) && i < j < |calls| && calls[j].scope == calls[i].scope
    requires Settles(g, calls, i, hash, handle)
    ensures !Settles(g, calls, j, hash, handle)
  {
    SettledKeysReplay(g, calls, i, j, hash, handle);
  }

  /** If the ledger write of a settled call is lost, a retry runs the handler again: durability is needed. */
  lemma LostLedgerWriteRunsTwice<S, Q>(s: S, scope: Scope, request: Q, hash: Q -> string, handle: Handler<S, Q>)
    requires scope.key != ""
    ensures
      var calls := [Call(scope, request, true, true, false), Call(scope, request, true, true, true)];
      ReplyTo(Guarded(s, map[]), calls, 0, hash, handle).Fresh?
        && ReplyTo(Guarded(s, map[]), calls, 1, hash, handle).Fresh?
  {
    var calls := [Call(scope, request, true, true, false), Call(scope, request, true, true, true)];
    assert calls[..1] == [calls[0]] && calls[..1][..0] == [];
    assert Run(Guarded(s, map[]), calls[..0], hash, handle) == Guarded(s, map[]);
  }

  // ---------------------------------------------------------------- the middleware

  /** responseCapture: tees what the handler writes to the client into a buffer. */
  class ResponseCapture {
    var status: int
    var body: seq<Byte>
    var sent: seq<Byte>

    constructor ()
      ensures status == 200 && body == [] && sent == []
    {
      status, body, sent := 200, [], [];
    }

    method WriteHeader(s: int)
      modifies this
      ensures status == s && body == old(body) && sent == old(sent)
    {
      status := s;
    }

    method Write(b: seq<Byte>)
      modifies this
      ensures body == old(body) + b && sent == old(sent) + b && status == old(status)
    {
      body := body + b;
      sent := sent + b;
    }
  }

  class Guard<S, Q> {
    var state: S
    var ledger: map<Scope, Entry>

    constructor (s: S)
      ensures state == s && ledger == map[]
    {
      state, ledger := s, map[];
    }

    method Require(c: Call<Q>, hash: Q -> string, handle: Handler<S, Q>) returns (reply: Reply)
      modifies this
      ensures (Guarded(state, ledger), reply) == Serve(Guarded(old(state), old(ledger)), c, hash, handle)
      ensures Answers(Guarded(old(state), old(ledger)), Guarded(state, ledger), c, reply, hash, handle)
    {
      ServeAnswers(Guarded(state, ledger), c, hash, handle);
      hide Answers;
      if c.scope.key == "" {
        return KeyRequired;
      }
      if !c.readable {
        return MalformedRequest;
      }
      var requestHash := hash(c.request);
      if !c.reachable {
        return LedgerUnavailable;
      }
      if c.scope in ledger {
        var stored := ledger[c.scope];
        if stored.hash != requestHash {
          return KeyReused;
        }
        return Replayed(stored.status, stored.body);
      }

      var capture := new ResponseCapture();
      var (s, w) := handle(state, c.request);
      state := s;
      if w.header.Some? {
        capture.WriteHeader(w.header.value);
      }
      for i := 0 to |w.chunks|
        invariant state == s && ledger == old(ledger)
        invariant capture.status == StatusOf(w)
        invariant capture.body == capture.sent == Flatten(w.chunks[..i])
      {
        assert w.chunks[..i + 1][..i] == w.chunks[..i];
        capture.Write(w.chunks[i]);
      }
      assert w.chunks[..|w.chunks|] == w.chunks;
      if capture.status < 500 && c.durable && c.scope !in ledger {
        ledger := ledger[c.scope := Entry(requestHash, capture.status, capture.body)];
      }
      reply := Fresh(capture.status, capture.sent);
    }
  }
}
