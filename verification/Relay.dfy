/** The outbox relay. Several relay processes share one outbox table; a process can crash at any point, a publish can
    report an error although the message reached the broker, and either status update can fail. */
module Relay {
  datatype RowStatus = Pending | Publishing | Published

  /** A row of outbox_events. `attempts`, `acks` and `copies` record what happened to it: the calls of Publish, those
      that returned no error, and the envelopes the broker received. */
  datatype Row = Row(status: RowStatus, retries: nat, attempts: nat, acks: nat, copies: nat)

  /** What a live relay process still holds: rows to publish, or one row whose outcome is not yet written and the
      rest. */
  datatype Worker = Batch(todo: seq<nat>) | Settling(row: nat, ok: bool, rest: seq<nat>)

  type WorkerId = nat

  /** `workers` has an entry for each process that is inside a tick. */
  datatype State = State(rows: seq<Row>, workers: map<WorkerId, Worker>)

  datatype Step =
    | Append
    | Claim(w: WorkerId, ids: seq<nat>)
    | Publish(w: WorkerId, delivered: bool, ok: bool)
    | Settle(w: WorkerId, written: bool)
    | Crash(w: WorkerId)

  const NEW_ROW: Row := Row(Pending, 0, 0, 0, 0)
  const BATCH_SIZE: nat := 100

  predicate Distinct(ids: seq<nat>) {
    forall i, j :: 0 <= i < j < |ids| ==> ids[i] != ids[j]
  }

  predicate AllPending(rows: seq<Row>, ids: seq<nat>) {
    forall i :: 0 <= i < |ids| ==> ids[i] < |rows| && rows[ids[i]].status == Pending
  }

  function Marked(rows: seq<Row>, ids: seq<nat>): seq<Row> {
    seq(|rows|, i requires 0 <= i < |rows| => if i in ids then rows[i].(status := Publishing) else rows[i])
  }

  function Attempted(row: Row, delivered: bool, ok: bool): Row {
    row.(attempts := row.attempts + 1, copies := row.copies + (if delivered then 1 else 0),
         acks := row.acks + (if ok then 1 else 0))
  }

  function Settled(row: Row, ok: bool): Row {
    if ok then row.(status := Published) else row.(status := Pending, retries := row.retries + 1)
  }

  function Resume(workers: map<WorkerId, Worker>, w: WorkerId, rest: seq<nat>): map<WorkerId, Worker> {
    if rest == [] then workers - {w} else workers[w := Batch(rest)]
  }

  /** One atomic step; a step that is not enabled changes nothing. A claim may take any pending rows, which covers every
      choice SKIP LOCKED can make. */
  function Do(s: State, step: Step): State {
    match step
    case Append => s.(rows := s.rows + [NEW_ROW])
    case Claim(w, ids) =>
      if w !in s.workers && 0 < |ids| <= BATCH_SIZE && Distinct(ids) && AllPending(s.rows, ids) then
        State(Marked(s.rows, ids), s.workers[w := Batch(ids)])
      else s
    case Publish(w, delivered, ok) =>
      if w in s.workers && s.workers[w].Batch? && s.workers[w].todo != [] && s.workers[w].todo[0] < |s.rows| then
        var row, rest := s.workers[w].todo[0], s.workers[w].todo[1..];
        State(s.rows[row := Attempted(s.rows[row], delivered, ok)], s.workers[w := Settling(row, ok, rest)])
      else s
    case Settle(w, written) =>
      if w in s.workers && s.workers[w].Settling? && s.workers[w].row < |s.rows| then
        var Settling(row, ok, rest) := s.workers[w];
        State(if written then s.rows[row := Settled(s.rows[row], ok)] else s.rows, Resume(s.workers, w, rest))
      else s
    case Crash(w) => s.(workers := s.workers - {w})
  }

  function Run(s: State, steps: seq<Step>): State {
    if steps == [] then s else Do(Run(s, steps[..|steps| - 1]), steps[|steps| - 1])
  }

  // ---------------------------------------------------------------- invariant

  function Held(w: Worker): seq<nat> {
    match w case Batch(todo) => todo case Settling(row, _, rest) => [row] + rest
  }

  ghost predicate RowInv(row: Row) {
    && row.copies <= row.attempts
    && match row.status
       case Pending => row.attempts == row.retries && row.acks == 0
       case Publishing => row.retries <= row.attempts <= row.retries + 1 && row.acks <= row.attempts - row.retries
       case Published => row.attempts == row.retries + 1 && row.acks == 1
  }

  /** A held row is in Publishing; only the row being settled has had its next attempt. */
  ghost predicate HeldRow(rows: seq<Row>, w: Worker, x: nat) {
    && x < |rows| && rows[x].status == Publishing
    && if w.Settling? && x == w.row
         then rows[x].attempts == rows[x].retries + 1 && rows[x].acks == (if w.ok then 1 else 0)
       else rows[x].attempts == rows[x].retries
  }

  ghost predicate WorkerInv(rows: seq<Row>, w: Worker) {
    Distinct(Held(w)) && forall x :: x in Held(w) ==> HeldRow(rows, w, x)
  }

  /** No row is in two live batches. */
  ghost predicate Exclusive(workers: map<WorkerId, Worker>) {
    forall v, w, x :: v in workers && w in workers && x in Held(workers[v]) && x in Held(workers[w]) ==> v == w
  }

  ghost predicate RelayInv(s: State) {
    && (forall i :: 0 <= i < |s.rows| ==> RowInv(s.rows[i]))
    && (forall w :: w in s.workers ==> WorkerInv(s.rows, s.workers[w]))
    && Exclusive(s.workers)
  }

  lemma ClaimKeepsInv(s: State, w: WorkerId, ids: seq<nat>)
    requires RelayInv(s)
    ensures RelayInv(Do(s, Claim(w, ids)))
  {
    var s' := Do(s, Claim(w, ids));
    if s' != s {
      forall x | x in ids ensures x < |s.rows| && s.rows[x].status == Pending && RowInv(s.rows[x]) {
        var i :| 0 <= i < |ids| && ids[i] == x;
      }
      forall v, x | v in s.workers && x in Held(s.workers[v]) ensures x !in ids && HeldRow(s.rows, s.workers[v], x) {
        assert WorkerInv(s.rows, s.workers[v]);
      }
      hide Exclusive;
      assert forall v :: v in s.workers ==> WorkerInv(s'.rows, s.workers[v]);
      assert WorkerInv(s'.rows, Batch(ids));
      NewcomerKeepsExclusive(s.workers, w, Batch(ids));
    }
  }

  lemma NewcomerKeepsExclusive(workers: map<WorkerId, Worker>, w: WorkerId, worker: Worker)
    requires Exclusive(workers)
    requires forall v, x :: v in workers && v != w && x in Held(workers[v]) ==> x !in Held(worker)
    ensures Exclusive(workers[w := worker])
  {
  }

  /** Changing a row that only w holds leaves every other worker's rows alone. */
  lemma {:induction false} OthersUntouched(s: State, w: WorkerId, row: Row, x: nat, v: WorkerId)
    requires RelayInv(s) && w in s.workers && x in Held(s.workers[w]) && x < |s.rows| && v in s.workers && v != w
    ensures WorkerInv(s.rows[x := row], s.workers[v])
  {
    assert WorkerInv(s.rows, s.workers[v]);
    assert x !in Held(s.workers[v]);
  }

  /** Replacing a worker by one that holds no more than it did, after changing one row that it held. */
  lemma {:induction false} StepKeepsInv(s: State, s': State, w: WorkerId, x: nat)
    requires RelayInv(s) && w in s.workers && x in Held(s.workers[w]) && x < |s.rows| == |s'.rows|
    requires s'.rows == s.rows[x := s'.rows[x]] && RowInv(s'.rows[x])
    requires w in s'.workers ==> WorkerInv(s'.rows, s'.workers[w])
    requires w in s'.workers ==> forall y :: y in Held(s'.workers[w]) ==> y in Held(s.workers[w])
    requires s'.workers == if w in s'.workers then s.workers[w := s'.workers[w]] else s.workers - {w}
    ensures RelayInv(s')
  {
    forall v | v in s'.workers ensures WorkerInv(s'.rows, s'.workers[v]) {
      if v != w {
        OthersUntouched(s, w, s'.rows[x], x, v);
      }
    }
  }

  lemma {:induction false} PublishKeepsInv(s: State, w: WorkerId, delivered: bool, ok: bool)
    requires RelayInv(s)
    ensures RelayInv(Do(s, Publish(w, delivered, ok)))
  {
    var s' := Do(s, Publish(w, delivered, ok));
    if s' != s {
      var worker, worker' := s.workers[w], s'.workers[w];
      var x := worker.todo[0];
      assert WorkerInv(s.rows, worker) && RowInv(s.rows[x]);
      hide Exclusive, RelayInv;
      assert Held(worker') == Held(worker);
      assert HeldRow(s.rows, worker, x);
      StepKeepsInv(s, s', w, x);
    }
  }

  lemma RestIsBatch(rows: seq<Row>, x: nat, ok: bool, rest: seq<nat>, row: Row)
    requires WorkerInv(rows, Settling(x, ok, rest)) && x < |rows|
    ensures WorkerInv(rows[x := row], Batch(rest))
  {
    var held := Held(Settling(x, ok, rest));
    assert forall i :: 0 <= i < |rest| ==> rest[i] == held[i + 1];
    forall y | y in rest ensures y in held && y != x {
      var i :| 0 <= i < |rest| && rest[i] == y;
      assert held[i + 1] == y && held[0] == x;
    }
    assert forall y :: y in rest ==> HeldRow(rows, Settling(x, ok, rest), y);
  }

  lemma SettleKeepsInv(s: State, w: WorkerId, written: bool)
    requires RelayInv(s)
    ensures RelayInv(Do(s, Settle(w, written)))
  {
    var s' := Do(s, Settle(w, written));
    if s' != s {
      var Settling(x, ok, rest) := s.workers[w];
      assert WorkerInv(s.rows, Settling(x, ok, rest)) && RowInv(s.rows[x]);
      assert x in Held(s.workers[w]) && HeldRow(s.rows, s.workers[w], x);
      hide RelayInv, WorkerInv, Exclusive;
      RestIsBatch(s.rows, x, ok, rest, s'.rows[x]);
      StepKeepsInv(s, s', w, x);
    }
  }

  lemma DoKeepsInv(s: State, step: Step)
    requires RelayInv(s)
    ensures RelayInv(Do(s, step))
  {
    match step
    case Append =>
      forall w | w in s.workers ensures WorkerInv(Do(s, step).rows, s.workers[w]) {
        assert WorkerInv(s.rows, s.workers[w]);
      }
    case Claim(w, ids) => ClaimKeepsInv(s, w, ids);
    case Publish(w, delivered, ok) => PublishKeepsInv(s, w, delivered, ok);
    case Settle(w, written) => SettleKeepsInv(s, w, written);
    case Crash(w) =>
  }

  lemma {:induction false} RunKeepsInv(s: State, steps: seq<Step>)
    requires RelayInv(s)
    ensures RelayInv(Run(s, steps))
  {
    if steps != [] {
      RunKeepsInv(s, steps[..|steps| - 1]);
      DoKeepsInv(Run(s, steps[..|steps| - 1]), steps[|steps| - 1]);
    }
  }

  // ---------------------------------------------------------------- theorems

  const EMPTY: State := State([], map[])

  /** With any number of relays, crashes and ambiguous errors: no row is in two live batches or twice in one, the broker
      never gets more than retries + 1 copies, a pending row has had exactly `retries` attempts, and a published row has
      had one acknowledged publish. */
  lemma RelayAccounting(steps: seq<Step>)
    ensures
      var s := Run(EMPTY, steps);
      && Exclusive(s.workers)
      && (forall w :: w in s.workers ==> Distinct(Held(s.workers[w])))
      && (forall i :: 0 <= i < |s.rows| ==>
            var row := s.rows[i];
            && row.copies <= row.attempts <= row.retries + 1
            && (row.status == Pending ==> row.attempts == row.retries)
            && (row.status == Published ==> row.acks == 1))
  {
    RunKeepsInv(EMPTY, steps);
    var s := Run(EMPTY, steps);
    forall w | w in s.workers ensures Distinct(Held(s.workers[w])) {
      assert WorkerInv(s.rows, s.workers[w]);
    }
    assert forall i :: 0 <= i < |s.rows| ==> RowInv(s.rows[i]);
  }

  lemma DoKeepsPublished(s: State, step: Step, i: nat)
    requires RelayInv(s) && i < |s.rows| && s.rows[i].status == Published
    ensures i < |Do(s, step).rows| && Do(s, step).rows[i] == s.rows[i]
  {
    if (step.Publish? || step.Settle?) && step.w in s.workers {
      var worker := s.workers[step.w];
      assert WorkerInv(s.rows, worker);
      if step.Publish? && worker.Batch? && worker.todo != [] {
        assert worker.todo[0] in Held(worker) && HeldRow(s.rows, worker, worker.todo[0]);
      }
      if step.Settle? && worker.Settling? {
        assert worker.row in Held(worker) && HeldRow(s.rows, worker, worker.row);
      }
    }
  }

  /** Published is terminal: no later step of any relay touches the row again. Rows are never deleted. */
  lemma {:induction false} PublishedIsTerminal(s: State, steps: seq<Step>, i: nat)
    requires RelayInv(s) && i < |s.rows| && s.rows[i].status == Published
    ensures i < |Run(s, steps).rows| && Run(s, steps).rows[i] == s.rows[i]
  {
    hide RelayInv, Do;
    if steps != [] {
      PublishedIsTerminal(s, steps[..|steps| - 1], i);
      RunKeepsInv(s, steps[..|steps| - 1]);
      DoKeepsPublished(Run(s, steps[..|steps| - 1]), steps[|steps| - 1], i);
    }
  }

  // ---------------------------------------------------------------- what a settlement does, and what is lost

  /** A written update marks an acknowledged row Published, and a failed one Pending with one more retry; an update that
      is lost leaves the row as it was. */
  predicate Settles(before: Row, after: Row, ok: bool, written: bool) {
    && after.attempts == before.attempts && after.acks == before.acks && after.copies == before.copies
    && (written && ok ==> after.status == Published && after.retries == before.retries)
    && (written && !ok ==> after.status == Pending && after.retries == before.retries + 1)
    && (!written ==> after.status == before.status && after.retries == before.retries)
  }

  predicate HeldByAny(s: State, i: nat) {
    exists w :: w in s.workers && i in Held(s.workers[w])
  }

  /** The row being settled gets what its publish came to, no other row changes, and no relay holds it any more. */
  lemma {:induction false} SettleTells(s: State, w: WorkerId, written: bool)
    requires RelayInv(s) && w in s.workers && s.workers[w].Settling?
    ensures
      var s', x := Do(s, Settle(w, written)), s.workers[w].row;
      && x < |s.rows| == |s'.rows| && Settles(s.rows[x], s'.rows[x], s.workers[w].ok, written)
      && (forall i :: 0 <= i < |s.rows| && i != x ==> s'.rows[i] == s.rows[i])
      && !HeldByAny(s', x)
  {
    assert WorkerInv(s.rows, s.workers[w]) && s.workers[w].row in Held(s.workers[w]);
    assert HeldRow(s.rows, s.workers[w], s.workers[w].row);
    SettledIsLetGo(s, w, written);
    hide RelayInv, WorkerInv, HeldByAny, Held, Resume;
  }

  lemma {:induction false} SettledIsLetGo(s: State, w: WorkerId, written: bool)
    requires RelayInv(s) && w in s.workers && s.workers[w].Settling? && s.workers[w].row < |s.rows|
    ensures !HeldByAny(Do(s, Settle(w, written)), s.workers[w].row)
  {
    var s' := Do(s, Settle(w, written));
    var Settling(x, ok, rest) := s.workers[w];
    var held := Held(s.workers[w]);
    assert WorkerInv(s.rows, s.workers[w]) && Exclusive(s.workers) && Distinct(held) && x in held;
    hide RelayInv, WorkerInv, Settled;
    assert forall i :: 0 <= i < |rest| ==> rest[i] == held[i + 1] && held[0] != held[i + 1];
    assert x !in rest;
    forall v | v in s'.workers
      ensures x !in Held(s'.workers[v])
    {
      if v != w {
        assert s'.workers[v] == s.workers[v];
      }
    }
  }

  /** Marked for publishing by a relay that does not hold it any more: no step claims it again. */
  predicate Orphaned(s: State, i: nat) {
    i < |s.rows| && s.rows[i].status == Publishing && !HeldByAny(s, i)
  }

  /** The step loses the update of row i, or crashes the relay that holds it. */
  predicate Loses(s: State, step: Step, i: nat) {
    match step
    case Settle(w, written) => !written && w in s.workers && s.workers[w].Settling? && s.workers[w].row == i
    case Crash(w) => w in s.workers && i in Held(s.workers[w])
    case _ => false
  }

  lemma AppendOrphans(s: State, i: nat)
    ensures Orphaned(Do(s, Append), i) <==> Orphaned(s, i)
  {
    var s' := Do(s, Append);
    assert s'.workers == s.workers;
    assert HeldByAny(s', i) <==> HeldByAny(s, i);
  }

  lemma {:induction false} ClaimOrphans(s: State, w: WorkerId, ids: seq<nat>, i: nat)
    requires RelayInv(s)
    ensures Orphaned(Do(s, Claim(w, ids)), i) <==> Orphaned(s, i)
  {
    var s' := Do(s, Claim(w, ids));
    if s' != s {
      forall x | x in ids ensures x < |s.rows| && s.rows[x].status == Pending {
        var k :| 0 <= k < |ids| && ids[k] == x;
      }
      assert w in s'.workers && Held(s'.workers[w]) == ids;
      if HeldByAny(s, i) {
        var v :| v in s.workers && i in Held(s.workers[v]);
        assert v in s'.workers && s'.workers[v] == s.workers[v];
      }
      if HeldByAny(s', i) && i !in ids {
        var v :| v in s'.workers && i in Held(s'.workers[v]);
        assert v in s.workers && s'.workers[v] == s.workers[v];
      }
    }
  }

  lemma {:induction false} PublishOrphans(s: State, w: WorkerId, delivered: bool, ok: bool, i: nat)
    requires RelayInv(s)
    ensures Orphaned(Do(s, Publish(w, delivered, ok)), i) <==> Orphaned(s, i)
  {
    var s' := Do(s, Publish(w, delivered, ok));
    if s' != s {
      assert Held(s'.workers[w]) == Held(s.workers[w]);
      assert forall v :: v in s.workers <==> v in s'.workers;
      assert forall v :: v in s.workers ==> Held(s'.workers[v]) == Held(s.workers[v]);
      assert HeldByAny(s', i) <==> HeldByAny(s, i);
    }
  }

  lemma {:induction false} SettleOrphans(s: State, w: WorkerId, written: bool, i: nat)
    requires RelayInv(s)
    ensures Orphaned(Do(s, Settle(w, written)), i) <==> Orphaned(s, i) || Loses(s, Settle(w, written), i)
  {
    var s' := Do(s, Settle(w, written));
    if w in s.workers && s.workers[w].Settling? {
      SettleTells(s, w, written);
      var Settling(x, ok, rest) := s.workers[w];
      assert WorkerInv(s.rows, s.workers[w]) && x in Held(s.workers[w]) && HeldRow(s.rows, s.workers[w], x);
      hide RelayInv, WorkerInv, Settles;
      assert forall y :: y != x ==> (y in rest <==> y in Held(s.workers[w]));
      if i != x {
        SettledHeld(s, w, written, i);
      }
    }
  }

  /** Settling a row lets go of no other row. */
  lemma SettledHeld(s: State, w: WorkerId, written: bool, i: nat)
    requires w in s.workers && s.workers[w].Settling? && s.workers[w].row < |s.rows| && i != s.workers[w].row
    ensures HeldByAny(Do(s, Settle(w, written)), i) <==> HeldByAny(s, i)
  {
    var s' := Do(s, Settle(w, written));
    var Settling(x, ok, rest) := s.workers[w];
    assert i in rest <==> i in [x] + rest;
    if HeldByAny(s, i) {
      var v :| v in s.workers && i in Held(s.workers[v]);
      if v == w {
        assert rest != [] && s'.workers[w] == Batch(rest);
      } else {
        assert v in s'.workers && s'.workers[v] == s.workers[v];
      }
    }
    if HeldByAny(s', i) {
      var v :| v in s'.workers && i in Held(s'.workers[v]);
      assert v in s.workers && i in Held(s.workers[v]);
    }
  }

  lemma {:induction false} CrashOrphans(s: State, w: WorkerId, i: nat)
    requires RelayInv(s)
    ensures Orphaned(Do(s, Crash(w)), i) <==> Orphaned(s, i) || Loses(s, Crash(w), i)
  {
    var s' := Do(s, Crash(w));
    if w in s.workers && i in Held(s.workers[w]) {
      assert WorkerInv(s.rows, s.workers[w]) && HeldRow(s.rows, s.workers[w], i);
      forall v | v in s'.workers
        ensures i !in Held(s'.workers[v])
      {
        assert v in s.workers && v != w && s'.workers[v] == s.workers[v];
      }
    } else {
      if HeldByAny(s, i) {
        var v :| v in s.workers && i in Held(s.workers[v]);
        assert v in s'.workers && s'.workers[v] == s.workers[v];
      }
    }
  }

  /** A step orphans a row exactly by losing its update or crashing its relay, and no step adopts one. */
  lemma {:induction false} StepOrphans(s: State, step: Step, i: nat)
    requires RelayInv(s)
    ensures Orphaned(Do(s, step), i) <==> Orphaned(s, i) || Loses(s, step, i)
  {
    hide RelayInv, Orphaned, Do;
    match step
    case Append => AppendOrphans(s, i);
    case Claim(w, ids) => ClaimOrphans(s, w, ids, i);
    case Publish(w, delivered, ok) => PublishOrphans(s, w, delivered, ok, i);
    case Settle(w, written) => SettleOrphans(s, w, written, i);
    case Crash(w) => CrashOrphans(s, w, i);
  }

  ghost predicate EverLost(steps: seq<Step>, i: nat) {
    exists k :: 0 <= k < |steps| && Loses(Run(EMPTY, steps[..k]), steps[k], i)
  }

  lemma EverLostUpTo(steps: seq<Step>, i: nat)
    requires steps != []
    ensures
      var n := |steps| - 1;
      EverLost(steps, i) <==> EverLost(steps[..n], i) || Loses(Run(EMPTY, steps[..n]), steps[n], i)
  {
    hide Loses, Run;
    var n := |steps| - 1;
    assert forall k :: 0 <= k < n ==> steps[..n][..k] == steps[..k] && steps[..n][k] == steps[k];
    if k :| 0 <= k < n && Loses(Run(EMPTY, steps[..n][..k]), steps[..n][k], i) {
      assert Loses(Run(EMPTY, steps[..k]), steps[k], i);
    }
    if k :| 0 <= k < |steps| && Loses(Run(EMPTY, steps[..k]), steps[k], i) {
      if k < n {
        assert Loses(Run(EMPTY, steps[..n][..k]), steps[..n][k], i);
      }
    }
  }

  /** In every run a row is in Publishing without being held exactly when an update of it was lost or the relay that
      held it crashed: nothing else keeps a claimed row from becoming Published or Pending again. */
  lemma {:induction false} StuckExactlyWhenLost(steps: seq<Step>, i: nat)
    ensures
      Orphaned(Run(EMPTY, steps), i) <==>
      exists k :: 0 <= k < |steps| && Loses(Run(EMPTY, steps[..k]), steps[k], i)
  {
    StuckIffEverLost(steps, i);
    hide Orphaned, Loses, Run;
  }

  lemma {:induction false} StuckIffEverLost(steps: seq<Step>, i: nat)
    ensures Orphaned(Run(EMPTY, steps), i) <==> EverLost(steps, i)
  {
    if steps == [] {
      NothingIsOrphaned(i);
      hide Orphaned;
    } else {
      hide RelayInv, Do, Loses, Orphaned, EverLost;
      var n := |steps| - 1;
      StuckIffEverLost(steps[..n], i);
      EmptyInv();
      RunKeepsInv(EMPTY, steps[..n]);
      StepOrphans(Run(EMPTY, steps[..n]), steps[n], i);
      EverLostUpTo(steps, i);
    }
  }

  lemma NothingIsOrphaned(i: nat)
    ensures !Orphaned(EMPTY, i)
  {
  }

  lemma EmptyInv()
    ensures RelayInv(EMPTY)
  {
  }
}
