/** One tick of one relay process: claim the oldest pending rows, publish them one by one, and write each outcome. */
module RelayService {
  import opened Relay

  /** What happens to a claimed row: whether the broker got it, what Publish returned, whether the update succeeded. */
  datatype Answer = Answer(delivered: bool, ok: bool, written: bool)

  /** SELECT id WHERE status = 'PENDING' ORDER BY created_at LIMIT limit; rows are in the order of their creation. */
  function Oldest(rows: seq<Row>, limit: nat): seq<nat> {
    if rows == [] then []
    else
      var n := |rows| - 1;
      var before := Oldest(rows[..n], limit);
      if rows[n].status == Pending && |before| < limit then before + [n] else before
  }

  /** The claim takes pending rows only, each once, oldest first, and leaves one out only when the batch is full. */
  lemma {:induction false} OldestAreClaimed(rows: seq<Row>, limit: nat)
    ensures
      var ids := Oldest(rows, limit);
      && |ids| <= limit && AllPending(rows, ids)
      && (forall i, j :: 0 <= i < j < |ids| ==> ids[i] < ids[j])
      && (forall k :: 0 <= k < |rows| && rows[k].status == Pending && k !in ids ==>
            |ids| == limit && forall i :: 0 <= i < |ids| ==> ids[i] < k)
  {
    if rows != [] {
      OldestAreClaimed(rows[..|rows| - 1], limit);
    }
  }

  /** The same rows, each once, in any order: RETURNING promises none. */
  ghost predicate Reordered(ids: seq<nat>, oldest: seq<nat>) {
    Distinct(ids) && |ids| == |oldest| && forall x :: x in ids <==> x in oldest
  }

  lemma ReorderedIsClaimable(rows: seq<Row>, ids: seq<nat>, limit: nat)
    requires Reordered(ids, Oldest(rows, limit))
    ensures |ids| <= limit && AllPending(rows, ids)
  {
    OldestAreClaimed(rows, limit);
    forall i | 0 <= i < |ids| ensures ids[i] < |rows| && rows[ids[i]].status == Pending {
      assert ids[i] in Oldest(rows, limit);
    }
  }

  lemma HasElement(ids: set<nat>)
    ensures ids == {} || exists x :: x in ids
  {
    if forall x :: x !in ids {
      assert ids == {};
    }
  }

  /** The relay steps that publish and settle the claimed rows in turn. */
  function PublishAll(w: WorkerId, ids: seq<nat>, answers: nat -> Answer): seq<Step> {
    if ids == [] then []
    else
      var n := |ids| - 1;
      var a := answers(ids[n]);
      PublishAll(w, ids[..n], answers) + [Publish(w, a.delivered, a.ok), Settle(w, a.written)]
  }

  function TickSteps(w: WorkerId, ids: seq<nat>, answers: nat -> Answer): seq<Step> {
    [Claim(w, ids)] + PublishAll(w, ids, answers)
  }

  function Elements(ids: seq<nat>): set<nat> {
    set x | x in ids
  }

  lemma {:induction false} SizeOfDistinct(ids: seq<nat>)
    requires Distinct(ids)
    ensures |Elements(ids)| == |ids|
  {
    if ids != [] {
      var front, last := ids[..|ids| - 1], ids[|ids| - 1];
      SizeOfDistinct(front);
      assert last !in front;
      assert Elements(ids) == Elements(front) + {last};
    }
  }

  method AnyOrder(oldest: seq<nat>) returns (ids: seq<nat>)
    requires Distinct(oldest)
    ensures Reordered(ids, oldest)
  {
    var rest := Elements(oldest);
    SizeOfDistinct(oldest);
    ids := [];
    while rest != {}
      invariant Distinct(ids) && |ids| + |rest| == |oldest|
      invariant forall x :: x in oldest <==> x in rest || x in ids
      invariant forall x :: x in rest ==> x !in ids
      decreases |rest|
    {
      HasElement(rest);
      var x :| x in rest;
      ids := ids + [x];
      rest := rest - {x};
    }
  }

  lemma SameMarks(rows: seq<Row>, oldest: seq<nat>, ids: seq<nat>)
    requires Reordered(ids, oldest)
    ensures Marked(rows, ids) == Marked(rows, oldest)
  {
  }

  function Holding(w: WorkerId, ids: seq<nat>): map<WorkerId, Worker> {
    if ids == [] then map[] else map[w := Batch(ids)]
  }

  lemma RunAppends2(s: State, steps: seq<Step>, x: Step, y: Step)
    ensures Run(s, steps + [x, y]) == Do(Do(Run(s, steps), x), y)
  {
    var all := steps + [x, y];
    assert all[..|all| - 1] == steps + [x];
    assert (steps + [x])[..|steps|] == steps;
  }

  lemma RunClaims(rows: seq<Row>, w: WorkerId, ids: seq<nat>)
    requires |ids| <= BATCH_SIZE && Distinct(ids) && AllPending(rows, ids)
    ensures Run(State(rows, map[]), [Claim(w, ids)]) == State(Marked(rows, ids), Holding(w, ids))
  {
    var start := State(rows, map[]);
    assert [Claim(w, ids)][..0] == [];
    assert Run(start, [Claim(w, ids)]) == Do(start, Claim(w, ids));
    if ids == [] {
      assert Marked(rows, ids) == rows;
    }
  }

  /** What happens to one row between two states in which the process holds a batch. */
  function AfterRow(row: Row, a: Answer): Row {
    var attempted := Attempted(row, a.delivered, a.ok);
    if a.written then Settled(attempted, a.ok) else attempted
  }

  /** The outcome of one row: one more attempt, Published if the publish was acknowledged, else Pending with one more
      retry, and still Publishing if the update that says so is lost. */
  predicate Outcome(before: Row, after: Row, a: Answer) {
    && after.attempts == before.attempts + 1
    && after.copies == before.copies + (if a.delivered then 1 else 0)
    && after.acks == before.acks + (if a.ok then 1 else 0)
    && (a.written && a.ok ==> after.status == Published && after.retries == before.retries)
    && (a.written && !a.ok ==> after.status == Pending && after.retries == before.retries + 1)
    && (!a.written ==> after.status == before.status && after.retries == before.retries)
  }

  lemma DoPublishesAndSettles(rows: seq<Row>, w: WorkerId, ids: seq<nat>, a: Answer)
    requires ids != [] && ids[0] < |rows|
    ensures
      Do(Do(State(rows, Holding(w, ids)), Publish(w, a.delivered, a.ok)), Settle(w, a.written)) ==
        State(rows[ids[0] := AfterRow(rows[ids[0]], a)], Holding(w, ids[1..]))
  {
    var x, rest := ids[0], ids[1..];
    var tried := Attempted(rows[x], a.delivered, a.ok);
    assert Do(State(rows, Holding(w, ids)), Publish(w, a.delivered, a.ok)) ==
           State(rows[x := tried], map[w := Settling(x, a.ok, rest)]);
    assert Resume(map[w := Settling(x, a.ok, rest)], w, rest) == Holding(w, rest);
    assert rows[x := tried][x := AfterRow(rows[x], a)] == rows[x := AfterRow(rows[x], a)];
  }

  /** The first n claimed rows have their outcome, the others are marked, and no row but the claimed ones has
      changed. */
  ghost predicate PublishedUpTo(before: seq<Row>, rows: seq<Row>, ids: seq<nat>, n: nat, answers: nat -> Answer)
    requires |rows| == |before| && AllPending(before, ids) && n <= |ids|
  {
    && (forall x :: 0 <= x < |rows| && x !in ids ==> rows[x] == before[x])
    && (forall k :: n <= k < |ids| ==> rows[ids[k]] == before[ids[k]].(status := Publishing))
    && (forall k :: 0 <= k < n ==> Outcome(before[ids[k]].(status := Publishing), rows[ids[k]], answers(ids[k])))
  }

  lemma NoneYet(before: seq<Row>, ids: seq<nat>, answers: nat -> Answer)
    requires AllPending(before, ids)
    ensures PublishedUpTo(before, Marked(before, ids), ids, 0, answers)
  {
  }

  lemma {:induction false} OneMorePublished(before: seq<Row>, rows: seq<Row>, ids: seq<nat>, n: nat,
                                            answers: nat -> Answer, after: Row)
    requires |rows| == |before| && AllPending(before, ids) && Distinct(ids) && n < |ids|
    requires PublishedUpTo(before, rows, ids, n, answers) && after == AfterRow(rows[ids[n]], answers(ids[n]))
    ensures PublishedUpTo(before, rows[ids[n] := after], ids, n + 1, answers)
  {
    assert Outcome(before[ids[n]].(status := Publishing), after, answers(ids[n]));
    hide Outcome, AfterRow;
    assert forall k :: 0 <= k < |ids| && k != n ==> ids[k] != ids[n];
  }

  lemma AllPublished(before: seq<Row>, rows: seq<Row>, ids: seq<nat>, answers: nat -> Answer)
    requires |rows| == |before| && AllPending(before, ids) && PublishedUpTo(before, rows, ids, |ids|, answers)
    ensures forall x :: 0 <= x < |rows| ==>
      if x in ids then Outcome(before[x].(status := Publishing), rows[x], answers(x)) else rows[x] == before[x]
  {
    hide Outcome;
    forall x | 0 <= x < |rows| && x in ids
      ensures Outcome(before[x].(status := Publishing), rows[x], answers(x))
    {
      var k :| 0 <= k < |ids| && ids[k] == x;
    }
  }

  class OutboxRelay {
    var rows: seq<Row>

    constructor ()
      ensures rows == []
    {
      rows := [];
    }

    method ClaimOldest(limit: nat) returns (claimed: seq<nat>)
      modifies this
      ensures Reordered(claimed, Oldest(old(rows), limit))
      ensures rows == Marked(old(rows), claimed)
    {
      var oldest := MarkOldest(limit);
      OldestAreClaimed(old(rows), limit);
      claimed := AnyOrder(oldest);
      SameMarks(old(rows), oldest, claimed);
    }

    method MarkOldest(limit: nat) returns (claimed: seq<nat>)
      modifies this
      ensures claimed == Oldest(old(rows), limit)
      ensures rows == Marked(old(rows), claimed)
    {
      claimed := [];
      for i := 0 to |rows|
        invariant |rows| == |old(rows)|
        invariant claimed == Oldest(old(rows)[..i], limit)
        invariant forall x :: x in claimed ==> x < i
        invariant forall k :: 0 <= k < |rows| ==>
          rows[k] == if k in claimed then old(rows)[k].(status := Publishing) else old(rows)[k]
      {
        assert old(rows)[..i + 1][..i] == old(rows)[..i];
        if rows[i].status == Pending && |claimed| < limit {
          rows := rows[i := rows[i].(status := Publishing)];
          claimed := claimed + [i];
        }
      }
      assert old(rows)[..|old(rows)|] == old(rows);
    }

    method PublishRow(x: nat, a: Answer)
      requires x < |rows|
      modifies this
      ensures rows == old(rows)[x := AfterRow(old(rows)[x], a)]
      ensures Outcome(old(rows)[x], rows[x], a)
    {
      var row := Attempted(rows[x], a.delivered, a.ok);
      if a.written {
        if a.ok {
          row := row.(status := Published);
        } else {
          row := row.(status := Pending, retries := row.retries + 1);
        }
      }
      rows := rows[x := row];
    }

    /** A tick that runs to its end claims the oldest pending rows, is this run of relay steps on them, in the order in
        which the claim returned them, and leaves nothing held. Each claimed row gets its outcome, no other changes. */
    method Tick(w: WorkerId, answers: nat -> Answer) returns (claimed: seq<nat>)
      modifies this
      ensures Reordered(claimed, Oldest(old(rows), BATCH_SIZE))
      ensures State(rows, map[]) == Run(State(old(rows), map[]), TickSteps(w, claimed, answers))
      ensures |rows| == |old(rows)|
      ensures forall x :: 0 <= x < |rows| ==>
        if x in claimed then Outcome(old(rows)[x].(status := Publishing), rows[x], answers(x))
        else rows[x] == old(rows)[x]
    {
      hide Run, Do, Oldest, Holding, AfterRow, PublishAll, PublishedUpTo, Outcome;
      ghost var start := State(rows, map[]);
      claimed := ClaimOldest(BATCH_SIZE);
      ReorderedIsClaimable(start.rows, claimed, BATCH_SIZE);
      RunClaims(start.rows, w, claimed);
      assert claimed[0..] == claimed;
      NothingPublished(w, claimed, answers);
      NoneYet(start.rows, claimed, answers);
      for i := 0 to |claimed|
        invariant |rows| == |old(rows)|
        invariant PublishedUpTo(old(rows), rows, claimed, i, answers)
        invariant State(rows, Holding(w, claimed[i..])) ==
          Run(start, [Claim(w, claimed)] + PublishAll(w, claimed[..i], answers))
      {
        var row := claimed[i];
        var a := answers(row);
        StepToNext(start, w, claimed, i, answers);
        DoPublishesAndSettles(rows, w, claimed[i..], a);
        assert claimed[i..][1..] == claimed[i + 1..];
        OneMorePublished(start.rows, rows, claimed, i, answers, AfterRow(rows[row], a));
        PublishRow(row, a);
      }
      AllPublished(start.rows, rows, claimed, answers);
      assert claimed[..|claimed|] == claimed && claimed[|claimed|..] == [];
      NothingHeld(w);
    }
  }

  lemma NothingPublished(w: WorkerId, ids: seq<nat>, answers: nat -> Answer)
    ensures [Claim(w, ids)] + PublishAll(w, ids[..0], answers) == [Claim(w, ids)]
  {
  }

  lemma NothingHeld(w: WorkerId)
    ensures Holding(w, []) == map[]
  {
  }

  lemma StepToNext(start: State, w: WorkerId, ids: seq<nat>, i: nat, answers: nat -> Answer)
    requires i < |ids|
    ensures
      var a := answers(ids[i]);
      Run(start, [Claim(w, ids)] + PublishAll(w, ids[..i + 1], answers)) ==
        Do(Do(Run(start, [Claim(w, ids)] + PublishAll(w, ids[..i], answers)), Publish(w, a.delivered, a.ok)),
          Settle(w, a.written))
  {
    hide Run, Do;
    var a := answers(ids[i]);
    assert ids[..i + 1][..i] == ids[..i];
    RunAppends2(start, [Claim(w, ids)] + PublishAll(w, ids[..i], answers), Publish(w, a.delivered, a.ok),
      Settle(w, a.written));
    assert [Claim(w, ids)] + PublishAll(w, ids[..i + 1], answers) ==
           [Claim(w, ids)] + PublishAll(w, ids[..i], answers) + [Publish(w, a.delivered, a.ok), Settle(w, a.written)];
  }
}
