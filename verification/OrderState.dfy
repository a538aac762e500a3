/** The order state machine: the staff transition table, the transitions that only the system makes,
    and a rank that every one of them raises. */
module OrderState {
  import opened Wrappers

  datatype Status =
    | Created | Received | Weighing | Washing | Drying | Ironing | Packing
    | Ready | PickedUp | Delivered | Completed | OnHold | Cancelled

  const TRANSITIONS: map<Status, seq<Status>> :=
    map[
      Created := [Received, OnHold, Cancelled],
      Received := [OnHold, Cancelled],
      Weighing := [OnHold, Cancelled],
      Washing := [Drying, OnHold],
      Drying := [Ironing, OnHold],
      Ironing := [Packing, OnHold],
      Packing := [Ready, OnHold],
      Ready := [PickedUp, Delivered, OnHold],
      PickedUp := [Completed],
      Delivered := [Completed]
    ]

  predicate IsValidTransition(from: Status, to: Status) {
    from in TRANSITIONS && to in TRANSITIONS[from]
  }

  predicate RequiresReason(to: Status) {
    to == OnHold || to == Cancelled
  }

  predicate RequiresPaidBeforeCompleting(to: Status) {
    to == Completed
  }

  /** Every status change any part of Core can make: the staff table, the first weighing,
      payment.paid on a weighed order, and payment.refunded on an order not yet cancelled.
      Completed pickups and deliveries only use edges of the staff table. */
  predicate Edge(from: Status, to: Status) {
    || IsValidTransition(from, to)
    || (from == Received && to == Weighing)
    || (from == Weighing && to == Washing)
    || (from != Cancelled && to == Cancelled)
  }

  /** The states in which laundry is being processed or has been handed back. */
  predicate InLaundry(s: Status) {
    s in {Washing, Drying, Ironing, Packing, Ready, PickedUp, Delivered, Completed}
  }

  function Rank(s: Status): nat {
    match s
    case Created => 0
    case Received => 1
    case Weighing => 2
    case Washing => 3
    case Drying => 4
    case Ironing => 5
    case Packing => 6
    case Ready => 7
    case PickedUp => 8
    case Delivered => 8
    case Completed => 9
    case OnHold => 9
    case Cancelled => 10
  }

  lemma EdgeRaisesRank(from: Status, to: Status)
    requires Edge(from, to)
    ensures Rank(from) < Rank(to)
    ensures InLaundry(to) && to != Washing ==> InLaundry(from)
    ensures to == Completed ==> Rank(from) == 8
  {
  }

  /** The staff table, by rank: an order can be held until it is handed over, cancelled until the laundry starts, and
      else moved exactly one stage on, except where the system does it: from Received by weighing, from Weighing by
      payment. */
  lemma StaffTableByRank(from: Status, to: Status)
    ensures
      IsValidTransition(from, to) <==>
      if to == OnHold then Rank(from) <= Rank(Ready)
      else if to == Cancelled then Rank(from) <= Rank(Weighing)
      else Rank(to) == Rank(from) + 1 && from != Received && from != Weighing
  {
  }

  /** The staff table never leads into the laundry from outside it. */
  lemma StaffEdgesStayOut(from: Status, to: Status)
    requires IsValidTransition(from, to)
    ensures InLaundry(to) ==> InLaundry(from)
  {
  }

  /** A row of order_status_history. */
  datatype HistoryRow = HistoryRow(from: Option<Status>, to: Status)

  /** The history is connected: it starts with NULL -> CREATED and each row leaves from where the last arrived. */
  ghost predicate Path(h: seq<HistoryRow>) {
    && |h| > 0
    && h[0] == HistoryRow(None, Created)
    && forall i :: 0 < i < |h| ==> h[i].from == Some(h[i - 1].to) && Edge(h[i - 1].to, h[i].to)
  }

  lemma PathExtends(h: seq<HistoryRow>, to: Status)
    requires Path(h) && Edge(h[|h| - 1].to, to)
    ensures Path(h + [HistoryRow(Some(h[|h| - 1].to), to)])
  {
  }

  lemma {:induction false} PathClimbs(h: seq<HistoryRow>, i: nat, j: nat)
    requires Path(h) && i < j < |h|
    ensures Rank(h[i].to) + (j - i) <= Rank(h[j].to)
    decreases j
  {
    assert h[j].from == Some(h[j - 1].to);
    EdgeRaisesRank(h[j - 1].to, h[j].to);
    if i < j - 1 {
      PathClimbs(h, i, j - 1);
    }
  }

  /** An order changes status at most ten times and never enters a status twice. */
  lemma LifecycleBounded(h: seq<HistoryRow>)
    requires Path(h)
    ensures |h| - 1 <= 10
    ensures forall i, j :: 0 <= i < j < |h| ==> h[i].to != h[j].to
  {
    if |h| > 1 {
      PathClimbs(h, 0, |h| - 1);
    }
    forall i, j | 0 <= i < j < |h|
      ensures h[i].to != h[j].to
    {
      PathClimbs(h, i, j);
    }
  }
}
