/**
 * The finite status sets of the shop: the nine order statuses with the
 * transition table that `updateStatus` consults, the five payment statuses
 * and the payment methods.
 */
module Statuses {

  datatype OrderStatus =
    | Pending
    | Confirmed
    | Processing
    | Shipped
    | OutForDelivery
    | Delivered
    | Cancelled
    | Returned
    | Refunded

  datatype PaymentStatus = PaymentPending | Succeeded | Failed | PaymentCancelled | PaymentRefunded

  /** Cash on delivery is the only method the payment engine treats specially. */
  datatype PaymentMethod = Cod | Card | Upi | OtherOnline(name: string)

  /** The table of allowed successors, one entry per status. */
  function Successors(s: OrderStatus): set<OrderStatus>
  {
    match s
    case Pending => {Confirmed, Cancelled}
    case Confirmed => {Processing, Cancelled}
    case Processing => {Shipped, Cancelled}
    case Shipped => {OutForDelivery, Returned}
    case OutForDelivery => {Delivered, Returned}
    case Delivered => {Returned}
    case Cancelled => {}
    case Returned => {Refunded}
    case Refunded => {}
  }

  predicate CanTransition(from: OrderStatus, to: OrderStatus)
  {
    to in Successors(from)
  }

  predicate Terminal(s: OrderStatus)
  {
    Successors(s) == {}
  }

  /**
   * The number of statuses on the longest run of the table that starts at
   * `s`; every edge of the table leads to a status of smaller height.
   */
  function Height(s: OrderStatus): nat
  {
    match s
    case Pending => 8
    case Confirmed => 7
    case Processing => 6
    case Shipped => 5
    case OutForDelivery => 4
    case Delivered => 3
    case Returned => 2
    case Refunded => 1
    case Cancelled => 1
  }

  /** Exactly CANCELLED and REFUNDED are terminal. */
  lemma TerminalStatuses(s: OrderStatus)
    ensures Terminal(s) <==> s == Cancelled || s == Refunded
  {
    if s != Cancelled && s != Refunded {
      var t :| t in Successors(s);
    }
  }

  /** No status may move to itself. */
  lemma NoSelfTransition(s: OrderStatus)
    ensures !CanTransition(s, s)
  {
  }

  /** Every allowed move strictly lowers the height. */
  lemma TransitionDescends(from: OrderStatus, to: OrderStatus)
    requires CanTransition(from, to)
    ensures Height(to) < Height(from)
  {
  }

  /** The only statuses the table lets move to CANCELLED. */
  lemma CancellableByTable(s: OrderStatus)
    ensures CanTransition(s, Cancelled) <==> s in {Pending, Confirmed, Processing}
  {
  }

  /** REFUNDED is entered through the table only from RETURNED. */
  lemma RefundOnlyAfterReturn(s: OrderStatus)
    ensures CanTransition(s, Refunded) <==> s == Returned
  {
  }

  /** A run: a sequence of statuses each reached from the previous one by the table. */
  ghost predicate IsRun(path: seq<OrderStatus>)
  {
    forall k :: 0 <= k < |path| - 1 ==> CanTransition(path[k], path[k + 1])
  }

  /** Dropping the first status of a run leaves a run. */
  lemma RunTail(path: seq<OrderStatus>)
    requires IsRun(path) && |path| > 0
    ensures IsRun(path[1..])
  {
    var rest := path[1..];
    forall k | 0 <= k < |rest| - 1
      ensures CanTransition(rest[k], rest[k + 1])
    {
      assert rest[k] == path[k + 1] && rest[k + 1] == path[k + 2];
    }
  }

  /** Along any run the height strictly decreases, so the table has no cycles. */
  lemma {:induction false} RunDescends(path: seq<OrderStatus>)
    requires IsRun(path)
    ensures forall i, j :: 0 <= i < j < |path| ==> Height(path[j]) < Height(path[i])
  {
    if |path| > 1 {
      var rest := path[1..];
      RunTail(path);
      RunDescends(rest);
      TransitionDescends(path[0], path[1]);
      forall i, j | 0 <= i < j < |path|
        ensures Height(path[j]) < Height(path[i])
      {
        if i == 0 {
          if j > 1 {
            assert path[1] == rest[0] && path[j] == rest[j - 1];
          }
        } else {
          assert path[i] == rest[i - 1] && path[j] == rest[j - 1];
        }
      }
    }
  }

  /** No run ever comes back to a status it has left. */
  lemma RunNeverRevisits(path: seq<OrderStatus>, i: nat, j: nat)
    requires IsRun(path)
    requires i < j < |path|
    ensures path[i] != path[j]
  {
    RunDescends(path);
  }

  /** Terminal statuses are absorbing: on a run they can only come last. */
  lemma TerminalEndsRun(path: seq<OrderStatus>, i: nat)
    requires IsRun(path)
    requires i < |path| && Terminal(path[i])
    ensures i == |path| - 1
  {
    assert i < |path| - 1 ==> CanTransition(path[i], path[i + 1]);
  }

  /** A run starting at `path[0]` is no longer than the height of its first status. */
  lemma {:induction false} RunFits(path: seq<OrderStatus>)
    requires IsRun(path) && |path| > 0
    ensures |path| <= Height(path[0])
  {
    if |path| > 1 {
      RunTail(path);
      RunFits(path[1..]);
      TransitionDescends(path[0], path[1]);
    }
  }

  /** Runs visit at most eight statuses (the fulfilment path, then a return and a refund). */
  lemma RunLength(path: seq<OrderStatus>)
    requires IsRun(path)
    ensures |path| <= 8
  {
    if |path| > 0 {
      RunFits(path);
    }
  }

  /** The longest run: the whole fulfilment path, then a return and a refund. */
  lemma FulfilmentPathIsRun()
    ensures IsRun([Pending, Confirmed, Processing, Shipped, OutForDelivery, Delivered, Returned, Refunded])
  {
  }
}
