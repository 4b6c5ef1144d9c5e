/** The order life cycle of src/orders/order-status.ts. */
module OrderStatus {

  datatype Status = Draft | Pending | Confirmed | Preparing | Ready | Completed | Cancelled

  function Transitions(from: Status): seq<Status> {
    match from
    case Draft => [Pending, Cancelled]
    case Pending => [Confirmed, Cancelled]
    case Confirmed => [Preparing, Cancelled]
    case Preparing => [Ready, Cancelled]
    case Ready => [Completed]
    case Completed => []
    case Cancelled => []
  }

  predicate CanTransition(from: Status, to: Status) {
    to in Transitions(from)
  }

  /** Orders whose lines and discount may still change. */
  predicate IsEditable(s: Status) {
    s == Draft || s == Pending
  }

  /** Orders a table still shows. */
  predicate IsActive(s: Status) {
    s != Completed && s != Cancelled
  }

  /** How far along its life an order is; the longest life has five steps. */
  function Rank(s: Status): nat {
    match s
    case Draft => 0
    case Pending => 1
    case Confirmed => 2
    case Preparing => 3
    case Ready => 4
    case Completed => 5
    case Cancelled => 4
  }

  /** Transitions only go up, by exactly one until an order is cancelled. */
  lemma TransitionRaisesRank(from: Status, to: Status)
    requires CanTransition(from, to)
    ensures Rank(from) < Rank(to) <= 5
    ensures !IsEditable(from) ==> !IsEditable(to)
    ensures to != Draft && (to == Pending ==> from == Draft) && (to == Confirmed ==> from == Pending)
  {
  }
}
