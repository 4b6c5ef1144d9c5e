/**
 Failed calls: a call that answers with an exception leaves every row as it was, except for one kind of seating,
 which has already opened the table's order and marked the reservation when the deposit is refused as a discount.
 */
module Atomicity {
  import opened Basics
  import opened OrderStatus
  import opened Store
  import opened Pos
  import Tenancy
  import Orders
  import Reservations

  /** A failed call left the rows alone. */
  predicate Undone(s: State, t: Result) {
    t.reply.Failure? ==> t.state == s
  }

  lemma MenuUndone(s: State, c: MenuCall, r: Rest)
    ensures Undone(s, PerformMenu(s, c, r))
  {
  }

  lemma FloorUndone(s: State, c: FloorCall, r: Rest)
    ensures Undone(s, PerformFloor(s, c, r))
  {
  }

  lemma EditUndone(s: State, order: nat, c: EditCall, r: Rest)
    ensures Undone(s, PerformEdit(s, order, c, r))
  {
  }

  lemma MoneyUndone(s: State, c: MoneyCall, r: Rest)
    ensures Undone(s, PerformMoney(s, c, r))
  {
  }

  lemma CreateOrderUndone(s: State, kind: Orders.OrderKind, items: seq<Orders.LineDto>, r: Rest)
    ensures Undone(s, Orders.Create(s, kind, items, r))
  {
  }

  lemma CreateReservationUndone(s: State, dto: Reservations.ReservationDto, r: Rest)
    ensures Undone(s, Reservations.Create(s, dto, r))
  {
    if dto.PreorderDto? {
      CreateOrderUndone(s, Orders.Takeaway, dto.lines, r);
    }
  }

  // ---------- Seating ----------

  /** The order a seating at the table reopens, if it reopens one. */
  function Reopened(s: State, tableId: Id, r: Rest): (found: Option<nat>)
    ensures found.Some? ==> found.value < |s.orders|
  {
    if tableId in s.tables && s.tables[tableId].rest == r && s.tables[tableId].status == Occupied
    then Orders.LatestActive(s.orders, tableId, r) else None
  }

  /** A seating that opens an order cannot fail after that: no reservation names an order before it exists. */
  lemma SeatAtUndone(s: State, id: nat, tableId: Id, r: Rest)
    requires Tenancy.Refs(s) && id < |s.reservations|
    ensures Undone(s, Reservations.SeatAt(s, id, tableId, r))
  {
  }

  lemma SeatPreorderUndone(s: State, id: nat)
    requires id < |s.reservations|
    ensures Undone(s, Reservations.SeatWithPreorder(s, id))
  {
  }

  /** The deposit would be refused as a discount on the order. */
  predicate DepositRefused(o: Order, depositCents: int) {
    && depositCents > 0 && Reservations.PlainSubtotal(o.items) > 0
    && (!IsEditable(o.status) || depositCents > Orders.Subtotal(o.items))
  }

  /**
   The guards of seating a deposit hold, its table has an order to reopen that no other reservation is linked to,
   and the deposit would be refused as a discount on that order.
   */
  predicate SeatFailsLate(s: State, id: nat, r: Rest) {
    && Reservations.Owns(s, id, r) && s.reservations[id].status == Committed
    && s.reservations[id].kind == DepositOnly && s.reservations[id].tableId.Some?
    && var found := Reopened(s, s.reservations[id].tableId.value, r);
    && found.Some? && !Reservations.LinkedElsewhere(s.reservations, id, found.value)
    && DepositRefused(s.orders[found.value], s.reservations[id].depositCents)
  }

  /** What a deposit seating does when the table has an order to reopen. */
  lemma SeatReopened(s: State, id: nat, r: Rest)
    requires Reservations.Owns(s, id, r) && s.reservations[id].tableId.Some?
    requires Reopened(s, s.reservations[id].tableId.value, r).Some?
    ensures var tableId := s.reservations[id].tableId.value;
            var seated := Reservations.SeatAt(s, id, tableId, r);
            var found := Reopened(s, tableId, r).value;
            if Reservations.LinkedElsewhere(s.reservations, id, found) then seated == Reject(s, Conflict) else
            && seated.reply == Done(found) && seated.state.orders == s.orders
            && |seated.state.reservations| == |s.reservations| && seated.state.reservations[id].status == Seated
            && Orders.Owns(seated.state, found, r)
  {
    Tenancy.LatestActiveOwned(s.orders, s.reservations[id].tableId.value, r);
  }

  lemma DiscountRefused(s: State, orderId: nat, depositCents: nat, r: Rest)
    requires Orders.Owns(s, orderId, r)
    ensures var t := Orders.ApplyDiscount(s, orderId, Orders.Fixed(depositCents), r);
            && (t.reply.Failure? <==>
                  !IsEditable(s.orders[orderId].status) || depositCents > Orders.Subtotal(s.orders[orderId].items))
            && Undone(s, t)
  {
  }

  lemma DepositReopenedExactly(s: State, id: nat, r: Rest)
    requires Reservations.Owns(s, id, r) && s.reservations[id].status == Committed
    requires s.reservations[id].kind == DepositOnly && s.reservations[id].tableId.Some?
    requires Reopened(s, s.reservations[id].tableId.value, r).Some?
    ensures var t := Reservations.SeatDepositOnly(s, id, r);
            t.reply.Failure? && t.state != s <==> SeatFailsLate(s, id, r)
  {
    var tableId := s.reservations[id].tableId.value;
    var found := Reopened(s, tableId, r).value;
    SeatReopened(s, id, r);
    if s.reservations[id].depositCents > 0 && !Reservations.LinkedElsewhere(s.reservations, id, found) {
      DiscountRefused(Reservations.SeatAt(s, id, tableId, r).state, found, s.reservations[id].depositCents, r);
    }
  }

  lemma DepositNewTicket(s: State, id: nat, r: Rest)
    requires Tenancy.Refs(s) && Reservations.Owns(s, id, r) && s.reservations[id].tableId.Some?
    requires Reopened(s, s.reservations[id].tableId.value, r).None?
    ensures Undone(s, Reservations.SeatDepositOnly(s, id, r))
  {
  }

  lemma SeatExactly(s: State, id: nat, tableId: Option<Id>, r: Rest)
    requires Tenancy.Refs(s)
    ensures var t := Reservations.Seat(s, id, tableId, r);
            t.reply.Failure? && t.state != s <==> SeatFailsLate(s, id, r)
  {
    if Reservations.Owns(s, id, r) && s.reservations[id].status == Committed {
      match s.reservations[id].kind
      case WithPreorder => SeatPreorderUndone(s, id);
      case DepositOnly =>
        if s.reservations[id].tableId.Some? {
          if Reopened(s, s.reservations[id].tableId.value, r).Some? {
            DepositReopenedExactly(s, id, r);
          } else {
            DepositNewTicket(s, id, r);
          }
        }
      case Informal =>
        if tableId.Some? {
          SeatAtUndone(s, id, tableId.value, r);
        }
    }
  }

  // ---------- All calls ----------

  predicate FailsLate(s: State, c: Call) {
    c.OnBooking? && c.bookingCall.SeatReservation? && SeatFailsLate(s, c.bookingCall.reservation, c.rest)
  }

  lemma BookingExactly(s: State, c: BookingCall, r: Rest)
    requires Tenancy.Refs(s)
    ensures var t := PerformBooking(s, c, r);
            t.reply.Failure? && t.state != s <==> FailsLate(s, OnBooking(r, c))
  {
    match c
    case CreateReservation(dto) => CreateReservationUndone(s, dto, r);
    case SeatReservation(id, table) => SeatExactly(s, id, table, r);
    case _ =>
  }

  lemma CallExactly(s: State, c: Call)
    requires Tenancy.Refs(s)
    ensures Perform(s, c).reply.Failure? && Step(s, c) != s <==> FailsLate(s, c)
  {
    match c
    case OnMenu(r, menu) => MenuUndone(s, menu, r);
    case OnFloor(r, floor) => FloorUndone(s, floor, r);
    case PlaceOrder(r, kind, lines) => CreateOrderUndone(s, kind, lines, r);
    case EditOrder(r, order, edit) => EditUndone(s, order, edit, r);
    case OnMoney(r, money) => MoneyUndone(s, money, r);
    case OnBooking(r, booking) => BookingExactly(s, booking, r);
    case Webhook(event) =>
  }

  /** In a reachable state a call fails and yet changes something if and only if it is such a seating. */
  lemma FailureChangesExactly(s: State, c: Call)
    requires Reachable(s)
    ensures Perform(s, c).reply.Failure? && Step(s, c) != s <==> FailsLate(s, c)
  {
    var config, calls :| s == Run(Empty(config), calls);
    Tenancy.AlwaysRefs(config, calls);
    CallExactly(s, c);
  }
}
