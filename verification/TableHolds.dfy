/**
 Reserved tables and reservations over whole runs: no table is stuck RESERVED, and every seated reservation
 was confirmed before and has an order.
 */
module TableHolds {
  import opened Basics
  import opened OrderStatus
  import opened Store
  import opened Pos
  import opened Evolution
  import opened Frames
  import Orders
  import Payments
  import Reservations
  import FloorPlan

  /** A confirmed paid reservation for the table. */
  predicate Holds(r: Reservation, id: Id) {
    r.status == Committed && r.kind != Informal && r.tableId == Some(id)
  }

  predicate IsHeld(reservations: seq<Reservation>, id: Id) {
    exists i :: 0 <= i < |reservations| && Holds(reservations[i], id)
  }

  predicate HeldWhenReserved(s: State) {
    forall id :: id in s.tables && s.tables[id].status == Reserved ==> IsHeld(s.reservations, id)
  }

  /** Whoever held a table still does. */
  predicate HoldersStay(a: seq<Reservation>, b: seq<Reservation>, id: Id) {
    |a| <= |b| && forall i :: 0 <= i < |a| && Holds(a[i], id) ==> Holds(b[i], id)
  }

  predicate ReservesNothing(before: map<Id, Table>, after: map<Id, Table>) {
    forall id :: id in after && after[id].status == Reserved ==> id in before && before[id].status == Reserved
  }

  lemma HoldsKept(s: State, t: State)
    requires HeldWhenReserved(s)
    requires forall id :: id in t.tables && t.tables[id].status == Reserved ==>
               || IsHeld(t.reservations, id)
               || (id in s.tables && s.tables[id].status == Reserved && HoldersStay(s.reservations, t.reservations, id))
    ensures HeldWhenReserved(t)
  {
    forall id | id in t.tables && t.tables[id].status == Reserved
      ensures IsHeld(t.reservations, id)
    {
      if id in s.tables && s.tables[id].status == Reserved && HoldersStay(s.reservations, t.reservations, id) {
        var i :| 0 <= i < |s.reservations| && Holds(s.reservations[i], id);
        assert Holds(t.reservations[i], id);
      }
    }
  }

  /** Calls that neither reserve a table nor move a reservation. */
  lemma NothingReserved(s: State, t: State)
    requires HeldWhenReserved(s) && t.reservations == s.reservations
    requires ReservesNothing(s.tables, t.tables)
    ensures HeldWhenReserved(t)
  {
    HoldsKept(s, t);
  }

  lemma CreateOrderHolds(s: State, kind: Orders.OrderKind, items: seq<Orders.LineDto>, r: Rest)
    requires HeldWhenReserved(s)
    ensures HeldWhenReserved(Orders.Create(s, kind, items, r).state)
    ensures ReservesNothing(s.tables, Orders.Create(s, kind, items, r).state.tables)
    ensures Orders.Create(s, kind, items, r).state.reservations == s.reservations
    ensures var t := Orders.Create(s, kind, items, r);
            t.reply.Done? && kind.DineIn? ==>
              kind.tableId in t.state.tables && t.state.tables[kind.tableId].status == Occupied
  {
    NothingReserved(s, Orders.Create(s, kind, items, r).state);
  }

  lemma DropTablesHolds(s: State, gone: set<Id>)
    requires HeldWhenReserved(s)
    ensures HeldWhenReserved(DropTables(s, gone))
    ensures ReservesNothing(s.tables, DropTables(s, gone).tables)
  {
    HoldsKept(s, DropTables(s, gone));
  }

  lemma RemoveZoneHolds(s: State, id: Id, r: Rest)
    requires HeldWhenReserved(s)
    ensures HeldWhenReserved(FloorPlan.RemoveZone(s, id, r).state)
    ensures ReservesNothing(s.tables, FloorPlan.RemoveZone(s, id, r).state.tables)
  {
    var gone := FloorPlan.TablesIn(s.tables, id, r);
    DropTablesHolds(s, gone);
    NothingReserved(DropTables(s, gone), FloorPlan.DropZone(DropTables(s, gone), id));
  }

  lemma ConfirmHolds(s: State, id: nat, r: Rest)
    requires HeldWhenReserved(s)
    ensures HeldWhenReserved(Reservations.Confirm(s, id, r).state)
  {
    var t := Reservations.Confirm(s, id, r);
    if t.reply.Done? {
      var row := t.state.reservations[id];
      if row.kind != Informal && row.tableId.Some? {
        assert Holds(row, row.tableId.value);
      }
      HoldsKept(s, t.state);
    }
  }

  lemma TerminateHolds(s: State, id: nat, ending: Reservations.Ending, r: Rest)
    requires HeldWhenReserved(s)
    ensures HeldWhenReserved(Reservations.Terminate(s, id, ending, r).state)
    ensures ReservesNothing(s.tables, Reservations.Terminate(s, id, ending, r).state.tables)
  {
    var t := Reservations.Terminate(s, id, ending, r);
    if t.reply.Done? {
      HoldsKept(s, t.state);
    }
  }

  lemma SeatAtHolds(s: State, id: nat, tableId: Id, r: Rest)
    requires HeldWhenReserved(s) && id < |s.reservations|
    requires s.reservations[id].kind != Informal ==> s.reservations[id].tableId == Some(tableId)
    ensures HeldWhenReserved(Reservations.SeatAt(s, id, tableId, r).state)
    ensures ReservesNothing(s.tables, Reservations.SeatAt(s, id, tableId, r).state.tables)
  {
    CreateOrderHolds(s, Orders.DineIn(tableId), [], r);
    var t := Reservations.SeatAt(s, id, tableId, r);
    if t.reply.Done? {
      HoldsKept(Orders.Create(s, Orders.DineIn(tableId), [], r).state, t.state);
    }
  }

  lemma SeatHolds(s: State, id: nat, tableId: Option<Id>, r: Rest)
    requires HeldWhenReserved(s)
    ensures HeldWhenReserved(Reservations.Seat(s, id, tableId, r).state)
    ensures ReservesNothing(s.tables, Reservations.Seat(s, id, tableId, r).state.tables)
  {
    if Reservations.Owns(s, id, r) && s.reservations[id].status == Committed {
      var reservation := s.reservations[id];
      if reservation.kind == WithPreorder {
        SeatPreorderHolds(s, id);
      } else if reservation.kind == Informal {
        if tableId.Some? {
          SeatAtHolds(s, id, tableId.value, r);
        }
      } else {
        SeatDepositHolds(s, id, r);
      }
    }
  }

  lemma SeatDepositHolds(s: State, id: nat, r: Rest)
    requires HeldWhenReserved(s) && id < |s.reservations| && s.reservations[id].kind == DepositOnly
    ensures HeldWhenReserved(Reservations.SeatDepositOnly(s, id, r).state)
    ensures ReservesNothing(s.tables, Reservations.SeatDepositOnly(s, id, r).state.tables)
  {
    var reservation := s.reservations[id];
    if reservation.tableId.Some? {
      SeatAtHolds(s, id, reservation.tableId.value, r);
      var seated := Reservations.SeatAt(s, id, reservation.tableId.value, r);
      if seated.reply.Done? && reservation.depositCents > 0 {
        var discount := Orders.Fixed(reservation.depositCents);
        NothingReserved(seated.state, Orders.ApplyDiscount(seated.state, seated.reply.id, discount, r).state);
      }
    }
  }

  lemma SeatPreorderHolds(s: State, id: nat)
    requires HeldWhenReserved(s) && id < |s.reservations|
    ensures HeldWhenReserved(Reservations.SeatWithPreorder(s, id).state)
    ensures ReservesNothing(s.tables, Reservations.SeatWithPreorder(s, id).state.tables)
  {
    var t := Reservations.SeatWithPreorder(s, id);
    if t.reply.Done? {
      HoldsKept(s, t.state);
    }
  }

  lemma CreateReservationHolds(s: State, dto: Reservations.ReservationDto, r: Rest)
    requires HeldWhenReserved(s)
    ensures HeldWhenReserved(Reservations.Create(s, dto, r).state)
    ensures ReservesNothing(s.tables, Reservations.Create(s, dto, r).state.tables)
  {
    var t := Reservations.Create(s, dto, r);
    if dto.PreorderDto? {
      CreateOrderHolds(s, Orders.Takeaway, dto.lines, r);
      HoldsKept(Orders.Create(s, Orders.Takeaway, dto.lines, r).state, t.state);
    } else if t.reply.Done? {
      HoldsKept(s, t.state);
    }
  }

  lemma CreateTableHolds(s: State, name: string, r: Rest)
    requires HeldWhenReserved(s)
    ensures HeldWhenReserved(FloorPlan.CreateTable(s, name, r).state)
    ensures ReservesNothing(s.tables, FloorPlan.CreateTable(s, name, r).state.tables)
  {
    NothingReserved(s, FloorPlan.CreateTable(s, name, r).state);
  }

  lemma UpdateTableHolds(s: State, id: Id, name: Option<string>, r: Rest)
    requires HeldWhenReserved(s)
    ensures HeldWhenReserved(FloorPlan.UpdateTable(s, id, name, r).state)
    ensures ReservesNothing(s.tables, FloorPlan.UpdateTable(s, id, name, r).state.tables)
  {
    NothingReserved(s, FloorPlan.UpdateTable(s, id, name, r).state);
  }

  lemma UpdateLayoutHolds(s: State, id: Id, change: FloorPlan.ZoneChange, r: Rest)
    requires HeldWhenReserved(s)
    ensures HeldWhenReserved(FloorPlan.UpdateLayout(s, id, change, r).state)
    ensures ReservesNothing(s.tables, FloorPlan.UpdateLayout(s, id, change, r).state.tables)
  {
    NothingReserved(s, FloorPlan.UpdateLayout(s, id, change, r).state);
  }

  lemma FloorHolds(s: State, c: FloorCall, r: Rest)
    requires HeldWhenReserved(s)
    ensures var t := PerformFloor(s, c, r).state; HeldWhenReserved(t) && ReservesNothing(s.tables, t.tables)
  {
    match c
    case CreateTable(name) => CreateTableHolds(s, name, r);
    case UpdateTable(id, name) => UpdateTableHolds(s, id, name, r);
    case UpdateLayout(id, change) => UpdateLayoutHolds(s, id, change, r);
    case RemoveTable(id) => DropTablesHolds(s, {id});
    case RemoveZone(id) => RemoveZoneHolds(s, id, r);
    case _ => NothingReserved(s, PerformFloor(s, c, r).state);
  }

  lemma MenuHolds(s: State, c: MenuCall, r: Rest)
    requires HeldWhenReserved(s)
    ensures var t := PerformMenu(s, c, r).state; HeldWhenReserved(t) && ReservesNothing(s.tables, t.tables)
  {
    MenuShape(s, c, r);
    NothingReserved(s, PerformMenu(s, c, r).state);
  }

  lemma EditHolds(s: State, order: nat, c: EditCall, r: Rest)
    requires HeldWhenReserved(s)
    ensures var t := PerformEdit(s, order, c, r).state; HeldWhenReserved(t) && ReservesNothing(s.tables, t.tables)
  {
    EditShape(s, order, c, r);
    NothingReserved(s, PerformEdit(s, order, c, r).state);
  }

  lemma WebhookHolds(s: State, event: Payments.Event)
    requires HeldWhenReserved(s)
    ensures HeldWhenReserved(Payments.Webhook(s, event))
    ensures ReservesNothing(s.tables, Payments.Webhook(s, event).tables)
  {
    NothingReserved(s, Payments.Webhook(s, event));
  }

  lemma CheckoutHolds(s: State, dto: Payments.CheckoutDto, r: Rest)
    requires HeldWhenReserved(s)
    ensures HeldWhenReserved(Payments.Checkout(s, dto, r).state)
    ensures ReservesNothing(s.tables, Payments.Checkout(s, dto, r).state.tables)
  {
    NothingReserved(s, Payments.Checkout(s, dto, r).state);
  }

  lemma MoneyHolds(s: State, c: MoneyCall, r: Rest)
    requires HeldWhenReserved(s)
    ensures var t := PerformMoney(s, c, r).state; HeldWhenReserved(t) && ReservesNothing(s.tables, t.tables)
  {
    match c
    case Checkout(dto) => CheckoutHolds(s, dto, r);
    case CreateIntent(order, intent) =>
      IntentShape(s, order, intent, r);
      NothingReserved(s, PerformMoney(s, c, r).state);
    case _ =>
      SessionShape(s, c, r);
      NothingReserved(s, PerformMoney(s, c, r).state);
  }

  lemma BookingHolds(s: State, c: BookingCall, r: Rest)
    requires HeldWhenReserved(s)
    ensures var t := PerformBooking(s, c, r).state;
            HeldWhenReserved(t) && (!c.ConfirmReservation? ==> ReservesNothing(s.tables, t.tables))
  {
    match c
    case CreateReservation(dto) => CreateReservationHolds(s, dto, r);
    case ConfirmReservation(id) => ConfirmHolds(s, id, r);
    case SeatReservation(id, table) => SeatHolds(s, id, table, r);
    case EndReservation(id, ending) => TerminateHolds(s, id, ending, r);
  }

  predicate Confirms(c: Call) {
    c.OnBooking? && c.bookingCall.ConfirmReservation?
  }

  /** Every call keeps reserved tables held, and only confirming a reservation reserves one. */
  lemma StepHolds(s: State, c: Call)
    requires HeldWhenReserved(s)
    ensures HeldWhenReserved(Step(s, c))
    ensures !Confirms(c) ==> ReservesNothing(s.tables, Step(s, c).tables)
  {
    match c
    case OnMenu(r, menu) => MenuHolds(s, menu, r);
    case OnFloor(r, floor) => FloorHolds(s, floor, r);
    case PlaceOrder(r, kind, lines) => CreateOrderHolds(s, kind, lines, r);
    case EditOrder(r, order, edit) => EditHolds(s, order, edit, r);
    case OnMoney(r, money) => MoneyHolds(s, money, r);
    case OnBooking(r, booking) => BookingHolds(s, booking, r);
    case Webhook(event) => WebhookHolds(s, event);
  }

  /** In every run a RESERVED table is named by some confirmed pre-order or deposit reservation. */
  lemma {:induction false} NeverStuckReserved(config: Config, calls: seq<Call>)
    ensures HeldWhenReserved(Run(Empty(config), calls))
  {
    if calls != [] {
      NeverStuckReserved(config, calls[..|calls| - 1]);
      StepHolds(Run(Empty(config), calls[..|calls| - 1]), calls[|calls| - 1]);
    }
  }

  /** Confirming is the only call that turns a table RESERVED, and it then names the confirmed reservation's. */
  lemma OnlyConfirmReserves(s: State, c: Call, id: Id)
    requires HeldWhenReserved(s)
    requires id in Step(s, c).tables && Step(s, c).tables[id].status == Reserved
    requires id !in s.tables || s.tables[id].status != Reserved
    ensures Confirms(c)
    ensures var i, after := c.bookingCall.reservation, Step(s, c).reservations;
            i < |s.reservations| == |after| && Holds(after[i], id)
  {
    StepHolds(s, c);
    ConfirmReservesItsTable(s, c.bookingCall.reservation, c.rest, id);
  }

  lemma ConfirmReservesItsTable(s: State, reservation: nat, r: Rest, id: Id)
    requires var t := Reservations.Confirm(s, reservation, r).state;
             id in t.tables && t.tables[id].status == Reserved && (id !in s.tables || s.tables[id].status != Reserved)
    ensures var t := Reservations.Confirm(s, reservation, r).state;
            reservation < |s.reservations| == |t.reservations| && Holds(t.reservations[reservation], id)
  {
  }

  // ---------- Reservation life ----------

  predicate SeatedHasOrder(s: State) {
    forall i :: 0 <= i < |s.reservations| && s.reservations[i].status == Seated ==> s.reservations[i].orderId.Some?
  }

  lemma {:induction false} SeatedAlwaysHasOrder(config: Config, calls: seq<Call>)
    ensures SeatedHasOrder(Run(Empty(config), calls))
  {
    if calls != [] {
      var before, after := Run(Empty(config), calls[..|calls| - 1]), Run(Empty(config), calls);
      SeatedAlwaysHasOrder(config, calls[..|calls| - 1]);
      StepEvolves(before, calls[|calls| - 1]);
      forall i | 0 <= i < |after.reservations| && after.reservations[i].status == Seated
        ensures after.reservations[i].orderId.Some?
      {
        if i < |before.reservations| {
          assert ReservationEvolves(before.reservations[i], after.reservations[i]);
        }
      }
    }
  }

  predicate HasStatus(reservations: seq<Reservation>, i: nat, status: ReservationStatus) {
    i < |reservations| && reservations[i].status == status
  }

  /** Whatever is seated after a step was seated or confirmed before it. */
  lemma SeatedBefore(a: seq<Reservation>, b: seq<Reservation>, i: nat)
    requires ReservationsEvolve(a, b) && HasStatus(b, i, Seated)
    ensures HasStatus(a, i, Seated) || HasStatus(a, i, Committed)
  {
    if i < |a| {
      assert ReservationEvolves(a[i], b[i]);
    }
  }

  /** A reservation seated at the end of a run was CONFIRMED at some earlier point of it. */
  lemma {:induction false} SeatedWasConfirmed(config: Config, calls: seq<Call>, i: nat) returns (n: nat)
    requires HasStatus(Run(Empty(config), calls).reservations, i, Seated)
    ensures n < |calls| && HasStatus(Run(Empty(config), calls[..n]).reservations, i, Committed)
  {
    var front := calls[..|calls| - 1];
    StepEvolves(Run(Empty(config), front), calls[|calls| - 1]);
    SeatedBefore(Run(Empty(config), front).reservations, Run(Empty(config), calls).reservations, i);
    if HasStatus(Run(Empty(config), front).reservations, i, Seated) {
      n := SeatedWasConfirmed(config, front, i);
      assert front[..n] == calls[..n];
    } else {
      n := |calls| - 1;
    }
  }
}
