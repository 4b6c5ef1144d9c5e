/**
 Open tickets: when a table has at most one DRAFT or PENDING order, exactly which calls break that, and when
 reopening a table returns its open order.
 */
module OpenTickets {
  import opened Basics
  import opened OrderStatus
  import opened Store
  import opened Pos
  import opened Frames
  import Tenancy
  import Orders
  import Payments
  import Reservations

  predicate OpenAt(o: Order, id: Id) {
    IsEditable(o.status) && o.tableId == Some(id)
  }

  predicate HasOpen(orders: seq<Order>, id: Id) {
    exists i :: 0 <= i < |orders| && OpenAt(orders[i], id)
  }

  /** Orders still open at a table sit at an OCCUPIED one. */
  predicate OpenMeansOccupied(orders: seq<Order>, tables: map<Id, Table>) {
    forall i :: 0 <= i < |orders| && IsEditable(orders[i].status) && orders[i].tableId.Some? ==>
      orders[i].tableId.value in tables && tables[orders[i].tableId.value].status == Occupied
  }

  predicate ShareTable(a: Order, b: Order) {
    IsEditable(a.status) && IsEditable(b.status) && a.tableId.Some? && a.tableId == b.tableId
  }

  predicate AtMostOneOpen(orders: seq<Order>) {
    forall i, j :: 0 <= i < j < |orders| ==> !ShareTable(orders[i], orders[j])
  }

  /** A table that is not OCCUPIED has no open order, an OCCUPIED one at most one. */
  predicate OneTicket(s: State) {
    OpenMeansOccupied(s.orders, s.tables) && AtMostOneOpen(s.orders)
  }

  /** No order was opened or brought to a table. */
  predicate NoneOpened(a: seq<Order>, b: seq<Order>) {
    forall i :: 0 <= i < |b| && IsEditable(b[i].status) && b[i].tableId.Some? ==>
      i < |a| && IsEditable(a[i].status) && a[i].tableId == b[i].tableId
  }

  lemma TicketsKept(s: State, t: State)
    requires OneTicket(s) && NoneOpened(s.orders, t.orders)
    requires forall id :: id in s.tables && s.tables[id].status == Occupied && HasOpen(t.orders, id) ==>
               id in t.tables && t.tables[id].status == Occupied
    ensures OneTicket(t)
  {
    forall i | 0 <= i < |t.orders| && IsEditable(t.orders[i].status) && t.orders[i].tableId.Some?
      ensures t.orders[i].tableId.value in t.tables && t.tables[t.orders[i].tableId.value].status == Occupied
    {
      assert OpenAt(t.orders[i], t.orders[i].tableId.value);
    }
  }

  lemma SameTables(s: State, t: State)
    requires OneTicket(s) && NoneOpened(s.orders, t.orders) && t.tables == s.tables
    ensures OneTicket(t)
  {
    TicketsKept(s, t);
  }

  // ---------- Opening orders ----------

  lemma {:induction false} NoActiveNoOpen(orders: seq<Order>, id: Id, r: Rest)
    requires Orders.LatestActive(orders, id, r).None?
    requires forall i :: 0 <= i < |orders| && orders[i].tableId == Some(id) ==> orders[i].rest == r
    ensures !HasOpen(orders, id)
  {
    if orders != [] {
      var n := |orders| - 1;
      NoActiveNoOpen(orders[..n], id, r);
      forall i | 0 <= i < |orders|
        ensures !OpenAt(orders[i], id)
      {
        if i < n {
          assert !OpenAt(orders[..n][i], id);
        }
      }
    }
  }

  lemma TableOwner(s: State, id: Id, i: nat)
    requires Tenancy.Refs(s) && i < |s.orders| && s.orders[i].tableId == Some(id)
    ensures id in s.tables && s.orders[i].rest == s.tables[id].rest
  {
    assert Tenancy.OrderRef(s.tables, s.menu, s.orders[i]);
  }

  /** A table an order is inserted for has no open order. */
  lemma FreeForInsert(s: State, id: Id, r: Rest)
    requires OneTicket(s) && Tenancy.Refs(s) && id in s.tables && s.tables[id].rest == r
    requires s.tables[id].status == Occupied ==> Orders.LatestActive(s.orders, id, r).None?
    ensures !HasOpen(s.orders, id)
  {
    if s.tables[id].status == Occupied {
      forall i | 0 <= i < |s.orders| && s.orders[i].tableId == Some(id)
        ensures s.orders[i].rest == r
      {
        TableOwner(s, id, i);
      }
      NoActiveNoOpen(s.orders, id, r);
    }
  }

  lemma InsertTickets(s: State, tableId: Option<Id>, items: seq<Orders.LineDto>, r: Rest)
    requires OneTicket(s) && (tableId.Some? ==> tableId.value in s.tables && !HasOpen(s.orders, tableId.value))
    ensures OneTicket(Orders.InsertOrder(s, tableId, items, r).state)
  {
    var t := Orders.InsertOrder(s, tableId, items, r);
    if t.reply.Done? {
      forall i | 0 <= i < |s.orders|
        ensures tableId.Some? ==> !OpenAt(s.orders[i], tableId.value)
      {
      }
    }
  }

  lemma CreateTickets(s: State, kind: Orders.OrderKind, items: seq<Orders.LineDto>, r: Rest)
    requires OneTicket(s) && Tenancy.Refs(s)
    ensures OneTicket(Orders.Create(s, kind, items, r).state)
  {
    match kind
    case Takeaway => InsertTickets(s, None, items, r);
    case DineIn(id) =>
      if id in s.tables && s.tables[id].rest == r
         && (s.tables[id].status == Occupied ==> Orders.LatestActive(s.orders, id, r).None?) {
        FreeForInsert(s, id, r);
        InsertTickets(s, Some(id), items, r);
      }
  }

  // ---------- The other calls ----------

  /** An order row that keeps its table and opens nothing. */
  lemma OrderWritten(orders: seq<Order>, id: nat, o: Order)
    requires id < |orders| && o.tableId == orders[id].tableId
    requires IsEditable(o.status) ==> IsEditable(orders[id].status)
    ensures NoneOpened(orders, orders[id := o])
  {
  }

  lemma EditTickets(s: State, order: nat, c: EditCall, r: Rest)
    requires OneTicket(s)
    ensures OneTicket(PerformEdit(s, order, c, r).state)
  {
    EditShape(s, order, c, r);
    EditedKept(s, PerformEdit(s, order, c, r).state, order);
  }

  lemma EditedKept(s: State, t: State, order: nat)
    requires OneTicket(s) && EditsOneOrder(s, t, order)
    ensures OneTicket(t)
  {
    if t.orders != s.orders {
      if s.orders[order].status != t.orders[order].status {
        TransitionRaisesRank(s.orders[order].status, t.orders[order].status);
      }
      OrderWritten(s.orders, order, t.orders[order]);
    }
    SameTables(s, t);
  }

  lemma DiscountTickets(s: State, order: nat, discount: Orders.Discount, r: Rest)
    requires OneTicket(s)
    ensures OneTicket(Orders.ApplyDiscount(s, order, discount, r).state)
  {
    DiscountShape(s, order, discount, r);
    EditedKept(s, Orders.ApplyDiscount(s, order, discount, r).state, order);
  }

  lemma CheckoutTickets(s: State, dto: Payments.CheckoutDto, r: Rest)
    requires OneTicket(s)
    ensures OneTicket(Payments.Checkout(s, dto, r).state)
  {
    var t := Payments.Checkout(s, dto, r).state;
    if t != s {
      var o := s.orders[dto.orderId];
      if o.tableId.Some? {
        forall i | 0 <= i < |t.orders|
          ensures !OpenAt(t.orders[i], o.tableId.value)
        {
          assert i < dto.orderId || i == dto.orderId || dto.orderId < i;
        }
      }
      TicketsKept(s, t);
    }
  }

  lemma WebhookTickets(s: State, event: Payments.Event)
    requires OneTicket(s)
    ensures OneTicket(Payments.Webhook(s, event))
  {
    WebhookShape(s, event);
    SameTables(s, Payments.Webhook(s, event));
  }

  lemma DropTablesTickets(s: State, gone: set<Id>)
    requires OneTicket(s)
    ensures OneTicket(DropTables(s, gone))
  {
    TicketsKept(s, DropTables(s, gone));
  }

  lemma TablesWrittenTickets(s: State, t: State)
    requires OneTicket(s) && t.orders == s.orders
    requires forall id :: id in s.tables ==> id in t.tables && t.tables[id].status == s.tables[id].status
    ensures OneTicket(t)
  {
    TicketsKept(s, t);
  }

  lemma FloorTickets(s: State, c: FloorCall, r: Rest)
    requires OneTicket(s) && Tenancy.FreshIds(s)
    ensures OneTicket(PerformFloor(s, c, r).state)
  {
    var t := PerformFloor(s, c, r).state;
    if Keeps(c) {
      FloorShape(s, c, r);
      TablesWrittenTickets(s, t);
    } else {
      RemovalShape(s, c, r);
      var mid := DropTables(s, Deleted(s, c, r));
      DropTablesTickets(s, Deleted(s, c, r));
      TablesWrittenTickets(mid, t);
    }
  }

  lemma MenuTickets(s: State, c: MenuCall, r: Rest)
    requires OneTicket(s)
    ensures OneTicket(PerformMenu(s, c, r).state)
  {
    MenuShape(s, c, r);
    SameTables(s, PerformMenu(s, c, r).state);
  }

  lemma TerminateTickets(s: State, id: nat, ending: Reservations.Ending, r: Rest)
    requires OneTicket(s)
    ensures OneTicket(Reservations.Terminate(s, id, ending, r).state)
  {
    TicketsKept(s, Reservations.Terminate(s, id, ending, r).state);
  }

  lemma CreateReservationTickets(s: State, dto: Reservations.ReservationDto, r: Rest)
    requires OneTicket(s) && Tenancy.Refs(s)
    ensures OneTicket(Reservations.Create(s, dto, r).state)
  {
    if dto.PreorderDto? {
      CreateTickets(s, Orders.Takeaway, dto.lines, r);
    }
  }

  // ---------- The two calls that can break it ----------

  /** A paid reservation is confirmed on a table that still has an open order. */
  predicate ConfirmsBusyTable(s: State, id: nat) {
    && id < |s.reservations| && s.reservations[id].kind != Informal && s.reservations[id].tableId.Some?
    && HasOpen(s.orders, s.reservations[id].tableId.value)
  }

  /** An open order other than the given one at a table. */
  predicate OtherOpen(orders: seq<Order>, orderId: nat, id: Id) {
    exists j :: 0 <= j < |orders| && j != orderId && OpenAt(orders[j], id)
  }

  /** An open pre-order is brought to a table that has another open order. */
  predicate SeatsOnBusyTable(s: State, id: nat) {
    && id < |s.reservations| && s.reservations[id].kind == WithPreorder
    && s.reservations[id].tableId.Some? && s.reservations[id].orderId.Some?
    && s.reservations[id].orderId.value < |s.orders|
    && IsEditable(s.orders[s.reservations[id].orderId.value].status)
    && OtherOpen(s.orders, s.reservations[id].orderId.value, s.reservations[id].tableId.value)
  }

  /** The guards of confirm hold, and the reservation's table has an open order. */
  predicate ConfirmClashes(s: State, id: nat, r: Rest) {
    Reservations.Owns(s, id, r) && s.reservations[id].status == Waiting && ConfirmsBusyTable(s, id)
  }

  /** The guards of seat hold, and the pre-order meets another open order. */
  predicate SeatClashes(s: State, id: nat, r: Rest) {
    Reservations.Owns(s, id, r) && s.reservations[id].status == Committed && SeatsOnBusyTable(s, id)
  }

  /** The call puts a second use on a table with an open order. */
  predicate Clashes(s: State, c: Call) {
    && c.OnBooking?
    && match c.bookingCall
       case ConfirmReservation(id) => ConfirmClashes(s, id, c.rest)
       case SeatReservation(id, _) => SeatClashes(s, id, c.rest)
       case _ => false
  }

  lemma ConfirmTickets(s: State, id: nat, r: Rest)
    requires OneTicket(s)
    ensures OneTicket(Reservations.Confirm(s, id, r).state) <==> !ConfirmClashes(s, id, r)
  {
    var t := Reservations.Confirm(s, id, r);
    if t.reply.Done? {
      if ConfirmsBusyTable(s, id) {
        var tableId := s.reservations[id].tableId.value;
        var i :| 0 <= i < |s.orders| && OpenAt(s.orders[i], tableId);
        assert t.state.orders[i] == s.orders[i] && t.state.tables[tableId].status == Reserved;
      } else {
        TicketsKept(s, t.state);
      }
    }
  }

  lemma SeatPreorderTickets(s: State, id: nat)
    requires OneTicket(s) && Tenancy.Refs(s) && id < |s.reservations| && s.reservations[id].kind == WithPreorder
    ensures OneTicket(Reservations.SeatWithPreorder(s, id).state) <==> !SeatsOnBusyTable(s, id)
  {
    var t := Reservations.SeatWithPreorder(s, id);
    if t.reply.Done? {
      var reservation := s.reservations[id];
      assert Tenancy.ReservationRef(s.tables, s.orders, reservation);
      var orderId, tableId := reservation.orderId.value, reservation.tableId.value;
      if SeatsOnBusyTable(s, id) {
        var j :| 0 <= j < |s.orders| && j != orderId && OpenAt(s.orders[j], tableId);
        assert t.state.orders[j] == s.orders[j];
        assert IsEditable(t.state.orders[orderId].status) && t.state.orders[orderId].tableId == Some(tableId);
        assert j < orderId || orderId < j;
      } else {
        forall j | 0 <= j < |s.orders| && j != orderId && IsEditable(s.orders[orderId].status)
          ensures !OpenAt(s.orders[j], tableId)
        {
        }
      }
    }
  }

  lemma SeatAtTickets(s: State, id: nat, tableId: Id, r: Rest)
    requires OneTicket(s) && Tenancy.Refs(s) && id < |s.reservations|
    ensures OneTicket(Reservations.SeatAt(s, id, tableId, r).state)
  {
    CreateTickets(s, Orders.DineIn(tableId), [], r);
  }

  lemma SeatDepositTickets(s: State, id: nat, r: Rest)
    requires OneTicket(s) && Tenancy.Refs(s) && id < |s.reservations|
    ensures OneTicket(Reservations.SeatDepositOnly(s, id, r).state)
  {
    var reservation := s.reservations[id];
    if reservation.tableId.Some? {
      SeatAtTickets(s, id, reservation.tableId.value, r);
      var seated := Reservations.SeatAt(s, id, reservation.tableId.value, r);
      if seated.reply.Done? && reservation.depositCents > 0 {
        DiscountTickets(seated.state, seated.reply.id, Orders.Fixed(reservation.depositCents), r);
      }
    }
  }

  lemma SeatTickets(s: State, id: nat, tableId: Option<Id>, r: Rest)
    requires OneTicket(s) && Tenancy.Refs(s)
    ensures OneTicket(Reservations.Seat(s, id, tableId, r).state) <==> !SeatClashes(s, id, r)
  {
    if Reservations.Owns(s, id, r) && s.reservations[id].status == Committed {
      match s.reservations[id].kind
      case WithPreorder => SeatPreorderTickets(s, id);
      case DepositOnly => SeatDepositTickets(s, id, r);
      case Informal =>
        if tableId.Some? {
          SeatAtTickets(s, id, tableId.value, r);
        }
    }
  }

  lemma BookingTickets(s: State, c: BookingCall, r: Rest)
    requires OneTicket(s) && Tenancy.Refs(s)
    ensures OneTicket(PerformBooking(s, c, r).state) <==> !Clashes(s, OnBooking(r, c))
  {
    match c
    case CreateReservation(dto) => CreateReservationTickets(s, dto, r);
    case ConfirmReservation(id) => ConfirmTickets(s, id, r);
    case SeatReservation(id, table) => SeatTickets(s, id, table, r);
    case EndReservation(id, ending) => TerminateTickets(s, id, ending, r);
  }

  lemma MoneyTickets(s: State, c: MoneyCall, r: Rest)
    requires OneTicket(s)
    ensures OneTicket(PerformMoney(s, c, r).state)
  {
    match c
    case Checkout(dto) => CheckoutTickets(s, dto, r);
    case CreateIntent(order, intent) =>
      IntentShape(s, order, intent, r);
      SameTables(s, PerformMoney(s, c, r).state);
    case _ =>
      SessionShape(s, c, r);
      SameTables(s, PerformMoney(s, c, r).state);
  }

  /** From a state with one ticket per table, a call keeps that exactly when it does not clash. */
  lemma StepTickets(s: State, c: Call)
    requires OneTicket(s) && Tenancy.Refs(s)
    ensures OneTicket(Step(s, c)) <==> !Clashes(s, c)
  {
    match c
    case OnMenu(r, menu) => MenuTickets(s, menu, r);
    case OnFloor(r, floor) => FloorTickets(s, floor, r);
    case PlaceOrder(r, kind, lines) => CreateTickets(s, kind, lines, r);
    case EditOrder(r, order, edit) => EditTickets(s, order, edit, r);
    case OnMoney(r, money) => MoneyTickets(s, money, r);
    case OnBooking(r, booking) => BookingTickets(s, booking, r);
    case Webhook(event) => WebhookTickets(s, event);
  }

  /** A run none of whose calls clashes. */
  ghost predicate Polite(s: State, calls: seq<Call>) {
    calls == [] || (Polite(s, calls[..|calls| - 1]) && !Clashes(Run(s, calls[..|calls| - 1]), calls[|calls| - 1]))
  }

  /** One open ticket per table, in every run without a clashing call. */
  lemma {:induction false} OneTicketAlways(config: Config, calls: seq<Call>)
    requires Polite(Empty(config), calls)
    ensures OneTicket(Run(Empty(config), calls))
  {
    if calls != [] {
      OneTicketAlways(config, calls[..|calls| - 1]);
      Tenancy.AlwaysRefs(config, calls[..|calls| - 1]);
      StepTickets(Run(Empty(config), calls[..|calls| - 1]), calls[|calls| - 1]);
    }
  }

  /** Confirming on an AVAILABLE table never clashes. */
  lemma AvailableIsFree(s: State, r: Rest, id: nat)
    requires OneTicket(s)
    requires id < |s.reservations| && s.reservations[id].tableId.Some? ==>
               s.reservations[id].tableId.value in s.tables
               && s.tables[s.reservations[id].tableId.value].status == Available
    ensures !Clashes(s, OnBooking(r, ConfirmReservation(id)))
  {
  }
}
