/**
 The other direction of holding a table: a confirmed paid reservation keeps its table from being AVAILABLE,
 and exactly which calls break that.
 */
module Commitments {
  import opened Basics
  import opened OrderStatus
  import opened Store
  import opened Pos
  import opened Frames
  import opened TableHolds
  import Tenancy
  import Orders
  import Payments
  import Reservations

  predicate IsCommitted(r: Reservation) {
    r.status == Committed && r.kind != Informal && r.tableId.Some?
  }

  predicate NotFree(tables: map<Id, Table>, id: Id) {
    id in tables && tables[id].status != Available
  }

  /** The table of a confirmed paid reservation is RESERVED or OCCUPIED. */
  predicate CommitmentsKept(s: State) {
    forall i :: 0 <= i < |s.reservations| && IsCommitted(s.reservations[i]) ==>
      NotFree(s.tables, s.reservations[i].tableId.value)
  }

  /** No reservation becomes committed, and committed ones stay at their table. */
  predicate NoneCommits(a: seq<Reservation>, b: seq<Reservation>) {
    forall i :: 0 <= i < |b| && IsCommitted(b[i]) ==>
      i < |a| && IsCommitted(a[i]) && b[i].tableId == a[i].tableId
  }

  /** No held table becomes AVAILABLE. */
  predicate NoneFreed(s: State, t: State) {
    forall id :: id in s.tables && NotFree(s.tables, id) && IsHeld(t.reservations, id) ==> NotFree(t.tables, id)
  }

  lemma KeptWhen(s: State, t: State)
    requires CommitmentsKept(s) && NoneCommits(s.reservations, t.reservations) && NoneFreed(s, t)
    ensures CommitmentsKept(t)
  {
    forall i | 0 <= i < |t.reservations| && IsCommitted(t.reservations[i])
      ensures NotFree(t.tables, t.reservations[i].tableId.value)
    {
      assert Holds(t.reservations[i], t.reservations[i].tableId.value);
    }
  }

  lemma SameFloor(s: State, t: State)
    requires CommitmentsKept(s) && t.reservations == s.reservations && t.tables == s.tables
    ensures CommitmentsKept(t)
  {
  }

  lemma FloorKeeps(s: State, c: FloorCall, r: Rest)
    requires CommitmentsKept(s) && Tenancy.FreshIds(s)
    ensures CommitmentsKept(PerformFloor(s, c, r).state)
  {
    if Keeps(c) {
      FloorShape(s, c, r);
    } else {
      RemovalShape(s, c, r);
    }
    KeptWhen(s, PerformFloor(s, c, r).state);
  }

  lemma CreateOrderKeeps(s: State, kind: Orders.OrderKind, items: seq<Orders.LineDto>, r: Rest)
    requires CommitmentsKept(s)
    ensures CommitmentsKept(Orders.Create(s, kind, items, r).state)
    ensures Orders.Create(s, kind, items, r).state.reservations == s.reservations
  {
    KeptWhen(s, Orders.Create(s, kind, items, r).state);
  }

  // ---------- Checkout ----------

  /** The guards of checkout hold, and the order sits at a table held by a confirmed paid reservation. */
  predicate CheckoutFrees(s: State, dto: Payments.CheckoutDto, r: Rest) {
    && Payments.TakesPayment(s, dto, r)
    && s.orders[dto.orderId].tableId.Some? && s.orders[dto.orderId].tableId.value in s.tables
    && IsHeld(s.reservations, s.orders[dto.orderId].tableId.value)
  }

  lemma CheckoutKeeps(s: State, dto: Payments.CheckoutDto, r: Rest)
    requires CommitmentsKept(s)
    ensures CommitmentsKept(Payments.Checkout(s, dto, r).state) <==> !CheckoutFrees(s, dto, r)
  {
    var t := Payments.Checkout(s, dto, r).state;
    if CheckoutFrees(s, dto, r) {
      var id := s.orders[dto.orderId].tableId.value;
      var i :| 0 <= i < |s.reservations| && Holds(s.reservations[i], id);
      assert IsCommitted(t.reservations[i]) && !NotFree(t.tables, id);
    } else if Payments.TakesPayment(s, dto, r) {
      KeptWhen(s, t);
    } else {
      SameFloor(s, t);
    }
  }

  lemma MoneyKeeps(s: State, c: MoneyCall, r: Rest)
    requires CommitmentsKept(s)
    ensures CommitmentsKept(PerformMoney(s, c, r).state) <==> !Frees(s, OnMoney(r, c))
  {
    match c
    case Checkout(dto) => CheckoutKeeps(s, dto, r);
    case CreateIntent(order, intent) => IntentShape(s, order, intent, r);
    case _ => SessionShape(s, c, r);
  }

  // ---------- Reservations ----------

  predicate HeldByAnother(reservations: seq<Reservation>, id: nat, tableId: Id) {
    exists j :: 0 <= j < |reservations| && j != id && Holds(reservations[j], tableId)
  }

  /** The guards of ending a reservation hold, and its RESERVED table is also another confirmed one's. */
  predicate EndFrees(s: State, id: nat, r: Rest) {
    && Reservations.Owns(s, id, r)
    && (s.reservations[id].status == Waiting || s.reservations[id].status == Committed)
    && s.reservations[id].tableId.Some? && s.reservations[id].tableId.value in s.tables
    && s.tables[s.reservations[id].tableId.value].status == Reserved
    && HeldByAnother(s.reservations, id, s.reservations[id].tableId.value)
  }

  lemma EndKeeps(s: State, id: nat, ending: Reservations.Ending, r: Rest)
    requires CommitmentsKept(s)
    ensures CommitmentsKept(Reservations.Terminate(s, id, ending, r).state) <==> !EndFrees(s, id, r)
  {
    var t := Reservations.Terminate(s, id, ending, r).state;
    if EndFrees(s, id, r) {
      var tableId := s.reservations[id].tableId.value;
      var j :| 0 <= j < |s.reservations| && j != id && Holds(s.reservations[j], tableId);
      assert t.reservations[j] == s.reservations[j] && IsCommitted(t.reservations[j]) && !NotFree(t.tables, tableId);
    } else if t != s {
      forall tableId | NotFree(s.tables, tableId) && IsHeld(t.reservations, tableId)
        ensures NotFree(t.tables, tableId)
      {
        var j :| 0 <= j < |t.reservations| && Holds(t.reservations[j], tableId);
        assert j != id && Holds(s.reservations[j], tableId);
      }
      KeptWhen(s, t);
    }
  }

  lemma ConfirmKeeps(s: State, id: nat, r: Rest)
    requires CommitmentsKept(s) && Tenancy.Refs(s)
    ensures CommitmentsKept(Reservations.Confirm(s, id, r).state)
  {
    var t := Reservations.Confirm(s, id, r);
    if t.reply.Done? {
      assert Tenancy.ReservationRef(s.tables, s.orders, s.reservations[id]);
    }
  }

  lemma SeatPreorderKeeps(s: State, id: nat)
    requires CommitmentsKept(s) && id < |s.reservations|
    ensures CommitmentsKept(Reservations.SeatWithPreorder(s, id).state)
  {
    KeptWhen(s, Reservations.SeatWithPreorder(s, id).state);
  }

  lemma SeatAtKeeps(s: State, id: nat, tableId: Id, r: Rest)
    requires CommitmentsKept(s) && id < |s.reservations|
    ensures CommitmentsKept(Reservations.SeatAt(s, id, tableId, r).state)
  {
    CreateOrderKeeps(s, Orders.DineIn(tableId), [], r);
    var placed := Orders.Create(s, Orders.DineIn(tableId), [], r);
    KeptWhen(placed.state, Reservations.SeatAt(s, id, tableId, r).state);
  }

  lemma SeatDepositKeeps(s: State, id: nat, r: Rest)
    requires CommitmentsKept(s) && id < |s.reservations|
    ensures CommitmentsKept(Reservations.SeatDepositOnly(s, id, r).state)
  {
    var reservation := s.reservations[id];
    if reservation.tableId.Some? {
      SeatAtKeeps(s, id, reservation.tableId.value, r);
      var seated := Reservations.SeatAt(s, id, reservation.tableId.value, r);
      if seated.reply.Done? && reservation.depositCents > 0 {
        DiscountShape(seated.state, seated.reply.id, Orders.Fixed(reservation.depositCents), r);
      }
    }
  }

  lemma SeatKeeps(s: State, id: nat, tableId: Option<Id>, r: Rest)
    requires CommitmentsKept(s)
    ensures CommitmentsKept(Reservations.Seat(s, id, tableId, r).state)
  {
    if Reservations.Owns(s, id, r) && s.reservations[id].status == Committed {
      match s.reservations[id].kind
      case WithPreorder => SeatPreorderKeeps(s, id);
      case DepositOnly => SeatDepositKeeps(s, id, r);
      case Informal =>
        if tableId.Some? {
          SeatAtKeeps(s, id, tableId.value, r);
        }
    }
  }

  lemma CreateReservationKeeps(s: State, dto: Reservations.ReservationDto, r: Rest)
    requires CommitmentsKept(s)
    ensures CommitmentsKept(Reservations.Create(s, dto, r).state)
  {
    if dto.PreorderDto? {
      CreateOrderKeeps(s, Orders.Takeaway, dto.lines, r);
      KeptWhen(Orders.Create(s, Orders.Takeaway, dto.lines, r).state, Reservations.Create(s, dto, r).state);
    } else {
      KeptWhen(s, Reservations.Create(s, dto, r).state);
    }
  }

  lemma BookingKeeps(s: State, c: BookingCall, r: Rest)
    requires CommitmentsKept(s) && Tenancy.Refs(s)
    ensures CommitmentsKept(PerformBooking(s, c, r).state) <==> !Frees(s, OnBooking(r, c))
  {
    match c
    case CreateReservation(dto) => CreateReservationKeeps(s, dto, r);
    case ConfirmReservation(id) => ConfirmKeeps(s, id, r);
    case SeatReservation(id, table) => SeatKeeps(s, id, table, r);
    case EndReservation(id, ending) => EndKeeps(s, id, ending, r);
  }

  // ---------- Whole runs ----------

  /** The call makes the table of a confirmed paid reservation AVAILABLE. */
  predicate Frees(s: State, c: Call) {
    match c
    case OnMoney(r, money) => money.Checkout? && CheckoutFrees(s, money.checkout, r)
    case OnBooking(r, booking) => booking.EndReservation? && EndFrees(s, booking.reservation, r)
    case _ => false
  }

  /** From kept commitments, a call keeps them if and only if it does not free such a table. */
  lemma StepCommitments(s: State, c: Call)
    requires CommitmentsKept(s) && Tenancy.Refs(s)
    ensures CommitmentsKept(Step(s, c)) <==> !Frees(s, c)
  {
    match c
    case OnMenu(r, menu) => MenuShape(s, menu, r);
    case OnFloor(r, floor) => FloorKeeps(s, floor, r);
    case PlaceOrder(r, kind, lines) => CreateOrderKeeps(s, kind, lines, r);
    case EditOrder(r, order, edit) => EditShape(s, order, edit, r);
    case OnMoney(r, money) => MoneyKeeps(s, money, r);
    case OnBooking(r, booking) => BookingKeeps(s, booking, r);
    case Webhook(event) => WebhookShape(s, event);
  }

  /** A run none of whose calls frees such a table. */
  ghost predicate Faithful(s: State, calls: seq<Call>) {
    calls == [] || (Faithful(s, calls[..|calls| - 1]) && !Frees(Run(s, calls[..|calls| - 1]), calls[|calls| - 1]))
  }

  /** In every such run, the table of a confirmed paid reservation is RESERVED or OCCUPIED. */
  lemma {:induction false} CommitmentsAlwaysKept(config: Config, calls: seq<Call>)
    requires Faithful(Empty(config), calls)
    ensures CommitmentsKept(Run(Empty(config), calls))
  {
    if calls != [] {
      CommitmentsAlwaysKept(config, calls[..|calls| - 1]);
      Tenancy.AlwaysRefs(config, calls[..|calls| - 1]);
      StepCommitments(Run(Empty(config), calls[..|calls| - 1]), calls[|calls| - 1]);
    }
  }
}
