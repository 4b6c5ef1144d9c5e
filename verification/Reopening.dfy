/**
 Reopening a table: asking for an order at a table answers with its newest active order, which is its open
 order exactly when no active order there is younger.
 */
module Reopening {
  import opened Basics
  import opened OrderStatus
  import opened Store
  import opened Pos
  import opened Evolution
  import opened Frames
  import opened OpenTickets
  import Tenancy
  import Orders
  import Payments
  import Reservations

  predicate ActiveAt(o: Order, id: Id) {
    IsActive(o.status) && o.tableId == Some(id)
  }

  /** The first order is open at the table where the second is active. */
  predicate Covers(a: Order, b: Order) {
    IsEditable(a.status) && a.tableId.Some? && ActiveAt(b, a.tableId.value)
  }

  /** No open order has a younger active order at its table. */
  predicate OpenIsNewest(orders: seq<Order>) {
    forall i, j :: 0 <= i < j < |orders| ==> !Covers(orders[i], orders[j])
  }

  // ---------- What it means ----------

  /** Asking for an order at the table of an open order writes nothing and answers with that order. */
  ghost predicate Reopens(s: State, i: nat)
    requires i < |s.orders|
  {
    IsEditable(s.orders[i].status) && s.orders[i].tableId.Some? ==>
      forall items ::
        Orders.Create(s, Orders.DineIn(s.orders[i].tableId.value), items, s.orders[i].rest) == Result(s, Done(i))
  }

  ghost predicate AlwaysReopens(s: State) {
    forall i :: 0 <= i < |s.orders| ==> Reopens(s, i)
  }

  lemma {:induction false} LatestIsOpen(orders: seq<Order>, i: nat, id: Id, r: Rest)
    requires OpenIsNewest(orders) && i < |orders| && OpenAt(orders[i], id) && orders[i].rest == r
    ensures Orders.LatestActive(orders, id, r) == Some(i)
  {
    var n := |orders| - 1;
    if i < n {
      assert !Covers(orders[i], orders[n]);
      LatestIsOpen(orders[..n], i, id, r);
    }
  }

  lemma {:induction false} LatestIsLate(orders: seq<Order>, j: nat, id: Id, r: Rest)
    requires j < |orders| && ActiveAt(orders[j], id) && orders[j].rest == r
    ensures var found := Orders.LatestActive(orders, id, r); found.Some? && found.value >= j
  {
    if j < |orders| - 1 {
      LatestIsLate(orders[..|orders| - 1], j, id, r);
    }
  }

  lemma NewestReopens(s: State, i: nat)
    requires OneTicket(s) && Tenancy.Refs(s) && i < |s.orders| && OpenIsNewest(s.orders)
    ensures Reopens(s, i)
  {
    if IsEditable(s.orders[i].status) && s.orders[i].tableId.Some? {
      TableOwner(s, s.orders[i].tableId.value, i);
      LatestIsOpen(s.orders, i, s.orders[i].tableId.value, s.orders[i].rest);
    }
  }

  lemma CoveredDoesNotReopen(s: State, i: nat, j: nat)
    requires OneTicket(s) && Tenancy.Refs(s) && i < j < |s.orders| && Covers(s.orders[i], s.orders[j])
    ensures !Reopens(s, i)
  {
    var id := s.orders[i].tableId.value;
    TableOwner(s, id, i);
    TableOwner(s, id, j);
    LatestIsLate(s.orders, j, id, s.orders[i].rest);
    assert Orders.Create(s, Orders.DineIn(id), [], s.orders[i].rest) != Result(s, Done(i));
  }

  /**
   From one ticket per table, every open order is answered with itself if and only if no open order has a
   younger active order at its table.
   */
  lemma ReopensExactly(s: State)
    requires OneTicket(s) && Tenancy.Refs(s)
    ensures AlwaysReopens(s) <==> OpenIsNewest(s.orders)
  {
    if OpenIsNewest(s.orders) {
      forall i | 0 <= i < |s.orders|
        ensures Reopens(s, i)
      {
        NewestReopens(s, i);
      }
    }
    forall i, j | 0 <= i < j < |s.orders| && Covers(s.orders[i], s.orders[j])
      ensures !AlwaysReopens(s)
    {
      CoveredDoesNotReopen(s, i, j);
    }
  }

  // ---------- Calls that open nothing ----------

  /** Orders stay where they are or leave their table, and none is opened or comes back to life. */
  predicate OnlyLeave(a: seq<Order>, b: seq<Order>) {
    |b| == |a| && forall i :: 0 <= i < |a| ==> Leaves(a[i], b[i])
  }

  predicate Leaves(a: Order, b: Order) {
    && (b.tableId == a.tableId || b.tableId.None?)
    && (IsEditable(b.status) ==> IsEditable(a.status))
    && (IsActive(b.status) ==> IsActive(a.status))
  }

  lemma NewestKept(a: seq<Order>, b: seq<Order>)
    requires OpenIsNewest(a) && OnlyLeave(a, b)
    ensures OpenIsNewest(b)
  {
    forall i, j | 0 <= i < j < |b|
      ensures !Covers(b[i], b[j])
    {
      assert !Covers(a[i], a[j]) && Leaves(a[i], b[i]) && Leaves(a[j], b[j]);
    }
  }

  lemma MovedAlong(from: Status, to: Status)
    requires CanTransition(from, to)
    ensures IsActive(from) && (IsEditable(to) ==> IsEditable(from))
  {
    TransitionRaisesRank(from, to);
  }

  lemma EditedNewest(s: State, t: State, order: nat)
    requires OpenIsNewest(s.orders) && EditsOneOrder(s, t, order)
    ensures OpenIsNewest(t.orders)
  {
    if t.orders != s.orders && t.orders[order].status != s.orders[order].status {
      MovedAlong(s.orders[order].status, t.orders[order].status);
    }
    NewestKept(s.orders, t.orders);
  }

  lemma EditNewest(s: State, order: nat, c: EditCall, r: Rest)
    requires OpenIsNewest(s.orders)
    ensures OpenIsNewest(PerformEdit(s, order, c, r).state.orders)
  {
    EditShape(s, order, c, r);
    EditedNewest(s, PerformEdit(s, order, c, r).state, order);
  }

  lemma FloorNewest(s: State, c: FloorCall, r: Rest)
    requires OpenIsNewest(s.orders)
    ensures OpenIsNewest(PerformFloor(s, c, r).state.orders)
  {
    if Keeps(c) {
      FloorShape(s, c, r);
    } else {
      RemovalShape(s, c, r);
      NewestKept(s.orders, DropTables(s, Deleted(s, c, r)).orders);
    }
  }

  lemma WebhookNewest(s: State, event: Payments.Event)
    requires OpenIsNewest(s.orders)
    ensures OpenIsNewest(Payments.Webhook(s, event).orders)
  {
    WebhookShape(s, event);
    NewestKept(s.orders, Payments.Webhook(s, event).orders);
  }

  lemma CheckoutNewest(s: State, dto: Payments.CheckoutDto, r: Rest)
    requires OpenIsNewest(s.orders)
    ensures OpenIsNewest(Payments.Checkout(s, dto, r).state.orders)
  {
    NewestKept(s.orders, Payments.Checkout(s, dto, r).state.orders);
  }

  lemma MoneyNewest(s: State, c: MoneyCall, r: Rest)
    requires OpenIsNewest(s.orders)
    ensures OpenIsNewest(PerformMoney(s, c, r).state.orders)
  {
    match c
    case Checkout(dto) => CheckoutNewest(s, dto, r);
    case CreateIntent(order, intent) => IntentShape(s, order, intent, r);
    case _ => SessionShape(s, c, r);
  }

  // ---------- Opening orders ----------

  lemma InsertNewest(s: State, tableId: Option<Id>, items: seq<Orders.LineDto>, r: Rest)
    requires OpenIsNewest(s.orders) && (tableId.Some? ==> !HasOpen(s.orders, tableId.value))
    ensures OpenIsNewest(Orders.InsertOrder(s, tableId, items, r).state.orders)
  {
    forall i | 0 <= i < |s.orders|
      ensures tableId.Some? ==> !OpenAt(s.orders[i], tableId.value)
    {
    }
  }

  lemma CreateNewest(s: State, kind: Orders.OrderKind, items: seq<Orders.LineDto>, r: Rest)
    requires OneTicket(s) && Tenancy.Refs(s) && OpenIsNewest(s.orders)
    ensures OpenIsNewest(Orders.Create(s, kind, items, r).state.orders)
  {
    match kind
    case Takeaway => InsertNewest(s, None, items, r);
    case DineIn(id) =>
      if id in s.tables && s.tables[id].rest == r
         && (s.tables[id].status == Occupied ==> Orders.LatestActive(s.orders, id, r).None?) {
        FreeForInsert(s, id, r);
        InsertNewest(s, Some(id), items, r);
      }
  }

  // ---------- Reservations ----------

  /** The moved order is active over an older open order, or open under a younger active one. */
  predicate ComesBetween(orders: seq<Order>, orderId: nat, id: Id) {
    && orderId < |orders|
    && (|| (IsActive(orders[orderId].status) && exists i :: 0 <= i < orderId && OpenAt(orders[i], id))
        || (IsEditable(orders[orderId].status) && exists j :: orderId < j < |orders| && ActiveAt(orders[j], id)))
  }

  /** The guards of seat hold, and the pre-order comes between orders at the table. */
  predicate SeatsBetween(s: State, id: nat, r: Rest) {
    && Reservations.Owns(s, id, r) && s.reservations[id].status == Committed
    && s.reservations[id].kind == WithPreorder
    && s.reservations[id].tableId.Some? && s.reservations[id].orderId.Some?
    && ComesBetween(s.orders, s.reservations[id].orderId.value, s.reservations[id].tableId.value)
  }

  lemma MovedNewest(orders: seq<Order>, orderId: nat, id: Id)
    requires OpenIsNewest(orders) && orderId < |orders|
    ensures OpenIsNewest(orders[orderId := orders[orderId].(tableId := Some(id))]) <==>
              !ComesBetween(orders, orderId, id)
  {
    var o := orders[orderId];
    var moved := orders[orderId := o.(tableId := Some(id))];
    forall i | 0 <= i < orderId && OpenAt(orders[i], id) && IsActive(o.status)
      ensures Covers(moved[i], moved[orderId])
    {
    }
    forall j | orderId < j < |orders| && ActiveAt(orders[j], id) && IsEditable(o.status)
      ensures Covers(moved[orderId], moved[j])
    {
    }
    if !ComesBetween(orders, orderId, id) {
      forall i, j | 0 <= i < j < |moved|
        ensures !Covers(moved[i], moved[j])
      {
        assert !Covers(orders[i], orders[j]);
        assert j == orderId && IsActive(o.status) ==> !OpenAt(orders[i], id);
        assert i == orderId && IsEditable(o.status) ==> !ActiveAt(orders[j], id);
      }
    }
  }

  lemma SeatPreorderNewest(s: State, id: nat, r: Rest)
    requires OpenIsNewest(s.orders) && Tenancy.Refs(s)
    requires Reservations.Owns(s, id, r) && s.reservations[id].status == Committed
    requires s.reservations[id].kind == WithPreorder
    ensures OpenIsNewest(Reservations.SeatWithPreorder(s, id).state.orders) <==> !SeatsBetween(s, id, r)
  {
    var reservation := s.reservations[id];
    assert Tenancy.ReservationRef(s.tables, s.orders, reservation);
    if reservation.orderId.Some? && reservation.tableId.Some? {
      MovedNewest(s.orders, reservation.orderId.value, reservation.tableId.value);
    }
  }

  lemma SeatAtNewest(s: State, id: nat, tableId: Id, r: Rest)
    requires OneTicket(s) && Tenancy.Refs(s) && OpenIsNewest(s.orders) && id < |s.reservations|
    ensures OpenIsNewest(Reservations.SeatAt(s, id, tableId, r).state.orders)
  {
    CreateNewest(s, Orders.DineIn(tableId), [], r);
  }

  lemma SeatDepositNewest(s: State, id: nat, r: Rest)
    requires OneTicket(s) && Tenancy.Refs(s) && OpenIsNewest(s.orders) && id < |s.reservations|
    ensures OpenIsNewest(Reservations.SeatDepositOnly(s, id, r).state.orders)
  {
    var reservation := s.reservations[id];
    if reservation.tableId.Some? {
      SeatAtNewest(s, id, reservation.tableId.value, r);
      var seated := Reservations.SeatAt(s, id, reservation.tableId.value, r);
      if seated.reply.Done? && reservation.depositCents > 0 {
        var discount := Orders.Fixed(reservation.depositCents);
        DiscountShape(seated.state, seated.reply.id, discount, r);
        var t := Orders.ApplyDiscount(seated.state, seated.reply.id, discount, r).state;
        EditedNewest(seated.state, t, seated.reply.id);
      }
    }
  }

  lemma SeatNewest(s: State, id: nat, tableId: Option<Id>, r: Rest)
    requires OneTicket(s) && Tenancy.Refs(s) && OpenIsNewest(s.orders)
    ensures OpenIsNewest(Reservations.Seat(s, id, tableId, r).state.orders) <==> !SeatsBetween(s, id, r)
  {
    if Reservations.Owns(s, id, r) && s.reservations[id].status == Committed {
      match s.reservations[id].kind
      case WithPreorder => SeatPreorderNewest(s, id, r);
      case DepositOnly => SeatDepositNewest(s, id, r);
      case Informal =>
        if tableId.Some? {
          SeatAtNewest(s, id, tableId.value, r);
        }
    }
  }

  lemma CreateReservationNewest(s: State, dto: Reservations.ReservationDto, r: Rest)
    requires OneTicket(s) && Tenancy.Refs(s) && OpenIsNewest(s.orders)
    ensures OpenIsNewest(Reservations.Create(s, dto, r).state.orders)
  {
    if dto.PreorderDto? {
      CreateNewest(s, Orders.Takeaway, dto.lines, r);
    }
  }

  // ---------- Whole runs ----------

  /** The call seats an active pre-order over an older open order, or an open one under a younger active one. */
  predicate Crosses(s: State, c: Call) {
    c.OnBooking? && c.bookingCall.SeatReservation? && SeatsBetween(s, c.bookingCall.reservation, c.rest)
  }

  lemma BookingNewest(s: State, c: BookingCall, r: Rest)
    requires OneTicket(s) && Tenancy.Refs(s) && OpenIsNewest(s.orders)
    ensures OpenIsNewest(PerformBooking(s, c, r).state.orders) <==> !Crosses(s, OnBooking(r, c))
  {
    match c
    case CreateReservation(dto) => CreateReservationNewest(s, dto, r);
    case SeatReservation(id, table) => SeatNewest(s, id, table, r);
    case ConfirmReservation(id) => ConfirmShape(s, id, r);
    case EndReservation(id, ending) => TerminateShape(s, id, ending, r);
  }

  /** A call keeps every open order the newest active one at its table if and only if it does not cross. */
  lemma StepNewest(s: State, c: Call)
    requires OneTicket(s) && Tenancy.Refs(s) && OpenIsNewest(s.orders)
    ensures OpenIsNewest(Step(s, c).orders) <==> !Crosses(s, c)
  {
    match c
    case OnMenu(r, menu) => MenuShape(s, menu, r);
    case OnFloor(r, floor) => FloorNewest(s, floor, r);
    case PlaceOrder(r, kind, lines) => CreateNewest(s, kind, lines, r);
    case EditOrder(r, order, edit) => EditNewest(s, order, edit, r);
    case OnMoney(r, money) => MoneyNewest(s, money, r);
    case OnBooking(r, booking) => BookingNewest(s, booking, r);
    case Webhook(event) => WebhookNewest(s, event);
  }

  /** A run none of whose calls clashes or crosses. */
  ghost predicate Tidy(s: State, calls: seq<Call>) {
    calls == [] || (
      var before := Run(s, calls[..|calls| - 1]);
      Tidy(s, calls[..|calls| - 1]) && !Clashes(before, calls[|calls| - 1]) && !Crosses(before, calls[|calls| - 1]))
  }

  lemma {:induction false} AlwaysNewest(config: Config, calls: seq<Call>)
    requires Tidy(Empty(config), calls)
    ensures OneTicket(Run(Empty(config), calls)) && OpenIsNewest(Run(Empty(config), calls).orders)
  {
    if calls != [] {
      var before := Run(Empty(config), calls[..|calls| - 1]);
      AlwaysNewest(config, calls[..|calls| - 1]);
      Tenancy.AlwaysRefs(config, calls[..|calls| - 1]);
      StepTickets(before, calls[|calls| - 1]);
      StepNewest(before, calls[|calls| - 1]);
    }
  }

  /**
   In every run without a clash, asking for an order at a table answers with the table's open order, whenever
   it has one, if and only if no open order has a younger active order at its table.
   */
  lemma ReopenReturnsOpen(config: Config, calls: seq<Call>)
    requires Polite(Empty(config), calls)
    ensures AlwaysReopens(Run(Empty(config), calls)) <==> OpenIsNewest(Run(Empty(config), calls).orders)
  {
    OneTicketAlways(config, calls);
    Tenancy.AlwaysRefs(config, calls);
    ReopensExactly(Run(Empty(config), calls));
  }

  /** So it does in every tidy run. */
  lemma TidyRunsReopen(config: Config, calls: seq<Call>)
    requires Tidy(Empty(config), calls)
    ensures AlwaysReopens(Run(Empty(config), calls))
  {
    AlwaysNewest(config, calls);
    Tenancy.AlwaysRefs(config, calls);
    ReopensExactly(Run(Empty(config), calls));
  }

  /** The call after a tidy run that neither clashes nor crosses keeps reopening right; one that crosses does not. */
  lemma CrossingBreaksReopening(config: Config, calls: seq<Call>, c: Call)
    requires Tidy(Empty(config), calls) && !Clashes(Run(Empty(config), calls), c)
    ensures AlwaysReopens(Step(Run(Empty(config), calls), c)) <==> !Crosses(Run(Empty(config), calls), c)
  {
    var s := Run(Empty(config), calls);
    assert (calls + [c])[..|calls|] == calls;
    assert Run(Empty(config), calls + [c]) == Step(s, c);
    AlwaysNewest(config, calls);
    Tenancy.AlwaysRefs(config, calls);
    Tenancy.AlwaysRefs(config, calls + [c]);
    StepTickets(s, c);
    StepNewest(s, c);
    ReopensExactly(Step(s, c));
  }

  // ---------- Runs without pre-orders ----------

  predicate BooksPreorder(c: Call) {
    c.OnBooking? && c.bookingCall.CreateReservation? && c.bookingCall.dto.PreorderDto?
  }

  predicate NoPreorders(calls: seq<Call>) {
    forall k :: 0 <= k < |calls| ==> !BooksPreorder(calls[k])
  }

  predicate NonePreordered(reservations: seq<Reservation>) {
    forall i :: 0 <= i < |reservations| ==> reservations[i].kind != WithPreorder
  }

  lemma SeatAtKinds(s: State, id: nat, tableId: Id, r: Rest)
    requires NonePreordered(s.reservations) && id < |s.reservations|
    ensures NonePreordered(Reservations.SeatAt(s, id, tableId, r).state.reservations)
  {
  }

  lemma SeatKinds(s: State, id: nat, tableId: Option<Id>, r: Rest)
    requires NonePreordered(s.reservations)
    ensures NonePreordered(Reservations.Seat(s, id, tableId, r).state.reservations)
  {
    if Reservations.Owns(s, id, r) && s.reservations[id].status == Committed {
      if s.reservations[id].kind == DepositOnly && s.reservations[id].tableId.Some? {
        SeatAtKinds(s, id, s.reservations[id].tableId.value, r);
      } else if tableId.Some? {
        SeatAtKinds(s, id, tableId.value, r);
      }
    }
  }

  lemma BookingKinds(s: State, c: BookingCall, r: Rest)
    requires NonePreordered(s.reservations) && !BooksPreorder(OnBooking(r, c))
    ensures NonePreordered(PerformBooking(s, c, r).state.reservations)
  {
    match c
    case SeatReservation(id, table) => SeatKinds(s, id, table, r);
    case ConfirmReservation(id) => ConfirmShape(s, id, r);
    case EndReservation(id, ending) => TerminateShape(s, id, ending, r);
    case CreateReservation(dto) =>
  }

  lemma FloorKinds(s: State, c: FloorCall, r: Rest)
    requires NonePreordered(s.reservations)
    ensures NonePreordered(PerformFloor(s, c, r).state.reservations)
  {
    if Keeps(c) {
      FloorShape(s, c, r);
    } else {
      RemovalShape(s, c, r);
    }
  }

  lemma MoneyReservations(s: State, c: MoneyCall, r: Rest)
    ensures PerformMoney(s, c, r).state.reservations == s.reservations
  {
  }

  lemma CreateReservations(s: State, kind: Orders.OrderKind, items: seq<Orders.LineDto>, r: Rest)
    ensures Orders.Create(s, kind, items, r).state.reservations == s.reservations
  {
  }

  lemma StepKinds(s: State, c: Call)
    requires NonePreordered(s.reservations) && !BooksPreorder(c)
    ensures NonePreordered(Step(s, c).reservations)
  {
    match c
    case OnMenu(r, menu) => MenuShape(s, menu, r);
    case OnFloor(r, floor) => FloorKinds(s, floor, r);
    case PlaceOrder(r, kind, lines) => CreateReservations(s, kind, lines, r);
    case EditOrder(r, order, edit) => EditShape(s, order, edit, r);
    case OnMoney(r, money) => MoneyReservations(s, money, r);
    case OnBooking(r, booking) => BookingKinds(s, booking, r);
    case Webhook(event) => WebhookShape(s, event);
  }

  /** Without pre-orders nothing can cross: such a run is tidy as soon as no call clashes. */
  lemma {:induction false} PreorderFreeIsTidy(config: Config, calls: seq<Call>)
    requires NoPreorders(calls) && Polite(Empty(config), calls)
    ensures Tidy(Empty(config), calls) && NonePreordered(Run(Empty(config), calls).reservations)
  {
    if calls != [] {
      PreorderFreeIsTidy(config, calls[..|calls| - 1]);
      StepKinds(Run(Empty(config), calls[..|calls| - 1]), calls[|calls| - 1]);
    }
  }
}
