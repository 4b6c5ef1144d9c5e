/**
 What every call keeps: how the rows of orders, payments, register sessions and reservations may change in
 one step, whatever the call and whatever the state before it.
 */
module Evolution {
  import opened Basics
  import opened OrderStatus
  import opened Store
  import opened Pos
  import Orders
  import Payments
  import CashRegister
  import Reservations
  import FloorPlan

  predicate SameMoney(a: Order, b: Order) {
    && b.items == a.items && b.subtotalCents == a.subtotalCents && b.taxCents == a.taxCents
    && b.totalCents == a.totalCents && b.discountCents == a.discountCents
  }

  /** Status follows the transition table; lines and money move only on an editable order, and stay balanced. */
  predicate OrderEvolves(config: Config, a: Order, b: Order) {
    && b.rest == a.rest
    && (b.status == a.status || CanTransition(a.status, b.status))
    && (SameMoney(a, b) ||
        (IsEditable(a.status) && b.status == a.status && (Orders.Balanced(config, a) ==> Orders.Balanced(config, b))))
  }

  predicate OrdersEvolve(config: Config, a: seq<Order>, b: seq<Order>) {
    && |a| <= |b|
    && (forall i :: 0 <= i < |a| ==> OrderEvolves(config, a[i], b[i]))
    && forall i :: |a| <= i < |b| ==> b[i].status == Draft && Orders.Balanced(config, b[i])
  }

  /** A payment keeps its identity; one taken at the counter never changes at all. */
  predicate PaymentEvolves(a: Payment, b: Payment) {
    && b.rest == a.rest && b.orderId == a.orderId && b.tender == a.tender && b.providerRef == a.providerRef
    && b.sessionId == a.sessionId && b.paidCents == a.paidCents && b.changeCents == a.changeCents
    && (a.providerRef.None? ==> b == a)
  }

  /** A payment of the gateway under a reference no payment had. */
  predicate IsIntent(s: State, p: Payment) {
    && p.providerRef.Some? && p.sessionId.None? && p.status == RequiresPayment
    && (forall i :: 0 <= i < |s.payments| ==> s.payments[i].providerRef != p.providerRef)
    && Orders.Owns(s, p.orderId, p.rest) && s.orders[p.orderId].status == Pending
    && p.amountCents == s.orders[p.orderId].totalCents
  }

  /** A payment taken at the counter in the step from s to t. */
  predicate IsPosSale(s: State, t: State, p: Payment) {
    && p.providerRef.None? && p.status == Succeeded
    && p.sessionId.Some? && p.sessionId.value < |s.sessions|
    && s.sessions[p.sessionId.value].closing.None? && s.sessions[p.sessionId.value].rest == p.rest
    && Orders.Owns(s, p.orderId, p.rest) && p.orderId < |t.orders|
    && s.orders[p.orderId].status == Pending && t.orders[p.orderId].status == Confirmed
    && p.amountCents == s.orders[p.orderId].totalCents == t.orders[p.orderId].totalCents
    && p.changeCents == Max(0, p.paidCents - p.amountCents)
    && (p.tender == Cash ==> p.paidCents >= p.amountCents)
    && t.sessions == s.sessions
  }

  /** A payment only becomes successful together with its order leaving PENDING. */
  predicate ConfirmsOrder(a: Payment, b: Payment, orders: seq<Order>) {
    b.status == Succeeded && a.status != Succeeded && b.orderId < |orders| ==> orders[b.orderId].status != Pending
  }

  predicate PaymentsEvolve(s: State, t: State) {
    && |s.payments| <= |t.payments| <= |s.payments| + 1
    && (forall i :: 0 <= i < |s.payments| ==> PaymentEvolves(s.payments[i], t.payments[i]))
    && (forall i :: 0 <= i < |s.payments| ==> ConfirmsOrder(s.payments[i], t.payments[i], t.orders))
    && (|t.payments| > |s.payments| ==>
          IsIntent(s, t.payments[|s.payments|]) || IsPosSale(s, t, t.payments[|s.payments|]))
  }

  predicate SessionEvolves(a: Session, b: Session, i: nat, before: seq<Payment>, after: seq<Payment>) {
    b == a || (a.closing.None? && after == before && IsClosedWith(a, b, CashRegister.SessionTotal(before, i, a.rest)))
  }

  predicate IsClosedWith(a: Session, b: Session, expected: int) {
    && b.rest == a.rest && b.closing.Some?
    && b.closing.value.expectedCents == expected
    && b.closing.value.differenceCents == b.closing.value.countedCents - expected
  }

  /** A session row changes once, when it is closed with the sum of its payments; one opens only alone. */
  predicate SessionsEvolve(a: seq<Session>, b: seq<Session>, before: seq<Payment>, after: seq<Payment>) {
    && |a| <= |b| <= |a| + 1
    && (forall i :: 0 <= i < |a| ==> SessionEvolves(a[i], b[i], i, before, after))
    && (|b| > |a| ==>
          && after == before && b[|a|].closing.None?
          && (forall i :: 0 <= i < |a| ==> b[i] == a[i])
          && (forall i :: 0 <= i < |a| && a[i].rest == b[|a|].rest ==> a[i].closing.Some?))
  }

  /** The reservation life cycle. */
  predicate CanMove(from: ReservationStatus, to: ReservationStatus) {
    match from
    case Waiting => to == Committed || to == NoShow || to == CalledOff
    case Committed => to == Seated || to == NoShow || to == CalledOff
    case _ => false
  }

  predicate ReservationEvolves(a: Reservation, b: Reservation) {
    && b.rest == a.rest && b.kind == a.kind && b.depositCents == a.depositCents
    && (b.status == a.status || CanMove(a.status, b.status))
    && (b.status == Seated && a.status != Seated ==> b.orderId.Some?)
    && (a.orderId.Some? && a.status != Committed ==> b.orderId == a.orderId)
  }

  predicate ReservationsEvolve(a: seq<Reservation>, b: seq<Reservation>) {
    && |a| <= |b|
    && (forall i :: 0 <= i < |a| ==> ReservationEvolves(a[i], b[i]))
    && forall i :: |a| <= i < |b| ==> b[i].status == Waiting
  }

  predicate Evolves(s: State, t: State) {
    && t.config == s.config
    && OrdersEvolve(s.config, s.orders, t.orders)
    && PaymentsEvolve(s, t)
    && SessionsEvolve(s.sessions, t.sessions, s.payments, t.payments)
    && ReservationsEvolve(s.reservations, t.reservations)
  }

  // ---------- One row at a time ----------

  lemma UnchangedEvolves(s: State, t: State)
    requires t.config == s.config && t.orders == s.orders && t.payments == s.payments
    requires t.sessions == s.sessions && t.reservations == s.reservations
    ensures Evolves(s, t)
  {
  }

  lemma OrderRow(config: Config, orders: seq<Order>, id: nat, o: Order)
    requires id < |orders| && OrderEvolves(config, orders[id], o)
    ensures OrdersEvolve(config, orders, orders[id := o])
  {
  }

  lemma PaymentRow(s: State, t: State, id: nat, p: Payment)
    requires id < |s.payments| && t.payments == s.payments[id := p]
    requires PaymentEvolves(s.payments[id], p) && ConfirmsOrder(s.payments[id], p, t.orders)
    ensures PaymentsEvolve(s, t)
  {
  }

  lemma PaymentAdded(s: State, t: State, p: Payment)
    requires t.payments == s.payments + [p] && (IsIntent(s, p) || IsPosSale(s, t, p))
    ensures PaymentsEvolve(s, t)
  {
    assert t.payments[|s.payments|] == p;
  }

  lemma ReservationRow(reservations: seq<Reservation>, id: nat, r: Reservation)
    requires id < |reservations| && ReservationEvolves(reservations[id], r)
    ensures ReservationsEvolve(reservations, reservations[id := r])
  {
  }

  lemma SamePayments(s: State, t: State)
    requires t.payments == s.payments
    ensures PaymentsEvolve(s, t)
  {
  }

  /** A step that writes one order row, and possibly one reservation row, and nothing else of these kinds. */
  lemma OrderAndReservationEvolve(s: State, t: State)
    requires t.config == s.config && t.payments == s.payments && t.sessions == s.sessions
    requires OrdersEvolve(s.config, s.orders, t.orders) && ReservationsEvolve(s.reservations, t.reservations)
    ensures Evolves(s, t)
  {
    SamePayments(s, t);
  }

  // ---------- Call by call ----------

  lemma DropTablesEvolves(s: State, t: State, gone: set<Id>)
    requires t.config == s.config && t.payments == s.payments && t.sessions == s.sessions
    requires t.orders == DropTables(s, gone).orders && t.reservations == DropTables(s, gone).reservations
    ensures Evolves(s, t)
  {
    assert OrdersEvolve(s.config, s.orders, t.orders);
    assert ReservationsEvolve(s.reservations, t.reservations);
    OrderAndReservationEvolve(s, t);
  }

  lemma OrderCallEvolves(s: State, t: State, id: nat, o: Order)
    requires id < |s.orders| && t.orders == s.orders[id := o] && OrderEvolves(s.config, s.orders[id], o)
    requires t.config == s.config && t.payments == s.payments
    requires t.sessions == s.sessions && t.reservations == s.reservations
    ensures Evolves(s, t)
  {
    OrderRow(s.config, s.orders, id, o);
    OrderAndReservationEvolve(s, t);
  }

  lemma CreateOrderEvolves(s: State, kind: Orders.OrderKind, lines: seq<Orders.LineDto>, rest: Rest)
    ensures Evolves(s, Orders.Create(s, kind, lines, rest).state)
    ensures Orders.Create(s, kind, lines, rest).state.reservations == s.reservations
    ensures Orders.Create(s, kind, lines, rest).state.payments == s.payments
    ensures Orders.Create(s, kind, lines, rest).state.sessions == s.sessions
  {
    var t := Orders.Create(s, kind, lines, rest).state;
    Orders.PricedLines(s.menu, rest, lines, s.nextId);
    assert OrdersEvolve(s.config, s.orders, t.orders);
    OrderAndReservationEvolve(s, t);
  }

  lemma CheckoutEvolves(s: State, dto: Payments.CheckoutDto, rest: Rest)
    ensures Evolves(s, Payments.Checkout(s, dto, rest).state)
  {
    var t := Payments.Checkout(s, dto, rest).state;
    if t == s {
      UnchangedEvolves(s, t);
    } else {
      var o := s.orders[dto.orderId];
      var session := CashRegister.FindOpen(s.sessions, rest).value;
      OrderRow(s.config, s.orders, dto.orderId, o.(status := Confirmed));
      PaymentAdded(s, t, Payments.PosPayment(o, dto, session, rest));
    }
  }

  lemma WebhookEvolves(s: State, event: Payments.Event)
    ensures Evolves(s, Payments.Webhook(s, event))
  {
    var t := Payments.Webhook(s, event);
    var found := Payments.PaymentFor(s.payments, event);
    if event.kind == Payments.OtherKind || found.None? {
      UnchangedEvolves(s, t);
    } else {
      var p := s.payments[found.value];
      if event.kind == Payments.IntentSucceeded && p.orderId < |s.orders|
         && CanTransition(s.orders[p.orderId].status, Confirmed) {
        OrderRow(s.config, s.orders, p.orderId, s.orders[p.orderId].(status := Confirmed));
      } else {
        assert t.orders == s.orders;
      }
      var status := if event.kind == Payments.IntentFailed then Failed else Succeeded;
      PaymentRow(s, t, found.value, p.(status := status, lastEventId := Some(event.id)));
    }
  }

  lemma CloseSessionEvolves(s: State, counted: nat, rest: Rest)
    ensures Evolves(s, CashRegister.CloseSession(s, counted, rest).state)
  {
  }

  lemma SeatAtEvolves(s: State, id: nat, tableId: Id, rest: Rest)
    requires id < |s.reservations| && s.reservations[id].status == Committed
    ensures Evolves(s, Reservations.SeatAt(s, id, tableId, rest).state)
    ensures Reservations.SeatAt(s, id, tableId, rest).state.payments == s.payments
    ensures Reservations.SeatAt(s, id, tableId, rest).state.sessions == s.sessions
  {
    CreateOrderEvolves(s, Orders.DineIn(tableId), [], rest);
    var placed := Orders.Create(s, Orders.DineIn(tableId), [], rest);
    if placed.reply.Done? && !Reservations.LinkedElsewhere(placed.state.reservations, id, placed.reply.id) {
      var r := s.reservations[id].(tableId := Some(tableId), orderId := Some(placed.reply.id), status := Seated);
      ReservationRow(s.reservations, id, r);
      OrderAndReservationEvolve(s, Reservations.SeatAt(s, id, tableId, rest).state);
    }
  }

  /** A discount on top of a step in which the order kept its status is still one step. */
  lemma DiscountAfterEvolves(s: State, t: State, orderId: nat, discount: Orders.Discount, rest: Rest)
    requires Evolves(s, t) && t.payments == s.payments && t.sessions == s.sessions
    requires orderId < |s.orders| ==> s.orders[orderId].status == t.orders[orderId].status
    requires orderId < |t.orders|
    ensures Evolves(s, Orders.ApplyDiscount(t, orderId, discount, rest).state)
  {
    var u := Orders.ApplyDiscount(t, orderId, discount, rest).state;
    assert OrdersEvolve(s.config, s.orders, u.orders);
    OrderAndReservationEvolve(s, u);
  }

  lemma SeatDepositEvolves(s: State, id: nat, rest: Rest)
    requires id < |s.reservations| && s.reservations[id].status == Committed
    ensures Evolves(s, Reservations.SeatDepositOnly(s, id, rest).state)
  {
    var r := s.reservations[id];
    if r.tableId.Some? {
      SeatAtEvolves(s, id, r.tableId.value, rest);
      var seated := Reservations.SeatAt(s, id, r.tableId.value, rest);
      if seated.reply.Done? && r.depositCents > 0 {
        DiscountAfterEvolves(s, seated.state, seated.reply.id, Orders.Fixed(r.depositCents), rest);
      }
    } else {
      UnchangedEvolves(s, s);
    }
  }

  lemma SeatPreorderEvolves(s: State, id: nat)
    requires id < |s.reservations| && s.reservations[id].status == Committed
    ensures Evolves(s, Reservations.SeatWithPreorder(s, id).state)
  {
    var r := s.reservations[id];
    var t := Reservations.SeatWithPreorder(s, id).state;
    if r.orderId.Some? && r.tableId.Some? {
      ReservationRow(s.reservations, id, r.(status := Seated));
      if r.orderId.value < |s.orders| {
        OrderRow(s.config, s.orders, r.orderId.value, s.orders[r.orderId.value].(tableId := r.tableId));
      }
      OrderAndReservationEvolve(s, t);
    } else {
      UnchangedEvolves(s, t);
    }
  }

  lemma SeatEvolves(s: State, id: nat, tableId: Option<Id>, rest: Rest)
    ensures Evolves(s, Reservations.Seat(s, id, tableId, rest).state)
  {
    UnchangedEvolves(s, s);
    if Reservations.Owns(s, id, rest) && s.reservations[id].status == Committed {
      if s.reservations[id].kind == WithPreorder {
        SeatPreorderEvolves(s, id);
      } else if s.reservations[id].kind == DepositOnly {
        SeatDepositEvolves(s, id, rest);
      } else if tableId.Some? {
        SeatAtEvolves(s, id, tableId.value, rest);
      }
    }
  }

  lemma CreateReservationEvolves(s: State, dto: Reservations.ReservationDto, rest: Rest)
    ensures Evolves(s, Reservations.Create(s, dto, rest).state)
  {
    var t := Reservations.Create(s, dto, rest).state;
    if dto.PreorderDto? {
      CreateOrderEvolves(s, Orders.Takeaway, dto.lines, rest);
    }
    assert ReservationsEvolve(s.reservations, t.reservations);
    assert OrdersEvolve(s.config, s.orders, t.orders);
    OrderAndReservationEvolve(s, t);
  }

  lemma LineAdded(config: Config, o: Order, line: Line)
    requires IsEditable(o.status) && Orders.LineAgrees(line)
    ensures OrderEvolves(config, o, Orders.Recalculated(config, o.(items := o.items + [line])))
  {
  }

  lemma AddItemEvolves(s: State, order: nat, line: Orders.LineDto, rest: Rest)
    ensures Evolves(s, Orders.AddItem(s, order, line, rest).state)
  {
    var t := Orders.AddItem(s, order, line, rest);
    if t.reply.Done? {
      LineAdded(s.config, s.orders[order], Orders.PriceLine(s.menu[line.menuItemId], line, s.nextId).value);
      OrderCallEvolves(s, t.state, order, t.state.orders[order]);
    } else {
      UnchangedEvolves(s, t.state);
    }
  }

  lemma UpdateQuantityEvolves(s: State, order: nat, item: Id, quantity: Option<Orders.Positive>, rest: Rest)
    ensures Evolves(s, Orders.UpdateItemQuantity(s, order, item, quantity, rest).state)
  {
    var t := Orders.UpdateItemQuantity(s, order, item, quantity, rest);
    if t.reply.Done? {
      OrderCallEvolves(s, t.state, order, t.state.orders[order]);
    } else {
      UnchangedEvolves(s, t.state);
    }
  }

  lemma RemoveItemEvolves(s: State, order: nat, item: Id, rest: Rest)
    ensures Evolves(s, Orders.RemoveItem(s, order, item, rest).state)
  {
    var t := Orders.RemoveItem(s, order, item, rest);
    if t.reply.Done? {
      OrderCallEvolves(s, t.state, order, t.state.orders[order]);
    } else {
      UnchangedEvolves(s, t.state);
    }
  }

  lemma UpdateStatusEvolves(s: State, order: nat, next: Status, rest: Rest)
    ensures Evolves(s, Orders.UpdateStatus(s, order, next, rest).state)
  {
    var t := Orders.UpdateStatus(s, order, next, rest);
    if t.reply.Done? {
      OrderCallEvolves(s, t.state, order, t.state.orders[order]);
    } else {
      UnchangedEvolves(s, t.state);
    }
  }

  lemma ConfirmOrderEvolves(s: State, order: nat, rest: Rest)
    ensures Evolves(s, Orders.ConfirmOrder(s, order, rest).state)
  {
    var t := Orders.ConfirmOrder(s, order, rest);
    if t.reply.Done? {
      OrderCallEvolves(s, t.state, order, t.state.orders[order]);
    } else {
      UnchangedEvolves(s, t.state);
    }
  }

  lemma DiscountEvolves(s: State, order: nat, discount: Orders.Discount, rest: Rest)
    ensures Evolves(s, Orders.ApplyDiscount(s, order, discount, rest).state)
  {
    var t := Orders.ApplyDiscount(s, order, discount, rest);
    if t.reply.Done? {
      OrderCallEvolves(s, t.state, order, t.state.orders[order]);
    } else {
      UnchangedEvolves(s, t.state);
    }
  }

  lemma EditEvolves(s: State, order: nat, c: EditCall, r: Rest)
    ensures Evolves(s, PerformEdit(s, order, c, r).state)
  {
    match c
    case AddItem(line) => AddItemEvolves(s, order, line, r);
    case UpdateItemQuantity(item, quantity) => UpdateQuantityEvolves(s, order, item, quantity, r);
    case RemoveItem(item) => RemoveItemEvolves(s, order, item, r);
    case ConfirmOrder => ConfirmOrderEvolves(s, order, r);
    case UpdateStatus(next) => UpdateStatusEvolves(s, order, next, r);
    case ApplyDiscount(discount) => DiscountEvolves(s, order, discount, r);
  }

  lemma RemoveTableEvolves(s: State, id: Id, rest: Rest)
    ensures Evolves(s, FloorPlan.RemoveTable(s, id, rest).state)
  {
    UnchangedEvolves(s, s);
    DropTablesEvolves(s, DropTables(s, {id}), {id});
  }

  lemma RemoveZoneEvolves(s: State, id: Id, rest: Rest)
    ensures Evolves(s, FloorPlan.RemoveZone(s, id, rest).state)
  {
    UnchangedEvolves(s, s);
    var gone := FloorPlan.TablesIn(s.tables, id, rest);
    DropTablesEvolves(s, FloorPlan.DropZone(DropTables(s, gone), id), gone);
  }

  lemma FloorEvolves(s: State, c: FloorCall, r: Rest)
    ensures Evolves(s, PerformFloor(s, c, r).state)
  {
    match c
    case RemoveTable(id) => RemoveTableEvolves(s, id, r);
    case RemoveZone(id) => RemoveZoneEvolves(s, id, r);
    case _ => UnchangedEvolves(s, PerformFloor(s, c, r).state);
  }

  lemma MenuEvolves(s: State, c: MenuCall, r: Rest)
    ensures Evolves(s, PerformMenu(s, c, r).state)
  {
    UnchangedEvolves(s, PerformMenu(s, c, r).state);
  }

  lemma IntentEvolves(s: State, order: nat, intent: nat, rest: Rest)
    ensures Evolves(s, Payments.CreateIntent(s, order, intent, rest).state)
  {
    var t := Payments.CreateIntent(s, order, intent, rest);
    if t.reply.Failure? {
      UnchangedEvolves(s, t.state);
    } else {
      var found := Payments.FindByRef(s.payments, intent);
      if found.Some? {
        PaymentRow(s, t.state, found.value, t.state.payments[found.value]);
      } else {
        PaymentAdded(s, t.state, t.state.payments[|s.payments|]);
      }
    }
  }

  lemma OpenSessionEvolves(s: State, openingFloat: nat, rest: Rest)
    ensures Evolves(s, CashRegister.OpenSession(s, openingFloat, rest).state)
  {
    var t := CashRegister.OpenSession(s, openingFloat, rest).state;
    assert SessionsEvolve(s.sessions, t.sessions, s.payments, t.payments);
    SamePayments(s, t);
  }

  lemma ReservationWriteEvolves(s: State, t: State, id: nat, r: Reservation)
    requires id < |s.reservations| && t.reservations == s.reservations[id := r]
    requires ReservationEvolves(s.reservations[id], r)
    requires t.config == s.config && t.orders == s.orders && t.payments == s.payments && t.sessions == s.sessions
    ensures Evolves(s, t)
  {
    ReservationRow(s.reservations, id, r);
    assert OrdersEvolve(s.config, s.orders, t.orders);
    OrderAndReservationEvolve(s, t);
  }

  lemma ConfirmReservationEvolves(s: State, id: nat, rest: Rest)
    ensures Evolves(s, Reservations.Confirm(s, id, rest).state)
  {
    var t := Reservations.Confirm(s, id, rest);
    UnchangedEvolves(s, s);
    if t.reply.Done? {
      ReservationWriteEvolves(s, t.state, id, t.state.reservations[id]);
    }
  }

  lemma TerminateEvolves(s: State, id: nat, ending: Reservations.Ending, rest: Rest)
    ensures Evolves(s, Reservations.Terminate(s, id, ending, rest).state)
  {
    var t := Reservations.Terminate(s, id, ending, rest);
    UnchangedEvolves(s, s);
    if t.reply.Done? {
      ReservationWriteEvolves(s, t.state, id, t.state.reservations[id]);
    }
  }

  lemma MoneyEvolves(s: State, c: MoneyCall, r: Rest)
    ensures Evolves(s, PerformMoney(s, c, r).state)
  {
    match c
    case CreateIntent(order, intent) => IntentEvolves(s, order, intent, r);
    case Checkout(dto) => CheckoutEvolves(s, dto, r);
    case OpenSession(openingFloat) => OpenSessionEvolves(s, openingFloat, r);
    case CloseSession(counted) => CloseSessionEvolves(s, counted, r);
  }

  lemma BookingEvolves(s: State, c: BookingCall, r: Rest)
    ensures Evolves(s, PerformBooking(s, c, r).state)
  {
    match c
    case CreateReservation(dto) => CreateReservationEvolves(s, dto, r);
    case ConfirmReservation(id) => ConfirmReservationEvolves(s, id, r);
    case SeatReservation(id, table) => SeatEvolves(s, id, table, r);
    case EndReservation(id, ending) => TerminateEvolves(s, id, ending, r);
  }

  /** Every call, in every state, changes rows only in these ways. */
  lemma StepEvolves(s: State, c: Call)
    ensures Evolves(s, Step(s, c))
  {
    match c
    case OnMenu(r, menu) => MenuEvolves(s, menu, r);
    case OnFloor(r, floor) => FloorEvolves(s, floor, r);
    case PlaceOrder(r, kind, lines) => CreateOrderEvolves(s, kind, lines, r);
    case EditOrder(r, order, edit) => EditEvolves(s, order, edit, r);
    case OnMoney(r, money) => MoneyEvolves(s, money, r);
    case OnBooking(r, booking) => BookingEvolves(s, booking, r);
    case Webhook(event) => WebhookEvolves(s, event);
  }
}
