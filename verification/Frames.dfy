/**
 What each call leaves alone, whatever it does to the rows it is about: the shapes of the single writes.
 */
module Frames {
  import opened Basics
  import opened OrderStatus
  import opened Store
  import opened Pos
  import Orders
  import Payments
  import Reservations
  import FloorPlan

  // ---------- Orders ----------

  /** At most one order row is written, in its lines, money and status; line ids may be handed out. */
  predicate EditsOneOrder(s: State, t: State, order: nat) {
    && t == s.(orders := t.orders, nextId := t.nextId) && s.nextId <= t.nextId
    && (t.orders != s.orders ==>
          && order < |s.orders| && IsEditedOrder(s.orders[order], t.orders, order)
          && t.orders == s.orders[order := t.orders[order]])
  }

  predicate IsEditedOrder(o: Order, orders: seq<Order>, order: nat) {
    && order < |orders|
    && orders[order].rest == o.rest && orders[order].tableId == o.tableId
    && (orders[order].status == o.status || CanTransition(o.status, orders[order].status))
    && (orders[order].status != o.status ==> orders[order].items == o.items)
  }

  lemma EditShape(s: State, order: nat, c: EditCall, r: Rest)
    ensures EditsOneOrder(s, PerformEdit(s, order, c, r).state, order)
  {
    match c
    case AddItem(line) => AddItemShape(s, order, line, r);
    case RemoveItem(item) => RemoveItemShape(s, order, item, r);
    case _ =>
  }

  lemma AddItemShape(s: State, order: nat, line: Orders.LineDto, r: Rest)
    ensures EditsOneOrder(s, Orders.AddItem(s, order, line, r).state, order)
  {
  }

  lemma RemoveItemShape(s: State, order: nat, item: Id, r: Rest)
    ensures EditsOneOrder(s, Orders.RemoveItem(s, order, item, r).state, order)
  {
  }

  lemma DiscountShape(s: State, order: nat, discount: Orders.Discount, r: Rest)
    ensures EditsOneOrder(s, Orders.ApplyDiscount(s, order, discount, r).state, order)
  {
  }

  // ---------- Menu and stock, tables and zones ----------

  lemma MenuShape(s: State, c: MenuCall, r: Rest)
    ensures var t := PerformMenu(s, c, r).state;
            t == s.(menu := t.menu, stock := t.stock, nextId := t.nextId) && s.nextId <= t.nextId
  {
  }

  /** Calls on tables and zones that delete nothing. */
  predicate Keeps(c: FloorCall) {
    !c.RemoveTable? && !c.RemoveZone?
  }

  lemma FloorShape(s: State, c: FloorCall, r: Rest)
    requires Keeps(c)
    ensures var t := PerformFloor(s, c, r).state;
            && t == s.(tables := t.tables, zones := t.zones, nextId := t.nextId) && s.nextId <= t.nextId
            && (s.nextId !in s.tables ==>
                  forall id :: id in s.tables ==> id in t.tables && t.tables[id].status == s.tables[id].status)
            && forall id :: id in t.tables && id !in s.tables ==> id == s.nextId && t.tables[id].status == Available
  {
  }

  /** The tables a call on the floor deletes. */
  function Deleted(s: State, c: FloorCall, r: Rest): set<Id> {
    match c
    case RemoveTable(id) =>
      if FloorPlan.OwnsTable(s, id, r) && s.tables[id].status == Available then {id} else {}
    case RemoveZone(id) =>
      if FloorPlan.OwnsZone(s, id, r) then
        var inZone := FloorPlan.TablesIn(s.tables, id, r);
        if exists t :: t in inZone && s.tables[t].status != Available then {} else inZone
      else {}
    case _ => {}
  }

  /** A deleting call deletes those tables, all of them AVAILABLE, unlinks them, and may unlink a zone. */
  lemma RemovalShape(s: State, c: FloorCall, r: Rest)
    requires !Keeps(c)
    ensures var t, gone := PerformFloor(s, c, r).state, Deleted(s, c, r);
            && (forall id :: id in gone ==> id in s.tables && s.tables[id].status == Available)
            && t == DropTables(s, gone).(tables := t.tables, zones := t.zones)
            && t.tables.Keys == s.tables.Keys - gone
            && forall id :: id in t.tables ==> t.tables[id] == s.tables[id].(zoneId := t.tables[id].zoneId)
  {
    NothingDropped(s);
  }

  lemma NothingDropped(s: State)
    ensures DropTables(s, {}) == s
  {
    var t := DropTables(s, {});
    assert t.tables == s.tables && t.orders == s.orders && t.reservations == s.reservations;
  }

  // ---------- Money ----------

  lemma SessionShape(s: State, c: MoneyCall, r: Rest)
    requires c.OpenSession? || c.CloseSession?
    ensures var t := PerformMoney(s, c, r).state; t == s.(sessions := t.sessions)
  {
  }

  lemma IntentShape(s: State, order: nat, intent: nat, r: Rest)
    ensures var t := Payments.CreateIntent(s, order, intent, r).state; t == s.(payments := t.payments)
  {
  }

  /** A webhook writes payments, and confirms at most one order. */
  lemma WebhookShape(s: State, event: Payments.Event)
    ensures var t := Payments.Webhook(s, event);
            && t == s.(payments := t.payments, orders := t.orders)
            && |t.orders| == |s.orders|
            && forall i :: 0 <= i < |s.orders| && t.orders[i] != s.orders[i] ==>
                 CanTransition(s.orders[i].status, Confirmed) && t.orders[i] == s.orders[i].(status := Confirmed)
  {
  }

  // ---------- Reservations ----------

  /** A reservation's status is written, and its table re-labelled or not. */
  predicate MovesReservation(s: State, t: State, id: nat) {
    && t == s.(reservations := t.reservations, tables := t.tables)
    && (t != s ==>
          && id < |s.reservations| == |t.reservations|
          && t.reservations == s.reservations[id := s.reservations[id].(status := t.reservations[id].status)]
          && (t.tables == s.tables || Relabels(s.tables, t.tables, s.reservations[id].tableId)))
  }

  predicate Relabels(before: map<Id, Table>, after: map<Id, Table>, tableId: Option<Id>) {
    && tableId.Some? && tableId.value in before && tableId.value in after
    && after == SetTableStatus(before, tableId.value, after[tableId.value].status)
  }

  lemma ConfirmShape(s: State, id: nat, r: Rest)
    ensures MovesReservation(s, Reservations.Confirm(s, id, r).state, id)
  {
  }

  lemma TerminateShape(s: State, id: nat, ending: Reservations.Ending, r: Rest)
    ensures MovesReservation(s, Reservations.Terminate(s, id, ending, r).state, id)
  {
  }

  // ---------- Names, zones and stock ----------

  /** Every table left was there before, with its restaurant and name. */
  predicate NamesKept(before: map<Id, Table>, after: map<Id, Table>) {
    forall id :: id in after ==> id in before && after[id].rest == before[id].rest && after[id].name == before[id].name
  }

  predicate RowsKept(s: State, t: State) {
    NamesKept(s.tables, t.tables) && t.zones == s.zones && t.stock == s.stock
  }

  lemma CreateOrderRows(s: State, kind: Orders.OrderKind, items: seq<Orders.LineDto>, r: Rest)
    ensures RowsKept(s, Orders.Create(s, kind, items, r).state)
  {
  }

  lemma SeatAtRows(s: State, id: nat, tableId: Id, r: Rest)
    requires id < |s.reservations|
    ensures RowsKept(s, Reservations.SeatAt(s, id, tableId, r).state)
  {
    CreateOrderRows(s, Orders.DineIn(tableId), [], r);
  }

  lemma SeatDepositRows(s: State, id: nat, r: Rest)
    requires id < |s.reservations|
    ensures RowsKept(s, Reservations.SeatDepositOnly(s, id, r).state)
  {
    if s.reservations[id].tableId.Some? {
      SeatAtRows(s, id, s.reservations[id].tableId.value, r);
      var seated := Reservations.SeatAt(s, id, s.reservations[id].tableId.value, r);
      if seated.reply.Done? && s.reservations[id].depositCents > 0 {
        DiscountShape(seated.state, seated.reply.id, Orders.Fixed(s.reservations[id].depositCents), r);
      }
    }
  }

  lemma SeatPreorderRows(s: State, id: nat)
    requires id < |s.reservations|
    ensures RowsKept(s, Reservations.SeatWithPreorder(s, id).state)
  {
  }

  lemma SeatRows(s: State, id: nat, tableId: Option<Id>, r: Rest)
    ensures RowsKept(s, Reservations.Seat(s, id, tableId, r).state)
  {
    if Reservations.Owns(s, id, r) && s.reservations[id].status == Committed {
      match s.reservations[id].kind
      case WithPreorder => SeatPreorderRows(s, id);
      case DepositOnly => SeatDepositRows(s, id, r);
      case Informal =>
        if tableId.Some? {
          SeatAtRows(s, id, tableId.value, r);
        }
    }
  }

  lemma CreateReservationRows(s: State, dto: Reservations.ReservationDto, r: Rest)
    ensures RowsKept(s, Reservations.Create(s, dto, r).state)
  {
    if dto.PreorderDto? {
      PreorderRows(s, dto.wanted, dto.lines, r);
    }
  }

  lemma PreorderRows(s: State, wanted: Id, lines: seq<Orders.LineDto>, r: Rest)
    ensures RowsKept(s, Reservations.CreateWithPreorder(s, wanted, lines, r).state)
  {
    CreateOrderRows(s, Orders.Takeaway, lines, r);
  }

  lemma BookingRows(s: State, c: BookingCall, r: Rest)
    ensures RowsKept(s, PerformBooking(s, c, r).state)
  {
    match c
    case CreateReservation(dto) => CreateReservationRows(s, dto, r);
    case SeatReservation(id, table) => SeatRows(s, id, table, r);
    case ConfirmReservation(id) => ConfirmShape(s, id, r);
    case EndReservation(id, ending) => TerminateShape(s, id, ending, r);
  }
}
