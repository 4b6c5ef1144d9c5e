/**
 Tenant isolation: in every reachable state all references stay inside one restaurant, so a call made for
 one restaurant leaves every row of every other restaurant as it was.
 */
module Tenancy {
  import opened Basics
  import opened OrderStatus
  import opened Store
  import opened Pos
  import opened PaymentSafety
  import Modifiers
  import Orders
  import Payments
  import CashRegister
  import Reservations
  import Inventory
  import FloorPlan

  // ---------- References ----------

  predicate TableRef(zones: map<Id, Zone>, t: Table) {
    t.zoneId.Some? ==> t.zoneId.value in zones && zones[t.zoneId.value].rest == t.rest
  }

  predicate TableIdRef(tables: map<Id, Table>, tableId: Option<Id>, rest: Rest) {
    tableId.Some? ==> tableId.value in tables && tables[tableId.value].rest == rest
  }

  predicate LineRef(menu: map<Id, MenuItem>, line: Line, rest: Rest) {
    line.menuItemId in menu && menu[line.menuItemId].rest == rest
  }

  predicate LineRefs(menu: map<Id, MenuItem>, items: seq<Line>, rest: Rest) {
    forall k :: 0 <= k < |items| ==> LineRef(menu, items[k], rest)
  }

  predicate OrderRef(tables: map<Id, Table>, menu: map<Id, MenuItem>, o: Order) {
    TableIdRef(tables, o.tableId, o.rest) && LineRefs(menu, o.items, o.rest)
  }

  predicate ReservationRef(tables: map<Id, Table>, orders: seq<Order>, r: Reservation) {
    && TableIdRef(tables, r.tableId, r.rest)
    && (r.orderId.Some? ==> r.orderId.value < |orders| && orders[r.orderId.value].rest == r.rest)
  }

  /** Ids not handed out yet name no row. */
  predicate FreshIds(s: State) {
    && (forall id :: id in s.menu ==> id < s.nextId) && (forall id :: id in s.stock ==> id < s.nextId)
    && (forall id :: id in s.zones ==> id < s.nextId) && (forall id :: id in s.tables ==> id < s.nextId)
  }

  predicate Refs(s: State) {
    && FreshIds(s)
    && (forall id :: id in s.tables ==> TableRef(s.zones, s.tables[id]))
    && (forall i :: 0 <= i < |s.orders| ==> OrderRef(s.tables, s.menu, s.orders[i]))
    && (forall i :: 0 <= i < |s.reservations| ==> ReservationRef(s.tables, s.orders, s.reservations[i]))
  }

  // ---------- One restaurant's rows ----------

  function TablesOf(tables: map<Id, Table>, b: Rest): map<Id, Table> {
    map id | id in tables && tables[id].rest == b :: tables[id]
  }

  function ZonesOf(zones: map<Id, Zone>, b: Rest): map<Id, Zone> {
    map id | id in zones && zones[id].rest == b :: zones[id]
  }

  function MenuOf(menu: map<Id, MenuItem>, b: Rest): map<Id, MenuItem> {
    map id | id in menu && menu[id].rest == b :: menu[id]
  }

  function StockOf(stock: map<Id, StockItem>, b: Rest): map<Id, StockItem> {
    map id | id in stock && stock[id].rest == b :: stock[id]
  }

  function OrdersOf(orders: seq<Order>, b: Rest): map<nat, Order> {
    map i | 0 <= i < |orders| && orders[i].rest == b :: orders[i]
  }

  function PaymentsOf(payments: seq<Payment>, b: Rest): map<nat, Payment> {
    map i | 0 <= i < |payments| && payments[i].rest == b :: payments[i]
  }

  function SessionsOf(sessions: seq<Session>, b: Rest): map<nat, Session> {
    map i | 0 <= i < |sessions| && sessions[i].rest == b :: sessions[i]
  }

  function ReservationsOf(reservations: seq<Reservation>, b: Rest): map<nat, Reservation> {
    map i | 0 <= i < |reservations| && reservations[i].rest == b :: reservations[i]
  }

  /** Every row of restaurant b is the same in both states, and b has no other rows. */
  predicate SameRows(s: State, t: State, b: Rest) {
    && TablesOf(t.tables, b) == TablesOf(s.tables, b) && ZonesOf(t.zones, b) == ZonesOf(s.zones, b)
    && MenuOf(t.menu, b) == MenuOf(s.menu, b) && StockOf(t.stock, b) == StockOf(s.stock, b)
    && OrdersOf(t.orders, b) == OrdersOf(s.orders, b) && PaymentsOf(t.payments, b) == PaymentsOf(s.payments, b)
    && SessionsOf(t.sessions, b) == SessionsOf(s.sessions, b)
    && ReservationsOf(t.reservations, b) == ReservationsOf(s.reservations, b)
  }

  // ---------- One row at a time ----------

  lemma TableRow(tables: map<Id, Table>, id: Id, row: Table, b: Rest)
    requires row.rest != b && (id in tables ==> tables[id].rest != b)
    ensures TablesOf(tables[id := row], b) == TablesOf(tables, b)
  {
  }

  lemma StatusRow(tables: map<Id, Table>, id: Id, status: TableStatus, b: Rest)
    requires id in tables ==> tables[id].rest != b
    ensures TablesOf(SetTableStatus(tables, id, status), b) == TablesOf(tables, b)
  {
  }

  lemma ZoneRow(zones: map<Id, Zone>, id: Id, row: Zone, b: Rest)
    requires row.rest != b && (id in zones ==> zones[id].rest != b)
    ensures ZonesOf(zones[id := row], b) == ZonesOf(zones, b)
  {
  }

  lemma MenuRow(menu: map<Id, MenuItem>, id: Id, row: MenuItem, b: Rest)
    requires row.rest != b && (id in menu ==> menu[id].rest != b)
    ensures MenuOf(menu[id := row], b) == MenuOf(menu, b)
  {
  }

  lemma StockRow(stock: map<Id, StockItem>, id: Id, row: StockItem, b: Rest)
    requires row.rest != b && (id in stock ==> stock[id].rest != b)
    ensures StockOf(stock[id := row], b) == StockOf(stock, b)
  {
  }

  lemma OrderRow(orders: seq<Order>, i: nat, row: Order, b: Rest)
    requires i <= |orders| && row.rest != b && (i < |orders| ==> orders[i].rest != b)
    ensures i < |orders| ==> OrdersOf(orders[i := row], b) == OrdersOf(orders, b)
    ensures i == |orders| ==> OrdersOf(orders + [row], b) == OrdersOf(orders, b)
  {
  }

  lemma PaymentRow(payments: seq<Payment>, i: nat, row: Payment, b: Rest)
    requires i <= |payments| && row.rest != b && (i < |payments| ==> payments[i].rest != b)
    ensures i < |payments| ==> PaymentsOf(payments[i := row], b) == PaymentsOf(payments, b)
    ensures i == |payments| ==> PaymentsOf(payments + [row], b) == PaymentsOf(payments, b)
  {
  }

  lemma SessionRow(sessions: seq<Session>, i: nat, row: Session, b: Rest)
    requires i <= |sessions| && row.rest != b && (i < |sessions| ==> sessions[i].rest != b)
    ensures i < |sessions| ==> SessionsOf(sessions[i := row], b) == SessionsOf(sessions, b)
    ensures i == |sessions| ==> SessionsOf(sessions + [row], b) == SessionsOf(sessions, b)
  {
  }

  lemma ReservationRow(reservations: seq<Reservation>, i: nat, row: Reservation, b: Rest)
    requires i <= |reservations| && row.rest != b && (i < |reservations| ==> reservations[i].rest != b)
    ensures i < |reservations| ==> ReservationsOf(reservations[i := row], b) == ReservationsOf(reservations, b)
    ensures i == |reservations| ==> ReservationsOf(reservations + [row], b) == ReservationsOf(reservations, b)
  {
  }

  /** The decrement hook only reaches stock of the order's restaurant. */
  lemma {:induction false} DecrementRows(stock: map<Id, StockItem>, rest: Rest, lines: seq<Line>, b: Rest)
    requires b != rest
    ensures StockOf(Inventory.DecrementAll(stock, rest, lines), b) == StockOf(stock, b)
    ensures Inventory.DecrementAll(stock, rest, lines).Keys == stock.Keys
  {
    if lines != [] {
      DecrementRows(stock, rest, lines[..|lines| - 1], b);
      var before := Inventory.DecrementAll(stock, rest, lines[..|lines| - 1]);
      assert forall id :: id in before ==>
        Inventory.DecrementLine(before, rest, lines[|lines| - 1])[id].rest == before[id].rest;
      assert StockOf(Inventory.DecrementLine(before, rest, lines[|lines| - 1]), b) == StockOf(before, b);
    }
  }

  lemma {:induction false} DecrementKeys(stock: map<Id, StockItem>, rest: Rest, lines: seq<Line>)
    ensures Inventory.DecrementAll(stock, rest, lines).Keys == stock.Keys
  {
    if lines != [] {
      DecrementKeys(stock, rest, lines[..|lines| - 1]);
    }
  }

  // ---------- Keeping references ----------

  /** No referenced row disappears or changes restaurant. */
  predicate Extends(s: State, t: State) {
    && (forall id :: id in s.tables ==> id in t.tables && t.tables[id].rest == s.tables[id].rest)
    && (forall id :: id in s.zones ==> id in t.zones && t.zones[id].rest == s.zones[id].rest)
    && (forall id :: id in s.menu ==> id in t.menu && t.menu[id].rest == s.menu[id].rest)
    && |s.orders| <= |t.orders|
    && forall i :: 0 <= i < |s.orders| ==> t.orders[i].rest == s.orders[i].rest
  }

  predicate TablesKept(s: State, t: State) {
    forall id :: id in t.tables ==>
      (id in s.tables && t.tables[id].zoneId == s.tables[id].zoneId) || TableRef(t.zones, t.tables[id])
  }

  predicate OrdersKept(s: State, t: State) {
    forall i :: 0 <= i < |t.orders| ==>
      || (i < |s.orders| && t.orders[i].tableId == s.orders[i].tableId && t.orders[i].items == s.orders[i].items)
      || OrderRef(t.tables, t.menu, t.orders[i])
  }

  predicate ReservationsKept(s: State, t: State) {
    forall i :: 0 <= i < |t.reservations| ==>
      (i < |s.reservations| && t.reservations[i].rest == s.reservations[i].rest
       && t.reservations[i].tableId == s.reservations[i].tableId
       && t.reservations[i].orderId == s.reservations[i].orderId)
      || ReservationRef(t.tables, t.orders, t.reservations[i])
  }

  lemma RefsKept(s: State, t: State)
    requires Refs(s) && FreshIds(t) && Extends(s, t)
    requires TablesKept(s, t) && OrdersKept(s, t) && ReservationsKept(s, t)
    ensures Refs(t)
  {
    forall id | id in t.tables
      ensures TableRef(t.zones, t.tables[id])
    {
      if id in s.tables {
        assert TableRef(s.zones, s.tables[id]);
      }
    }
    forall i | 0 <= i < |t.orders|
      ensures OrderRef(t.tables, t.menu, t.orders[i])
    {
      if i < |s.orders| {
        assert OrderRef(s.tables, s.menu, s.orders[i]);
        assert forall k :: 0 <= k < |s.orders[i].items| ==> LineRef(s.menu, s.orders[i].items[k], s.orders[i].rest);
      }
    }
    forall i | 0 <= i < |t.reservations|
      ensures ReservationRef(t.tables, t.orders, t.reservations[i])
    {
      if i < |s.reservations| {
        assert ReservationRef(s.tables, s.orders, s.reservations[i]);
      }
    }
  }

  // ---------- Call by call ----------

  lemma Unmoved(s: State, b: Rest)
    ensures SameRows(s, s, b)
  {
  }

  lemma PutMenuIsolated(
    s: State, id: Option<Id>, price: nat, available: bool, groups: seq<Modifiers.Group>, r: Rest, b: Rest)
    requires Refs(s) && b != r
    ensures var t := FloorPlan.PutMenuItem(s, id, price, available, groups, r).state;
            Refs(t) && SameRows(s, t, b)
  {
    var t := FloorPlan.PutMenuItem(s, id, price, available, groups, r);
    if t.reply.Done? {
      MenuRow(s.menu, if id.Some? then id.value else s.nextId, MenuItem(r, price, available, groups), b);
      RefsKept(s, t.state);
    }
  }

  lemma RemoveMenuRefs(s: State, id: Id, r: Rest)
    requires Refs(s)
    ensures Refs(FloorPlan.RemoveMenuItem(s, id, r).state)
  {
    var t := FloorPlan.RemoveMenuItem(s, id, r);
    if t.reply.Done? {
      forall i | 0 <= i < |s.orders|
        ensures OrderRef(t.state.tables, t.state.menu, s.orders[i])
      {
        assert OrderRef(s.tables, s.menu, s.orders[i]);
        forall k | 0 <= k < |s.orders[i].items|
          ensures LineRef(t.state.menu, s.orders[i].items[k], s.orders[i].rest)
        {
          assert LineRef(s.menu, s.orders[i].items[k], s.orders[i].rest);
          if s.orders[i].items[k].menuItemId == id {
            assert FloorPlan.Ordered(s, id, r);
          }
        }
      }
      forall i | 0 <= i < |s.reservations|
        ensures ReservationRef(t.state.tables, t.state.orders, s.reservations[i])
      {
        assert ReservationRef(s.tables, s.orders, s.reservations[i]);
      }
    }
  }

  /** A stock item of restaurant b hangs on the menu item. */
  predicate StockLinkedTo(stock: map<Id, StockItem>, menuItemId: Id, b: Rest) {
    exists k :: k in stock && stock[k].rest == b && stock[k].menuItemId == Some(menuItemId)
  }

  /** The guards of removing a menu item hold, and a stock item of restaurant b hangs on it. */
  predicate RemovalLeaks(s: State, id: Id, r: Rest, b: Rest) {
    && id in s.menu && s.menu[id].rest == r && !FloorPlan.Ordered(s, id, r)
    && StockLinkedTo(s.stock, id, b)
  }

  lemma RemoveMenuIsolated(s: State, id: Id, r: Rest, b: Rest)
    requires b != r
    ensures SameRows(s, FloorPlan.RemoveMenuItem(s, id, r).state, b) <==> !RemovalLeaks(s, id, r, b)
  {
    var t := FloorPlan.RemoveMenuItem(s, id, r);
    Unmoved(s, b);
    if t.reply.Done? {
      assert MenuOf(t.state.menu, b) == MenuOf(s.menu, b);
      if StockLinkedTo(s.stock, id, b) {
        var k :| k in s.stock && s.stock[k].rest == b && s.stock[k].menuItemId == Some(id);
        assert StockOf(s.stock, b)[k] != StockOf(t.state.stock, b)[k];
      } else {
        assert StockOf(t.state.stock, b) == StockOf(s.stock, b);
      }
    }
  }

  lemma CreateStockIsolated(s: State, quantity: Inventory.Quantity, linkedTo: Option<Id>, r: Rest, b: Rest)
    requires Refs(s) && b != r
    ensures var t := Inventory.CreateItem(s, quantity, linkedTo, r).state; Refs(t) && SameRows(s, t, b)
  {
    var t := Inventory.CreateItem(s, quantity, linkedTo, r);
    if t.reply.Done? {
      StockRow(s.stock, s.nextId, StockItem(r, linkedTo, quantity, [], quantity), b);
      RefsKept(s, t.state);
    }
  }

  lemma AdjustIsolated(s: State, id: Id, delta: real, r: Rest, b: Rest)
    requires Refs(s) && b != r
    ensures var t := Inventory.Adjust(s, id, delta, r).state; Refs(t) && SameRows(s, t, b)
  {
    var t := Inventory.Adjust(s, id, delta, r);
    if t.reply.Done? {
      StockRow(s.stock, id, Inventory.Adjusted(s.stock[id], delta), b);
      RefsKept(s, t.state);
    }
  }

  lemma TableWriteIsolated(s: State, t: State, id: Id, row: Table, b: Rest)
    requires Refs(s) && row.rest != b && (id in s.tables ==> s.tables[id].rest == row.rest) && TableRef(s.zones, row)
    requires s.nextId <= t.nextId && id < t.nextId
    requires t == s.(tables := s.tables[id := row], nextId := t.nextId)
    ensures Refs(t) && SameRows(s, t, b)
  {
    TableRow(s.tables, id, row, b);
    RefsKept(s, t);
  }

  lemma CreateTableIsolated(s: State, name: string, r: Rest, b: Rest)
    requires Refs(s) && b != r
    ensures var t := FloorPlan.CreateTable(s, name, r).state; Refs(t) && SameRows(s, t, b)
  {
    var t := FloorPlan.CreateTable(s, name, r);
    Unmoved(s, b);
    if t.reply.Done? {
      TableWriteIsolated(s, t.state, s.nextId, t.state.tables[s.nextId], b);
    }
  }

  lemma UpdateTableIsolated(s: State, id: Id, name: Option<string>, r: Rest, b: Rest)
    requires Refs(s) && b != r
    ensures var t := FloorPlan.UpdateTable(s, id, name, r).state; Refs(t) && SameRows(s, t, b)
  {
    var t := FloorPlan.UpdateTable(s, id, name, r);
    Unmoved(s, b);
    if t.reply.Done? && name.Some? {
      assert TableRef(s.zones, s.tables[id]);
      TableWriteIsolated(s, t.state, id, t.state.tables[id], b);
    }
  }

  lemma UpdateLayoutIsolated(s: State, id: Id, change: FloorPlan.ZoneChange, r: Rest, b: Rest)
    requires Refs(s) && b != r
    ensures var t := FloorPlan.UpdateLayout(s, id, change, r).state; Refs(t) && SameRows(s, t, b)
  {
    var t := FloorPlan.UpdateLayout(s, id, change, r);
    Unmoved(s, b);
    if t.reply.Done? && !change.KeepZone? {
      TableWriteIsolated(s, t.state, id, t.state.tables[id], b);
    }
  }

  lemma ZoneWriteIsolated(s: State, t: State, id: Id, row: Zone, b: Rest)
    requires Refs(s) && row.rest != b && (id in s.zones ==> s.zones[id].rest == row.rest)
    requires s.nextId <= t.nextId && id < t.nextId
    requires t == s.(zones := s.zones[id := row], nextId := t.nextId)
    ensures Refs(t) && SameRows(s, t, b)
  {
    ZoneRow(s.zones, id, row, b);
    RefsKept(s, t);
  }

  lemma CreateZoneIsolated(s: State, name: string, r: Rest, b: Rest)
    requires Refs(s) && b != r
    ensures var t := FloorPlan.CreateZone(s, name, r).state; Refs(t) && SameRows(s, t, b)
  {
    var t := FloorPlan.CreateZone(s, name, r);
    Unmoved(s, b);
    if t.reply.Done? {
      ZoneWriteIsolated(s, t.state, s.nextId, t.state.zones[s.nextId], b);
    }
  }

  lemma UpdateZoneIsolated(
    s: State, id: Id, name: Option<string>, code: Option<FloorPlan.ZoneCode>, r: Rest, b: Rest)
    requires Refs(s) && b != r
    ensures var t := FloorPlan.UpdateZone(s, id, name, code, r).state; Refs(t) && SameRows(s, t, b)
  {
    var t := FloorPlan.UpdateZone(s, id, name, code, r);
    Unmoved(s, b);
    if t.reply.Done? {
      ZoneWriteIsolated(s, t.state, id, t.state.zones[id], b);
    }
  }

  /** Deleting tables of one restaurant only unlinks rows of that restaurant. */
  lemma DropTablesIsolated(s: State, gone: set<Id>, r: Rest, b: Rest)
    requires Refs(s) && b != r && forall id :: id in gone ==> id in s.tables && s.tables[id].rest == r
    ensures Refs(DropTables(s, gone)) && SameRows(s, DropTables(s, gone), b)
  {
    var t := DropTables(s, gone);
    forall i | 0 <= i < |s.orders|
      ensures OrderRef(t.tables, t.menu, t.orders[i])
      ensures s.orders[i].rest == b ==> t.orders[i] == s.orders[i]
    {
      assert OrderRef(s.tables, s.menu, s.orders[i]);
      assert LineRefs(t.menu, t.orders[i].items, t.orders[i].rest);
    }
    forall i | 0 <= i < |s.reservations|
      ensures ReservationRef(t.tables, t.orders, t.reservations[i])
      ensures s.reservations[i].rest == b ==> t.reservations[i] == s.reservations[i]
    {
      assert ReservationRef(s.tables, s.orders, s.reservations[i]);
    }
    assert TablesOf(t.tables, b) == TablesOf(s.tables, b);
    assert OrdersOf(t.orders, b) == OrdersOf(s.orders, b);
    assert ReservationsOf(t.reservations, b) == ReservationsOf(s.reservations, b);
  }

  lemma DropZoneIsolated(s: State, id: Id, r: Rest, b: Rest)
    requires Refs(s) && b != r && FloorPlan.OwnsZone(s, id, r)
    ensures Refs(FloorPlan.DropZone(s, id)) && SameRows(s, FloorPlan.DropZone(s, id), b)
  {
    var t := FloorPlan.DropZone(s, id);
    forall k | k in s.tables
      ensures TableRef(t.zones, t.tables[k]) && t.tables[k].rest == s.tables[k].rest
      ensures s.tables[k].rest == b ==> t.tables[k] == s.tables[k]
    {
      assert TableRef(s.zones, s.tables[k]);
    }
    forall i | 0 <= i < |s.orders|
      ensures OrderRef(t.tables, t.menu, t.orders[i])
    {
      assert OrderRef(s.tables, s.menu, s.orders[i]);
    }
    forall i | 0 <= i < |s.reservations|
      ensures ReservationRef(t.tables, t.orders, t.reservations[i])
    {
      assert ReservationRef(s.tables, s.orders, s.reservations[i]);
    }
    assert TablesOf(t.tables, b) == TablesOf(s.tables, b);
    assert ZonesOf(t.zones, b) == ZonesOf(s.zones, b);
  }

  lemma RemoveTableIsolated(s: State, id: Id, r: Rest, b: Rest)
    requires Refs(s) && b != r
    ensures var t := FloorPlan.RemoveTable(s, id, r).state; Refs(t) && SameRows(s, t, b)
  {
    if FloorPlan.OwnsTable(s, id, r) {
      DropTablesIsolated(s, {id}, r, b);
    }
  }

  lemma RemoveZoneIsolated(s: State, id: Id, r: Rest, b: Rest)
    requires Refs(s) && b != r
    ensures var t := FloorPlan.RemoveZone(s, id, r).state; Refs(t) && SameRows(s, t, b)
  {
    if FloorPlan.OwnsZone(s, id, r) {
      var gone := FloorPlan.TablesIn(s.tables, id, r);
      DropTablesIsolated(s, gone, r, b);
      DropZoneIsolated(DropTables(s, gone), id, r, b);
    }
  }

  /** One table of restaurant r got another status. */
  predicate Relabelled(before: map<Id, Table>, after: map<Id, Table>, r: Rest) {
    exists id :: id in before && before[id].rest == r && id in after
      && after == SetTableStatus(before, id, after[id].status)
  }

  /** Writing one order row of restaurant r, with tables at most re-labelled. */
  lemma OrderWriteIsolated(s: State, t: State, i: nat, row: Order, r: Rest, b: Rest)
    requires Refs(s) && b != r && row.rest == r && i <= |s.orders|
    requires t == s.(orders := t.orders, tables := t.tables, nextId := t.nextId) && s.nextId <= t.nextId
    requires if i < |s.orders| then s.orders[i].rest == r && t.orders == s.orders[i := row]
             else t.orders == s.orders + [row]
    requires t.tables == s.tables || Relabelled(s.tables, t.tables, r)
    requires TableIdRef(s.tables, row.tableId, r) && LineRefs(s.menu, row.items, r)
    ensures Refs(t) && SameRows(s, t, b)
  {
    OrderRow(s.orders, i, row, b);
    if t.tables != s.tables {
      var id :| id in s.tables && s.tables[id].rest == r && id in t.tables
                && t.tables == SetTableStatus(s.tables, id, t.tables[id].status);
      StatusRow(s.tables, id, t.tables[id].status, b);
    }
    RefsKept(s, t);
  }

  lemma InsertOrderIsolated(s: State, tableId: Option<Id>, items: seq<Orders.LineDto>, r: Rest, b: Rest)
    requires Refs(s) && b != r && TableIdRef(s.tables, tableId, r)
    ensures var t := Orders.InsertOrder(s, tableId, items, r).state; Refs(t) && SameRows(s, t, b)
  {
    var t := Orders.InsertOrder(s, tableId, items, r);
    if t.reply.Done? {
      var row := t.state.orders[|s.orders|];
      Orders.PricedLines(s.menu, r, items, s.nextId);
      if tableId.Some? {
        assert t.state.tables == SetTableStatus(s.tables, tableId.value, Occupied);
      }
      OrderWriteIsolated(s, t.state, |s.orders|, row, r, b);
    }
  }

  lemma CreateOrderIsolated(s: State, kind: Orders.OrderKind, items: seq<Orders.LineDto>, r: Rest, b: Rest)
    requires Refs(s) && b != r
    ensures var t := Orders.Create(s, kind, items, r).state; Refs(t) && SameRows(s, t, b)
  {
    Unmoved(s, b);
    match kind
    case Takeaway => InsertOrderIsolated(s, None, items, r, b);
    case DineIn(tableId) =>
      if tableId in s.tables && s.tables[tableId].rest == r {
        InsertOrderIsolated(s, Some(tableId), items, r, b);
      }
  }

  /** Edits and status changes of one order. */
  lemma OrderEditIsolated(s: State, t: Result, order: nat, r: Rest, b: Rest)
    requires Refs(s) && b != r
    requires t.reply.Failure? ==> t.state == s
    requires t.reply.Done? ==>
               && Orders.Owns(s, order, r) && order < |t.state.orders|
               && t.state == s.(orders := s.orders[order := t.state.orders[order]], nextId := t.state.nextId)
               && s.nextId <= t.state.nextId
               && t.state.orders[order].rest == r && t.state.orders[order].tableId == s.orders[order].tableId
               && forall k :: 0 <= k < |t.state.orders[order].items| ==>
                    || LineRef(s.menu, t.state.orders[order].items[k], r)
                    || exists j :: 0 <= j < |s.orders[order].items|
                         && t.state.orders[order].items[k].menuItemId == s.orders[order].items[j].menuItemId
    ensures Refs(t.state) && SameRows(s, t.state, b)
  {
    Unmoved(s, b);
    if t.reply.Done? {
      var row := t.state.orders[order];
      assert OrderRef(s.tables, s.menu, s.orders[order]);
      forall k | 0 <= k < |row.items|
        ensures LineRef(s.menu, row.items[k], r)
      {
        if j :| 0 <= j < |s.orders[order].items| && row.items[k].menuItemId == s.orders[order].items[j].menuItemId {
          assert LineRef(s.menu, s.orders[order].items[j], r);
        }
      }
      OrderWriteIsolated(s, t.state, order, row, r, b);
    }
  }

  lemma AddItemIsolated(s: State, order: nat, dto: Orders.LineDto, r: Rest, b: Rest)
    requires Refs(s) && b != r
    ensures var t := Orders.AddItem(s, order, dto, r).state; Refs(t) && SameRows(s, t, b)
  {
    OrderEditIsolated(s, Orders.AddItem(s, order, dto, r), order, r, b);
  }

  lemma UpdateQuantityIsolated(s: State, order: nat, item: Id, quantity: Option<Orders.Positive>, r: Rest, b: Rest)
    requires Refs(s) && b != r
    ensures var t := Orders.UpdateItemQuantity(s, order, item, quantity, r).state; Refs(t) && SameRows(s, t, b)
  {
    OrderEditIsolated(s, Orders.UpdateItemQuantity(s, order, item, quantity, r), order, r, b);
  }

  lemma RemoveItemIsolated(s: State, order: nat, item: Id, r: Rest, b: Rest)
    requires Refs(s) && b != r
    ensures var t := Orders.RemoveItem(s, order, item, r).state; Refs(t) && SameRows(s, t, b)
  {
    OrderEditIsolated(s, Orders.RemoveItem(s, order, item, r), order, r, b);
  }

  lemma ApplyDiscountIsolated(s: State, order: nat, discount: Orders.Discount, r: Rest, b: Rest)
    requires Refs(s) && b != r
    ensures var t := Orders.ApplyDiscount(s, order, discount, r).state; Refs(t) && SameRows(s, t, b)
  {
    OrderEditIsolated(s, Orders.ApplyDiscount(s, order, discount, r), order, r, b);
  }

  lemma ConfirmOrderIsolated(s: State, order: nat, r: Rest, b: Rest)
    requires Refs(s) && b != r
    ensures var t := Orders.ConfirmOrder(s, order, r).state; Refs(t) && SameRows(s, t, b)
  {
    OrderEditIsolated(s, Orders.ConfirmOrder(s, order, r), order, r, b);
  }

  lemma UpdateStatusIsolated(s: State, order: nat, next: Status, r: Rest, b: Rest)
    requires Refs(s) && b != r
    ensures var t := Orders.UpdateStatus(s, order, next, r).state; Refs(t) && SameRows(s, t, b)
  {
    OrderEditIsolated(s, Orders.UpdateStatus(s, order, next, r), order, r, b);
  }

  // ---------- Money ----------

  /** Payments carry no reference the others depend on. */
  lemma PaymentsOnly(s: State, t: State)
    requires Refs(s) && t == s.(payments := t.payments)
    ensures Refs(t)
  {
  }

  lemma IntentRefs(s: State, order: nat, intent: nat, r: Rest)
    requires Refs(s)
    ensures Refs(Payments.CreateIntent(s, order, intent, r).state)
  {
    PaymentsOnly(s, Payments.CreateIntent(s, order, intent, r).state);
  }

  /** The gateway reference already belongs to a payment of restaurant b with another amount. */
  predicate IntentReused(s: State, order: nat, intent: nat, b: Rest) {
    var found := Payments.FindByRef(s.payments, intent);
    && found.Some? && s.payments[found.value].rest == b
    && order < |s.orders| && s.payments[found.value].amountCents != s.orders[order].totalCents
  }

  /** The guards of creating an intent hold, and the gateway's reference is one of restaurant b's. */
  predicate IntentLeaks(s: State, order: nat, intent: nat, r: Rest, b: Rest) {
    Orders.Owns(s, order, r) && s.orders[order].status == Pending && IntentReused(s, order, intent, b)
  }

  lemma IntentIsolated(s: State, order: nat, intent: nat, r: Rest, b: Rest)
    requires b != r
    ensures SameRows(s, Payments.CreateIntent(s, order, intent, r).state, b) <==> !IntentLeaks(s, order, intent, r, b)
  {
    var t := Payments.CreateIntent(s, order, intent, r);
    Unmoved(s, b);
    if t.reply.Done? {
      var found := Payments.FindByRef(s.payments, intent);
      if found.Some? {
        var p := s.payments[found.value];
        if p.rest == b {
          assert PaymentsOf(s.payments, b)[found.value] == p;
          assert PaymentsOf(t.state.payments, b)[found.value] == t.state.payments[found.value];
          if p.amountCents == s.orders[order].totalCents {
            assert t.state.payments == s.payments;
          }
        } else {
          PaymentRow(s.payments, found.value, t.state.payments[found.value], b);
        }
      } else {
        PaymentRow(s.payments, |s.payments|, t.state.payments[|s.payments|], b);
      }
    }
  }

  lemma CheckoutIsolated(s: State, dto: Payments.CheckoutDto, r: Rest, b: Rest)
    requires Refs(s) && b != r
    ensures var t := Payments.Checkout(s, dto, r).state; Refs(t) && SameRows(s, t, b)
  {
    var t := Payments.Checkout(s, dto, r).state;
    Unmoved(s, b);
    if t != s {
      var o := s.orders[dto.orderId];
      assert OrderRef(s.tables, s.menu, o);
      OrderRow(s.orders, dto.orderId, o.(status := Confirmed), b);
      if o.tableId.Some? {
        StatusRow(s.tables, o.tableId.value, Available, b);
      }
      PaymentRow(s.payments, |s.payments|, t.payments[|s.payments|], b);
      DecrementRows(s.stock, r, o.items, b);
      RefsKept(s, t);
    }
  }

  lemma OpenSessionIsolated(s: State, openingFloat: nat, r: Rest, b: Rest)
    requires Refs(s) && b != r
    ensures var t := CashRegister.OpenSession(s, openingFloat, r).state; Refs(t) && SameRows(s, t, b)
  {
    var t := CashRegister.OpenSession(s, openingFloat, r);
    Unmoved(s, b);
    if t.reply.Done? {
      SessionRow(s.sessions, t.reply.id, t.state.sessions[t.reply.id], b);
      RefsKept(s, t.state);
    }
  }

  lemma CloseSessionIsolated(s: State, counted: nat, r: Rest, b: Rest)
    requires Refs(s) && b != r
    ensures var t := CashRegister.CloseSession(s, counted, r).state; Refs(t) && SameRows(s, t, b)
  {
    var t := CashRegister.CloseSession(s, counted, r);
    Unmoved(s, b);
    if t.reply.Done? {
      SessionRow(s.sessions, t.reply.id, t.state.sessions[t.reply.id], b);
      RefsKept(s, t.state);
    }
  }

  /** A webhook moves rows of the restaurant its payment belongs to and no other. */
  lemma WebhookIsolated(s: State, event: Payments.Event, b: Rest)
    requires Refs(s) && PaymentsSound(s)
    requires var found := Payments.PaymentFor(s.payments, event); found.Some? ==> s.payments[found.value].rest != b
    ensures SameRows(s, Payments.Webhook(s, event), b)
  {
    var t := Payments.Webhook(s, event);
    var found := Payments.PaymentFor(s.payments, event);
    if event.kind == Payments.OtherKind || found.None? {
      Unmoved(s, b);
    } else {
      var p := s.payments[found.value];
      var status := if event.kind == Payments.IntentFailed then Failed else Succeeded;
      var mid := Payments.WithEvent(s, found.value, status, event.id);
      assert PaymentSound(s.orders, p);
      PaymentRow(s.payments, found.value, p.(status := status, lastEventId := Some(event.id)), b);
      MarkConfirmedRows(mid, p.orderId, b);
      if event.kind == Payments.IntentSucceeded {
        SameRowsTransitive(s, mid, t, b);
      }
    }
  }

  lemma MarkConfirmedRows(s: State, orderId: nat, b: Rest)
    requires orderId < |s.orders| ==> s.orders[orderId].rest != b
    ensures SameRows(s, Orders.MarkConfirmed(s, orderId), b)
  {
    Unmoved(s, b);
    if orderId < |s.orders| {
      OrderRow(s.orders, orderId, s.orders[orderId].(status := Confirmed), b);
    }
  }

  lemma WebhookRefs(s: State, event: Payments.Event)
    requires Refs(s)
    ensures Refs(Payments.Webhook(s, event))
  {
    var found := Payments.PaymentFor(s.payments, event);
    if event.kind != Payments.OtherKind && found.Some? {
      var status := if event.kind == Payments.IntentFailed then Failed else Succeeded;
      var mid := Payments.WithEvent(s, found.value, status, event.id);
      PaymentsOnly(s, mid);
      if event.kind == Payments.IntentSucceeded {
        MarkConfirmedRefs(mid, s.payments[found.value].orderId);
      }
    }
  }

  lemma MarkConfirmedRefs(s: State, orderId: nat)
    requires Refs(s)
    ensures Refs(Orders.MarkConfirmed(s, orderId))
  {
    if orderId < |s.orders| && CanTransition(s.orders[orderId].status, Confirmed) {
      OrderRelabelled(s, orderId, Confirmed);
    }
  }

  lemma OrderRelabelled(s: State, orderId: nat, status: Status)
    requires Refs(s) && orderId < |s.orders|
    ensures Refs(s.(orders := s.orders[orderId := s.orders[orderId].(status := status)]))
  {
    assert OrderRef(s.tables, s.menu, s.orders[orderId]);
    RefsKept(s, s.(orders := s.orders[orderId := s.orders[orderId].(status := status)]));
  }

  // ---------- Reservations ----------

  lemma ReservationWriteIsolated(s: State, t: State, i: nat, row: Reservation, r: Rest, b: Rest)
    requires Refs(s) && b != r && row.rest == r && i <= |s.reservations|
    requires t == s.(reservations := t.reservations, tables := t.tables)
    requires if i < |s.reservations| then s.reservations[i].rest == r && t.reservations == s.reservations[i := row]
             else t.reservations == s.reservations + [row]
    requires t.tables == s.tables || Relabelled(s.tables, t.tables, r)
    requires ReservationRef(s.tables, s.orders, row)
    ensures Refs(t) && SameRows(s, t, b)
  {
    ReservationRow(s.reservations, i, row, b);
    if t.tables != s.tables {
      var id :| id in s.tables && s.tables[id].rest == r && id in t.tables
                && t.tables == SetTableStatus(s.tables, id, t.tables[id].status);
      StatusRow(s.tables, id, t.tables[id].status, b);
    }
    RefsKept(s, t);
  }

  lemma SameRowsTransitive(s: State, t: State, u: State, b: Rest)
    requires SameRows(s, t, b) && SameRows(t, u, b)
    ensures SameRows(s, u, b)
  {
  }

  lemma CreateOrderAnswer(s: State, kind: Orders.OrderKind, items: seq<Orders.LineDto>, r: Rest)
    ensures var t := Orders.Create(s, kind, items, r);
            && t.state.reservations == s.reservations
            && (t.reply.Done? ==> Orders.Owns(t.state, t.reply.id, r))
            && (forall id :: id in s.tables ==> id in t.state.tables && t.state.tables[id].rest == s.tables[id].rest)
  {
    if kind.DineIn? {
      LatestActiveOwned(s.orders, kind.tableId, r);
    }
  }

  lemma {:induction false} LatestActiveOwned(orders: seq<Order>, tableId: Id, r: Rest)
    ensures var found := Orders.LatestActive(orders, tableId, r);
            found.Some? ==> orders[found.value].rest == r && orders[found.value].tableId == Some(tableId)
  {
    if orders != [] {
      LatestActiveOwned(orders[..|orders| - 1], tableId, r);
    }
  }

  lemma CreateReservationIsolated(s: State, dto: Reservations.ReservationDto, r: Rest, b: Rest)
    requires Refs(s) && b != r
    ensures var t := Reservations.Create(s, dto, r).state; Refs(t) && SameRows(s, t, b)
  {
    var t := Reservations.Create(s, dto, r);
    Unmoved(s, b);
    if dto.PreorderDto? {
      CreateOrderIsolated(s, Orders.Takeaway, dto.lines, r, b);
      CreateOrderAnswer(s, Orders.Takeaway, dto.lines, r);
      var placed := Orders.Create(s, Orders.Takeaway, dto.lines, r);
      if t.reply.Done? {
        var row := t.state.reservations[|s.reservations|];
        ReservationWriteIsolated(placed.state, t.state, |s.reservations|, row, r, b);
        SameRowsTransitive(s, placed.state, t.state, b);
      }
    } else if t.reply.Done? {
      ReservationWriteIsolated(s, t.state, |s.reservations|, t.state.reservations[|s.reservations|], r, b);
    }
  }

  /** Confirming and ending a reservation write its row and re-label at most its table. */
  lemma ReservationMoveIsolated(s: State, t: Result, id: nat, r: Rest, b: Rest)
    requires Refs(s) && b != r
    requires t.reply.Failure? ==> t.state == s
    requires t.reply.Done? ==>
               && Reservations.Owns(s, id, r) && |t.state.reservations| == |s.reservations|
               && t.state.reservations == s.reservations[id := t.state.reservations[id]]
               && t.state == s.(reservations := t.state.reservations, tables := t.state.tables)
               && t.state.reservations[id] == s.reservations[id].(status := t.state.reservations[id].status)
               && (t.state.tables == s.tables || s.reservations[id].tableId.Some?)
    requires t.reply.Done? && t.state.tables != s.tables ==>
               var tableId := s.reservations[id].tableId.value;
               tableId in t.state.tables
               && t.state.tables == SetTableStatus(s.tables, tableId, t.state.tables[tableId].status)
    ensures Refs(t.state) && SameRows(s, t.state, b)
  {
    Unmoved(s, b);
    if t.reply.Done? {
      assert ReservationRef(s.tables, s.orders, s.reservations[id]);
      ReservationWriteIsolated(s, t.state, id, t.state.reservations[id], r, b);
    }
  }

  lemma ConfirmReservationIsolated(s: State, id: nat, r: Rest, b: Rest)
    requires Refs(s) && b != r
    ensures var t := Reservations.Confirm(s, id, r).state; Refs(t) && SameRows(s, t, b)
  {
    ReservationMoveIsolated(s, Reservations.Confirm(s, id, r), id, r, b);
  }

  lemma TerminateIsolated(s: State, id: nat, ending: Reservations.Ending, r: Rest, b: Rest)
    requires Refs(s) && b != r
    ensures var t := Reservations.Terminate(s, id, ending, r).state; Refs(t) && SameRows(s, t, b)
  {
    ReservationMoveIsolated(s, Reservations.Terminate(s, id, ending, r), id, r, b);
  }

  lemma SeatPreorderIsolated(s: State, id: nat, r: Rest, b: Rest)
    requires Refs(s) && b != r && Reservations.Owns(s, id, r)
    ensures var t := Reservations.SeatWithPreorder(s, id).state; Refs(t) && SameRows(s, t, b)
  {
    var t := Reservations.SeatWithPreorder(s, id);
    Unmoved(s, b);
    if t.reply.Done? {
      var reservation := s.reservations[id];
      assert ReservationRef(s.tables, s.orders, reservation);
      var tableId, orderId := reservation.tableId.value, reservation.orderId.value;
      var mid := s.(orders := t.state.orders, tables := t.state.tables);
      assert OrderRef(s.tables, s.menu, s.orders[orderId]);
      assert mid.tables == SetTableStatus(s.tables, tableId, Occupied);
      OrderWriteIsolated(s, mid, orderId, s.orders[orderId].(tableId := Some(tableId)), r, b);
      ReservationWriteIsolated(mid, t.state, id, reservation.(status := Seated), r, b);
      SameRowsTransitive(s, mid, t.state, b);
    }
  }

  lemma SeatAtIsolated(s: State, id: nat, tableId: Id, r: Rest, b: Rest)
    requires Refs(s) && b != r && Reservations.Owns(s, id, r)
    ensures var t := Reservations.SeatAt(s, id, tableId, r).state; Refs(t) && SameRows(s, t, b)
  {
    var t := Reservations.SeatAt(s, id, tableId, r);
    var placed := Orders.Create(s, Orders.DineIn(tableId), [], r);
    CreateOrderIsolated(s, Orders.DineIn(tableId), [], r, b);
    CreateOrderAnswer(s, Orders.DineIn(tableId), [], r);
    if t.reply.Done? {
      ReservationWriteIsolated(placed.state, t.state, id, t.state.reservations[id], r, b);
      SameRowsTransitive(s, placed.state, t.state, b);
    }
  }

  lemma SeatIsolated(s: State, id: nat, tableId: Option<Id>, r: Rest, b: Rest)
    requires Refs(s) && b != r
    ensures var t := Reservations.Seat(s, id, tableId, r).state; Refs(t) && SameRows(s, t, b)
  {
    Unmoved(s, b);
    if Reservations.Owns(s, id, r) && s.reservations[id].status == Committed {
      var reservation := s.reservations[id];
      if reservation.kind == WithPreorder {
        SeatPreorderIsolated(s, id, r, b);
      } else if reservation.kind == Informal {
        if tableId.Some? {
          SeatAtIsolated(s, id, tableId.value, r, b);
        }
      } else if reservation.tableId.Some? {
        SeatAtIsolated(s, id, reservation.tableId.value, r, b);
        var seated := Reservations.SeatAt(s, id, reservation.tableId.value, r);
        if seated.reply.Done? && reservation.depositCents > 0 {
          var discount := Orders.Fixed(reservation.depositCents);
          ApplyDiscountIsolated(seated.state, seated.reply.id, discount, r, b);
          var t := Orders.ApplyDiscount(seated.state, seated.reply.id, discount, r).state;
          SameRowsTransitive(s, seated.state, t, b);
        }
      }
    }
  }

  // ---------- All calls ----------

  /** The two ways a call for one restaurant can move a row of another. */
  predicate Leaks(s: State, c: Call, b: Rest) {
    match c
    case OnMenu(r, menu) => menu.RemoveMenuItem? && RemovalLeaks(s, menu.removed, r, b)
    case OnMoney(r, money) => money.CreateIntent? && IntentLeaks(s, money.order, money.intent, r, b)
    case _ => false
  }

  lemma MenuIsolated(s: State, c: MenuCall, r: Rest, b: Rest)
    requires Refs(s) && b != r
    ensures Refs(PerformMenu(s, c, r).state)
    ensures SameRows(s, PerformMenu(s, c, r).state, b) <==> !Leaks(s, OnMenu(r, c), b)
  {
    match c
    case PutMenuItem(id, price, available, groups) => PutMenuIsolated(s, id, price, available, groups, r, b);
    case RemoveMenuItem(id) =>
      RemoveMenuRefs(s, id, r);
      RemoveMenuIsolated(s, id, r, b);
    case CreateStock(quantity, linkedTo) => CreateStockIsolated(s, quantity, linkedTo, r, b);
    case AdjustStock(id, delta) => AdjustIsolated(s, id, delta, r, b);
  }

  lemma TablesIsolated(s: State, c: FloorCall, r: Rest, b: Rest)
    requires Refs(s) && b != r && (c.CreateTable? || c.UpdateTable? || c.UpdateLayout? || c.RemoveTable?)
    ensures var t := PerformFloor(s, c, r).state; Refs(t) && SameRows(s, t, b)
  {
    match c
    case CreateTable(name) => CreateTableIsolated(s, name, r, b);
    case UpdateTable(id, name) => UpdateTableIsolated(s, id, name, r, b);
    case UpdateLayout(id, change) => UpdateLayoutIsolated(s, id, change, r, b);
    case RemoveTable(id) => RemoveTableIsolated(s, id, r, b);
  }

  lemma ZonesIsolated(s: State, c: FloorCall, r: Rest, b: Rest)
    requires Refs(s) && b != r && (c.CreateZone? || c.UpdateZone? || c.RemoveZone?)
    ensures var t := PerformFloor(s, c, r).state; Refs(t) && SameRows(s, t, b)
  {
    match c
    case CreateZone(name) => CreateZoneIsolated(s, name, r, b);
    case UpdateZone(id, name, code) => UpdateZoneIsolated(s, id, name, code, r, b);
    case RemoveZone(id) => RemoveZoneIsolated(s, id, r, b);
  }

  lemma FloorIsolated(s: State, c: FloorCall, r: Rest, b: Rest)
    requires Refs(s) && b != r
    ensures var t := PerformFloor(s, c, r).state; Refs(t) && SameRows(s, t, b)
  {
    if c.CreateZone? || c.UpdateZone? || c.RemoveZone? {
      ZonesIsolated(s, c, r, b);
    } else {
      TablesIsolated(s, c, r, b);
    }
  }

  lemma EditIsolated(s: State, order: nat, c: EditCall, r: Rest, b: Rest)
    requires Refs(s) && b != r
    ensures var t := PerformEdit(s, order, c, r).state; Refs(t) && SameRows(s, t, b)
  {
    match c
    case AddItem(line) => AddItemIsolated(s, order, line, r, b);
    case UpdateItemQuantity(item, quantity) => UpdateQuantityIsolated(s, order, item, quantity, r, b);
    case RemoveItem(item) => RemoveItemIsolated(s, order, item, r, b);
    case ConfirmOrder => ConfirmOrderIsolated(s, order, r, b);
    case UpdateStatus(next) => UpdateStatusIsolated(s, order, next, r, b);
    case ApplyDiscount(discount) => ApplyDiscountIsolated(s, order, discount, r, b);
  }

  lemma MoneyIsolated(s: State, c: MoneyCall, r: Rest, b: Rest)
    requires Refs(s) && b != r
    ensures Refs(PerformMoney(s, c, r).state)
    ensures SameRows(s, PerformMoney(s, c, r).state, b) <==> !Leaks(s, OnMoney(r, c), b)
  {
    match c
    case CreateIntent(order, intent) =>
      IntentRefs(s, order, intent, r);
      IntentIsolated(s, order, intent, r, b);
    case Checkout(dto) => CheckoutIsolated(s, dto, r, b);
    case OpenSession(openingFloat) => OpenSessionIsolated(s, openingFloat, r, b);
    case CloseSession(counted) => CloseSessionIsolated(s, counted, r, b);
  }

  lemma BookingIsolated(s: State, c: BookingCall, r: Rest, b: Rest)
    requires Refs(s) && b != r
    ensures var t := PerformBooking(s, c, r).state; Refs(t) && SameRows(s, t, b)
  {
    match c
    case CreateReservation(dto) => CreateReservationIsolated(s, dto, r, b);
    case ConfirmReservation(id) => ConfirmReservationIsolated(s, id, r, b);
    case SeatReservation(id, table) => SeatIsolated(s, id, table, r, b);
    case EndReservation(id, ending) => TerminateIsolated(s, id, ending, r, b);
  }

  /** One call: references stay sound, and restaurant b's rows stay put exactly when the call does not leak. */
  lemma StepIsolated(s: State, c: Call, b: Rest)
    requires Refs(s) && !c.Webhook? && b != c.rest
    ensures Refs(Step(s, c))
    ensures SameRows(s, Step(s, c), b) <==> !Leaks(s, c, b)
  {
    match c
    case OnMenu(r, menu) => MenuIsolated(s, menu, r, b);
    case OnFloor(r, floor) => FloorIsolated(s, floor, r, b);
    case PlaceOrder(r, kind, lines) => CreateOrderIsolated(s, kind, lines, r, b);
    case EditOrder(r, order, edit) => EditIsolated(s, order, edit, r, b);
    case OnMoney(r, money) => MoneyIsolated(s, money, r, b);
    case OnBooking(r, booking) => BookingIsolated(s, booking, r, b);
  }

  /** In every run all references stay inside one restaurant. */
  lemma {:induction false} AlwaysRefs(config: Config, calls: seq<Call>)
    ensures Refs(Run(Empty(config), calls))
  {
    if calls != [] {
      var before, c := Run(Empty(config), calls[..|calls| - 1]), calls[|calls| - 1];
      AlwaysRefs(config, calls[..|calls| - 1]);
      if c.Webhook? {
        WebhookRefs(before, c.event);
      } else {
        StepIsolated(before, c, c.rest + 1);
      }
    }
  }

  /**
   Non-interference: in every reachable state, a call for one restaurant leaves every row of restaurant b as
   it was exactly when it does not leak, and a webhook moves rows of its payment's restaurant only.
   */
  lemma NonInterference(s: State, c: Call, b: Rest)
    requires Reachable(s)
    ensures !c.Webhook? && b != c.rest ==> (SameRows(s, Step(s, c), b) <==> !Leaks(s, c, b))
    ensures c.Webhook? ==>
              var found := Payments.PaymentFor(s.payments, c.event);
              (found.Some? ==> s.payments[found.value].rest != b) ==> SameRows(s, Step(s, c), b)
  {
    var config, calls :| s == Run(Empty(config), calls);
    AlwaysRefs(config, calls);
    ReachableSound(s);
    if c.Webhook? {
      var found := Payments.PaymentFor(s.payments, c.event);
      if found.Some? ==> s.payments[found.value].rest != b {
        WebhookIsolated(s, c.event, b);
      }
    } else if b != c.rest {
      StepIsolated(s, c, b);
    }
  }

  /** The gateway answers an intent with a reference no payment has. */
  predicate FreshReference(s: State, c: Call) {
    c.OnMoney? && c.moneyCall.CreateIntent? ==> Payments.FindByRef(s.payments, c.moneyCall.intent).None?
  }

  /** With a gateway that never repeats a reference, removing a menu item is the only leak there is. */
  lemma OnlyRemovalLeaks(s: State, c: Call, b: Rest)
    requires Reachable(s) && !c.Webhook? && b != c.rest && FreshReference(s, c)
    ensures SameRows(s, Step(s, c), b) <==>
              !(c.OnMenu? && c.menuCall.RemoveMenuItem? && RemovalLeaks(s, c.menuCall.removed, c.rest, b))
  {
    NonInterference(s, c, b);
  }
}
