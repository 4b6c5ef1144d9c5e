/**
 The services put together: one object that takes any public call, and serves any run of calls.
 */
module PointOfSale {
  import opened Basics
  import opened Store
  import opened Pos
  import Inventory
  import Services
  import StockLedger

  class Server {
    const db: Database
    const menuItems: Services.MenuItemsService
    const inventory: Services.InventoryService
    const tables: Services.TablesService
    const zones: Services.ZonesService
    const orders: Services.OrdersService
    const payments: Services.PaymentsService
    const register: Services.CashRegisterService
    const reservations: Services.ReservationsService

    predicate Valid() {
      && menuItems.db == db && inventory.db == db && tables.db == db && zones.db == db && orders.db == db
      && payments.db == db && payments.Valid() && register.db == db
      && reservations.db == db && reservations.Valid()
    }

    constructor (db: Database)
      ensures Valid() && this.db == db
    {
      var orders := new Services.OrdersService(db);
      var inventory := new Services.InventoryService(db);
      this.db := db;
      this.orders := orders;
      this.inventory := inventory;
      this.menuItems := new Services.MenuItemsService(db);
      this.tables := new Services.TablesService(db);
      this.zones := new Services.ZonesService(db);
      this.payments := new Services.PaymentsService(db, orders, inventory);
      this.register := new Services.CashRegisterService(db);
      this.reservations := new Services.ReservationsService(db, orders);
    }

    method ServeMenu(c: MenuCall, r: Rest) returns (reply: Reply)
      requires Valid()
      modifies db
      ensures Result(db.Rows(), reply) == PerformMenu(old(db.Rows()), c, r)
    {
      match c
      case PutMenuItem(id, price, available, groups) => reply := menuItems.Put(id, price, available, groups, r);
      case RemoveMenuItem(id) => reply := menuItems.Remove(id, r);
      case CreateStock(quantity, linkedTo) => reply := inventory.Create(quantity, linkedTo, r);
      case AdjustStock(id, delta) => reply := inventory.Adjust(id, delta, r);
    }

    method ServeFloor(c: FloorCall, r: Rest) returns (reply: Reply)
      requires Valid()
      modifies db
      ensures Result(db.Rows(), reply) == PerformFloor(old(db.Rows()), c, r)
    {
      if c.CreateZone? || c.UpdateZone? || c.RemoveZone? {
        reply := ServeZone(c, r);
      } else {
        reply := ServeTable(c, r);
      }
    }

    method ServeTable(c: FloorCall, r: Rest) returns (reply: Reply)
      requires Valid() && (c.CreateTable? || c.UpdateTable? || c.UpdateLayout? || c.RemoveTable?)
      modifies db
      ensures Result(db.Rows(), reply) == PerformFloor(old(db.Rows()), c, r)
    {
      match c
      case CreateTable(name) => reply := tables.Create(name, r);
      case UpdateTable(id, name) => reply := tables.Update(id, name, r);
      case UpdateLayout(id, change) => reply := tables.UpdateLayout(id, change, r);
      case RemoveTable(id) => reply := tables.Remove(id, r);
    }

    method ServeZone(c: FloorCall, r: Rest) returns (reply: Reply)
      requires Valid() && (c.CreateZone? || c.UpdateZone? || c.RemoveZone?)
      modifies db
      ensures Result(db.Rows(), reply) == PerformFloor(old(db.Rows()), c, r)
    {
      if c.CreateZone? {
        reply := ServeNewZone(c, r);
      } else if c.UpdateZone? {
        reply := zones.Update(c.zone, c.newZoneName, c.newCode, r);
      } else {
        reply := zones.Remove(c.zone, r);
      }
    }

    method ServeNewZone(c: FloorCall, r: Rest) returns (reply: Reply)
      requires Valid() && c.CreateZone?
      modifies db
      ensures Result(db.Rows(), reply) == PerformFloor(old(db.Rows()), c, r)
    {
      reply := zones.Create(c.zoneName, r);
    }

    method ServeEdit(order: nat, c: EditCall, r: Rest) returns (reply: Reply)
      requires Valid()
      modifies db
      ensures Result(db.Rows(), reply) == PerformEdit(old(db.Rows()), order, c, r)
    {
      match c
      case AddItem(line) => reply := orders.AddItem(order, line, r);
      case UpdateItemQuantity(item, quantity) => reply := orders.UpdateItemQuantity(order, item, quantity, r);
      case RemoveItem(item) => reply := orders.RemoveItem(order, item, r);
      case ConfirmOrder => reply := orders.ConfirmOrder(order, r);
      case UpdateStatus(next) => reply := orders.UpdateStatus(order, next, r);
      case ApplyDiscount(discount) => reply := orders.ApplyDiscount(order, discount, r);
    }

    method ServeMoney(c: MoneyCall, r: Rest) returns (reply: Reply)
      requires Valid() && Inventory.UniqueLinks(db.stock)
      modifies db
      ensures Result(db.Rows(), reply) == PerformMoney(old(db.Rows()), c, r)
    {
      match c
      case CreateIntent(order, intent) => reply := payments.CreateIntent(order, intent, r);
      case Checkout(dto) => reply := payments.Checkout(dto, r);
      case OpenSession(openingFloat) => reply := register.OpenSession(openingFloat, r);
      case CloseSession(counted) => reply := register.CloseSession(counted, r);
    }

    method ServeBooking(c: BookingCall, r: Rest) returns (reply: Reply)
      requires Valid()
      modifies db
      ensures Result(db.Rows(), reply) == PerformBooking(old(db.Rows()), c, r)
    {
      match c
      case CreateReservation(dto) => reply := reservations.Create(dto, r);
      case ConfirmReservation(id) => reply := reservations.Confirm(id, r);
      case SeatReservation(id, table) => reply := reservations.Seat(id, table, r);
      case EndReservation(id, ending) => reply := reservations.Terminate(id, ending, r);
    }

    /** Any public call, as one step of the transition system. */
    method Serve(c: Call) returns (reply: Reply)
      requires Valid() && Inventory.UniqueLinks(db.stock)
      modifies db
      ensures Result(db.Rows(), reply) == Perform(old(db.Rows()), c)
    {
      match c
      case OnMenu(r, menu) => reply := ServeMenu(menu, r);
      case OnFloor(r, floor) => reply := ServeFloor(floor, r);
      case PlaceOrder(r, kind, lines) => reply := orders.Create(kind, lines, r);
      case EditOrder(r, order, edit) => reply := ServeEdit(order, edit, r);
      case OnMoney(r, money) => reply := ServeMoney(money, r);
      case OnBooking(r, booking) => reply := ServeBooking(booking, r);
      case Webhook(event) =>
        payments.HandleWebhook(event);
        reply := ACKNOWLEDGED;
    }
  }

  /** A run of the services on a fresh database ends in the rows of the run of the transition system. */
  method ServeAll(config: Config, calls: seq<Call>) returns (server: Server)
    ensures server.Valid() && server.db.Rows() == Run(Empty(config), calls)
  {
    var db := new Database(config);
    server := new Server(db);
    for i := 0 to |calls|
      invariant server.Valid() && server.db == db && db.Rows() == Run(Empty(config), calls[..i])
    {
      StockLedger.AlwaysStockSound(config, calls[..i]);
      assert calls[..i + 1][..i] == calls[..i];
      var _ := server.Serve(calls[i]);
    }
    assert calls[..|calls|] == calls;
  }
}
