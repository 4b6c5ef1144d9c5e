/**
 The rows of prisma/schema.prisma that the point-of-sale services read and write, as a value (`State`) and
 as the database object the services share (`Database`). Orders, payments, register sessions and
 reservations are never deleted, so each is a list whose positions are the ids, in creation order.
 */
module Store {
  import opened Basics
  import opened OrderStatus
  import Modifiers

  type Id = nat
  type Rest = nat

  datatype TableStatus = Available | Reserved | Occupied
  datatype Table = Table(rest: Rest, name: string, status: TableStatus, zoneId: Option<Id>)

  datatype Zone = Zone(rest: Rest, name: string, code: string)

  /** A menu item with the modifier groups configured for it. */
  datatype MenuItem = MenuItem(rest: Rest, priceCents: nat, available: bool, groups: seq<Modifiers.Group>)

  /** A stock item with the deltas of its logged adjustments, oldest first. */
  datatype StockItem = StockItem(
    rest: Rest, menuItemId: Option<Id>, opening: real, log: seq<real>, quantityOnHand: real)

  /** An order line: prices and modifiers are snapshots taken when it was added. */
  datatype Line = Line(
    id: Id, menuItemId: Id, priceCents: int, quantity: nat,
    modifiers: seq<Modifiers.Selection>, modifierDeltaCents: int, lineTotalCents: int)

  datatype Order = Order(
    rest: Rest, status: Status, tableId: Option<Id>, items: seq<Line>,
    subtotalCents: int, taxCents: int, totalCents: int, discountCents: int)

  datatype PaymentMethod = Cash | Card | Transfer | Stripe
  datatype PaymentStatus = RequiresPayment | Succeeded | Failed

  datatype Payment = Payment(
    rest: Rest, orderId: nat, tender: PaymentMethod, providerRef: Option<nat>,
    amountCents: int, paidCents: int, changeCents: int,
    status: PaymentStatus, lastEventId: Option<nat>, sessionId: Option<nat>)

  datatype Closing = Closing(expectedCents: int, countedCents: int, differenceCents: int)

  /** A register session; open until it has a closing. */
  datatype Session = Session(rest: Rest, openingFloatCents: nat, closing: Option<Closing>)

  datatype ReservationType = WithPreorder | DepositOnly | Informal
  datatype ReservationStatus = Waiting | Committed | Seated | NoShow | CalledOff

  /** `Waiting`, `Committed` and `CalledOff` are the schema's PENDING, CONFIRMED and CANCELLED. */
  datatype Reservation = Reservation(
    rest: Rest, kind: ReservationType, status: ReservationStatus,
    tableId: Option<Id>, orderId: Option<nat>, depositCents: int)

  datatype RatePair = RatePair(num: nat, den: nat)

  /** The tax rate as an exact ratio. */
  type Rate = r: RatePair | r.den > 0 witness RatePair(0, 1)

  datatype Config = Config(taxRate: Rate, depositCents: int)

  datatype State = State(
    config: Config,
    menu: map<Id, MenuItem>, stock: map<Id, StockItem>, zones: map<Id, Zone>, tables: map<Id, Table>,
    orders: seq<Order>, payments: seq<Payment>, sessions: seq<Session>, reservations: seq<Reservation>,
    nextId: Id)

  function Empty(config: Config): State {
    State(config, map[], map[], map[], map[], [], [], [], [], 0)
  }

  datatype Error = NotFound | BadRequest | Conflict

  /** What a call answers: the id of the row it is about, or the exception it throws. */
  datatype Reply = Done(id: nat) | Failure(error: Error)

  /** The state a call leaves behind and its answer. */
  datatype Result = Result(state: State, reply: Reply)

  function Reject(s: State, error: Error): Result {
    Result(s, Failure(error))
  }

  // ---------- Row updates shared by several services ----------

  function WithOrder(s: State, id: nat, o: Order): State {
    if id < |s.orders| then s.(orders := s.orders[id := o]) else s
  }

  function WithReservation(s: State, id: nat, r: Reservation): State {
    if id < |s.reservations| then s.(reservations := s.reservations[id := r]) else s
  }

  function SetTableStatus(tables: map<Id, Table>, id: Id, status: TableStatus): map<Id, Table> {
    if id in tables then tables[id := tables[id].(status := status)] else tables
  }

  function Unlink(tableId: Option<Id>, gone: set<Id>): Option<Id> {
    if tableId.Some? && tableId.value in gone then None else tableId
  }

  /** Deleting tables: the foreign keys of orders and reservations are ON DELETE SET NULL. */
  function DropTables(s: State, gone: set<Id>): State {
    s.(tables := s.tables - gone,
       orders := seq(|s.orders|, i requires 0 <= i < |s.orders| =>
                       s.orders[i].(tableId := Unlink(s.orders[i].tableId, gone))),
       reservations := seq(|s.reservations|, i requires 0 <= i < |s.reservations| =>
                             s.reservations[i].(tableId := Unlink(s.reservations[i].tableId, gone))))
  }

  // ---------- The shared database ----------

  class Database {
    const config: Config
    var menu: map<Id, MenuItem>
    var stock: map<Id, StockItem>
    var zones: map<Id, Zone>
    var tables: map<Id, Table>
    var orders: seq<Order>
    var payments: seq<Payment>
    var sessions: seq<Session>
    var reservations: seq<Reservation>
    var nextId: Id

    function Rows(): State
      reads this
    {
      State(config, menu, stock, zones, tables, orders, payments, sessions, reservations, nextId)
    }

    /** A freshly migrated database. */
    constructor (config: Config)
      ensures Rows() == Empty(config)
    {
      this.config := config;
      menu, stock, zones, tables := map[], map[], map[], map[];
      orders, payments, sessions, reservations := [], [], [], [];
      nextId := 0;
    }

    /** table.update of one row's status. */
    method UpdateTableStatus(id: Id, status: TableStatus)
      modifies this`tables
      ensures tables == SetTableStatus(old(tables), id, status)
    {
      if id in tables {
        tables := tables[id := tables[id].(status := status)];
      }
    }

    /** Deletes table rows; the database nulls the references to them. */
    method DeleteTables(gone: set<Id>)
      modifies this`tables, this`orders, this`reservations
      ensures Rows() == DropTables(old(Rows()), gone)
    {
      orders := seq(|orders|, i requires 0 <= i < |orders| reads this =>
                      orders[i].(tableId := Unlink(orders[i].tableId, gone)));
      reservations := seq(|reservations|, i requires 0 <= i < |reservations| reads this =>
                            reservations[i].(tableId := Unlink(reservations[i].tableId, gone)));
      tables := tables - gone;
    }
  }
}
