/**
 The point of sale as one transition system: every public call of the services is one step on the shared
 state, and a run is any list of calls from an empty database, taken one at a time.
 */
module Pos {
  import opened Basics
  import opened OrderStatus
  import opened Store
  import Modifiers
  import Orders
  import Payments
  import CashRegister
  import Reservations
  import Inventory
  import FloorPlan

  datatype MenuCall =
    | PutMenuItem(menuItem: Option<Id>, priceCents: nat, available: bool, groups: seq<Modifiers.Group>)
    | RemoveMenuItem(removed: Id)
    | CreateStock(quantity: Inventory.Quantity, linkedTo: Option<Id>)
    | AdjustStock(stockItem: Id, delta: real)

  datatype FloorCall =
    | CreateTable(tableName: string)
    | UpdateTable(table: Id, newName: Option<string>)
    | UpdateLayout(table: Id, zoneChange: FloorPlan.ZoneChange)
    | RemoveTable(table: Id)
    | CreateZone(zoneName: string)
    | UpdateZone(zone: Id, newZoneName: Option<string>, newCode: Option<FloorPlan.ZoneCode>)
    | RemoveZone(zone: Id)

  datatype EditCall =
    | AddItem(line: Orders.LineDto)
    | UpdateItemQuantity(item: Id, newQuantity: Option<Orders.Positive>)
    | RemoveItem(item: Id)
    | ConfirmOrder
    | UpdateStatus(next: Status)
    | ApplyDiscount(discount: Orders.Discount)

  datatype MoneyCall =
    | CreateIntent(order: nat, intent: nat)
    | Checkout(checkout: Payments.CheckoutDto)
    | OpenSession(openingFloatCents: nat)
    | CloseSession(countedCents: nat)

  datatype BookingCall =
    | CreateReservation(dto: Reservations.ReservationDto)
    | ConfirmReservation(reservation: nat)
    | SeatReservation(reservation: nat, seatAt: Option<Id>)
    | EndReservation(reservation: nat, ending: Reservations.Ending)

  /** A public call: one made for a restaurant, or an event of the payment gateway. */
  datatype Call =
    | OnMenu(rest: Rest, menuCall: MenuCall)
    | OnFloor(rest: Rest, floorCall: FloorCall)
    | PlaceOrder(rest: Rest, kind: Orders.OrderKind, lines: seq<Orders.LineDto>)
    | EditOrder(rest: Rest, order: nat, edit: EditCall)
    | OnMoney(rest: Rest, moneyCall: MoneyCall)
    | OnBooking(rest: Rest, bookingCall: BookingCall)
    | Webhook(event: Payments.Event)

  function PerformMenu(s: State, c: MenuCall, r: Rest): Result {
    match c
    case PutMenuItem(id, price, available, groups) => FloorPlan.PutMenuItem(s, id, price, available, groups, r)
    case RemoveMenuItem(id) => FloorPlan.RemoveMenuItem(s, id, r)
    case CreateStock(quantity, linkedTo) => Inventory.CreateItem(s, quantity, linkedTo, r)
    case AdjustStock(id, delta) => Inventory.Adjust(s, id, delta, r)
  }

  function PerformFloor(s: State, c: FloorCall, r: Rest): Result {
    match c
    case CreateTable(name) => FloorPlan.CreateTable(s, name, r)
    case UpdateTable(id, name) => FloorPlan.UpdateTable(s, id, name, r)
    case UpdateLayout(id, change) => FloorPlan.UpdateLayout(s, id, change, r)
    case RemoveTable(id) => FloorPlan.RemoveTable(s, id, r)
    case CreateZone(name) => FloorPlan.CreateZone(s, name, r)
    case UpdateZone(id, name, code) => FloorPlan.UpdateZone(s, id, name, code, r)
    case RemoveZone(id) => FloorPlan.RemoveZone(s, id, r)
  }

  function PerformEdit(s: State, order: nat, c: EditCall, r: Rest): Result {
    match c
    case AddItem(line) => Orders.AddItem(s, order, line, r)
    case UpdateItemQuantity(item, quantity) => Orders.UpdateItemQuantity(s, order, item, quantity, r)
    case RemoveItem(item) => Orders.RemoveItem(s, order, item, r)
    case ConfirmOrder => Orders.ConfirmOrder(s, order, r)
    case UpdateStatus(next) => Orders.UpdateStatus(s, order, next, r)
    case ApplyDiscount(discount) => Orders.ApplyDiscount(s, order, discount, r)
  }

  function PerformMoney(s: State, c: MoneyCall, r: Rest): Result {
    match c
    case CreateIntent(order, intent) => Payments.CreateIntent(s, order, intent, r)
    case Checkout(dto) => Payments.Checkout(s, dto, r)
    case OpenSession(openingFloat) => CashRegister.OpenSession(s, openingFloat, r)
    case CloseSession(counted) => CashRegister.CloseSession(s, counted, r)
  }

  function PerformBooking(s: State, c: BookingCall, r: Rest): Result {
    match c
    case CreateReservation(dto) => Reservations.Create(s, dto, r)
    case ConfirmReservation(id) => Reservations.Confirm(s, id, r)
    case SeatReservation(id, table) => Reservations.Seat(s, id, table, r)
    case EndReservation(id, ending) => Reservations.Terminate(s, id, ending, r)
  }

  /** The answer of a call that reports no row. */
  const ACKNOWLEDGED := Done(0)

  function Perform(s: State, c: Call): Result {
    match c
    case OnMenu(r, menu) => PerformMenu(s, menu, r)
    case OnFloor(r, floor) => PerformFloor(s, floor, r)
    case PlaceOrder(r, kind, lines) => Orders.Create(s, kind, lines, r)
    case EditOrder(r, order, edit) => PerformEdit(s, order, edit, r)
    case OnMoney(r, money) => PerformMoney(s, money, r)
    case OnBooking(r, booking) => PerformBooking(s, booking, r)
    case Webhook(event) => Result(Payments.Webhook(s, event), ACKNOWLEDGED)
  }

  /** The state after one call. */
  function Step(s: State, c: Call): State {
    Perform(s, c).state
  }

  /** The state after a list of calls. */
  function Run(s: State, calls: seq<Call>): State {
    if calls == [] then s else Step(Run(s, calls[..|calls| - 1]), calls[|calls| - 1])
  }

  /** The states of every run from an empty database. */
  ghost predicate Reachable(s: State) {
    exists config, calls :: s == Run(Empty(config), calls)
  }

  /** Reachable states stay reachable. */
  lemma StepReachable(s: State, c: Call)
    requires Reachable(s)
    ensures Reachable(Step(s, c))
  {
    var config, calls :| s == Run(Empty(config), calls);
    assert (calls + [c])[..|calls|] == calls;
    assert Step(s, c) == Run(Empty(config), calls + [c]);
  }
}
