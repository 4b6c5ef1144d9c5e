/** Reservations: the calls of src/reservations/reservations.service.ts. */
module Reservations {
  import opened Basics
  import opened OrderStatus
  import opened Store
  import Orders

  /** A create request; the two paid kinds must name a table. */
  datatype ReservationDto =
    | InformalDto(tableId: Option<Id>, items: Option<seq<Orders.LineDto>>)
    | DepositDto(wanted: Id, items: Option<seq<Orders.LineDto>>)
    | PreorderDto(wanted: Id, lines: seq<Orders.LineDto>)

  predicate Owns(s: State, id: nat, rest: Rest) {
    id < |s.reservations| && s.reservations[id].rest == rest
  }

  function Append(s: State, r: Reservation): Result {
    Result(s.(reservations := s.reservations + [r]), Done(|s.reservations|))
  }

  function Create(s: State, dto: ReservationDto, rest: Rest): Result {
    if dto.InformalDto? then
      if dto.tableId.Some? || dto.items.Some? then Reject(s, BadRequest)
      else Append(s, Reservation(rest, Informal, Waiting, None, None, 0))
    else if dto.wanted !in s.tables || s.tables[dto.wanted].rest != rest then Reject(s, NotFound)
    else if s.tables[dto.wanted].status != Available then Reject(s, BadRequest)
    else if dto.PreorderDto? then CreateWithPreorder(s, dto.wanted, dto.lines, rest)
    else if dto.items.Some? then Reject(s, BadRequest)
    else Append(s, Reservation(rest, DepositOnly, Waiting, Some(dto.wanted), None, s.config.depositCents))
  }

  /** The pre-order is a take-away order for now; half its total is the deposit. */
  function CreateWithPreorder(s: State, wanted: Id, lines: seq<Orders.LineDto>, rest: Rest): Result {
    var placed := Orders.Create(s, Orders.Takeaway, lines, rest);
    if placed.reply.Failure? then placed else
    var orderId := placed.reply.id;
    var deposit := placed.state.orders[orderId].totalCents / 2;
    Append(placed.state, Reservation(rest, WithPreorder, Waiting, Some(wanted), Some(orderId), deposit))
  }

  /** confirm: a paid reservation commits its table. */
  function Confirm(s: State, id: nat, rest: Rest): Result {
    if !Owns(s, id, rest) then Reject(s, NotFound)
    else if s.reservations[id].status != Waiting then Reject(s, BadRequest)
    else
      var r := s.reservations[id];
      var tables := if r.kind != Informal && r.tableId.Some? then SetTableStatus(s.tables, r.tableId.value, Reserved)
                    else s.tables;
      Result(WithReservation(s, id, r.(status := Committed)).(tables := tables), Done(id))
  }

  /** The order column of a reservation is unique. */
  predicate LinkedElsewhere(reservations: seq<Reservation>, id: nat, orderId: nat) {
    exists j :: 0 <= j < |reservations| && j != id && reservations[j].orderId == Some(orderId)
  }

  /** The deposit flow's own subtotal, which leaves modifier deltas out. */
  function PlainSubtotal(items: seq<Line>): int {
    if items == [] then 0 else
    PlainSubtotal(items[..|items| - 1]) + items[|items| - 1].priceCents * items[|items| - 1].quantity
  }

  function SeatWithPreorder(s: State, id: nat): Result
    requires id < |s.reservations|
  {
    var r := s.reservations[id];
    if r.orderId.None? || r.tableId.None? then Reject(s, BadRequest) else
    var seated := WithReservation(s, id, r.(status := Seated));
    var moved := if r.orderId.value < |s.orders|
                 then WithOrder(seated, r.orderId.value, s.orders[r.orderId.value].(tableId := r.tableId)) else seated;
    Result(moved.(tables := SetTableStatus(s.tables, r.tableId.value, Occupied)), Done(r.orderId.value))
  }

  /** Opens the table's order and links it; the reservation is SEATED before any deposit discount is tried. */
  function SeatAt(s: State, id: nat, tableId: Id, rest: Rest): (r: Result)
    requires id < |s.reservations|
    ensures r.reply.Done? ==> r.reply.id < |r.state.orders|
  {
    var placed := Orders.Create(s, Orders.DineIn(tableId), [], rest);
    if placed.reply.Failure? then placed
    else if LinkedElsewhere(placed.state.reservations, id, placed.reply.id) then Reject(placed.state, Conflict)
    else
      var r := s.reservations[id].(tableId := Some(tableId), orderId := Some(placed.reply.id), status := Seated);
      Result(WithReservation(placed.state, id, r), placed.reply)
  }

  function SeatDepositOnly(s: State, id: nat, rest: Rest): Result
    requires id < |s.reservations|
  {
    var r := s.reservations[id];
    if r.tableId.None? then Reject(s, BadRequest) else
    var seated := SeatAt(s, id, r.tableId.value, rest);
    if seated.reply.Failure? then seated
    else if r.depositCents > 0 && PlainSubtotal(seated.state.orders[seated.reply.id].items) > 0 then
      Orders.ApplyDiscount(seated.state, seated.reply.id, Orders.Fixed(r.depositCents), rest)
    else seated
  }

  function Seat(s: State, id: nat, tableId: Option<Id>, rest: Rest): Result {
    if !Owns(s, id, rest) then Reject(s, NotFound)
    else if s.reservations[id].status != Committed then Reject(s, BadRequest)
    else match s.reservations[id].kind
      case WithPreorder => SeatWithPreorder(s, id)
      case DepositOnly => SeatDepositOnly(s, id, rest)
      case Informal => if tableId.None? then Reject(s, BadRequest) else SeatAt(s, id, tableId.value, rest)
  }

  /** The two ways to end a reservation before it is seated. */
  type Ending = t: ReservationStatus | t == NoShow || t == CalledOff witness NoShow

  /** terminate: a table still held for the reservation is released. */
  function Terminate(s: State, id: nat, next: Ending, rest: Rest): Result {
    if !Owns(s, id, rest) then Reject(s, NotFound)
    else if s.reservations[id].status != Waiting && s.reservations[id].status != Committed then Reject(s, BadRequest)
    else
      var r := s.reservations[id];
      var tables := if r.tableId.Some? && r.tableId.value in s.tables && s.tables[r.tableId.value].status == Reserved
                    then SetTableStatus(s.tables, r.tableId.value, Available) else s.tables;
      Result(WithReservation(s, id, r.(status := next)).(tables := tables), Done(id))
  }
}
