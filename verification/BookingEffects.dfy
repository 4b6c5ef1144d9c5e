/**
 What the calls on reservations write, told by their arguments, the rows before, and the other calls they stand for: a
 pre-order is a take-away order, seating at a table is asking for an order there, a deposit is a fixed discount.
 */
module BookingEffects {
  import opened Basics
  import opened OrderStatus
  import opened Store
  import opened Pos
  import opened FloorEffects
  import Orders
  import Reservations
  import Tenancy

  predicate OwnsBooking(s: State, id: nat, r: Rest) {
    id < |s.reservations| && s.reservations[id].rest == r
  }

  /** A table of the restaurant's gets a status; no other table is touched. */
  function Marked(tables: map<Id, Table>, id: Id, status: TableStatus): map<Id, Table> {
    map k | k in tables :: if k == id then tables[k].(status := status) else tables[k]
  }

  // ---------- Booking ----------

  /** The row a booking starts with. */
  function Booked(s: State, row: Reservation): Result {
    Result(s.(reservations := s.reservations + [row]), Done(|s.reservations|))
  }

  /** An informal booking names neither a table nor dishes, and costs nothing. */
  lemma BooksInformally(s: State, r: Rest, tableId: Option<Id>, items: Option<seq<Orders.LineDto>>)
    ensures Perform(s, OnBooking(r, CreateReservation(Reservations.InformalDto(tableId, items))))
         == if tableId.None? && items.None? then Booked(s, Reservation(r, Informal, Waiting, None, None, 0))
            else Reject(s, BadRequest)
  {
  }

  /** A deposit holds an AVAILABLE table of the restaurant for the configured amount. */
  lemma BooksDeposit(s: State, r: Rest, wanted: Id, items: Option<seq<Orders.LineDto>>)
    ensures Perform(s, OnBooking(r, CreateReservation(Reservations.DepositDto(wanted, items))))
         == if !OwnsTable(s, wanted, r) then Reject(s, NotFound)
            else if s.tables[wanted].status != Available || items.Some? then Reject(s, BadRequest)
            else Booked(s, Reservation(r, DepositOnly, Waiting, Some(wanted), None, s.config.depositCents))
  {
  }

  /** A pre-order places the take-away order of its dishes and asks half its total, rounded down. */
  lemma BooksPreorder(s: State, r: Rest, wanted: Id, lines: seq<Orders.LineDto>)
    ensures var t := Perform(s, OnBooking(r, CreateReservation(Reservations.PreorderDto(wanted, lines))));
            var placed := Perform(s, PlaceOrder(r, Orders.Takeaway, lines));
            if !OwnsTable(s, wanted, r) then t == Reject(s, NotFound)
            else if s.tables[wanted].status != Available then t == Reject(s, BadRequest)
            else if placed.reply.Failure? then t == placed
            else
              && placed.reply == Done(|s.orders|) && |placed.state.orders| == |s.orders| + 1
              && |t.state.reservations| == |s.reservations| + 1
              && var total, row := placed.state.orders[|s.orders|].totalCents, t.state.reservations[|s.reservations|];
              && row == Reservation(r, WithPreorder, Waiting, Some(wanted), Some(|s.orders|), row.depositCents)
              && 2 * row.depositCents <= total < 2 * row.depositCents + 2
              && t == Booked(placed.state, row)
  {
  }

  // ---------- Confirming and ending ----------

  /** Only a waiting reservation is confirmed, and a paid one makes its table RESERVED. */
  lemma Confirms(s: State, r: Rest, id: nat)
    ensures Perform(s, OnBooking(r, ConfirmReservation(id)))
         == if !OwnsBooking(s, id, r) then Reject(s, NotFound)
            else if s.reservations[id].status != Waiting then Reject(s, BadRequest)
            else
              var b := s.reservations[id];
              Result(s.(reservations := s.reservations[id := b.(status := Committed)],
                        tables := if b.kind != Informal && b.tableId.Some?
                                  then Marked(s.tables, b.tableId.value, Reserved) else s.tables),
                     Done(id))
  {
    if OwnsBooking(s, id, r) && s.reservations[id].tableId.Some? {
      var tableId := s.reservations[id].tableId.value;
      assert Marked(s.tables, tableId, Reserved) == SetTableStatus(s.tables, tableId, Reserved);
    }
  }

  /** A reservation not yet seated is ended, and its table is freed if it is RESERVED. */
  lemma Ends(s: State, r: Rest, id: nat, ending: Reservations.Ending)
    ensures Perform(s, OnBooking(r, EndReservation(id, ending)))
         == if !OwnsBooking(s, id, r) then Reject(s, NotFound)
            else if s.reservations[id].status != Waiting && s.reservations[id].status != Committed
            then Reject(s, BadRequest)
            else
              var b := s.reservations[id];
              Result(s.(reservations := s.reservations[id := b.(status := ending)],
                        tables := if b.tableId.Some? && b.tableId.value in s.tables
                                     && s.tables[b.tableId.value].status == Reserved
                                  then Marked(s.tables, b.tableId.value, Available) else s.tables),
                     Done(id))
  {
    if OwnsBooking(s, id, r) && s.reservations[id].tableId.Some? {
      var tableId := s.reservations[id].tableId.value;
      assert Marked(s.tables, tableId, Available) == SetTableStatus(s.tables, tableId, Available);
    }
  }

  // ---------- Seating ----------

  lemma SeatRefused(s: State, r: Rest, id: nat, tableId: Option<Id>)
    ensures var t := Perform(s, OnBooking(r, SeatReservation(id, tableId)));
            && (!OwnsBooking(s, id, r) ==> t == Reject(s, NotFound))
            && (OwnsBooking(s, id, r) && s.reservations[id].status != Committed ==> t == Reject(s, BadRequest))
  {
  }

  /** Seating a pre-order occupies its table and moves its order there. */
  lemma SeatsPreorder(s: State, r: Rest, id: nat, tableId: Option<Id>)
    requires Reachable(s) && OwnsBooking(s, id, r) && s.reservations[id].status == Committed
    requires s.reservations[id].kind == WithPreorder
    ensures var t, b := Perform(s, OnBooking(r, SeatReservation(id, tableId))), s.reservations[id];
            && (b.orderId.Some? ==> b.orderId.value < |s.orders|)
            && if b.orderId.None? || b.tableId.None? then t == Reject(s, BadRequest)
               else
                 var order := b.orderId.value;
                 t == Result(s.(reservations := s.reservations[id := b.(status := Seated)],
                                orders := s.orders[order := s.orders[order].(tableId := b.tableId)],
                                tables := Marked(s.tables, b.tableId.value, Occupied)),
                             Done(order))
  {
    var config, calls :| s == Run(Empty(config), calls);
    Tenancy.AlwaysRefs(config, calls);
    assert Tenancy.ReservationRef(s.tables, s.orders, s.reservations[id]);
    if s.reservations[id].tableId.Some? {
      var at := s.reservations[id].tableId.value;
      assert Marked(s.tables, at, Occupied) == SetTableStatus(s.tables, at, Occupied);
    }
  }

  /** Another reservation has the order. */
  predicate IsLinked(s: State, id: nat, order: nat) {
    exists b :: 0 <= b < |s.reservations| && b != id && s.reservations[b].orderId == Some(order)
  }

  /** The reservation is linked to the order that asking for one at the table answered with. */
  function Linked(s: State, id: nat, tableId: Id, order: nat): State
    requires id < |s.reservations|
  {
    var row := s.reservations[id].(status := Seated, tableId := Some(tableId), orderId := Some(order));
    s.(reservations := s.reservations[id := row])
  }

  /** Seating an informal reservation asks for an order at the table and links it. */
  lemma SeatsInformal(s: State, r: Rest, id: nat, tableId: Option<Id>)
    requires OwnsBooking(s, id, r) && s.reservations[id].status == Committed && s.reservations[id].kind == Informal
    ensures var t := Perform(s, OnBooking(r, SeatReservation(id, tableId)));
            if tableId.None? then t == Reject(s, BadRequest) else
            var asked := Perform(s, PlaceOrder(r, Orders.DineIn(tableId.value), []));
            if asked.reply.Failure? then t == asked
            else if IsLinked(s, id, asked.reply.id) then t == Reject(asked.state, Conflict)
            else id < |asked.state.reservations|
                 && t == Result(Linked(asked.state, id, tableId.value, asked.reply.id), asked.reply)
  {
  }

  /**
   Seating a deposit does the same at its own table, and then applies the deposit as a fixed discount if the order
   has priced dishes.
   */
  lemma SeatsDeposit(s: State, r: Rest, id: nat, tableId: Option<Id>)
    requires OwnsBooking(s, id, r) && s.reservations[id].status == Committed && s.reservations[id].kind == DepositOnly
    ensures var t, b := Perform(s, OnBooking(r, SeatReservation(id, tableId))), s.reservations[id];
            if b.tableId.None? then t == Reject(s, BadRequest) else
            var asked := Perform(s, PlaceOrder(r, Orders.DineIn(b.tableId.value), []));
            if asked.reply.Failure? then t == asked
            else if IsLinked(s, id, asked.reply.id) then t == Reject(asked.state, Conflict)
            else
              var order := asked.reply.id;
              && id < |asked.state.reservations| && order < |asked.state.orders|
              && var linked := Linked(asked.state, id, b.tableId.value, order);
              var price := Sum(linked.orders[order].items, (line: Line) => line.priceCents * line.quantity);
              t == if b.depositCents > 0 && price > 0
                   then Perform(linked, EditOrder(r, order, ApplyDiscount(Orders.Fixed(b.depositCents))))
                   else Result(linked, asked.reply)
  {
    if s.reservations[id].tableId.Some? {
      var asked := Perform(s, PlaceOrder(r, Orders.DineIn(s.reservations[id].tableId.value), []));
      if asked.reply.Done? {
        PriceIsSum(asked.state.orders[asked.reply.id].items);
      }
    }
  }

  lemma {:induction false} PriceIsSum(items: seq<Line>)
    ensures Reservations.PlainSubtotal(items) == Sum(items, (line: Line) => line.priceCents * line.quantity)
  {
    if items != [] {
      PriceIsSum(items[..|items| - 1]);
    }
  }
}
