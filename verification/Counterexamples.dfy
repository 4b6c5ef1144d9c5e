/**
 Runs of calls that reach the states in which the services do less than one might expect. Every list of calls
 here starts from an empty database.
 */
module Counterexamples {
  import opened Basics
  import opened OrderStatus
  import opened Store
  import opened Pos
  import opened Names
  import Decimal
  import ZoneNaming
  import Modifiers
  import Orders
  import OrderLife
  import Payments
  import PaymentSafety
  import Reservations
  import FloorPlan
  import Tenancy
  import Commitments
  import OpenTickets

  /** The state after a list of calls on an empty database. */
  function After(config: Config, calls: seq<Call>): State {
    Run(Empty(config), calls)
  }

  lemma Then(config: Config, calls: seq<Call>, c: Call)
    ensures After(config, calls + [c]) == Step(After(config, calls), c)
  {
    assert (calls + [c])[..|calls|] == calls;
  }

  // ---------- Orders of one plain line ----------

  function PlainLines(item: Id): seq<Orders.LineDto> {
    [Orders.LineDto(item, 1, [])]
  }

  function PlainLine(id: Id, item: Id, cents: nat): Line {
    Line(id, item, cents, 1, [], 0, cents)
  }

  lemma PlainLineIsPriced(menu: map<Id, MenuItem>, r: Rest, item: Id, firstId: Id)
    requires Orders.Sellable(menu, r, item) && menu[item].groups == []
    ensures Orders.PriceAll(menu, r, PlainLines(item), firstId)
         == Some([PlainLine(firstId, item, menu[item].priceCents)])
  {
    assert Modifiers.Resolve([], []) == Modifiers.Accepted(Modifiers.Resolved([], 0));
    assert PlainLines(item)[..0] == [];
    assert [] + [PlainLine(firstId, item, menu[item].priceCents)] == [PlainLine(firstId, item, menu[item].priceCents)];
  }

  /** Placing such an order where none is reopened. */
  lemma PlainOrderIsPlaced(s: State, kind: Orders.OrderKind, item: Id, r: Rest)
    requires Orders.Sellable(s.menu, r, item) && s.menu[item].groups == []
    requires kind.DineIn? ==>
               kind.tableId in s.tables && s.tables[kind.tableId].rest == r && s.tables[kind.tableId].status != Occupied
    ensures var tableId := if kind.DineIn? then Some(kind.tableId) else None;
            var line := PlainLine(s.nextId, item, s.menu[item].priceCents);
            Orders.Create(s, kind, PlainLines(item), r)
              == Orders.Placed(s, Order(r, Draft, tableId, [line], 0, 0, 0, 0), 1)
  {
    PlainLineIsPriced(s.menu, r, item, s.nextId);
  }

  lemma PlainTotal(config: Config, o: Order)
    requires |o.items| == 1 && o.items[0].lineTotalCents >= 0 && o.discountCents == 0
    ensures Orders.Recalculated(config, o).totalCents >= o.items[0].lineTotalCents
    ensures o.items[0].lineTotalCents == 0 ==> Orders.Recalculated(config, o).totalCents == 0
  {
    assert o.items[..0] == [] && Orders.Subtotal(o.items) == o.items[0].lineTotalCents;
    OrderLife.TaxNotNegative(config.taxRate, Orders.Subtotal(o.items));
  }

  function PlainOrder(config: Config, tableId: Option<Id>, line: Id): Order {
    Orders.Recalculated(config, Order(1, Draft, tableId, [PlainLine(line, 0, 500)], 0, 0, 0, 0))
  }

  // ---------- A menu item and a table ----------

  const PUT_ITEM := OnMenu(1, PutMenuItem(None, 500, true, []))
  const ITEM := MenuItem(1, 500, true, [])

  function ItemState(config: Config): State {
    Empty(config).(menu := map[0 := ITEM], nextId := 1)
  }

  lemma ItemPut(config: Config)
    ensures After(config, [PUT_ITEM]) == ItemState(config)
  {
    assert [] + [PUT_ITEM] == [PUT_ITEM];
    Then(config, [], PUT_ITEM);
  }

  const BASE: seq<Call> := [PUT_ITEM] + [OnFloor(1, CreateTable("A"))]

  function TableA(status: TableStatus): map<Id, Table> {
    map[1 := Table(1, "A", status, None)]
  }

  function BaseState(config: Config): State {
    ItemState(config).(tables := TableA(Available), nextId := 2)
  }

  lemma Base(config: Config)
    ensures After(config, BASE) == BaseState(config)
  {
    ItemPut(config);
    Then(config, [PUT_ITEM], OnFloor(1, CreateTable("A")));
  }

  // ---------- Confirming on a busy table ----------

  const BOOK := OnBooking(1, CreateReservation(Reservations.DepositDto(1, None)))
  const OPEN := PlaceOrder(1, Orders.DineIn(1), PlainLines(0))
  const CONFIRM := OnBooking(1, ConfirmReservation(0))

  const BOOKED := BASE + [BOOK]
  const BOOKED_THEN_OPENED := BOOKED + [OPEN]

  function Deposit(config: Config, status: ReservationStatus): Reservation {
    Reservation(1, DepositOnly, status, Some(1), None, config.depositCents)
  }

  function BookedState(config: Config): State {
    BaseState(config).(reservations := [Deposit(config, Waiting)])
  }

  lemma Booked(config: Config)
    ensures After(config, BOOKED) == BookedState(config)
  {
    Base(config);
    Then(config, BASE, BOOK);
  }

  /** The order opened at the table of a deposit. */
  function BusyState(config: Config, booking: ReservationStatus, table: TableStatus): State {
    BaseState(config).(
      orders := [PlainOrder(config, Some(1), 2)], reservations := [Deposit(config, booking)], tables := TableA(table),
      nextId := 3)
  }

  lemma BookedThenOpened(config: Config)
    ensures After(config, BOOKED_THEN_OPENED) == BusyState(config, Waiting, Occupied)
  {
    Booked(config);
    Then(config, BOOKED, OPEN);
    PlainOrderIsPlaced(BookedState(config), Orders.DineIn(1), 0, 1);
  }

  lemma BusyConfirmed(config: Config, calls: seq<Call>)
    requires After(config, calls) == BusyState(config, Waiting, Occupied)
    ensures After(config, calls + [CONFIRM]) == BusyState(config, Committed, Reserved)
  {
    Then(config, calls, CONFIRM);
  }

  /** An order opened at a table while a deposit waits for it, then the deposit confirmed. */
  lemma ConfirmCanClash(config: Config)
    ensures !OpenTickets.OneTicket(After(config, BOOKED_THEN_OPENED + [CONFIRM]))
  {
    BookedThenOpened(config);
    BusyConfirmed(config, BOOKED_THEN_OPENED);
    assert OpenTickets.OpenAt(BusyState(config, Committed, Reserved).orders[0], 1);
  }

  // ---------- Pre-orders ----------

  const PREORDER := OnBooking(1, CreateReservation(Reservations.PreorderDto(1, PlainLines(0))))
  const SEAT := OnBooking(1, SeatReservation(0, None))

  const PREORDERED := BASE + [PREORDER]
  const CONFIRMED := PREORDERED + [CONFIRM]
  const CONFIRMED_THEN_OPENED := CONFIRMED + [OPEN]

  function Preorder(config: Config, status: ReservationStatus): Reservation {
    Reservation(1, WithPreorder, status, Some(1), Some(0), PlainOrder(config, None, 2).totalCents / 2)
  }

  function PreorderedState(config: Config): State {
    BaseState(config).(
      orders := [PlainOrder(config, None, 2)], reservations := [Preorder(config, Waiting)], nextId := 3)
  }

  lemma PreorderBooked(config: Config)
    ensures Reservations.Create(BaseState(config), Reservations.PreorderDto(1, PlainLines(0)), 1).state
         == PreorderedState(config)
  {
    PlainOrderIsPlaced(BaseState(config), Orders.Takeaway, 0, 1);
  }

  lemma Preordered(config: Config)
    ensures After(config, PREORDERED) == PreorderedState(config)
  {
    Base(config);
    Then(config, BASE, PREORDER);
    PreorderBooked(config);
  }

  function ConfirmedState(config: Config): State {
    PreorderedState(config).(reservations := [Preorder(config, Committed)], tables := TableA(Reserved))
  }

  lemma PreorderConfirmed(config: Config)
    ensures After(config, CONFIRMED) == ConfirmedState(config)
  {
    Preordered(config);
    Then(config, PREORDERED, CONFIRM);
  }

  /** The pre-order, and a younger order at the table. */
  function TwoOrders(config: Config, status: Status): seq<Order> {
    [PlainOrder(config, None, 2), PlainOrder(config, Some(1), 3).(status := status)]
  }

  /** The order opened at the table, while the pre-order's reservation has some status. */
  function OpenedState(config: Config, booking: ReservationStatus): State {
    PreorderedState(config).(orders := TwoOrders(config, Draft), reservations := [Preorder(config, booking)],
                             tables := TableA(Occupied), nextId := 4)
  }

  lemma ConfirmedThenOpened(config: Config)
    ensures After(config, CONFIRMED_THEN_OPENED) == OpenedState(config, Committed)
  {
    PreorderConfirmed(config);
    Then(config, CONFIRMED, OPEN);
    PlainOrderIsPlaced(ConfirmedState(config), Orders.DineIn(1), 0, 1);
  }

  lemma SeatedOverOpened(config: Config, calls: seq<Call>)
    requires After(config, calls) == OpenedState(config, Committed)
    ensures After(config, calls + [SEAT]).orders
         == [PlainOrder(config, None, 2).(tableId := Some(1)), PlainOrder(config, Some(1), 3)]
  {
    Then(config, calls, SEAT);
  }

  /** Staff open an order at a table reserved for a pre-order, then seat the pre-order: two open orders. */
  lemma SeatCanClash(config: Config)
    ensures !OpenTickets.OneTicket(After(config, CONFIRMED_THEN_OPENED + [SEAT]))
  {
    ConfirmedThenOpened(config);
    SeatedOverOpened(config, CONFIRMED_THEN_OPENED);
    var s := After(config, CONFIRMED_THEN_OPENED + [SEAT]);
    assert OpenTickets.ShareTable(s.orders[0], s.orders[1]);
  }

  // ---------- Reopening a table over a paid order ----------

  const SEND := EditOrder(1, 1, ConfirmOrder)
  const OPEN_REGISTER := OnMoney(1, OpenSession(0))
  const PAY := OnMoney(1, Checkout(Payments.CheckoutDto(1, Card, 0)))

  const OPENED := PREORDERED + [OPEN]
  const SENT := OPENED + [SEND]
  const REGISTER_OPEN := SENT + [OPEN_REGISTER]
  const PAID := REGISTER_OPEN + [PAY]
  const HELD := PAID + [CONFIRM]
  const CROSSED := HELD + [SEAT]

  lemma Opened(config: Config)
    ensures After(config, OPENED) == OpenedState(config, Waiting)
  {
    Preordered(config);
    Then(config, PREORDERED, OPEN);
    PlainOrderIsPlaced(PreorderedState(config), Orders.DineIn(1), 0, 1);
  }

  function SentState(config: Config, booking: ReservationStatus): State {
    OpenedState(config, booking).(orders := TwoOrders(config, Pending))
  }

  lemma Sent(config: Config, calls: seq<Call>, booking: ReservationStatus)
    requires After(config, calls) == OpenedState(config, booking)
    ensures After(config, calls + [SEND]) == SentState(config, booking)
  {
    Then(config, calls, SEND);
    assert TwoOrders(config, Draft)[1 := TwoOrders(config, Pending)[1]] == TwoOrders(config, Pending);
  }

  function RegisterState(config: Config, booking: ReservationStatus): State {
    SentState(config, booking).(sessions := [Session(1, 0, None)])
  }

  lemma RegisterOpen(config: Config, calls: seq<Call>, booking: ReservationStatus)
    requires After(config, calls) == SentState(config, booking)
    ensures After(config, calls + [OPEN_REGISTER]) == RegisterState(config, booking)
  {
    Then(config, calls, OPEN_REGISTER);
  }

  function PaidState(config: Config, booking: ReservationStatus): State {
    var payment := Payments.PosPayment(PlainOrder(config, Some(1), 3), Payments.CheckoutDto(1, Card, 0), 0, 1);
    RegisterState(config, booking).(
      orders := TwoOrders(config, Confirmed), tables := TableA(Available), payments := [payment])
  }

  lemma CheckedOut(config: Config, booking: ReservationStatus)
    ensures Payments.Checkout(RegisterState(config, booking), Payments.CheckoutDto(1, Card, 0), 1).state
         == PaidState(config, booking)
  {
    Tenancy.DecrementKeys(map[], 1, TwoOrders(config, Pending)[1].items);
    assert TwoOrders(config, Pending)[1 := TwoOrders(config, Confirmed)[1]] == TwoOrders(config, Confirmed);
  }

  lemma OrderPaid(config: Config, calls: seq<Call>, booking: ReservationStatus)
    requires After(config, calls) == RegisterState(config, booking)
    ensures After(config, calls + [PAY]) == PaidState(config, booking)
  {
    Then(config, calls, PAY);
    CheckedOut(config, booking);
  }

  /** From the open order to its payment. */
  lemma Paid(config: Config, calls: seq<Call>, booking: ReservationStatus)
    requires After(config, calls) == OpenedState(config, booking)
    ensures After(config, calls + [SEND] + [OPEN_REGISTER] + [PAY]) == PaidState(config, booking)
  {
    Sent(config, calls, booking);
    RegisterOpen(config, calls + [SEND], booking);
    OrderPaid(config, calls + [SEND] + [OPEN_REGISTER], booking);
  }

  function HeldState(config: Config): State {
    PaidState(config, Waiting).(reservations := [Preorder(config, Committed)], tables := TableA(Reserved))
  }

  lemma PaidBeforeConfirming(config: Config)
    ensures After(config, PAID) == PaidState(config, Waiting)
  {
    Opened(config);
    Paid(config, OPENED, Waiting);
  }

  lemma PreorderHeld(config: Config)
    ensures After(config, HELD) == HeldState(config)
  {
    PaidBeforeConfirming(config);
    Then(config, PAID, CONFIRM);
  }

  function CrossedState(config: Config): State {
    var orders := [PlainOrder(config, None, 2).(tableId := Some(1)), TwoOrders(config, Confirmed)[1]];
    HeldState(config).(
      orders := orders, reservations := [Preorder(config, Seated)], tables := TableA(Occupied))
  }

  lemma PreorderSeated(config: Config)
    ensures After(config, CROSSED) == CrossedState(config)
  {
    PreorderHeld(config);
    Then(config, HELD, SEAT);
  }

  lemma PoliteThen(config: Config, calls: seq<Call>, c: Call)
    requires OpenTickets.Polite(Empty(config), calls) && !OpenTickets.Clashes(After(config, calls), c)
    ensures OpenTickets.Polite(Empty(config), calls + [c])
  {
    assert (calls + [c])[..|calls|] == calls;
  }

  lemma PaidPolitely(config: Config)
    ensures OpenTickets.Polite(Empty(config), PAID)
  {
    assert [] + [PUT_ITEM] == [PUT_ITEM];
    PoliteThen(config, [], PUT_ITEM);
    PoliteThen(config, [PUT_ITEM], OnFloor(1, CreateTable("A")));
    PoliteThen(config, BASE, PREORDER);
    PoliteThen(config, PREORDERED, OPEN);
    PoliteThen(config, OPENED, SEND);
    PoliteThen(config, SENT, OPEN_REGISTER);
    PoliteThen(config, REGISTER_OPEN, PAY);
  }

  lemma SeatedPolitely(config: Config)
    ensures OpenTickets.Polite(Empty(config), CROSSED)
  {
    PaidPolitely(config);
    PaidBeforeConfirming(config);
    PoliteThen(config, PAID, CONFIRM);
    PreorderHeld(config);
    PoliteThen(config, HELD, SEAT);
  }

  /**
   The ordinary life of a pre-order, without a clash: a party eats and pays at the table before the pre-order is
   confirmed and seated there. Order 0 is then open at the table, but asking for an order at it answers with paid
   order 1.
   */
  lemma ReopenCanAnswerPaid(config: Config, items: seq<Orders.LineDto>)
    ensures OpenTickets.Polite(Empty(config), CROSSED)
    ensures var s := After(config, CROSSED);
            && |s.orders| == 2 && s.orders[0].tableId == Some(1) == s.orders[1].tableId
            && s.orders[0].status == Draft && s.orders[1].status == Confirmed
            && Orders.Create(s, Orders.DineIn(1), items, 1) == Result(s, Done(1))
  {
    SeatedPolitely(config);
    PreorderSeated(config);
  }

  // ---------- Another restaurant's rows ----------

  const LINKED: seq<Call> := [PUT_ITEM] + [OnMenu(2, CreateStock(0.0, Some(0)))]
  const REMOVE := OnMenu(1, RemoveMenuItem(0))

  /** A stock item linked to another restaurant's menu item loses its link when that item is removed. */
  lemma RemovalCanLeak(config: Config)
    ensures !Tenancy.SameRows(After(config, LINKED), After(config, LINKED + [REMOVE]), 2)
  {
    ItemPut(config);
    Then(config, [PUT_ITEM], OnMenu(2, CreateStock(0.0, Some(0))));
    Then(config, LINKED, REMOVE);
    var s := After(config, LINKED);
    assert 1 in s.stock && s.stock[1].rest == 2 && s.stock[1].menuItemId == Some(0);
    Tenancy.RemoveMenuIsolated(s, 0, 1, 2);
  }

  const TAKEN_AWAY: seq<Call> := [PUT_ITEM] + [PlaceOrder(1, Orders.Takeaway, PlainLines(0))]
  const TO_PAY := TAKEN_AWAY + [EditOrder(1, 0, ConfirmOrder)]
  const INTENDED := TO_PAY + [OnMoney(1, CreateIntent(0, 7))]

  function TakenAwayState(config: Config): State {
    ItemState(config).(orders := [PlainOrder(config, None, 1)], nextId := 2)
  }

  lemma TakenAway(config: Config)
    ensures After(config, TAKEN_AWAY) == TakenAwayState(config)
  {
    ItemPut(config);
    Then(config, [PUT_ITEM], PlaceOrder(1, Orders.Takeaway, PlainLines(0)));
    PlainOrderIsPlaced(ItemState(config), Orders.Takeaway, 0, 1);
  }

  function ToPayState(config: Config): State {
    TakenAwayState(config).(orders := [PlainOrder(config, None, 1).(status := Pending)])
  }

  lemma ToPay(config: Config)
    ensures After(config, TO_PAY) == ToPayState(config)
  {
    TakenAway(config);
    Then(config, TAKEN_AWAY, EditOrder(1, 0, ConfirmOrder));
  }

  function Intent(config: Config): Payment {
    Payment(1, 0, Stripe, Some(7), PlainOrder(config, None, 1).totalCents, 0, 0, RequiresPayment, None, None)
  }

  lemma Intended(config: Config)
    ensures After(config, INTENDED) == ToPayState(config).(payments := [Intent(config)])
  {
    ToPay(config);
    Then(config, TO_PAY, OnMoney(1, CreateIntent(0, 7)));
  }

  function StatusOf(s: State, payment: nat): Option<PaymentStatus> {
    if payment < |s.payments| then Some(s.payments[payment].status) else None
  }

  const FIRST := Payments.Event(1, Payments.IntentSucceeded, Some(7))
  const SECOND := Payments.Event(2, Payments.IntentFailed, Some(7))

  const FAILED := INTENDED + [Webhook(FIRST)] + [Webhook(SECOND)]
  const REDELIVERED := FAILED + [Webhook(FIRST)]

  lemma Delivered(config: Config)
    ensures var both := Payments.Webhook(Payments.Webhook(After(config, INTENDED), FIRST), SECOND);
            After(config, FAILED) == both && After(config, REDELIVERED) == Payments.Webhook(both, FIRST)
  {
    Then(config, INTENDED, Webhook(FIRST));
    Then(config, INTENDED + [Webhook(FIRST)], Webhook(SECOND));
    Then(config, FAILED, Webhook(FIRST));
  }

  /** The first event of a payment, delivered again after a second one, is processed again. */
  lemma LateRedeliveryHappens(config: Config)
    ensures StatusOf(After(config, FAILED), 0) == Some(Failed)
    ensures StatusOf(After(config, REDELIVERED), 0) == Some(Succeeded)
  {
    Intended(config);
    Delivered(config);
    PaymentSafety.LateRedeliveryIsProcessed(After(config, INTENDED), 0, FIRST, SECOND);
  }

  const FREE_ITEM := INTENDED + [OnMenu(2, PutMenuItem(None, 0, true, []))]
  const FREE_ORDER := FREE_ITEM + [PlaceOrder(2, Orders.Takeaway, PlainLines(2))]
  const FREE_TO_PAY := FREE_ORDER + [EditOrder(2, 1, ConfirmOrder)]
  const REUSE := OnMoney(2, CreateIntent(1, 7))

  function FreeItemState(config: Config): State {
    ToPayState(config).(
      payments := [Intent(config)], menu := map[0 := ITEM, 2 := MenuItem(2, 0, true, [])], nextId := 3)
  }

  lemma FreeItem(config: Config)
    ensures After(config, FREE_ITEM) == FreeItemState(config)
  {
    Intended(config);
    Then(config, INTENDED, OnMenu(2, PutMenuItem(None, 0, true, [])));
  }

  function FreeOrder(config: Config): Order {
    Orders.Recalculated(config, Order(2, Draft, None, [PlainLine(3, 2, 0)], 0, 0, 0, 0))
  }

  function FreeOrderedState(config: Config): State {
    FreeItemState(config).(orders := ToPayState(config).orders + [FreeOrder(config)], nextId := 4)
  }

  lemma FreeOrdered(config: Config)
    ensures After(config, FREE_ORDER) == FreeOrderedState(config)
  {
    FreeItem(config);
    Then(config, FREE_ITEM, PlaceOrder(2, Orders.Takeaway, PlainLines(2)));
    PlainOrderIsPlaced(FreeItemState(config), Orders.Takeaway, 2, 2);
  }

  function FreeToPayState(config: Config): State {
    FreeItemState(config).(
      orders := ToPayState(config).orders + [FreeOrder(config).(status := Pending)], nextId := 4)
  }

  lemma FreeConfirmed(config: Config, calls: seq<Call>)
    requires After(config, calls) == FreeOrderedState(config)
    ensures After(config, calls + [EditOrder(2, 1, ConfirmOrder)]) == FreeToPayState(config)
  {
    Then(config, calls, EditOrder(2, 1, ConfirmOrder));
    var paid := ToPayState(config).orders;
    assert (paid + [FreeOrder(config)])[1 := FreeOrder(config).(status := Pending)]
        == paid + [FreeOrder(config).(status := Pending)];
  }

  lemma FreeToPay(config: Config)
    ensures After(config, FREE_TO_PAY) == FreeToPayState(config)
  {
    FreeOrdered(config);
    FreeConfirmed(config, FREE_ORDER);
  }

  /** A gateway reference handed out to a second restaurant overwrites the amount of the first one's payment. */
  lemma IntentCanLeak(config: Config)
    ensures !Tenancy.SameRows(After(config, FREE_TO_PAY), After(config, FREE_TO_PAY + [REUSE]), 1)
  {
    FreeToPay(config);
    Then(config, FREE_TO_PAY, REUSE);
    PlainTotal(config, Order(1, Draft, None, [PlainLine(1, 0, 500)], 0, 0, 0, 0));
    PlainTotal(config, Order(2, Draft, None, [PlainLine(3, 2, 0)], 0, 0, 0, 0));
    Tenancy.IntentIsolated(After(config, FREE_TO_PAY), 1, 7, 2, 1);
  }

  // ---------- A percentage discount refused ----------

  const REBATE := Modifiers.Group(8, "Rebate", false, 0, 1, [Modifiers.Modifier(9, "Rebate", -1000, true)])
  const REBATED: seq<Call> :=
    [OnMenu(1, PutMenuItem(None, 500, true, [REBATE]))] + [PlaceOrder(1, Orders.Takeaway, [Orders.LineDto(0, 1, [9])])]

  /** The only modifier of an optional group may be chosen alone. */
  lemma OneChoice(g: Modifiers.Group, m: Modifiers.Modifier)
    requires g.modifiers == [m] && m.available && !g.required && g.minSelect <= 1 <= g.maxSelect
    ensures var chosen := [Modifiers.Selection(m.id, g.id, g.name, m.name, m.priceDeltaCents)];
            Modifiers.Resolve([g], [m.id]) == Modifiers.Accepted(Modifiers.Resolved(chosen, m.priceDeltaCents))
  {
    var offers := [(m, g)];
    assert Modifiers.Pair(g.modifiers, g) == offers;
    assert [g][1..] == [] && Modifiers.Offers([g][1..]) == [] && offers + [] == offers;
    assert Modifiers.Offers([g]) == offers;
    assert offers[..0] == [] && Modifiers.ById(offers[..0]) == map[];
    assert Modifiers.ById(offers) == map[m.id := (m, g)];
    assert [m.id][1..] == [] && [m.id][..0] == [];
    var table := Modifiers.ById(offers);
    assert Modifiers.FirstBadId(table, [m.id][1..]) == None && Modifiers.FirstBadId(table, [m.id]) == None;
    assert Modifiers.CountIn(table, [m.id][..0], g.id) == 0 && Modifiers.CountIn(table, [m.id], g.id) == 1;
    assert Modifiers.CountAllowed(g, 1);
    assert Modifiers.FirstBadGroup([g][1..], table, [m.id]) == None;
    assert Modifiers.FirstBadGroup([g], table, [m.id]) == None;
    var chosen := [Modifiers.Selection(m.id, g.id, g.name, m.name, m.priceDeltaCents)];
    assert g.modifiers[1..] == [] && Modifiers.Choose(g.modifiers[1..], g, [m.id]) == [] && chosen + [] == chosen;
    assert Modifiers.Choose(g.modifiers, g, [m.id]) == chosen;
    assert Modifiers.ChooseAll([g][1..], [m.id]) == [];
    assert Modifiers.ChooseAll([g], [m.id]) == chosen;
    assert chosen[..0] == [] && Modifiers.SumDeltas(chosen[..0]) == 0;
    assert Modifiers.SumDeltas(chosen) == m.priceDeltaCents;
  }

  lemma RebatedLineIsPriced(menu: map<Id, MenuItem>)
    requires Orders.Sellable(menu, 1, 0) && menu[0].groups == [REBATE] && menu[0].priceCents == 500
    ensures var lines := Orders.PriceAll(menu, 1, [Orders.LineDto(0, 1, [9])], 1);
            lines.Some? && Orders.Subtotal(lines.value) == -500
  {
    OneChoice(REBATE, REBATE.modifiers[0]);
    var dtos := [Orders.LineDto(0, 1, [9])];
    assert dtos[..0] == [];
    var line := Orders.PriceLine(menu[0], dtos[0], 1).value;
    assert [] + [line] == [line] && [line][..0] == [];
  }

  /** A rebate larger than the price makes the subtotal negative, and then no discount at all is refused as too big. */
  lemma PercentageCanBeRefused(config: Config)
    ensures var s := After(config, REBATED);
            && |s.orders| == 1 && s.orders[0].status == Draft
            && Orders.ApplyDiscount(s, 0, Orders.Percentage(0), 1).reply == Failure(BadRequest)
  {
    var put := OnMenu(1, PutMenuItem(None, 500, true, [REBATE]));
    assert [] + [put] == [put];
    Then(config, [], put);
    Then(config, [put], PlaceOrder(1, Orders.Takeaway, [Orders.LineDto(0, 1, [9])]));
    RebatedLineIsPriced(After(config, [put]).menu);
  }

  // ---------- A confirmed reservation without its table ----------

  const CONFIRM_OTHER := OnBooking(1, ConfirmReservation(1))
  const CANCEL := OnBooking(1, EndReservation(0, CalledOff))

  const TWICE_BOOKED := BOOKED + [BOOK]
  const ONCE_HELD := TWICE_BOOKED + [CONFIRM]
  const TWICE_HELD := ONCE_HELD + [CONFIRM_OTHER]

  function TwoDeposits(config: Config, first: ReservationStatus, second: ReservationStatus): seq<Reservation> {
    [Deposit(config, first), Deposit(config, second)]
  }

  lemma TwiceBooked(config: Config)
    ensures After(config, TWICE_BOOKED) == BaseState(config).(reservations := TwoDeposits(config, Waiting, Waiting))
  {
    Booked(config);
    Then(config, BOOKED, BOOK);
  }

  lemma OnceHeld(config: Config)
    ensures After(config, ONCE_HELD)
         == BaseState(config).(reservations := TwoDeposits(config, Committed, Waiting), tables := TableA(Reserved))
  {
    TwiceBooked(config);
    Then(config, TWICE_BOOKED, CONFIRM);
  }

  lemma TwiceHeld(config: Config)
    ensures After(config, TWICE_HELD)
         == BaseState(config).(reservations := TwoDeposits(config, Committed, Committed), tables := TableA(Reserved))
  {
    OnceHeld(config);
    Then(config, ONCE_HELD, CONFIRM_OTHER);
  }

  /** Two deposits on one table, both confirmed: cancelling one frees the table of the other. */
  lemma EndingCanFree(config: Config)
    ensures !Commitments.CommitmentsKept(After(config, TWICE_HELD + [CANCEL]))
  {
    TwiceHeld(config);
    Then(config, TWICE_HELD, CANCEL);
    var s := After(config, TWICE_HELD + [CANCEL]);
    assert s.reservations == TwoDeposits(config, CalledOff, Committed) && s.tables == TableA(Available);
    assert Commitments.IsCommitted(s.reservations[1]);
  }

  /** One confirmed pre-order, and a walk-in party that opens an order at its table, eats and pays. */
  lemma CheckoutCanFree(config: Config)
    ensures !Commitments.CommitmentsKept(After(config, CONFIRMED_THEN_OPENED + [SEND] + [OPEN_REGISTER] + [PAY]))
  {
    ConfirmedThenOpened(config);
    Paid(config, CONFIRMED_THEN_OPENED, Committed);
    var s := PaidState(config, Committed);
    assert Commitments.IsCommitted(s.reservations[0]) && s.tables == TableA(Available);
  }

  // ---------- A failed call that changes rows ----------

  const DEPOSIT_HELD := BOOKED + [CONFIRM]
  const DEPOSIT_OPENED := DEPOSIT_HELD + [OPEN]

  function DepositHeldState(config: Config): State {
    BookedState(config).(reservations := [Deposit(config, Committed)], tables := TableA(Reserved))
  }

  lemma DepositHeld(config: Config)
    ensures After(config, DEPOSIT_HELD) == DepositHeldState(config)
  {
    Booked(config);
    Then(config, BOOKED, CONFIRM);
  }

  lemma DepositOpened(config: Config)
    ensures After(config, DEPOSIT_OPENED) == BusyState(config, Committed, Occupied)
  {
    DepositHeld(config);
    Then(config, DEPOSIT_HELD, OPEN);
    PlainOrderIsPlaced(DepositHeldState(config), Orders.DineIn(1), 0, 1);
  }

  lemma DepositSeating(config: Config)
    requires config.depositCents > 500
    ensures Reservations.Seat(BusyState(config, Committed, Occupied), 0, None, 1) ==
              Result(BusyState(config, Committed, Occupied).(
                       reservations := [Deposit(config, Seated).(orderId := Some(0))]), Failure(BadRequest))
  {
    assert [PlainLine(2, 0, 500)][..0] == [];
    var s := BusyState(config, Committed, Occupied);
    assert s.orders[..0] == [];
    assert Orders.LatestActive(s.orders, 1, 1) == Some(0);
  }

  /**
   With a deposit over the price, as the default of 1000 is: a walk-in order opened at the reserved table makes
   seating the deposit fail, and the reservation is SEATED and linked to the walk-in's order all the same.
   */
  lemma SeatCanFailLate(config: Config)
    requires config.depositCents > 500
    ensures Perform(After(config, DEPOSIT_OPENED), SEAT).reply == Failure(BadRequest)
    ensures After(config, DEPOSIT_OPENED + [SEAT]).reservations == [Deposit(config, Seated).(orderId := Some(0))]
  {
    DepositOpened(config);
    Then(config, DEPOSIT_OPENED, SEAT);
    DepositSeating(config);
  }

  // ---------- The next table name ----------

  /** A zone of any name, given the code T. */
  function Coded(name: string): seq<Call> {
    [OnFloor(1, CreateZone(name))] + [OnFloor(1, UpdateZone(0, None, Some("T")))]
  }

  function NumberedName(code: string, n: nat): string {
    code + Decimal.Pad2(n)
  }

  /** Then tables T01, T02 and so on, n of them. */
  function Numbered(name: string, n: nat): seq<Call> {
    if n == 0 then Coded(name) else Numbered(name, n - 1) + [OnFloor(1, CreateTable(NumberedName("T", n)))]
  }

  /** One zone and nothing else. */
  function ZoneState(config: Config, name: string, code: string): State {
    Empty(config).(zones := map[0 := Zone(1, name, code)], nextId := 1)
  }

  lemma AfterZone(config: Config, name: string)
    ensures After(config, [OnFloor(1, CreateZone(name))]) == ZoneState(config, name, ZoneNaming.ZoneCode(name, {}))
  {
    var create := OnFloor(1, CreateZone(name));
    assert [] + [create] == [create];
    Then(config, [], create);
    assert FloorPlan.ZonesOf(map[], 1) == {};
  }

  lemma AfterRecoding(config: Config, calls: seq<Call>, name: string, code: string)
    requires After(config, calls) == ZoneState(config, name, code)
    ensures After(config, calls + [OnFloor(1, UpdateZone(0, None, Some("T")))]) == ZoneState(config, name, "T")
  {
    Then(config, calls, OnFloor(1, UpdateZone(0, None, Some("T"))));
  }

  lemma AfterCoded(config: Config, name: string)
    ensures After(config, Coded(name)) == ZoneState(config, name, "T")
  {
    AfterZone(config, name);
    AfterRecoding(config, [OnFloor(1, CreateZone(name))], name, ZoneNaming.ZoneCode(name, {}));
  }

  predicate HasName(tables: map<Id, Table>, name: string) {
    exists id :: id in tables && tables[id].rest == 1 && tables[id].name == name
  }

  predicate IsOneOf(code: string, name: string, n: nat) {
    exists k :: 1 <= k <= n && name == NumberedName(code, k)
  }

  /** The tables are exactly those of the first n names. */
  predicate IsNumbered(code: string, tables: map<Id, Table>, n: nat) {
    && (forall id :: id in tables ==> IsOneOf(code, tables[id].name, n))
    && forall k :: 1 <= k <= n ==> HasName(tables, NumberedName(code, k))
  }

  lemma NumbersDiffer(code: string, m: nat, n: nat)
    requires NoSpace(code)
    requires NormalizeName(NumberedName(code, m)) == NormalizeName(NumberedName(code, n))
    ensures m == n
  {
    SameKey(NumberedName(code, m), NumberedName(code, n));
    ZoneNaming.KeyOfNumbered(code, Decimal.Pad2(m));
    ZoneNaming.KeyOfNumbered(code, Decimal.Pad2(n));
    assert (Lower(code) + Decimal.Pad2(m))[|code|..] == Decimal.Pad2(m);
    assert (Lower(code) + Decimal.Pad2(n))[|code|..] == Decimal.Pad2(n);
    Decimal.ParsePadded(m);
    Decimal.ParsePadded(n);
  }

  lemma NameIsFree(code: string, tables: map<Id, Table>, n: nat, id: Id)
    requires NoSpace(code)
    requires IsNumbered(code, tables, n) && id in tables
    ensures NormalizeName(tables[id].name) != NormalizeName(NumberedName(code, n + 1))
  {
    var k :| 1 <= k <= n && tables[id].name == NumberedName(code, k);
    NumbersApart(code, k, n + 1);
  }

  lemma NumbersApart(code: string, m: nat, n: nat)
    requires NoSpace(code)
    requires m != n
    ensures NormalizeName(NumberedName(code, m)) != NormalizeName(NumberedName(code, n))
  {
    if NormalizeName(NumberedName(code, m)) == NormalizeName(NumberedName(code, n)) {
      NumbersDiffer(code, m, n);
    }
  }

  lemma NextIsFree(code: string, tables: map<Id, Table>, n: nat)
    requires NoSpace(code)
    requires IsNumbered(code, tables, n)
    ensures !FloorPlan.NameTaken(tables, NumberedName(code, n + 1), 1, None)
  {
    forall id | id in tables
      ensures NormalizeName(tables[id].name) != NormalizeName(NumberedName(code, n + 1))
    {
      NameIsFree(code, tables, n, id);
    }
  }

  lemma OneMoreNumbered(code: string, tables: map<Id, Table>, n: nat, id: Id, row: Table)
    requires IsNumbered(code, tables, n) && id !in tables && row.rest == 1 && row.name == NumberedName(code, n + 1)
    ensures IsNumbered(code, tables[id := row], n + 1)
  {
    var after := tables[id := row];
    forall other | other in after
      ensures IsOneOf(code, after[other].name, n + 1)
    {
      if other in tables {
        var k :| 1 <= k <= n && tables[other].name == NumberedName(code, k);
        assert after[other].name == NumberedName(code, k);
      } else {
        assert after[other].name == NumberedName(code, n + 1);
      }
    }
    forall k | 1 <= k <= n + 1
      ensures HasName(after, NumberedName(code, k))
    {
      if k <= n {
        assert HasName(tables, NumberedName(code, k));
        var other :| other in tables && tables[other].rest == 1 && tables[other].name == NumberedName(code, k);
        assert after[other] == tables[other];
      } else {
        assert after[id] == row;
      }
    }
  }

  lemma NumberedStep(s: State, code: string, n: nat)
    requires NoSpace(code) && IsNumbered(code, s.tables, n) && s.nextId !in s.tables
    ensures var t := FloorPlan.CreateTable(s, NumberedName(code, n + 1), 1).state;
            t.zones == s.zones && IsNumbered(code, t.tables, n + 1)
  {
    NextIsFree(code, s.tables, n);
    OneMoreNumbered(code, s.tables, n, s.nextId, Table(1, NumberedName(code, n + 1), Available, None));
  }

  /** A zone with code T, and tables of exactly the first n names. */
  predicate NumberedT(s: State, name: string, n: nat) {
    s.zones == map[0 := Zone(1, name, "T")] && IsNumbered("T", s.tables, n)
  }

  lemma AfterOneMore(config: Config, calls: seq<Call>, name: string, n: nat)
    requires NumberedT(After(config, calls), name, n)
    ensures NumberedT(After(config, calls + [OnFloor(1, CreateTable(NumberedName("T", n + 1)))]), name, n + 1)
  {
    Tenancy.AlwaysRefs(config, calls);
    Then(config, calls, OnFloor(1, CreateTable(NumberedName("T", n + 1))));
    NumberedStep(After(config, calls), "T", n);
  }

  lemma {:induction false} AfterNumbered(config: Config, name: string, n: nat)
    ensures NumberedT(After(config, Numbered(name, n)), name, n)
  {
    if n == 0 {
      AfterCoded(config, name);
    } else {
      AfterNumbered(config, name, n - 1);
      AfterOneMore(config, Numbered(name, n - 1), name, n - 1);
    }
  }

  lemma AllTaken(tables: map<Id, Table>, n: nat)
    requires n == 100 && IsNumbered("T", tables, n)
    ensures ZoneNaming.IsNextSuffix("T", FloorPlan.TableNames(tables, 1), n)
    ensures NumberedName("T", n) in FloorPlan.TableNames(tables, 1)
  {
    forall k | 1 <= k <= n
      ensures "T" + Decimal.Pad2(k) in FloorPlan.TableNames(tables, 1)
    {
      assert HasName(tables, NumberedName("T", k));
    }
  }

  /** With a hundred tables T01 to T100, the suggestion for zone T is the last one's name. */
  lemma SuggestionCanExist(config: Config, name: string) returns (n: nat)
    ensures n == 100
    ensures var s := After(config, Numbered(name, n));
            && s.zones == map[0 := Zone(1, name, "T")]
            && ZoneNaming.IsNextSuffix("T", FloorPlan.TableNames(s.tables, 1), n)
            && NumberedName("T", n) in FloorPlan.TableNames(s.tables, 1)
  {
    n := 100;
    AfterNumbered(config, name, n);
    AllTaken(After(config, Numbered(name, n)).tables, n);
  }

  /** After a zone T, a table t01. */
  function SmallNamed(name: string): seq<Call> {
    Coded(name) + [OnFloor(1, CreateTable(Lower("T") + Decimal.Pad2(1)))]
  }

  function SmallNamedState(config: Config, name: string): State {
    ZoneState(config, name, "T").(
      tables := map[1 := Table(1, Lower("T") + Decimal.Pad2(1), Available, None)], nextId := 2)
  }

  lemma AfterSmallNamed(config: Config, name: string)
    ensures After(config, SmallNamed(name)) == SmallNamedState(config, name)
  {
    AfterCoded(config, name);
    Then(config, Coded(name), OnFloor(1, CreateTable(Lower("T") + Decimal.Pad2(1))));
  }

  lemma SmallNameIsTaken(tables: map<Id, Table>)
    requires tables == map[1 := Table(1, Lower("T") + Decimal.Pad2(1), Available, None)]
    ensures ZoneNaming.IsNextSuffix("T", FloorPlan.TableNames(tables, 1), 1)
    ensures FloorPlan.NameTaken(tables, NumberedName("T", 1), 1, None)
  {
    assert FloorPlan.TableNames(tables, 1) == {tables[1].name};
    assert Lower("T")[0] == LowerChar('T') == 't';
    ZoneNaming.SuggestionCanClash("T");
    assert NormalizeName(tables[1].name) == NormalizeName(NumberedName("T", 1));
  }

  /** With a table t01, the suggestion for zone T is T01, and creating that is refused. */
  lemma SuggestionCanBeRefused(config: Config, name: string)
    ensures var s := After(config, SmallNamed(name));
            && s.zones == map[0 := Zone(1, name, "T")]
            && ZoneNaming.IsNextSuffix("T", FloorPlan.TableNames(s.tables, 1), 1)
            && FloorPlan.CreateTable(s, NumberedName("T", 1), 1).reply == Failure(BadRequest)
  {
    AfterSmallNamed(config, name);
    SmallNameIsTaken(SmallNamedState(config, name).tables);
  }
}
