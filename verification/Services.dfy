/**
 The service classes of the repository over one shared database. Each method follows its source method write
 by write; its contract says that the rows it leaves and the answer it gives are those of the call's
 specification function, about which the theorem modules reason.
 */
module Services {
  import opened Basics
  import opened OrderStatus
  import opened Store
  import opened Names
  import Decimal
  import ZoneNaming
  import Modifiers
  import Orders
  import Inventory
  import CashRegister
  import Payments
  import Reservations
  import FloorPlan

  class OrdersService {
    const db: Database

    constructor (db: Database)
      ensures this.db == db
    {
      this.db := db;
    }

    /** Sums the lines of an order, one by one. */
    method SumLines(items: seq<Line>) returns (subtotal: int)
      ensures subtotal == Orders.Subtotal(items)
    {
      subtotal := 0;
      for i := 0 to |items|
        invariant subtotal == Orders.Subtotal(items[..i])
      {
        assert items[..i + 1][..i] == items[..i];
        subtotal := subtotal + items[i].lineTotalCents;
      }
      assert items[..|items|] == items;
    }

    method RecalculateTotals(orderId: nat)
      requires orderId < |db.orders|
      modifies db`orders
      ensures db.orders == old(db.orders)[orderId := Orders.Recalculated(db.config, old(db.orders)[orderId])]
    {
      var order := db.orders[orderId];
      var subtotal := SumLines(order.items);
      var tax := RoundRatio(subtotal * db.config.taxRate.num, db.config.taxRate.den);
      var total := Max(0, subtotal + tax - order.discountCents);
      db.orders := db.orders[orderId := order.(subtotalCents := subtotal, taxCents := tax, totalCents := total)];
    }

    /** One line of a create or add request: the snapshot of prices and modifiers. */
    method BuildLine(item: MenuItem, dto: Orders.LineDto, id: Id) returns (line: Option<Line>)
      ensures line == Orders.PriceLine(item, dto, id)
    {
      var outcome := Modifiers.ResolveSelections(item.groups, dto.modifierIds);
      if outcome.Refused? {
        return None;
      }
      var delta := outcome.resolved.deltaCentsPerUnit;
      return Some(Line(id, dto.menuItemId, item.priceCents, dto.quantity,
                       outcome.resolved.selections, delta, (item.priceCents + delta) * dto.quantity));
    }

    method BuildOne(dto: Orders.LineDto, id: Id, rest: Rest) returns (line: Option<Line>)
      ensures line == Orders.PriceOne(db.menu, rest, dto, id)
    {
      if dto.menuItemId !in db.menu || db.menu[dto.menuItemId].rest != rest || !db.menu[dto.menuItemId].available {
        return None;
      }
      line := BuildLine(db.menu[dto.menuItemId], dto, id);
    }

    /** The order lines of a create request, pushed one by one. */
    method PriceLines(items: seq<Orders.LineDto>, rest: Rest) returns (orderItems: Option<seq<Line>>)
      ensures orderItems == Orders.PriceAll(db.menu, rest, items, db.nextId)
    {
      var lines: seq<Line> := [];
      for i := 0 to |items|
        invariant Orders.PriceAll(db.menu, rest, items[..i], db.nextId) == Some(lines)
      {
        Orders.PriceAllNext(db.menu, rest, items, db.nextId, i, lines);
        var line := BuildOne(items[i], db.nextId + i, rest);
        if line.None? {
          return None;
        }
        lines := lines + [line.value];
      }
      assert items[..|items|] == items;
      return Some(lines);
    }

    method Create(kind: Orders.OrderKind, items: seq<Orders.LineDto>, rest: Rest) returns (reply: Reply)
      modifies db
      ensures Result(db.Rows(), reply) == Orders.Create(old(db.Rows()), kind, items, rest)
    {
      var tableId: Option<Id> := None;
      if kind.DineIn? {
        if kind.tableId !in db.tables || db.tables[kind.tableId].rest != rest {
          return Failure(NotFound);
        }
        if db.tables[kind.tableId].status == Occupied {
          var active := Orders.LatestActive(db.orders, kind.tableId, rest);
          if active.Some? {
            return Done(active.value);
          }
        }
        tableId := Some(kind.tableId);
      }
      reply := Insert(tableId, items, rest);
    }

    method Insert(tableId: Option<Id>, items: seq<Orders.LineDto>, rest: Rest) returns (reply: Reply)
      modifies db
      ensures Result(db.Rows(), reply) == Orders.InsertOrder(old(db.Rows()), tableId, items, rest)
    {
      var lines := PriceLines(items, rest);
      if lines.None? {
        return Failure(BadRequest);
      }
      reply := Place(Order(rest, Draft, tableId, lines.value, 0, 0, 0, 0), |items|);
    }

    /** The transaction of create: the order row with its lines, then its table, then the totals. */
    method Place(order: Order, ids: nat) returns (reply: Reply)
      modifies db
      ensures Result(db.Rows(), reply) == Orders.Placed(old(db.Rows()), order, ids)
    {
      var id := |db.orders|;
      db.orders := db.orders + [order];
      db.nextId := db.nextId + ids;
      if order.tableId.Some? {
        db.UpdateTableStatus(order.tableId.value, Occupied);
      }
      RecalculateTotals(id);
      assert db.orders == old(db.orders) + [Orders.Recalculated(db.config, order)];
      return Done(id);
    }

    method AddItem(orderId: nat, dto: Orders.LineDto, rest: Rest) returns (reply: Reply)
      modifies db
      ensures Result(db.Rows(), reply) == Orders.AddItem(old(db.Rows()), orderId, dto, rest)
    {
      if orderId >= |db.orders| || db.orders[orderId].rest != rest {
        return Failure(NotFound);
      }
      var order := db.orders[orderId];
      if !IsEditable(order.status) {
        return Failure(BadRequest);
      }
      if dto.menuItemId !in db.menu || db.menu[dto.menuItemId].rest != rest || !db.menu[dto.menuItemId].available {
        return Failure(NotFound);
      }
      var line := BuildLine(db.menu[dto.menuItemId], dto, db.nextId);
      if line.None? {
        return Failure(BadRequest);
      }
      db.nextId := db.nextId + 1;
      db.orders := db.orders[orderId := order.(items := order.items + [line.value])];
      RecalculateTotals(orderId);
      return Done(orderId);
    }

    method UpdateItemQuantity(orderId: nat, itemId: Id, quantity: Option<Orders.Positive>, rest: Rest)
      returns (reply: Reply)
      modifies db
      ensures Result(db.Rows(), reply) == Orders.UpdateItemQuantity(old(db.Rows()), orderId, itemId, quantity, rest)
    {
      if orderId >= |db.orders| || db.orders[orderId].rest != rest {
        return Failure(NotFound);
      }
      var order := db.orders[orderId];
      if !IsEditable(order.status) {
        return Failure(BadRequest);
      }
      var at := Orders.FindLine(order.items, itemId);
      if at.None? {
        return Failure(NotFound);
      }
      var line := order.items[at.value];
      var effective := if quantity.Some? then quantity.value else line.quantity;
      var lineTotal := (line.priceCents + line.modifierDeltaCents) * effective;
      var updated := line.(quantity := effective, lineTotalCents := lineTotal);
      db.orders := db.orders[orderId := order.(items := order.items[at.value := updated])];
      RecalculateTotals(orderId);
      return Done(orderId);
    }

    method RemoveItem(orderId: nat, itemId: Id, rest: Rest) returns (reply: Reply)
      modifies db
      ensures Result(db.Rows(), reply) == Orders.RemoveItem(old(db.Rows()), orderId, itemId, rest)
    {
      if orderId >= |db.orders| || db.orders[orderId].rest != rest {
        return Failure(NotFound);
      }
      var order := db.orders[orderId];
      if !IsEditable(order.status) {
        return Failure(BadRequest);
      }
      var at := Orders.FindLine(order.items, itemId);
      if at.None? {
        return Failure(NotFound);
      }
      db.orders := db.orders[orderId := order.(items := order.items[..at.value] + order.items[at.value + 1..])];
      RecalculateTotals(orderId);
      return Done(orderId);
    }

    method ConfirmOrder(orderId: nat, rest: Rest) returns (reply: Reply)
      modifies db`orders
      ensures Result(db.Rows(), reply) == Orders.ConfirmOrder(old(db.Rows()), orderId, rest)
    {
      if orderId >= |db.orders| || db.orders[orderId].rest != rest {
        return Failure(NotFound);
      }
      var order := db.orders[orderId];
      if |order.items| == 0 {
        return Failure(BadRequest);
      }
      if !CanTransition(order.status, Pending) {
        return Failure(BadRequest);
      }
      db.orders := db.orders[orderId := order.(status := Pending)];
      return Done(orderId);
    }

    method UpdateStatus(orderId: nat, next: Status, rest: Rest) returns (reply: Reply)
      modifies db`orders
      ensures Result(db.Rows(), reply) == Orders.UpdateStatus(old(db.Rows()), orderId, next, rest)
    {
      if orderId >= |db.orders| || db.orders[orderId].rest != rest {
        return Failure(NotFound);
      }
      var order := db.orders[orderId];
      if !CanTransition(order.status, next) {
        return Failure(BadRequest);
      }
      db.orders := db.orders[orderId := order.(status := next)];
      return Done(orderId);
    }

    method MarkConfirmed(orderId: nat)
      modifies db`orders
      ensures db.Rows() == Orders.MarkConfirmed(old(db.Rows()), orderId)
    {
      if orderId >= |db.orders| || !CanTransition(db.orders[orderId].status, Confirmed) {
        return;
      }
      db.orders := db.orders[orderId := db.orders[orderId].(status := Confirmed)];
    }

    method ApplyDiscount(orderId: nat, discount: Orders.Discount, rest: Rest) returns (reply: Reply)
      modifies db`orders
      ensures Result(db.Rows(), reply) == Orders.ApplyDiscount(old(db.Rows()), orderId, discount, rest)
    {
      if orderId >= |db.orders| || db.orders[orderId].rest != rest {
        return Failure(NotFound);
      }
      var order := db.orders[orderId];
      if !IsEditable(order.status) {
        return Failure(BadRequest);
      }
      var subtotal := SumLines(order.items);
      var resolved := Orders.DiscountCents(subtotal, discount);
      if resolved > subtotal {
        return Failure(BadRequest);
      }
      db.orders := db.orders[orderId := order.(discountCents := resolved)];
      RecalculateTotals(orderId);
      return Done(orderId);
    }
  }

  // ---------- Inventory ----------

  class InventoryService {
    const db: Database

    constructor (db: Database)
      ensures this.db == db
    {
      this.db := db;
    }

    method Create(quantity: Inventory.Quantity, menuItemId: Option<Id>, rest: Rest) returns (reply: Reply)
      modifies db`stock, db`nextId
      ensures Result(db.Rows(), reply) == Inventory.CreateItem(old(db.Rows()), quantity, menuItemId, rest)
    {
      if menuItemId.Some? {
        if menuItemId.value !in db.menu || exists id :: id in db.stock && db.stock[id].menuItemId == menuItemId {
          return Failure(Conflict);
        }
      }
      var id := db.nextId;
      db.stock := db.stock[id := StockItem(rest, menuItemId, quantity, [], quantity)];
      db.nextId := id + 1;
      return Done(id);
    }

    /** The transaction of adjust: the log row, then the quantity, computed from the row read before. */
    method Adjust(id: Id, delta: real, rest: Rest) returns (reply: Reply)
      modifies db`stock
      ensures Result(db.Rows(), reply) == Inventory.Adjust(old(db.Rows()), id, delta, rest)
    {
      if id !in db.stock || db.stock[id].rest != rest {
        return Failure(NotFound);
      }
      var item := db.stock[id];
      db.stock := db.stock[id := item.(log := item.log + [delta])];
      var newQty := if item.quantityOnHand + delta < 0.0 then 0.0 else item.quantityOnHand + delta;
      db.stock := db.stock[id := db.stock[id].(quantityOnHand := newQty)];
      return Done(id);
    }
  }

  // ---------- Payments ----------

  class PaymentsService {
    const db: Database
    const orders: OrdersService
    const inventory: InventoryService

    predicate Valid() {
      orders.db == db && inventory.db == db
    }

    constructor (db: Database, orders: OrdersService, inventory: InventoryService)
      requires orders.db == db && inventory.db == db
      ensures Valid() && this.db == db
    {
      this.db := db;
      this.orders := orders;
      this.inventory := inventory;
    }

    /** `intent` is the reference the gateway answers with. */
    method CreateIntent(orderId: nat, intent: nat, rest: Rest) returns (reply: Reply)
      modifies db`payments
      ensures Result(db.Rows(), reply) == Payments.CreateIntent(old(db.Rows()), orderId, intent, rest)
    {
      if orderId >= |db.orders| || db.orders[orderId].rest != rest {
        return Failure(NotFound);
      }
      var order := db.orders[orderId];
      if order.status != Pending {
        return Failure(BadRequest);
      }
      var found := Payments.FindByRef(db.payments, intent);
      if found.Some? {
        db.payments := db.payments[found.value := db.payments[found.value].(amountCents := order.totalCents)];
      } else {
        var payment := Payment(rest, orderId, Stripe, Some(intent), order.totalCents, 0, 0,
                               RequiresPayment, None, None);
        db.payments := db.payments + [payment];
      }
      return Done(intent);
    }

    /** checkout: one transaction for order, table and payment, then the stock hook. */
    method Checkout(dto: Payments.CheckoutDto, rest: Rest) returns (reply: Reply)
      requires Valid() && Inventory.UniqueLinks(db.stock)
      modifies db`orders, db`tables, db`payments, db`stock
      ensures Result(db.Rows(), reply) == Payments.Checkout(old(db.Rows()), dto, rest)
    {
      if dto.orderId >= |db.orders| || db.orders[dto.orderId].rest != rest {
        return Failure(NotFound);
      }
      var order := db.orders[dto.orderId];
      if order.status != Pending {
        return Failure(BadRequest);
      }
      var activeSession := CashRegister.FindOpen(db.sessions, rest);
      if activeSession.None? {
        return Failure(BadRequest);
      }
      var existingPayment := Payments.FindSucceeded(db.payments, dto.orderId, rest);
      if existingPayment.Some? {
        return Done(existingPayment.value);
      }
      if dto.tender == Cash && dto.amountPaidCents < order.totalCents {
        return Failure(BadRequest);
      }
      if !CanTransition(order.status, Confirmed) {
        return Failure(BadRequest);
      }
      db.orders := db.orders[dto.orderId := order.(status := Confirmed)];
      if order.tableId.Some? {
        db.UpdateTableStatus(order.tableId.value, Available);
      }
      var change := Max(0, dto.amountPaidCents - order.totalCents);
      var payment := Payment(rest, dto.orderId, dto.tender, None, order.totalCents, dto.amountPaidCents, change,
                             Succeeded, None, Some(activeSession.value));
      var id := |db.payments|;
      db.payments := db.payments + [payment];
      DecrementInventoryForOrder(order.items, rest);
      return Done(id);
    }

    /** For each line in turn, the one stock item linked to its menu item is adjusted. */
    method DecrementInventoryForOrder(items: seq<Line>, rest: Rest)
      requires Valid() && Inventory.UniqueLinks(db.stock)
      modifies db`stock
      ensures db.stock == Inventory.DecrementAll(old(db.stock), rest, items)
    {
      for i := 0 to |items|
        invariant Inventory.UniqueLinks(db.stock)
        invariant db.stock == Inventory.DecrementAll(old(db.stock), rest, items[..i])
      {
        var item := items[i];
        assert items[..i + 1][..i] == items[..i];
        DecrementInventoryForItem(item, rest);
      }
      assert items[..|items|] == items;
    }

    method DecrementInventoryForItem(item: Line, rest: Rest)
      requires Valid() && Inventory.UniqueLinks(db.stock)
      modifies db`stock
      ensures db.stock == Inventory.DecrementLine(old(db.stock), rest, item) && Inventory.UniqueLinks(db.stock)
    {
      Inventory.DecrementLineIsAdjust(db.stock, rest, item);
      if exists id :: id in db.stock && Inventory.IsLinked(db.stock[id], rest, item.menuItemId) {
        var id :| id in db.stock && Inventory.IsLinked(db.stock[id], rest, item.menuItemId);
        var _ := inventory.Adjust(id, -(item.quantity as real), rest);
      }
    }

    method HandleWebhook(event: Payments.Event)
      requires Valid()
      modifies db`payments, db`orders
      ensures db.Rows() == Payments.Webhook(old(db.Rows()), event)
    {
      match event.kind
      case IntentSucceeded => OnPaymentSucceeded(event);
      case IntentFailed => OnPaymentFailed(event);
      case OtherKind =>
    }

    method OnPaymentSucceeded(event: Payments.Event)
      requires Valid() && event.kind == Payments.IntentSucceeded
      modifies db`payments, db`orders
      ensures db.Rows() == Payments.Webhook(old(db.Rows()), event)
    {
      var payment := FindPaymentForEvent(event);
      if payment.None? {
        return;
      }
      var row := db.payments[payment.value];
      db.payments := db.payments[payment.value := row.(status := Succeeded, lastEventId := Some(event.id))];
      orders.MarkConfirmed(row.orderId);
    }

    method OnPaymentFailed(event: Payments.Event)
      requires event.kind == Payments.IntentFailed
      modifies db`payments
      ensures db.Rows() == Payments.Webhook(old(db.Rows()), event)
    {
      var payment := FindPaymentForEvent(event);
      if payment.None? {
        return;
      }
      var row := db.payments[payment.value];
      db.payments := db.payments[payment.value := row.(status := Failed, lastEventId := Some(event.id))];
    }

    method FindPaymentForEvent(event: Payments.Event) returns (payment: Option<nat>)
      ensures payment == Payments.PaymentFor(db.payments, event)
    {
      if event.intent.None? {
        return None;
      }
      payment := Payments.FindByRef(db.payments, event.intent.value);
      if payment.None? {
        return None;
      }
      if db.payments[payment.value].lastEventId == Some(event.id) {
        return None;
      }
    }
  }

  // ---------- Cash register ----------

  class CashRegisterService {
    const db: Database

    constructor (db: Database)
      ensures this.db == db
    {
      this.db := db;
    }

    method OpenSession(openingFloatCents: nat, rest: Rest) returns (reply: Reply)
      modifies db`sessions
      ensures Result(db.Rows(), reply) == CashRegister.OpenSession(old(db.Rows()), openingFloatCents, rest)
    {
      var active := CashRegister.FindOpen(db.sessions, rest);
      if active.Some? {
        return Failure(BadRequest);
      }
      var id := |db.sessions|;
      db.sessions := db.sessions + [Session(rest, openingFloatCents, None)];
      return Done(id);
    }

    method CloseSession(countedCents: nat, rest: Rest) returns (reply: Reply)
      modifies db`sessions
      ensures Result(db.Rows(), reply) == CashRegister.CloseSession(old(db.Rows()), countedCents, rest)
    {
      var session := CashRegister.FindOpen(db.sessions, rest);
      if session.None? {
        return Failure(BadRequest);
      }
      var expectedCents := CashRegister.SessionTotal(db.payments, session.value, rest);
      var differenceCents := countedCents - expectedCents;
      var closing := Closing(expectedCents, countedCents, differenceCents);
      db.sessions := db.sessions[session.value := db.sessions[session.value].(closing := Some(closing))];
      return Done(session.value);
    }

    /** getSessionSummary: total, count, and the tenders with a positive subtotal. */
    method GetSessionSummary(sessionId: nat, rest: Rest) returns (summary: Option<CashRegister.Summary>)
      ensures summary.Some? <==> sessionId < |db.sessions| && db.sessions[sessionId].rest == rest
      ensures summary.Some? ==>
                CashRegister.IsSummary(CashRegister.SessionPayments(db.payments, sessionId, rest), summary.value)
    {
      if sessionId >= |db.sessions| || db.sessions[sessionId].rest != rest {
        return None;
      }
      var payments := CashRegister.SessionPayments(db.payments, sessionId, rest);
      var byMethodRaw := SubtotalsByMethod(payments);
      var byMethod: map<PaymentMethod, int> := map[];
      for i := 0 to |CashRegister.TENDERS|
        invariant forall t :: t in byMethod ==>
                    t in CashRegister.TENDERS[..i] && byMethod[t] == Sum(payments, CashRegister.AmountBy(t))
        invariant forall t :: t in CashRegister.TENDERS[..i] ==>
                    (t in byMethod <==> Sum(payments, CashRegister.AmountBy(t)) > 0)
      {
        var tender := CashRegister.TENDERS[i];
        if tender in byMethodRaw && byMethodRaw[tender] > 0 {
          byMethod := byMethod[tender := byMethodRaw[tender]];
        }
      }
      assert CashRegister.TENDERS[..|CashRegister.TENDERS|] == CashRegister.TENDERS;
      CashRegister.AllTenders();
      var total := Sum(payments, CashRegister.Amount);
      CashRegister.IsGathered(payments, CashRegister.Summary(total, |payments|, byMethod));
      return Some(CashRegister.Summary(total, |payments|, byMethod));
    }

    method SubtotalsByMethod(payments: seq<Payment>) returns (byMethodRaw: map<PaymentMethod, int>)
      ensures forall t :: CashRegister.Reported(byMethodRaw, t) == Sum(payments, CashRegister.AmountBy(t))
    {
      byMethodRaw := map[];
      for i := 0 to |payments|
        invariant forall t :: CashRegister.Reported(byMethodRaw, t) == Sum(payments[..i], CashRegister.AmountBy(t))
      {
        var p := payments[i];
        assert payments[..i + 1][..i] == payments[..i];
        var before := if p.tender in byMethodRaw then byMethodRaw[p.tender] else 0;
        byMethodRaw := byMethodRaw[p.tender := before + p.amountCents];
      }
      assert payments[..|payments|] == payments;
    }
  }

  // ---------- Reservations ----------

  class ReservationsService {
    const db: Database
    const orders: OrdersService

    predicate Valid() {
      orders.db == db
    }

    constructor (db: Database, orders: OrdersService)
      requires orders.db == db
      ensures Valid() && this.db == db
    {
      this.db := db;
      this.orders := orders;
    }

    method Create(dto: Reservations.ReservationDto, rest: Rest) returns (reply: Reply)
      requires Valid()
      modifies db
      ensures Result(db.Rows(), reply) == Reservations.Create(old(db.Rows()), dto, rest)
    {
      if dto.InformalDto? {
        if dto.tableId.Some? || dto.items.Some? {
          return Failure(BadRequest);
        }
        var informal := |db.reservations|;
        db.reservations := db.reservations + [Reservation(rest, Informal, Waiting, None, None, 0)];
        return Done(informal);
      }
      if dto.wanted !in db.tables || db.tables[dto.wanted].rest != rest {
        return Failure(NotFound);
      }
      if db.tables[dto.wanted].status != Available {
        return Failure(BadRequest);
      }
      var orderId: Option<nat> := None;
      var depositCents := db.config.depositCents;
      var kind := DepositOnly;
      if dto.PreorderDto? {
        var placed := orders.Create(Orders.Takeaway, dto.lines, rest);
        if placed.Failure? {
          return placed;
        }
        orderId := Some(placed.id);
        depositCents := db.orders[placed.id].totalCents / 2;
        kind := WithPreorder;
      } else if dto.items.Some? {
        return Failure(BadRequest);
      }
      var id := |db.reservations|;
      db.reservations := db.reservations + [Reservation(rest, kind, Waiting, Some(dto.wanted), orderId, depositCents)];
      return Done(id);
    }

    method Confirm(id: nat, rest: Rest) returns (reply: Reply)
      modifies db`reservations, db`tables
      ensures Result(db.Rows(), reply) == Reservations.Confirm(old(db.Rows()), id, rest)
    {
      if id >= |db.reservations| || db.reservations[id].rest != rest {
        return Failure(NotFound);
      }
      var reservation := db.reservations[id];
      if reservation.status != Waiting {
        return Failure(BadRequest);
      }
      if reservation.kind != Informal && reservation.tableId.Some? {
        db.UpdateTableStatus(reservation.tableId.value, Reserved);
      }
      db.reservations := db.reservations[id := reservation.(status := Committed)];
      return Done(id);
    }

    method Seat(id: nat, tableId: Option<Id>, rest: Rest) returns (reply: Reply)
      requires Valid()
      modifies db
      ensures Result(db.Rows(), reply) == Reservations.Seat(old(db.Rows()), id, tableId, rest)
    {
      if id >= |db.reservations| || db.reservations[id].rest != rest {
        return Failure(NotFound);
      }
      if db.reservations[id].status != Committed {
        return Failure(BadRequest);
      }
      match db.reservations[id].kind
      case WithPreorder => reply := SeatWithPreorder(id);
      case DepositOnly => reply := SeatDepositOnly(id, rest);
      case Informal =>
        if tableId.None? {
          return Failure(BadRequest);
        }
        reply := SeatAt(id, tableId.value, rest);
    }

    method SeatWithPreorder(id: nat) returns (reply: Reply)
      requires id < |db.reservations|
      modifies db`tables, db`reservations, db`orders
      ensures Result(db.Rows(), reply) == Reservations.SeatWithPreorder(old(db.Rows()), id)
    {
      var reservation := db.reservations[id];
      if reservation.orderId.None? || reservation.tableId.None? {
        return Failure(BadRequest);
      }
      db.UpdateTableStatus(reservation.tableId.value, Occupied);
      db.reservations := db.reservations[id := reservation.(status := Seated)];
      var orderId := reservation.orderId.value;
      if orderId < |db.orders| {
        db.orders := db.orders[orderId := db.orders[orderId].(tableId := reservation.tableId)];
      }
      return Done(orderId);
    }

    /** Creates the table's order, or reopens it, and links it; a second link to one order is a conflict. */
    method SeatAt(id: nat, tableId: Id, rest: Rest) returns (reply: Reply)
      requires Valid() && id < |db.reservations|
      modifies db
      ensures Result(db.Rows(), reply) == Reservations.SeatAt(old(db.Rows()), id, tableId, rest)
    {
      reply := orders.Create(Orders.DineIn(tableId), [], rest);
      if reply.Failure? {
        return;
      }
      if exists j :: 0 <= j < |db.reservations| && j != id && db.reservations[j].orderId == Some(reply.id) {
        return Failure(Conflict);
      }
      db.reservations := db.reservations[
        id := db.reservations[id].(tableId := Some(tableId), orderId := Some(reply.id), status := Seated)];
    }

    method SeatDepositOnly(id: nat, rest: Rest) returns (reply: Reply)
      requires Valid() && id < |db.reservations|
      modifies db
      ensures Result(db.Rows(), reply) == Reservations.SeatDepositOnly(old(db.Rows()), id, rest)
    {
      var reservation := db.reservations[id];
      if reservation.tableId.None? {
        return Failure(BadRequest);
      }
      reply := SeatAt(id, reservation.tableId.value, rest);
      if reply.Failure? {
        return;
      }
      var subtotal := Reservations.PlainSubtotal(db.orders[reply.id].items);
      if reservation.depositCents > 0 && subtotal > 0 {
        reply := orders.ApplyDiscount(reply.id, Orders.Fixed(reservation.depositCents), rest);
      }
    }

    method Terminate(id: nat, next: Reservations.Ending, rest: Rest) returns (reply: Reply)
      modifies db`reservations, db`tables
      ensures Result(db.Rows(), reply) == Reservations.Terminate(old(db.Rows()), id, next, rest)
    {
      if id >= |db.reservations| || db.reservations[id].rest != rest {
        return Failure(NotFound);
      }
      var reservation := db.reservations[id];
      if reservation.status != Waiting && reservation.status != Committed {
        return Failure(BadRequest);
      }
      if reservation.tableId.Some? {
        var tableId := reservation.tableId.value;
        if tableId in db.tables && db.tables[tableId].status == Reserved {
          db.UpdateTableStatus(tableId, Available);
        }
      }
      db.reservations := db.reservations[id := reservation.(status := next)];
      return Done(id);
    }
  }

  // ---------- Tables ----------

  class TablesService {
    const db: Database

    constructor (db: Database)
      ensures this.db == db
    {
      this.db := db;
    }

    /** Whether another table of the restaurant has the same normalized name. */
    method NameClashes(name: string, rest: Rest, except: Option<Id>) returns (taken: bool)
      ensures taken == FloorPlan.NameTaken(db.tables, name, rest, except)
    {
      var normalized := NormalizeName(name);
      taken := exists id :: id in db.tables && db.tables[id].rest == rest && except != Some(id)
                 && NormalizeName(db.tables[id].name) == normalized;
    }

    method Create(name: string, rest: Rest) returns (reply: Reply)
      modifies db`tables, db`nextId
      ensures Result(db.Rows(), reply) == FloorPlan.CreateTable(old(db.Rows()), name, rest)
    {
      var taken := NameClashes(name, rest, None);
      if taken {
        return Failure(BadRequest);
      }
      var id := db.nextId;
      db.tables := db.tables[id := Table(rest, name, Available, None)];
      db.nextId := id + 1;
      return Done(id);
    }

    method Update(id: Id, name: Option<string>, rest: Rest) returns (reply: Reply)
      modifies db`tables
      ensures Result(db.Rows(), reply) == FloorPlan.UpdateTable(old(db.Rows()), id, name, rest)
    {
      if id !in db.tables || db.tables[id].rest != rest {
        return Failure(NotFound);
      }
      var table := db.tables[id];
      if table.status != Available {
        return Failure(BadRequest);
      }
      if name.Some? {
        var taken := NameClashes(name.value, rest, Some(id));
        if taken {
          return Failure(BadRequest);
        }
        db.tables := db.tables[id := table.(name := name.value)];
      }
      return Done(id);
    }

    method UpdateLayout(id: Id, change: FloorPlan.ZoneChange, rest: Rest) returns (reply: Reply)
      modifies db`tables
      ensures Result(db.Rows(), reply) == FloorPlan.UpdateLayout(old(db.Rows()), id, change, rest)
    {
      if id !in db.tables || db.tables[id].rest != rest {
        return Failure(NotFound);
      }
      if change.ToZone? {
        if change.zone !in db.zones || db.zones[change.zone].rest != rest {
          return Failure(NotFound);
        }
        db.tables := db.tables[id := db.tables[id].(zoneId := Some(change.zone))];
      } else if change.NoZone? {
        db.tables := db.tables[id := db.tables[id].(zoneId := None)];
      }
      return Done(id);
    }

    method Remove(id: Id, rest: Rest) returns (reply: Reply)
      modifies db`tables, db`orders, db`reservations
      ensures Result(db.Rows(), reply) == FloorPlan.RemoveTable(old(db.Rows()), id, rest)
    {
      if id !in db.tables || db.tables[id].rest != rest {
        return Failure(NotFound);
      }
      if db.tables[id].status != Available {
        return Failure(BadRequest);
      }
      db.DeleteTables({id});
      return Done(id);
    }
  }

  // ---------- Zones ----------

  class ZonesService {
    const db: Database

    constructor (db: Database)
      ensures this.db == db
    {
      this.db := db;
    }

    /** The name and code of each zone of the restaurant, in some order. */
    method FindZones(rest: Rest) returns (existing: seq<ZoneNaming.NamedCode>)
      ensures (set z | z in existing) == FloorPlan.ZonesOf(db.zones, rest)
    {
      existing := [];
      var ids := db.zones.Keys;
      while ids != {}
        invariant ids <= db.zones.Keys
        invariant forall z :: z in existing <==>
                    (exists id :: id in db.zones && id !in ids && db.zones[id].rest == rest
                                  && z == ZoneNaming.NamedCode(db.zones[id].name, db.zones[id].code))
        decreases |ids|
      {
        var id :| id in ids;
        ids := ids - {id};
        if db.zones[id].rest == rest {
          existing := existing + [ZoneNaming.NamedCode(db.zones[id].name, db.zones[id].code)];
        }
      }
    }

    method ComputeCode(name: string, rest: Rest) returns (code: string)
      ensures code == ZoneNaming.ZoneCode(name, FloorPlan.ZonesOf(db.zones, rest))
    {
      var existing := FindZones(rest);
      code := ZoneNaming.ComputeZoneCode(name, existing);
    }

    method Create(name: string, rest: Rest) returns (reply: Reply)
      modifies db`zones, db`nextId
      ensures Result(db.Rows(), reply) == FloorPlan.CreateZone(old(db.Rows()), name, rest)
    {
      var code := ComputeCode(name, rest);
      if exists id :: id in db.zones && db.zones[id].rest == rest && db.zones[id].code == code {
        return Failure(Conflict);
      }
      var id := db.nextId;
      db.zones := db.zones[id := Zone(rest, name, code)];
      db.nextId := id + 1;
      return Done(id);
    }

    method Update(id: Id, name: Option<string>, code: Option<FloorPlan.ZoneCode>, rest: Rest) returns (reply: Reply)
      modifies db`zones
      ensures Result(db.Rows(), reply) == FloorPlan.UpdateZone(old(db.Rows()), id, name, code, rest)
    {
      if id !in db.zones || db.zones[id].rest != rest {
        return Failure(NotFound);
      }
      var zone := db.zones[id];
      if code.Some? {
        var normalized := NormalizeName(code.value);
        if exists z :: z in db.zones && db.zones[z].rest == rest && z != id
             && NormalizeName(db.zones[z].code) == normalized {
          return Failure(BadRequest);
        }
        zone := zone.(code := code.value);
      }
      if name.Some? {
        zone := zone.(name := name.value);
      }
      db.zones := db.zones[id := zone];
      return Done(id);
    }

    /** The names of all tables of the restaurant, in some order. */
    method FindTableNames(rest: Rest) returns (names: seq<string>)
      ensures (set name | name in names) == FloorPlan.TableNames(db.tables, rest)
    {
      names := [];
      var ids := db.tables.Keys;
      while ids != {}
        invariant ids <= db.tables.Keys
        invariant forall name :: name in names <==>
                    (exists id :: id in db.tables && id !in ids
                                  && db.tables[id].rest == rest && db.tables[id].name == name)
        decreases |ids|
      {
        var id :| id in ids;
        ids := ids - {id};
        if db.tables[id].rest == rest {
          names := names + [db.tables[id].name];
        }
      }
    }

    /** The least suffix from 01 up that no table of the restaurant has after the zone's code, or 100. */
    method GetNextTableName(id: Id, rest: Rest) returns (suggestedName: Option<string>)
      ensures suggestedName.Some? <==> id in db.zones && db.zones[id].rest == rest
      ensures suggestedName.Some? ==>
                exists n :: ZoneNaming.IsNextSuffix(db.zones[id].code, FloorPlan.TableNames(db.tables, rest), n)
                  && suggestedName.value == db.zones[id].code + Decimal.Pad2(n)
    {
      if id !in db.zones || db.zones[id].rest != rest {
        return None;
      }
      var names := FindTableNames(rest);
      var name, _ := ZoneNaming.GetNextTableName(db.zones[id].code, names);
      return Some(name);
    }

    method Remove(id: Id, rest: Rest) returns (reply: Reply)
      modifies db
      ensures Result(db.Rows(), reply) == FloorPlan.RemoveZone(old(db.Rows()), id, rest)
    {
      if id !in db.zones || db.zones[id].rest != rest {
        return Failure(NotFound);
      }
      if exists t :: t in db.tables && db.tables[t].zoneId == Some(id) && db.tables[t].rest == rest
           && db.tables[t].status != Available {
        return Failure(BadRequest);
      }
      var gone := set t | t in db.tables && db.tables[t].zoneId == Some(id) && db.tables[t].rest == rest;
      db.DeleteTables(gone);
      db.tables := map t | t in db.tables ::
        db.tables[t].(zoneId := if db.tables[t].zoneId == Some(id) then None else db.tables[t].zoneId);
      db.zones := db.zones - {id};
      return Done(id);
    }
  }

  // ---------- Menu ----------

  class MenuItemsService {
    const db: Database

    constructor (db: Database)
      ensures this.db == db
    {
      this.db := db;
    }

    /** A menu item written with its modifier groups: a new one, or one of the restaurant's. */
    method Put(id: Option<Id>, priceCents: nat, available: bool, groups: seq<Modifiers.Group>, rest: Rest)
      returns (reply: Reply)
      modifies db`menu, db`nextId
      ensures Result(db.Rows(), reply) == FloorPlan.PutMenuItem(old(db.Rows()), id, priceCents, available, groups, rest)
    {
      var row := MenuItem(rest, priceCents, available, groups);
      if id.None? {
        var created := db.nextId;
        db.menu := db.menu[created := row];
        db.nextId := created + 1;
        return Done(created);
      }
      if id.value !in db.menu || db.menu[id.value].rest != rest {
        return Failure(NotFound);
      }
      db.menu := db.menu[id.value := row];
      return Done(id.value);
    }

    /** remove: only a menu item never ordered; the database nulls the link of its stock item. */
    method Remove(id: Id, rest: Rest) returns (reply: Reply)
      modifies db`menu, db`stock
      ensures Result(db.Rows(), reply) == FloorPlan.RemoveMenuItem(old(db.Rows()), id, rest)
    {
      if id !in db.menu || db.menu[id].rest != rest {
        return Failure(NotFound);
      }
      if FloorPlan.Ordered(db.Rows(), id, rest) {
        return Failure(BadRequest);
      }
      db.stock := map k | k in db.stock ::
        db.stock[k].(menuItemId := if db.stock[k].menuItemId == Some(id) then None else db.stock[k].menuItemId);
      db.menu := db.menu - {id};
      return Done(id);
    }
  }
}
