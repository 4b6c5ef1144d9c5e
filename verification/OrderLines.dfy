/**
 Editing lines: line ids are distinct in every run, so an edit reaches exactly the line it names, and adding a
 line or changing a quantity can be taken back exactly.
 */
module OrderLines {
  import opened Basics
  import opened OrderStatus
  import opened Store
  import opened Pos
  import opened Frames
  import OrderLife
  import Orders
  import Payments
  import Reservations

  predicate DistinctIds(items: seq<Line>) {
    forall i, j :: 0 <= i < j < |items| ==> items[i].id != items[j].id
  }

  predicate IdsBelow(items: seq<Line>, bound: Id) {
    forall i :: 0 <= i < |items| ==> items[i].id < bound
  }

  predicate AllPositive(items: seq<Line>) {
    forall i :: 0 <= i < |items| ==> items[i].quantity > 0
  }

  predicate WellNumbered(items: seq<Line>, bound: Id) {
    DistinctIds(items) && IdsBelow(items, bound) && AllPositive(items)
  }

  predicate LinesSound(s: State) {
    forall i :: 0 <= i < |s.orders| ==> WellNumbered(s.orders[i].items, s.nextId)
  }

  /** Orders keep their lines, or have well-numbered ones. */
  predicate LinesStep(s: State, t: State) {
    && s.nextId <= t.nextId
    && forall i :: 0 <= i < |t.orders| ==>
         || (i < |s.orders| && t.orders[i].items == s.orders[i].items)
         || WellNumbered(t.orders[i].items, t.nextId)
  }

  lemma SoundStep(s: State, t: State)
    requires LinesSound(s) && LinesStep(s, t)
    ensures LinesSound(t)
  {
    forall i | 0 <= i < |t.orders|
      ensures WellNumbered(t.orders[i].items, t.nextId)
    {
      assert i < |s.orders| ==> WellNumbered(s.orders[i].items, s.nextId);
    }
  }

  // ---------- Call by call ----------

  lemma {:induction false} PricedIds(menu: map<Id, MenuItem>, rest: Rest, dtos: seq<Orders.LineDto>, firstId: Id)
    ensures var lines := Orders.PriceAll(menu, rest, dtos, firstId);
            lines.Some? ==>
              && |lines.value| == |dtos|
              && forall i :: 0 <= i < |dtos| ==> lines.value[i].id == firstId + i && lines.value[i].quantity > 0
  {
    if dtos != [] {
      PricedIds(menu, rest, dtos[..|dtos| - 1], firstId);
    }
  }

  lemma PricedWellNumbered(menu: map<Id, MenuItem>, rest: Rest, dtos: seq<Orders.LineDto>, firstId: Id)
    ensures var lines := Orders.PriceAll(menu, rest, dtos, firstId);
            lines.Some? ==> WellNumbered(lines.value, firstId + |dtos|)
  {
    PricedIds(menu, rest, dtos, firstId);
  }

  lemma PlacedLines(s: State, order: Order, ids: nat)
    requires WellNumbered(order.items, s.nextId + ids)
    ensures LinesStep(s, Orders.Placed(s, order, ids).state)
  {
  }

  lemma CreateOrderLines(s: State, kind: Orders.OrderKind, items: seq<Orders.LineDto>, r: Rest)
    ensures LinesStep(s, Orders.Create(s, kind, items, r).state)
  {
    PricedWellNumbered(s.menu, r, items, s.nextId);
    var lines := Orders.PriceAll(s.menu, r, items, s.nextId);
    if lines.Some? {
      var tableId := if kind.DineIn? then Some(kind.tableId) else None;
      PlacedLines(s, Order(r, Draft, tableId, lines.value, 0, 0, 0, 0), |items|);
    }
  }

  lemma Rewritten(items: seq<Line>, k: nat, line: Line, bound: Id)
    requires WellNumbered(items, bound) && k < |items| && line.id == items[k].id && line.quantity > 0
    ensures WellNumbered(items[k := line], bound)
  {
  }

  lemma Dropped(items: seq<Line>, k: nat, bound: Id)
    requires WellNumbered(items, bound) && k < |items|
    ensures WellNumbered(items[..k] + items[k + 1..], bound)
  {
  }

  /** One order gets other lines. */
  lemma OrderLinesStep(s: State, t: State, order: nat)
    requires s.nextId <= t.nextId && order < |s.orders| == |t.orders|
    requires t.orders == s.orders[order := t.orders[order]] && WellNumbered(t.orders[order].items, t.nextId)
    ensures LinesStep(s, t)
  {
  }

  lemma Appended(items: seq<Line>, line: Line)
    requires WellNumbered(items, line.id) && line.quantity > 0
    ensures WellNumbered(items + [line], line.id + 1)
  {
  }

  lemma AddItemLines(s: State, order: nat, dto: Orders.LineDto, r: Rest)
    requires LinesSound(s)
    ensures LinesStep(s, Orders.AddItem(s, order, dto, r).state)
  {
    var t := Orders.AddItem(s, order, dto, r);
    if t.reply.Done? {
      var items := s.orders[order].items;
      assert WellNumbered(items, s.nextId);
      Appended(items, Orders.PriceLine(s.menu[dto.menuItemId], dto, s.nextId).value);
      OrderLinesStep(s, t.state, order);
    }
  }

  lemma UpdateQuantityLines(s: State, order: nat, item: Id, quantity: Option<Orders.Positive>, r: Rest)
    requires LinesSound(s)
    ensures LinesStep(s, Orders.UpdateItemQuantity(s, order, item, quantity, r).state)
  {
    var t := Orders.UpdateItemQuantity(s, order, item, quantity, r);
    if t.reply.Done? {
      var items := s.orders[order].items;
      assert WellNumbered(items, s.nextId);
      var k := Orders.FindLine(items, item).value;
      Rewritten(items, k, t.state.orders[order].items[k], s.nextId);
      OrderLinesStep(s, t.state, order);
    }
  }

  lemma RemoveItemLines(s: State, order: nat, item: Id, r: Rest)
    requires LinesSound(s)
    ensures LinesStep(s, Orders.RemoveItem(s, order, item, r).state)
  {
    var t := Orders.RemoveItem(s, order, item, r);
    if t.reply.Done? {
      var items := s.orders[order].items;
      assert WellNumbered(items, s.nextId);
      Dropped(items, Orders.FindLine(items, item).value, s.nextId);
      OrderLinesStep(s, t.state, order);
    }
  }

  lemma DiscountLines(s: State, order: nat, discount: Orders.Discount, r: Rest)
    ensures LinesStep(s, Orders.ApplyDiscount(s, order, discount, r).state)
    ensures |Orders.ApplyDiscount(s, order, discount, r).state.orders| == |s.orders|
  {
  }

  lemma FloorLines(s: State, c: FloorCall, r: Rest)
    ensures LinesStep(s, PerformFloor(s, c, r).state)
  {
    if Keeps(c) {
      FloorShape(s, c, r);
    } else {
      RemovalShape(s, c, r);
    }
  }

  lemma CheckoutLines(s: State, dto: Payments.CheckoutDto, r: Rest)
    ensures LinesStep(s, Payments.Checkout(s, dto, r).state)
  {
  }

  lemma WebhookLines(s: State, event: Payments.Event)
    ensures LinesStep(s, Payments.Webhook(s, event))
  {
    WebhookShape(s, event);
  }

  lemma MoneyLines(s: State, c: MoneyCall, r: Rest)
    ensures LinesStep(s, PerformMoney(s, c, r).state)
  {
    match c
    case Checkout(dto) => CheckoutLines(s, dto, r);
    case CreateIntent(order, intent) => IntentShape(s, order, intent, r);
    case _ => SessionShape(s, c, r);
  }

  lemma CreateReservationLines(s: State, dto: Reservations.ReservationDto, r: Rest)
    ensures LinesStep(s, Reservations.Create(s, dto, r).state)
  {
    if dto.PreorderDto? {
      CreateOrderLines(s, Orders.Takeaway, dto.lines, r);
    }
  }

  lemma SeatAtLines(s: State, id: nat, tableId: Id, r: Rest)
    requires id < |s.reservations|
    ensures LinesStep(s, Reservations.SeatAt(s, id, tableId, r).state)
  {
    CreateOrderLines(s, Orders.DineIn(tableId), [], r);
  }

  lemma SeatDepositLines(s: State, id: nat, r: Rest)
    requires id < |s.reservations|
    ensures LinesStep(s, Reservations.SeatDepositOnly(s, id, r).state)
  {
    if s.reservations[id].tableId.Some? {
      var seated := Reservations.SeatAt(s, id, s.reservations[id].tableId.value, r);
      SeatAtLines(s, id, s.reservations[id].tableId.value, r);
      if seated.reply.Done? && s.reservations[id].depositCents > 0 {
        DiscountLines(seated.state, seated.reply.id, Orders.Fixed(s.reservations[id].depositCents), r);
      }
    }
  }

  lemma SeatPreorderLines(s: State, id: nat)
    requires id < |s.reservations|
    ensures LinesStep(s, Reservations.SeatWithPreorder(s, id).state)
  {
  }

  lemma SeatLines(s: State, id: nat, tableId: Option<Id>, r: Rest)
    ensures LinesStep(s, Reservations.Seat(s, id, tableId, r).state)
  {
    if Reservations.Owns(s, id, r) && s.reservations[id].status == Committed {
      match s.reservations[id].kind
      case WithPreorder => SeatPreorderLines(s, id);
      case DepositOnly => SeatDepositLines(s, id, r);
      case Informal =>
        if tableId.Some? {
          SeatAtLines(s, id, tableId.value, r);
        }
    }
  }

  lemma EditLines(s: State, order: nat, c: EditCall, r: Rest)
    requires LinesSound(s)
    ensures LinesStep(s, PerformEdit(s, order, c, r).state)
  {
    match c
    case AddItem(line) => AddItemLines(s, order, line, r);
    case UpdateItemQuantity(item, quantity) => UpdateQuantityLines(s, order, item, quantity, r);
    case RemoveItem(item) => RemoveItemLines(s, order, item, r);
    case ApplyDiscount(discount) => DiscountLines(s, order, discount, r);
    case _ =>
  }

  lemma BookingLines(s: State, c: BookingCall, r: Rest)
    ensures LinesStep(s, PerformBooking(s, c, r).state)
  {
    match c
    case CreateReservation(dto) => CreateReservationLines(s, dto, r);
    case SeatReservation(id, table) => SeatLines(s, id, table, r);
    case ConfirmReservation(id) => ConfirmShape(s, id, r);
    case EndReservation(id, ending) => TerminateShape(s, id, ending, r);
  }

  lemma StepLines(s: State, c: Call)
    requires LinesSound(s)
    ensures LinesStep(s, Step(s, c))
  {
    match c
    case OnMenu(r, menu) => MenuShape(s, menu, r);
    case OnFloor(r, floor) => FloorLines(s, floor, r);
    case PlaceOrder(r, kind, lines) => CreateOrderLines(s, kind, lines, r);
    case EditOrder(r, order, edit) => EditLines(s, order, edit, r);
    case OnMoney(r, money) => MoneyLines(s, money, r);
    case OnBooking(r, booking) => BookingLines(s, booking, r);
    case Webhook(event) => WebhookLines(s, event);
  }

  /** In every run the lines of an order have distinct ids, all handed out before. */
  lemma {:induction false} AlwaysDistinctLines(config: Config, calls: seq<Call>)
    ensures LinesSound(Run(Empty(config), calls))
  {
    if calls != [] {
      var before := Run(Empty(config), calls[..|calls| - 1]);
      AlwaysDistinctLines(config, calls[..|calls| - 1]);
      StepLines(before, calls[|calls| - 1]);
      SoundStep(before, Run(Empty(config), calls));
    }
  }

  lemma ReachableLines(s: State)
    requires Reachable(s)
    ensures LinesSound(s)
  {
    var config, calls :| s == Run(Empty(config), calls);
    AlwaysDistinctLines(config, calls);
  }

  // ---------- What an edit reaches ----------

  lemma {:induction false} FindsTheLine(items: seq<Line>, k: nat)
    requires DistinctIds(items) && k < |items|
    ensures Orders.FindLine(items, items[k].id) == Some(k)
  {
    if k < |items| - 1 {
      FindsTheLine(items[..|items| - 1], k);
    }
  }

  lemma {:induction false} FindsNothing(items: seq<Line>, id: Id)
    requires Orders.FindLine(items, id).None?
    ensures forall k :: 0 <= k < |items| ==> items[k].id != id
  {
    if items != [] {
      FindsNothing(items[..|items| - 1], id);
      assert forall k :: 0 <= k < |items| - 1 ==> items[k] == items[..|items| - 1][k];
    }
  }

  /** The lines with another id, in their order. */
  function Without(items: seq<Line>, id: Id): seq<Line> {
    if items == [] then [] else
    Without(items[..|items| - 1], id) + if items[|items| - 1].id == id then [] else [items[|items| - 1]]
  }

  lemma {:induction false} WithoutAbsent(items: seq<Line>, id: Id)
    requires forall k :: 0 <= k < |items| ==> items[k].id != id
    ensures Without(items, id) == items
  {
    if items != [] {
      WithoutAbsent(items[..|items| - 1], id);
      assert items == items[..|items| - 1] + [items[|items| - 1]];
    }
  }

  lemma {:induction false} WithoutOne(items: seq<Line>, k: nat)
    requires DistinctIds(items) && k < |items|
    ensures Without(items, items[k].id) == items[..k] + items[k + 1..]
  {
    var n := |items| - 1;
    if k == n {
      WithoutAbsent(items[..n], items[n].id);
      assert items[..n] + [] == items[..n] && items[n + 1..] == [];
    } else {
      WithoutOne(items[..n], k);
      assert items[..n][..k] == items[..k];
      assert items[k + 1..] == items[..n][k + 1..] + [items[n]];
    }
  }

  predicate HasLine(items: seq<Line>, id: Id) {
    exists k :: 0 <= k < |items| && items[k].id == id
  }

  /**
   In a reachable state, removing a line from an editable order succeeds exactly when the order has it, and
   then drops that line and no other; every other order stays as it was.
   */
  lemma RemovesExactly(s: State, orderId: nat, itemId: Id, rest: Rest)
    requires Reachable(s) && Orders.Owns(s, orderId, rest) && IsEditable(s.orders[orderId].status)
    ensures var t, items := Orders.RemoveItem(s, orderId, itemId, rest), s.orders[orderId].items;
            && (t.reply.Done? <==> HasLine(items, itemId))
            && |t.state.orders| == |s.orders|
            && t.state.orders[orderId].items == Without(items, itemId)
            && forall i :: 0 <= i < |s.orders| && i != orderId ==> t.state.orders[i] == s.orders[i]
  {
    var items := s.orders[orderId].items;
    ReachableLines(s);
    assert WellNumbered(items, s.nextId);
    if HasLine(items, itemId) {
      var k :| 0 <= k < |items| && items[k].id == itemId;
      FindsTheLine(items, k);
      WithoutOne(items, k);
    } else {
      WithoutAbsent(items, itemId);
    }
  }

  /** Changing a quantity rewrites exactly the named line's quantity and total. */
  lemma RequantifiesExactly(s: State, orderId: nat, itemId: Id, quantity: Orders.Positive, rest: Rest)
    requires Reachable(s) && Orders.Owns(s, orderId, rest) && IsEditable(s.orders[orderId].status)
    ensures var t := Orders.UpdateItemQuantity(s, orderId, itemId, Some(quantity), rest);
            var items := s.orders[orderId].items;
            && (t.reply.Done? <==> HasLine(items, itemId))
            && |t.state.orders| == |s.orders| && |t.state.orders[orderId].items| == |items|
            && (forall k :: 0 <= k < |items| ==>
                  var line := t.state.orders[orderId].items[k];
                  if items[k].id != itemId then line == items[k]
                  else line == items[k].(quantity := quantity, lineTotalCents := line.lineTotalCents)
                       && Orders.LineAgrees(line))
            && forall i :: 0 <= i < |s.orders| && i != orderId ==> t.state.orders[i] == s.orders[i]
  {
    var items := s.orders[orderId].items;
    ReachableLines(s);
    assert WellNumbered(items, s.nextId);
    OrderLife.ReachableBalanced(s);
    assert Orders.Balanced(s.config, s.orders[orderId]);
    if HasLine(items, itemId) {
      var k :| 0 <= k < |items| && items[k].id == itemId;
      FindsTheLine(items, k);
      assert Orders.LineAgrees(items[k]);
    }
  }

  // ---------- Taking an edit back ----------

  /** A balanced order is what recomputing its money gives. */
  lemma BalancedIsRecalculated(config: Config, o: Order)
    requires Orders.Balanced(config, o)
    ensures Orders.Recalculated(config, o) == o
  {
  }

  lemma {:induction false} LastIsFound(items: seq<Line>, line: Line)
    ensures Orders.FindLine(items + [line], line.id) == Some(|items|)
    ensures (items + [line])[..|items|] + (items + [line])[|items| + 1..] == items
  {
  }

  /** Removing the line just added gives back every order exactly as it was, money included. */
  lemma AddThenRemove(s: State, orderId: nat, dto: Orders.LineDto, rest: Rest)
    requires Reachable(s) && Orders.AddItem(s, orderId, dto, rest).reply.Done?
    ensures var added := Orders.AddItem(s, orderId, dto, rest).state;
            Orders.RemoveItem(added, orderId, s.nextId, rest)
              == Result(s.(nextId := s.nextId + 1), Done(orderId))
  {
    OrderLife.ReachableBalanced(s);
    AddedIsRemoved(s, orderId, dto, rest);
  }

  /** What adding writes: one order, with one more line under the next id. */
  lemma AddedRow(s: State, orderId: nat, dto: Orders.LineDto, rest: Rest) returns (line: Line)
    requires Orders.AddItem(s, orderId, dto, rest).reply.Done?
    ensures line.id == s.nextId && Orders.Owns(s, orderId, rest) && IsEditable(s.orders[orderId].status)
    ensures var o := s.orders[orderId];
            var edited := Orders.Recalculated(s.config, o.(items := o.items + [line]));
            Orders.AddItem(s, orderId, dto, rest).state
              == s.(orders := s.orders[orderId := edited], nextId := s.nextId + 1)
  {
    line := Orders.PriceLine(s.menu[dto.menuItemId], dto, s.nextId).value;
  }

  lemma RemovedLast(s: State, orderId: nat, items: seq<Line>, line: Line, rest: Rest)
    requires Orders.Owns(s, orderId, rest) && IsEditable(s.orders[orderId].status)
    requires s.orders[orderId].items == items + [line]
    ensures Orders.RemoveItem(s, orderId, line.id, rest) == Result(
              s.(orders := s.orders[orderId := Orders.Recalculated(s.config, s.orders[orderId].(items := items))]),
              Done(orderId))
  {
    LastIsFound(items, line);
  }

  lemma AddedIsRemoved(s: State, orderId: nat, dto: Orders.LineDto, rest: Rest)
    requires Orders.AddItem(s, orderId, dto, rest).reply.Done? && Orders.Balanced(s.config, s.orders[orderId])
    ensures var added := Orders.AddItem(s, orderId, dto, rest).state;
            Orders.RemoveItem(added, orderId, s.nextId, rest)
              == Result(s.(nextId := s.nextId + 1), Done(orderId))
  {
    var line := AddedRow(s, orderId, dto, rest);
    var o := s.orders[orderId];
    var edited := Orders.Recalculated(s.config, o.(items := o.items + [line]));
    var added := s.(orders := s.orders[orderId := edited], nextId := s.nextId + 1);
    RemovedLast(added, orderId, o.items, line, rest);
    RestoredOrder(s.config, o, edited);
    WrittenBack(s.orders, orderId, edited);
  }

  lemma WrittenBack(orders: seq<Order>, i: nat, edited: Order)
    requires i < |orders|
    ensures orders[i := edited][i := orders[i]] == orders
  {
  }

  /** Two rows that differ in lines and computed money only are the same once they have the same lines. */
  lemma RestoredOrder(config: Config, o: Order, edited: Order)
    requires Orders.Balanced(config, o)
    requires edited == o.(items := edited.items, subtotalCents := edited.subtotalCents,
                          taxCents := edited.taxCents, totalCents := edited.totalCents)
    ensures Orders.Recalculated(config, edited.(items := o.items)) == o
  {
  }

  /** Setting a quantity back gives back every order exactly as it was. */
  lemma QuantityThenBack(s: State, orderId: nat, k: nat, quantity: Orders.Positive, rest: Rest)
    requires Reachable(s) && Orders.Owns(s, orderId, rest) && IsEditable(s.orders[orderId].status)
    requires k < |s.orders[orderId].items|
    ensures var line := s.orders[orderId].items[k];
            && line.quantity > 0
            && var changed := Orders.UpdateItemQuantity(s, orderId, line.id, Some(quantity), rest).state;
            Orders.UpdateItemQuantity(changed, orderId, line.id, Some(line.quantity), rest) == Result(s, Done(orderId))
  {
    ReachableLines(s);
    OrderLife.ReachableBalanced(s);
    var o := s.orders[orderId];
    assert WellNumbered(o.items, s.nextId) && Orders.Balanced(s.config, o);
    var line := o.items[k];
    assert Orders.LineAgrees(line);
    FindsTheLine(o.items, k);
    var changed := Orders.UpdateItemQuantity(s, orderId, line.id, Some(quantity), rest).state;
    var items := changed.orders[orderId].items;
    assert items == o.items[k := Orders.Requantified(line, quantity)];
    FindsTheLine(items, k);
    assert items[k := Orders.Requantified(items[k], line.quantity)] == o.items;
    BalancedIsRecalculated(s.config, o);
    WrittenBack(s.orders, orderId, changed.orders[orderId]);
  }
}
