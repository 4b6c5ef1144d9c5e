/** Orders: the calls of src/orders/orders.service.ts. */
module Orders {
  import opened Basics
  import opened OrderStatus
  import opened Store
  import Modifiers

  type Positive = n: nat | n > 0 witness 1
  type Percent = n: nat | n <= 100

  datatype LineDto = LineDto(menuItemId: Id, quantity: Positive, modifierIds: seq<Id>)

  datatype OrderKind = DineIn(tableId: Id) | Takeaway

  datatype Discount = Fixed(cents: nat) | Percentage(percent: Percent)

  // ---------- Pricing ----------

  predicate Sellable(menu: map<Id, MenuItem>, rest: Rest, id: Id) {
    id in menu && menu[id].rest == rest && menu[id].available
  }

  /** A line's own arithmetic: its delta sums its snapshot, its total prices its quantity. */
  predicate LineAgrees(line: Line) {
    && line.modifierDeltaCents == Modifiers.SumDeltas(line.modifiers)
    && line.lineTotalCents == (line.priceCents + line.modifierDeltaCents) * line.quantity
  }

  predicate LinesAgree(items: seq<Line>) {
    forall i :: 0 <= i < |items| ==> LineAgrees(items[i])
  }

  /** An order's money columns agree with its lines, the tax rate and its discount. */
  predicate Balanced(config: Config, o: Order) {
    && LinesAgree(o.items)
    && o.subtotalCents == Subtotal(o.items)
    && o.taxCents == Tax(config.taxRate, o.subtotalCents)
    && o.totalCents == Max(0, o.subtotalCents + o.taxCents - o.discountCents)
  }

  /** A priced line, or nothing when the modifier selection is refused. */
  function PriceLine(item: MenuItem, dto: LineDto, id: Id): (line: Option<Line>)
    ensures line.Some? ==> LineAgrees(line.value) && line.value.menuItemId == dto.menuItemId
  {
    match Modifiers.Resolve(item.groups, dto.modifierIds)
    case Refused(_) => None
    case Accepted(r) =>
      Some(Line(id, dto.menuItemId, item.priceCents, dto.quantity, r.selections, r.deltaCentsPerUnit,
                (item.priceCents + r.deltaCentsPerUnit) * dto.quantity))
  }

  /** A line of a create request: priced if its menu item is on sale. */
  function PriceOne(menu: map<Id, MenuItem>, rest: Rest, dto: LineDto, id: Id): Option<Line> {
    if Sellable(menu, rest, dto.menuItemId) then PriceLine(menu[dto.menuItemId], dto, id) else None
  }

  /** All lines priced in order, or nothing as soon as one cannot be. */
  function PriceAll(menu: map<Id, MenuItem>, rest: Rest, dtos: seq<LineDto>, firstId: Id): Option<seq<Line>> {
    if dtos == [] then Some([]) else
    var n := |dtos| - 1;
    var front := PriceAll(menu, rest, dtos[..n], firstId);
    var last := PriceOne(menu, rest, dtos[n], firstId + n);
    if front.None? || last.None? then None else Some(front.value + [last.value])
  }

  /** Priced lines agree with their snapshots and name menu items on sale. */
  lemma {:induction false} PricedLines(menu: map<Id, MenuItem>, rest: Rest, dtos: seq<LineDto>, firstId: Id)
    ensures var lines := PriceAll(menu, rest, dtos, firstId);
            lines.Some? ==>
              && |lines.value| == |dtos| && LinesAgree(lines.value)
              && forall i :: 0 <= i < |lines.value| ==>
                   lines.value[i].menuItemId == dtos[i].menuItemId && Sellable(menu, rest, lines.value[i].menuItemId)
  {
    if dtos != [] {
      PricedLines(menu, rest, dtos[..|dtos| - 1], firstId);
    }
  }

  function Subtotal(items: seq<Line>): int {
    if items == [] then 0 else Subtotal(items[..|items| - 1]) + items[|items| - 1].lineTotalCents
  }

  function Tax(rate: Rate, subtotal: int): int {
    RoundRatio(subtotal * rate.num, rate.den)
  }

  /** recalculateTotals: the money columns recomputed from the lines and the stored discount. */
  function Recalculated(config: Config, o: Order): (r: Order)
    ensures LinesAgree(o.items) ==> Balanced(config, r)
  {
    var subtotal := Subtotal(o.items);
    var tax := Tax(config.taxRate, subtotal);
    o.(subtotalCents := subtotal, taxCents := tax, totalCents := Max(0, subtotal + tax - o.discountCents))
  }

  function DiscountCents(subtotal: int, discount: Discount): int {
    match discount
    case Fixed(cents) => cents
    case Percentage(percent) => subtotal * percent / 100
  }

  // ---------- What each call does ----------

  /** The newest active order of a table. */
  function LatestActive(orders: seq<Order>, tableId: Id, rest: Rest): (found: Option<nat>)
    ensures found.Some? ==> found.value < |orders|
  {
    if orders == [] then None else
    var n := |orders| - 1;
    if orders[n].tableId == Some(tableId) && IsActive(orders[n].status) && orders[n].rest == rest then Some(n)
    else LatestActive(orders[..n], tableId, rest)
  }

  predicate Owns(s: State, orderId: nat, rest: Rest) {
    orderId < |s.orders| && s.orders[orderId].rest == rest
  }

  /** A new DRAFT order row with its totals, its table occupied, and ids handed out to its lines. */
  function Placed(s: State, order: Order, ids: nat): Result {
    Result(s.(orders := s.orders + [Recalculated(s.config, order)],
              tables := if order.tableId.Some? then SetTableStatus(s.tables, order.tableId.value, Occupied)
                        else s.tables,
              nextId := s.nextId + ids),
           Done(|s.orders|))
  }

  function InsertOrder(s: State, tableId: Option<Id>, items: seq<LineDto>, rest: Rest): (r: Result)
    ensures r.reply.Done? ==> r.reply.id < |r.state.orders|
  {
    match PriceAll(s.menu, rest, items, s.nextId)
    case None => Reject(s, BadRequest)
    case Some(lines) => Placed(s, Order(rest, Draft, tableId, lines, 0, 0, 0, 0), |items|)
  }

  function Create(s: State, kind: OrderKind, items: seq<LineDto>, rest: Rest): (r: Result)
    ensures r.reply.Done? ==> r.reply.id < |r.state.orders|
  {
    match kind
    case Takeaway => InsertOrder(s, None, items, rest)
    case DineIn(t) =>
      if t !in s.tables || s.tables[t].rest != rest then Reject(s, NotFound)
      else if s.tables[t].status == Occupied && LatestActive(s.orders, t, rest).Some? then
        Result(s, Done(LatestActive(s.orders, t, rest).value))
      else InsertOrder(s, Some(t), items, rest)
  }

  /** Replaces an order's lines and discount and recomputes its money. */
  function Edit(s: State, orderId: nat, items: seq<Line>, discountCents: int): State
    requires orderId < |s.orders|
  {
    WithOrder(s, orderId, Recalculated(s.config, s.orders[orderId].(items := items, discountCents := discountCents)))
  }

  function AddItem(s: State, orderId: nat, dto: LineDto, rest: Rest): Result {
    if !Owns(s, orderId, rest) then Reject(s, NotFound)
    else if !IsEditable(s.orders[orderId].status) then Reject(s, BadRequest)
    else if !Sellable(s.menu, rest, dto.menuItemId) then Reject(s, NotFound)
    else
      var line := PriceLine(s.menu[dto.menuItemId], dto, s.nextId);
      if line.None? then Reject(s, BadRequest) else
      var o := s.orders[orderId];
      Result(Edit(s, orderId, o.items + [line.value], o.discountCents).(nextId := s.nextId + 1), Done(orderId))
  }

  function FindLine(items: seq<Line>, id: Id): (found: Option<nat>)
    ensures found.Some? ==> found.value < |items| && items[found.value].id == id
  {
    if items == [] then None
    else if items[|items| - 1].id == id then Some(|items| - 1)
    else FindLine(items[..|items| - 1], id)
  }

  function Requantified(line: Line, quantity: nat): (r: Line)
    ensures LineAgrees(line) ==> LineAgrees(r)
  {
    line.(quantity := quantity, lineTotalCents := (line.priceCents + line.modifierDeltaCents) * quantity)
  }

  function UpdateItemQuantity(s: State, orderId: nat, itemId: Id, quantity: Option<Positive>, rest: Rest): Result {
    if !Owns(s, orderId, rest) then Reject(s, NotFound)
    else if !IsEditable(s.orders[orderId].status) then Reject(s, BadRequest)
    else
      var o := s.orders[orderId];
      var at := FindLine(o.items, itemId);
      if at.None? then Reject(s, NotFound) else
      var line := o.items[at.value];
      var effective := if quantity.Some? then quantity.value else line.quantity;
      Result(Edit(s, orderId, o.items[at.value := Requantified(line, effective)], o.discountCents), Done(orderId))
  }

  function RemoveItem(s: State, orderId: nat, itemId: Id, rest: Rest): Result {
    if !Owns(s, orderId, rest) then Reject(s, NotFound)
    else if !IsEditable(s.orders[orderId].status) then Reject(s, BadRequest)
    else
      var o := s.orders[orderId];
      var at := FindLine(o.items, itemId);
      if at.None? then Reject(s, NotFound) else
      Result(Edit(s, orderId, o.items[..at.value] + o.items[at.value + 1..], o.discountCents), Done(orderId))
  }

  function SetStatus(s: State, orderId: nat, status: Status): State
    requires orderId < |s.orders|
  {
    WithOrder(s, orderId, s.orders[orderId].(status := status))
  }

  function ConfirmOrder(s: State, orderId: nat, rest: Rest): Result {
    if !Owns(s, orderId, rest) then Reject(s, NotFound)
    else if s.orders[orderId].items == [] then Reject(s, BadRequest)
    else if !CanTransition(s.orders[orderId].status, Pending) then Reject(s, BadRequest)
    else Result(SetStatus(s, orderId, Pending), Done(orderId))
  }

  function UpdateStatus(s: State, orderId: nat, next: Status, rest: Rest): Result {
    if !Owns(s, orderId, rest) then Reject(s, NotFound)
    else if !CanTransition(s.orders[orderId].status, next) then Reject(s, BadRequest)
    else Result(SetStatus(s, orderId, next), Done(orderId))
  }

  /** markConfirmed: the webhook's silent confirmation. */
  function MarkConfirmed(s: State, orderId: nat): State {
    if orderId >= |s.orders| || !CanTransition(s.orders[orderId].status, Confirmed) then s
    else SetStatus(s, orderId, Confirmed)
  }

  function ApplyDiscount(s: State, orderId: nat, discount: Discount, rest: Rest): Result {
    if !Owns(s, orderId, rest) then Reject(s, NotFound)
    else if !IsEditable(s.orders[orderId].status) then Reject(s, BadRequest)
    else
      var o := s.orders[orderId];
      var subtotal := Subtotal(o.items);
      var resolved := DiscountCents(subtotal, discount);
      if resolved > subtotal then Reject(s, BadRequest)
      else Result(Edit(s, orderId, o.items, resolved), Done(orderId))
  }

  /** Once a line cannot be priced, neither can any longer list. */
  lemma {:induction false} PriceAllStops(menu: map<Id, MenuItem>, rest: Rest, dtos: seq<LineDto>, firstId: Id, i: nat)
    requires i < |dtos| && PriceAll(menu, rest, dtos[..i + 1], firstId) == None
    ensures PriceAll(menu, rest, dtos, firstId) == None
    decreases |dtos|
  {
    if i + 1 == |dtos| {
      assert dtos[..i + 1] == dtos;
    } else {
      var front := dtos[..|dtos| - 1];
      assert front[..i + 1] == dtos[..i + 1];
      PriceAllStops(menu, rest, front, firstId, i);
    }
  }

  /** One more line: priced if it can be, and otherwise the whole list is refused. */
  lemma PriceAllNext(menu: map<Id, MenuItem>, rest: Rest, dtos: seq<LineDto>, firstId: Id, i: nat, lines: seq<Line>)
    requires i < |dtos| && PriceAll(menu, rest, dtos[..i], firstId) == Some(lines)
    ensures match PriceOne(menu, rest, dtos[i], firstId + i)
            case Some(line) => PriceAll(menu, rest, dtos[..i + 1], firstId) == Some(lines + [line])
            case None => PriceAll(menu, rest, dtos, firstId) == None
  {
    assert dtos[..i + 1][..i] == dtos[..i];
    if PriceAll(menu, rest, dtos[..i + 1], firstId).None? {
      PriceAllStops(menu, rest, dtos, firstId, i);
    }
  }
}
