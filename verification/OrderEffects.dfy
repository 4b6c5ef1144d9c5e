/**
 What the calls on orders write: each call's answer and the rows it leaves, told by its arguments and the rows
 before it.
 */
module OrderEffects {
  import opened Basics
  import opened OrderStatus
  import opened Store
  import opened Pos
  import opened OrderLife
  import Modifiers
  import Orders
  import OrderLines

  // ---------- Lines ----------

  /** A choice on offer, as the snapshot stores it. */
  ghost predicate IsOffered(groups: seq<Modifiers.Group>, m: Modifiers.Selection) {
    exists g, o :: g in groups && o in g.modifiers && o.available
      && m == Modifiers.Selection(o.id, g.id, g.name, o.name, o.priceDeltaCents)
  }

  /** The named modifiers, each once and on offer, whatever the order they are named in. */
  ghost predicate IsChoice(groups: seq<Modifiers.Group>, ids: seq<Id>, chosen: seq<Modifiers.Selection>) {
    && (forall m :: m in chosen ==> IsOffered(groups, m))
    && multiset(Modifiers.SelectionIds(chosen)) == multiset(ids)
  }

  /** The line a request makes of a menu item: the price of now, the quantity asked for, the modifiers named. */
  ghost predicate IsSnapshot(item: MenuItem, dto: Orders.LineDto, line: Line) {
    && line.menuItemId == dto.menuItemId && line.quantity == dto.quantity && line.priceCents == item.priceCents
    && (Modifiers.UniqueKeys(item.groups) ==> IsChoice(item.groups, dto.modifierIds, line.modifiers))
    && LineIsExact(line)
  }

  /** A line of a request that can be priced: its item is on sale and the modifier selection is accepted. */
  predicate CanBeOrdered(menu: map<Id, MenuItem>, r: Rest, dto: Orders.LineDto) {
    && dto.menuItemId in menu && menu[dto.menuItemId].rest == r && menu[dto.menuItemId].available
    && Modifiers.Resolve(menu[dto.menuItemId].groups, dto.modifierIds).Accepted?
  }

  lemma SelectionIsOffered(groups: seq<Modifiers.Group>, m: Modifiers.Selection, at: nat)
    requires Modifiers.UniqueKeys(groups) && at < |Modifiers.Offers(groups)|
    requires m == Modifiers.SelectionOf(Modifiers.Offers(groups)[at]) && Modifiers.OfferedAvailable(groups, m.id)
    ensures IsOffered(groups, m)
  {
    var offers := Modifiers.Offers(groups);
    var offer :| offer in offers && offer.0.id == m.id && offer.0.available;
    Modifiers.OwnerIsUnique(groups, offer, offers[at]);
    Modifiers.OfferMembership(groups, offer.0, offer.1);
  }

  lemma AcceptedIsChoice(groups: seq<Modifiers.Group>, ids: seq<Id>)
    requires Modifiers.UniqueKeys(groups) && Modifiers.Resolve(groups, ids).Accepted?
    ensures IsChoice(groups, ids, Modifiers.Resolve(groups, ids).resolved.selections)
  {
    var chosen := Modifiers.Resolve(groups, ids).resolved.selections;
    var at := Modifiers.AcceptedSelections(groups, ids);
    Modifiers.AcceptsExactlyValid(groups, ids);
    forall i | 0 <= i < |chosen|
      ensures IsOffered(groups, chosen[i])
    {
      assert Modifiers.SelectionIds(chosen)[i] == chosen[i].id;
      assert chosen[i].id in multiset(Modifiers.SelectionIds(chosen));
      assert chosen[i].id in ids;
      SelectionIsOffered(groups, chosen[i], at[i]);
    }
  }

  lemma PricedIsSnapshot(item: MenuItem, dto: Orders.LineDto, id: Id)
    ensures var line := Orders.PriceLine(item, dto, id);
            if Modifiers.Resolve(item.groups, dto.modifierIds).Accepted?
            then line.Some? && line.value.id == id && IsSnapshot(item, dto, line.value)
            else line.None?
  {
    var outcome := Modifiers.Resolve(item.groups, dto.modifierIds);
    if outcome.Accepted? {
      DeltaIsSum(outcome.resolved.selections);
      if Modifiers.UniqueKeys(item.groups) {
        AcceptedIsChoice(item.groups, dto.modifierIds);
      }
    }
  }

  /** The lines of a request, one snapshot each, with consecutive ids. */
  ghost predicate AreSnapshots(
    menu: map<Id, MenuItem>, dtos: seq<Orders.LineDto>, firstId: Id, lines: seq<Line>)
  {
    && |lines| == |dtos|
    && forall i :: 0 <= i < |dtos| ==>
         && dtos[i].menuItemId in menu && lines[i].id == firstId + i
         && IsSnapshot(menu[dtos[i].menuItemId], dtos[i], lines[i])
  }

  lemma OneMoreSnapshot(
    menu: map<Id, MenuItem>, dtos: seq<Orders.LineDto>, firstId: Id, lines: seq<Line>, dto: Orders.LineDto, line: Line)
    requires AreSnapshots(menu, dtos, firstId, lines)
    requires dto.menuItemId in menu && IsSnapshot(menu[dto.menuItemId], dto, line) && line.id == firstId + |dtos|
    ensures AreSnapshots(menu, dtos + [dto], firstId, lines + [line])
  {
  }

  predicate AllCanBeOrdered(menu: map<Id, MenuItem>, r: Rest, dtos: seq<Orders.LineDto>) {
    forall i :: 0 <= i < |dtos| ==> CanBeOrdered(menu, r, dtos[i])
  }

  lemma {:induction false} AllPriced(menu: map<Id, MenuItem>, r: Rest, dtos: seq<Orders.LineDto>, firstId: Id)
    ensures var lines := Orders.PriceAll(menu, r, dtos, firstId);
            if AllCanBeOrdered(menu, r, dtos) then lines.Some? && AreSnapshots(menu, dtos, firstId, lines.value)
            else lines.None?
  {
    if dtos != [] {
      var n := |dtos| - 1;
      AllPriced(menu, r, dtos[..n], firstId);
      assert dtos == dtos[..n] + [dtos[n]];
      assert AllCanBeOrdered(menu, r, dtos) <==>
             AllCanBeOrdered(menu, r, dtos[..n]) && CanBeOrdered(menu, r, dtos[n]);
      if dtos[n].menuItemId in menu {
        PricedIsSnapshot(menu[dtos[n].menuItemId], dtos[n], firstId + n);
        if AllCanBeOrdered(menu, r, dtos) {
          OneMoreSnapshot(menu, dtos[..n], firstId, Orders.PriceAll(menu, r, dtos[..n], firstId).value, dtos[n],
                          Orders.PriceLine(menu[dtos[n].menuItemId], dtos[n], firstId + n).value);
        }
      }
    }
  }

  // ---------- Placing an order ----------

  predicate OwnsItsTable(s: State, kind: Orders.OrderKind, r: Rest) {
    kind.DineIn? ==> kind.tableId in s.tables && s.tables[kind.tableId].rest == r
  }

  /** An order the table still shows. */
  predicate ShowsAt(o: Order, tableId: Id, r: Rest) {
    o.tableId == Some(tableId) && o.rest == r && o.status != Completed && o.status != Cancelled
  }

  /** Order i is the newest one an OCCUPIED table shows. */
  predicate IsReopened(s: State, kind: Orders.OrderKind, r: Rest, i: nat) {
    && kind.DineIn? && kind.tableId in s.tables && s.tables[kind.tableId].status == Occupied
    && i < |s.orders| && ShowsAt(s.orders[i], kind.tableId, r)
    && forall j :: i < j < |s.orders| ==> !ShowsAt(s.orders[j], kind.tableId, r)
  }

  lemma {:induction false} NewestShown(orders: seq<Order>, tableId: Id, r: Rest)
    ensures match Orders.LatestActive(orders, tableId, r)
            case None => forall j :: 0 <= j < |orders| ==> !ShowsAt(orders[j], tableId, r)
            case Some(i) => ShowsAt(orders[i], tableId, r)
                            && forall j :: i < j < |orders| ==> !ShowsAt(orders[j], tableId, r)
  {
    if orders != [] {
      NewestShown(orders[..|orders| - 1], tableId, r);
    }
  }

  /** A new order row, DRAFT and with exact money, and its table OCCUPIED; nothing else is written. */
  ghost predicate Opens(s: State, t: State, r: Rest, kind: Orders.OrderKind, lines: seq<Orders.LineDto>) {
    && |t.orders| == |s.orders| + 1
    && var o := t.orders[|s.orders|];
    && o.rest == r && o.status == Draft && o.discountCents == 0 && MoneyIsExact(s.config.taxRate, o)
    && o.tableId == (if kind.DineIn? then Some(kind.tableId) else None)
    && AreSnapshots(s.menu, lines, s.nextId, o.items)
    && t == s.(orders := s.orders + [o], tables := t.tables, nextId := s.nextId + |lines|)
    && t.tables == if kind.DineIn? && kind.tableId in s.tables
                   then s.tables[kind.tableId := s.tables[kind.tableId].(status := Occupied)] else s.tables
  }

  lemma OpensOrder(s: State, r: Rest, kind: Orders.OrderKind, lines: seq<Orders.LineDto>)
    ensures var t := Orders.InsertOrder(s, if kind.DineIn? then Some(kind.tableId) else None, lines, r);
            if AllCanBeOrdered(s.menu, r, lines) then t.reply == Done(|s.orders|) && Opens(s, t.state, r, kind, lines)
            else t == Reject(s, BadRequest)
  {
    AllPriced(s.menu, r, lines, s.nextId);
    Orders.PricedLines(s.menu, r, lines, s.nextId);
    var t := Orders.InsertOrder(s, if kind.DineIn? then Some(kind.tableId) else None, lines, r);
    if t.reply.Done? {
      BalancedIsExact(s.config, t.state.orders[|s.orders|]);
    }
  }

  lemma ReopensNewest(s: State, r: Rest, kind: Orders.OrderKind, lines: seq<Orders.LineDto>, i: nat)
    requires OwnsItsTable(s, kind, r) && IsReopened(s, kind, r, i)
    ensures Orders.Create(s, kind, lines, r) == Result(s, Done(i))
  {
    NewestShown(s.orders, kind.tableId, r);
  }

  lemma InsertsOrder(s: State, r: Rest, kind: Orders.OrderKind, lines: seq<Orders.LineDto>)
    requires OwnsItsTable(s, kind, r) && forall i: nat :: !IsReopened(s, kind, r, i)
    ensures Orders.Create(s, kind, lines, r)
         == Orders.InsertOrder(s, if kind.DineIn? then Some(kind.tableId) else None, lines, r)
  {
    if kind.DineIn? {
      NewestShown(s.orders, kind.tableId, r);
      var found := Orders.LatestActive(s.orders, kind.tableId, r);
      if s.tables[kind.tableId].status == Occupied && found.Some? {
        assert IsReopened(s, kind, r, found.value);
        assert false;
      }
    }
  }

  /**
   Asking for an order: NotFound without the table, the newest order an OCCUPIED table shows, BadRequest when a
   line cannot be ordered, and otherwise a new order with exactly the lines asked for.
   */
  lemma PlacesOrder(s: State, r: Rest, kind: Orders.OrderKind, lines: seq<Orders.LineDto>)
    ensures var t := Perform(s, PlaceOrder(r, kind, lines));
            && (!OwnsItsTable(s, kind, r) ==> t == Reject(s, NotFound))
            && (OwnsItsTable(s, kind, r) ==>
                  && (forall i: nat :: IsReopened(s, kind, r, i) ==> t == Result(s, Done(i)))
                  && ((forall i: nat :: !IsReopened(s, kind, r, i)) ==>
                        if AllCanBeOrdered(s.menu, r, lines)
                        then t.reply == Done(|s.orders|) && Opens(s, t.state, r, kind, lines)
                        else t == Reject(s, BadRequest)))
  {
    if OwnsItsTable(s, kind, r) {
      forall i: nat | IsReopened(s, kind, r, i)
        ensures Orders.Create(s, kind, lines, r) == Result(s, Done(i))
      {
        ReopensNewest(s, r, kind, lines, i);
      }
      if forall i: nat :: !IsReopened(s, kind, r, i) {
        InsertsOrder(s, r, kind, lines);
        OpensOrder(s, r, kind, lines);
      }
    }
  }

  // ---------- Editing an order ----------

  predicate OwnsOrder(s: State, order: nat, r: Rest) {
    order < |s.orders| && s.orders[order].rest == r
  }

  predicate IsOpen(status: Status) {
    status == Draft || status == Pending
  }

  /** One order row is written, in its lines, discount and computed money. */
  predicate Rewrites(s: State, t: State, order: nat, items: seq<Line>, discountCents: int)
    requires order < |s.orders|
  {
    && order < |t.orders|
    && var o, edited := s.orders[order], t.orders[order];
    && t == s.(orders := s.orders[order := edited], nextId := t.nextId)
    && edited == o.(items := items, discountCents := discountCents, subtotalCents := edited.subtotalCents,
                    taxCents := edited.taxCents, totalCents := edited.totalCents)
  }

  /** Edits of the lines or the discount are refused on an order not owned, or past PENDING. */
  lemma EditRefused(s: State, r: Rest, order: nat, edit: EditCall)
    ensures !OwnsOrder(s, order, r) ==> Perform(s, EditOrder(r, order, edit)) == Reject(s, NotFound)
    ensures OwnsOrder(s, order, r) && !IsOpen(s.orders[order].status) && !edit.UpdateStatus? ==>
              Perform(s, EditOrder(r, order, edit)) == Reject(s, BadRequest)
  {
  }

  /** The line AddItem appends, with every earlier line unchanged. */
  lemma AddsLine(s: State, r: Rest, order: nat, dto: Orders.LineDto)
    requires OwnsOrder(s, order, r) && IsOpen(s.orders[order].status)
    ensures var t, o := Perform(s, EditOrder(r, order, AddItem(dto))), s.orders[order];
            if dto.menuItemId !in s.menu || s.menu[dto.menuItemId].rest != r || !s.menu[dto.menuItemId].available
            then t == Reject(s, NotFound)
            else if !CanBeOrdered(s.menu, r, dto) then t == Reject(s, BadRequest)
            else
              && t.reply == Done(order) && t.state.nextId == s.nextId + 1
              && order < |t.state.orders| && |t.state.orders[order].items| == |o.items| + 1
              && var line := t.state.orders[order].items[|o.items|];
              && line.id == s.nextId && IsSnapshot(s.menu[dto.menuItemId], dto, line)
              && Rewrites(s, t.state, order, o.items + [line], o.discountCents)
  {
    if dto.menuItemId in s.menu {
      PricedIsSnapshot(s.menu[dto.menuItemId], dto, s.nextId);
    }
  }

  /** Exactly the named line gets the quantity, or keeps its own when none is asked for. */
  lemma SetsQuantity(s: State, r: Rest, order: nat, k: nat, quantity: Option<Orders.Positive>)
    requires Reachable(s) && OwnsOrder(s, order, r) && IsOpen(s.orders[order].status)
    requires k < |s.orders[order].items|
    ensures var o := s.orders[order];
            var t := Perform(s, EditOrder(r, order, UpdateItemQuantity(o.items[k].id, quantity)));
            && t.reply == Done(order) && t.state.nextId == s.nextId
            && order < |t.state.orders| && |t.state.orders[order].items| == |o.items|
            && var line := t.state.orders[order].items[k];
            && line == o.items[k].(quantity := if quantity.Some? then quantity.value else o.items[k].quantity,
                                   lineTotalCents := line.lineTotalCents)
            && LineIsExact(line)
            && Rewrites(s, t.state, order, o.items[k := line], o.discountCents)
  {
    OrderLines.ReachableLines(s);
    assert OrderLines.WellNumbered(s.orders[order].items, s.nextId);
    OrderLines.FindsTheLine(s.orders[order].items, k);
    ReachableBalanced(s);
    assert Orders.Balanced(s.config, s.orders[order]);
    assert Orders.LineAgrees(s.orders[order].items[k]);
    DeltaIsSum(s.orders[order].items[k].modifiers);
  }

  /** Removing the k-th line leaves the others, in order, and the discount. */
  lemma DropsLine(s: State, r: Rest, order: nat, k: nat)
    requires Reachable(s) && OwnsOrder(s, order, r) && IsOpen(s.orders[order].status)
    requires k < |s.orders[order].items|
    ensures var o := s.orders[order];
            var t := Perform(s, EditOrder(r, order, RemoveItem(o.items[k].id)));
            && t.reply == Done(order) && t.state.nextId == s.nextId
            && Rewrites(s, t.state, order, o.items[..k] + o.items[k + 1..], o.discountCents)
  {
    OrderLines.ReachableLines(s);
    assert OrderLines.WellNumbered(s.orders[order].items, s.nextId);
    OrderLines.FindsTheLine(s.orders[order].items, k);
  }

  /** A line the order does not have cannot be changed or removed. */
  lemma MissingLine(s: State, r: Rest, order: nat, itemId: Id, quantity: Option<Orders.Positive>)
    requires OwnsOrder(s, order, r) && IsOpen(s.orders[order].status)
    requires forall line :: line in s.orders[order].items ==> line.id != itemId
    ensures Perform(s, EditOrder(r, order, UpdateItemQuantity(itemId, quantity))) == Reject(s, NotFound)
    ensures Perform(s, EditOrder(r, order, RemoveItem(itemId))) == Reject(s, NotFound)
  {
    assert Orders.FindLine(s.orders[order].items, itemId).None?;
  }

  /** The discount an order stores: a fixed amount as it is, a percentage of the subtotal rounded down. */
  predicate IsDiscountOf(discount: Orders.Discount, subtotal: int, cents: int) {
    match discount
    case Fixed(fixed) => cents == fixed
    case Percentage(percent) => 100 * cents <= subtotal * percent < 100 * cents + 100
  }

  /** A discount is stored unless it exceeds the subtotal; the lines stay. */
  lemma StoresDiscount(s: State, r: Rest, order: nat, discount: Orders.Discount) returns (cents: int)
    requires OwnsOrder(s, order, r) && IsOpen(s.orders[order].status)
    ensures var t, o := Perform(s, EditOrder(r, order, ApplyDiscount(discount))), s.orders[order];
            var subtotal := Sum(o.items, (line: Line) => line.lineTotalCents);
            && IsDiscountOf(discount, subtotal, cents)
            && if cents > subtotal then t == Reject(s, BadRequest)
               else t.reply == Done(order) && t.state.nextId == s.nextId && Rewrites(s, t.state, order, o.items, cents)
  {
    SubtotalIsSum(s.orders[order].items);
    cents := Orders.DiscountCents(Orders.Subtotal(s.orders[order].items), discount);
  }

  // ---------- The life cycle ----------

  /** The steps of the life cycle. */
  predicate Follows(from: Status, to: Status) {
    || (from == Draft && to == Pending) || (from == Pending && to == Confirmed)
    || (from == Confirmed && to == Preparing) || (from == Preparing && to == Ready)
    || (from == Ready && to == Completed)
    || (to == Cancelled && from != Ready && from != Completed && from != Cancelled)
  }

  /** An order moves along exactly these steps, and to PENDING by confirming it with at least one line. */
  lemma MovesStatus(s: State, r: Rest, order: nat, next: Status)
    requires OwnsOrder(s, order, r)
    ensures var o := s.orders[order];
            && Perform(s, EditOrder(r, order, UpdateStatus(next)))
               == (if Follows(o.status, next) then
                     Result(s.(orders := s.orders[order := o.(status := next)]), Done(order))
                   else Reject(s, BadRequest))
            && Perform(s, EditOrder(r, order, ConfirmOrder))
               == (if o.status == Draft && |o.items| > 0 then
                     Result(s.(orders := s.orders[order := o.(status := Pending)]), Done(order))
                   else Reject(s, BadRequest))
  {
  }
}
