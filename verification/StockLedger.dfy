/**
 Stock over whole runs: the quantity on hand always is the replay of the item's log, so never negative and
 never below the ledger balance; and what a checkout takes off stock and writes to the ledger.
 */
module StockLedger {
  import opened Basics
  import opened OrderStatus
  import opened Store
  import opened Pos
  import opened Frames
  import Tenancy
  import Payments
  import Inventory
  import FloorPlan

  /** The quantity on hand is what replaying the logged adjustments from the opening quantity gives. */
  predicate Replays(item: StockItem) {
    item.opening >= 0.0 && item.quantityOnHand == Inventory.Replay(item.opening, item.log)
  }

  predicate AllReplay(stock: map<Id, StockItem>) {
    forall id :: id in stock ==> Replays(stock[id])
  }

  /** An item keeps its owner and opening quantity, and its log only grows. */
  predicate LogGrows(before: StockItem, after: StockItem) {
    after.rest == before.rest && after.opening == before.opening && before.log <= after.log
  }

  predicate LogsGrow(before: map<Id, StockItem>, after: map<Id, StockItem>) {
    forall id :: id in before ==> id in after && LogGrows(before[id], after[id])
  }

  predicate StockSound(stock: map<Id, StockItem>) {
    AllReplay(stock) && Inventory.UniqueLinks(stock)
  }

  /** Stock stays sound and loses no ledger entry. */
  predicate StockEvolves(before: map<Id, StockItem>, after: map<Id, StockItem>) {
    StockSound(after) && LogsGrow(before, after)
  }

  lemma AdjustedReplays(item: StockItem, delta: real)
    requires Replays(item)
    ensures Replays(Inventory.Adjusted(item, delta)) && LogGrows(item, Inventory.Adjusted(item, delta))
  {
    assert (item.log + [delta])[..|item.log|] == item.log;
  }

  lemma AdjustStockSound(s: State, id: Id, delta: real, r: Rest)
    requires StockSound(s.stock)
    ensures StockEvolves(s.stock, Inventory.Adjust(s, id, delta, r).state.stock)
  {
    if id in s.stock {
      AdjustedReplays(s.stock[id], delta);
    }
  }

  lemma CreateStockSound(s: State, quantity: Inventory.Quantity, linkedTo: Option<Id>, r: Rest)
    requires StockSound(s.stock) && s.nextId !in s.stock
    ensures StockEvolves(s.stock, Inventory.CreateItem(s, quantity, linkedTo, r).state.stock)
  {
  }

  lemma RemoveMenuSound(s: State, id: Id, r: Rest)
    requires StockSound(s.stock)
    ensures StockEvolves(s.stock, FloorPlan.RemoveMenuItem(s, id, r).state.stock)
  {
  }

  lemma DecrementLineSound(stock: map<Id, StockItem>, rest: Rest, line: Line)
    requires StockSound(stock)
    ensures StockEvolves(stock, Inventory.DecrementLine(stock, rest, line))
  {
    forall id | id in stock
      ensures Replays(Inventory.DecrementLine(stock, rest, line)[id])
      ensures LogGrows(stock[id], Inventory.DecrementLine(stock, rest, line)[id])
    {
      AdjustedReplays(stock[id], -(line.quantity as real));
    }
  }

  lemma {:induction false} DecrementAllSound(stock: map<Id, StockItem>, rest: Rest, lines: seq<Line>)
    requires StockSound(stock)
    ensures StockEvolves(stock, Inventory.DecrementAll(stock, rest, lines))
  {
    if lines != [] {
      var n := |lines| - 1;
      DecrementAllSound(stock, rest, lines[..n]);
      DecrementLineSound(Inventory.DecrementAll(stock, rest, lines[..n]), rest, lines[n]);
    }
  }

  /** The lines a checkout takes off stock: those of its order if it takes a payment. */
  function SoldLines(s: State, dto: Payments.CheckoutDto, r: Rest): seq<Line> {
    if Payments.TakesPayment(s, dto, r) then s.orders[dto.orderId].items else []
  }

  lemma CheckoutStock(s: State, dto: Payments.CheckoutDto, r: Rest)
    ensures Payments.Checkout(s, dto, r).state.stock == Inventory.DecrementAll(s.stock, r, SoldLines(s, dto, r))
  {
  }

  lemma StockUntouched(stock: map<Id, StockItem>)
    requires StockSound(stock)
    ensures StockEvolves(stock, stock)
  {
  }

  lemma MenuStock(s: State, c: MenuCall, r: Rest)
    requires StockSound(s.stock) && Tenancy.FreshIds(s)
    ensures StockEvolves(s.stock, PerformMenu(s, c, r).state.stock)
  {
    StockUntouched(s.stock);
    match c
    case CreateStock(quantity, linkedTo) => CreateStockSound(s, quantity, linkedTo, r);
    case AdjustStock(id, delta) => AdjustStockSound(s, id, delta, r);
    case RemoveMenuItem(id) => RemoveMenuSound(s, id, r);
    case PutMenuItem(id, price, available, groups) =>
  }

  lemma MoneyStock(s: State, c: MoneyCall, r: Rest)
    requires StockSound(s.stock)
    ensures StockEvolves(s.stock, PerformMoney(s, c, r).state.stock)
  {
    StockUntouched(s.stock);
    match c
    case Checkout(dto) =>
      CheckoutStock(s, dto, r);
      DecrementAllSound(s.stock, r, SoldLines(s, dto, r));
    case CreateIntent(order, intent) => IntentShape(s, order, intent, r);
    case _ => SessionShape(s, c, r);
  }

  lemma FloorKeepsStock(s: State, c: FloorCall, r: Rest)
    ensures PerformFloor(s, c, r).state.stock == s.stock
  {
    if Keeps(c) {
      FloorShape(s, c, r);
    } else {
      RemovalShape(s, c, r);
    }
  }

  /** Every call keeps quantities the replay of their logs, links unique, and every log entry. */
  lemma StepStock(s: State, c: Call)
    requires StockSound(s.stock) && Tenancy.FreshIds(s)
    ensures StockEvolves(s.stock, Step(s, c).stock)
  {
    StockUntouched(s.stock);
    match c
    case OnMenu(r, menu) => MenuStock(s, menu, r);
    case OnFloor(r, floor) => FloorKeepsStock(s, floor, r);
    case PlaceOrder(r, kind, lines) => CreateOrderRows(s, kind, lines, r);
    case EditOrder(r, order, edit) => EditShape(s, order, edit, r);
    case OnMoney(r, money) => MoneyStock(s, money, r);
    case OnBooking(r, booking) => BookingRows(s, booking, r);
    case Webhook(event) => WebhookShape(s, event);
  }

  lemma {:induction false} AlwaysStockSound(config: Config, calls: seq<Call>)
    ensures StockSound(Run(Empty(config), calls).stock)
  {
    if calls != [] {
      AlwaysStockSound(config, calls[..|calls| - 1]);
      Tenancy.AlwaysRefs(config, calls[..|calls| - 1]);
      StepStock(Run(Empty(config), calls[..|calls| - 1]), calls[|calls| - 1]);
    }
  }

  /**
   In every run, stock on hand is the ledger balance plus the deepest shortfall the ledger ever had: it is
   never negative, never below the balance, and at most one stock item hangs on a menu item.
   */
  lemma StockReflectsLedger(config: Config, calls: seq<Call>, id: Id)
    requires id in Run(Empty(config), calls).stock
    ensures var item := Run(Empty(config), calls).stock[id];
            && item.quantityOnHand >= 0.0
            && Inventory.IsDeepestShortfall(item.opening, item.log,
                                            item.quantityOnHand - Inventory.Balance(item.opening, item.log))
    ensures Inventory.UniqueLinks(Run(Empty(config), calls).stock)
  {
    AlwaysStockSound(config, calls);
    var item := Run(Empty(config), calls).stock[id];
    assert Replays(item);
    Inventory.ReplayReflects(item.opening, item.log);
  }

  // ---------- Checkout ----------

  /** The ledger takes the full quantities sold, also where the stock on hand stops at zero. */
  lemma {:induction false} DecrementBalance(stock: map<Id, StockItem>, rest: Rest, lines: seq<Line>, id: Id)
    requires id in stock
    ensures id in Inventory.DecrementAll(stock, rest, lines)
    ensures var before, after := stock[id], Inventory.DecrementAll(stock, rest, lines)[id];
            && after.rest == before.rest && after.menuItemId == before.menuItemId && after.opening == before.opening
            && Inventory.Balance(after.opening, after.log)
               == Inventory.Balance(before.opening, before.log) - TakenOff(before, rest, lines) as real
  {
    if lines != [] {
      var n := |lines| - 1;
      DecrementBalance(stock, rest, lines[..n], id);
      var mid := Inventory.DecrementAll(stock, rest, lines[..n])[id];
      var delta := -(lines[n].quantity as real);
      assert (mid.log + [delta])[..|mid.log|] == mid.log;
    }
  }

  /** What the lines of an order take off a stock item. */
  function TakenOff(item: StockItem, rest: Rest, lines: seq<Line>): nat {
    if item.rest == rest && item.menuItemId.Some? then Inventory.Sold(lines, item.menuItemId.value) else 0
  }

  /**
   A checkout that takes a payment lowers every stock item by what its order sold of the linked menu item,
   stopping at zero, and lowers the ledger balance by the full amount; nothing else moves.
   */
  lemma CheckoutTakesStock(s: State, dto: Payments.CheckoutDto, rest: Rest, id: Id)
    requires StockSound(s.stock) && id in s.stock
    requires |Payments.Checkout(s, dto, rest).state.payments| > |s.payments|
    ensures dto.orderId < |s.orders| && id in Payments.Checkout(s, dto, rest).state.stock
    ensures var before, after := s.stock[id], Payments.Checkout(s, dto, rest).state.stock[id];
            var taken := TakenOff(before, rest, s.orders[dto.orderId].items) as real;
            && after.quantityOnHand == Inventory.Clamped(before.quantityOnHand - taken)
            && Inventory.Balance(after.opening, after.log) == Inventory.Balance(before.opening, before.log) - taken
            && (before.menuItemId.None? || before.rest != rest ==> after == before)
  {
    assert Replays(s.stock[id]);
    Inventory.ReplayReflects(s.stock[id].opening, s.stock[id].log);
    Inventory.DecrementAllTotals(s.stock, rest, s.orders[dto.orderId].items, id);
    DecrementBalance(s.stock, rest, s.orders[dto.orderId].items, id);
  }

  // ---------- Conservation over whole runs ----------

  /** What a call puts on an item by hand. */
  function AdjustedBy(s: State, c: Call, id: Id): real {
    match c
    case OnMenu(r, menu) =>
      if menu.AdjustStock? && menu.stockItem == id && id in s.stock && s.stock[id].rest == r then menu.delta else 0.0
    case _ => 0.0
  }

  /** What a call sells of an item: the quantities of its linked menu item on a checkout that takes a payment. */
  function SoldBy(s: State, c: Call, id: Id): nat {
    match c
    case OnMoney(r, money) =>
      if money.Checkout? && id in s.stock then TakenOff(s.stock[id], r, SoldLines(s, money.checkout, r)) else 0
    case _ => 0
  }

  ghost function AdjustedIn(s: State, calls: seq<Call>, id: Id): real {
    if calls == [] then 0.0 else
    AdjustedIn(s, calls[..|calls| - 1], id) + AdjustedBy(Run(s, calls[..|calls| - 1]), calls[|calls| - 1], id)
  }

  ghost function SoldIn(s: State, calls: seq<Call>, id: Id): nat {
    if calls == [] then 0 else
    SoldIn(s, calls[..|calls| - 1], id) + SoldBy(Run(s, calls[..|calls| - 1]), calls[|calls| - 1], id)
  }

  function LedgerOf(item: StockItem): real {
    Inventory.Balance(item.opening, item.log)
  }

  /** An item's opening quantity and ledger balance. */
  function Account(stock: map<Id, StockItem>, id: Id): Option<(real, real)> {
    if id in stock then Some((stock[id].opening, LedgerOf(stock[id]))) else None
  }

  /** The item's ledger moved by exactly these amounts. */
  predicate LedgerMoves(before: map<Id, StockItem>, after: map<Id, StockItem>, id: Id, adjusted: real, sold: nat)
    requires id in before
  {
    Account(after, id) == Some((before[id].opening, LedgerOf(before[id]) + adjusted - sold as real))
  }

  lemma MenuLedger(s: State, c: MenuCall, r: Rest, id: Id)
    requires id in s.stock && Tenancy.FreshIds(s)
    ensures LedgerMoves(s.stock, PerformMenu(s, c, r).state.stock, id, AdjustedBy(s, OnMenu(r, c), id), 0)
  {
    match c
    case AdjustStock(stockItem, delta) =>
      assert (s.stock[id].log + [delta])[..|s.stock[id].log|] == s.stock[id].log;
    case _ =>
  }

  lemma CheckoutLedger(s: State, dto: Payments.CheckoutDto, r: Rest, id: Id)
    requires id in s.stock
    ensures LedgerMoves(s.stock, Payments.Checkout(s, dto, r).state.stock, id, 0.0,
                        SoldBy(s, OnMoney(r, Checkout(dto)), id))
  {
    CheckoutStock(s, dto, r);
    DecrementBalance(s.stock, r, SoldLines(s, dto, r), id);
  }

  lemma MoneyLedger(s: State, c: MoneyCall, r: Rest, id: Id)
    requires id in s.stock
    ensures LedgerMoves(s.stock, PerformMoney(s, c, r).state.stock, id, 0.0, SoldBy(s, OnMoney(r, c), id))
  {
    match c
    case Checkout(dto) => CheckoutLedger(s, dto, r, id);
    case CreateIntent(order, intent) => IntentShape(s, order, intent, r);
    case _ => SessionShape(s, c, r);
  }

  lemma StepLedger(s: State, c: Call, id: Id)
    requires id in s.stock && Tenancy.FreshIds(s)
    ensures LedgerMoves(s.stock, Step(s, c).stock, id, AdjustedBy(s, c, id), SoldBy(s, c, id))
  {
    match c
    case OnMenu(r, menu) => MenuLedger(s, menu, r, id);
    case OnFloor(r, floor) => FloorKeepsStock(s, floor, r);
    case PlaceOrder(r, kind, lines) => CreateOrderRows(s, kind, lines, r);
    case EditOrder(r, order, edit) => EditShape(s, order, edit, r);
    case OnMoney(r, money) => MoneyLedger(s, money, r, id);
    case OnBooking(r, booking) => BookingRows(s, booking, r);
    case Webhook(event) => WebhookShape(s, event);
  }

  lemma MenuCreates(s: State, c: MenuCall, r: Rest, id: Id)
    requires id !in s.stock && id in PerformMenu(s, c, r).state.stock
    ensures PerformMenu(s, c, r).state.stock[id].log == []
  {
  }

  lemma MoneyCreates(s: State, c: MoneyCall, r: Rest, id: Id)
    requires id !in s.stock
    ensures id !in PerformMoney(s, c, r).state.stock
  {
    match c
    case Checkout(dto) =>
      CheckoutStock(s, dto, r);
      Tenancy.DecrementKeys(s.stock, r, SoldLines(s, dto, r));
    case CreateIntent(order, intent) => IntentShape(s, order, intent, r);
    case _ => SessionShape(s, c, r);
  }

  /** An item appears with an empty log. */
  lemma StepCreates(s: State, c: Call, id: Id)
    requires id !in s.stock && id in Step(s, c).stock
    ensures Step(s, c).stock[id].log == []
  {
    match c
    case OnMenu(r, menu) => MenuCreates(s, menu, r, id);
    case OnFloor(r, floor) => FloorKeepsStock(s, floor, r);
    case PlaceOrder(r, kind, lines) => CreateOrderRows(s, kind, lines, r);
    case EditOrder(r, order, edit) => EditShape(s, order, edit, r);
    case OnMoney(r, money) => MoneyCreates(s, money, r, id);
    case OnBooking(r, booking) => BookingRows(s, booking, r);
    case Webhook(event) => WebhookShape(s, event);
  }

  /** Nothing was adjusted or sold of an item not there yet. */
  lemma {:induction false} NothingBefore(config: Config, calls: seq<Call>, id: Id)
    requires id !in Run(Empty(config), calls).stock
    ensures AdjustedIn(Empty(config), calls, id) == 0.0 && SoldIn(Empty(config), calls, id) == 0
  {
    if calls != [] {
      var before := Run(Empty(config), calls[..|calls| - 1]);
      Tenancy.AlwaysRefs(config, calls[..|calls| - 1]);
      if id in before.stock {
        StepLedger(before, calls[|calls| - 1], id);
      }
      NothingBefore(config, calls[..|calls| - 1], id);
    }
  }

  /**
   Conservation: in every run an item's ledger balance is its opening quantity plus everything adjusted by hand
   minus everything sold of its linked menu item, each checkout by the link the item had at the time.
   */
  lemma {:induction false} LedgerConservation(config: Config, calls: seq<Call>, id: Id)
    requires id in Run(Empty(config), calls).stock
    ensures var item := Run(Empty(config), calls).stock[id];
            LedgerOf(item)
              == item.opening + AdjustedIn(Empty(config), calls, id) - SoldIn(Empty(config), calls, id) as real
  {
    if calls != [] {
      var front, c := calls[..|calls| - 1], calls[|calls| - 1];
      var before := Run(Empty(config), front);
      Tenancy.AlwaysRefs(config, front);
      if id in before.stock {
        LedgerConservation(config, front, id);
        StepLedger(before, c, id);
      } else {
        NothingBefore(config, front, id);
        StepCreates(before, c, id);
      }
    }
  }
}
