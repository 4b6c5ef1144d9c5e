/** Stock: the calls of src/inventory/inventory.service.ts and the checkout hook that uses them. */
module Inventory {
  import opened Basics
  import opened Store

  type Quantity = q: real | q >= 0.0

  function Clamped(q: real): real {
    if q < 0.0 then 0.0 else q
  }

  /** One adjustment: the full delta is logged, the quantity stops at zero. */
  function Adjusted(item: StockItem, delta: real): StockItem {
    item.(log := item.log + [delta], quantityOnHand := Clamped(item.quantityOnHand + delta))
  }

  function Adjust(s: State, id: Id, delta: real, rest: Rest): Result {
    if id !in s.stock || s.stock[id].rest != rest then Reject(s, NotFound)
    else Result(s.(stock := s.stock[id := Adjusted(s.stock[id], delta)]), Done(id))
  }

  predicate AlreadyLinked(stock: map<Id, StockItem>, menuItemId: Option<Id>) {
    exists id :: id in stock && stock[id].menuItemId == menuItemId
  }

  /** create: the menu item must exist, and at most one stock item may be linked to it. */
  function CreateItem(s: State, quantity: Quantity, menuItemId: Option<Id>, rest: Rest): Result {
    if menuItemId.Some? && (menuItemId.value !in s.menu || AlreadyLinked(s.stock, menuItemId)) then Reject(s, Conflict)
    else Result(s.(stock := s.stock[s.nextId := StockItem(rest, menuItemId, quantity, [], quantity)],
                   nextId := s.nextId + 1),
                Done(s.nextId))
  }

  // ---------- The checkout hook ----------

  predicate IsLinked(item: StockItem, rest: Rest, menuItemId: Id) {
    item.menuItemId == Some(menuItemId) && item.rest == rest
  }

  /** The unique link between stock items and menu items. */
  predicate UniqueLinks(stock: map<Id, StockItem>) {
    forall a, b :: a in stock && b in stock && a != b && stock[a].menuItemId.Some? ==>
      stock[a].menuItemId != stock[b].menuItemId
  }

  function DecrementLine(stock: map<Id, StockItem>, rest: Rest, line: Line): map<Id, StockItem> {
    map id | id in stock ::
      if IsLinked(stock[id], rest, line.menuItemId) then Adjusted(stock[id], -(line.quantity as real)) else stock[id]
  }

  /** With a unique link, decrementing for a line is one adjustment of the item linked to it, if there is one. */
  lemma DecrementLineIsAdjust(stock: map<Id, StockItem>, rest: Rest, line: Line)
    requires UniqueLinks(stock)
    ensures UniqueLinks(DecrementLine(stock, rest, line))
    ensures (exists id :: id in stock && IsLinked(stock[id], rest, line.menuItemId)) ||
            DecrementLine(stock, rest, line) == stock
    ensures forall id :: id in stock && IsLinked(stock[id], rest, line.menuItemId) ==>
              DecrementLine(stock, rest, line) == stock[id := Adjusted(stock[id], -(line.quantity as real))]
  {
  }

  /** decrementInventoryForOrder: the linked stock item of each line in turn goes down by its quantity. */
  function DecrementAll(stock: map<Id, StockItem>, rest: Rest, lines: seq<Line>): map<Id, StockItem> {
    if lines == [] then stock else
    DecrementLine(DecrementAll(stock, rest, lines[..|lines| - 1]), rest, lines[|lines| - 1])
  }

  function Sold(lines: seq<Line>, menuItemId: Id): nat {
    if lines == [] then 0 else
    Sold(lines[..|lines| - 1], menuItemId)
    + if lines[|lines| - 1].menuItemId == menuItemId then lines[|lines| - 1].quantity else 0
  }

  /**
   The whole loop takes the total sold of a linked menu item off once, stopping at zero, and touches no
   other stock item.
   */
  lemma {:induction false} DecrementAllTotals(stock: map<Id, StockItem>, rest: Rest, lines: seq<Line>, id: Id)
    requires id in stock && stock[id].quantityOnHand >= 0.0
    ensures DecrementAll(stock, rest, lines).Keys == stock.Keys
    ensures var item, after := stock[id], DecrementAll(stock, rest, lines)[id];
            && after.rest == item.rest && after.menuItemId == item.menuItemId && after.opening == item.opening
            && (item.menuItemId.Some? && item.rest == rest ==>
                  after.quantityOnHand == Clamped(item.quantityOnHand - Sold(lines, item.menuItemId.value) as real))
            && (!(item.menuItemId.Some? && item.rest == rest) ==> after == item)
            && (item.menuItemId.Some? && Sold(lines, item.menuItemId.value) == 0 ==>
                  after.quantityOnHand == item.quantityOnHand)
  {
    if lines != [] {
      DecrementAllTotals(stock, rest, lines[..|lines| - 1], id);
    }
  }

  /** What is sold of a menu item is the sum of its lines' quantities. */
  lemma {:induction false} SoldIsSum(lines: seq<Line>, menuItemId: Id)
    ensures Sold(lines, menuItemId)
         == Sum(lines, (line: Line) => if line.menuItemId == menuItemId then line.quantity else 0)
  {
    if lines != [] {
      SoldIsSum(lines[..|lines| - 1], menuItemId);
    }
  }

  lemma SoldIgnoresOrder(a: seq<Line>, b: seq<Line>, menuItemId: Id)
    requires multiset(a) == multiset(b)
    ensures Sold(a, menuItemId) == Sold(b, menuItemId)
  {
    SoldIsSum(a, menuItemId);
    SoldIsSum(b, menuItemId);
    SumIgnoresOrder(a, b, (line: Line) => if line.menuItemId == menuItemId then line.quantity else 0);
  }

  /** The order in which the lines are processed does not change any quantity. */
  lemma DecrementIgnoresOrder(stock: map<Id, StockItem>, rest: Rest, a: seq<Line>, b: seq<Line>, id: Id)
    requires multiset(a) == multiset(b) && id in stock && stock[id].quantityOnHand >= 0.0
    ensures id in DecrementAll(stock, rest, a) && id in DecrementAll(stock, rest, b)
    ensures DecrementAll(stock, rest, a)[id].quantityOnHand == DecrementAll(stock, rest, b)[id].quantityOnHand
  {
    DecrementAllTotals(stock, rest, a, id);
    DecrementAllTotals(stock, rest, b, id);
    if stock[id].menuItemId.Some? {
      SoldIgnoresOrder(a, b, stock[id].menuItemId.value);
    }
  }

  // ---------- The ledger ----------

  /** The quantity after replaying logged deltas with the clamp. */
  function Replay(opening: real, log: seq<real>): real {
    if log == [] then opening else Clamped(Replay(opening, log[..|log| - 1]) + log[|log| - 1])
  }

  /** The unclamped ledger balance. */
  function Balance(opening: real, log: seq<real>): real {
    if log == [] then opening else Balance(opening, log[..|log| - 1]) + log[|log| - 1]
  }

  /** `gap` is how far the ledger balance ever fell below zero, and zero if it never did. */
  ghost predicate IsDeepestShortfall(opening: real, log: seq<real>, gap: real) {
    && gap >= 0.0
    && (forall k :: 0 <= k <= |log| ==> gap >= -Balance(opening, log[..k]))
    && (gap == 0.0 || exists k :: 0 <= k <= |log| && gap == -Balance(opening, log[..k]))
  }

  /**
   Reflection: stock on hand is the ledger balance plus the deepest shortfall so far; in particular it is
   never negative and never below the balance.
   */
  lemma {:induction false} ReplayReflects(opening: real, log: seq<real>)
    requires opening >= 0.0
    ensures IsDeepestShortfall(opening, log, Replay(opening, log) - Balance(opening, log))
    ensures Replay(opening, log) >= 0.0
  {
    if log == [] {
      assert log[..0] == log;
    } else {
      var n := |log| - 1;
      var front := log[..n];
      ReplayReflects(opening, front);
      var before := Replay(opening, front) - Balance(opening, front);
      var gap := Replay(opening, log) - Balance(opening, log);
      assert log[..n + 1] == log;
      assert forall k :: 0 <= k <= n ==> front[..k] == log[..k];
      if gap == before {
        if before != 0.0 {
          var k :| 0 <= k <= n && before == -Balance(opening, front[..k]);
          assert gap == -Balance(opening, log[..k]);
        }
      } else {
        assert gap == -Balance(opening, log[..n + 1]);
      }
    }
  }
}
