/**
 Orders over whole runs: totals always agree with lines, a status changes at most five times, and what a
 confirmed order holds is frozen.
 */
module OrderLife {
  import opened Basics
  import opened OrderStatus
  import opened Store
  import opened Pos
  import opened Evolution
  import Modifiers
  import Orders

  // ---------- Totals ----------

  predicate AllBalanced(s: State) {
    forall i :: 0 <= i < |s.orders| ==> Orders.Balanced(s.config, s.orders[i])
  }

  lemma BalancedStep(s: State, t: State)
    requires AllBalanced(s) && Evolves(s, t)
    ensures AllBalanced(t)
  {
    forall i | 0 <= i < |t.orders|
      ensures Orders.Balanced(t.config, t.orders[i])
    {
      if i < |s.orders| {
        assert OrderEvolves(s.config, s.orders[i], t.orders[i]);
      }
    }
  }

  lemma {:induction false} AlwaysBalanced(config: Config, calls: seq<Call>)
    ensures AllBalanced(Run(Empty(config), calls))
  {
    if calls != [] {
      var before := Run(Empty(config), calls[..|calls| - 1]);
      AlwaysBalanced(config, calls[..|calls| - 1]);
      StepEvolves(before, calls[|calls| - 1]);
      BalancedStep(before, Run(Empty(config), calls));
    }
  }

  /** The unit delta is what the snapshot adds, the line total the unit price times the quantity. */
  predicate LineIsExact(line: Line) {
    && line.modifierDeltaCents == Sum(line.modifiers, (m: Modifiers.Selection) => m.priceDeltaCents)
    && line.lineTotalCents == (line.priceCents + line.modifierDeltaCents) * line.quantity
  }

  /**
   The subtotal is the sum of the line totals, the tax the nearest cent to the rate of it, halves upward, and the
   total what is left to pay after the discount, or nothing.
   */
  predicate MoneyIsExact(rate: Rate, o: Order) {
    && (forall line :: line in o.items ==> LineIsExact(line))
    && o.subtotalCents == Sum(o.items, (line: Line) => line.lineTotalCents)
    && 2 * rate.den * o.taxCents - rate.den <= 2 * o.subtotalCents * rate.num < 2 * rate.den * o.taxCents + rate.den
    && var due := o.subtotalCents + o.taxCents - o.discountCents;
    o.totalCents == if due < 0 then 0 else due
  }

  lemma {:induction false} SubtotalIsSum(items: seq<Line>)
    ensures Orders.Subtotal(items) == Sum(items, (line: Line) => line.lineTotalCents)
  {
    if items != [] {
      SubtotalIsSum(items[..|items| - 1]);
    }
  }

  lemma {:induction false} DeltaIsSum(selections: seq<Modifiers.Selection>)
    ensures Modifiers.SumDeltas(selections) == Sum(selections, (m: Modifiers.Selection) => m.priceDeltaCents)
  {
    if selections != [] {
      DeltaIsSum(selections[..|selections| - 1]);
    }
  }

  lemma TaxIsNearest(rate: Rate, subtotal: int)
    ensures var tax := Orders.Tax(rate, subtotal);
            2 * rate.den * tax - rate.den <= 2 * subtotal * rate.num < 2 * rate.den * tax + rate.den
  {
    RoundRatioIsNearest(subtotal * rate.num, rate.den);
    assert 2 * (subtotal * rate.num) == 2 * subtotal * rate.num;
  }

  lemma BalancedIsExact(config: Config, o: Order)
    requires Orders.Balanced(config, o)
    ensures MoneyIsExact(config.taxRate, o)
  {
    SubtotalIsSum(o.items);
    TaxIsNearest(config.taxRate, o.subtotalCents);
    forall line | line in o.items
      ensures LineIsExact(line)
    {
      assert Orders.LineAgrees(line);
      DeltaIsSum(line.modifiers);
    }
  }

  /** After any calls, the money columns of every order are exact. */
  lemma TotalsAgree(config: Config, calls: seq<Call>)
    ensures forall o :: o in Run(Empty(config), calls).orders ==> MoneyIsExact(config.taxRate, o)
  {
    AlwaysBalanced(config, calls);
    SameConfig(config, calls);
    forall o | o in Run(Empty(config), calls).orders
      ensures MoneyIsExact(config.taxRate, o)
    {
      BalancedIsExact(config, o);
    }
  }

  lemma {:induction false} SameConfig(config: Config, calls: seq<Call>)
    ensures Run(Empty(config), calls).config == config
  {
    if calls != [] {
      SameConfig(config, calls[..|calls| - 1]);
      StepEvolves(Run(Empty(config), calls[..|calls| - 1]), calls[|calls| - 1]);
    }
  }

  lemma ReachableBalanced(s: State)
    requires Reachable(s)
    ensures AllBalanced(s)
  {
    var config, calls :| s == Run(Empty(config), calls);
    AlwaysBalanced(config, calls);
  }

  /** Editing, repricing or removing menu items and modifiers never touches an order. */
  lemma MenuEditsKeepOrders(s: State, c: MenuCall, r: Rest)
    ensures PerformMenu(s, c, r).state.orders == s.orders
  {
  }

  // ---------- Discounts ----------

  lemma PercentageBound(subtotal: int, percent: Orders.Percent)
    ensures Orders.DiscountCents(subtotal, Orders.Percentage(percent)) > subtotal
       <==> (-subtotal) * (100 - percent) >= 100
  {
    var q := subtotal * percent / 100;
    assert (-subtotal) * (100 - percent) == subtotal * percent - 100 * subtotal;
  }

  /**
   On an order that can be edited, a percentage discount is refused exactly when the subtotal is so negative
   that the discounted part of it reaches a whole cent; a fixed one exactly when it exceeds the subtotal.
   */
  lemma DiscountAccepted(s: State, orderId: nat, discount: Orders.Discount, rest: Rest)
    requires Orders.Owns(s, orderId, rest) && IsEditable(s.orders[orderId].status)
    ensures var subtotal := Orders.Subtotal(s.orders[orderId].items);
            Orders.ApplyDiscount(s, orderId, discount, rest).reply.Done? <==>
              match discount
              case Fixed(cents) => cents <= subtotal
              case Percentage(percent) => (-subtotal) * (100 - percent) < 100
  {
    if discount.Percentage? {
      PercentageBound(Orders.Subtotal(s.orders[orderId].items), discount.percent);
    }
  }

  lemma {:induction false} SubtotalNotNegative(items: seq<Line>)
    requires Orders.LinesAgree(items)
    requires forall i :: 0 <= i < |items| ==> items[i].priceCents + items[i].modifierDeltaCents >= 0
    ensures Orders.Subtotal(items) >= 0
  {
    if items != [] {
      SubtotalNotNegative(items[..|items| - 1]);
      var last := items[|items| - 1];
      assert Orders.LineAgrees(last);
      assert last.lineTotalCents >= 0;
    }
  }

  lemma PercentageOfPositive(subtotal: int, percent: Orders.Percent)
    requires subtotal >= 0
    ensures 0 <= subtotal * percent / 100 <= subtotal
  {
    assert subtotal * percent <= subtotal * 100;
  }

  /**
   With no negative unit price, a percentage discount is never refused, and right after any accepted
   discount the total is exactly subtotal plus tax minus discount: the clamp at zero is not in play.
   */
  lemma DiscountWithoutClamp(s: State, orderId: nat, discount: Orders.Discount, rest: Rest)
    requires Orders.Owns(s, orderId, rest) && IsEditable(s.orders[orderId].status)
    requires Orders.LinesAgree(s.orders[orderId].items)
    requires forall i :: 0 <= i < |s.orders[orderId].items| ==>
               s.orders[orderId].items[i].priceCents + s.orders[orderId].items[i].modifierDeltaCents >= 0
    ensures var r := Orders.ApplyDiscount(s, orderId, discount, rest);
            && (discount.Percentage? ==> r.reply.Done?)
            && (r.reply.Done? ==>
                  var o := r.state.orders[orderId];
                  && 0 <= o.discountCents <= o.subtotalCents && o.taxCents >= 0
                  && o.totalCents == o.subtotalCents + o.taxCents - o.discountCents)
  {
    var subtotal := Orders.Subtotal(s.orders[orderId].items);
    SubtotalNotNegative(s.orders[orderId].items);
    TaxNotNegative(s.config.taxRate, subtotal);
    if discount.Percentage? {
      PercentageOfPositive(subtotal, discount.percent);
    }
  }

  lemma TaxNotNegative(rate: Rate, subtotal: int)
    requires subtotal >= 0
    ensures Orders.Tax(rate, subtotal) >= 0
  {
    assert subtotal * rate.num >= 0;
  }

  // ---------- Life ----------

  /** How often the status of an order changed during a run. */
  ghost function StatusChanges(s: State, calls: seq<Call>, orderId: nat): nat {
    if calls == [] then 0 else
    var before, after := Run(s, calls[..|calls| - 1]), Run(s, calls);
    StatusChanges(s, calls[..|calls| - 1], orderId)
    + if orderId < |before.orders| && orderId < |after.orders|
         && before.orders[orderId].status != after.orders[orderId].status then 1 else 0
  }

  /** Each change raises the rank, so the changes of a whole run are bounded by the rank gained. */
  lemma {:induction false} ChangesRaiseRank(s: State, calls: seq<Call>, orderId: nat)
    requires orderId < |Run(s, calls).orders|
    ensures StatusChanges(s, calls, orderId)
         <= Rank(Run(s, calls).orders[orderId].status)
            - if orderId < |s.orders| then Rank(s.orders[orderId].status) else 0
  {
    if calls != [] {
      var front := calls[..|calls| - 1];
      var before, after := Run(s, front), Run(s, calls);
      StepEvolves(before, calls[|calls| - 1]);
      if orderId < |before.orders| {
        ChangesRaiseRank(s, front, orderId);
        assert OrderEvolves(before.config, before.orders[orderId], after.orders[orderId]);
        if before.orders[orderId].status != after.orders[orderId].status {
          TransitionRaisesRank(before.orders[orderId].status, after.orders[orderId].status);
        }
      } else {
        NotYetThere(s, front, orderId);
      }
    }
  }

  lemma {:induction false} NotYetThere(s: State, calls: seq<Call>, orderId: nat)
    requires orderId >= |Run(s, calls).orders|
    ensures StatusChanges(s, calls, orderId) == 0 && orderId >= |s.orders|
  {
    if calls != [] {
      StepEvolves(Run(s, calls[..|calls| - 1]), calls[|calls| - 1]);
      NotYetThere(s, calls[..|calls| - 1], orderId);
    }
  }

  /** No run, from any state, changes an order's status more than five times. */
  lemma AtMostFiveChanges(s: State, calls: seq<Call>, orderId: nat)
    ensures StatusChanges(s, calls, orderId) <= 5
  {
    if orderId < |Run(s, calls).orders| {
      ChangesRaiseRank(s, calls, orderId);
    } else {
      NotYetThere(s, calls, orderId);
    }
  }

  /** Once an order is past PENDING it stays past it, with the same lines, totals and discount for ever. */
  lemma {:induction false} FrozenForever(s: State, calls: seq<Call>, orderId: nat)
    requires orderId < |s.orders| && !IsEditable(s.orders[orderId].status)
    ensures var t := Run(s, calls);
            && orderId < |t.orders| && !IsEditable(t.orders[orderId].status)
            && t.orders[orderId].rest == s.orders[orderId].rest
            && SameMoney(s.orders[orderId], t.orders[orderId])
  {
    if calls != [] {
      var before, after := Run(s, calls[..|calls| - 1]), Run(s, calls);
      FrozenForever(s, calls[..|calls| - 1], orderId);
      StepEvolves(before, calls[|calls| - 1]);
      assert OrderEvolves(before.config, before.orders[orderId], after.orders[orderId]);
      if before.orders[orderId].status != after.orders[orderId].status {
        TransitionRaisesRank(before.orders[orderId].status, after.orders[orderId].status);
      }
    }
  }
}
