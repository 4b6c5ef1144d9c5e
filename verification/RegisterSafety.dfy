/**
 The cash register over whole runs: at most one open session per restaurant, closed sessions agree with
 their payments for ever, and the money in all sessions is the money of the orders checked out, once each.
 */
module RegisterSafety {
  import opened Basics
  import opened OrderStatus
  import opened Store
  import opened Pos
  import opened Evolution
  import opened PaymentSafety
  import OrderLife
  import Orders
  import CashRegister

  predicate OneOpenSession(sessions: seq<Session>) {
    forall i, j :: 0 <= i < j < |sessions| && sessions[i].rest == sessions[j].rest ==>
      sessions[i].closing.Some? || sessions[j].closing.Some?
  }

  /** A counter payment names an existing session of its own restaurant. */
  predicate PaymentHasSession(sessions: seq<Session>, p: Payment) {
    p.sessionId.Some? ==> p.sessionId.value < |sessions| && sessions[p.sessionId.value].rest == p.rest
  }

  /** The figures stored at closing are those of the session's payments. */
  predicate SessionAgrees(payments: seq<Payment>, sessions: seq<Session>, i: nat)
    requires i < |sessions|
  {
    sessions[i].closing.Some? ==>
      && sessions[i].closing.value.expectedCents == CashRegister.SessionTotal(payments, i, sessions[i].rest)
      && sessions[i].closing.value.differenceCents
           == sessions[i].closing.value.countedCents - sessions[i].closing.value.expectedCents
  }

  predicate RegisterSound(s: State) {
    && OneOpenSession(s.sessions)
    && (forall i :: 0 <= i < |s.payments| ==> PaymentHasSession(s.sessions, s.payments[i]))
    && (forall i :: 0 <= i < |s.sessions| ==> SessionAgrees(s.payments, s.sessions, i))
  }

  /** Changes to gateway payments do not move any session's total. */
  lemma {:induction false} SessionPaymentsStable(a: seq<Payment>, b: seq<Payment>, sessionId: nat, rest: Rest)
    requires |a| == |b|
    requires forall i :: 0 <= i < |a| ==> PaymentEvolves(a[i], b[i])
    requires forall i :: 0 <= i < |a| && !IsPos(a[i]) ==> a[i].sessionId.None?
    ensures CashRegister.SessionPayments(a, sessionId, rest) == CashRegister.SessionPayments(b, sessionId, rest)
  {
    if a != [] {
      var n := |a| - 1;
      assert PaymentEvolves(a[n], b[n]);
      SessionPaymentsStable(a[..n], b[..n], sessionId, rest);
    }
  }

  /** A closed session's total is the same before and after any step. */
  lemma ClosedTotalStable(s: State, t: State, i: nat)
    requires PaymentsSound(s) && Evolves(s, t)
    requires i < |s.sessions| && s.sessions[i].closing.Some?
    ensures CashRegister.SessionTotal(t.payments, i, s.sessions[i].rest)
         == CashRegister.SessionTotal(s.payments, i, s.sessions[i].rest)
  {
    var n := |s.payments|;
    forall k | 0 <= k < n
      ensures PaymentEvolves(s.payments[k], t.payments[..n][k])
      ensures !IsPos(s.payments[k]) ==> s.payments[k].sessionId.None?
    {
      assert PaymentEvolves(s.payments[k], t.payments[k]);
      assert PaymentSound(s.orders, s.payments[k]);
    }
    SessionPaymentsStable(s.payments, t.payments[..n], i, s.sessions[i].rest);
    if |t.payments| > n {
      var p := t.payments[n];
      assert t.payments[..|t.payments| - 1] == t.payments[..n];
      assert IsIntent(s, p) || IsPosSale(s, t, p);
      assert !CashRegister.Counts(p, i, s.sessions[i].rest);
      var before := CashRegister.SessionPayments(t.payments[..n], i, s.sessions[i].rest);
      assert before + [] == before;
    } else {
      assert t.payments[..n] == t.payments;
    }
  }

  lemma RegisterStep(s: State, t: State)
    requires PaymentsSound(s) && RegisterSound(s) && Evolves(s, t)
    ensures RegisterSound(t)
  {
    forall i | 0 <= i < |t.payments|
      ensures PaymentHasSession(t.sessions, t.payments[i])
    {
      if i < |s.payments| {
        var p := s.payments[i];
        assert PaymentEvolves(p, t.payments[i]) && PaymentHasSession(s.sessions, p);
        if p.sessionId.Some? {
          assert SessionEvolves(s.sessions[p.sessionId.value], t.sessions[p.sessionId.value], p.sessionId.value,
                                s.payments, t.payments);
        }
      }
    }
    forall i | 0 <= i < |t.sessions|
      ensures SessionAgrees(t.payments, t.sessions, i)
    {
      if i < |s.sessions| {
        assert SessionEvolves(s.sessions[i], t.sessions[i], i, s.payments, t.payments);
        assert SessionAgrees(s.payments, s.sessions, i);
        if s.sessions[i].closing.Some? {
          ClosedTotalStable(s, t, i);
        }
      }
    }
    forall i, j | 0 <= i < j < |t.sessions| && t.sessions[i].rest == t.sessions[j].rest
      ensures t.sessions[i].closing.Some? || t.sessions[j].closing.Some?
    {
      assert SessionEvolves(s.sessions[i], t.sessions[i], i, s.payments, t.payments);
      if j < |s.sessions| {
        assert SessionEvolves(s.sessions[j], t.sessions[j], j, s.payments, t.payments);
      }
    }
  }

  lemma {:induction false} AlwaysRegisterSound(config: Config, calls: seq<Call>)
    ensures RegisterSound(Run(Empty(config), calls))
  {
    if calls != [] {
      var before := Run(Empty(config), calls[..|calls| - 1]);
      AlwaysRegisterSound(config, calls[..|calls| - 1]);
      AlwaysSound(config, calls[..|calls| - 1]);
      StepEvolves(before, calls[|calls| - 1]);
      RegisterStep(before, Run(Empty(config), calls));
    }
  }

  lemma ReachableRegister(s: State)
    requires Reachable(s)
    ensures PaymentsSound(s) && RegisterSound(s) && OrderLife.AllBalanced(s)
  {
    var config, calls :| s == Run(Empty(config), calls);
    AlwaysSound(config, calls);
    AlwaysRegisterSound(config, calls);
    OrderLife.AlwaysBalanced(config, calls);
  }

  /** A closed session keeps its row in every later state, and its figures keep agreeing with its payments. */
  lemma {:induction false} ClosedForever(s: State, calls: seq<Call>, i: nat)
    requires Reachable(s) && i < |s.sessions| && s.sessions[i].closing.Some?
    ensures var t := Run(s, calls);
            && i < |t.sessions| && t.sessions[i] == s.sessions[i]
            && t.sessions[i].closing.value.expectedCents == CashRegister.SessionTotal(t.payments, i, t.sessions[i].rest)
    ensures Reachable(Run(s, calls))
  {
    if calls == [] {
      ReachableRegister(s);
      assert SessionAgrees(s.payments, s.sessions, i);
    } else {
      var before, after := Run(s, calls[..|calls| - 1]), Run(s, calls);
      ClosedForever(s, calls[..|calls| - 1], i);
      StepReachable(before, calls[|calls| - 1]);
      StepEvolves(before, calls[|calls| - 1]);
      assert SessionEvolves(before.sessions[i], after.sessions[i], i, before.payments, after.payments);
      ReachableRegister(after);
      assert SessionAgrees(after.payments, after.sessions, i);
    }
  }

  lemma {:induction false} AmountsNotNegative(s: State, payments: seq<Payment>, sessionId: nat, rest: Rest)
    requires OrderLife.AllBalanced(s)
    requires forall i :: 0 <= i < |payments| ==> PaymentSound(s.orders, payments[i])
    ensures forall p :: p in CashRegister.SessionPayments(payments, sessionId, rest) ==> p.amountCents >= 0
  {
    if payments != [] {
      var last := payments[|payments| - 1];
      AmountsNotNegative(s, payments[..|payments| - 1], sessionId, rest);
      assert PaymentSound(s.orders, last);
      assert Orders.Balanced(s.config, s.orders[last.orderId]);
    }
  }

  /**
   In a reachable state the summary of a session adds up by tender to its total sales, which for a closed
   session is the expected amount stored at closing.
   */
  lemma SessionSummaryAgrees(s: State, sessionId: nat, rest: Rest, summary: CashRegister.Summary)
    requires Reachable(s) && sessionId < |s.sessions| && s.sessions[sessionId].rest == rest
    requires CashRegister.IsSummary(CashRegister.SessionPayments(s.payments, sessionId, rest), summary)
    ensures CashRegister.SumReported(summary.byMethod) == summary.totalSalesCents
    ensures s.sessions[sessionId].closing.Some? ==>
              summary.totalSalesCents == s.sessions[sessionId].closing.value.expectedCents
  {
    ReachableRegister(s);
    AmountsNotNegative(s, s.payments, sessionId, rest);
    assert SessionAgrees(s.payments, s.sessions, sessionId);
    var ps := CashRegister.SessionPayments(s.payments, sessionId, rest);
    assert forall i :: 0 <= i < |ps| ==> ps[i] in ps;
    CashRegister.SummaryAddsUp(ps, summary);
    CashRegister.TotalIsSum(ps);
  }

  // ---------- Conservation ----------

  /** The money of all counter payments. */
  function PosTotal(payments: seq<Payment>): int {
    if payments == [] then 0 else
    var last := payments[|payments| - 1];
    PosTotal(payments[..|payments| - 1]) + if IsPos(last) then last.amountCents else 0
  }

  /** The money of all sessions together. */
  function Takings(payments: seq<Payment>, sessions: seq<Session>): int {
    if sessions == [] then 0 else
    var n := |sessions| - 1;
    Takings(payments, sessions[..n]) + CashRegister.SessionTotal(payments, n, sessions[n].rest)
  }

  predicate CheckedOut(payments: seq<Payment>, orderId: nat) {
    exists i :: 0 <= i < |payments| && IsPos(payments[i]) && payments[i].orderId == orderId
  }

  /** The totals of the orders with a counter payment, each order counted once. */
  function CheckedOutTotal(payments: seq<Payment>, orders: seq<Order>): int {
    if orders == [] then 0 else
    var n := |orders| - 1;
    CheckedOutTotal(payments, orders[..n]) + if CheckedOut(payments, n) then orders[n].totalCents else 0
  }

  lemma {:induction false} NoPaymentsNoTakings(sessions: seq<Session>)
    ensures Takings([], sessions) == 0
  {
    if sessions != [] {
      NoPaymentsNoTakings(sessions[..|sessions| - 1]);
    }
  }

  lemma SessionTotalMore(payments: seq<Payment>, p: Payment, sessionId: nat, rest: Rest)
    ensures CashRegister.SessionTotal(payments + [p], sessionId, rest)
         == CashRegister.SessionTotal(payments, sessionId, rest)
            + if CashRegister.Counts(p, sessionId, rest) then p.amountCents else 0
  {
    assert (payments + [p])[..|payments|] == payments;
    var ps := CashRegister.SessionPayments(payments, sessionId, rest);
    assert (ps + [p])[..|ps|] == ps && ps + [] == ps;
  }

  /** One more payment adds to exactly the session it names. */
  lemma {:induction false} OneMorePayment(payments: seq<Payment>, p: Payment, sessions: seq<Session>)
    requires p.sessionId.Some? ==> p.status == Succeeded
    requires p.sessionId.Some? && p.sessionId.value < |sessions| ==> sessions[p.sessionId.value].rest == p.rest
    ensures Takings(payments + [p], sessions)
         == Takings(payments, sessions)
            + if p.sessionId.Some? && p.sessionId.value < |sessions| then p.amountCents else 0
  {
    if sessions != [] {
      var n := |sessions| - 1;
      OneMorePayment(payments, p, sessions[..n]);
      SessionTotalMore(payments, p, n, sessions[n].rest);
    }
  }

  lemma {:induction false} TakingsArePosTotal(orders: seq<Order>, payments: seq<Payment>, sessions: seq<Session>)
    requires forall i :: 0 <= i < |payments| ==>
               PaymentSound(orders, payments[i]) && PaymentHasSession(sessions, payments[i])
    ensures Takings(payments, sessions) == PosTotal(payments)
  {
    if payments == [] {
      NoPaymentsNoTakings(sessions);
    } else {
      var front, last := payments[..|payments| - 1], payments[|payments| - 1];
      assert payments == front + [last];
      assert PaymentSound(orders, last) && PaymentHasSession(sessions, last);
      TakingsArePosTotal(orders, front, sessions);
      OneMorePayment(front, last, sessions);
    }
  }

  lemma {:induction false} NothingCheckedOut(orders: seq<Order>)
    ensures CheckedOutTotal([], orders) == 0
  {
    if orders != [] {
      NothingCheckedOut(orders[..|orders| - 1]);
    }
  }

  /** One more counter payment of a new order adds that order's total; any other payment adds nothing. */
  lemma {:induction false} OneMoreCheckedOut(payments: seq<Payment>, p: Payment, orders: seq<Order>)
    requires IsPos(p) ==> !CheckedOut(payments, p.orderId)
    ensures CheckedOutTotal(payments + [p], orders)
         == CheckedOutTotal(payments, orders)
            + if IsPos(p) && p.orderId < |orders| then orders[p.orderId].totalCents else 0
  {
    if orders != [] {
      var n := |orders| - 1;
      OneMoreCheckedOut(payments, p, orders[..n]);
      var longer := payments + [p];
      assert longer[|payments|] == p;
      if CheckedOut(payments, n) {
        var i :| 0 <= i < |payments| && IsPos(payments[i]) && payments[i].orderId == n;
        assert longer[i] == payments[i];
      }
      assert CheckedOut(longer, n) <==> CheckedOut(payments, n) || (IsPos(p) && p.orderId == n);
    }
  }

  lemma {:induction false} PosTotalIsCheckedOut(orders: seq<Order>, payments: seq<Payment>)
    requires forall i :: 0 <= i < |payments| ==> PaymentSound(orders, payments[i])
    requires OnePosPayment(payments)
    ensures PosTotal(payments) == CheckedOutTotal(payments, orders)
  {
    if payments == [] {
      NothingCheckedOut(orders);
    } else {
      var front, last := payments[..|payments| - 1], payments[|payments| - 1];
      assert payments == front + [last];
      assert PaymentSound(orders, last);
      PosTotalIsCheckedOut(orders, front);
      OneMoreCheckedOut(front, last, orders);
    }
  }

  /**
   Conservation: in every reachable state the takings of all sessions together equal the totals of exactly
   the orders checked out at the counter, each counted once.
   */
  lemma RegisterConservation(s: State)
    requires Reachable(s)
    ensures Takings(s.payments, s.sessions) == CheckedOutTotal(s.payments, s.orders)
  {
    ReachableRegister(s);
    TakingsArePosTotal(s.orders, s.payments, s.sessions);
    PosTotalIsCheckedOut(s.orders, s.payments);
  }
}
