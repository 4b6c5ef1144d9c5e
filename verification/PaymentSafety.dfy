/**
 Payments over whole runs: a counter payment is the one, unchanging payment of a frozen order, a successful
 payment means a confirmed order, and webhooks are idempotent.
 */
module PaymentSafety {
  import opened Basics
  import opened OrderStatus
  import opened Store
  import opened Pos
  import opened Evolution
  import OrderLife
  import Orders
  import Payments
  import CashRegister

  predicate IsPos(p: Payment) {
    p.providerRef.None?
  }

  /** What holds of one payment and its order. */
  predicate PaymentSound(orders: seq<Order>, p: Payment) {
    && p.orderId < |orders| && orders[p.orderId].rest == p.rest
    && orders[p.orderId].status != Draft
    && (p.status == Succeeded ==> !IsEditable(orders[p.orderId].status))
    && (!IsPos(p) ==> p.sessionId.None?)
    && (IsPos(p) ==>
          && p.status == Succeeded && p.sessionId.Some?
          && p.amountCents == orders[p.orderId].totalCents
          && p.changeCents == Max(0, p.paidCents - p.amountCents)
          && (p.tender == Cash ==> p.paidCents == p.amountCents + p.changeCents))
  }

  predicate OnePosPayment(payments: seq<Payment>) {
    forall i, j :: 0 <= i < j < |payments| && IsPos(payments[i]) && IsPos(payments[j]) ==>
      payments[i].orderId != payments[j].orderId
  }

  predicate PaymentsSound(s: State) {
    && (forall i :: 0 <= i < |s.payments| ==> PaymentSound(s.orders, s.payments[i]))
    && OnePosPayment(s.payments)
  }

  lemma SoundWhileOrderEvolves(config: Config, orders: seq<Order>, later: seq<Order>, p: Payment)
    requires PaymentSound(orders, p) && OrdersEvolve(config, orders, later)
    ensures PaymentSound(later, p)
  {
    var a, b := orders[p.orderId], later[p.orderId];
    assert OrderEvolves(config, a, b);
    if a.status != b.status {
      TransitionRaisesRank(a.status, b.status);
    }
  }

  lemma SoundStep(s: State, t: State)
    requires PaymentsSound(s) && Evolves(s, t)
    ensures PaymentsSound(t)
  {
    forall i | 0 <= i < |t.payments|
      ensures PaymentSound(t.orders, t.payments[i])
    {
      if i < |s.payments| {
        SoundWhileOrderEvolves(s.config, s.orders, t.orders, s.payments[i]);
        assert PaymentEvolves(s.payments[i], t.payments[i]);
        assert ConfirmsOrder(s.payments[i], t.payments[i], t.orders);
      } else {
        var p := t.payments[i];
        assert OrderEvolves(s.config, s.orders[p.orderId], t.orders[p.orderId]);
      }
    }
    forall i, j | 0 <= i < j < |t.payments| && IsPos(t.payments[i]) && IsPos(t.payments[j])
      ensures t.payments[i].orderId != t.payments[j].orderId
    {
      assert PaymentEvolves(s.payments[i], t.payments[i]);
      if j < |s.payments| {
        assert PaymentEvolves(s.payments[j], t.payments[j]);
      } else {
        assert PaymentSound(s.orders, s.payments[i]);
        assert IsPosSale(s, t, t.payments[j]);
      }
    }
  }

  /** In every run: each order has at most one counter payment, and every payment is sound. */
  lemma {:induction false} AlwaysSound(config: Config, calls: seq<Call>)
    ensures PaymentsSound(Run(Empty(config), calls))
  {
    if calls != [] {
      var before := Run(Empty(config), calls[..|calls| - 1]);
      AlwaysSound(config, calls[..|calls| - 1]);
      StepEvolves(before, calls[|calls| - 1]);
      SoundStep(before, Run(Empty(config), calls));
    }
  }

  lemma ReachableSound(s: State)
    requires Reachable(s)
    ensures PaymentsSound(s)
  {
    var config, calls :| s == Run(Empty(config), calls);
    AlwaysSound(config, calls);
  }

  /** A counter payment row never changes, and always equals its order's total. */
  lemma {:induction false} PosPaymentForever(s: State, calls: seq<Call>, i: nat)
    requires PaymentsSound(s) && i < |s.payments| && IsPos(s.payments[i])
    ensures var t := Run(s, calls);
            && i < |t.payments| && t.payments[i] == s.payments[i]
            && t.payments[i].orderId < |t.orders|
            && t.orders[t.payments[i].orderId].totalCents == t.payments[i].amountCents
  {
    assert PaymentSound(s.orders, s.payments[i]);
    if calls != [] {
      var before, after := Run(s, calls[..|calls| - 1]), Run(s, calls);
      PosPaymentForever(s, calls[..|calls| - 1], i);
      StepEvolves(before, calls[|calls| - 1]);
      assert PaymentEvolves(before.payments[i], after.payments[i]);
    }
    OrderLife.FrozenForever(s, calls, s.payments[i].orderId);
  }

  /** In every reachable state a PENDING order has no successful payment: checkout never returns early. */
  lemma NoEarlyReturn(s: State, dto: Payments.CheckoutDto, rest: Rest)
    requires Reachable(s)
    requires Orders.Owns(s, dto.orderId, rest) && s.orders[dto.orderId].status == Pending
    ensures Payments.FindSucceeded(s.payments, dto.orderId, rest) == None
  {
    ReachableSound(s);
    var found := Payments.FindSucceeded(s.payments, dto.orderId, rest);
    assert found.Some? ==> PaymentSound(s.orders, s.payments[found.value]);
  }

  /**
   In a reachable state a checkout takes a payment exactly when the caller's order is PENDING, a register
   session is open, and cash covers the total; it then is the order's only successful payment.
   */
  lemma CheckoutTakesPayment(s: State, dto: Payments.CheckoutDto, rest: Rest)
    requires Reachable(s)
    ensures var t := Payments.Checkout(s, dto, rest).state;
            && (|t.payments| > |s.payments| <==>
                  && Orders.Owns(s, dto.orderId, rest) && s.orders[dto.orderId].status == Pending
                  && CashRegister.FindOpen(s.sessions, rest).Some?
                  && (dto.tender == Cash ==> dto.amountPaidCents >= s.orders[dto.orderId].totalCents))
            && (|t.payments| <= |s.payments| ==> t == s)
            && (|t.payments| > |s.payments| ==>
                  && t.payments[..|s.payments|] == s.payments && |t.payments| == |s.payments| + 1
                  && IsPosSale(s, t, t.payments[|s.payments|]) && t.payments[|s.payments|].orderId == dto.orderId
                  && NoneSucceeded(s.payments, dto.orderId))
  {
    var t := Payments.Checkout(s, dto, rest).state;
    if Orders.Owns(s, dto.orderId, rest) && s.orders[dto.orderId].status == Pending {
      NoEarlyReturn(s, dto, rest);
      PendingIsUnpaid(s, dto.orderId);
      if |t.payments| > |s.payments| {
        CheckoutEvolves(s, dto, rest);
      }
    }
  }

  predicate NoneSucceeded(payments: seq<Payment>, orderId: nat) {
    forall i :: 0 <= i < |payments| && payments[i].orderId == orderId ==> payments[i].status != Succeeded
  }

  lemma PendingIsUnpaid(s: State, orderId: nat)
    requires Reachable(s) && orderId < |s.orders| && s.orders[orderId].status == Pending
    ensures NoneSucceeded(s.payments, orderId)
  {
    ReachableSound(s);
    forall i | 0 <= i < |s.payments| && s.payments[i].orderId == orderId
      ensures s.payments[i].status != Succeeded
    {
      assert PaymentSound(s.orders, s.payments[i]);
    }
  }

  // ---------- Webhooks ----------

  /** Delivering the same event twice in a row is delivering it once. */
  lemma WebhookTwice(s: State, event: Payments.Event)
    ensures Payments.Webhook(Payments.Webhook(s, event), event) == Payments.Webhook(s, event)
  {
    var t := Payments.Webhook(s, event);
    var found := Payments.PaymentFor(s.payments, event);
    if event.kind != Payments.OtherKind && found.Some? {
      var p := s.payments[found.value];
      var q := t.payments[found.value];
      assert t.payments == s.payments[found.value := q];
      FindByRefStable(s.payments, found.value, q, event.intent.value);
    }
  }

  /** Rewriting a row without its reference does not change where the reference is found. */
  lemma {:induction false} FindByRefStable(payments: seq<Payment>, i: nat, p: Payment, ref: nat)
    requires i < |payments| && p.providerRef == payments[i].providerRef
    ensures Payments.FindByRef(payments[i := p], ref) == Payments.FindByRef(payments, ref)
  {
    var n := |payments| - 1;
    if payments[n].providerRef != Some(ref) {
      if i < n {
        assert payments[i := p][..n] == payments[..n][i := p];
        FindByRefStable(payments[..n], i, p, ref);
      } else {
        assert payments[i := p][..n] == payments[..n];
      }
    }
  }

  /** An event changes nothing exactly when it is ignored: another kind, no payment, or its last event again. */
  lemma WebhookIgnores(s: State, event: Payments.Event)
    ensures Payments.Webhook(s, event) == s <==>
              || event.kind == Payments.OtherKind
              || event.intent.None?
              || Payments.FindByRef(s.payments, event.intent.value).None?
              || s.payments[Payments.FindByRef(s.payments, event.intent.value).value].lastEventId == Some(event.id)
  {
    var found := Payments.PaymentFor(s.payments, event);
    if event.kind != Payments.OtherKind && found.Some? {
      assert Payments.Webhook(s, event).payments[found.value].lastEventId == Some(event.id);
    }
  }

  /**
   Only the last event is remembered: redelivering an event after another one for the same payment is
   processed again, and here turns a failed payment back into a successful one.
   */
  lemma LateRedeliveryIsProcessed(s: State, i: nat, first: Payments.Event, second: Payments.Event)
    requires i < |s.payments| && first.intent.Some? && second.intent == first.intent
    requires Payments.FindByRef(s.payments, first.intent.value) == Some(i)
    requires s.payments[i].lastEventId.None? && first.id != second.id
    requires first.kind == Payments.IntentSucceeded && second.kind == Payments.IntentFailed
    ensures var both := Payments.Webhook(Payments.Webhook(s, first), second);
            && i < |both.payments| && both.payments[i].status == Failed
            && i < |Payments.Webhook(both, first).payments|
            && Payments.Webhook(both, first).payments[i].status == Succeeded
  {
    var one := Payments.Webhook(s, first);
    ProcessedRow(s, i, first);
    FindByRefStable(s.payments, i, one.payments[i], first.intent.value);
    var two := Payments.Webhook(one, second);
    ProcessedRow(one, i, second);
    FindByRefStable(one.payments, i, two.payments[i], first.intent.value);
    ProcessedRow(two, i, first);
  }

  /** What processing an event writes to its payment. */
  lemma ProcessedRow(s: State, i: nat, event: Payments.Event)
    requires i < |s.payments| && event.intent.Some? && event.kind != Payments.OtherKind
    requires Payments.FindByRef(s.payments, event.intent.value) == Some(i)
    requires s.payments[i].lastEventId != Some(event.id)
    ensures var status := if event.kind == Payments.IntentFailed then Failed else Succeeded;
            Payments.Webhook(s, event).payments
              == s.payments[i := s.payments[i].(status := status, lastEventId := Some(event.id))]
  {
  }

  /** A webhook touches the status of orders only by moving one from PENDING to CONFIRMED. */
  lemma WebhookOnlyConfirms(s: State, event: Payments.Event)
    ensures var t := Payments.Webhook(s, event);
            && |t.orders| == |s.orders|
            && forall i :: 0 <= i < |s.orders| && t.orders[i] != s.orders[i] ==>
                 s.orders[i].status == Pending && t.orders[i] == s.orders[i].(status := Confirmed)
  {
    var found := Payments.PaymentFor(s.payments, event);
    if event.kind == Payments.IntentSucceeded && found.Some? {
      var orderId := s.payments[found.value].orderId;
      if orderId < |s.orders| && CanTransition(s.orders[orderId].status, Confirmed) {
        TransitionRaisesRank(s.orders[orderId].status, Confirmed);
      }
    }
  }
}
