/**
 What the calls on register sessions and payments write: each call's answer and the rows it leaves, told by its
 arguments and the rows before it.
 */
module MoneyEffects {
  import opened Basics
  import opened OrderStatus
  import opened Store
  import opened Pos
  import opened Evolution
  import opened OrderEffects
  import PaymentSafety
  import RegisterSafety
  import Payments
  import CashRegister

  // ---------- Register sessions ----------

  predicate IsOpenSession(s: State, i: nat, r: Rest) {
    i < |s.sessions| && s.sessions[i].rest == r && s.sessions[i].closing.None?
  }

  lemma {:induction false} TotalIsTaken(payments: seq<Payment>, i: nat, r: Rest)
    ensures CashRegister.SessionTotal(payments, i, r) == Sum(payments, (p: Payment) =>
              if p.sessionId == Some(i) && p.status == Succeeded && p.rest == r then p.amountCents else 0)
  {
    if payments != [] {
      var front, last := payments[..|payments| - 1], payments[|payments| - 1];
      TotalIsTaken(front, i, r);
      assert payments == front + [last];
      RegisterSafety.SessionTotalMore(front, last, i, r);
    }
  }

  /** A session opens with the float asked for, unless the restaurant has one open. */
  lemma OpensSession(s: State, r: Rest, openingFloatCents: nat)
    ensures Perform(s, OnMoney(r, OpenSession(openingFloatCents)))
         == if exists i: nat :: IsOpenSession(s, i, r) then Reject(s, BadRequest)
            else Result(s.(sessions := s.sessions + [Session(r, openingFloatCents, None)]), Done(|s.sessions|))
  {
    var found := CashRegister.FindOpen(s.sessions, r);
    assert found.Some? ==> IsOpenSession(s, found.value, r);
  }

  lemma OnlyOpenSession(s: State, r: Rest, i: nat)
    requires Reachable(s) && IsOpenSession(s, i, r)
    ensures CashRegister.FindOpen(s.sessions, r) == Some(i)
  {
    RegisterSafety.ReachableRegister(s);
    assert s.sessions[i].closing.None?;
  }

  /** The open session is closed with what its payments took, the amount counted, and the difference. */
  lemma ClosesSession(s: State, r: Rest, countedCents: nat, i: nat)
    requires Reachable(s) && IsOpenSession(s, i, r)
    ensures var taken := Sum(s.payments, (p: Payment) =>
              if p.sessionId == Some(i) && p.status == Succeeded && p.rest == r then p.amountCents else 0);
            var closing := Closing(taken, countedCents, countedCents - taken);
            Perform(s, OnMoney(r, CloseSession(countedCents)))
              == Result(s.(sessions := s.sessions[i := Session(r, s.sessions[i].openingFloatCents, Some(closing))]),
                        Done(i))
  {
    OnlyOpenSession(s, r, i);
    TotalIsTaken(s.payments, i, r);
  }

  lemma NothingToClose(s: State, r: Rest, countedCents: nat)
    requires forall i: nat :: !IsOpenSession(s, i, r)
    ensures Perform(s, OnMoney(r, CloseSession(countedCents))) == Reject(s, BadRequest)
  {
    var found := CashRegister.FindOpen(s.sessions, r);
    assert found.Some? ==> IsOpenSession(s, found.value, r);
  }

  // ---------- Checkout ----------

  /** What a checkout is refused for, on an order of the caller's. */
  ghost predicate CanBePaid(s: State, r: Rest, dto: Payments.CheckoutDto)
    requires dto.orderId < |s.orders|
  {
    && s.orders[dto.orderId].status == Pending && (exists i: nat :: IsOpenSession(s, i, r))
    && (dto.tender == Cash ==> dto.amountPaidCents >= s.orders[dto.orderId].totalCents)
  }

  /** The payment a checkout records: by the tender and the amount handed over, on the open session. */
  predicate IsTaken(s: State, r: Rest, dto: Payments.CheckoutDto, p: Payment)
    requires dto.orderId < |s.orders|
  {
    var total := s.orders[dto.orderId].totalCents;
    && p.rest == r && p.orderId == dto.orderId && p.tender == dto.tender && p.status == Succeeded
    && p.amountCents == total && p.paidCents == dto.amountPaidCents
    && p.changeCents == (if dto.amountPaidCents >= total then dto.amountPaidCents - total else 0)
    && p.providerRef.None? && p.lastEventId.None?
    && p.sessionId.Some? && IsOpenSession(s, p.sessionId.value, r)
  }

  /**
   In a reachable state a checkout that is not refused appends exactly the payment it was asked to take, confirms
   the order and frees its table.
   */
  lemma TakesPayment(s: State, r: Rest, dto: Payments.CheckoutDto)
    requires Reachable(s)
    ensures var t := Perform(s, OnMoney(r, Checkout(dto)));
            if !OwnsOrder(s, dto.orderId, r) then t == Reject(s, NotFound)
            else if !CanBePaid(s, r, dto) then t == Reject(s, BadRequest)
            else
              && t.reply == Done(|s.payments|) && |t.state.payments| == |s.payments| + 1
              && var o, p := s.orders[dto.orderId], t.state.payments[|s.payments|];
              && IsTaken(s, r, dto, p)
              && t.state == s.(
                orders := s.orders[dto.orderId := o.(status := Confirmed)],
                tables := (if o.tableId.Some? && o.tableId.value in s.tables then
                             s.tables[o.tableId.value := s.tables[o.tableId.value].(status := Available)]
                           else s.tables),
                payments := s.payments + [p],
                stock := t.state.stock)
  {
    var found := CashRegister.FindOpen(s.sessions, r);
    assert found.Some? ==> IsOpenSession(s, found.value, r);
    if OwnsOrder(s, dto.orderId, r) && s.orders[dto.orderId].status == Pending {
      PaymentSafety.NoEarlyReturn(s, dto, r);
    }
  }

  // ---------- Gateway payments ----------

  predicate UniqueRefs(payments: seq<Payment>) {
    forall i, j :: 0 <= i < j < |payments| && payments[i].providerRef.Some? ==>
      payments[i].providerRef != payments[j].providerRef
  }

  lemma RefsStep(s: State, t: State)
    requires UniqueRefs(s.payments) && Evolves(s, t)
    ensures UniqueRefs(t.payments)
  {
    forall i, j | 0 <= i < j < |t.payments| && t.payments[i].providerRef.Some?
      ensures t.payments[i].providerRef != t.payments[j].providerRef
    {
      assert PaymentEvolves(s.payments[i], t.payments[i]);
      if j < |s.payments| {
        assert PaymentEvolves(s.payments[j], t.payments[j]);
      } else {
        assert IsIntent(s, t.payments[j]) || IsPosSale(s, t, t.payments[j]);
      }
    }
  }

  /** In every run a gateway reference names at most one payment. */
  lemma {:induction false} RefsAlwaysUnique(config: Config, calls: seq<Call>)
    ensures UniqueRefs(Run(Empty(config), calls).payments)
  {
    if calls != [] {
      var before := Run(Empty(config), calls[..|calls| - 1]);
      RefsAlwaysUnique(config, calls[..|calls| - 1]);
      StepEvolves(before, calls[|calls| - 1]);
      RefsStep(before, Run(Empty(config), calls));
    }
  }

  predicate HasRef(s: State, i: nat, ref: nat) {
    i < |s.payments| && s.payments[i].providerRef == Some(ref)
  }

  lemma FoundByRef(s: State, ref: nat, i: nat)
    requires Reachable(s) && HasRef(s, i, ref)
    ensures Payments.FindByRef(s.payments, ref) == Some(i)
  {
    var config, calls :| s == Run(Empty(config), calls);
    RefsAlwaysUnique(config, calls);
    assert s.payments[i].providerRef == Some(ref);
  }

  /** An intent on a PENDING order of the caller's sets the amount of the payment under its reference, or starts one. */
  lemma RecordsIntent(s: State, r: Rest, order: nat, ref: nat)
    requires Reachable(s) && OwnsOrder(s, order, r) && s.orders[order].status == Pending
    ensures var t, total := Perform(s, OnMoney(r, CreateIntent(order, ref))), s.orders[order].totalCents;
            var started := Payment(r, order, Stripe, Some(ref), total, 0, 0, RequiresPayment, None, None);
            && t.reply == Done(ref) && t.state == s.(payments := t.state.payments)
            && (forall i: nat :: HasRef(s, i, ref) ==>
                  t.state.payments == s.payments[i := s.payments[i].(amountCents := total)])
            && ((forall i: nat :: !HasRef(s, i, ref)) ==> t.state.payments == s.payments + [started])
  {
    var found := Payments.FindByRef(s.payments, ref);
    if found.Some? {
      assert HasRef(s, found.value, ref);
    }
    forall i: nat | HasRef(s, i, ref)
      ensures found == Some(i)
    {
      FoundByRef(s, ref, i);
    }
  }

  lemma IntentRefused(s: State, r: Rest, order: nat, ref: nat)
    ensures !OwnsOrder(s, order, r) ==> Perform(s, OnMoney(r, CreateIntent(order, ref))) == Reject(s, NotFound)
    ensures OwnsOrder(s, order, r) && s.orders[order].status != Pending ==>
              Perform(s, OnMoney(r, CreateIntent(order, ref))) == Reject(s, BadRequest)
  {
  }

  /**
   An event of a payment that is not its last one again: the payment is marked and remembers the event, and a
   success confirms its order if that is PENDING, and no other.
   */
  lemma ProcessesEvent(s: State, event: Payments.Event, i: nat)
    requires Reachable(s) && event.kind != Payments.OtherKind
    requires event.intent.Some? && HasRef(s, i, event.intent.value) && s.payments[i].lastEventId != Some(event.id)
    ensures var p := s.payments[i];
            var status := if event.kind == Payments.IntentFailed then Failed else Succeeded;
            var marked := s.payments[i := p.(status := status, lastEventId := Some(event.id))];
            && p.orderId < |s.orders|
            && Step(s, Webhook(event))
               == if status == Succeeded && s.orders[p.orderId].status == Pending then
                    s.(payments := marked, orders := s.orders[p.orderId := s.orders[p.orderId].(status := Confirmed)])
                  else s.(payments := marked)
  {
    FoundByRef(s, event.intent.value, i);
    PaymentSafety.ReachableSound(s);
    assert PaymentSafety.PaymentSound(s.orders, s.payments[i]);
  }
}
