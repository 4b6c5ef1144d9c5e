/** Payments: the calls of src/payments/payments.service.ts. */
module Payments {
  import opened Basics
  import opened OrderStatus
  import opened Store
  import Orders
  import CashRegister
  import Inventory

  datatype CheckoutDto = CheckoutDto(orderId: nat, tender: PaymentMethod, amountPaidCents: nat)

  datatype EventKind = IntentSucceeded | IntentFailed | OtherKind

  /** A verified webhook event of the payment gateway. */
  datatype Event = Event(id: nat, kind: EventKind, intent: Option<nat>)

  /** The payment carrying a gateway reference; the reference column is unique. */
  function FindByRef(payments: seq<Payment>, ref: nat): (found: Option<nat>)
    ensures found.Some? ==> found.value < |payments| && payments[found.value].providerRef == Some(ref)
    ensures found.None? ==> forall i :: 0 <= i < |payments| ==> payments[i].providerRef != Some(ref)
  {
    if payments == [] then None
    else if payments[|payments| - 1].providerRef == Some(ref) then Some(|payments| - 1)
    else FindByRef(payments[..|payments| - 1], ref)
  }

  function FindSucceeded(payments: seq<Payment>, orderId: nat, rest: Rest): (found: Option<nat>)
    ensures found.Some? ==>
              && found.value < |payments|
              && payments[found.value].orderId == orderId && payments[found.value].status == Succeeded
    ensures found.None? ==>
              forall p :: p in payments && p.orderId == orderId && p.rest == rest ==> p.status != Succeeded
  {
    if payments == [] then None else
    var n := |payments| - 1;
    if payments[n].orderId == orderId && payments[n].status == Succeeded && payments[n].rest == rest then Some(n)
    else FindSucceeded(payments[..n], orderId, rest)
  }

  /** createIntent, given the reference the gateway answers with: an upsert on that reference. */
  function CreateIntent(s: State, orderId: nat, intent: nat, rest: Rest): Result {
    if !Orders.Owns(s, orderId, rest) then Reject(s, NotFound)
    else if s.orders[orderId].status != Pending then Reject(s, BadRequest)
    else
      var total := s.orders[orderId].totalCents;
      var found := FindByRef(s.payments, intent);
      if found.Some? then
        Result(s.(payments := s.payments[found.value := s.payments[found.value].(amountCents := total)]), Done(intent))
      else
        Result(s.(payments := s.payments + [Payment(rest, orderId, Stripe, Some(intent), total, 0, 0,
                                                    RequiresPayment, None, None)]),
               Done(intent))
  }

  function PosPayment(o: Order, dto: CheckoutDto, sessionId: nat, rest: Rest): Payment {
    Payment(rest, dto.orderId, dto.tender, None, o.totalCents, dto.amountPaidCents,
            Max(0, dto.amountPaidCents - o.totalCents), Succeeded, None, Some(sessionId))
  }

  /** What checkout checks before it writes anything. */
  predicate TakesPayment(s: State, dto: CheckoutDto, rest: Rest) {
    && Orders.Owns(s, dto.orderId, rest) && s.orders[dto.orderId].status == Pending
    && CashRegister.FindOpen(s.sessions, rest).Some?
    && FindSucceeded(s.payments, dto.orderId, rest).None?
    && (dto.tender == Cash ==> dto.amountPaidCents >= s.orders[dto.orderId].totalCents)
  }

  /** checkout: confirm the order, free its table, record the payment, then take the lines off stock. */
  function Checkout(s: State, dto: CheckoutDto, rest: Rest): Result {
    if !Orders.Owns(s, dto.orderId, rest) then Reject(s, NotFound)
    else if s.orders[dto.orderId].status != Pending then Reject(s, BadRequest)
    else if CashRegister.FindOpen(s.sessions, rest).None? then Reject(s, BadRequest)
    else if FindSucceeded(s.payments, dto.orderId, rest).Some? then
      Result(s, Done(FindSucceeded(s.payments, dto.orderId, rest).value))
    else
      var o := s.orders[dto.orderId];
      if dto.tender == Cash && dto.amountPaidCents < o.totalCents then Reject(s, BadRequest) else
      var session := CashRegister.FindOpen(s.sessions, rest).value;
      Result(s.(orders := s.orders[dto.orderId := o.(status := Confirmed)],
                tables := if o.tableId.Some? then SetTableStatus(s.tables, o.tableId.value, Available) else s.tables,
                payments := s.payments + [PosPayment(o, dto, session, rest)],
                stock := Inventory.DecrementAll(s.stock, rest, o.items)),
             Done(|s.payments|))
  }

  /** findPaymentForEvent: the event's payment, unless this very event was the last one processed. */
  function PaymentFor(payments: seq<Payment>, event: Event): (found: Option<nat>)
    ensures found.Some? ==>
              && found.value < |payments|
              && event.intent.Some? && payments[found.value].providerRef == event.intent
              && payments[found.value].lastEventId != Some(event.id)
  {
    if event.intent.None? then None else
    var found := FindByRef(payments, event.intent.value);
    if found.None? || payments[found.value].lastEventId == Some(event.id) then None else found
  }

  function WithEvent(s: State, payment: nat, status: PaymentStatus, eventId: nat): State
    requires payment < |s.payments|
  {
    s.(payments := s.payments[payment := s.payments[payment].(status := status, lastEventId := Some(eventId))])
  }

  /** handleWebhook: a success also confirms the order, if it can be confirmed. */
  function Webhook(s: State, event: Event): State {
    if event.kind == OtherKind then s else
    var payment := PaymentFor(s.payments, event);
    if payment.None? then s
    else if event.kind == IntentFailed then WithEvent(s, payment.value, Failed, event.id)
    else Orders.MarkConfirmed(WithEvent(s, payment.value, Succeeded, event.id), s.payments[payment.value].orderId)
  }
}
