/** Register sessions: the calls of src/cash-register/cash-register.service.ts. */
module CashRegister {
  import opened Basics
  import opened Store

  /** The newest open session of a restaurant. */
  function FindOpen(sessions: seq<Session>, rest: Rest): (found: Option<nat>)
    ensures found.Some? ==>
              found.value < |sessions| && sessions[found.value].closing.None? && sessions[found.value].rest == rest
    ensures found.None? ==> forall i :: 0 <= i < |sessions| && sessions[i].rest == rest ==> sessions[i].closing.Some?
  {
    if sessions == [] then None else
    var n := |sessions| - 1;
    if sessions[n].closing.None? && sessions[n].rest == rest then Some(n) else FindOpen(sessions[..n], rest)
  }

  predicate Counts(p: Payment, sessionId: nat, rest: Rest) {
    p.sessionId == Some(sessionId) && p.status == Succeeded && p.rest == rest
  }

  /** The succeeded payments attached to a session. */
  function SessionPayments(payments: seq<Payment>, sessionId: nat, rest: Rest): seq<Payment> {
    if payments == [] then [] else
    var last := payments[|payments| - 1];
    SessionPayments(payments[..|payments| - 1], sessionId, rest) + if Counts(last, sessionId, rest) then [last] else []
  }

  /** They are exactly the payments that count, each as often as it is there. */
  lemma {:induction false} SessionPaymentsExactly(payments: seq<Payment>, sessionId: nat, rest: Rest, p: Payment)
    ensures multiset(SessionPayments(payments, sessionId, rest))[p]
         == if p.sessionId == Some(sessionId) && p.status == Succeeded && p.rest == rest then multiset(payments)[p]
            else 0
  {
    if payments != [] {
      var front, last := payments[..|payments| - 1], payments[|payments| - 1];
      SessionPaymentsExactly(front, sessionId, rest, p);
      assert payments == front + [last];
    }
  }

  function Amount(p: Payment): int {
    p.amountCents
  }

  function SessionTotal(payments: seq<Payment>, sessionId: nat, rest: Rest): int {
    Sum(SessionPayments(payments, sessionId, rest), Amount)
  }

  function OpenSession(s: State, openingFloatCents: nat, rest: Rest): Result {
    if FindOpen(s.sessions, rest).Some? then Reject(s, BadRequest)
    else Result(s.(sessions := s.sessions + [Session(rest, openingFloatCents, None)]), Done(|s.sessions|))
  }

  function CloseSession(s: State, countedCents: nat, rest: Rest): Result {
    var open := FindOpen(s.sessions, rest);
    if open.None? then Reject(s, BadRequest) else
    var expected := SessionTotal(s.payments, open.value, rest);
    var closing := Closing(expected, countedCents, countedCents - expected);
    Result(s.(sessions := s.sessions[open.value := s.sessions[open.value].(closing := Some(closing))]),
           Done(open.value))
  }

  // ---------- The session summary ----------

  datatype Summary = Summary(totalSalesCents: int, ticketCount: nat, byMethod: map<PaymentMethod, int>)

  /** The amount of a payment if it was made by this tender. */
  function AmountBy(tender: PaymentMethod): Payment -> int {
    (p: Payment) => if p.tender == tender then p.amountCents else 0
  }

  const TENDERS: seq<PaymentMethod> := [Cash, Card, Transfer, Stripe]

  lemma AllTenders()
    ensures forall t :: t in TENDERS
  {
    assert TENDERS[0] == Cash && TENDERS[1] == Card && TENDERS[2] == Transfer && TENDERS[3] == Stripe;
    forall t: PaymentMethod
      ensures t in TENDERS
    {
      assert t == Cash || t == Card || t == Transfer || t == Stripe;
    }
  }

  function Reported(byMethod: map<PaymentMethod, int>, tender: PaymentMethod): int {
    if tender in byMethod then byMethod[tender] else 0
  }

  function SumReported(byMethod: map<PaymentMethod, int>): int {
    Reported(byMethod, Cash) + Reported(byMethod, Card) + Reported(byMethod, Transfer) + Reported(byMethod, Stripe)
  }

  /** A session's figures: total, count, and the positive subtotals by tender. */
  predicate IsSummary(payments: seq<Payment>, summary: Summary) {
    && summary.totalSalesCents == Sum(payments, (p: Payment) => p.amountCents)
    && summary.ticketCount == |payments|
    && forall t :: var figure := Sum(payments, (p: Payment) => if p.tender == t then p.amountCents else 0);
                   if figure > 0 then t in summary.byMethod && summary.byMethod[t] == figure
                   else t !in summary.byMethod
  }

  lemma {:induction false} TotalIsSum(payments: seq<Payment>)
    ensures Sum(payments, Amount) == Sum(payments, (p: Payment) => p.amountCents)
  {
    if payments != [] {
      TotalIsSum(payments[..|payments| - 1]);
    }
  }

  lemma {:induction false} FigureIsSum(payments: seq<Payment>, t: PaymentMethod)
    ensures Sum(payments, AmountBy(t)) == Sum(payments, (p: Payment) => if p.tender == t then p.amountCents else 0)
  {
    if payments != [] {
      FigureIsSum(payments[..|payments| - 1], t);
    }
  }

  /** The figures gathered by the two passes are the session's. */
  lemma IsGathered(payments: seq<Payment>, summary: Summary)
    requires summary.totalSalesCents == Sum(payments, Amount) && summary.ticketCount == |payments|
    requires forall t :: if Sum(payments, AmountBy(t)) > 0
                         then t in summary.byMethod && summary.byMethod[t] == Sum(payments, AmountBy(t))
                         else t !in summary.byMethod
    ensures IsSummary(payments, summary)
  {
    TotalIsSum(payments);
    forall t
      ensures Sum(payments, AmountBy(t)) == Sum(payments, (p: Payment) => if p.tender == t then p.amountCents else 0)
    {
      FigureIsSum(payments, t);
    }
  }

  lemma {:induction false} TendersAddUp(payments: seq<Payment>)
    ensures Sum(payments, Amount) == Sum(payments, AmountBy(Cash)) + Sum(payments, AmountBy(Card))
                                     + Sum(payments, AmountBy(Transfer)) + Sum(payments, AmountBy(Stripe))
  {
    if payments != [] {
      TendersAddUp(payments[..|payments| - 1]);
    }
  }

  lemma {:induction false} TenderNotNegative(payments: seq<Payment>, tender: PaymentMethod)
    requires forall i :: 0 <= i < |payments| ==> payments[i].amountCents >= 0
    ensures Sum(payments, AmountBy(tender)) >= 0
  {
    if payments != [] {
      TenderNotNegative(payments[..|payments| - 1], tender);
    }
  }

  /** With no negative amounts, the subtotals reported by tender add up to the total. */
  lemma SummaryAddsUp(payments: seq<Payment>, summary: Summary)
    requires IsSummary(payments, summary)
    requires forall i :: 0 <= i < |payments| ==> payments[i].amountCents >= 0
    ensures SumReported(summary.byMethod) == summary.totalSalesCents
  {
    TotalIsSum(payments);
    TendersAddUp(payments);
    forall t
      ensures Reported(summary.byMethod, t) == Sum(payments, AmountBy(t))
    {
      FigureIsSum(payments, t);
      TenderNotNegative(payments, t);
    }
  }
}
