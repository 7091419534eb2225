/** What every delivery and every payment call leaves in the tables, row by row, and when it is accepted. */
module PaymentEffects {
  import opened Common
  import opened Payments
  import opened Webhooks
  import opened PaymentRuns

  // ------------------------------------------------------------------------------------------
  // Deliveries

  /** The delivery reports the outcome of this attempt, by its provider reference. */
  predicate ReportsAttempt(l: Ledger, d: Delivery, a: nat) {
    && (d.kind == PaymentSucceeded || d.kind == PaymentFailure)
    && a < |l.attempts| && d.reference == Some(l.attempts[a].reference)
  }

  predicate ReportsRefund(l: Ledger, d: Delivery, r: nat) {
    && (d.kind == RefundSuccess || d.kind == RefundFailure)
    && r < |l.refunds| && d.reference == Some(l.refunds[r].reference)
  }

  lemma ReportedRowIsFound(l: Ledger, d: Delivery)
    requires ReferencesOk(l)
    ensures forall a: nat :: ReportsAttempt(l, d, a) ==> FindAttempt(l.attempts, d.reference.value) == Some(a)
    ensures forall r: nat :: ReportsRefund(l, d, r) ==> FindRefund(l.refunds, d.reference.value) == Some(r)
  {
    if d.reference.Some? {
      FindIsTheRow(l, d.reference.value);
    }
  }

  /** The event row that a processed delivery leaves; every other event row is as it was. */
  predicate StoredAs(b: Billing, c: Billing, d: Delivery, status: EventStatus) {
    c.events == b.events[d.key := Event(d.kind, d.reference, status)]
  }

  /** A success pays the payment in full: attempt, payment and order say so, and nothing else changes. */
  lemma PaymentSucceededEffect(b: Billing, d: Delivery, a: nat)
    requires LedgerOk(b.ledger) && Linked(b.ledger) && d.key !in b.events
    requires d.kind == PaymentSucceeded && ReportsAttempt(b.ledger, d, a) && b.ledger.attempts[a].status == Initiated
    ensures var (c, answer) := Deliver(b, d);
            var l, m, p := b.ledger, c.ledger, b.ledger.attempts[a].payment;
            && answer == OutcomeProcessed && StoredAs(b, c, d, Processed)
            && m.attempts == l.attempts[a := l.attempts[a].(status := Succeeded)]
            && m.payments == l.payments[p :=
                 l.payments[p].(status := Paid, paid := l.payments[p].amount, reference := d.reference)]
            && m.orders == l.orders[l.payments[p].order := l.orders[l.payments[p].order].(paymentStatus := Paid)]
            && m.refunds == l.refunds && m.nextReference == l.nextReference
  {
    ReportedRowIsFound(b.ledger, d);
    hide LedgerOk;
  }

  /** A failure leaves what was paid alone: attempt, payment and order say FAILED, and nothing else changes. */
  lemma PaymentFailureEffect(b: Billing, d: Delivery, a: nat)
    requires LedgerOk(b.ledger) && Linked(b.ledger) && d.key !in b.events
    requires d.kind == PaymentFailure && ReportsAttempt(b.ledger, d, a) && b.ledger.attempts[a].status == Initiated
    ensures var (c, answer) := Deliver(b, d);
            var l, m, p := b.ledger, c.ledger, b.ledger.attempts[a].payment;
            && answer == OutcomeProcessed && StoredAs(b, c, d, Processed)
            && m.attempts == l.attempts[a := l.attempts[a].(status := AttemptFailed)]
            && m.payments == l.payments[p := l.payments[p].(status := PaymentFailed)]
            && m.orders == l.orders[l.payments[p].order :=
                 l.orders[l.payments[p].order].(paymentStatus := PaymentFailed)]
            && m.refunds == l.refunds && m.nextReference == l.nextReference
  {
    ReportedRowIsFound(b.ledger, d);
    hide LedgerOk;
  }

  /** A refund that fails gives its money back to what can be refunded: no payment and no order changes. */
  lemma RefundFailureEffect(b: Billing, d: Delivery, r: nat)
    requires LedgerOk(b.ledger) && Linked(b.ledger) && d.key !in b.events
    requires d.kind == RefundFailure && ReportsRefund(b.ledger, d, r) && b.ledger.refunds[r].status == RefundPending
    ensures var (c, answer) := Deliver(b, d);
            var l, m, p := b.ledger, c.ledger, b.ledger.refunds[r].payment;
            && answer == OutcomeProcessed && StoredAs(b, c, d, Processed)
            && m.refunds == l.refunds[r := l.refunds[r].(status := RefundFailed)]
            && m.payments == l.payments && m.orders == l.orders && m.attempts == l.attempts
            && m.nextReference == l.nextReference
            && Exposure(m, p) == Exposure(l, p) - l.refunds[r].amount
  {
    ReportedRowIsFound(b.ledger, d);
    SumUpdate(b.ledger.refunds, r, b.ledger.refunds[r].(status := RefundFailed),
              PendingOf(b.ledger.refunds[r].payment));
    hide LedgerOk;
  }

  /** A refund that succeeds moves exactly its amount from pending to refunded. */
  lemma RefundSuccessEffect(b: Billing, d: Delivery, r: nat)
    requires LedgerOk(b.ledger) && Linked(b.ledger) && d.key !in b.events
    requires d.kind == RefundSuccess && ReportsRefund(b.ledger, d, r) && b.ledger.refunds[r].status == RefundPending
    ensures var (c, answer) := Deliver(b, d);
            var l, m, refund := b.ledger, c.ledger, b.ledger.refunds[r];
            var p, total := refund.payment, l.payments[refund.payment].refunded + refund.amount;
            var status := if total >= l.payments[p].paid then Refunded else PartiallyRefunded;
            && answer == OutcomeProcessed && StoredAs(b, c, d, Processed)
            && m.refunds == l.refunds[r := refund.(status := RefundSucceeded)]
            && m.payments == l.payments[p := l.payments[p].(refunded := total, status := status)]
            && m.orders == l.orders[l.payments[p].order := l.orders[l.payments[p].order].(paymentStatus := status)]
            && m.attempts == l.attempts && m.nextReference == l.nextReference
            && Exposure(m, p) == Exposure(l, p)
            && Sum(m.refunds, PendingOf(p)) == Sum(l.refunds, PendingOf(p)) - refund.amount
  {
    ReportedRowIsFound(b.ledger, d);
    SumUpdate(b.ledger.refunds, r, b.ledger.refunds[r].(status := RefundSucceeded),
              PendingOf(b.ledger.refunds[r].payment));
    hide LedgerOk;
  }

  /** The delivery is of a recognised kind, and its reference is that of no attempt, or of no refund, of the kind. */
  ghost predicate ReportsNothing(l: Ledger, d: Delivery) {
    && d.kind != Unrecognised
    && (forall a: nat :: !ReportsAttempt(l, d, a)) && (forall r: nat :: !ReportsRefund(l, d, r))
  }

  /**
   * Every answer, and the event row it leaves: duplicates of stored events leave nothing at all, other deliveries one
   * row; and unless the answer is that the event was processed, no money moves.
   */
  lemma DeliveryAnswers(b: Billing, d: Delivery)
    requires LedgerOk(b.ledger) && Linked(b.ledger)
    ensures var (c, answer) := Deliver(b, d);
            && (d.key in b.events ==> c == b && answer == OutcomeDuplicate)
            && (d.key !in b.events && d.kind == Unrecognised ==>
                  answer == OutcomeIgnored && c.ledger == b.ledger && StoredAs(b, c, d, Ignored))
            && (d.key !in b.events && ReportsNothing(b.ledger, d) ==>
                  answer == OutcomeUnmatched && c.ledger == b.ledger && StoredAs(b, c, d, EventFailed))
            && (forall a: nat :: d.key !in b.events && ReportsAttempt(b.ledger, d, a) ==>
                  if b.ledger.attempts[a].status == Initiated
                  then answer == OutcomeProcessed && StoredAs(b, c, d, Processed)
                  else answer == OutcomeDuplicate && c.ledger == b.ledger && StoredAs(b, c, d, Ignored))
            && (forall r: nat :: d.key !in b.events && ReportsRefund(b.ledger, d, r) ==>
                  if b.ledger.refunds[r].status == RefundPending
                  then answer == OutcomeProcessed && StoredAs(b, c, d, Processed)
                  else answer == OutcomeDuplicate && c.ledger == b.ledger && StoredAs(b, c, d, Ignored))
  {
    ReportedRowIsFound(b.ledger, d);
    if d.reference.Some? && ReportsNothing(b.ledger, d) {
      FoundRowIsReported(b.ledger, d);
    }
    hide LedgerOk, Linked, CommitOutcomeSpec, CommitSettlementSpec;
  }

  lemma FoundRowIsReported(l: Ledger, d: Delivery)
    requires ReportsNothing(l, d) && d.reference.Some?
    ensures d.kind == PaymentSucceeded || d.kind == PaymentFailure ==> FindAttempt(l.attempts, d.reference.value).None?
    ensures d.kind == RefundSuccess || d.kind == RefundFailure ==> FindRefund(l.refunds, d.reference.value).None?
  {
    var a, r := FindAttempt(l.attempts, d.reference.value), FindRefund(l.refunds, d.reference.value);
    assert !ReportsAttempt(l, d, if a.Some? then a.value else 0);
    assert !ReportsRefund(l, d, if r.Some? then r.value else 0);
  }

  // ------------------------------------------------------------------------------------------
  // Calls

  /** The order's owner may create its payment, once; it is PENDING for the order's total, with one open attempt. */
  lemma CreatePaymentIff(l: Ledger, user: nat, o: nat)
    ensures var (m, answer) := CreateForUserSpec(l, user, o);
            && (answer == Forbidden <==> !(o < |l.orders| && l.orders[o].user == user))
            && (answer == Conflict <==>
                  o < |l.orders| && l.orders[o].user == user
                  && exists p :: 0 <= p < |l.payments| && l.payments[p].order == o)
            && (answer == Accepted <==> answer != Forbidden && answer != Conflict)
            && (answer != Accepted ==> m == l)
            && (answer == Accepted ==>
                  && m.orders == l.orders && m.refunds == l.refunds && m.nextReference == l.nextReference + 1
                  && m.payments == l.payments +
                       [Payment(o, PaymentPending, l.orders[o].total, l.orders[o].currency, 0, 0, None)]
                  && m.attempts == l.attempts +
                       [Attempt(|l.payments|, 1, Initiated, l.nextReference, l.orders[o].total, l.orders[o].currency)])
  {
  }

  /** A FAILED payment may be retried by its owner: it is PENDING again, with a next attempt for the same amount. */
  lemma RetryIff(l: Ledger, user: nat, p: nat)
    requires LedgerOk(l)
    ensures var (m, answer) := RetrySpec(l, user, p);
            && (answer == Forbidden <==> !(p < |l.payments| && l.orders[l.payments[p].order].user == user))
            && (answer == Accepted <==> answer != Forbidden && l.payments[p].status == PaymentFailed)
            && (answer == Conflict <==> answer != Forbidden && l.payments[p].status != PaymentFailed)
            && (answer != Accepted ==> m == l)
            && (answer == Accepted ==>
                  && m.orders == l.orders && m.refunds == l.refunds && m.nextReference == l.nextReference + 1
                  && m.payments == l.payments[p := l.payments[p].(status := PaymentPending)]
                  && |m.attempts| == |l.attempts| + 1 && m.attempts[..|l.attempts|] == l.attempts
                  && var a := m.attempts[|l.attempts|];
                  && a.payment == p && a.number == Sum(l.attempts, AttemptOf(p)) + 1 && a.status == Initiated
                  && a.reference == l.nextReference
                  && a.amount == l.payments[p].amount && a.currency == l.payments[p].currency)
  {
    HighestIsCount(l.attempts, p);
    hide HighestNumber, Sum, AttemptOf, PaymentOk, ReferencesOk, AttemptsOk, RefundsOk;
  }

  /** Any positive amount up to what is paid and not yet refunded may be requested; one PENDING row results. */
  lemma RefundRequestIff(l: Ledger, admin: nat, p: nat, amount: int)
    ensures var (m, answer) := CreateRefundSpec(l, admin, p, amount);
            && (answer == NotFound <==> p >= |l.payments|)
            && (answer == BadRequest <==> p < |l.payments| && amount <= 0)
            && (answer == Conflict <==>
                  p < |l.payments| && amount > 0 && amount > l.payments[p].paid - l.payments[p].refunded)
            && (answer == Accepted <==>
                  p < |l.payments| && 0 < amount <= l.payments[p].paid - l.payments[p].refunded)
            && (answer != Accepted ==> m == l)
            && (answer == Accepted ==>
                  m == l.(refunds := l.refunds + [Refund(p, amount, RefundPending, l.nextReference, admin)],
                          nextReference := l.nextReference + 1))
  {
  }
}
