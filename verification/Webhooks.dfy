/** The webhook protocol: two idempotency layers over at-least-once, out-of-order deliveries. */
module Webhooks {
  import opened Common
  import opened Payments

  datatype EventKind = PaymentSucceeded | PaymentFailure | RefundSuccess | RefundFailure | Unrecognised
  datatype EventStatus = Received | Processed | EventFailed | Ignored

  /** `UNIQUE(provider, eventId)`. */
  datatype EventKey = EventKey(provider: string, eventId: string)
  datatype Event = Event(kind: EventKind, reference: Option<nat>, status: EventStatus)
  datatype Delivery = Delivery(key: EventKey, kind: EventKind, reference: Option<nat>)

  datatype ProcessingOutcome = OutcomeDuplicate | OutcomeIgnored | OutcomeUnmatched | OutcomeProcessed

  datatype Billing = Billing(ledger: Ledger, events: map<EventKey, Event>)

  /** Attempts and refunds are separate correlation spaces. */
  datatype Subject = PaymentSubject(reference: nat) | RefundSubject(reference: nat)

  function SubjectOf(d: Delivery): Option<Subject> {
    if d.kind == Unrecognised || d.reference.None? then None
    else if d.kind == PaymentSucceeded || d.kind == PaymentFailure then Some(PaymentSubject(d.reference.value))
    else Some(RefundSubject(d.reference.value))
  }

  // ------------------------------------------------------------------------------------------
  // Correlation by provider reference

  function FindAttempt(attempts: seq<Attempt>, reference: nat): (r: Option<nat>)
    ensures r.Some? ==> r.value < |attempts| && attempts[r.value].reference == reference
    ensures r.None? ==> forall i :: 0 <= i < |attempts| ==> attempts[i].reference != reference
  {
    FindFirst(attempts, (a: Attempt) => a.reference == reference)
  }

  function FindRefund(refunds: seq<Refund>, reference: nat): (r: Option<nat>)
    ensures r.Some? ==> r.value < |refunds| && refunds[r.value].reference == reference
    ensures r.None? ==> forall i :: 0 <= i < |refunds| ==> refunds[i].reference != reference
  {
    FindFirst(refunds, (r: Refund) => r.reference == reference)
  }

  // ------------------------------------------------------------------------------------------
  // One delivery

  /** The rows that the foreign keys promise to exist. */
  predicate Linked(l: Ledger) {
    && (forall p :: 0 <= p < |l.payments| ==> l.payments[p].order < |l.orders|)
    && (forall a :: 0 <= a < |l.attempts| ==> l.attempts[a].payment < |l.payments|)
    && (forall r :: 0 <= r < |l.refunds| ==> l.refunds[r].payment < |l.payments|)
  }

  /** The ledger after an event that was not seen before, the event's final status, and the answer. */
  function Resolve(l: Ledger, kind: EventKind, reference: Option<nat>): (Ledger, EventStatus, ProcessingOutcome)
    requires Linked(l)
  {
    if kind == Unrecognised then (l, Ignored, OutcomeIgnored)
    else if reference.None? then (l, EventFailed, OutcomeUnmatched)
    else if kind == PaymentSucceeded || kind == PaymentFailure then
      (match FindAttempt(l.attempts, reference.value)
       case None => (l, EventFailed, OutcomeUnmatched)
       case Some(a) =>
         if l.attempts[a].status != Initiated then (l, Ignored, OutcomeDuplicate)
         else (CommitOutcomeSpec(l, a, kind == PaymentSucceeded), Processed, OutcomeProcessed))
    else
      (match FindRefund(l.refunds, reference.value)
       case None => (l, EventFailed, OutcomeUnmatched)
       case Some(r) =>
         if l.refunds[r].status != RefundPending then (l, Ignored, OutcomeDuplicate)
         else (CommitSettlementSpec(l, r, kind == RefundSuccess), Processed, OutcomeProcessed))
  }

  function Deliver(b: Billing, d: Delivery): (Billing, ProcessingOutcome)
    requires Linked(b.ledger)
  {
    if d.key in b.events then (b, OutcomeDuplicate)
    else
      var (l, status, outcome) := Resolve(b.ledger, d.kind, d.reference);
      (Billing(l, b.events[d.key := Event(d.kind, d.reference, status)]), outcome)
  }

  // ------------------------------------------------------------------------------------------
  // The services on the database

  class BillingDatabase {
    var orders: seq<Order>
    var payments: seq<Payment>
    var attempts: seq<Attempt>
    var refunds: seq<Refund>
    var nextReference: nat
    var events: map<EventKey, Event>

    constructor ()
      ensures Now() == Billing(Ledger([], [], [], [], 0), map[])
    {
      orders, payments, attempts, refunds := [], [], [], [];
      nextReference, events := 0, map[];
    }

    function CurrentLedger(): Ledger
      reads this
    {
      Ledger(orders, payments, attempts, refunds, nextReference)
    }

    function Now(): Billing
      reads this
    {
      Billing(CurrentLedger(), events)
    }

    method CreateForUser(user: nat, order: nat) returns (answer: Answer)
      modifies this
      ensures (CurrentLedger(), answer) == CreateForUserSpec(old(CurrentLedger()), user, order)
      ensures events == old(events)
    {
      if order >= |orders| || orders[order].user != user {
        return Forbidden;
      }
      if HasPayment(payments, order) {
        return Conflict;
      }
      var created := |payments|;
      var amount, currency := orders[order].total, orders[order].currency;
      payments := payments + [Payment(order, PaymentPending, amount, currency, 0, 0, None)];
      attempts := attempts + [Attempt(created, 1, Initiated, nextReference, amount, currency)];
      nextReference := nextReference + 1;
      answer := Accepted;
    }

    method Retry(user: nat, payment: nat) returns (answer: Answer)
      modifies this
      ensures (CurrentLedger(), answer) == RetrySpec(old(CurrentLedger()), user, payment)
      ensures events == old(events)
    {
      if !OwnsPayment(CurrentLedger(), user, payment) {
        return Forbidden;
      }
      if payments[payment].status != PaymentFailed {
        return Conflict;
      }
      var nextAttemptNumber := HighestNumber(attempts, payment) + 1;
      attempts := attempts +
                  [Attempt(payment, nextAttemptNumber, Initiated, nextReference, payments[payment].amount,
                           payments[payment].currency)];
      payments := payments[payment := payments[payment].(status := PaymentPending)];
      nextReference := nextReference + 1;
      answer := Accepted;
    }

    method CreateRefund(admin: nat, payment: nat, amount: int) returns (answer: Answer)
      modifies this
      ensures (CurrentLedger(), answer) == CreateRefundSpec(old(CurrentLedger()), admin, payment, amount)
      ensures events == old(events)
    {
      if payment >= |payments| {
        return NotFound;
      }
      if amount <= 0 {
        return BadRequest;
      }
      var refundable := payments[payment].paid - payments[payment].refunded;
      if amount > refundable {
        return Conflict;
      }
      refunds := refunds + [Refund(payment, amount, RefundPending, nextReference, admin)];
      nextReference := nextReference + 1;
      answer := Accepted;
    }

    method ProcessEvent(d: Delivery) returns (outcome: ProcessingOutcome)
      requires Linked(CurrentLedger())
      modifies this
      ensures (Now(), outcome) == Deliver(old(Now()), d)
    {
      if d.key in events {
        return OutcomeDuplicate;
      }
      events := events[d.key := Event(d.kind, d.reference, Received)];
      match d.kind {
        case PaymentSucceeded => outcome := HandlePaymentOutcome(d.key, d.reference, true);
        case PaymentFailure => outcome := HandlePaymentOutcome(d.key, d.reference, false);
        case RefundSuccess => outcome := HandleRefundOutcome(d.key, d.reference, true);
        case RefundFailure => outcome := HandleRefundOutcome(d.key, d.reference, false);
        case Unrecognised =>
          MarkEvent(d.key, Ignored);
          outcome := OutcomeIgnored;
      }
      assert events == old(events)[d.key := Event(d.kind, d.reference, events[d.key].status)];
    }

    method MarkEvent(key: EventKey, status: EventStatus)
      requires key in events
      modifies this`events
      ensures events == old(events)[key := old(events)[key].(status := status)]
    {
      events := events[key := events[key].(status := status)];
    }

    method MarkUnmatched(key: EventKey) returns (outcome: ProcessingOutcome)
      requires key in events
      modifies this`events
      ensures events == old(events)[key := old(events)[key].(status := EventFailed)]
      ensures outcome == OutcomeUnmatched
    {
      MarkEvent(key, EventFailed);
      outcome := OutcomeUnmatched;
    }

    method MarkDuplicate(key: EventKey) returns (outcome: ProcessingOutcome)
      requires key in events
      modifies this`events
      ensures events == old(events)[key := old(events)[key].(status := Ignored)]
      ensures outcome == OutcomeDuplicate
    {
      MarkEvent(key, Ignored);
      outcome := OutcomeDuplicate;
    }

    method HandlePaymentOutcome(key: EventKey, reference: Option<nat>, succeeded: bool)
      returns (outcome: ProcessingOutcome)
      requires Linked(CurrentLedger()) && key in events
      modifies this
      ensures var (l, status, answer) :=
                Resolve(old(CurrentLedger()), if succeeded then PaymentSucceeded else PaymentFailure, reference);
              && CurrentLedger() == l && outcome == answer
              && events == old(events)[key := old(events)[key].(status := status)]
    {
      if reference.None? {
        outcome := MarkUnmatched(key);
        return;
      }
      var found := FindAttempt(attempts, reference.value);
      if found.None? {
        outcome := MarkUnmatched(key);
        return;
      }
      var a := found.value;
      var attempt := attempts[a];
      var payment := payments[attempt.payment];
      if attempt.status != Initiated {
        outcome := MarkDuplicate(key);
        return;
      }
      attempts := attempts[a := attempt.(status := if succeeded then Succeeded else AttemptFailed)];
      if succeeded {
        payments := payments[attempt.payment := payment.(status := Paid, paid := payment.amount,
                                                         reference := Some(attempt.reference))];
      } else {
        payments := payments[attempt.payment := payment.(status := PaymentFailed)];
      }
      orders := orders[payment.order :=
        orders[payment.order].(paymentStatus := if succeeded then Paid else PaymentFailed)];
      MarkEvent(key, Processed);
      outcome := OutcomeProcessed;
    }

    method HandleRefundOutcome(key: EventKey, reference: Option<nat>, succeeded: bool)
      returns (outcome: ProcessingOutcome)
      requires Linked(CurrentLedger()) && key in events
      modifies this
      ensures var (l, status, answer) :=
                Resolve(old(CurrentLedger()), if succeeded then RefundSuccess else RefundFailure, reference);
              && CurrentLedger() == l && outcome == answer
              && events == old(events)[key := old(events)[key].(status := status)]
    {
      if reference.None? {
        outcome := MarkUnmatched(key);
        return;
      }
      var found := FindRefund(refunds, reference.value);
      if found.None? {
        outcome := MarkUnmatched(key);
        return;
      }
      var r := found.value;
      var refund := refunds[r];
      if refund.status != RefundPending {
        outcome := MarkDuplicate(key);
        return;
      }
      outcome := SettleOrMarkDuplicate(key, r, succeeded);
    }

    /** The rest of the refund handler after its reads, however old they are. */
    method SettleOrMarkDuplicate(key: EventKey, r: nat, succeeded: bool) returns (outcome: ProcessingOutcome)
      requires r < |refunds| && Linked(CurrentLedger()) && key in events
      modifies this
      ensures CurrentLedger() == CommitSettlementSpec(old(CurrentLedger()), r, succeeded)
      ensures var pending := old(refunds)[r].status == RefundPending;
              && outcome == (if pending then OutcomeProcessed else OutcomeDuplicate)
              && events == old(events)[key := old(events)[key].(status := if pending then Processed else Ignored)]
    {
      var settled := SettleRefund(key, r, succeeded);
      if settled {
        return OutcomeProcessed;
      }
      outcome := MarkDuplicate(key);
    }

    /**
     * The settlement transaction, for a refund row read at any earlier time: `false`, with nothing changed, if the row
     * is no longer PENDING, else the refund, its payment, its order and the event change together.
     */
    method SettleRefund(key: EventKey, r: nat, succeeded: bool) returns (settled: bool)
      requires r < |refunds| && Linked(CurrentLedger()) && key in events
      modifies this
      ensures CurrentLedger() == CommitSettlementSpec(old(CurrentLedger()), r, succeeded)
      ensures settled <==> old(refunds)[r].status == RefundPending
      ensures events == if settled then old(events)[key := old(events)[key].(status := Processed)] else old(events)
    {
      var refund := refunds[r];
      if refund.status != RefundPending {
        return false;
      }
      refunds := refunds[r := refund.(status := if succeeded then RefundSucceeded else RefundFailed)];
      if succeeded {
        var payment := payments[refund.payment];
        var total := payment.refunded + refund.amount;
        var status := if total >= payment.paid then Refunded else PartiallyRefunded;
        payments := payments[refund.payment := payment.(refunded := total, status := status)];
        orders := orders[payment.order := orders[payment.order].(paymentStatus := status)];
      }
      MarkEvent(key, Processed);
      settled := true;
    }
  }

  // ------------------------------------------------------------------------------------------
  // What deliveries keep

  lemma ConsistentIsLinked(l: Ledger)
    requires LedgerOk(l)
    ensures Linked(l)
  {
  }

  lemma ResolveKeepsLedger(l: Ledger, kind: EventKind, reference: Option<nat>)
    requires LedgerOk(l) && Linked(l)
    ensures LedgerOk(Resolve(l, kind, reference).0)
  {
    if kind != Unrecognised && reference.Some? {
      if kind == PaymentSucceeded || kind == PaymentFailure {
        var found := FindAttempt(l.attempts, reference.value);
        if found.Some? && l.attempts[found.value].status == Initiated {
          OutcomeKeepsLedger(l, found.value, kind == PaymentSucceeded);
        }
      } else {
        var found := FindRefund(l.refunds, reference.value);
        if found.Some? {
          SettlementKeepsLedger(l, found.value, kind == RefundSuccess);
        }
      }
    }
  }

  function DeliverAll(b: Billing, ds: seq<Delivery>): Billing
    requires LedgerOk(b.ledger)
    decreases |ds|
  {
    if ds == [] then b
    else
      ConsistentIsLinked(b.ledger);
      ResolveKeepsLedger(b.ledger, ds[0].kind, ds[0].reference);
      DeliverAll(Deliver(b, ds[0]).0, ds[1..])
  }

  lemma DeliverKeepsLedger(b: Billing, d: Delivery)
    requires LedgerOk(b.ledger) && Linked(b.ledger)
    ensures LedgerOk(Deliver(b, d).0.ledger)
  {
    ResolveKeepsLedger(b.ledger, d.kind, d.reference);
  }

  // ------------------------------------------------------------------------------------------
  // Deliveries commute

  /** What an event turns out to be about: at most one open row. */
  datatype Target = Unhandled | Unmatched | AlreadyResolved | OpenAttempt(a: nat) | OpenRefund(r: nat)

  function TargetOf(l: Ledger, kind: EventKind, reference: Option<nat>): Target {
    if kind == Unrecognised then Unhandled
    else if reference.None? then Unmatched
    else if kind == PaymentSucceeded || kind == PaymentFailure then
      (match FindAttempt(l.attempts, reference.value)
       case Some(a) => if l.attempts[a].status == Initiated then OpenAttempt(a) else AlreadyResolved
       case None => Unmatched)
    else
      (match FindRefund(l.refunds, reference.value)
       case Some(r) => if l.refunds[r].status == RefundPending then OpenRefund(r) else AlreadyResolved
       case None => Unmatched)
  }

  function FinalStatus(t: Target): EventStatus {
    match t
    case Unmatched => EventFailed
    case OpenAttempt(_) => Processed
    case OpenRefund(_) => Processed
    case _ => Ignored
  }

  /** The ledger effect of resolving a target. */
  function Apply(l: Ledger, t: Target, kind: EventKind): Ledger
    requires Linked(l)
  {
    match t
    case OpenAttempt(a) => if a < |l.attempts| then CommitOutcomeSpec(l, a, kind == PaymentSucceeded) else l
    case OpenRefund(r) => if r < |l.refunds| then CommitSettlementSpec(l, r, kind == RefundSuccess) else l
    case _ => l
  }

  lemma ResolveIsApply(l: Ledger, kind: EventKind, reference: Option<nat>)
    requires Linked(l)
    ensures Resolve(l, kind, reference).0 == Apply(l, TargetOf(l, kind, reference), kind)
    ensures Resolve(l, kind, reference).1 == FinalStatus(TargetOf(l, kind, reference))
  {
  }

  /** No delivery renumbers, removes or re-references a row, and rows it does not target keep their status. */
  ghost predicate SameRows(l: Ledger, m: Ledger) {
    && |m.attempts| == |l.attempts| && |m.refunds| == |l.refunds| && m.nextReference == l.nextReference
    && (forall i :: 0 <= i < |l.attempts| ==> m.attempts[i].reference == l.attempts[i].reference)
    && (forall i :: 0 <= i < |l.refunds| ==> m.refunds[i].reference == l.refunds[i].reference)
  }

  lemma FindIsTheRow(l: Ledger, reference: nat)
    requires ReferencesOk(l)
    ensures forall i :: 0 <= i < |l.attempts| && l.attempts[i].reference == reference ==>
              FindAttempt(l.attempts, reference) == Some(i)
    ensures forall i :: 0 <= i < |l.refunds| && l.refunds[i].reference == reference ==>
              FindRefund(l.refunds, reference) == Some(i)
  {
  }

  lemma FindInSameRows(l: Ledger, m: Ledger, reference: nat)
    requires ReferencesOk(l) && ReferencesOk(m) && SameRows(l, m)
    ensures FindAttempt(m.attempts, reference) == FindAttempt(l.attempts, reference)
    ensures FindRefund(m.refunds, reference) == FindRefund(l.refunds, reference)
  {
    FindIsTheRow(l, reference);
    FindIsTheRow(m, reference);
  }

  lemma ApplyKeepsRows(l: Ledger, t: Target, kind: EventKind)
    requires Linked(l)
    ensures SameRows(l, Apply(l, t, kind))
    ensures forall i :: 0 <= i < |l.attempts| && t != OpenAttempt(i) ==>
              Apply(l, t, kind).attempts[i] == l.attempts[i]
    ensures forall i :: 0 <= i < |l.refunds| && t != OpenRefund(i) ==> Apply(l, t, kind).refunds[i] == l.refunds[i]
  {
  }

  lemma TargetHasReference(l: Ledger, kind: EventKind, reference: Option<nat>)
    ensures var t := TargetOf(l, kind, reference);
            && (t.OpenAttempt? ==> t.a < |l.attempts| && l.attempts[t.a].status == Initiated
                                   && reference == Some(l.attempts[t.a].reference))
            && (t.OpenRefund? ==> t.r < |l.refunds| && l.refunds[t.r].status == RefundPending
                                  && reference == Some(l.refunds[t.r].reference))
  {
  }

  /** What a delivery is about changes only with the row that its subject names. */
  lemma TargetUnaffected(l: Ledger, m: Ledger, d: Delivery)
    requires ReferencesOk(l) && ReferencesOk(m) && SameRows(l, m)
    requires forall i :: 0 <= i < |l.attempts| && SubjectOf(d) == Some(PaymentSubject(l.attempts[i].reference)) ==>
               m.attempts[i] == l.attempts[i]
    requires forall i :: 0 <= i < |l.refunds| && SubjectOf(d) == Some(RefundSubject(l.refunds[i].reference)) ==>
               m.refunds[i] == l.refunds[i]
    ensures TargetOf(m, d.kind, d.reference) == TargetOf(l, d.kind, d.reference)
  {
    if d.reference.Some? {
      FindInSameRows(l, m, d.reference.value);
    }
  }

  lemma TargetIsSubject(l: Ledger, d: Delivery)
    ensures var t := TargetOf(l, d.kind, d.reference);
            && (t.OpenAttempt? ==>
                  t.a < |l.attempts| && SubjectOf(d) == Some(PaymentSubject(l.attempts[t.a].reference)))
            && (t.OpenRefund? ==>
                  t.r < |l.refunds| && SubjectOf(d) == Some(RefundSubject(l.refunds[t.r].reference)))
  {
  }

  /** Resolving one subject does not change what a delivery about another one turns out to be. */
  lemma OtherSubjectsUnaffected(l: Ledger, d: Delivery, e: Delivery)
    requires LedgerOk(l) && Linked(l) && (SubjectOf(d).None? || SubjectOf(d) != SubjectOf(e))
    ensures var m := Resolve(l, d.kind, d.reference).0;
            LedgerOk(m) && Linked(m) && TargetOf(m, e.kind, e.reference) == TargetOf(l, e.kind, e.reference)
  {
    var t, m := TargetOf(l, d.kind, d.reference), Resolve(l, d.kind, d.reference).0;
    ResolveKeepsLedger(l, d.kind, d.reference);
    ConsistentIsLinked(m);
    ResolveIsApply(l, d.kind, d.reference);
    ApplyKeepsRows(l, t, d.kind);
    TargetIsSubject(l, d);
    TargetUnaffected(l, m, e);
  }

  lemma {:induction false} OutcomesCommute(l: Ledger, a: nat, s: bool, b: nat, t: bool)
    requires LedgerOk(l) && Linked(l) && a < |l.attempts| && b < |l.attempts| && a != b
    requires l.attempts[a].status == Initiated && l.attempts[b].status == Initiated
    ensures Linked(CommitOutcomeSpec(l, a, s)) && Linked(CommitOutcomeSpec(l, b, t))
    ensures CommitOutcomeSpec(CommitOutcomeSpec(l, a, s), b, t) == CommitOutcomeSpec(CommitOutcomeSpec(l, b, t), a, s)
  {
    assert l.attempts[a].payment != l.attempts[b].payment;
    assert l.payments[l.attempts[a].payment].order != l.payments[l.attempts[b].payment].order;
    var x := CommitOutcomeSpec(CommitOutcomeSpec(l, a, s), b, t);
    var y := CommitOutcomeSpec(CommitOutcomeSpec(l, b, t), a, s);
    assert x.attempts == y.attempts && x.payments == y.payments && x.orders == y.orders;
  }

  /** A payment with refunds has no open attempt, so an outcome and a settlement concern different payments. */
  lemma OutcomeAndSettlementApart(l: Ledger, a: nat, r: nat)
    requires LedgerOk(l) && Linked(l) && a < |l.attempts| && r < |l.refunds| && l.attempts[a].status == Initiated
    ensures l.attempts[a].payment != l.refunds[r].payment
    ensures l.payments[l.attempts[a].payment].order != l.payments[l.refunds[r].payment].order
  {
    OpenAttemptIsLast(l, a);
    assert PaymentOk(l, l.attempts[a].payment);
  }

  lemma OutcomeAndSettlementCommute(l: Ledger, a: nat, s: bool, r: nat, t: bool)
    requires LedgerOk(l) && Linked(l) && a < |l.attempts| && r < |l.refunds|
    requires l.attempts[a].status == Initiated && l.refunds[r].status == RefundPending
    ensures Linked(CommitOutcomeSpec(l, a, s)) && Linked(CommitSettlementSpec(l, r, t))
    ensures CommitSettlementSpec(CommitOutcomeSpec(l, a, s), r, t) ==
            CommitOutcomeSpec(CommitSettlementSpec(l, r, t), a, s)
  {
    OutcomeAndSettlementApart(l, a, r);
    var x := CommitSettlementSpec(CommitOutcomeSpec(l, a, s), r, t);
    var y := CommitOutcomeSpec(CommitSettlementSpec(l, r, t), a, s);
    assert x.payments == y.payments && x.orders == y.orders;
  }

  /** Two refunds of one payment accumulate to the same total and the same status in either order. */
  lemma {:induction false} SettlementsCommute(l: Ledger, q: nat, s: bool, r: nat, t: bool)
    requires LedgerOk(l) && Linked(l) && q < |l.refunds| && r < |l.refunds| && q != r
    requires l.refunds[q].status == RefundPending && l.refunds[r].status == RefundPending
    ensures Linked(CommitSettlementSpec(l, q, s)) && Linked(CommitSettlementSpec(l, r, t))
    ensures CommitSettlementSpec(CommitSettlementSpec(l, q, s), r, t) ==
            CommitSettlementSpec(CommitSettlementSpec(l, r, t), q, s)
  {
    var x := CommitSettlementSpec(CommitSettlementSpec(l, q, s), r, t);
    var y := CommitSettlementSpec(CommitSettlementSpec(l, r, t), q, s);
    assert x.refunds == y.refunds;
    assert l.refunds[q].payment != l.refunds[r].payment ==>
        l.payments[l.refunds[q].payment].order != l.payments[l.refunds[r].payment].order;
    assert x.payments == y.payments && x.orders == y.orders;
  }

  lemma DistinctTargetsCommute(l: Ledger, t: Target, j: EventKind, u: Target, k: EventKind)
    requires LedgerOk(l) && Linked(l)
    requires t.OpenAttempt? ==> t.a < |l.attempts| && l.attempts[t.a].status == Initiated && u != t
    requires u.OpenAttempt? ==> u.a < |l.attempts| && l.attempts[u.a].status == Initiated && u != t
    requires t.OpenRefund? ==> t.r < |l.refunds| && l.refunds[t.r].status == RefundPending && u != t
    requires u.OpenRefund? ==> u.r < |l.refunds| && l.refunds[u.r].status == RefundPending && u != t
    ensures Linked(Apply(l, t, j)) && Linked(Apply(l, u, k))
    ensures Apply(Apply(l, t, j), u, k) == Apply(Apply(l, u, k), t, j)
  {
    hide LedgerOk, Linked, CommitOutcomeSpec, CommitSettlementSpec;
    ApplyKeepsLinks(l, t, j);
    ApplyKeepsLinks(l, u, k);
    ApplyKeepsRows(l, t, j);
    ApplyKeepsRows(l, u, k);
    match (t, u)
    case (OpenAttempt(a), OpenAttempt(b)) => OutcomesCommute(l, a, j == PaymentSucceeded, b, k == PaymentSucceeded);
    case (OpenAttempt(a), OpenRefund(r)) =>
      OutcomeAndSettlementCommute(l, a, j == PaymentSucceeded, r, k == RefundSuccess);
    case (OpenRefund(r), OpenAttempt(a)) =>
      OutcomeAndSettlementCommute(l, a, k == PaymentSucceeded, r, j == RefundSuccess);
    case (OpenRefund(q), OpenRefund(r)) => SettlementsCommute(l, q, j == RefundSuccess, r, k == RefundSuccess);
    case (_, _) =>
  }

  lemma ApplyKeepsLinks(l: Ledger, t: Target, k: EventKind)
    requires Linked(l)
    ensures Linked(Apply(l, t, k))
  {
  }

  /** Different events that are not about the same attempt and not about the same refund. */
  predicate Independent(d: Delivery, e: Delivery) {
    d.key != e.key && (SubjectOf(d).None? || SubjectOf(d) != SubjectOf(e))
  }

  /** Two deliveries of different events about different subjects leave the same database in either order. */
  lemma DeliveriesCommute(b: Billing, d: Delivery, e: Delivery)
    requires LedgerOk(b.ledger) && Linked(b.ledger) && Independent(d, e)
    ensures Linked(Deliver(b, d).0.ledger) && Linked(Deliver(b, e).0.ledger)
    ensures Deliver(Deliver(b, d).0, e).0 == Deliver(Deliver(b, e).0, d).0
  {
    hide LedgerOk, Linked, TargetOf, Apply, Resolve, FinalStatus;
    var l := b.ledger;
    var t, u := TargetOf(l, d.kind, d.reference), TargetOf(l, e.kind, e.reference);
    DeliverKeepsLedger(b, d);
    DeliverKeepsLedger(b, e);
    ConsistentIsLinked(Deliver(b, d).0.ledger);
    ConsistentIsLinked(Deliver(b, e).0.ledger);
    if d.key !in b.events && e.key !in b.events {
      OtherSubjectsUnaffected(l, d, e);
      OtherSubjectsUnaffected(l, e, d);
      TargetIsSubject(l, d);
      TargetIsSubject(l, e);
      ResolveIsApply(l, d.kind, d.reference);
      ResolveIsApply(l, e.kind, e.reference);
      ResolveIsApply(Resolve(l, d.kind, d.reference).0, e.kind, e.reference);
      ResolveIsApply(Resolve(l, e.kind, e.reference).0, d.kind, d.reference);
      TargetHasReference(l, d.kind, d.reference);
      TargetHasReference(l, e.kind, e.reference);
      DistinctTargetsCommute(l, t, d.kind, u, e.kind);
      var x, y := Deliver(Deliver(b, d).0, e).0, Deliver(Deliver(b, e).0, d).0;
      assert x.ledger == y.ledger;
      assert x.events == y.events;
    }
  }

  ghost predicate PairwiseIndependent(ds: seq<Delivery>) {
    forall i, j :: 0 <= i < j < |ds| ==> Independent(ds[i], ds[j])
  }

  lemma {:induction false} DeliverFirst(b: Billing, before: seq<Delivery>, d: Delivery, after: seq<Delivery>)
    requires LedgerOk(b.ledger)
    requires forall i :: 0 <= i < |before| ==> Independent(before[i], d)
    ensures DeliverAll(b, before + [d] + after) == DeliverAll(b, [d] + before + after)
    decreases |before|
  {
    hide LedgerOk, Linked, Deliver, Independent;
    if before == [] {
      assert before + [d] + after == [d] + before + after;
    } else {
      var e, rest := before[0], before[1..];
      ConsistentIsLinked(b.ledger);
      DeliverKeepsLedger(b, e);
      DeliverKeepsLedger(b, d);
      ConsistentIsLinked(Deliver(b, e).0.ledger);
      ConsistentIsLinked(Deliver(b, d).0.ledger);
      assert (before + [d] + after)[1..] == rest + [d] + after;
      DeliverFirst(Deliver(b, e).0, rest, d, after);
      assert ([d] + rest + after)[1..] == rest + after;
      assert Independent(e, d);
      DeliveriesCommute(b, e, d);
      assert ([d] + before + after)[1..] == before + after && (before + after)[1..] == rest + after;
    }
  }

  lemma TakeOut(ds: seq<Delivery>, k: nat)
    requires PairwiseIndependent(ds) && k < |ds|
    ensures forall i :: 0 <= i < k ==> Independent(ds[..k][i], ds[k])
    ensures PairwiseIndependent(ds[..k] + ds[k + 1..])
  {
    var rest := ds[..k] + ds[k + 1..];
    forall i, j | 0 <= i < j < |rest| ensures Independent(rest[i], rest[j]) {
      assert Independent(ds[if i < k then i else i + 1], ds[if j < k then j else j + 1]);
    }
  }

  /** Order independence: any two orders of the same independent deliveries leave the same database. */
  lemma {:induction false} OrderDoesNotMatter(b: Billing, ds: seq<Delivery>, es: seq<Delivery>)
    requires LedgerOk(b.ledger) && multiset(ds) == multiset(es) && PairwiseIndependent(ds)
    ensures DeliverAll(b, ds) == DeliverAll(b, es)
    decreases |es|
  {
    hide LedgerOk, Linked, Deliver, PairwiseIndependent, Independent;
    if es == [] {
      assert |multiset(ds)| == 0;
    } else {
      var k := PermutationSplit(ds, es);
      TakeOut(ds, k);
      var before, after := ds[..k], ds[k + 1..];
      DeliverFirst(b, before, es[0], after);
      ConsistentIsLinked(b.ledger);
      DeliverKeepsLedger(b, es[0]);
      assert ([es[0]] + before + after)[1..] == before + after;
      OrderDoesNotMatter(Deliver(b, es[0]).0, before + after, es[1..]);
    }
  }
}
