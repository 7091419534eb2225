/** Payments, attempts and refunds: creation, retry, refund requests, and the two conditional settlements. */
module Payments {
  import opened Common

  // The status values the services write; the schema's other values are never written.

  /** Used for `Payment.status` and for the summary on the order, which is a subset of the same values. */
  datatype PaymentStatus = PaymentPending | Paid | PaymentFailed | PartiallyRefunded | Refunded
  datatype AttemptStatus = Initiated | Succeeded | AttemptFailed
  datatype RefundStatus = RefundPending | RefundSucceeded | RefundFailed

  /** The payment side of a master order. */
  datatype Order = Order(user: nat, total: int, currency: string, paymentStatus: PaymentStatus)
  datatype Payment = Payment(order: nat, status: PaymentStatus, amount: int, currency: string, paid: int,
                             refunded: int, reference: Option<nat>)
  datatype Attempt = Attempt(payment: nat, number: nat, status: AttemptStatus, reference: nat, amount: int,
                             currency: string)
  datatype Refund = Refund(payment: nat, amount: int, status: RefundStatus, reference: nat, requestedBy: nat)

  /** A row's id is its index. Provider references come from a counter, which makes generated ones fresh. */
  datatype Ledger = Ledger(orders: seq<Order>, payments: seq<Payment>, attempts: seq<Attempt>, refunds: seq<Refund>,
                           nextReference: nat)

  datatype Answer = Accepted | Forbidden | Conflict | NotFound | BadRequest

  // ------------------------------------------------------------------------------------------
  // Queries

  predicate HasPayment(payments: seq<Payment>, order: nat) {
    exists p :: 0 <= p < |payments| && payments[p].order == order
  }

  /** The newest attempt of a payment. */
  function LastAttempt(attempts: seq<Attempt>, payment: nat): (r: Option<nat>)
    ensures r.Some? ==> r.value < |attempts| && attempts[r.value].payment == payment
                        && forall j :: r.value < j < |attempts| ==> attempts[j].payment != payment
    ensures r.None? ==> forall j :: 0 <= j < |attempts| ==> attempts[j].payment != payment
  {
    if attempts == [] then None
    else if attempts[|attempts| - 1].payment == payment then Some(|attempts| - 1)
    else LastAttempt(attempts[..|attempts| - 1], payment)
  }

  /** `orderBy: { attemptNumber: 'desc' }, take: 1`, or 0 when the payment has no attempt. */
  function HighestNumber(attempts: seq<Attempt>, payment: nat): nat {
    if attempts == [] then 0
    else
      var rest := HighestNumber(attempts[..|attempts| - 1], payment);
      var last := attempts[|attempts| - 1];
      if last.payment == payment && last.number > rest then last.number else rest
  }

  // ------------------------------------------------------------------------------------------
  // Service calls

  function CreateForUserSpec(l: Ledger, user: nat, order: nat): (Ledger, Answer) {
    if order >= |l.orders| || l.orders[order].user != user then (l, Forbidden)
    else if HasPayment(l.payments, order) then (l, Conflict)
    else (CommitPaymentSpec(l, order), Accepted)
  }

  /** The creation transaction alone. */
  function CommitPaymentSpec(l: Ledger, order: nat): Ledger
    requires order < |l.orders|
  {
    var amount, currency := l.orders[order].total, l.orders[order].currency;
    l.(payments := l.payments + [Payment(order, PaymentPending, amount, currency, 0, 0, None)],
       attempts := l.attempts + [Attempt(|l.payments|, 1, Initiated, l.nextReference, amount, currency)],
       nextReference := l.nextReference + 1)
  }

  predicate OwnsPayment(l: Ledger, user: nat, payment: nat) {
    && payment < |l.payments|
    && l.payments[payment].order < |l.orders|
    && l.orders[l.payments[payment].order].user == user
  }

  /** The retry transaction, which re-checks the status it finds. */
  function CommitRetrySpec(l: Ledger, payment: nat): (Ledger, Answer) {
    if payment >= |l.payments| then (l, NotFound)
    else if l.payments[payment].status != PaymentFailed then (l, Conflict)
    else
      var number := HighestNumber(l.attempts, payment) + 1;
      (l.(attempts := l.attempts + [Attempt(payment, number, Initiated, l.nextReference, l.payments[payment].amount,
                                            l.payments[payment].currency)],
          payments := l.payments[payment := l.payments[payment].(status := PaymentPending)],
          nextReference := l.nextReference + 1),
       Accepted)
  }

  function RetrySpec(l: Ledger, user: nat, payment: nat): (Ledger, Answer) {
    if !OwnsPayment(l, user, payment) then (l, Forbidden) else CommitRetrySpec(l, payment)
  }

  /** The refundable-balance check, which looks at settled refunds only. */
  function RefundCheck(l: Ledger, payment: nat, amount: int): Answer {
    if payment >= |l.payments| then NotFound
    else if amount <= 0 then BadRequest
    else if amount > l.payments[payment].paid - l.payments[payment].refunded then Conflict
    else Accepted
  }

  /** The insert of the refund row. */
  function CommitRefundSpec(l: Ledger, admin: nat, payment: nat, amount: int): Ledger {
    l.(refunds := l.refunds + [Refund(payment, amount, RefundPending, l.nextReference, admin)],
       nextReference := l.nextReference + 1)
  }

  function CreateRefundSpec(l: Ledger, admin: nat, payment: nat, amount: int): (Ledger, Answer) {
    var check := RefundCheck(l, payment, amount);
    if check == Accepted then (CommitRefundSpec(l, admin, payment, amount), Accepted) else (l, check)
  }

  /** The payment-outcome transaction; its updates are unconditional. */
  function CommitOutcomeSpec(l: Ledger, a: nat, succeeded: bool): Ledger
    requires a < |l.attempts| && l.attempts[a].payment < |l.payments|
    requires l.payments[l.attempts[a].payment].order < |l.orders|
  {
    var p := l.attempts[a].payment;
    var payment := l.payments[p];
    var paymentAfter := if succeeded
                        then payment.(status := Paid, paid := payment.amount,
                                      reference := Some(l.attempts[a].reference))
                        else payment.(status := PaymentFailed);
    l.(attempts := l.attempts[a := l.attempts[a].(status := if succeeded then Succeeded else AttemptFailed)],
       payments := l.payments[p := paymentAfter],
       orders := l.orders[payment.order :=
         l.orders[payment.order].(paymentStatus := if succeeded then Paid else PaymentFailed)])
  }

  /** The in-place `refunded_amount = refunded_amount + amount` with its CASE on the new total. */
  function Accumulated(p: Payment, amount: int): Payment {
    p.(refunded := p.refunded + amount,
       status := if p.refunded + amount >= p.paid then Refunded else PartiallyRefunded)
  }

  /** The refund-settlement transaction: nothing happens unless the refund row is still PENDING. */
  function CommitSettlementSpec(l: Ledger, r: nat, succeeded: bool): Ledger
    requires r < |l.refunds| && l.refunds[r].payment < |l.payments|
    requires l.payments[l.refunds[r].payment].order < |l.orders|
  {
    var refund := l.refunds[r];
    if refund.status != RefundPending then l
    else
      var m := l.(refunds := l.refunds[r := refund.(status := if succeeded then RefundSucceeded else RefundFailed)]);
      if !succeeded then m
      else
        var after := Accumulated(l.payments[refund.payment], refund.amount);
        m.(payments := l.payments[refund.payment := after],
           orders := l.orders[after.order := l.orders[after.order].(paymentStatus := after.status)])
  }

  // ------------------------------------------------------------------------------------------
  // The ledger invariant: payment status is a function of attempts and refunds

  function SettledOf(p: nat): Refund -> int {
    (r: Refund) => if r.payment == p && r.status == RefundSucceeded then r.amount else 0
  }

  function PendingOf(p: nat): Refund -> int {
    (r: Refund) => if r.payment == p && r.status == RefundPending then r.amount else 0
  }

  function AttemptOf(p: nat): Attempt -> int {
    (a: Attempt) => if a.payment == p then 1 else 0
  }

  /** What a payment's status must be, given its newest attempt and what has been refunded. */
  function DerivedStatus(last: AttemptStatus, amount: int, settled: int): PaymentStatus {
    match last
    case Initiated => PaymentPending
    case AttemptFailed => PaymentFailed
    case Succeeded => if settled == 0 then Paid else if settled >= amount then Refunded else PartiallyRefunded
  }

  ghost predicate ReferencesOk(l: Ledger) {
    && (forall i :: 0 <= i < |l.attempts| ==> l.attempts[i].reference < l.nextReference)
    && (forall i :: 0 <= i < |l.refunds| ==> l.refunds[i].reference < l.nextReference)
    && (forall i, j :: 0 <= i < j < |l.attempts| ==> l.attempts[i].reference != l.attempts[j].reference)
    && (forall i, j :: 0 <= i < j < |l.refunds| ==> l.refunds[i].reference != l.refunds[j].reference)
  }

  /** Attempts are numbered 1, 2, 3, ... within their payment, and all but the newest have failed. */
  ghost predicate AttemptsOk(attempts: seq<Attempt>, payments: seq<Payment>) {
    && (forall i :: 0 <= i < |attempts| ==>
          && attempts[i].payment < |payments|
          && attempts[i].number == Sum(attempts[..i], AttemptOf(attempts[i].payment)) + 1
          && attempts[i].amount == payments[attempts[i].payment].amount
          && attempts[i].currency == payments[attempts[i].payment].currency)
    && (forall i, j :: 0 <= i < j < |attempts| && attempts[i].payment == attempts[j].payment ==>
          attempts[i].status == AttemptFailed)
  }

  ghost predicate RefundsOk(l: Ledger) {
    forall r :: 0 <= r < |l.refunds| ==> l.refunds[r].payment < |l.payments| && l.refunds[r].amount > 0
  }

  ghost predicate OnePaymentPerOrder(l: Ledger) {
    && (forall p :: 0 <= p < |l.payments| ==> l.payments[p].order < |l.orders|)
    && (forall p, q :: 0 <= p < q < |l.payments| ==> l.payments[p].order != l.payments[q].order)
    && (forall o: nat :: o < |l.orders| && !HasPayment(l.payments, o) ==> l.orders[o].paymentStatus == PaymentPending)
  }

  /** Everything the rows of one payment and its order say is determined by its attempts and refunds. */
  ghost predicate PaymentOk(l: Ledger, p: nat)
    requires p < |l.payments| && l.payments[p].order < |l.orders|
  {
    var payment, order, settled := l.payments[p], l.orders[l.payments[p].order], Sum(l.refunds, SettledOf(p));
    match LastAttempt(l.attempts, p)
    case None => false
    case Some(a) =>
      && payment.amount == order.total && payment.currency == order.currency
      && payment.paid == (if l.attempts[a].status == Succeeded then payment.amount else 0)
      && payment.refunded == settled
      && payment.status == DerivedStatus(l.attempts[a].status, payment.amount, settled)
      && (l.attempts[a].status != Succeeded ==> forall r :: 0 <= r < |l.refunds| ==> l.refunds[r].payment != p)
      && order.paymentStatus ==
         (if l.attempts[a].status == Initiated && l.attempts[a].number > 1 then PaymentFailed else payment.status)
  }

  ghost predicate LedgerOk(l: Ledger) {
    && ReferencesOk(l) && AttemptsOk(l.attempts, l.payments) && RefundsOk(l) && OnePaymentPerOrder(l)
    && (forall p :: 0 <= p < |l.payments| ==> PaymentOk(l, p))
  }

  // ------------------------------------------------------------------------------------------
  // What each transaction keeps

  /** A payment none of whose rows changed, and whose order did not change, is as consistent as before. */
  lemma PaymentFrame(l: Ledger, m: Ledger, p: nat)
    requires p < |l.payments| && p < |m.payments| && l.payments[p] == m.payments[p]
    requires l.payments[p].order < |l.orders| && l.payments[p].order < |m.orders|
    requires l.orders[l.payments[p].order] == m.orders[l.payments[p].order]
    requires PaymentOk(l, p)
    requires LastAttempt(m.attempts, p) == LastAttempt(l.attempts, p)
    requires var a := LastAttempt(l.attempts, p).value; m.attempts[a] == l.attempts[a]
    requires Sum(m.refunds, SettledOf(p)) == Sum(l.refunds, SettledOf(p))
    requires (forall r :: 0 <= r < |l.refunds| ==> l.refunds[r].payment != p) ==>
               forall r :: 0 <= r < |m.refunds| ==> m.refunds[r].payment != p
    ensures PaymentOk(m, p)
  {
  }

  lemma LastAttemptSnoc(attempts: seq<Attempt>, a: Attempt, p: nat)
    ensures LastAttempt(attempts + [a], p) == if a.payment == p then Some(|attempts|) else LastAttempt(attempts, p)
  {
    assert (attempts + [a])[..|attempts|] == attempts;
  }

  lemma LastAttemptUpdate(attempts: seq<Attempt>, i: nat, a: Attempt, p: nat)
    requires i < |attempts| && a.payment == attempts[i].payment
    ensures LastAttempt(attempts[i := a], p) == LastAttempt(attempts, p)
  {
    var after := attempts[i := a];
    assert forall j :: 0 <= j < |attempts| ==> after[j].payment == attempts[j].payment;
  }

  /** Numbering is by position, so the highest number is the number of attempts. */
  lemma {:induction false} HighestIsCount(attempts: seq<Attempt>, p: nat)
    requires forall i :: 0 <= i < |attempts| ==>
               attempts[i].number == Sum(attempts[..i], AttemptOf(attempts[i].payment)) + 1
    ensures HighestNumber(attempts, p) == Sum(attempts, AttemptOf(p))
  {
    if attempts != [] {
      var init := attempts[..|attempts| - 1];
      forall i | 0 <= i < |init|
        ensures init[i].number == Sum(init[..i], AttemptOf(init[i].payment)) + 1
      {
        assert init[..i] == attempts[..i];
      }
      HighestIsCount(init, p);
    }
  }

  lemma NewAttemptOk(l: Ledger, a: Attempt, m: Ledger)
    requires AttemptsOk(l.attempts, l.payments) && m.attempts == l.attempts + [a] && |l.payments| <= |m.payments|
    requires forall p :: 0 <= p < |l.payments| ==>
               m.payments[p].amount == l.payments[p].amount && m.payments[p].currency == l.payments[p].currency
    requires a.payment < |m.payments|
    requires a.amount == m.payments[a.payment].amount && a.currency == m.payments[a.payment].currency
    requires a.number == Sum(l.attempts, AttemptOf(a.payment)) + 1
    requires forall i :: 0 <= i < |l.attempts| && l.attempts[i].payment == a.payment ==>
               l.attempts[i].status == AttemptFailed
    ensures AttemptsOk(m.attempts, m.payments)
  {
    forall i | 0 <= i < |m.attempts|
      ensures m.attempts[i].number == Sum(m.attempts[..i], AttemptOf(m.attempts[i].payment)) + 1
    {
      assert m.attempts[..i] == l.attempts[..i];
      if i == |l.attempts| { assert l.attempts[..i] == l.attempts; }
    }
  }

  lemma NewPaymentOneOrder(l: Ledger, order: nat)
    requires OnePaymentPerOrder(l) && order < |l.orders| && !HasPayment(l.payments, order)
    ensures OnePaymentPerOrder(CommitPaymentSpec(l, order))
  {
    var m := CommitPaymentSpec(l, order);
    assert m.payments[|l.payments|].order == order;
    forall o: nat | o < |l.orders| && HasPayment(l.payments, o) ensures HasPayment(m.payments, o) {
      var k :| 0 <= k < |l.payments| && l.payments[k].order == o;
      assert m.payments[k].order == o;
    }
  }

  lemma NewPaymentOk(l: Ledger, order: nat, q: nat)
    requires LedgerOk(l) && order < |l.orders| && !HasPayment(l.payments, order) && q <= |l.payments|
    ensures PaymentOk(CommitPaymentSpec(l, order), q)
  {
    var m := CommitPaymentSpec(l, order);
    LastAttemptSnoc(l.attempts, m.attempts[|l.attempts|], q);
    if q < |l.payments| {
      PaymentFrame(l, m, q);
    } else {
      SumZero(l.refunds, SettledOf(q));
    }
  }

  lemma CreateKeepsLedger(l: Ledger, user: nat, order: nat)
    requires LedgerOk(l)
    ensures LedgerOk(CreateForUserSpec(l, user, order).0)
  {
    if CreateForUserSpec(l, user, order).1 == Accepted {
      var m := CommitPaymentSpec(l, order);
      SumZero(l.attempts, AttemptOf(|l.payments|));
      NewAttemptOk(l, m.attempts[|l.attempts|], m);
      NewPaymentOneOrder(l, order);
      forall q | 0 <= q < |m.payments| {
        NewPaymentOk(l, order, q);
      }
    }
  }

  /** The existence check is outside the transaction: a second payment for the order breaks the rule, exactly then. */
  lemma OnePaymentNeedsFreshCheck(l: Ledger, order: nat)
    requires OnePaymentPerOrder(l) && order < |l.orders|
    ensures OnePaymentPerOrder(CommitPaymentSpec(l, order)) <==> !HasPayment(l.payments, order)
  {
    if HasPayment(l.payments, order) {
      var k :| 0 <= k < |l.payments| && l.payments[k].order == order;
      var m := CommitPaymentSpec(l, order);
      assert m.payments[k].order == m.payments[|l.payments|].order;
    } else {
      NewPaymentOneOrder(l, order);
    }
  }

  lemma RetriedOwnPaymentOk(l: Ledger, p: nat)
    requires AttemptsOk(l.attempts, l.payments) && p < |l.payments| && l.payments[p].order < |l.orders|
    requires PaymentOk(l, p) && l.payments[p].status == PaymentFailed
    ensures PaymentOk(CommitRetrySpec(l, p).0, p)
  {
    var m := CommitRetrySpec(l, p).0;
    var a := LastAttempt(l.attempts, p).value;
    LastAttemptSnoc(l.attempts, m.attempts[|l.attempts|], p);
    SumZero(l.refunds, SettledOf(p));
    HighestIsCount(l.attempts, p);
    SumNonNegative(l.attempts, AttemptOf(p));
    assert AttemptOf(p)(l.attempts[a]) == 1;
  }

  lemma RetriedPaymentOk(l: Ledger, payment: nat, q: nat)
    requires LedgerOk(l) && payment < |l.payments| && l.payments[payment].status == PaymentFailed && q < |l.payments|
    ensures PaymentOk(CommitRetrySpec(l, payment).0, q)
  {
    if q == payment {
      RetriedOwnPaymentOk(l, q);
    } else {
      var m := CommitRetrySpec(l, payment).0;
      LastAttemptSnoc(l.attempts, m.attempts[|l.attempts|], q);
      assert PaymentOk(l, q);
      PaymentFrame(l, m, q);
    }
  }

  lemma FailedPaymentHasOnlyFailures(l: Ledger, payment: nat)
    requires LedgerOk(l) && payment < |l.payments| && l.payments[payment].status == PaymentFailed
    ensures forall i :: 0 <= i < |l.attempts| && l.attempts[i].payment == payment ==>
              l.attempts[i].status == AttemptFailed
  {
    assert PaymentOk(l, payment);
  }

  lemma RetriedAttemptsOk(l: Ledger, payment: nat)
    requires LedgerOk(l) && CommitRetrySpec(l, payment).1 == Accepted
    ensures var m := CommitRetrySpec(l, payment).0; AttemptsOk(m.attempts, m.payments)
  {
    var m := CommitRetrySpec(l, payment).0;
    HighestIsCount(l.attempts, payment);
    FailedPaymentHasOnlyFailures(l, payment);
    NewAttemptOk(l, m.attempts[|l.attempts|], m);
  }

  lemma RetryKeepsLedger(l: Ledger, payment: nat)
    requires LedgerOk(l)
    ensures LedgerOk(CommitRetrySpec(l, payment).0)
  {
    if CommitRetrySpec(l, payment).1 == Accepted {
      RetriedAttemptsOk(l, payment);
      RetryKeepsOrders(l, payment);
      forall q | 0 <= q < |l.payments| {
        RetriedPaymentOk(l, payment, q);
      }
    }
  }

  lemma RetryKeepsOrders(l: Ledger, payment: nat)
    requires OnePaymentPerOrder(l)
    ensures OnePaymentPerOrder(CommitRetrySpec(l, payment).0)
  {
    SamePaymentOrders(l, CommitRetrySpec(l, payment).0);
  }

  /** Which orders have payments does not change when payments keep their orders. */
  lemma SamePaymentOrders(l: Ledger, m: Ledger)
    requires OnePaymentPerOrder(l) && |m.payments| == |l.payments| && |m.orders| == |l.orders|
    requires forall p :: 0 <= p < |l.payments| ==> m.payments[p].order == l.payments[p].order
    requires forall o: nat :: o < |l.orders| && !HasPayment(l.payments, o) ==> m.orders[o] == l.orders[o]
    ensures OnePaymentPerOrder(m)
  {
    forall o: nat | o < |l.orders| && HasPayment(l.payments, o) ensures HasPayment(m.payments, o) {
      var k :| 0 <= k < |l.payments| && l.payments[k].order == o;
      assert m.payments[k].order == o;
    }
  }

  /** The payment's newest attempt went through. */
  predicate WentThrough(l: Ledger, payment: nat) {
    match LastAttempt(l.attempts, payment)
    case Some(a) => payment < |l.payments| && l.attempts[a].status == Succeeded
    case None => false
  }

  /** A refund may be inserted for any payment whose newest attempt succeeded, however stale the balance check was. */
  lemma {:induction false} RefundKeepsLedger(l: Ledger, admin: nat, payment: nat, amount: int)
    requires LedgerOk(l) && amount > 0
    requires WentThrough(l, payment)
    ensures LedgerOk(CommitRefundSpec(l, admin, payment, amount))
  {
    var m := CommitRefundSpec(l, admin, payment, amount);
    SamePaymentOrders(l, m);
    forall q | 0 <= q < |m.payments| {
      RefundedPaymentOk(l, admin, payment, amount, q);
    }
  }

  lemma RefundedPaymentOk(l: Ledger, admin: nat, payment: nat, amount: int, q: nat)
    requires WentThrough(l, payment) && q < |l.payments|
    requires l.payments[q].order < |l.orders| && PaymentOk(l, q)
    ensures PaymentOk(CommitRefundSpec(l, admin, payment, amount), q)
  {
    var m := CommitRefundSpec(l, admin, payment, amount);
    SumSnoc(l.refunds, m.refunds[|l.refunds|], SettledOf(q));
  }

  /** Passing the balance check means the newest attempt succeeded: only such a payment has anything to refund. */
  lemma RefundableWasPaid(l: Ledger, payment: nat, amount: int)
    requires LedgerOk(l) && RefundCheck(l, payment, amount) == Accepted
    ensures WentThrough(l, payment)
  {
    assert PaymentOk(l, payment);
    SumNonNegative(l.refunds, SettledOf(payment));
  }

  /** Two attempts that are both open belong to different payments and to different orders. */
  lemma OpenAttemptIsLast(l: Ledger, a: nat)
    requires LedgerOk(l) && a < |l.attempts| && l.attempts[a].status != AttemptFailed
    ensures l.attempts[a].payment < |l.payments| && LastAttempt(l.attempts, l.attempts[a].payment) == Some(a)
  {
    assert PaymentOk(l, l.attempts[a].payment);
  }

  lemma ResolvedPaymentOk(l: Ledger, a: nat, succeeded: bool, q: nat)
    requires LedgerOk(l) && a < |l.attempts| && l.attempts[a].status == Initiated && q < |l.payments|
    ensures PaymentOk(CommitOutcomeSpec(l, a, succeeded), q)
  {
    var m := CommitOutcomeSpec(l, a, succeeded);
    var p := l.attempts[a].payment;
    OpenAttemptIsLast(l, a);
    LastAttemptUpdate(l.attempts, a, m.attempts[a], q);
    assert PaymentOk(l, q);
    if q != p {
      PaymentFrame(l, m, q);
    } else {
      SumZero(l.refunds, SettledOf(q));
    }
  }

  /** Changing one attempt's status keeps the numbering; it may be anything if no newer attempt exists. */
  lemma {:induction false} RestatusedAttemptsOk(attempts: seq<Attempt>, before: seq<Payment>, a: nat, x: Attempt,
                                                after: seq<Payment>)
    requires AttemptsOk(attempts, before) && a < |attempts| && x == attempts[a].(status := x.status)
    requires |after| == |before|
    requires forall p :: 0 <= p < |before| ==>
               after[p].amount == before[p].amount && after[p].currency == before[p].currency
    requires x.status == AttemptFailed || LastAttempt(attempts, x.payment) == Some(a)
    ensures AttemptsOk(attempts[a := x], after)
  {
    var m := attempts[a := x];
    hide AttemptOf;
    forall i | 0 <= i < |m|
      ensures m[i].number == Sum(m[..i], AttemptOf(m[i].payment)) + 1
    {
      SumAlike(attempts[..i], AttemptOf(attempts[i].payment), m[..i], AttemptOf(attempts[i].payment));
    }
  }

  lemma OutcomeKeepsOtherTables(l: Ledger, a: nat, succeeded: bool)
    requires ReferencesOk(l) && RefundsOk(l) && OnePaymentPerOrder(l)
    requires a < |l.attempts| && l.attempts[a].payment < |l.payments|
    ensures var m := CommitOutcomeSpec(l, a, succeeded); ReferencesOk(m) && RefundsOk(m) && OnePaymentPerOrder(m)
  {
    assert HasPayment(l.payments, l.payments[l.attempts[a].payment].order);
    SamePaymentOrders(l, CommitOutcomeSpec(l, a, succeeded));
  }

  /** Resolving an INITIATED attempt, either way, keeps the ledger consistent. */
  lemma OutcomeKeepsLedger(l: Ledger, a: nat, succeeded: bool)
    requires LedgerOk(l) && a < |l.attempts| && l.attempts[a].status == Initiated
    ensures LedgerOk(CommitOutcomeSpec(l, a, succeeded))
  {
    var m := CommitOutcomeSpec(l, a, succeeded);
    OpenAttemptIsLast(l, a);
    RestatusedAttemptsOk(l.attempts, l.payments, a, m.attempts[a], m.payments);
    OutcomeKeepsOtherTables(l, a, succeeded);
    forall q | 0 <= q < |m.payments| {
      ResolvedPaymentOk(l, a, succeeded, q);
    }
  }

  lemma {:induction false} SettledPaymentOk(l: Ledger, r: nat, succeeded: bool, q: nat)
    requires LedgerOk(l) && r < |l.refunds| && l.refunds[r].status == RefundPending && q < |l.payments|
    ensures PaymentOk(CommitSettlementSpec(l, r, succeeded), q)
  {
    var m := CommitSettlementSpec(l, r, succeeded);
    var p := l.refunds[r].payment;
    SumUpdate(l.refunds, r, m.refunds[r], SettledOf(q));
    SumNonNegative(l.refunds, SettledOf(q));
    assert PaymentOk(l, q);
    if q != p {
      PaymentFrame(l, m, q);
    }
  }

  /** No lost update: settling any refund row at any time keeps `refundedAmount` the sum of the SUCCEEDED refunds. */
  lemma SettlementKeepsLedger(l: Ledger, r: nat, succeeded: bool)
    requires LedgerOk(l) && r < |l.refunds|
    ensures LedgerOk(CommitSettlementSpec(l, r, succeeded))
  {
    if l.refunds[r].status == RefundPending {
      var m := CommitSettlementSpec(l, r, succeeded);
      assert HasPayment(l.payments, l.payments[l.refunds[r].payment].order);
      SamePaymentOrders(l, m);
      forall q | 0 <= q < |m.payments| {
        SettledPaymentOk(l, r, succeeded, q);
      }
    }
  }
}
