/**
 * Payment runs in which also the two unguarded transactions, payment creation and payment outcome, run any time after
 * the checks before them. Such a run stays consistent exactly as long as each of them happens to be harmless.
 */
module StalePayments {
  import opened Common
  import opened Payments
  import opened Webhooks
  import opened PaymentRuns

  datatype LooseStep =
    | Guarded(step: Step)
    | InsertPayment(order: nat)                        // the creation transaction, however old its check
    | CommitOutcome(attempt: nat, succeeded: bool)     // the outcome transaction, however old its check

  predicate LooseAllowed(w: World, s: LooseStep) {
    match s
    case Guarded(step) => Allowed(w, step)
    case InsertPayment(o) => o < |w.b.ledger.orders|
    case CommitOutcome(a, _) => a < |w.b.ledger.attempts|
  }

  function LooseNext(w: World, s: LooseStep): World
    requires Linked(w.b.ledger) && LooseAllowed(w, s)
  {
    match s
    case Guarded(step) => Next(w, step)
    case InsertPayment(o) => WithLedger(w, CommitPaymentSpec(w.b.ledger, o))
    case CommitOutcome(a, succeeded) => WithLedger(w, CommitOutcomeSpec(w.b.ledger, a, succeeded))
  }

  predicate LooseRun(w: World, steps: seq<LooseStep>)
    decreases |steps|
  {
    steps == [] ||
    (Linked(w.b.ledger) && LooseAllowed(w, steps[0]) && LooseRun(LooseNext(w, steps[0]), steps[1..]))
  }

  /** What the order or the attempt must look like when the unguarded transaction runs. */
  ghost predicate Harmless(w: World, s: LooseStep)
    requires Linked(w.b.ledger) && LooseAllowed(w, s)
  {
    match s
    case Guarded(_) => true
    case InsertPayment(o) => !HasPayment(w.b.ledger.payments, o)
    case CommitOutcome(a, succeeded) => HarmlessOutcome(w.b.ledger, a, succeeded)
  }

  ghost predicate HarmlessRun(w: World, steps: seq<LooseStep>)
    requires LooseRun(w, steps)
    decreases |steps|
  {
    steps == [] || (Harmless(w, steps[0]) && HarmlessRun(LooseNext(w, steps[0]), steps[1..]))
  }

  ghost predicate ConsistentThroughout(w: World, steps: seq<LooseStep>)
    requires LooseRun(w, steps)
    decreases |steps|
  {
    LedgerOk(w.b.ledger) && (steps == [] || ConsistentThroughout(LooseNext(w, steps[0]), steps[1..]))
  }

  /** A refund check that has passed was about a payment of a positive amount. */
  ghost predicate LooseInv(w: World) {
    Inv(w) && forall c :: c in w.checked ==> w.b.ledger.payments[c.1].amount > 0
  }

  lemma CheckedAmountIsPositive(l: Ledger, p: nat, amount: int)
    requires LedgerOk(l) && RefundCheck(l, p, amount) == Accepted
    ensures l.payments[p].amount > 0
  {
    assert PaymentOk(l, p);
    SumNonNegative(l.refunds, SettledOf(p));
  }

  lemma GuardedStepKeeps(w: World, s: Step)
    requires LooseInv(w) && Linked(w.b.ledger) && Allowed(w, s)
    ensures LooseInv(Next(w, s))
  {
    StepKeepsInv(w, s);
    if s.CheckRefund? && RefundCheck(w.b.ledger, s.payment, s.amount) == Accepted {
      CheckedAmountIsPositive(w.b.ledger, s.payment, s.amount);
    }
    hide LedgerOk, Linked, Deliver, CommitSettlementSpec, CommitRefundSpec, CreateForUserSpec, CommitRetrySpec;
  }

  lemma InsertPaymentIff(w: World, o: nat)
    requires LooseInv(w) && o < |w.b.ledger.orders|
    ensures var m := CommitPaymentSpec(w.b.ledger, o);
            && (LedgerOk(m) <==> !HasPayment(w.b.ledger.payments, o))
            && (LedgerOk(m) ==> LooseInv(WithLedger(w, m)))
  {
    var l := w.b.ledger;
    OnePaymentNeedsFreshCheck(l, o);
    if !HasPayment(l.payments, o) {
      CreateKeepsLedger(l, l.orders[o].user, o);
      CreatePersists(l, l.orders[o].user, o);
    }
  }

  /** A harmless outcome un-pays no payment of a positive amount. */
  lemma HarmlessKeepsPaid(l: Ledger, a: nat, succeeded: bool, p: nat)
    requires LedgerOk(l) && Linked(l) && a < |l.attempts| && HarmlessOutcome(l, a, succeeded)
    requires WentThrough(l, p) && l.payments[p].amount > 0
    ensures WentThrough(CommitOutcomeSpec(l, a, succeeded), p)
  {
    LastAttemptUpdate(l.attempts, a, CommitOutcomeSpec(l, a, succeeded).attempts[a], p);
  }

  lemma CommitOutcomeIff(w: World, a: nat, succeeded: bool)
    requires LooseInv(w) && Linked(w.b.ledger) && a < |w.b.ledger.attempts|
    ensures var m := CommitOutcomeSpec(w.b.ledger, a, succeeded);
            && (LedgerOk(m) <==> HarmlessOutcome(w.b.ledger, a, succeeded))
            && (LedgerOk(m) ==> LooseInv(WithLedger(w, m)))
  {
    var l, m := w.b.ledger, CommitOutcomeSpec(w.b.ledger, a, succeeded);
    StaleOutcomeIff(l, a, succeeded);
    if HarmlessOutcome(l, a, succeeded) {
      forall c | c in w.checked ensures WentThrough(m, c.1) && m.payments[c.1].amount > 0 {
        HarmlessKeepsPaid(l, a, succeeded, c.1);
      }
      hide LedgerOk, HarmlessOutcome, WentThrough;
    }
  }

  lemma LooseStepIff(w: World, s: LooseStep)
    requires LooseInv(w) && Linked(w.b.ledger) && LooseAllowed(w, s)
    ensures LedgerOk(LooseNext(w, s).b.ledger) <==> Harmless(w, s)
    ensures LedgerOk(LooseNext(w, s).b.ledger) ==> LooseInv(LooseNext(w, s))
  {
    hide LedgerOk, Linked, Next, Allowed, HarmlessOutcome, CommitPaymentSpec, CommitOutcomeSpec;
    match s
    case Guarded(step) => GuardedStepKeeps(w, step);
    case InsertPayment(o) => InsertPaymentIff(w, o);
    case CommitOutcome(a, succeeded) => CommitOutcomeIff(w, a, succeeded);
  }

  /**
   * With every check of the payment side as old as it may be, the ledger stays consistent all along a run if and only
   * if each unguarded transaction of the run is harmless at the moment it runs.
   */
  lemma {:induction false} ConsistentThroughoutIff(w: World, steps: seq<LooseStep>)
    requires LooseInv(w) && LooseRun(w, steps)
    ensures ConsistentThroughout(w, steps) <==> HarmlessRun(w, steps)
    decreases |steps|
  {
    InvIsLedgerOk(w);
    hide Inv, LooseInv, LedgerOk, Linked, LooseNext, LooseAllowed, Harmless;
    if steps != [] {
      LooseStepIff(w, steps[0]);
      if Harmless(w, steps[0]) {
        ConsistentThroughoutIff(LooseNext(w, steps[0]), steps[1..]);
      } else {
        NotConsistent(LooseNext(w, steps[0]), steps[1..]);
      }
    }
  }

  lemma NotConsistent(w: World, steps: seq<LooseStep>)
    requires LooseRun(w, steps) && !LedgerOk(w.b.ledger)
    ensures !ConsistentThroughout(w, steps)
  {
    hide LedgerOk, LooseNext, LooseAllowed, Linked;
  }

  /** What the foreign keys keep even after a harmful step. */
  ghost predicate InRange(w: World) {
    Linked(w.b.ledger) && forall c :: c in w.checked ==> c.1 < |w.b.ledger.payments|
  }

  lemma StepKeepsInRange(w: World, s: LooseStep)
    requires InRange(w) && LooseAllowed(w, s)
    ensures InRange(LooseNext(w, s))
  {
    hide HighestNumber, HasPayment, FindAttempt, FindRefund;
    match s
    case Guarded(InsertRefund(admin, p, amount)) => assert (admin, p, amount).1 < |w.b.ledger.payments|;
    case _ =>
  }

  /** The place of `Linked` in `LooseRun` rules out no step of any run, consistent or not. */
  lemma {:induction false} LooseRunsExtend(w: World, s: LooseStep, steps: seq<LooseStep>)
    requires InRange(w)
    ensures LooseRun(w, [s] + steps) <==> LooseAllowed(w, s) && LooseRun(LooseNext(w, s), steps)
    ensures LooseAllowed(w, s) ==> InRange(LooseNext(w, s))
  {
    assert ([s] + steps)[1..] == steps;
    if LooseAllowed(w, s) {
      StepKeepsInRange(w, s);
    }
    hide LooseNext, LooseAllowed;
  }
}
