/** Whole runs of the payment side: first outcome wins, refunds never lost, and when refunds stay covered. */
module PaymentRuns {
  import opened Common
  import opened Payments
  import opened Webhooks

  // ------------------------------------------------------------------------------------------
  // First outcome wins

  /** The first recognised, non-replayed delivery about each subject, given what was seen and settled before. */
  function Winners(ds: seq<Delivery>, seen: set<EventKey>, settled: set<Subject>): seq<Delivery> {
    if ds == [] then []
    else if ds[0].key in seen then Winners(ds[1..], seen, settled)
    else
      match SubjectOf(ds[0])
      case None => Winners(ds[1..], seen + {ds[0].key}, settled)
      case Some(s) =>
        if s in settled then Winners(ds[1..], seen + {ds[0].key}, settled)
        else [ds[0]] + Winners(ds[1..], seen + {ds[0].key}, settled + {s})
  }

  /** Nothing more can happen to this subject: it is unknown, or already resolved. */
  predicate Settled(l: Ledger, s: Subject) {
    match s
    case PaymentSubject(r) =>
      var a := FindAttempt(l.attempts, r); a.Some? ==> l.attempts[a.value].status != Initiated
    case RefundSubject(r) =>
      var f := FindRefund(l.refunds, r); f.Some? ==> l.refunds[f.value].status != RefundPending
  }

  lemma SettledHasNoEffect(l: Ledger, d: Delivery)
    requires Linked(l)
    requires SubjectOf(d).None? || Settled(l, SubjectOf(d).value)
    ensures Resolve(l, d.kind, d.reference).0 == l
  {
  }

  lemma ApplyResolves(l: Ledger, t: Target, kind: EventKind)
    requires Linked(l)
    ensures var m := Apply(l, t, kind);
            && (forall i :: 0 <= i < |l.attempts| && (t == OpenAttempt(i) || l.attempts[i].status != Initiated) ==>
                  i < |m.attempts| && m.attempts[i].status != Initiated)
            && (forall i :: 0 <= i < |l.refunds| && (t == OpenRefund(i) || l.refunds[i].status != RefundPending) ==>
                  i < |m.refunds| && m.refunds[i].status != RefundPending)
  {
  }

  lemma ConsistentReferences(l: Ledger)
    requires LedgerOk(l)
    ensures ReferencesOk(l)
  {
  }

  /** A delivery settles its subject, and un-settles none. */
  lemma {:induction false} ResolveSettles(l: Ledger, d: Delivery, s: Subject)
    requires LedgerOk(l) && Linked(l)
    requires SubjectOf(d) == Some(s) || Settled(l, s)
    ensures Settled(Resolve(l, d.kind, d.reference).0, s)
  {
    hide LedgerOk, Linked, Resolve, Apply, SameRows, ReferencesOk, FindAttempt, FindRefund;
    var t, m := TargetOf(l, d.kind, d.reference), Resolve(l, d.kind, d.reference).0;
    ResolveKeepsLedger(l, d.kind, d.reference);
    ResolveIsApply(l, d.kind, d.reference);
    ApplyKeepsRows(l, t, d.kind);
    ApplyResolves(l, t, d.kind);
    ConsistentReferences(l);
    ConsistentReferences(m);
    FindInSameRows(l, m, s.reference);
    assert Settled(m, s);
  }

  /** The full run and the run of the winners go through the same ledgers. */
  lemma {:induction false} WinnersSuffice(b: Billing, c: Billing, ds: seq<Delivery>, settled: set<Subject>)
    requires LedgerOk(b.ledger) && b.ledger == c.ledger && c.events.Keys <= b.events.Keys
    requires forall s :: s in settled ==> Settled(b.ledger, s)
    ensures DeliverAll(b, ds).ledger == DeliverAll(c, Winners(ds, b.events.Keys, settled)).ledger
    decreases |ds|
  {
    hide LedgerOk, Linked, Settled, Resolve;
    if ds != [] {
      var d, l := ds[0], b.ledger;
      ConsistentIsLinked(l);
      DeliverKeepsLedger(b, d);
      DeliverKeepsLedger(c, d);
      var b' := Deliver(b, d).0;
      if d.key in b.events {
        WinnersSuffice(b, c, ds[1..], settled);
      } else if SubjectOf(d).None? || SubjectOf(d).value in settled {
        SettledHasNoEffect(l, d);
        assert b'.events.Keys == b.events.Keys + {d.key};
        WinnersSuffice(b', c, ds[1..], settled);
      } else {
        var s := SubjectOf(d).value;
        var c' := Deliver(c, d).0;
        forall t | t in settled + {s} ensures Settled(b'.ledger, t) {
          ResolveSettles(l, d, t);
        }
        assert b'.events.Keys == b.events.Keys + {d.key};
        WinnersSuffice(b', c', ds[1..], settled + {s});
        var ws := Winners(ds[1..], b.events.Keys + {d.key}, settled + {s});
        assert ([d] + ws)[0] == d && ([d] + ws)[1..] == ws;
      }
    }
  }

  /**
   * First outcome wins: replays, repeats under new event ids and contradictory outcomes change nothing. Any list of
   * deliveries leaves the ledger that the first recognised, non-replayed delivery about each subject leaves.
   */
  lemma FirstOutcomeWins(b: Billing, ds: seq<Delivery>)
    requires LedgerOk(b.ledger)
    ensures DeliverAll(b, ds).ledger == DeliverAll(b, Winners(ds, b.events.Keys, {})).ledger
  {
    WinnersSuffice(b, b, ds, {});
  }

  // ------------------------------------------------------------------------------------------
  // Runs: refund reads may be stale and settlements may interleave; each other call is one atomic step

  datatype Step =
    | PlaceOrder(user: nat, total: int, currency: string)
    | CreatePayment(user: nat, order: nat)
    | RetryPayment(payment: nat)
    | RequestRefund(admin: nat, payment: nat, amount: int)      // createRefund, with nothing in between
    | CheckRefund(admin: nat, payment: nat, amount: int)        // createRefund's read and check
    | InsertRefund(admin: nat, payment: nat, amount: int)       // ... and its insert, any time later
    | RecordEvent(d: Delivery)                                  // an event row whose processing never happens
    | ReceiveEvent(d: Delivery)
    | Settle(refund: nat, succeeded: bool)                      // a settlement transaction, however old its read

  datatype World = World(b: Billing, checked: set<(nat, nat, int)>)

  function WithLedger(w: World, l: Ledger): World {
    w.(b := w.b.(ledger := l))
  }

  predicate Allowed(w: World, s: Step) {
    match s
    case InsertRefund(admin, p, amount) => (admin, p, amount) in w.checked
    case Settle(r, _) => r < |w.b.ledger.refunds|
    case _ => true
  }

  function Next(w: World, s: Step): World
    requires Linked(w.b.ledger) && Allowed(w, s)
  {
    var l := w.b.ledger;
    match s
    case PlaceOrder(u, total, currency) =>
      WithLedger(w, l.(orders := l.orders + [Order(u, total, currency, PaymentPending)]))
    case CreatePayment(u, o) => WithLedger(w, CreateForUserSpec(l, u, o).0)
    case RetryPayment(p) => WithLedger(w, CommitRetrySpec(l, p).0)
    case RequestRefund(admin, p, amount) => WithLedger(w, CreateRefundSpec(l, admin, p, amount).0)
    case CheckRefund(admin, p, amount) =>
      if RefundCheck(l, p, amount) == Accepted then w.(checked := w.checked + {(admin, p, amount)}) else w
    case InsertRefund(admin, p, amount) => WithLedger(w, CommitRefundSpec(l, admin, p, amount))
    case RecordEvent(d) =>
      if d.key in w.b.events then w
      else w.(b := w.b.(events := w.b.events[d.key := Event(d.kind, d.reference, Received)]))
    case ReceiveEvent(d) => w.(b := Deliver(w.b, d).0)
    case Settle(r, succeeded) => WithLedger(w, CommitSettlementSpec(l, r, succeeded))
  }

  /** Every checked refund request is for a payment that went through, and stays so. */
  ghost predicate Inv(w: World) {
    LedgerOk(w.b.ledger) && forall c :: c in w.checked ==> c.2 > 0 && WentThrough(w.b.ledger, c.1)
  }

  /** What no step takes back: amounts, resolved rows, successful payments, and refunded money. */
  ghost predicate Persists(l: Ledger, m: Ledger) {
    && |l.payments| <= |m.payments| && |l.refunds| <= |m.refunds| && |l.attempts| <= |m.attempts|
    && (forall p :: 0 <= p < |l.payments| ==>
          && m.payments[p].order == l.payments[p].order && m.payments[p].amount == l.payments[p].amount
          && m.payments[p].refunded >= l.payments[p].refunded
          && (WentThrough(l, p) ==> WentThrough(m, p)))
    && (forall a :: 0 <= a < |l.attempts| && l.attempts[a].status != Initiated ==> m.attempts[a] == l.attempts[a])
    && (forall r :: 0 <= r < |l.refunds| && l.refunds[r].status != RefundPending ==> m.refunds[r] == l.refunds[r])
  }

  lemma PersistsTransitive(l: Ledger, m: Ledger, n: Ledger)
    requires Persists(l, m) && Persists(m, n)
    ensures Persists(l, n)
  {
  }

  lemma PlaceKeeps(l: Ledger, o: Order)
    requires LedgerOk(l) && o.paymentStatus == PaymentPending
    ensures LedgerOk(l.(orders := l.orders + [o])) && Persists(l, l.(orders := l.orders + [o]))
  {
    var m := l.(orders := l.orders + [o]);
    forall p | 0 <= p < |l.payments| ensures PaymentOk(m, p) {
      PaymentFrame(l, m, p);
    }
  }

  lemma {:induction false} OutcomePersists(l: Ledger, a: nat, succeeded: bool)
    requires LedgerOk(l) && a < |l.attempts| && l.attempts[a].status == Initiated
    ensures Persists(l, CommitOutcomeSpec(l, a, succeeded))
  {
    var m := CommitOutcomeSpec(l, a, succeeded);
    OpenAttemptIsLast(l, a);
    forall p | 0 <= p < |l.payments| && WentThrough(l, p) ensures WentThrough(m, p) {
      LastAttemptUpdate(l.attempts, a, m.attempts[a], p);
    }
  }

  lemma SettlementPersists(l: Ledger, r: nat, succeeded: bool)
    requires LedgerOk(l) && r < |l.refunds|
    ensures Persists(l, CommitSettlementSpec(l, r, succeeded))
  {
  }

  lemma ResolvePersists(l: Ledger, kind: EventKind, reference: Option<nat>)
    requires LedgerOk(l) && Linked(l)
    ensures Persists(l, Resolve(l, kind, reference).0)
  {
    ResolveIsApply(l, kind, reference);
    TargetHasReference(l, kind, reference);
    match TargetOf(l, kind, reference)
    case OpenAttempt(a) => OutcomePersists(l, a, kind == PaymentSucceeded);
    case OpenRefund(r) => SettlementPersists(l, r, kind == RefundSuccess);
    case _ =>
  }

  lemma NewAttemptPersists(l: Ledger, m: Ledger, a: Attempt)
    requires m.attempts == l.attempts + [a] && m.refunds == l.refunds && |l.payments| <= |m.payments|
    requires forall p :: 0 <= p < |l.payments| ==>
               m.payments[p] == l.payments[p].(status := m.payments[p].status)
    requires !WentThrough(l, a.payment)
    ensures Persists(l, m)
  {
    forall p | 0 <= p < |l.payments| && WentThrough(l, p) ensures WentThrough(m, p) {
      LastAttemptSnoc(l.attempts, a, p);
    }
  }

  lemma CreatePersists(l: Ledger, user: nat, order: nat)
    requires LedgerOk(l)
    ensures Persists(l, CreateForUserSpec(l, user, order).0)
  {
    var (m, answer) := CreateForUserSpec(l, user, order);
    if answer == Accepted {
      NewAttemptPersists(l, m, m.attempts[|l.attempts|]);
    }
  }

  lemma {:induction false} RetryPersists(l: Ledger, payment: nat)
    requires LedgerOk(l)
    ensures Persists(l, CommitRetrySpec(l, payment).0)
  {
    var (m, answer) := CommitRetrySpec(l, payment);
    if answer == Accepted {
      assert PaymentOk(l, payment);
      NewAttemptPersists(l, m, m.attempts[|l.attempts|]);
    }
  }

  lemma RefundPersists(l: Ledger, admin: nat, payment: nat, amount: int)
    ensures Persists(l, CommitRefundSpec(l, admin, payment, amount))
  {
  }

  lemma StepKeepsLedger(w: World, s: Step)
    requires Inv(w) && Linked(w.b.ledger) && Allowed(w, s)
    ensures LedgerOk(Next(w, s).b.ledger) && Persists(w.b.ledger, Next(w, s).b.ledger)
  {
    var l := w.b.ledger;
    hide LedgerOk, Linked, Persists, Resolve;
    hide CommitSettlementSpec, CommitRefundSpec, CreateForUserSpec, CommitRetrySpec;
    match s
    case PlaceOrder(u, total, currency) => PlaceKeeps(l, Order(u, total, currency, PaymentPending));
    case CreatePayment(u, o) => CreateKeepsLedger(l, u, o); CreatePersists(l, u, o);
    case RetryPayment(p) => RetryKeepsLedger(l, p); RetryPersists(l, p);
    case RequestRefund(admin, p, amount) =>
      if RefundCheck(l, p, amount) == Accepted {
        RefundableWasPaid(l, p, amount);
        RefundKeepsLedger(l, admin, p, amount);
        RefundPersists(l, admin, p, amount);
      } else {
        PersistsReflexive(l);
      }
    case CheckRefund(_, _, _) => PersistsReflexive(l);
    case InsertRefund(admin, p, amount) =>
      assert (admin, p, amount).2 > 0 && WentThrough(l, (admin, p, amount).1);
      RefundKeepsLedger(l, admin, p, amount);
      RefundPersists(l, admin, p, amount);
    case RecordEvent(_) => PersistsReflexive(l);
    case ReceiveEvent(d) =>
      PersistsReflexive(l);
      DeliverKeepsLedger(w.b, d);
      ResolvePersists(l, d.kind, d.reference);
    case Settle(r, succeeded) => SettlementKeepsLedger(l, r, succeeded); SettlementPersists(l, r, succeeded);
  }

  lemma PersistsReflexive(l: Ledger)
    ensures Persists(l, l)
  {
  }

  lemma StepKeepsInv(w: World, s: Step)
    requires Inv(w) && Linked(w.b.ledger) && Allowed(w, s)
    ensures Inv(Next(w, s)) && Persists(w.b.ledger, Next(w, s).b.ledger)
  {
    StepKeepsLedger(w, s);
    forall c | c in Next(w, s).checked ensures c.2 > 0 && WentThrough(Next(w, s).b.ledger, c.1) {
      if c !in w.checked {
        RefundableWasPaid(w.b.ledger, c.1, c.2);
      }
    }
  }

  predicate AllowedRun(w: World, steps: seq<Step>)
    decreases |steps|
  {
    steps == [] ||
    (Linked(w.b.ledger) && Allowed(w, steps[0]) && AllowedRun(Next(w, steps[0]), steps[1..]))
  }

  function Run(w: World, steps: seq<Step>): World
    requires AllowedRun(w, steps)
    decreases |steps|
  {
    if steps == [] then w else Run(Next(w, steps[0]), steps[1..])
  }

  const INITIAL := World(Billing(Ledger([], [], [], [], 0), map[]), {})

  /** Main theorem: along every run the whole ledger invariant holds and nothing settled is taken back. */
  lemma {:induction false} RunKeepsInv(w: World, steps: seq<Step>)
    requires Inv(w) && AllowedRun(w, steps)
    ensures Inv(Run(w, steps)) && Persists(w.b.ledger, Run(w, steps).b.ledger)
    decreases |steps|
  {
    hide Inv, Linked, Persists;
    if steps == [] {
      PersistsReflexive(w.b.ledger);
    } else {
      StepKeepsInv(w, steps[0]);
      RunKeepsInv(Next(w, steps[0]), steps[1..]);
      PersistsTransitive(w.b.ledger, Next(w, steps[0]).b.ledger, Run(w, steps).b.ledger);
    }
  }

  /** Consistency implies `Linked`, so its place in `AllowedRun` rules out no step of any run. */
  lemma {:induction false} RunsExtend(w: World, steps: seq<Step>, s: Step)
    requires Inv(w) && AllowedRun(w, steps)
    ensures AllowedRun(w, steps + [s]) <==> Allowed(Run(w, steps), s)
    decreases |steps|
  {
    hide Linked, Next, Allowed;
    ConsistentIsLinked(w.b.ledger);
    if steps == [] {
      assert ([] + [s])[0] == s && ([] + [s])[1..] == [];
    } else {
      StepKeepsInv(w, steps[0]);
      assert (steps + [s])[1..] == steps[1..] + [s];
      RunsExtend(Next(w, steps[0]), steps[1..], s);
    }
  }

  lemma InitialInv()
    ensures Inv(INITIAL)
  {
  }

  /** What a payment and its order say is determined by its attempts and refunds. */
  ghost predicate PaymentDetermined(l: Ledger, p: nat)
    requires p < |l.payments|
  {
    && l.payments[p].order < |l.orders| && LastAttempt(l.attempts, p).Some?
    && var a, settled := l.attempts[LastAttempt(l.attempts, p).value], Sum(l.refunds, SettledOf(p));
    && a.number == Sum(l.attempts, AttemptOf(p))
    && (forall i :: 0 <= i < |l.attempts| && l.attempts[i].payment == p && i != LastAttempt(l.attempts, p).value ==>
          l.attempts[i].status == AttemptFailed)
    && l.payments[p].status == DerivedStatus(a.status, l.payments[p].amount, settled)
    && l.payments[p].paid == (if a.status == Succeeded then l.payments[p].amount else 0)
    && l.payments[p].refunded == settled
    && l.orders[l.payments[p].order].paymentStatus ==
       (if a.status == Initiated && a.number > 1 then PaymentFailed else l.payments[p].status)
  }

  lemma LedgerDeterminesPayment(l: Ledger, p: nat)
    requires LedgerOk(l) && p < |l.payments|
    ensures PaymentDetermined(l, p)
  {
    assert PaymentOk(l, p);
    LastNumberIsCount(l.attempts, p);
  }

  /** In every reachable state payment status is a function of the attempt and refund ledger. */
  lemma PaymentStatusIsAFunctionOfTheLedger(steps: seq<Step>, p: nat)
    requires AllowedRun(INITIAL, steps) && p < |Run(INITIAL, steps).b.ledger.payments|
    ensures PaymentDetermined(Run(INITIAL, steps).b.ledger, p)
  {
    InitialInv();
    RunKeepsInv(INITIAL, steps);
    LedgerDeterminesPayment(Run(INITIAL, steps).b.ledger, p);
  }

  lemma LastNumberIsCount(attempts: seq<Attempt>, p: nat)
    requires LastAttempt(attempts, p).Some?
    requires forall i :: 0 <= i < |attempts| ==>
               attempts[i].number == Sum(attempts[..i], AttemptOf(attempts[i].payment)) + 1
    ensures attempts[LastAttempt(attempts, p).value].number == Sum(attempts, AttemptOf(p))
  {
    var a := LastAttempt(attempts, p).value;
    assert attempts == attempts[..a] + [attempts[a]] + attempts[a + 1..];
    SumAppend(attempts[..a] + [attempts[a]], attempts[a + 1..], AttemptOf(p));
    SumSnoc(attempts[..a], attempts[a], AttemptOf(p));
    SumZero(attempts[a + 1..], AttemptOf(p));
  }

  /** REFUNDED is final. */
  lemma RefundedIsFinal(w: World, steps: seq<Step>, p: nat)
    requires Inv(w) && AllowedRun(w, steps)
    requires p < |w.b.ledger.payments| && w.b.ledger.payments[p].status == Refunded
    ensures p < |Run(w, steps).b.ledger.payments| && Run(w, steps).b.ledger.payments[p].status == Refunded
  {
    RunKeepsInv(w, steps);
    var l, m := w.b.ledger, Run(w, steps).b.ledger;
    assert PaymentOk(l, p) && PaymentOk(m, p);
    SumNonNegative(l.refunds, SettledOf(p));
  }

  // ------------------------------------------------------------------------------------------
  // Stored but never processed events: the event row is the first idempotency layer

  lemma StepKeepsEvents(w: World, s: Step, key: EventKey)
    requires Linked(w.b.ledger) && Allowed(w, s) && key in w.b.events
    ensures key in Next(w, s).b.events && Next(w, s).b.events[key] == w.b.events[key]
  {
    hide Linked, Resolve, CommitSettlementSpec, CommitRefundSpec, CreateForUserSpec, CommitRetrySpec;
  }

  /** No step of any run touches the row of an event once it is stored and its own delivery is over. */
  lemma {:induction false} RunKeepsEvents(w: World, steps: seq<Step>, key: EventKey)
    requires AllowedRun(w, steps) && key in w.b.events
    ensures key in Run(w, steps).b.events && Run(w, steps).b.events[key] == w.b.events[key]
    decreases |steps|
  {
    hide Linked, Next, Allowed;
    if steps != [] {
      StepKeepsEvents(w, steps[0], key);
      RunKeepsEvents(Next(w, steps[0]), steps[1..], key);
    }
  }

  /**
   * An event whose processing broke off after its row was inserted: whatever runs afterwards, the row stays RECEIVED
   * and every redelivery of the event is answered as a duplicate without any effect.
   */
  lemma UnprocessedEventIsLost(w: World, d: Delivery, steps: seq<Step>)
    requires Inv(w) && d.key !in w.b.events
    requires AllowedRun(Next(w, RecordEvent(d)), steps)
    ensures var later := Run(Next(w, RecordEvent(d)), steps).b;
            && d.key in later.events && later.events[d.key].status == Received
            && Linked(later.ledger) && Deliver(later, d) == (later, OutcomeDuplicate)
  {
    StepKeepsInv(w, RecordEvent(d));
    RunKeepsInv(Next(w, RecordEvent(d)), steps);
    RunKeepsEvents(Next(w, RecordEvent(d)), steps, d.key);
  }

  /** What a delivery has to be about to move money: an attempt or a refund that is still open. */
  predicate NamesOpenRow(l: Ledger, d: Delivery) {
    match SubjectOf(d)
    case None => false
    case Some(PaymentSubject(r)) =>
      var a := FindAttempt(l.attempts, r); a.Some? && l.attempts[a.value].status == Initiated
    case Some(RefundSubject(r)) =>
      var f := FindRefund(l.refunds, r); f.Some? && l.refunds[f.value].status == RefundPending
  }

  /**
   * A delivery is processed exactly when its event is not stored yet, and moves money exactly when it also names an
   * open row.
   */
  lemma DeliveryTakesEffectIff(b: Billing, d: Delivery)
    requires Linked(b.ledger)
    ensures Deliver(b, d).0 != b <==> d.key !in b.events
    ensures Deliver(b, d).0.ledger != b.ledger <==> d.key !in b.events && NamesOpenRow(b.ledger, d)
  {
    var l := Deliver(b, d).0.ledger;
    if d.key !in b.events && NamesOpenRow(b.ledger, d) {
      match SubjectOf(d).value {
        case PaymentSubject(r) =>
          var a := FindAttempt(b.ledger.attempts, r).value;
          assert l.attempts[a].status != b.ledger.attempts[a].status;
        case RefundSubject(r) =>
          var f := FindRefund(b.ledger.refunds, r).value;
          assert l.refunds[f].status != b.ledger.refunds[f].status;
      }
    }
  }

  predicate Mentions(s: Step, key: EventKey) {
    (s.RecordEvent? || s.ReceiveEvent?) && s.d.key == key
  }

  /** Two worlds that differ at most in whether the event `key` is stored. */
  ghost predicate AlikeUpTo(w: World, v: World, key: EventKey) {
    && w.b.ledger == v.b.ledger && w.checked == v.checked
    && (forall k :: k != key ==> (k in w.b.events <==> k in v.b.events))
  }

  lemma StepKeepsAlike(w: World, v: World, s: Step, key: EventKey)
    requires AlikeUpTo(w, v, key) && Linked(v.b.ledger) && Allowed(v, s) && !Mentions(s, key)
    ensures Allowed(w, s) && AlikeUpTo(Next(w, s), Next(v, s), key)
  {
    hide Linked, Resolve, CommitSettlementSpec, CommitRefundSpec, CreateForUserSpec, CommitRetrySpec;
  }

  lemma {:induction false} RunKeepsAlike(w: World, v: World, steps: seq<Step>, key: EventKey)
    requires AlikeUpTo(w, v, key) && AllowedRun(v, steps)
    requires forall i :: 0 <= i < |steps| ==> !Mentions(steps[i], key)
    ensures AllowedRun(w, steps) && AlikeUpTo(Run(w, steps), Run(v, steps), key)
    decreases |steps|
  {
    hide Linked, Next, Allowed, Mentions;
    if steps != [] {
      assert w.b.ledger == v.b.ledger;
      StepKeepsAlike(w, v, steps[0], key);
      RunKeepsAlike(Next(w, steps[0]), Next(v, steps[0]), steps[1..], key);
    }
  }

  /**
   * The lost outcome can still be reported: after any run without that event, a delivery of it under an event id not
   * seen before has the effect that the original delivery would have had if it had never been stored.
   */
  lemma FreshEventIdRecovers(w: World, d: Delivery, steps: seq<Step>, id: EventKey)
    requires Inv(w) && d.key !in w.b.events && id != d.key
    requires AllowedRun(w, steps) && forall i :: 0 <= i < |steps| ==> !Mentions(steps[i], d.key)
    requires id !in Run(w, steps).b.events
    ensures Linked(w.b.ledger) && AllowedRun(Next(w, RecordEvent(d)), steps)
    ensures var lost, never := Run(Next(w, RecordEvent(d)), steps).b, Run(w, steps).b;
            && Linked(lost.ledger) && Linked(never.ledger) && d.key !in never.events
            && Deliver(lost, d.(key := id)).0.ledger == Deliver(never, d).0.ledger
  {
    ConsistentIsLinked(w.b.ledger);
    RunKeepsAlike(Next(w, RecordEvent(d)), w, steps, d.key);
    RunKeepsInv(w, steps);
    NeverStored(w, steps, d.key);
  }

  lemma {:induction false} NeverStored(w: World, steps: seq<Step>, key: EventKey)
    requires AllowedRun(w, steps) && key !in w.b.events
    requires forall i :: 0 <= i < |steps| ==> !Mentions(steps[i], key)
    ensures key !in Run(w, steps).b.events
    decreases |steps|
  {
    hide Linked, Resolve, CommitSettlementSpec, CommitRefundSpec, CreateForUserSpec, CommitRetrySpec;
    if steps != [] {
      NeverStored(Next(w, steps[0]), steps[1..], key);
    }
  }

  // ------------------------------------------------------------------------------------------
  // When refunds stay covered

  /** What a payment has refunded plus everything its pending refunds may still add. */
  function Exposure(l: Ledger, p: nat): int
    requires p < |l.payments|
  {
    l.payments[p].refunded + Sum(l.refunds, PendingOf(p))
  }

  /** Settlement outcomes (refund row, succeeded) arriving in this order. */
  function SettleAll(l: Ledger, outcomes: seq<(nat, bool)>): (m: Ledger)
    requires Linked(l)
    ensures Linked(m) && |m.payments| == |l.payments| && |m.refunds| == |l.refunds|
    decreases |outcomes|
  {
    if outcomes == [] then l
    else
      var (r, succeeded) := outcomes[0];
      SettleAll(if r < |l.refunds| then CommitSettlementSpec(l, r, succeeded) else l, outcomes[1..])
  }

  /** A settlement moves pending money to refunded money, or drops it; it never adds exposure. */
  lemma SettlementExposure(l: Ledger, r: nat, succeeded: bool, p: nat)
    requires LedgerOk(l) && Linked(l) && r < |l.refunds| && p < |l.payments|
    ensures var m := CommitSettlementSpec(l, r, succeeded);
            && |m.payments| == |l.payments| && m.payments[p].paid == l.payments[p].paid
            && Exposure(m, p) <= Exposure(l, p)
            && (succeeded ==> Exposure(m, p) == Exposure(l, p))
  {
    var m := CommitSettlementSpec(l, r, succeeded);
    if l.refunds[r].status == RefundPending {
      SumUpdate(l.refunds, r, m.refunds[r], PendingOf(p));
    }
  }

  lemma RefundedWithinExposure(l: Ledger, p: nat)
    requires LedgerOk(l) && p < |l.payments|
    ensures 0 <= l.payments[p].refunded <= Exposure(l, p)
  {
    assert PaymentOk(l, p);
    SumNonNegative(l.refunds, PendingOf(p));
    SumNonNegative(l.refunds, SettledOf(p));
  }

  lemma {:induction false} SettleAllExposure(l: Ledger, outcomes: seq<(nat, bool)>, p: nat)
    requires LedgerOk(l) && Linked(l) && p < |l.payments|
    ensures var m := SettleAll(l, outcomes);
            LedgerOk(m) && m.payments[p].paid == l.payments[p].paid && Exposure(m, p) <= Exposure(l, p)
    decreases |outcomes|
  {
    hide LedgerOk, CommitSettlementSpec, Exposure;
    if outcomes != [] {
      var (r, succeeded) := outcomes[0];
      if r < |l.refunds| {
        SettlementKeepsLedger(l, r, succeeded);
        SettlementExposure(l, r, succeeded, p);
        ConsistentIsLinked(CommitSettlementSpec(l, r, succeeded));
        SettleAllExposure(CommitSettlementSpec(l, r, succeeded), outcomes[1..], p);
      } else {
        SettleAllExposure(l, outcomes[1..], p);
      }
    }
  }

  /** Every refund settles successfully, from row `k` on. */
  function AllSucceed(k: nat, n: nat): seq<(nat, bool)>
    requires k <= n
    decreases n - k
  {
    if k == n then [] else [(k, true)] + AllSucceed(k + 1, n)
  }

  /** If everything settles, all the exposure becomes refunded money. */
  lemma {:induction false} EverythingSettles(l: Ledger, k: nat, p: nat)
    requires LedgerOk(l) && Linked(l) && p < |l.payments| && k <= |l.refunds|
    requires forall i :: 0 <= i < k ==> l.refunds[i].status != RefundPending
    ensures SettleAll(l, AllSucceed(k, |l.refunds|)).payments[p].refunded == Exposure(l, p)
    decreases |l.refunds| - k
  {
    if k == |l.refunds| {
      SumZero(l.refunds, PendingOf(p));
    } else {
      var m := CommitSettlementSpec(l, k, true);
      SettlementKeepsLedger(l, k, true);
      SettlementExposure(l, k, true, p);
      ConsistentIsLinked(m);
      EverythingSettles(m, k + 1, p);
      var rest := AllSucceed(k + 1, |l.refunds|);
      assert ([(k, true)] + rest)[0] == (k, true) && ([(k, true)] + rest)[1..] == rest;
    }
  }

  /**
   * `refundedAmount <= paidAmount` holds however the open refunds are settled, exactly when the pending refunds
   * still fit under what was paid: a check that `createRefund` does not make.
   */
  lemma RefundsStayCoveredIff(l: Ledger, p: nat)
    requires LedgerOk(l) && Linked(l) && p < |l.payments|
    ensures (forall outcomes :: SettleAll(l, outcomes).payments[p].refunded <= l.payments[p].paid)
            <==> Exposure(l, p) <= l.payments[p].paid
  {
    EverythingSettles(l, 0, p);
    if Exposure(l, p) <= l.payments[p].paid {
      forall outcomes ensures SettleAll(l, outcomes).payments[p].refunded <= l.payments[p].paid {
        SettleAllExposure(l, outcomes, p);
        RefundedWithinExposure(SettleAll(l, outcomes), p);
      }
    }
  }

  /** A new refund keeps its payment covered exactly when it fits beside the pending ones. */
  lemma NewRefundCoveredIff(l: Ledger, admin: nat, p: nat, amount: int)
    requires p < |l.payments|
    ensures Exposure(CommitRefundSpec(l, admin, p, amount), p) <= l.payments[p].paid
            <==> amount <= l.payments[p].paid - Exposure(l, p)
  {
    SumSnoc(l.refunds, Refund(p, amount, RefundPending, l.nextReference, admin), PendingOf(p));
  }

  lemma PaidIsUntouched(l: Ledger, p: nat)
    requires LedgerOk(l) && p < |l.payments| && l.payments[p].status == Paid
    ensures l.payments[p].order < |l.orders|
    ensures l.payments[p].paid == l.payments[p].amount && l.payments[p].refunded == 0
  {
    assert PaymentOk(l, p);
  }

  /** The failing family: any paid payment can be refunded in full twice, and both refunds settle. */
  lemma {:induction false} FullRefundTwice(l: Ledger, admin: nat, p: nat)
    requires LedgerOk(l) && Linked(l) && p < |l.payments|
    requires l.payments[p].status == Paid && l.payments[p].amount > 0
    ensures var (m, first) := CreateRefundSpec(l, admin, p, l.payments[p].amount);
            var (n, second) := CreateRefundSpec(m, admin, p, l.payments[p].amount);
            && first == Accepted && second == Accepted && Linked(n) && |n.refunds| == |l.refunds| + 2
            && var x := CommitSettlementSpec(n, |l.refunds|, true);
            && var y := CommitSettlementSpec(x, |l.refunds| + 1, true);
            y.payments[p].refunded == 2 * y.payments[p].paid > y.payments[p].paid
  {
    PaidIsUntouched(l, p);
    hide LedgerOk;
  }

  const PAID_ORDER := Ledger([Order(0, 100, "USD", Paid)], [Payment(0, Paid, 100, "USD", 100, 0, Some(0))],
                             [Attempt(0, 1, Succeeded, 0, 100, "USD")], [], 1)

  lemma PaidOrderIsConsistent()
    ensures LedgerOk(PAID_ORDER) && Linked(PAID_ORDER)
  {
    assert PAID_ORDER.payments[0].order == 0;
    assert HasPayment(PAID_ORDER.payments, 0);
    assert PAID_ORDER.attempts[..0] == [];
    assert PaymentOk(PAID_ORDER, 0);
  }

  /** A concrete instance: a paid order of 100 ends up with 200 refunded. */
  lemma {:induction false} RefundedCanExceedPaid()
    ensures LedgerOk(PAID_ORDER)
    ensures var n := CreateRefundSpec(CreateRefundSpec(PAID_ORDER, 9, 0, 100).0, 9, 0, 100).0;
            && Linked(n) && |n.refunds| == 2
            && CommitSettlementSpec(CommitSettlementSpec(n, 0, true), 1, true).payments[0].refunded == 200
  {
    PaidOrderIsConsistent();
    hide LedgerOk;
    FullRefundTwice(PAID_ORDER, 9, 0);
  }

  /** Every payment of a non-negative amount has paid for everything refunded or pending. */
  ghost predicate Covered(l: Ledger) {
    forall p :: 0 <= p < |l.payments| && l.payments[p].amount >= 0 ==> Exposure(l, p) <= l.payments[p].paid
  }

  lemma NoRefundsNoExposure(l: Ledger, p: nat)
    requires LedgerOk(l) && p < |l.payments| && !WentThrough(l, p)
    ensures Exposure(l, p) == 0
  {
    assert PaymentOk(l, p);
    SumZero(l.refunds, PendingOf(p));
    SumZero(l.refunds, SettledOf(p));
  }

  lemma OutcomeKeepsCovered(l: Ledger, a: nat, succeeded: bool)
    requires LedgerOk(l) && Covered(l) && a < |l.attempts| && l.attempts[a].status == Initiated
    ensures Covered(CommitOutcomeSpec(l, a, succeeded))
  {
    var q := l.attempts[a].payment;
    OpenAttemptIsLast(l, a);
    NoRefundsNoExposure(l, q);
    assert PaymentOk(l, q);
  }

  lemma SettlementKeepsCovered(l: Ledger, r: nat, succeeded: bool)
    requires LedgerOk(l) && Linked(l) && Covered(l) && r < |l.refunds|
    ensures Covered(CommitSettlementSpec(l, r, succeeded))
  {
    var m := CommitSettlementSpec(l, r, succeeded);
    forall p | 0 <= p < |m.payments| && m.payments[p].amount >= 0 ensures Exposure(m, p) <= m.payments[p].paid {
      SettlementExposure(l, r, succeeded, p);
      assert Exposure(l, p) <= l.payments[p].paid;
    }
  }

  /** The refund fits beside what its payment has refunded and what is pending for it. */
  predicate FitsBeside(l: Ledger, p: nat, amount: int) {
    p < |l.payments| && l.payments[p].amount >= 0 ==> amount <= l.payments[p].paid - Exposure(l, p)
  }

  /** Inserting a refund keeps every payment covered exactly when it fits beside the others of its payment. */
  lemma InsertKeepsCoveredIff(l: Ledger, admin: nat, q: nat, amount: int)
    requires Covered(l) && q < |l.payments|
    ensures Covered(CommitRefundSpec(l, admin, q, amount)) <==> FitsBeside(l, q, amount)
  {
    var m := CommitRefundSpec(l, admin, q, amount);
    forall p | 0 <= p < |l.payments|
      ensures Exposure(m, p) == Exposure(l, p) + if p == q then amount else 0
    {
      SumSnoc(l.refunds, m.refunds[|l.refunds|], PendingOf(p));
    }
  }

  lemma CreateKeepsCovered(l: Ledger, user: nat, order: nat)
    requires LedgerOk(l) && Covered(l)
    ensures Covered(CreateForUserSpec(l, user, order).0)
  {
    var m := CreateForUserSpec(l, user, order).0;
    forall p | 0 <= p < |m.payments| && m.payments[p].amount >= 0 ensures Exposure(m, p) <= m.payments[p].paid {
      if p < |l.payments| {
        assert Exposure(l, p) <= l.payments[p].paid;
      } else {
        SumZero(l.refunds, PendingOf(p));
      }
    }
  }

  lemma RetryKeepsCovered(l: Ledger, payment: nat)
    requires Covered(l)
    ensures Covered(CommitRetrySpec(l, payment).0)
  {
    var m := CommitRetrySpec(l, payment).0;
    forall p | 0 <= p < |m.payments| && m.payments[p].amount >= 0 ensures Exposure(m, p) <= m.payments[p].paid {
      assert Exposure(l, p) <= l.payments[p].paid;
    }
  }

  lemma ResolveKeepsCovered(l: Ledger, kind: EventKind, reference: Option<nat>)
    requires LedgerOk(l) && Linked(l) && Covered(l)
    ensures Covered(Resolve(l, kind, reference).0)
  {
    ResolveIsApply(l, kind, reference);
    TargetHasReference(l, kind, reference);
    match TargetOf(l, kind, reference)
    case OpenAttempt(a) => OutcomeKeepsCovered(l, a, kind == PaymentSucceeded);
    case OpenRefund(r) => SettlementKeepsCovered(l, r, kind == RefundSuccess);
    case _ =>
  }

  /** A step that inserts a refund inserts one that fits; the check of `createRefund` alone does not see to that. */
  predicate Disciplined(w: World, s: Step) {
    match s
    case InsertRefund(_, p, amount) => FitsBeside(w.b.ledger, p, amount)
    case RequestRefund(_, p, amount) =>
      RefundCheck(w.b.ledger, p, amount) == Accepted ==> FitsBeside(w.b.ledger, p, amount)
    case _ => true
  }

  /** Requesting refunds one at a time, with nothing between check and insert, is one way to keep the discipline. */
  lemma OneAtATimeIsDisciplined(w: World, admin: nat, p: nat, amount: int)
    requires Sum(w.b.ledger.refunds, PendingOf(p)) == 0
    ensures Disciplined(w, RequestRefund(admin, p, amount))
  {
  }

  lemma StepKeepsCoveredIff(w: World, s: Step)
    requires Inv(w) && Linked(w.b.ledger) && Allowed(w, s) && Covered(w.b.ledger)
    ensures Covered(Next(w, s).b.ledger) <==> Disciplined(w, s)
  {
    var l := w.b.ledger;
    hide LedgerOk, Covered, FitsBeside;
    match s
    case CreatePayment(user, order) => CreateKeepsCovered(l, user, order);
    case RetryPayment(p) => RetryKeepsCovered(l, p);
    case RequestRefund(admin, p, amount) =>
      if RefundCheck(l, p, amount) == Accepted {
        InsertKeepsCoveredIff(l, admin, p, amount);
      }
    case InsertRefund(admin, p, amount) =>
      assert WentThrough(l, (admin, p, amount).1);
      InsertKeepsCoveredIff(l, admin, p, amount);
    case ReceiveEvent(d) => ResolveKeepsCovered(l, d.kind, d.reference);
    case Settle(r, succeeded) => SettlementKeepsCovered(l, r, succeeded);
    case PlaceOrder(_, _, _) => SameRefundsKeepCovered(l, Next(w, s).b.ledger);
    case _ =>
  }

  lemma SameRefundsKeepCovered(l: Ledger, m: Ledger)
    requires Covered(l) && m.payments == l.payments && m.refunds == l.refunds
    ensures Covered(m)
  {
    assert forall p :: 0 <= p < |l.payments| ==> Exposure(m, p) == Exposure(l, p);
  }

  predicate DisciplinedRun(w: World, steps: seq<Step>)
    requires AllowedRun(w, steps)
    decreases |steps|
  {
    steps == [] || (Disciplined(w, steps[0]) && DisciplinedRun(Next(w, steps[0]), steps[1..]))
  }

  ghost predicate CoveredThroughout(w: World, steps: seq<Step>)
    requires AllowedRun(w, steps)
    decreases |steps|
  {
    Covered(w.b.ledger) && (steps == [] || CoveredThroughout(Next(w, steps[0]), steps[1..]))
  }

  /** A run keeps every payment covered all the way exactly when each refund it inserts fits when it is inserted. */
  lemma {:induction false} CoveredThroughoutIff(w: World, steps: seq<Step>)
    requires Inv(w) && AllowedRun(w, steps) && Covered(w.b.ledger)
    ensures CoveredThroughout(w, steps) <==> DisciplinedRun(w, steps)
    decreases |steps|
  {
    hide Inv, Linked, Next, Covered, Disciplined;
    if steps != [] {
      StepKeepsInv(w, steps[0]);
      StepKeepsCoveredIff(w, steps[0]);
      if Disciplined(w, steps[0]) {
        CoveredThroughoutIff(Next(w, steps[0]), steps[1..]);
      }
    }
  }

  /** Along a disciplined run no payment of a non-negative amount ever refunds more than was paid. */
  lemma {:induction false} DisciplinedRunStaysCovered(w: World, steps: seq<Step>)
    requires Inv(w) && AllowedRun(w, steps) && Covered(w.b.ledger) && DisciplinedRun(w, steps)
    ensures var l := Run(w, steps).b.ledger;
            Covered(l) && forall p :: 0 <= p < |l.payments| && l.payments[p].amount >= 0 ==>
                            l.payments[p].refunded <= l.payments[p].paid
    decreases |steps|
  {
    hide Inv, Linked, Next, LedgerOk, Disciplined;
    if steps == [] {
      var l := w.b.ledger;
      forall p | 0 <= p < |l.payments| && l.payments[p].amount >= 0
        ensures l.payments[p].refunded <= l.payments[p].paid
      {
        InvIsLedgerOk(w);
        RefundedWithinExposure(l, p);
        assert Exposure(l, p) <= l.payments[p].paid;
      }
    } else {
      StepKeepsInv(w, steps[0]);
      StepKeepsCoveredIff(w, steps[0]);
      DisciplinedRunStaysCovered(Next(w, steps[0]), steps[1..]);
    }
  }

  lemma InvIsLedgerOk(w: World)
    requires Inv(w)
    ensures LedgerOk(w.b.ledger)
  {
  }

  // ------------------------------------------------------------------------------------------
  // Stale payment outcomes: the check is outside the transaction

  /**
   * When the outcome transaction may run although its attempt was resolved after the check: exactly these states
   * keep the ledger consistent. In every other one a late, contradictory or repeated outcome corrupts it.
   */
  ghost predicate HarmlessOutcome(l: Ledger, a: nat, succeeded: bool)
    requires Linked(l) && a < |l.attempts|
  {
    var p := l.attempts[a].payment;
    match LastAttempt(l.attempts, p)
    case None => false
    case Some(last) =>
      if a == last then
        match l.attempts[a].status
        case Initiated => true
        case AttemptFailed => true
        case Succeeded =>
          if succeeded then Sum(l.refunds, SettledOf(p)) == 0
          else l.payments[p].amount == 0 && forall r :: 0 <= r < |l.refunds| ==> l.refunds[r].payment != p
      else !succeeded && l.attempts[last].status == AttemptFailed
  }

  lemma HarmlessForItsPayment(l: Ledger, a: nat, succeeded: bool)
    requires LedgerOk(l) && Linked(l) && a < |l.attempts| && HarmlessOutcome(l, a, succeeded)
    ensures PaymentOk(CommitOutcomeSpec(l, a, succeeded), l.attempts[a].payment)
  {
    var m := CommitOutcomeSpec(l, a, succeeded);
    var p := l.attempts[a].payment;
    LastAttemptUpdate(l.attempts, a, m.attempts[a], p);
    assert PaymentOk(l, p);
    if l.attempts[LastAttempt(l.attempts, p).value].status != Succeeded {
      SumZero(l.refunds, SettledOf(p));
    }
  }

  lemma HarmlessForOthers(l: Ledger, a: nat, succeeded: bool, q: nat)
    requires LedgerOk(l) && Linked(l) && a < |l.attempts| && q < |l.payments| && q != l.attempts[a].payment
    ensures PaymentOk(CommitOutcomeSpec(l, a, succeeded), q)
  {
    var m := CommitOutcomeSpec(l, a, succeeded);
    LastAttemptUpdate(l.attempts, a, m.attempts[a], q);
    assert PaymentOk(l, q);
    PaymentFrame(l, m, q);
  }

  lemma HarmlessKeepsLedger(l: Ledger, a: nat, succeeded: bool)
    requires LedgerOk(l) && Linked(l) && a < |l.attempts| && HarmlessOutcome(l, a, succeeded)
    ensures LedgerOk(CommitOutcomeSpec(l, a, succeeded))
  {
    var m := CommitOutcomeSpec(l, a, succeeded);
    RestatusedAttemptsOk(l.attempts, l.payments, a, m.attempts[a], m.payments);
    OutcomeKeepsOtherTables(l, a, succeeded);
    HarmlessForItsPayment(l, a, succeeded);
    forall q | 0 <= q < |m.payments| && q != l.attempts[a].payment {
      HarmlessForOthers(l, a, succeeded, q);
    }
  }

  lemma SuccessBeforeNewerAttempt(l: Ledger, a: nat)
    requires LedgerOk(l) && Linked(l) && a < |l.attempts|
    requires LastAttempt(l.attempts, l.attempts[a].payment) != Some(a)
    ensures !LedgerOk(CommitOutcomeSpec(l, a, true))
  {
    var m := CommitOutcomeSpec(l, a, true);
    var last := LastAttempt(l.attempts, l.attempts[a].payment).value;
    assert a < last && m.attempts[a].payment == m.attempts[last].payment;
    assert !AttemptsOk(m.attempts, m.payments);
  }

  lemma SuccessAfterSettledRefunds(l: Ledger, a: nat)
    requires LedgerOk(l) && Linked(l) && a < |l.attempts|
    requires LastAttempt(l.attempts, l.attempts[a].payment) == Some(a)
    requires Sum(l.refunds, SettledOf(l.attempts[a].payment)) != 0
    ensures !PaymentOk(CommitOutcomeSpec(l, a, true), l.attempts[a].payment)
  {
    var m := CommitOutcomeSpec(l, a, true);
    LastAttemptUpdate(l.attempts, a, m.attempts[a], l.attempts[a].payment);
  }

  lemma FailureAfterSuccess(l: Ledger, a: nat)
    requires LedgerOk(l) && Linked(l) && a < |l.attempts| && l.attempts[a].status == Succeeded
    requires LastAttempt(l.attempts, l.attempts[a].payment) == Some(a)
    requires l.payments[l.attempts[a].payment].amount != 0
             || exists r :: 0 <= r < |l.refunds| && l.refunds[r].payment == l.attempts[a].payment
    ensures !PaymentOk(CommitOutcomeSpec(l, a, false), l.attempts[a].payment)
  {
    var m := CommitOutcomeSpec(l, a, false);
    assert PaymentOk(l, l.attempts[a].payment);
    LastAttemptUpdate(l.attempts, a, m.attempts[a], l.attempts[a].payment);
  }

  lemma {:induction false} FailureBehindNewerAttempt(l: Ledger, a: nat)
    requires LedgerOk(l) && Linked(l) && a < |l.attempts|
    requires LastAttempt(l.attempts, l.attempts[a].payment).Some?
    requires var last := LastAttempt(l.attempts, l.attempts[a].payment).value;
             last != a && l.attempts[last].status != AttemptFailed
    ensures !PaymentOk(CommitOutcomeSpec(l, a, false), l.attempts[a].payment)
  {
    hide LedgerOk, Sum;
    var m := CommitOutcomeSpec(l, a, false);
    LastAttemptUpdate(l.attempts, a, m.attempts[a], l.attempts[a].payment);
  }

  lemma HarmfulBreaksLedger(l: Ledger, a: nat, succeeded: bool)
    requires LedgerOk(l) && Linked(l) && a < |l.attempts| && !HarmlessOutcome(l, a, succeeded)
    ensures !LedgerOk(CommitOutcomeSpec(l, a, succeeded))
  {
    if LastAttempt(l.attempts, l.attempts[a].payment) == Some(a) {
      if succeeded {
        SuccessAfterSettledRefunds(l, a);
      } else {
        FailureAfterSuccess(l, a);
      }
      assert !PaymentOk(CommitOutcomeSpec(l, a, succeeded), l.attempts[a].payment);
    } else if succeeded {
      SuccessBeforeNewerAttempt(l, a);
    } else {
      FailureBehindNewerAttempt(l, a);
      assert !PaymentOk(CommitOutcomeSpec(l, a, succeeded), l.attempts[a].payment);
    }
  }

  /** The transaction run after a stale check keeps the ledger consistent exactly in the harmless states. */
  lemma StaleOutcomeIff(l: Ledger, a: nat, succeeded: bool)
    requires LedgerOk(l) && Linked(l) && a < |l.attempts|
    ensures LedgerOk(CommitOutcomeSpec(l, a, succeeded)) <==> HarmlessOutcome(l, a, succeeded)
  {
    if HarmlessOutcome(l, a, succeeded) {
      HarmlessKeepsLedger(l, a, succeeded);
    } else {
      HarmfulBreaksLedger(l, a, succeeded);
    }
  }

  /**
   * The worst case: a success and a late failure that both saw the attempt INITIATED. The payment then says FAILED
   * although it was paid, and its owner is allowed to pay again.
   */
  lemma LateFailureReopensPaidPayment(l: Ledger, a: nat, user: nat)
    requires LedgerOk(l) && Linked(l) && a < |l.attempts| && l.attempts[a].status == Initiated
    requires var p := l.attempts[a].payment; OwnsPayment(l, user, p) && l.payments[p].amount > 0
    ensures Linked(CommitOutcomeSpec(l, a, true))
    ensures var p := l.attempts[a].payment;
            var m := CommitOutcomeSpec(CommitOutcomeSpec(l, a, true), a, false);
            && m.payments[p].status == PaymentFailed && m.payments[p].paid == m.payments[p].amount > 0
            && RetrySpec(m, user, p).1 == Accepted
            && !LedgerOk(m)
  {
    var p := l.attempts[a].payment;
    var paid := CommitOutcomeSpec(l, a, true);
    OutcomeKeepsLedger(l, a, true);
    ConsistentIsLinked(paid);
    OpenAttemptIsLast(paid, a);
    StaleOutcomeIff(paid, a, false);
    hide LedgerOk;
  }
}
