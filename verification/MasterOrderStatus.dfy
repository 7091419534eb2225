/** The derivation of a master order's status from the statuses of its vendor orders. */
module MasterOrderStatus {

  datatype VendorStatus =
    | Pending | Confirmed | Processing | ReadyToShip | Shipped | Delivered
    | Cancelled | ReturnRequested | Returned

  datatype OrderStatus =
    | OrderPending | OrderConfirmed | OrderProcessing | PartiallyFulfilled | Fulfilled
    | OrderCancelled | OrderCompleted

  predicate IsTerminalInactive(s: VendorStatus) {
    s == Cancelled || s == ReturnRequested || s == Returned
  }

  /** `filter(status => !isTerminalInactive(status))`. */
  function Active(statuses: seq<VendorStatus>): (r: seq<VendorStatus>)
    ensures forall s :: s in r <==> s in statuses && !IsTerminalInactive(s)
  {
    if statuses == [] then []
    else if IsTerminalInactive(statuses[0]) then Active(statuses[1..])
    else [statuses[0]] + Active(statuses[1..])
  }

  function Rank(s: VendorStatus): nat
    requires s != Delivered && !IsTerminalInactive(s)
  {
    if s == Pending then 0 else if s == Confirmed then 1 else 2
  }

  /** `Math.min(...active.map(rank))`; the minimum of no values is not needed. */
  function MinRank(active: seq<VendorStatus>): (r: nat)
    requires active != []
    requires forall i :: 0 <= i < |active| ==> active[i] != Delivered && !IsTerminalInactive(active[i])
    ensures exists s :: s in active && Rank(s) == r
    ensures forall s :: s in active ==> r <= Rank(s)
  {
    assert active[0] in active;
    if |active| == 1 then Rank(active[0])
    else
      var rest := MinRank(active[1..]);
      if Rank(active[0]) < rest then Rank(active[0]) else rest
  }

  function DeriveMasterOrderStatus(statuses: seq<VendorStatus>): OrderStatus {
    if forall s :: s in statuses ==> IsTerminalInactive(s) then OrderCancelled
    else
      var active := Active(statuses);
      if forall s :: s in active ==> s == Delivered then Fulfilled
      else if exists s :: s in active && s == Delivered then PartiallyFulfilled
      else
        assert forall i :: 0 <= i < |active| ==> active[i] in active;
        var minRank := MinRank(active);
        if minRank == 0 then OrderPending
        else if minRank == 1 then OrderConfirmed
        else OrderProcessing
  }

  // ------------------------------------------------------------------------------------------
  // What the derivation means

  predicate SomeUnderway(ss: seq<VendorStatus>) {
    Processing in ss || ReadyToShip in ss || Shipped in ss
  }

  /** Some active child has not been delivered yet. */
  predicate SomeOutstanding(ss: seq<VendorStatus>) {
    Pending in ss || Confirmed in ss || SomeUnderway(ss)
  }

  lemma {:induction false} OutstandingIsActive(ss: seq<VendorStatus>)
    ensures SomeOutstanding(ss) <==> exists s :: s in Active(ss) && s != Delivered
  {
    if SomeOutstanding(ss) {
      var s :| s in ss && s != Delivered && !IsTerminalInactive(s);
      assert s in Active(ss);
    }
  }

  lemma {:induction false} MinRankMeaning(active: seq<VendorStatus>)
    requires active != []
    requires forall i :: 0 <= i < |active| ==> active[i] != Delivered && !IsTerminalInactive(active[i])
    ensures MinRank(active) == if Pending in active then 0 else if Confirmed in active then 1 else 2
  {
    if Pending in active {
      assert Rank(Pending) == 0;
    } else if Confirmed in active {
      assert Rank(Confirmed) == 1;
    }
  }

  /** The ranking branch: with something outstanding and nothing delivered, the weakest child decides. */
  lemma {:induction false} RankedMeaning(ss: seq<VendorStatus>)
    requires SomeOutstanding(ss) && Delivered !in ss
    ensures DeriveMasterOrderStatus(ss) ==
            if Pending in ss then OrderPending else if Confirmed in ss then OrderConfirmed else OrderProcessing
  {
    hide SomeOutstanding, MinRank, Rank;
    OutstandingIsActive(ss);
    var active := Active(ss);
    assert forall i :: 0 <= i < |active| ==> active[i] in active;
    MinRankMeaning(active);
  }

  lemma {:induction false} UnrankedMeaning(ss: seq<VendorStatus>)
    requires !SomeOutstanding(ss) || Delivered in ss
    ensures DeriveMasterOrderStatus(ss) ==
            if Delivered !in ss then OrderCancelled else if SomeOutstanding(ss) then PartiallyFulfilled else Fulfilled
  {
    OutstandingIsActive(ss);
    assert Delivered in ss <==> Delivered in Active(ss);
    assert forall s :: s in ss && !IsTerminalInactive(s) && s != Delivered ==> s in Active(ss);
    hide SomeOutstanding;
  }

  /** Every outcome of the derivation, stated only through which statuses occur among the children. */
  lemma {:induction false} DerivedStatusMeaning(ss: seq<VendorStatus>)
    ensures DeriveMasterOrderStatus(ss) == OrderCancelled <==> Delivered !in ss && !SomeOutstanding(ss)
    ensures DeriveMasterOrderStatus(ss) == Fulfilled <==> Delivered in ss && !SomeOutstanding(ss)
    ensures DeriveMasterOrderStatus(ss) == PartiallyFulfilled <==> Delivered in ss && SomeOutstanding(ss)
    ensures DeriveMasterOrderStatus(ss) == OrderPending <==> Delivered !in ss && Pending in ss
    ensures DeriveMasterOrderStatus(ss) == OrderConfirmed <==>
              Delivered !in ss && Pending !in ss && Confirmed in ss
    ensures DeriveMasterOrderStatus(ss) == OrderProcessing <==>
              Delivered !in ss && Pending !in ss && Confirmed !in ss && SomeUnderway(ss)
    ensures DeriveMasterOrderStatus(ss) != OrderCompleted
  {
    hide DeriveMasterOrderStatus;
    if SomeOutstanding(ss) && Delivered !in ss {
      RankedMeaning(ss);
    } else {
      UnrankedMeaning(ss);
    }
  }

  /** Only which statuses occur matters, so neither order nor multiplicity does. */
  lemma DependsOnOccurrencesOnly(a: seq<VendorStatus>, b: seq<VendorStatus>)
    requires forall s :: s in a <==> s in b
    ensures DeriveMasterOrderStatus(a) == DeriveMasterOrderStatus(b)
  {
    DerivedStatusMeaning(a);
    DerivedStatusMeaning(b);
  }

  lemma OrderIndependent(a: seq<VendorStatus>, b: seq<VendorStatus>)
    requires multiset(a) == multiset(b)
    ensures DeriveMasterOrderStatus(a) == DeriveMasterOrderStatus(b)
  {
    forall s ensures s in a <==> s in b {
      assert s in a <==> s in multiset(a);
      assert s in b <==> s in multiset(b);
    }
    DependsOnOccurrencesOnly(a, b);
  }

  /** Cancelled and returned siblings are invisible as soon as one child is still active. */
  lemma {:induction false} InactiveChildrenIgnored(ss: seq<VendorStatus>)
    ensures DeriveMasterOrderStatus(ss) ==
            if Active(ss) == [] then OrderCancelled else DeriveMasterOrderStatus(Active(ss))
  {
    DerivedStatusMeaning(ss);
    DerivedStatusMeaning(Active(ss));
    if Active(ss) != [] {
      assert Active(ss)[0] in Active(ss);
    }
  }

  // ------------------------------------------------------------------------------------------
  // The weakest-link fold: an independent, single-pass definition

  /** What one pass over the children needs to remember. */
  datatype Summary =
    | NoActive
    | AllDelivered
    | SomeDelivered
    | Weakest(rank: nat)

  function SummaryOf(s: VendorStatus): Summary {
    if IsTerminalInactive(s) then NoActive
    else if s == Delivered then AllDelivered
    else Weakest(Rank(s))
  }

  function Combine(a: Summary, b: Summary): Summary {
    match (a, b)
    case (NoActive, _) => b
    case (_, NoActive) => a
    case (AllDelivered, AllDelivered) => AllDelivered
    case (Weakest(i), Weakest(j)) => Weakest(if i < j then i else j)
    case (_, _) => SomeDelivered
  }

  function Fold(ss: seq<VendorStatus>): Summary {
    if ss == [] then NoActive else Combine(SummaryOf(ss[0]), Fold(ss[1..]))
  }

  function Read(s: Summary): OrderStatus {
    match s
    case NoActive => OrderCancelled
    case AllDelivered => Fulfilled
    case SomeDelivered => PartiallyFulfilled
    case Weakest(r) => if r == 0 then OrderPending else if r == 1 then OrderConfirmed else OrderProcessing
  }

  lemma {:induction false} FoldMeaning(ss: seq<VendorStatus>)
    ensures Fold(ss) == NoActive <==> Delivered !in ss && !SomeOutstanding(ss)
    ensures Fold(ss) == AllDelivered <==> Delivered in ss && !SomeOutstanding(ss)
    ensures Fold(ss) == SomeDelivered <==> Delivered in ss && SomeOutstanding(ss)
    ensures Fold(ss) == Weakest(0) <==> Delivered !in ss && Pending in ss
    ensures Fold(ss) == Weakest(1) <==> Delivered !in ss && Pending !in ss && Confirmed in ss
  {
    if ss != [] {
      FoldMeaning(ss[1..]);
    }
  }

  /** The `every` / `some` / `Math.min` code computes the weakest-link fold. */
  lemma DeriveIsWeakestLinkFold(ss: seq<VendorStatus>)
    ensures DeriveMasterOrderStatus(ss) == Read(Fold(ss))
  {
    FoldMeaning(ss);
    DerivedStatusMeaning(ss);
  }

  // ------------------------------------------------------------------------------------------
  // How the derived status moves

  /** Targets a vendor order may move to from each status. */
  function AllowedTargets(from: VendorStatus): set<VendorStatus> {
    match from
    case Pending => {Confirmed, Cancelled}
    case Confirmed => {Processing, Cancelled}
    case Processing => {ReadyToShip}
    case ReadyToShip => {Shipped}
    case Shipped => {Delivered}
    case _ => {}
  }

  function Stage(s: OrderStatus): nat {
    match s
    case OrderPending => 0
    case OrderConfirmed => 1
    case OrderProcessing => 2
    case PartiallyFulfilled => 3
    case _ => 4
  }

  /** The only moves of a master order: strictly up the fulfilment ladder, or an early cancellation. */
  predicate MovesUp(a: OrderStatus, b: OrderStatus) {
    if b == OrderCancelled then a == OrderPending || a == OrderConfirmed
    else b != OrderCompleted && Stage(a) < Stage(b) && a != OrderCancelled
  }

  /**
   * One allowed transition of one child leaves the derived status alone or moves it up. `before` and `after` are
   * the children's statuses; nothing but `from` may disappear and nothing but `to` may appear.
   */
  lemma ChildStepMovesUp(before: seq<VendorStatus>, from: VendorStatus, to: VendorStatus, after: seq<VendorStatus>)
    requires from in before && to in after && to in AllowedTargets(from)
    requires forall s :: s in after ==> s == to || s in before
    requires forall s :: s in before && s != from ==> s in after
    ensures var a, b := DeriveMasterOrderStatus(before), DeriveMasterOrderStatus(after); a == b || MovesUp(a, b)
  {
    DerivedStatusMeaning(before);
    DerivedStatusMeaning(after);
  }
}
