/** Vendor-order transitions, with the master order's status recomputed in the same transaction. */
module VendorOrders {
  import opened Common
  import opened MasterOrderStatus
  import opened Store

  /** `findMany({ masterOrderId }).map(s => s.status)`. */
  function ChildStatuses(vendorOrders: seq<VendorOrder>, master: nat): (r: seq<VendorStatus>)
    ensures forall s :: s in r <==>
              exists w :: 0 <= w < |vendorOrders| && vendorOrders[w].master == master && vendorOrders[w].status == s
  {
    if vendorOrders == [] then []
    else
      var init, last := vendorOrders[..|vendorOrders| - 1], vendorOrders[|vendorOrders| - 1];
      assert forall w :: 0 <= w < |init| ==> init[w] == vendorOrders[w];
      assert forall w :: 0 <= w < |vendorOrders| ==> w < |init| || vendorOrders[w] == last;
      if last.master == master then ChildStatuses(init, master) + [last.status] else ChildStatuses(init, master)
  }

  /** Bring `orders[master]` in line with its children, with a history row if that changes it. */
  function Recomputed(orders: seq<MasterOrder>, vendorOrders: seq<VendorOrder>, master: nat, actor: nat)
    : seq<MasterOrder>
    requires master < |orders|
  {
    var derived := DeriveMasterOrderStatus(ChildStatuses(vendorOrders, master));
    var o := orders[master];
    if o.status == derived then orders
    else orders[master := o.(status := derived, history := o.history + [Change(Some(o.status), derived, actor)])]
  }

  function Transitioned(w: VendorOrder, to: VendorStatus, actor: nat): VendorOrder {
    w.(status := to, history := w.history + [Change(Some(w.status), to, actor)])
  }

  /** The transaction, given the status `from` that an earlier read of the vendor order returned. */
  function CommitStatusSpec(t: Tables, vendorOrder: nat, from: VendorStatus, to: VendorStatus, actor: nat)
    : (Tables, Outcome)
  {
    if vendorOrder >= |t.vendorOrders| || t.vendorOrders[vendorOrder].status != from then (t, Failed(Conflict))
    else
      var w := t.vendorOrders[vendorOrder];
      var vendorOrders := t.vendorOrders[vendorOrder := Transitioned(w, to, actor)];
      if w.master >= |t.orders| then (t, Failed(NotFound))
      else (t.(vendorOrders := vendorOrders, orders := Recomputed(t.orders, vendorOrders, w.master, actor)), Done)
  }

  function UpdateStatusSpec(t: Tables, vendorOrder: nat, to: VendorStatus, actor: nat): (Tables, Outcome) {
    if vendorOrder >= |t.vendorOrders| then (t, Failed(NotFound))
    else if to !in AllowedTargets(t.vendorOrders[vendorOrder].status) then (t, Failed(Conflict))
    else CommitStatusSpec(t, vendorOrder, t.vendorOrders[vendorOrder].status, to, actor)
  }

  const MASTER_ORDER_RECOMPUTE_MAX_ATTEMPTS := 5

  /** The bounded retry loop: inside one atomic transaction its final throw is unreachable. */
  method RecomputeMasterOrderStatus(db: Database, master: nat, actor: nat)
    requires master < |db.orders|
    modifies db`orders
    ensures db.orders == Recomputed(old(db.orders), db.vendorOrders, master, actor)
  {
    for attempt := 0 to MASTER_ORDER_RECOMPUTE_MAX_ATTEMPTS
      invariant attempt == 0 && db.orders == old(db.orders)
    {
      var siblings := ChildStatuses(db.vendorOrders, master);
      var derived := DeriveMasterOrderStatus(siblings);
      var read := db.orders[master];
      if read.status == derived {
        return;
      }
      if db.orders[master].status == read.status {
        db.orders := db.orders[master := read.(status := derived,
                                               history := read.history + [Change(Some(read.status), derived, actor)])];
        return;
      }
    }
    assert false;
  }

  method CommitStatus(db: Database, vendorOrder: nat, from: VendorStatus, to: VendorStatus, actor: nat)
    returns (r: Outcome)
    modifies db
    ensures (db.Now(), r) == CommitStatusSpec(old(db.Now()), vendorOrder, from, to, actor)
  {
    var start := db.Now();
    if vendorOrder >= |db.vendorOrders| || db.vendorOrders[vendorOrder].status != from {
      return Failed(Conflict);
    }
    var w := db.vendorOrders[vendorOrder];
    db.vendorOrders := db.vendorOrders[vendorOrder := w.(status := to)];
    db.vendorOrders := db.vendorOrders[vendorOrder :=
      db.vendorOrders[vendorOrder].(history := w.history + [Change(Some(from), to, actor)])];
    assert db.vendorOrders == start.vendorOrders[vendorOrder := Transitioned(w, to, actor)];
    if w.master >= |db.orders| {
      db.Rollback(start);
      return Failed(NotFound);
    }
    RecomputeMasterOrderStatus(db, w.master, actor);
    r := Done;
  }

  method UpdateStatus(db: Database, vendorOrder: nat, to: VendorStatus, actor: nat) returns (r: Outcome)
    modifies db
    ensures (db.Now(), r) == UpdateStatusSpec(old(db.Now()), vendorOrder, to, actor)
  {
    if vendorOrder >= |db.vendorOrders| {
      return Failed(NotFound);
    }
    var read := db.vendorOrders[vendorOrder];
    if to !in AllowedTargets(read.status) {
      return Failed(Conflict);
    }
    r := CommitStatus(db, vendorOrder, read.status, to, actor);
  }

  // ------------------------------------------------------------------------------------------
  // Histories

  /** A linked chain of upward moves from the creation of the order to its current status. */
  ghost predicate MasterHistoryOk(o: MasterOrder) {
    && o.history != []
    && o.history[0].from == None && o.history[0].to == OrderPending
    && (forall i :: 0 < i < |o.history| ==>
          o.history[i].from == Some(o.history[i - 1].to) && MovesUp(o.history[i - 1].to, o.history[i].to))
    && o.history[|o.history| - 1].to == o.status
  }

  /** A linked chain of allowed transitions from PENDING to the current status. */
  ghost predicate VendorHistoryOk(w: VendorOrder) {
    && w.history != []
    && w.history[0].from == None && w.history[0].to == Pending
    && (forall i :: 0 < i < |w.history| ==>
          w.history[i].from == Some(w.history[i - 1].to) && w.history[i].to in AllowedTargets(w.history[i - 1].to))
    && w.history[|w.history| - 1].to == w.status
  }

  /** Each row of a master history stands at least one stage above the row before it. */
  lemma {:induction false} MasterHistoryStages(o: MasterOrder, i: nat)
    requires MasterHistoryOk(o) && i < |o.history|
    ensures i <= Stage(o.history[i].to) <= 4
  {
    if i > 0 {
      MasterHistoryStages(o, i - 1);
    }
  }

  function VendorStage(s: VendorStatus): nat {
    match s
    case Pending => 0
    case Confirmed => 1
    case Processing => 2
    case ReadyToShip => 3
    case Shipped => 4
    case _ => 5
  }

  lemma {:induction false} VendorHistoryStages(w: VendorOrder, i: nat)
    requires VendorHistoryOk(w) && i < |w.history|
    ensures i <= VendorStage(w.history[i].to) <= 5
  {
    if i > 0 {
      VendorHistoryStages(w, i - 1);
    }
  }

  lemma HistoriesAreShort(o: MasterOrder, w: VendorOrder)
    requires MasterHistoryOk(o) && VendorHistoryOk(w)
    ensures |o.history| <= 5 && |w.history| <= 6
  {
    MasterHistoryStages(o, |o.history| - 1);
    VendorHistoryStages(w, |w.history| - 1);
  }

  // ------------------------------------------------------------------------------------------
  // The derived status is kept

  ghost predicate StatusesOk(orders: seq<MasterOrder>, vendorOrders: seq<VendorOrder>) {
    && (forall w :: 0 <= w < |vendorOrders| ==> vendorOrders[w].master < |orders| && VendorHistoryOk(vendorOrders[w]))
    && (forall m :: 0 <= m < |orders| ==>
          && orders[m].status == DeriveMasterOrderStatus(ChildStatuses(vendorOrders, m))
          && MasterHistoryOk(orders[m]))
  }

  /** Orders keep their owner, currency and amounts, and only ever append to their histories. */
  ghost predicate OrdersPersist(before: seq<MasterOrder>, after: seq<MasterOrder>) {
    && |before| <= |after|
    && (forall m :: 0 <= m < |before| ==>
          && after[m].user == before[m].user && after[m].currency == before[m].currency
          && after[m].subtotal == before[m].subtotal && after[m].total == before[m].total
          && before[m].history <= after[m].history)
  }

  /** Changing the status of one vendor order changes the children of no other master order. */
  lemma OtherMastersUntouched(before: seq<VendorOrder>, w: nat, x: VendorOrder, m: nat)
    requires w < |before| && x.master == before[w].master != m
    ensures DeriveMasterOrderStatus(ChildStatuses(before[w := x], m)) ==
            DeriveMasterOrderStatus(ChildStatuses(before, m))
  {
    var after := before[w := x];
    var a, b := ChildStatuses(before, m), ChildStatuses(after, m);
    forall s ensures s in a <==> s in b {
      if s in a {
        var i :| 0 <= i < |before| && before[i].master == m && before[i].status == s;
        assert after[i].master == m && after[i].status == s;
      }
      if s in b {
        var i :| 0 <= i < |after| && after[i].master == m && after[i].status == s;
        assert before[i].master == m && before[i].status == s;
      }
    }
    DependsOnOccurrencesOnly(a, b);
  }

  /** For its own master order, an allowed transition moves the derived status up or not at all. */
  lemma OwnMasterMovesUp(before: seq<VendorOrder>, w: nat, to: VendorStatus, actor: nat)
    requires w < |before| && to in AllowedTargets(before[w].status)
    ensures var m := before[w].master;
            var after := before[w := Transitioned(before[w], to, actor)];
            var a := DeriveMasterOrderStatus(ChildStatuses(before, m));
            var b := DeriveMasterOrderStatus(ChildStatuses(after, m));
            a == b || MovesUp(a, b)
  {
    var m, from := before[w].master, before[w].status;
    var after := before[w := Transitioned(before[w], to, actor)];
    var a, b := ChildStatuses(before, m), ChildStatuses(after, m);
    forall s
      ensures s in b ==> s == to || s in a
      ensures s in a && s != from ==> s in b
    {
      if s in b {
        var k :| 0 <= k < |after| && after[k].master == m && after[k].status == s;
        assert k != w ==> before[k].status == s;
      }
      if s in a && s != from {
        var k :| 0 <= k < |before| && before[k].master == m && before[k].status == s;
        assert after[k].master == m && after[k].status == s;
      }
    }
    assert after[w].master == m && after[w].status == to;
    ChildStepMovesUp(a, from, to, b);
  }

  /** Recomputing one master order appends at most one row to its history, and touches no other. */
  lemma {:induction false} RecomputedKeeps(orders: seq<MasterOrder>, vendorOrders: seq<VendorOrder>, m: nat, actor: nat)
    requires m < |orders| && MasterHistoryOk(orders[m])
    requires var d := DeriveMasterOrderStatus(ChildStatuses(vendorOrders, m));
             orders[m].status == d || MovesUp(orders[m].status, d)
    ensures var after := Recomputed(orders, vendorOrders, m, actor);
            && OrdersPersist(orders, after) && |after| == |orders|
            && after[m].status == DeriveMasterOrderStatus(ChildStatuses(vendorOrders, m))
            && MasterHistoryOk(after[m])
            && (forall k :: 0 <= k < |orders| && k != m ==> after[k] == orders[k])
  {
  }

  /** Putting together what changed (one vendor order and its master) and what did not. */
  lemma StatusesAfterUpdate(before: seq<MasterOrder>, after: seq<MasterOrder>, vendorOrders: seq<VendorOrder>, v: nat,
                            x: VendorOrder)
    requires StatusesOk(before, vendorOrders) && v < |vendorOrders| && |after| == |before|
    requires x.master == vendorOrders[v].master && VendorHistoryOk(x)
    requires after[x.master].status == DeriveMasterOrderStatus(ChildStatuses(vendorOrders[v := x], x.master))
    requires MasterHistoryOk(after[x.master])
    requires forall k :: 0 <= k < |before| && k != x.master ==> after[k] == before[k]
    ensures StatusesOk(after, vendorOrders[v := x])
  {
    hide DeriveMasterOrderStatus, ChildStatuses, MasterHistoryOk, VendorHistoryOk;
    forall k | 0 <= k < |after| && k != x.master
      ensures after[k].status == DeriveMasterOrderStatus(ChildStatuses(vendorOrders[v := x], k))
    {
      OtherMastersUntouched(vendorOrders, v, x, k);
    }
  }

  lemma StatusCommitKeeps(t: Tables, vendorOrder: nat, from: VendorStatus, to: VendorStatus, actor: nat)
    requires StatusesOk(t.orders, t.vendorOrders) && to in AllowedTargets(from)
    ensures var u := CommitStatusSpec(t, vendorOrder, from, to, actor).0;
            StatusesOk(u.orders, u.vendorOrders)
  {
    hide DeriveMasterOrderStatus, ChildStatuses, MasterHistoryOk, VendorHistoryOk, Recomputed;
    if vendorOrder < |t.vendorOrders| && t.vendorOrders[vendorOrder].status == from {
      var u := CommitStatusSpec(t, vendorOrder, from, to, actor).0;
      OwnMasterMovesUp(t.vendorOrders, vendorOrder, to, actor);
      RecomputedKeeps(t.orders, u.vendorOrders, t.vendorOrders[vendorOrder].master, actor);
      VendorHistoryGrows(t.vendorOrders[vendorOrder], to, actor);
      StatusesAfterUpdate(t.orders, u.orders, t.vendorOrders, vendorOrder, u.vendorOrders[vendorOrder]);
    }
  }

  lemma VendorHistoryGrows(w: VendorOrder, to: VendorStatus, actor: nat)
    requires VendorHistoryOk(w) && to in AllowedTargets(w.status)
    ensures VendorHistoryOk(Transitioned(w, to, actor))
  {
  }

  lemma StatusCommitPersists(t: Tables, vendorOrder: nat, from: VendorStatus, to: VendorStatus, actor: nat)
    ensures OrdersPersist(t.orders, CommitStatusSpec(t, vendorOrder, from, to, actor).0.orders)
  {
  }
}
