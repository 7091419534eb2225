/** What one checkout transaction keeps: stock, statuses, money and carts. */
module CheckoutInvariants {
  import opened Common
  import opened MasterOrderStatus
  import opened Store
  import opened InventoryService
  import opened CartService
  import opened VendorOrders
  import opened Checkout

  // ------------------------------------------------------------------------------------------
  // Totals over the rows a checkout writes

  /** Any total over the new order items that depends only on their lines is the total over the lines. */
  lemma {:induction false} PlacedItemsTotal(groups: seq<VendorGroup>, first: nat, g: OrderItem -> int, f: Line -> int)
    requires forall l, w :: g(PlacedItem(l, w)) == f(l)
    ensures Sum(PlacedItems(groups, first), g) == SumGroups(groups, f)
  {
    if groups != [] {
      var init, last := groups[..|groups| - 1], groups[|groups| - 1];
      PlacedItemsTotal(init, first, g, f);
      var items := ItemsOfGroup(last.lines, first + |groups| - 1);
      SumAppend(PlacedItems(init, first), items, g);
      SumAlike(items, g, last.lines, f);
    }
  }

  /** The order items are the cart lines, no more and no less: every count or total of one is that of the other. */
  lemma OrderItemsAreTheLines(lines: seq<Line>, first: nat, g: OrderItem -> int, f: Line -> int)
    requires forall l, w :: g(PlacedItem(l, w)) == f(l)
    ensures Sum(PlacedItems(Groups(lines), first), g) == Sum(lines, f)
  {
    PlacedItemsTotal(Groups(lines), first, g, f);
    SplitPreservesTotals(lines, f);
  }

  lemma OrderedIsRequested(lines: seq<Line>, first: nat, v: nat)
    ensures Sum(PlacedItems(Groups(lines), first), OrderedOf(v)) == Sum(lines, RequestedOf(v))
  {
    OrderItemsAreTheLines(lines, first, OrderedOf(v), RequestedOf(v));
  }

  /** The item is a line of some group, under that group's vendor order. */
  ghost predicate IsPlaced(item: OrderItem, groups: seq<VendorGroup>, first: nat) {
    exists k :: 0 <= k < |groups| && IsPlacedIn(item, groups[k], first + k)
  }

  ghost predicate IsPlacedIn(item: OrderItem, g: VendorGroup, vendorOrder: nat) {
    exists l :: l in g.lines && item == PlacedItem(l, vendorOrder)
  }

  lemma {:induction false} PlacedItemsRows(groups: seq<VendorGroup>, first: nat)
    ensures forall i :: 0 <= i < |PlacedItems(groups, first)| ==> IsPlaced(PlacedItems(groups, first)[i], groups, first)
  {
    if groups != [] {
      var init, last := groups[..|groups| - 1], groups[|groups| - 1];
      PlacedItemsRows(init, first);
      forall i | 0 <= i < |PlacedItems(groups, first)|
        ensures IsPlaced(PlacedItems(groups, first)[i], groups, first)
      {
        var item := PlacedItems(groups, first)[i];
        if i < |PlacedItems(init, first)| {
          assert IsPlaced(PlacedItems(init, first)[i], init, first);
          var k :| 0 <= k < |init| && IsPlacedIn(item, init[k], first + k);
          assert groups[k] == init[k];
        } else {
          var l := last.lines[i - |PlacedItems(init, first)|];
          assert l in last.lines && item == PlacedItem(l, first + |groups| - 1);
          assert IsPlacedIn(item, groups[|groups| - 1], first + (|groups| - 1));
        }
      }
    }
  }

  lemma {:induction false} LinesOfVendorAreLines(lines: seq<Line>, vendor: nat)
    ensures forall l :: l in LinesOfVendor(lines, vendor) <==> l in lines && l.vendor == vendor
  {
    if lines != [] {
      LinesOfVendorAreLines(lines[..|lines| - 1], vendor);
      assert lines == lines[..|lines| - 1] + [lines[|lines| - 1]];
    }
  }

  /** Every group's vendor and every grouped line come from the lines. */
  lemma {:induction false} GroupsComeFromLines(lines: seq<Line>)
    ensures forall k :: 0 <= k < |Groups(lines)| ==>
              && (forall l :: l in Groups(lines)[k].lines ==> l in lines && l.vendor == Groups(lines)[k].vendor)
              && (exists l :: l in lines && l.vendor == Groups(lines)[k].vendor)
    ensures lines != [] ==> Groups(lines) != []
  {
    GroupsPartitionLines(lines);
    forall k | 0 <= k < |Groups(lines)|
      ensures && (forall l :: l in Groups(lines)[k].lines ==> l in lines && l.vendor == Groups(lines)[k].vendor)
              && (exists l :: l in lines && l.vendor == Groups(lines)[k].vendor)
    {
      LinesOfVendorAreLines(lines, Groups(lines)[k].vendor);
      assert Groups(lines)[k].lines[0] in Groups(lines)[k].lines;
    }
    if lines != [] {
      EveryLineGrouped(lines, 0);
    }
  }

  // ------------------------------------------------------------------------------------------
  // Stock

  lemma ReservationRowsTotals(items: seq<OrderItem>, firstItem: nat, v: nat)
    ensures Sum(ReservationRows(items, firstItem), StockOf(v)) == 0
    ensures Sum(ReservationRows(items, firstItem), ReservedOf(v)) == Sum(items, OrderedOf(v))
  {
    SumZero(ReservationRows(items, firstItem), StockOf(v));
    SumAlike(ReservationRows(items, firstItem), ReservedOf(v), items, OrderedOf(v));
  }

  lemma PlacedVariantsHaveStock(inventories: map<nat, Inventory>, lines: seq<Line>, first: nat)
    requires Fits(inventories, lines)
    ensures forall i :: 0 <= i < |PlacedItems(Groups(lines), first)| ==>
              PlacedItems(Groups(lines), first)[i].variant in inventories
  {
    var groups := Groups(lines);
    var placed := PlacedItems(groups, first);
    PlacedItemsRows(groups, first);
    GroupsComeFromLines(lines);
    forall i | 0 <= i < |placed| ensures placed[i].variant in inventories {
      assert IsPlaced(placed[i], groups, first);
      var k :| 0 <= k < |groups| && IsPlacedIn(placed[i], groups[k], first + k);
      var l :| l in groups[k].lines && placed[i] == PlacedItem(l, first + k);
      assert l in lines;
      var j :| 0 <= j < |lines| && lines[j] == l;
    }
  }

  /** One variant's totals over the ledger and the items, once a checkout's rows are appended. */
  lemma StockTotalsAfter(t: Tables, lines: seq<Line>, v: nat)
    ensures var placed := PlacedItems(Groups(lines), |t.vendorOrders|);
            var rows := ReservationRows(placed, |t.items|);
            var requested := Sum(lines, RequestedOf(v));
            && Sum(t.movements + rows, StockOf(v)) == Sum(t.movements, StockOf(v))
            && Sum(t.movements + rows, ReservedOf(v)) == Sum(t.movements, ReservedOf(v)) + requested
            && Sum(t.items + placed, OrderedOf(v)) == Sum(t.items, OrderedOf(v)) + requested
  {
    var placed := PlacedItems(Groups(lines), |t.vendorOrders|);
    var rows := ReservationRows(placed, |t.items|);
    SumAppend(t.movements, rows, StockOf(v));
    SumAppend(t.movements, rows, ReservedOf(v));
    SumAppend(t.items, placed, OrderedOf(v));
    ReservationRowsTotals(placed, |t.items|, v);
    OrderedIsRequested(lines, |t.vendorOrders|, v);
  }

  lemma {:induction false} CommitKeepsStock(t: Tables, r: Request, collision: Option<nat>)
    requires StockOk(t.inventories, t.movements, t.items) && PositiveQuantities(r.lines)
    ensures var u := CommitSpec(t, r, collision).0;
            StockOk(u.inventories, u.movements, u.items) && u.inventories.Keys == t.inventories.Keys
  {
    hide StockOk, Groups, PlacedItems, PlacedOrders, ReservationRows, Reserve, Fits, PositiveQuantities;
    if CommitSpec(t, r, collision).1 == Done {
      ReserveIffFits(t.inventories, r.lines);
      ReservedStockOk(t, r.lines);
    }
  }

  lemma ReservationRowsNameItems(movements: seq<Movement>, items: seq<OrderItem>, placed: seq<OrderItem>)
    requires ReservationsNameItems(movements, items)
    ensures ReservationsNameItems(movements + ReservationRows(placed, |items|), items + placed)
  {
    var rows := ReservationRows(placed, |items|);
    forall k: nat | k < |items + placed| ensures IsNamed(movements + rows, k) {
      if k < |items| {
        assert IsNamed(movements, k);
        var i :| 0 <= i < |movements| && movements[i].orderItem == Some(k);
        assert (movements + rows)[i].orderItem == Some(k);
      } else {
        assert (movements + rows)[|movements| + (k - |items|)].orderItem == Some(k);
      }
    }
  }

  lemma ReservedStockOk(t: Tables, lines: seq<Line>)
    requires StockOk(t.inventories, t.movements, t.items)
    requires PositiveQuantities(lines) && Fits(t.inventories, lines)
    ensures var placed := PlacedItems(Groups(lines), |t.vendorOrders|);
            StockOk(WithRequested(t.inventories, lines), t.movements + ReservationRows(placed, |t.items|),
                    t.items + placed)
  {
    var after := WithRequested(t.inventories, lines);
    var placed := PlacedItems(Groups(lines), |t.vendorOrders|);
    PlacedVariantsHaveStock(t.inventories, lines, |t.vendorOrders|);
    ReservationRowsNameItems(t.movements, t.items, placed);
    hide ReservationsNameItems;
    forall v | v in after
      ensures after[v].onHand == Sum(t.movements + ReservationRows(placed, |t.items|), StockOf(v))
      ensures after[v].reserved == Sum(t.movements + ReservationRows(placed, |t.items|), ReservedOf(v))
      ensures after[v].reserved == Sum(t.items + placed, OrderedOf(v))
      ensures 0 <= after[v].reserved <= after[v].onHand
    {
      StockTotalsAfter(t, lines, v);
      CommitReservesWithinBounds(t.inventories, lines, v);
    }
  }

  lemma {:induction false} CommitReservesWithinBounds(inventories: map<nat, Inventory>, lines: seq<Line>, v: nat)
    requires PositiveQuantities(lines) && Fits(inventories, lines) && v in inventories
    requires 0 <= inventories[v].reserved <= inventories[v].onHand
    ensures 0 <= Sum(lines, RequestedOf(v)) <= inventories[v].onHand - inventories[v].reserved
  {
    SumNonNegative(lines, RequestedOf(v));
    if i :| 0 <= i < |lines| && lines[i].variant == v {
    } else {
      SumZero(lines, RequestedOf(v));
    }
  }

  // ------------------------------------------------------------------------------------------
  // Statuses

  /** Vendor orders of a new master order change the derived status of no other. */
  lemma OtherMastersKeepStatus(vendorOrders: seq<VendorOrder>, placed: seq<VendorOrder>, m: nat)
    requires forall k :: 0 <= k < |placed| ==> placed[k].master != m
    ensures DeriveMasterOrderStatus(ChildStatuses(vendorOrders + placed, m)) ==
            DeriveMasterOrderStatus(ChildStatuses(vendorOrders, m))
  {
    var a, b := ChildStatuses(vendorOrders, m), ChildStatuses(vendorOrders + placed, m);
    forall s ensures s in a <==> s in b {
      if s in a {
        var w :| 0 <= w < |vendorOrders| && vendorOrders[w].master == m && vendorOrders[w].status == s;
        assert (vendorOrders + placed)[w].master == m && (vendorOrders + placed)[w].status == s;
      }
    }
    DependsOnOccurrencesOnly(a, b);
  }

  /** A master order all of whose vendor orders were just placed is PENDING. */
  lemma NewMasterIsPending(vendorOrders: seq<VendorOrder>, placed: seq<VendorOrder>, m: nat)
    requires placed != [] && forall k :: 0 <= k < |placed| ==> placed[k].master == m && placed[k].status == Pending
    requires forall w :: 0 <= w < |vendorOrders| ==> vendorOrders[w].master != m
    ensures DeriveMasterOrderStatus(ChildStatuses(vendorOrders + placed, m)) == OrderPending
  {
    var all := vendorOrders + placed;
    assert all[|vendorOrders|].master == m && all[|vendorOrders|].status == Pending;
    DerivedStatusMeaning(ChildStatuses(all, m));
  }

  lemma PlacedStatusesOk(orders: seq<MasterOrder>, vendorOrders: seq<VendorOrder>, o: MasterOrder,
                         placed: seq<VendorOrder>)
    requires StatusesOk(orders, vendorOrders)
    requires MasterHistoryOk(o) && o.status == OrderPending && placed != []
    requires forall k :: 0 <= k < |placed| ==>
               placed[k].master == |orders| && placed[k].status == Pending && VendorHistoryOk(placed[k])
    ensures StatusesOk(orders + [o], vendorOrders + placed)
  {
    NewMasterIsPending(vendorOrders, placed, |orders|);
    forall m | 0 <= m < |orders| {
      OtherMastersKeepStatus(vendorOrders, placed, m);
    }
  }

  lemma PlacedHistoriesOk(r: Request, master: nat)
    ensures MasterHistoryOk(PlacedMaster(r))
    ensures forall k :: 0 <= k < |PlacedOrders(Groups(r.lines), master, r.user)| ==>
              VendorHistoryOk(PlacedOrders(Groups(r.lines), master, r.user)[k])
  {
  }

  lemma {:induction false} CommitKeepsStatuses(t: Tables, r: Request, collision: Option<nat>)
    requires StatusesOk(t.orders, t.vendorOrders) && r.lines != []
    ensures var u := CommitSpec(t, r, collision).0; StatusesOk(u.orders, u.vendorOrders)
  {
    if CommitSpec(t, r, collision).1 == Done {
      var placed := PlacedOrders(Groups(r.lines), |t.orders|, r.user);
      assert placed != [] by { GroupsComeFromLines(r.lines); }
      PlacedHistoriesOk(r, |t.orders|);
      PlacedStatusesOk(t.orders, t.vendorOrders, PlacedMaster(r), placed);
    }
  }

  // ------------------------------------------------------------------------------------------
  // Money

  function ItemMoneyOf(w: nat): OrderItem -> int {
    (i: OrderItem) => if i.vendorOrder == w then i.total else 0
  }

  function VendorMoneyOf(m: nat): VendorOrder -> int {
    (w: VendorOrder) => if w.master == m then w.subtotal else 0
  }

  ghost predicate ItemTotalsOk(items: seq<OrderItem>, vendorOrderCount: nat) {
    forall i :: 0 <= i < |items| ==>
      items[i].vendorOrder < vendorOrderCount && items[i].total == items[i].unitPrice * items[i].quantity
  }

  ghost predicate VendorTotalsOk(vendorOrders: seq<VendorOrder>, items: seq<OrderItem>, orderCount: nat) {
    forall w :: 0 <= w < |vendorOrders| ==>
      && vendorOrders[w].master < orderCount
      && vendorOrders[w].subtotal == vendorOrders[w].total == Sum(items, ItemMoneyOf(w))
  }

  ghost predicate MasterTotalsOk(orders: seq<MasterOrder>, vendorOrders: seq<VendorOrder>) {
    forall m :: 0 <= m < |orders| ==>
      orders[m].subtotal == orders[m].total == Sum(vendorOrders, VendorMoneyOf(m))
  }

  ghost predicate OneOrderPerVendor(vendorOrders: seq<VendorOrder>) {
    forall v, w :: 0 <= v < w < |vendorOrders| && vendorOrders[v].master == vendorOrders[w].master ==>
      vendorOrders[v].vendor != vendorOrders[w].vendor
  }

  /** Every order item is priced in the currency of its master order, so the sums add like to like. */
  ghost predicate ItemCurrenciesOk(orders: seq<MasterOrder>, vendorOrders: seq<VendorOrder>, items: seq<OrderItem>) {
    forall i :: 0 <= i < |items| ==>
      && items[i].vendorOrder < |vendorOrders| && vendorOrders[items[i].vendorOrder].master < |orders|
      && items[i].currency == orders[vendorOrders[items[i].vendorOrder].master].currency
  }

  /** Items add up to their vendor order, vendor orders to their master order, and one vendor order per vendor. */
  ghost predicate MoneyOk(orders: seq<MasterOrder>, vendorOrders: seq<VendorOrder>, items: seq<OrderItem>) {
    && ItemTotalsOk(items, |vendorOrders|)
    && VendorTotalsOk(vendorOrders, items, |orders|)
    && MasterTotalsOk(orders, vendorOrders)
    && OneOrderPerVendor(vendorOrders)
    && ItemCurrenciesOk(orders, vendorOrders, items)
  }

  lemma {:induction false} NewVendorOrderMoney(groups: seq<VendorGroup>, first: nat, k: nat)
    requires k < |groups|
    ensures Sum(PlacedItems(groups, first), ItemMoneyOf(first + k)) == Sum(groups[k].lines, LineTotal())
  {
    var last := |groups| - 1;
    var old_, new_ := PlacedItems(groups[..last], first), ItemsOfGroup(groups[last].lines, first + last);
    SumAppend(old_, new_, ItemMoneyOf(first + k));
    if k == last {
      PlacedItemsRows(groups[..last], first);
      SumZero(old_, ItemMoneyOf(first + k));
      SumAlike(new_, ItemMoneyOf(first + k), groups[last].lines, LineTotal());
    } else {
      SumZero(new_, ItemMoneyOf(first + k));
      NewVendorOrderMoney(groups[..last], first, k);
    }
  }

  lemma {:induction false} NewMasterMoney(groups: seq<VendorGroup>, master: nat, user: nat)
    ensures Sum(PlacedOrders(groups, master, user), VendorMoneyOf(master)) == SumGroups(groups, LineTotal())
  {
    if groups != [] {
      var init := groups[..|groups| - 1];
      NewMasterMoney(init, master, user);
      assert PlacedOrders(groups, master, user)[..|groups| - 1] == PlacedOrders(init, master, user);
    }
  }

  lemma OldVendorMoneyAfter(items: seq<OrderItem>, groups: seq<VendorGroup>, first: nat, w: nat)
    requires w < first
    ensures Sum(items + PlacedItems(groups, first), ItemMoneyOf(w)) == Sum(items, ItemMoneyOf(w))
  {
    SumAppend(items, PlacedItems(groups, first), ItemMoneyOf(w));
    PlacedItemsRows(groups, first);
    SumZero(PlacedItems(groups, first), ItemMoneyOf(w));
  }

  lemma NewVendorMoneyAfter(items: seq<OrderItem>, groups: seq<VendorGroup>, first: nat, k: nat)
    requires k < |groups| && ItemTotalsOk(items, first)
    ensures Sum(items + PlacedItems(groups, first), ItemMoneyOf(first + k)) == Sum(groups[k].lines, LineTotal())
  {
    SumAppend(items, PlacedItems(groups, first), ItemMoneyOf(first + k));
    SumZero(items, ItemMoneyOf(first + k));
    NewVendorOrderMoney(groups, first, k);
  }

  lemma MasterMoneyAfter(t: Tables, lines: seq<Line>, user: nat, m: nat)
    requires VendorTotalsOk(t.vendorOrders, t.items, |t.orders|) && MasterTotalsOk(t.orders, t.vendorOrders)
    requires m <= |t.orders|
    ensures Sum(t.vendorOrders + PlacedOrders(Groups(lines), |t.orders|, user), VendorMoneyOf(m)) ==
            if m < |t.orders| then t.orders[m].subtotal else Sum(lines, LineTotal())
  {
    var placed := PlacedOrders(Groups(lines), |t.orders|, user);
    SumAppend(t.vendorOrders, placed, VendorMoneyOf(m));
    if m < |t.orders| {
      SumZero(placed, VendorMoneyOf(m));
    } else {
      SumZero(t.vendorOrders, VendorMoneyOf(m));
      NewMasterMoney(Groups(lines), m, user);
      SplitPreservesTotals(lines, LineTotal());
    }
  }

  lemma OnePlacedPerVendor(vendorOrders: seq<VendorOrder>, lines: seq<Line>, master: nat, user: nat)
    requires OneOrderPerVendor(vendorOrders)
    requires forall w :: 0 <= w < |vendorOrders| ==> vendorOrders[w].master < master
    ensures OneOrderPerVendor(vendorOrders + PlacedOrders(Groups(lines), master, user))
  {
    GroupsPartitionLines(lines);
  }

  lemma {:induction false} CommitVendorTotals(t: Tables, lines: seq<Line>, user: nat)
    requires ItemTotalsOk(t.items, |t.vendorOrders|) && VendorTotalsOk(t.vendorOrders, t.items, |t.orders|)
    ensures VendorTotalsOk(t.vendorOrders + PlacedOrders(Groups(lines), |t.orders|, user),
                           t.items + PlacedItems(Groups(lines), |t.vendorOrders|), |t.orders| + 1)
  {
    hide Groups, PlacedItems, Sum, ItemMoneyOf, LineTotal;
    var groups, first := Groups(lines), |t.vendorOrders|;
    forall w | 0 <= w < first {
      OldVendorMoneyAfter(t.items, groups, first, w);
    }
    forall k | 0 <= k < |groups|
      ensures Sum(t.items + PlacedItems(groups, first), ItemMoneyOf(first + k)) == Sum(groups[k].lines, LineTotal())
    {
      NewVendorMoneyAfter(t.items, groups, first, k);
    }
    forall w | first <= w < first + |groups|
      ensures Sum(t.items + PlacedItems(groups, first), ItemMoneyOf(w)) == Sum(groups[w - first].lines, LineTotal())
    {
      assert first + (w - first) == w;
    }
  }

  lemma CommitMasterTotals(t: Tables, lines: seq<Line>, user: nat, o: MasterOrder)
    requires VendorTotalsOk(t.vendorOrders, t.items, |t.orders|) && MasterTotalsOk(t.orders, t.vendorOrders)
    requires o.subtotal == o.total == Sum(lines, LineTotal())
    ensures MasterTotalsOk(t.orders + [o], t.vendorOrders + PlacedOrders(Groups(lines), |t.orders|, user))
  {
    forall m | 0 <= m <= |t.orders| {
      MasterMoneyAfter(t, lines, user, m);
    }
  }

  lemma PlacedItemTotals(groups: seq<VendorGroup>, first: nat)
    ensures ItemTotalsOk(PlacedItems(groups, first), first + |groups|)
  {
    var placed := PlacedItems(groups, first);
    PlacedItemsRows(groups, first);
    hide PlacedItems;
    forall i | 0 <= i < |placed|
      ensures placed[i].vendorOrder < first + |groups| && placed[i].total == placed[i].unitPrice * placed[i].quantity
    {
      assert IsPlaced(placed[i], groups, first);
    }
  }

  lemma CommitCurrencies(t: Tables, r: Request)
    requires ItemCurrenciesOk(t.orders, t.vendorOrders, t.items)
    requires forall i :: 0 <= i < |r.lines| ==> r.lines[i].currency == r.currency
    ensures ItemCurrenciesOk(t.orders + [PlacedMaster(r)],
                             t.vendorOrders + PlacedOrders(Groups(r.lines), |t.orders|, r.user),
                             t.items + PlacedItems(Groups(r.lines), |t.vendorOrders|))
  {
    hide Groups, PlacedItems;
    var groups, first := Groups(r.lines), |t.vendorOrders|;
    var placed := PlacedItems(groups, first);
    PlacedItemsRows(groups, first);
    GroupsComeFromLines(r.lines);
    forall i | 0 <= i < |placed|
      ensures first <= placed[i].vendorOrder < first + |groups| && placed[i].currency == r.currency
    {
      assert IsPlaced(placed[i], groups, first);
      var k :| 0 <= k < |groups| && IsPlacedIn(placed[i], groups[k], first + k);
      var l :| l in groups[k].lines && placed[i] == PlacedItem(l, first + k);
      assert l in r.lines;
    }
  }

  /** Stale reads or not: a request's lines are in its currency, which is that of its cart. */
  lemma CommitKeepsMoney(t: Tables, r: Request, collision: Option<nat>)
    requires MoneyOk(t.orders, t.vendorOrders, t.items)
    requires forall i :: 0 <= i < |r.lines| ==> r.lines[i].currency == r.currency
    ensures var u := CommitSpec(t, r, collision).0; MoneyOk(u.orders, u.vendorOrders, u.items)
  {
    if CommitSpec(t, r, collision).1 == Done {
      PlacedItemTotals(Groups(r.lines), |t.vendorOrders|);
      CommitCurrencies(t, r);
      hide Groups, PlacedItems, PlacedOrders, Reserve;
      OnePlacedPerVendor(t.vendorOrders, r.lines, |t.orders|, r.user);
      CommitVendorTotals(t, r.lines, r.user);
      CommitMasterTotals(t, r.lines, r.user, PlacedMaster(r));
    }
  }

  /** A status change of one vendor order moves no money. */
  lemma StatusCommitKeepsMoney(t: Tables, vendorOrder: nat, from: VendorStatus, to: VendorStatus, actor: nat)
    requires MoneyOk(t.orders, t.vendorOrders, t.items)
    ensures var u := CommitStatusSpec(t, vendorOrder, from, to, actor).0; MoneyOk(u.orders, u.vendorOrders, u.items)
  {
    var (u, outcome) := CommitStatusSpec(t, vendorOrder, from, to, actor);
    if outcome == Done {
      forall m | 0 <= m < |u.orders| ensures u.orders[m].subtotal == Sum(u.vendorOrders, VendorMoneyOf(m)) {
        SumAlike(t.vendorOrders, VendorMoneyOf(m), u.vendorOrders, VendorMoneyOf(m));
      }
    }
  }

  // ------------------------------------------------------------------------------------------
  // Carts

  lemma CommitKeepsCarts(t: Tables, r: Request, collision: Option<nat>)
    requires CartsOk(t.carts, |t.variants|) && ConversionsMatch(t.carts, t.orders)
    requires r.cart < |t.carts| ==> t.carts[r.cart].user == r.user
    ensures var u := CommitSpec(t, r, collision).0;
            CartsOk(u.carts, |t.variants|) && ConversionsMatch(u.carts, u.orders) && CartsPersist(t.carts, u.carts)
  {
    var (u, outcome) := CommitSpec(t, r, collision);
    if outcome == Done {
      forall user: nat ensures Sum(u.carts, ConvertedOf(user)) == Sum(u.orders, PlacedBy(user)) {
        SumUpdate(t.carts, r.cart, t.carts[r.cart].(status := CartConverted), ConvertedOf(user));
        SumSnoc(t.orders, PlacedMaster(r), PlacedBy(user));
      }
    }
  }

  /** Status updates place no orders and remove none. */
  lemma StatusCommitKeepsConversions(t: Tables, vendorOrder: nat, from: VendorStatus, to: VendorStatus, actor: nat)
    requires ConversionsMatch(t.carts, t.orders)
    ensures var u := CommitStatusSpec(t, vendorOrder, from, to, actor).0; ConversionsMatch(u.carts, u.orders)
  {
    var u := CommitStatusSpec(t, vendorOrder, from, to, actor).0;
    forall user: nat ensures Sum(u.orders, PlacedBy(user)) == Sum(t.orders, PlacedBy(user)) {
      SumAlike(t.orders, PlacedBy(user), u.orders, PlacedBy(user));
    }
  }
}
