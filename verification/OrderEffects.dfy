/** What a committed checkout and a committed status update leave in the tables, row by row, and when they commit. */
module OrderEffects {
  import opened Common
  import opened MasterOrderStatus
  import opened Store
  import opened CartService
  import opened VendorOrders
  import opened Checkout
  import opened CheckoutInvariants
  import opened ShopRuns

  // ------------------------------------------------------------------------------------------
  // Checkout: the lines reappear as order items, each under its own vendor

  /** A weight of lines, applied to order items read back as lines of the vendor whose vendor order they are under. */
  function Weigh(vendorOrders: seq<VendorOrder>, g: Line -> int): OrderItem -> int {
    (i: OrderItem) =>
      if i.vendorOrder < |vendorOrders|
      then g(Line(i.variant, i.product, vendorOrders[i.vendorOrder].vendor, i.unitPrice, i.currency, i.quantity))
      else 0
  }

  lemma {:induction false} PlacedItemsWeigh(groups: seq<VendorGroup>, first: nat, vendorOrders: seq<VendorOrder>,
                                            g: Line -> int)
    requires first + |groups| <= |vendorOrders|
    requires forall k :: 0 <= k < |groups| ==> vendorOrders[first + k].vendor == groups[k].vendor
    requires forall k :: 0 <= k < |groups| ==> forall l :: l in groups[k].lines ==> l.vendor == groups[k].vendor
    ensures Sum(PlacedItems(groups, first), Weigh(vendorOrders, g)) == SumGroups(groups, g)
  {
    if groups != [] {
      var init, last := groups[..|groups| - 1], groups[|groups| - 1];
      PlacedItemsWeigh(init, first, vendorOrders, g);
      var items := ItemsOfGroup(last.lines, first + |groups| - 1);
      SumAppend(PlacedItems(init, first), items, Weigh(vendorOrders, g));
      GroupWeighs(last, first + |groups| - 1, vendorOrders, g);
    }
  }

  lemma GroupWeighs(group: VendorGroup, w: nat, vendorOrders: seq<VendorOrder>, g: Line -> int)
    requires w < |vendorOrders| && vendorOrders[w].vendor == group.vendor
    requires forall l :: l in group.lines ==> l.vendor == group.vendor
    ensures Sum(ItemsOfGroup(group.lines, w), Weigh(vendorOrders, g)) == Sum(group.lines, g)
  {
    var items := ItemsOfGroup(group.lines, w);
    forall i | 0 <= i < |items| ensures Weigh(vendorOrders, g)(items[i]) == g(group.lines[i]) {
      assert group.lines[i] in group.lines;
    }
    SumAlike(items, Weigh(vendorOrders, g), group.lines, g);
  }

  /**
   * Every count or total of the request's lines, by variant, product, vendor, price, currency and quantity in any
   * combination, is that count or total of the order items placed.
   */
  lemma CommitPlacesTheLines(t: Tables, r: Request, collision: Option<nat>, g: Line -> int)
    requires CommitSpec(t, r, collision).1 == Done
    ensures var u := CommitSpec(t, r, collision).0;
            && t.items <= u.items
            && (forall i :: |t.items| <= i < |u.items| ==>
                  |t.vendorOrders| <= u.items[i].vendorOrder < |u.vendorOrders|)
            && Sum(u.items[|t.items|..], Weigh(u.vendorOrders, g)) == Sum(r.lines, g)
  {
    hide PlacedItems, PlacedOrders, Groups, Reserve, ReservationRows, Weigh;
    var u := CommitSpec(t, r, collision).0;
    var groups, first := Groups(r.lines), |t.vendorOrders|;
    var placed := PlacedItems(groups, first);
    assert u.items[|t.items|..] == placed;
    PlacedItemsRows(groups, first);
    GroupsComeFromLines(r.lines);
    NewVendorOrders(t, r, collision);
    forall k | 0 <= k < |groups| ensures u.vendorOrders[first + k].vendor == groups[k].vendor {
      PlacedOrderOfGroup(t.vendorOrders, groups, |t.orders|, r.user, k);
    }
    PlacedItemsWeigh(groups, first, u.vendorOrders, g);
    SplitPreservesTotals(r.lines, g);
    forall i | |t.items| <= i < |u.items| ensures first <= u.items[i].vendorOrder < |u.vendorOrders| {
      var k, l := PlacedFrom(placed[i - |t.items|], groups, first);
    }
  }

  lemma NewVendorOrders(t: Tables, r: Request, collision: Option<nat>)
    requires CommitSpec(t, r, collision).1 == Done
    ensures |CommitSpec(t, r, collision).0.vendorOrders| == |t.vendorOrders| + |Groups(r.lines)|
  {
  }

  /** How many units of variant `x` an order item holds under a vendor order of vendor `v`. */
  function UnderVendor(vendorOrders: seq<VendorOrder>, v: nat, x: nat): OrderItem -> int {
    (i: OrderItem) =>
      if i.vendorOrder < |vendorOrders| && vendorOrders[i.vendorOrder].vendor == v && i.variant == x
      then i.quantity else 0
  }

  function RequestedFrom(v: nat, x: nat): Line -> int {
    (l: Line) => if l.vendor == v && l.variant == x then l.quantity else 0
  }

  /** Each vendor receives exactly the units requested from that vendor. */
  lemma VendorsReceiveTheirUnits(t: Tables, r: Request, collision: Option<nat>, v: nat, x: nat)
    requires CommitSpec(t, r, collision).1 == Done
    ensures var u := CommitSpec(t, r, collision).0;
            && t.items <= u.items
            && Sum(u.items[|t.items|..], UnderVendor(u.vendorOrders, v, x)) == Sum(r.lines, RequestedFrom(v, x))
  {
    hide CommitSpec;
    var u := CommitSpec(t, r, collision).0;
    CommitPlacesTheLines(t, r, collision, RequestedFrom(v, x));
    var placed := u.items[|t.items|..];
    SumAlike(placed, Weigh(u.vendorOrders, RequestedFrom(v, x)), placed, UnderVendor(u.vendorOrders, v, x));
  }

  /** One more master order, of the cart's owner, PENDING, for the sum of the lines; the cart is the one converted. */
  lemma CommitPlacesOneOrder(t: Tables, r: Request, collision: Option<nat>)
    requires CommitSpec(t, r, collision).1 == Done
    ensures var u := CommitSpec(t, r, collision).0;
            && u.orders[..|u.orders| - 1] == t.orders && |u.orders| == |t.orders| + 1
            && var o := u.orders[|t.orders|];
            && o.user == r.user && o.currency == r.currency && o.status == OrderPending
            && o.subtotal == o.total == Sum(r.lines, LineTotal())
            && o.history == [Change(None, OrderPending, r.user)]
            && u.carts == t.carts[r.cart := t.carts[r.cart].(status := CartConverted)]
            && u.vendors == t.vendors && u.products == t.products && u.variants == t.variants
            && u.nextCartItem == t.nextCartItem
  {
  }

  /** The vendor order is a new PENDING one of this vendor, for the sum of this vendor's lines. */
  ghost predicate IsVendorsShare(w: VendorOrder, lines: seq<Line>, master: nat, user: nat) {
    && w.master == master && w.status == Pending && w.history == [Change(None, Pending, user)]
    && w.subtotal == w.total == Sum(LinesOfVendor(lines, w.vendor), LineTotal())
    && LinesOfVendor(lines, w.vendor) != []
  }

  /** One vendor order for each vendor of the request and for no other, with that vendor's share. */
  lemma CommitSplitsByVendor(t: Tables, r: Request, collision: Option<nat>)
    requires CommitSpec(t, r, collision).1 == Done
    ensures var u, n := CommitSpec(t, r, collision).0, |t.vendorOrders|;
            && t.vendorOrders <= u.vendorOrders
            && (forall w :: n <= w < |u.vendorOrders| ==>
                  IsVendorsShare(u.vendorOrders[w], r.lines, |t.orders|, r.user))
            && (forall v, w :: n <= v < w < |u.vendorOrders| ==> u.vendorOrders[v].vendor != u.vendorOrders[w].vendor)
            && (forall i :: 0 <= i < |r.lines| ==> HasVendorOrder(u.vendorOrders[n..], r.lines[i].vendor))
  {
    hide Groups, PlacedItems, Reserve, ReservationRows, Sum;
    var u, n := CommitSpec(t, r, collision).0, |t.vendorOrders|;
    var groups := Groups(r.lines);
    GroupsPartitionLines(r.lines);
    forall i | 0 <= i < |r.lines| ensures HasVendorOrder(u.vendorOrders[n..], r.lines[i].vendor) {
      assert u.vendorOrders[n..][GroupOf(groups, r.lines[i].vendor)].vendor == r.lines[i].vendor;
    }
  }

  predicate HasVendorOrder(vendorOrders: seq<VendorOrder>, vendor: nat) {
    exists w :: 0 <= w < |vendorOrders| && vendorOrders[w].vendor == vendor
  }

  // ------------------------------------------------------------------------------------------
  // Status updates

  /** PENDING, CONFIRMED, PROCESSING, READY_TO_SHIP, SHIPPED, DELIVERED. */
  predicate OnLadder(s: VendorStatus) {
    s != Cancelled && s != ReturnRequested && s != Returned
  }

  /** The transition table is: one rung up the ladder, or a cancellation from its two lowest rungs. */
  lemma AllowedIsOneRungUp(from: VendorStatus, to: VendorStatus)
    ensures to in AllowedTargets(from) <==>
              || (OnLadder(from) && OnLadder(to) && VendorStage(to) == VendorStage(from) + 1)
              || (to == Cancelled && OnLadder(from) && VendorStage(from) <= 1)
  {
  }

  /** The commit takes place exactly on a vendor order that still has the status read; else nothing changes. */
  lemma StatusCommitsIff(t: Tables, v: nat, from: VendorStatus, to: VendorStatus, actor: nat)
    ensures CommitStatusSpec(t, v, from, to, actor).1 == Done <==>
              v < |t.vendorOrders| && t.vendorOrders[v].status == from && t.vendorOrders[v].master < |t.orders|
    ensures CommitStatusSpec(t, v, from, to, actor).1 != Done ==> CommitStatusSpec(t, v, from, to, actor).0 == t
    ensures CommitStatusSpec(t, v, from, to, actor).1 == Failed(Conflict) <==>
              v >= |t.vendorOrders| || t.vendorOrders[v].status != from
  {
  }

  /** The one vendor order moves, with one history row; its master follows, with one row if it changes. */
  lemma StatusCommitEffect(t: Tables, v: nat, from: VendorStatus, to: VendorStatus, actor: nat)
    requires CommitStatusSpec(t, v, from, to, actor).1 == Done
    ensures var u := CommitStatusSpec(t, v, from, to, actor).0;
            var w, m := t.vendorOrders[v], t.vendorOrders[v].master;
            && u == t.(vendorOrders := u.vendorOrders, orders := u.orders)
            && u.vendorOrders == t.vendorOrders[v :=
                 VendorOrder(w.master, w.vendor, to, w.subtotal, w.total, w.history + [Change(Some(from), to, actor)])]
            && |u.orders| == |t.orders| && (forall k :: 0 <= k < |t.orders| && k != m ==> u.orders[k] == t.orders[k])
            && u.orders[m].status == DeriveMasterOrderStatus(ChildStatuses(u.vendorOrders, m))
            && u.orders[m] == t.orders[m].(status := u.orders[m].status, history := u.orders[m].history)
            && u.orders[m].history ==
               (if u.orders[m].status == t.orders[m].status then t.orders[m].history
                else t.orders[m].history + [Change(Some(t.orders[m].status), u.orders[m].status, actor)])
  {
    hide DeriveMasterOrderStatus, ChildStatuses;
  }

  /** The call commits exactly when the transition table allows the target for the stored status. */
  lemma StatusUpdateIff(t: Tables, v: nat, to: VendorStatus, actor: nat)
    ensures var (u, outcome) := UpdateStatusSpec(t, v, to, actor);
            && (outcome == Done <==>
                  && v < |t.vendorOrders| && t.vendorOrders[v].master < |t.orders|
                  && to in AllowedTargets(t.vendorOrders[v].status))
            && (outcome == Failed(Conflict) <==>
                  v < |t.vendorOrders| && to !in AllowedTargets(t.vendorOrders[v].status))
            && (outcome != Done ==> u == t && outcome in {Failed(NotFound), Failed(Conflict)})
            && (outcome == Done ==> u == CommitStatusSpec(t, v, t.vendorOrders[v].status, to, actor).0)
  {
    hide DeriveMasterOrderStatus, ChildStatuses, AllowedTargets;
  }

  /** A Done status update has moved the vendor order to the target. */
  lemma StatusUpdateEffect(t: Tables, v: nat, to: VendorStatus, actor: nat)
    requires UpdateStatusSpec(t, v, to, actor).1 == Done
    ensures var u := UpdateStatusSpec(t, v, to, actor).0;
            var w := t.vendorOrders[v];
            && u.vendorOrders == t.vendorOrders[v :=
                 VendorOrder(w.master, w.vendor, to, w.subtotal, w.total,
                             w.history + [Change(Some(w.status), to, actor)])]
            && w.master < |u.orders|
            && u.orders[w.master].status == DeriveMasterOrderStatus(ChildStatuses(u.vendorOrders, w.master))
  {
    hide CommitStatusSpec, DeriveMasterOrderStatus, ChildStatuses;
    StatusUpdateIff(t, v, to, actor);
    StatusCommitsIff(t, v, t.vendorOrders[v].status, to, actor);
    StatusCommitEffect(t, v, t.vendorOrders[v].status, to, actor);
  }
}
