/** Checkout: validation, the vendor split, the reservation loop, and the one transaction that places an order. */
module Checkout {
  import opened Common
  import opened MasterOrderStatus
  import opened Store
  import opened CartService

  /** A validated cart line: the item's quantity with the variant's current product, vendor, price and currency. */
  datatype Line = Line(variant: nat, product: nat, vendor: nat, price: int, currency: string, quantity: int)

  /** What a checkout has read before its transaction starts; it may be stale when the transaction runs. */
  datatype Request = Request(cart: nat, user: nat, currency: string, lines: seq<Line>)

  // ------------------------------------------------------------------------------------------
  // Reading and validating

  function LoadLine(t: Tables, item: CartItem, cartCurrency: string): Result<Line, Error> {
    if !Purchasable(t, item.variant) then Err(InvalidItem)
    else
      var v := t.variants[item.variant];
      if v.currency != cartCurrency then Err(CurrencyMismatch)
      else if item.variant !in t.inventories then Err(InsufficientStock)
      else if t.inventories[item.variant].onHand - t.inventories[item.variant].reserved < item.quantity
      then Err(InsufficientStock)
      else Ok(Line(item.variant, v.product, t.products[v.product].vendor, v.price, v.currency, item.quantity))
  }

  /** The first item that fails decides the error. */
  function LoadLines(t: Tables, items: seq<CartItem>, cartCurrency: string): Result<seq<Line>, Error> {
    if items == [] then Ok([])
    else
      match LoadLines(t, items[..|items| - 1], cartCurrency)
      case Err(e) => Err(e)
      case Ok(lines) =>
        match LoadLine(t, items[|items| - 1], cartCurrency)
        case Err(e) => Err(e)
        case Ok(line) => Ok(lines + [line])
  }

  function LoadSpec(t: Tables, user: nat): Result<Request, Error> {
    match FindActive(t.carts, user)
    case None => Err(EmptyCart)
    case Some(c) =>
      var cart := t.carts[c];
      if cart.items == [] then Err(EmptyCart)
      else
        match LoadLines(t, cart.items, cart.currency)
        case Err(e) => Err(e)
        case Ok(lines) => Ok(Request(c, user, cart.currency, lines))
  }

  method ValidateAndLoadLines(db: Database, items: seq<CartItem>, cartCurrency: string)
    returns (r: Result<seq<Line>, Error>)
    ensures r == LoadLines(db.Now(), items, cartCurrency)
  {
    var t := db.Now();
    var lines := [];
    var i := 0;
    while i < |items|
      invariant 0 <= i <= |items|
      invariant LoadLines(t, items[..i], cartCurrency) == Ok(lines)
    {
      assert items[..i + 1][..i] == items[..i];
      match LoadLine(t, items[i], cartCurrency) {
        case Err(e) =>
          FailedPrefixFails(t, items, i + 1, cartCurrency);
          return Err(e);
        case Ok(line) =>
          lines := lines + [line];
      }
      i := i + 1;
    }
    assert items[..i] == items;
    r := Ok(lines);
  }

  lemma {:induction false} FailedPrefixFails(t: Tables, items: seq<CartItem>, k: nat, cartCurrency: string)
    requires k <= |items| && LoadLines(t, items[..k], cartCurrency).Err?
    ensures LoadLines(t, items, cartCurrency) == LoadLines(t, items[..k], cartCurrency)
  {
    if k == |items| {
      assert items[..k] == items;
    } else {
      assert items[..|items| - 1][..k] == items[..k];
      FailedPrefixFails(t, items[..|items| - 1], k, cartCurrency);
    }
  }

  /** An item passes validation. */
  predicate Loadable(t: Tables, item: CartItem, cartCurrency: string) {
    && OnSale(t, item.variant)
    && t.variants[item.variant].currency == cartCurrency
    && InStock(t, item)
  }

  predicate InStock(t: Tables, item: CartItem) {
    && item.variant in t.inventories
    && item.quantity <= t.inventories[item.variant].onHand - t.inventories[item.variant].reserved
  }

  /** The first item that does not pass decides the error: not on sale, else wrong currency, else out of stock. */
  lemma FirstFailureDecides(t: Tables, items: seq<CartItem>, cartCurrency: string, i: nat)
    requires i < |items| && !Loadable(t, items[i], cartCurrency)
    requires forall k :: 0 <= k < i ==> Loadable(t, items[k], cartCurrency)
    ensures LoadLines(t, items, cartCurrency) ==
            Err(if !OnSale(t, items[i].variant) then InvalidItem
                else if t.variants[items[i].variant].currency != cartCurrency then CurrencyMismatch
                else InsufficientStock)
  {
    LoadSucceedsIff(t, items[..i], cartCurrency);
    assert items[..i + 1][..i] == items[..i];
    FailedPrefixFails(t, items, i + 1, cartCurrency);
  }

  /** When a checkout gets as far as its transaction, and the error it answers otherwise without changing anything. */
  lemma CheckoutRefusals(t: Tables, user: nat, collision: Option<nat>)
    ensures var (u, outcome) := CheckoutSpec(t, user, collision);
            match FindActive(t.carts, user)
            case None => u == t && outcome == Failed(EmptyCart)
            case Some(c) =>
              var cart := t.carts[c];
              if cart.items == [] then u == t && outcome == Failed(EmptyCart)
              else if forall i :: 0 <= i < |cart.items| ==> Loadable(t, cart.items[i], cart.currency)
              then LoadLines(t, cart.items, cart.currency).Ok? &&
                   (u, outcome) == CommitSpec(t, Request(c, user, cart.currency,
                                                         LoadLines(t, cart.items, cart.currency).value), collision)
              else LoadLines(t, cart.items, cart.currency).Err? &&
                   u == t && outcome == Failed(LoadLines(t, cart.items, cart.currency).error)
  {
    hide CommitSpec, Loadable;
    if FindActive(t.carts, user).Some? {
      var cart := t.carts[FindActive(t.carts, user).value];
      LoadSucceedsIff(t, cart.items, cart.currency);
    }
  }

  /** The line of an item: its quantity, at the variant's current price and not the cart's snapshot of it. */
  predicate IsLineOf(t: Tables, item: CartItem, l: Line) {
    && l.variant == item.variant && l.quantity == item.quantity
    && l.variant < |t.variants| && l.product == t.variants[l.variant].product
    && l.price == t.variants[l.variant].price && l.currency == t.variants[l.variant].currency
    && l.product < |t.products| && l.vendor == t.products[l.product].vendor
  }

  /** Validation accepts exactly when every item passes, and then yields one line per item, in cart order. */
  lemma {:induction false} LoadSucceedsIff(t: Tables, items: seq<CartItem>, cartCurrency: string)
    ensures LoadLines(t, items, cartCurrency).Ok? <==>
            forall i :: 0 <= i < |items| ==> Loadable(t, items[i], cartCurrency)
    ensures LoadLines(t, items, cartCurrency).Ok? ==>
              var lines := LoadLines(t, items, cartCurrency).value;
              |lines| == |items| && forall i :: 0 <= i < |lines| ==> IsLineOf(t, items[i], lines[i])
  {
    if items != [] {
      var init, last := items[..|items| - 1], items[|items| - 1];
      LoadSucceedsIff(t, init, cartCurrency);
      assert LoadLine(t, last, cartCurrency).Ok? <==> Loadable(t, last, cartCurrency);
      assert forall i :: 0 <= i < |items| ==> items[i] == if i < |init| then init[i] else last;
    }
  }

  // ------------------------------------------------------------------------------------------
  // The vendor split

  datatype VendorGroup = VendorGroup(vendor: nat, lines: seq<Line>)

  function GroupOf(groups: seq<VendorGroup>, vendor: nat): (r: nat)
    ensures r <= |groups|
    ensures r < |groups| ==> groups[r].vendor == vendor
    ensures r == |groups| ==> forall i :: 0 <= i < |groups| ==> groups[i].vendor != vendor
  {
    FirstIndex(groups, (g: VendorGroup) => g.vendor == vendor)
  }

  function AddToGroups(groups: seq<VendorGroup>, line: Line): seq<VendorGroup> {
    var k := GroupOf(groups, line.vendor);
    if k < |groups| then groups[k := VendorGroup(line.vendor, groups[k].lines + [line])]
    else groups + [VendorGroup(line.vendor, [line])]
  }

  function Groups(lines: seq<Line>): seq<VendorGroup> {
    if lines == [] then [] else AddToGroups(Groups(lines[..|lines| - 1]), lines[|lines| - 1])
  }

  /** The loop that fills `groupedByVendor`; the map keeps the order in which vendors first appear. */
  method GroupByVendor(lines: seq<Line>) returns (groups: seq<VendorGroup>)
    ensures groups == Groups(lines)
  {
    groups := [];
    var i := 0;
    while i < |lines|
      invariant 0 <= i <= |lines|
      invariant groups == Groups(lines[..i])
    {
      assert lines[..i + 1][..i] == lines[..i];
      var line := lines[i];
      var k := GroupOf(groups, line.vendor);
      if k < |groups| {
        groups := groups[k := VendorGroup(line.vendor, groups[k].lines + [line])];
      } else {
        groups := groups + [VendorGroup(line.vendor, [line])];
      }
      i := i + 1;
    }
    assert lines[..i] == lines;
  }

  /** The lines of one vendor, in cart order. */
  function LinesOfVendor(lines: seq<Line>, vendor: nat): seq<Line> {
    if lines == [] then []
    else
      var rest := LinesOfVendor(lines[..|lines| - 1], vendor);
      if lines[|lines| - 1].vendor == vendor then rest + [lines[|lines| - 1]] else rest
  }

  lemma {:induction false} GroupVendorsDistinct(lines: seq<Line>)
    ensures forall i, j :: 0 <= i < j < |Groups(lines)| ==> Groups(lines)[i].vendor != Groups(lines)[j].vendor
  {
    if lines != [] {
      GroupVendorsDistinct(lines[..|lines| - 1]);
    }
  }

  lemma {:induction false} EveryLineGrouped(lines: seq<Line>, n: nat)
    requires n < |lines|
    ensures GroupOf(Groups(lines), lines[n].vendor) < |Groups(lines)|
  {
    var init, last := lines[..|lines| - 1], lines[|lines| - 1];
    var before, gs := Groups(init), Groups(lines);
    if n == |lines| - 1 {
      assert gs[GroupOf(before, last.vendor)].vendor == last.vendor;
    } else {
      EveryLineGrouped(init, n);
      var k := GroupOf(before, init[n].vendor);
      assert gs[k].vendor == lines[n].vendor;
    }
  }

  lemma {:induction false} NoLinesOfVendor(lines: seq<Line>, vendor: nat)
    requires forall i :: 0 <= i < |lines| ==> lines[i].vendor != vendor
    ensures LinesOfVendor(lines, vendor) == []
  {
    if lines != [] {
      NoLinesOfVendor(lines[..|lines| - 1], vendor);
    }
  }

  lemma {:induction false} GroupHoldsVendorLines(lines: seq<Line>, k: nat)
    requires k < |Groups(lines)|
    ensures Groups(lines)[k].lines == LinesOfVendor(lines, Groups(lines)[k].vendor)
    ensures Groups(lines)[k].lines != []
  {
    var init, last := lines[..|lines| - 1], lines[|lines| - 1];
    var before, after := Groups(init), Groups(lines);
    var home := GroupOf(before, last.vendor);
    assert after == AddToGroups(before, last);
    if k < |before| {
      GroupHoldsVendorLines(init, k);
      GroupVendorsDistinct(init);
      if k == home {
        assert after[k].lines == before[k].lines + [last];
      } else {
        assert after[k] == before[k] && before[k].vendor != last.vendor;
      }
    } else {
      assert home == |before| && after[k] == VendorGroup(last.vendor, [last]);
      forall i | 0 <= i < |init| ensures init[i].vendor != last.vendor {
        EveryLineGrouped(init, i);
      }
      NoLinesOfVendor(init, last.vendor);
      assert LinesOfVendor(lines, last.vendor) == [] + [last] == [last];
    }
  }

  /**
   * The split is a partition: one group per distinct vendor, and each group is exactly that vendor's lines
   * in cart order, so every line is in one group and in no other.
   */
  lemma GroupsPartitionLines(lines: seq<Line>)
    ensures forall i, j :: 0 <= i < j < |Groups(lines)| ==> Groups(lines)[i].vendor != Groups(lines)[j].vendor
    ensures forall k :: 0 <= k < |Groups(lines)| ==>
              Groups(lines)[k].lines == LinesOfVendor(lines, Groups(lines)[k].vendor) && Groups(lines)[k].lines != []
    ensures forall n :: 0 <= n < |lines| ==> GroupOf(Groups(lines), lines[n].vendor) < |Groups(lines)|
  {
    GroupVendorsDistinct(lines);
    forall k | 0 <= k < |Groups(lines)|
      ensures Groups(lines)[k].lines == LinesOfVendor(lines, Groups(lines)[k].vendor) && Groups(lines)[k].lines != []
    {
      GroupHoldsVendorLines(lines, k);
    }
    forall n | 0 <= n < |lines|
      ensures GroupOf(Groups(lines), lines[n].vendor) < |Groups(lines)|
    {
      EveryLineGrouped(lines, n);
    }
  }

  /** Any total over the lines, summed group by group. */
  function SumGroups(groups: seq<VendorGroup>, f: Line -> int): int {
    if groups == [] then 0
    else SumGroups(groups[..|groups| - 1], f) + Sum(groups[|groups| - 1].lines, f)
  }

  lemma {:induction false} SumGroupsUpdate(groups: seq<VendorGroup>, k: nat, g: VendorGroup, f: Line -> int)
    requires k < |groups|
    ensures SumGroups(groups[k := g], f) == SumGroups(groups, f) - Sum(groups[k].lines, f) + Sum(g.lines, f)
  {
    var last := |groups| - 1;
    if k == last {
      assert groups[k := g][..last] == groups[..last];
    } else {
      assert groups[k := g][..last] == groups[..last][k := g];
      SumGroupsUpdate(groups[..last], k, g, f);
    }
  }

  lemma SumGroupsSnoc(groups: seq<VendorGroup>, g: VendorGroup, f: Line -> int)
    ensures SumGroups(groups + [g], f) == SumGroups(groups, f) + Sum(g.lines, f)
  {
    assert (groups + [g])[..|groups|] == groups;
  }

  /** The split loses nothing and counts nothing twice, for money and for quantities alike. */
  lemma {:induction false} SplitPreservesTotals(lines: seq<Line>, f: Line -> int)
    ensures SumGroups(Groups(lines), f) == Sum(lines, f)
  {
    if lines != [] {
      var init, last := lines[..|lines| - 1], lines[|lines| - 1];
      SplitPreservesTotals(init, f);
      var before := Groups(init);
      var k := GroupOf(before, last.vendor);
      if k < |before| {
        var g := VendorGroup(last.vendor, before[k].lines + [last]);
        assert Groups(lines) == before[k := g];
        SumGroupsUpdate(before, k, g, f);
        SumSnoc(before[k].lines, last, f);
      } else {
        SumGroupsSnoc(before, VendorGroup(last.vendor, [last]), f);
        assert Sum([last], f) == Sum([], f) + f(last) by { assert [last][..0] == []; }
      }
    }
  }

  // ------------------------------------------------------------------------------------------
  // The reservation loop

  function RequestedOf(v: nat): Line -> int {
    (l: Line) => if l.variant == v then l.quantity else 0
  }

  /** One conditional `UPDATE inventories`; `None` when it affects no row. */
  function ReserveLine(inventories: map<nat, Inventory>, line: Line): Option<map<nat, Inventory>> {
    if line.variant in inventories
       && inventories[line.variant].onHand - inventories[line.variant].reserved >= line.quantity
    then
      var row := inventories[line.variant];
      Some(inventories[line.variant := row.(reserved := row.reserved + line.quantity)])
    else None
  }

  function Reserve(inventories: map<nat, Inventory>, lines: seq<Line>): Option<map<nat, Inventory>> {
    if lines == [] then Some(inventories)
    else
      match Reserve(inventories, lines[..|lines| - 1])
      case None => None
      case Some(inv) => ReserveLine(inv, lines[|lines| - 1])
  }

  lemma {:induction false} ReservePrefixFails(inventories: map<nat, Inventory>, lines: seq<Line>, k: nat)
    requires k <= |lines| && Reserve(inventories, lines[..k]).None?
    ensures Reserve(inventories, lines).None?
  {
    if k == |lines| {
      assert lines[..k] == lines;
    } else {
      assert lines[..|lines| - 1][..k] == lines[..k];
      ReservePrefixFails(inventories, lines[..|lines| - 1], k);
    }
  }

  ghost predicate PositiveQuantities(lines: seq<Line>) {
    forall i :: 0 <= i < |lines| ==> lines[i].quantity >= 1
  }

  /** For every variant named by some line, everything requested of it, over all lines, is available. */
  ghost predicate Fits(inventories: map<nat, Inventory>, lines: seq<Line>) {
    forall i :: 0 <= i < |lines| ==>
      var v := lines[i].variant;
      v in inventories && Sum(lines, RequestedOf(v)) <= inventories[v].onHand - inventories[v].reserved
  }

  /** The reservations with every variant's requested total added. */
  function WithRequested(inventories: map<nat, Inventory>, lines: seq<Line>): map<nat, Inventory> {
    map v | v in inventories ::
      inventories[v].(reserved := inventories[v].reserved + Sum(lines, RequestedOf(v)))
  }

  lemma {:induction false} ReserveAddsTotals(inventories: map<nat, Inventory>, lines: seq<Line>)
    requires Reserve(inventories, lines).Some?
    ensures Reserve(inventories, lines).value == WithRequested(inventories, lines)
  {
    if lines == [] {
      assert WithRequested(inventories, lines) == inventories;
    } else {
      ReserveAddsTotals(inventories, lines[..|lines| - 1]);
      assert Reserve(inventories, lines).value == WithRequested(inventories, lines);
    }
  }

  lemma {:induction false} ReservedFits(inventories: map<nat, Inventory>, lines: seq<Line>)
    requires Reserve(inventories, lines).Some?
    ensures Fits(inventories, lines)
  {
    if lines != [] {
      var init, last := lines[..|lines| - 1], lines[|lines| - 1];
      ReservedFits(inventories, init);
      ReserveAddsTotals(inventories, init);
      forall i | 0 <= i < |lines|
        ensures lines[i].variant in inventories &&
                Sum(lines, RequestedOf(lines[i].variant)) <=
                inventories[lines[i].variant].onHand - inventories[lines[i].variant].reserved
      {
        if lines[i].variant != last.variant {
          assert init[i] == lines[i];
        }
      }
    }
  }

  lemma {:induction false} FittingIsReserved(inventories: map<nat, Inventory>, lines: seq<Line>)
    requires PositiveQuantities(lines) && Fits(inventories, lines)
    ensures Reserve(inventories, lines).Some?
  {
    if lines != [] {
      var init, last := lines[..|lines| - 1], lines[|lines| - 1];
      assert lines[|lines| - 1].quantity >= 1;
      forall i | 0 <= i < |init|
        ensures init[i].quantity >= 1 && init[i].variant in inventories &&
                Sum(init, RequestedOf(init[i].variant)) <=
                inventories[init[i].variant].onHand - inventories[init[i].variant].reserved
      {
        assert init[i] == lines[i];
      }
      FittingIsReserved(inventories, init);
      ReserveAddsTotals(inventories, init);
    }
  }

  /** The loop of per-line conditional updates decides the per-variant question, and adds exactly the totals. */
  lemma {:induction false} ReserveIffFits(inventories: map<nat, Inventory>, lines: seq<Line>)
    requires PositiveQuantities(lines)
    ensures Reserve(inventories, lines).Some? <==> Fits(inventories, lines)
    ensures Reserve(inventories, lines).Some? ==>
              Reserve(inventories, lines).value == WithRequested(inventories, lines)
  {
    if Reserve(inventories, lines).Some? {
      ReserveAddsTotals(inventories, lines);
      ReservedFits(inventories, lines);
    } else if Fits(inventories, lines) {
      FittingIsReserved(inventories, lines);
    }
  }

  lemma FitsInAnyOrder(inventories: map<nat, Inventory>, a: seq<Line>, b: seq<Line>)
    requires multiset(a) == multiset(b) && Fits(inventories, a)
    ensures Fits(inventories, b)
  {
    forall i | 0 <= i < |b|
      ensures b[i].variant in inventories &&
              Sum(b, RequestedOf(b[i].variant)) <= inventories[b[i].variant].onHand - inventories[b[i].variant].reserved
    {
      assert b[i] in multiset(b) && b[i] in multiset(a);
      var j :| 0 <= j < |a| && a[j] == b[i];
      SumPermutation(a, b, RequestedOf(a[j].variant));
    }
  }

  lemma WithRequestedInAnyOrder(inventories: map<nat, Inventory>, a: seq<Line>, b: seq<Line>)
    requires multiset(a) == multiset(b)
    ensures WithRequested(inventories, a) == WithRequested(inventories, b)
  {
    forall v | v in inventories ensures Sum(a, RequestedOf(v)) == Sum(b, RequestedOf(v)) {
      SumPermutation(a, b, RequestedOf(v));
    }
  }

  /** With one line per variant, what is requested of a variant is its own line's quantity. */
  lemma {:induction false} DistinctVariantsRequestTheirOwn(lines: seq<Line>, k: nat)
    requires k < |lines| && forall i, j :: 0 <= i < j < |lines| ==> lines[i].variant != lines[j].variant
    ensures Sum(lines, RequestedOf(lines[k].variant)) == lines[k].quantity
  {
    var last := |lines| - 1;
    if k == last {
      SumZero(lines[..last], RequestedOf(lines[k].variant));
    } else {
      DistinctVariantsRequestTheirOwn(lines[..last], k);
    }
  }

  /** Neither the verdict nor the resulting stock depends on the order of the lines. */
  lemma ReserveOrderIndependent(inventories: map<nat, Inventory>, a: seq<Line>, b: seq<Line>)
    requires PositiveQuantities(a) && multiset(a) == multiset(b)
    ensures Reserve(inventories, a) == Reserve(inventories, b)
  {
    forall i | 0 <= i < |b| ensures b[i].quantity >= 1 {
      assert b[i] in multiset(b) && b[i] in multiset(a);
    }
    var x, y := Reserve(inventories, a), Reserve(inventories, b);
    ReserveIffFits(inventories, a);
    ReserveIffFits(inventories, b);
    assert x.Some? ==> y.Some? by { if x.Some? { FitsInAnyOrder(inventories, a, b); } }
    assert y.Some? ==> x.Some? by { if y.Some? { FitsInAnyOrder(inventories, b, a); } }
    WithRequestedInAnyOrder(inventories, a, b);
  }

  // ------------------------------------------------------------------------------------------
  // The checkout transaction

  /** A line's money: current price times quantity. */
  function LineTotal(): Line -> int {
    (l: Line) => l.price * l.quantity
  }

  function PlacedOrder(g: VendorGroup, master: nat, user: nat): VendorOrder {
    var subtotal := Sum(g.lines, LineTotal());
    VendorOrder(master, g.vendor, Pending, subtotal, subtotal, [Change(None, Pending, user)])
  }

  function PlacedOrders(groups: seq<VendorGroup>, master: nat, user: nat): seq<VendorOrder> {
    seq(|groups|, k requires 0 <= k < |groups| => PlacedOrder(groups[k], master, user))
  }

  function PlacedItem(l: Line, vendorOrder: nat): OrderItem {
    OrderItem(vendorOrder, l.product, l.variant, l.price, l.quantity, l.price * l.quantity, l.currency)
  }

  function ItemsOfGroup(lines: seq<Line>, vendorOrder: nat): seq<OrderItem> {
    seq(|lines|, i requires 0 <= i < |lines| => PlacedItem(lines[i], vendorOrder))
  }

  /** The order items of all groups, the k-th group under vendor order `first + k`. */
  function PlacedItems(groups: seq<VendorGroup>, first: nat): seq<OrderItem> {
    if groups == [] then []
    else PlacedItems(groups[..|groups| - 1], first) + ItemsOfGroup(groups[|groups| - 1].lines, first + |groups| - 1)
  }

  /** One RESERVATION ledger row per order item, referring to it. */
  function ReservationRows(items: seq<OrderItem>, firstItem: nat): seq<Movement> {
    seq(|items|, i requires 0 <= i < |items| =>
      Movement(items[i].variant, Reservation, items[i].quantity, Some(firstItem + i)))
  }

  function PlacedMaster(r: Request): MasterOrder {
    var subtotal := Sum(r.lines, LineTotal());
    MasterOrder(r.user, OrderPending, r.currency, subtotal, subtotal, [Change(None, OrderPending, r.user)])
  }

  /**
   * The transaction, for a request read at any earlier time. `collision` says where, if anywhere, a generated
   * order number turns out to be taken: 0 is the master order's, k + 1 the k-th vendor order's.
   */
  function CommitSpec(t: Tables, r: Request, collision: Option<nat>): (Tables, Outcome) {
    if r.cart >= |t.carts| || t.carts[r.cart].status != CartActive then (t, Failed(CartNoLongerActive))
    else
      match Reserve(t.inventories, r.lines)
      case None => (t, Failed(InsufficientStock))
      case Some(inventories) =>
        var groups := Groups(r.lines);
        if collision.Some? && collision.value <= |groups| then (t, Failed(OrderNumberCollision))
        else
          var placed := PlacedItems(groups, |t.vendorOrders|);
          (t.(carts := t.carts[r.cart := t.carts[r.cart].(status := CartConverted)],
              inventories := inventories,
              orders := t.orders + [PlacedMaster(r)],
              vendorOrders := t.vendorOrders + PlacedOrders(groups, |t.orders|, r.user),
              items := t.items + placed,
              movements := t.movements + ReservationRows(placed, |t.items|)),
           Done)
  }

  /** The whole service call with nothing in between its reads and its transaction. */
  function CheckoutSpec(t: Tables, user: nat, collision: Option<nat>): (Tables, Outcome) {
    match LoadSpec(t, user)
    case Err(e) => (t, Failed(e))
    case Ok(r) => CommitSpec(t, r, collision)
  }

  lemma ReservationRowsAppend(a: seq<OrderItem>, b: seq<OrderItem>, first: nat)
    ensures ReservationRows(a + b, first) == ReservationRows(a, first) + ReservationRows(b, first + |a|)
  {
  }

  method SumLines(lines: seq<Line>) returns (subtotal: int)
    ensures subtotal == Sum(lines, LineTotal())
  {
    subtotal := 0;
    for i := 0 to |lines|
      invariant subtotal == Sum(lines[..i], LineTotal())
    {
      assert lines[..i + 1] == lines[..i] + [lines[i]];
      SumSnoc(lines[..i], lines[i], LineTotal());
      subtotal := subtotal + lines[i].price * lines[i].quantity;
    }
    assert lines[..|lines|] == lines;
  }

  /** The reservation loop on the database; `false` as soon as one update affects no row. */
  method ReserveLines(db: Database, lines: seq<Line>) returns (ok: bool)
    modifies db`inventories
    ensures ok <==> Reserve(old(db.inventories), lines).Some?
    ensures ok ==> db.inventories == Reserve(old(db.inventories), lines).value
  {
    var i := 0;
    while i < |lines|
      invariant 0 <= i <= |lines|
      invariant Reserve(old(db.inventories), lines[..i]) == Some(db.inventories)
    {
      assert lines[..i + 1][..i] == lines[..i];
      var line := lines[i];
      if line.variant !in db.inventories
         || db.inventories[line.variant].onHand - db.inventories[line.variant].reserved < line.quantity {
        ReservePrefixFails(old(db.inventories), lines, i + 1);
        return false;
      }
      var row := db.inventories[line.variant];
      db.inventories := db.inventories[line.variant := row.(reserved := row.reserved + line.quantity)];
      i := i + 1;
    }
    assert lines[..i] == lines;
    ok := true;
  }

  /** One vendor's order with its items and ledger rows. */
  method PlaceVendorOrder(db: Database, g: VendorGroup, master: nat, user: nat)
    modifies db`vendorOrders, db`items, db`movements
    ensures db.vendorOrders == old(db.vendorOrders) + [PlacedOrder(g, master, user)]
    ensures db.items == old(db.items) + ItemsOfGroup(g.lines, |old(db.vendorOrders)|)
    ensures db.movements == old(db.movements) +
                            ReservationRows(ItemsOfGroup(g.lines, |old(db.vendorOrders)|), |old(db.items)|)
  {
    var vendorSubtotal := SumLines(g.lines);
    var vendorOrder := |db.vendorOrders|;
    db.vendorOrders := db.vendorOrders +
                       [VendorOrder(master, g.vendor, Pending, vendorSubtotal, vendorSubtotal,
                                    [Change(None, Pending, user)])];
    var i := 0;
    while i < |g.lines|
      invariant 0 <= i <= |g.lines|
      invariant db.vendorOrders == old(db.vendorOrders) + [PlacedOrder(g, master, user)]
      invariant db.items == old(db.items) + ItemsOfGroup(g.lines[..i], vendorOrder)
      invariant db.movements == old(db.movements) +
                                ReservationRows(ItemsOfGroup(g.lines[..i], vendorOrder), |old(db.items)|)
    {
      var line := g.lines[i];
      var orderItem := |db.items|;
      ghost var placed := PlacedItem(line, vendorOrder);
      assert ItemsOfGroup(g.lines[..i + 1], vendorOrder) == ItemsOfGroup(g.lines[..i], vendorOrder) + [placed];
      ReservationRowsAppend(ItemsOfGroup(g.lines[..i], vendorOrder), [placed], |old(db.items)|);
      db.items := db.items + [OrderItem(vendorOrder, line.product, line.variant, line.price, line.quantity,
                                        line.price * line.quantity, line.currency)];
      db.movements := db.movements + [Movement(line.variant, Reservation, line.quantity, Some(orderItem))];
      i := i + 1;
    }
    assert g.lines[..i] == g.lines;
  }

  /** The loop over vendors; `false` when a generated vendor order number collides. */
  method PlaceVendorOrders(db: Database, groups: seq<VendorGroup>, master: nat, user: nat, collision: Option<nat>)
    returns (ok: bool)
    modifies db`vendorOrders, db`items, db`movements
    ensures ok <==> !(collision.Some? && 1 <= collision.value <= |groups|)
    ensures ok ==> db.vendorOrders == old(db.vendorOrders) + PlacedOrders(groups, master, user)
    ensures ok ==> db.items == old(db.items) + PlacedItems(groups, |old(db.vendorOrders)|)
    ensures ok ==> db.movements ==
                   old(db.movements) + ReservationRows(PlacedItems(groups, |old(db.vendorOrders)|), |old(db.items)|)
  {
    ghost var first, firstItem := |db.vendorOrders|, |db.items|;
    var k := 0;
    assert PlacedItems(groups[..k], first) == [] && PlacedOrders(groups[..k], master, user) == [];
    assert ReservationRows([], firstItem) == [];
    hide PlacedItems, ReservationRows, ItemsOfGroup, PlacedOrder, PlacedOrders;
    while k < |groups|
      invariant 0 <= k <= |groups|
      invariant !(collision.Some? && 1 <= collision.value <= k)
      invariant db.vendorOrders == old(db.vendorOrders) + PlacedOrders(groups[..k], master, user)
      invariant db.items == old(db.items) + PlacedItems(groups[..k], first)
      invariant db.movements == old(db.movements) + ReservationRows(PlacedItems(groups[..k], first), firstItem)
    {
      if collision == Some(k + 1) {
        return false;
      }
      ghost var before := PlacedItems(groups[..k], first);
      ghost var rows := ReservationRows(before, firstItem);
      ghost var added := ItemsOfGroup(groups[k].lines, first + k);
      PlacedItemsSnoc(groups, k, first, firstItem);
      PlacedOrdersSnoc(groups, k, master, user);
      PlaceVendorOrder(db, groups[k], master, user);
      assert db.items == old(db.items) + (before + added);
      assert db.movements == old(db.movements) + (rows + ReservationRows(added, firstItem + |before|));
      k := k + 1;
    }
    assert groups[..k] == groups;
    ok := true;
  }

  lemma PlacedOrdersSnoc(groups: seq<VendorGroup>, k: nat, master: nat, user: nat)
    requires k < |groups|
    ensures PlacedOrders(groups[..k + 1], master, user) ==
            PlacedOrders(groups[..k], master, user) + [PlacedOrder(groups[k], master, user)]
    ensures |PlacedOrders(groups[..k], master, user)| == k
  {
  }

  lemma PlacedItemsSnoc(groups: seq<VendorGroup>, k: nat, first: nat, firstItem: nat)
    requires k < |groups|
    ensures PlacedItems(groups[..k + 1], first) ==
            PlacedItems(groups[..k], first) + ItemsOfGroup(groups[k].lines, first + k)
    ensures ReservationRows(PlacedItems(groups[..k + 1], first), firstItem) ==
            ReservationRows(PlacedItems(groups[..k], first), firstItem) +
            ReservationRows(ItemsOfGroup(groups[k].lines, first + k), firstItem + |PlacedItems(groups[..k], first)|)
  {
    assert groups[..k + 1][..k] == groups[..k];
    ReservationRowsAppend(PlacedItems(groups[..k], first), ItemsOfGroup(groups[k].lines, first + k), firstItem);
  }

  /** Everything the transaction inserts; `false` when a generated order number collides. */
  method PlaceMasterOrder(db: Database, r: Request, collision: Option<nat>) returns (ok: bool)
    modifies db`orders, db`vendorOrders, db`items, db`movements
    ensures ok <==> !(collision.Some? && collision.value <= |Groups(r.lines)|)
    ensures var placed := PlacedItems(Groups(r.lines), |old(db.vendorOrders)|);
            ok ==>
              && db.orders == old(db.orders) + [PlacedMaster(r)]
              && db.vendorOrders ==
                 old(db.vendorOrders) + PlacedOrders(Groups(r.lines), |old(db.orders)|, r.user)
              && db.items == old(db.items) + placed
              && db.movements == old(db.movements) + ReservationRows(placed, |old(db.items)|)
  {
    var groups := GroupByVendor(r.lines);
    var subtotal := SumLines(r.lines);
    if collision == Some(0) {
      return false;
    }
    var master := |db.orders|;
    db.orders := db.orders + [MasterOrder(r.user, OrderPending, r.currency, subtotal, subtotal,
                                          [Change(None, OrderPending, r.user)])];
    ok := PlaceVendorOrders(db, groups, master, r.user, collision);
  }

  method Commit(db: Database, r: Request, collision: Option<nat>) returns (outcome: Outcome)
    modifies db
    ensures (db.Now(), outcome) == CommitSpec(old(db.Now()), r, collision)
  {
    hide Groups, PlacedItems, PlacedOrders, ReservationRows, PlacedMaster, Reserve;
    var start := db.Now();
    if r.cart >= |db.carts| || db.carts[r.cart].status != CartActive {
      return Failed(CartNoLongerActive);
    }
    db.carts := db.carts[r.cart := db.carts[r.cart].(status := CartConverted)];
    var reserved := ReserveLines(db, r.lines);
    if !reserved {
      db.Rollback(start);
      return Failed(InsufficientStock);
    }
    var placed := PlaceMasterOrder(db, r, collision);
    if !placed {
      db.Rollback(start);
      return Failed(OrderNumberCollision);
    }
    outcome := Done;
  }

  method Checkout(db: Database, user: nat, collision: Option<nat>) returns (outcome: Outcome)
    modifies db
    ensures (db.Now(), outcome) == CheckoutSpec(old(db.Now()), user, collision)
  {
    var c := FindActive(db.carts, user);
    if c.None? || db.carts[c.value].items == [] {
      return Failed(EmptyCart);
    }
    var cart := db.carts[c.value];
    var lines := ValidateAndLoadLines(db, cart.items, cart.currency);
    match lines {
      case Err(e) =>
        return Failed(e);
      case Ok(ls) =>
        outcome := Commit(db, Request(c.value, user, cart.currency, ls), collision);
    }
  }

  /** `reserveUniqueOrderNumber` over the stream of generated candidates. */
  method ReserveUniqueOrderNumber(taken: set<string>, candidates: seq<string>) returns (r: Option<string>)
    requires |candidates| >= 5
    ensures r.None? <==> forall i :: 0 <= i < 5 ==> candidates[i] in taken
    ensures r.Some? ==> exists i :: 0 <= i < 5 && candidates[i] == r.value && r.value !in taken
                                    && forall j :: 0 <= j < i ==> candidates[j] in taken
  {
    for attempt := 0 to 5
      invariant forall j :: 0 <= j < attempt ==> candidates[j] in taken
    {
      if candidates[attempt] !in taken {
        return Some(candidates[attempt]);
      }
    }
    r := None;
  }
}
