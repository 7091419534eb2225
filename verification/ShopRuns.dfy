/**
 * Every run of the shop. A request's reads and its write are separate steps with anything in between; each
 * transaction is atomic. What checkouts have read is part of the state until they commit, however stale it gets.
 */
module ShopRuns {
  import opened Common
  import opened MasterOrderStatus
  import opened Store
  import opened Vendors
  import opened InventoryService
  import opened CartService
  import opened VendorOrders
  import opened Checkout
  import opened CheckoutInvariants

  /** The write of one service call, carrying whatever the call read beforehand. */
  datatype Write =
    | CreateVendor(user: nat)
    | WriteVerification(vendor: nat, was: Verification, target: Verification)
    | WriteActivation(vendor: nat)
    | CreateProduct(vendor: nat)
    | WriteProductStatus(product: nat, listing: ListingStatus)
    | CreateVariant(product: nat, price: int, currency: string, first: bool)
    | WriteVariant(variant: nat, price: int, currency: string, listing: ListingStatus)
    | WriteRestock(variant: nat, quantity: int)
    | WriteAdjust(variant: nat, delta: int)
    | WriteAddItem(user: nat, variant: nat, price: int, currency: string, quantity: int)
    | WriteQuantity(item: nat, quantity: int)
    | WriteRemove(item: nat)
    | WriteClear(cart: nat)
    | WriteStatus(vendorOrder: nat, from: VendorStatus, to: VendorStatus, actor: nat)

  /** What request validation and the read-time checks guarantee of a write; nothing about freshness. */
  predicate Admitted(a: Write) {
    match a
    case WriteVerification(_, from, to) => from in AllowedFrom(to)
    case WriteRestock(_, q) => q >= 1
    case WriteAddItem(_, _, _, _, q) => q >= 1
    case WriteQuantity(_, q) => q >= 1
    case WriteStatus(_, from, to, _) => to in AllowedTargets(from)
    case _ => true
  }

  function Effect(t: Tables, a: Write): Tables {
    match a
    case CreateVendor(u) => CreateForUserSpec(t, u).0
    case WriteVerification(v, from, to) => CommitVerificationSpec(t, v, from, to).0
    case WriteActivation(v) => CommitActivationSpec(t, v).0
    case CreateProduct(v) => if v < |t.vendors| then t.(products := t.products + [Product(v, Draft)]) else t
    case WriteProductStatus(p, s) =>
      if p < |t.products| then t.(products := t.products[p := t.products[p].(status := s)]) else t
    case CreateVariant(p, price, currency, first) => CommitVariantSpec(t, p, price, currency, first).0
    case WriteVariant(v, price, currency, s) =>
      if v < |t.variants|
      then t.(variants := t.variants[v := t.variants[v].(price := price, currency := currency, status := s)]) else t
    case WriteRestock(v, q) => CommitRestockSpec(t, v, q).0
    case WriteAdjust(v, d) => CommitAdjustSpec(t, v, d).0
    case WriteAddItem(u, v, price, currency, q) => CommitAddSpec(t, u, v, price, currency, q).0
    case WriteQuantity(i, q) => CommitQuantitySpec(t, i, q).0
    case WriteRemove(i) => CommitRemoveSpec(t, i).0
    case WriteClear(c) => CommitClearSpec(t, c).0
    case WriteStatus(w, from, to, actor) => CommitStatusSpec(t, w, from, to, actor).0
  }

  /** The tables, and every checkout that has finished reading. */
  datatype World = World(t: Tables, inflight: set<Request>)

  datatype Step =
    | Do(write: Write)
    | BeginCheckout(user: nat)
    | CommitCheckout(request: Request, collision: Option<nat>)

  predicate Allowed(w: World, s: Step) {
    match s
    case Do(a) => Admitted(a)
    case BeginCheckout(_) => true
    case CommitCheckout(r, _) => r in w.inflight
  }

  function Next(w: World, s: Step): World {
    match s
    case Do(a) => w.(t := Effect(w.t, a))
    case BeginCheckout(u) =>
      (match LoadSpec(w.t, u)
       case Ok(r) => w.(inflight := w.inflight + {r})
       case Err(_) => w)
    case CommitCheckout(r, collision) => w.(t := CommitSpec(w.t, r, collision).0)
  }

  predicate AllowedRun(w: World, steps: seq<Step>)
    decreases |steps|
  {
    steps == [] || (Allowed(w, steps[0]) && AllowedRun(Next(w, steps[0]), steps[1..]))
  }

  function Run(w: World, steps: seq<Step>): World
    decreases |steps|
  {
    if steps == [] then w else Run(Next(w, steps[0]), steps[1..])
  }

  const INITIAL := World(EMPTY, {})

  // ------------------------------------------------------------------------------------------
  // The invariant

  ghost predicate CatalogOk(t: Tables) {
    && (forall p :: 0 <= p < |t.products| ==> t.products[p].vendor < |t.vendors|)
    && (forall v :: 0 <= v < |t.variants| ==> t.variants[v].product < |t.products|)
    && (forall v: nat :: v in t.inventories <==> v < |t.variants|)
  }

  /** Every vendor order belongs to a vendor that is ACTIVE and VERIFIED now, not only when it was placed. */
  ghost predicate OrdersGoToTradingVendors(t: Tables) {
    forall w :: 0 <= w < |t.vendorOrders| ==> Trading(t.vendors, t.vendorOrders[w].vendor)
  }

  /** Every order item lies under the vendor order of the vendor who sells its product. */
  ghost predicate ItemsGoToTheirVendors(products: seq<Product>, variants: seq<Variant>, vendorOrders: seq<VendorOrder>,
                                        items: seq<OrderItem>)
  {
    forall i :: 0 <= i < |items| ==> GoesToItsVendor(products, variants, vendorOrders, items[i])
  }

  ghost predicate GoesToItsVendor(products: seq<Product>, variants: seq<Variant>, vendorOrders: seq<VendorOrder>,
                                  item: OrderItem)
  {
    && item.vendorOrder < |vendorOrders| && item.variant < |variants| && item.product < |products|
    && item.product == variants[item.variant].product
    && products[item.product].vendor == vendorOrders[item.vendorOrder].vendor
  }

  ghost predicate LineOk(t: Tables, l: Line) {
    && l.quantity >= 1
    && l.variant < |t.variants| && t.variants[l.variant].product == l.product
    && l.product < |t.products| && t.products[l.product].vendor == l.vendor
    && Trading(t.vendors, l.vendor)
  }

  ghost predicate DistinctVariants(lines: seq<Line>) {
    forall i, j :: 0 <= i < j < |lines| ==> lines[i].variant != lines[j].variant
  }

  /** What stays true of a checkout's reads however long its commit is delayed. */
  ghost predicate RequestOk(t: Tables, r: Request) {
    && r.cart < |t.carts| && t.carts[r.cart].user == r.user && t.carts[r.cart].currency == r.currency
    && r.lines != [] && DistinctVariants(r.lines)
    && (forall i :: 0 <= i < |r.lines| ==> LineOk(t, r.lines[i]) && r.lines[i].currency == r.currency)
  }

  ghost predicate TablesOk(t: Tables) {
    && VendorsOk(t.vendors)
    && CatalogOk(t)
    && StockOk(t.inventories, t.movements, t.items)
    && CartsOk(t.carts, |t.variants|) && ConversionsMatch(t.carts, t.orders)
    && StatusesOk(t.orders, t.vendorOrders)
    && MoneyOk(t.orders, t.vendorOrders, t.items)
    && OrdersGoToTradingVendors(t)
    && ItemsGoToTheirVendors(t.products, t.variants, t.vendorOrders, t.items)
    && ItemIdsOk(t.carts, t.nextCartItem)
  }

  ghost predicate Inv(w: World) {
    TablesOk(w.t) && forall r :: r in w.inflight ==> RequestOk(w.t, r)
  }

  /** What no step takes back. */
  ghost predicate Persists(t: Tables, u: Tables) {
    && VendorsPersist(t.vendors, u.vendors)
    && |t.products| <= |u.products|
    && (forall p :: 0 <= p < |t.products| ==> u.products[p].vendor == t.products[p].vendor)
    && |t.variants| <= |u.variants|
    && (forall v :: 0 <= v < |t.variants| ==> u.variants[v].product == t.variants[v].product)
    && CartsPersist(t.carts, u.carts)
    && OrdersPersist(t.orders, u.orders)
    && VendorOrdersPersist(t.vendorOrders, u.vendorOrders)
    && t.items <= u.items && t.movements <= u.movements
  }

  /** Vendor orders keep their vendor, master and amounts. */
  ghost predicate VendorOrdersPersist(before: seq<VendorOrder>, after: seq<VendorOrder>) {
    && |before| <= |after|
    && (forall w :: 0 <= w < |before| ==>
          && after[w].master == before[w].master && after[w].vendor == before[w].vendor
          && after[w].subtotal == before[w].subtotal && after[w].total == before[w].total
          && before[w].history <= after[w].history)
  }

  lemma PersistsTransitive(t: Tables, u: Tables, v: Tables)
    requires Persists(t, u) && Persists(u, v)
    ensures Persists(t, v)
  {
  }

  lemma PersistsReflexive(t: Tables)
    ensures Persists(t, t)
  {
  }

  lemma RequestsSurvive(t: Tables, u: Tables, r: Request)
    requires Persists(t, u) && RequestOk(t, r)
    ensures RequestOk(u, r)
  {
  }

  // ------------------------------------------------------------------------------------------
  // One step: a write touches some tables, and the properties of the others are framed

  lemma VendorFrame(t: Tables, vendors: seq<Vendor>)
    requires TablesOk(t) && VendorsOk(vendors) && VendorsPersist(t.vendors, vendors)
    ensures TablesOk(t.(vendors := vendors)) && Persists(t, t.(vendors := vendors))
  {
    hide StatusesOk, MoneyOk, StockOk, ConversionsMatch, CartsOk, ItemIdsOk, ItemsGoToTheirVendors;
    hide CartsPersist, OrdersPersist, VendorOrdersPersist, Trading;
    PersistsReflexive(t);
  }

  lemma CatalogFrame(t: Tables, products: seq<Product>, variants: seq<Variant>, inventories: map<nat, Inventory>)
    requires TablesOk(t)
    requires var u := t.(products := products, variants := variants, inventories := inventories);
             CatalogOk(u) && Persists(t, u) && StockOk(inventories, t.movements, t.items)
    ensures TablesOk(t.(products := products, variants := variants, inventories := inventories))
  {
    hide StatusesOk, MoneyOk, StockOk, ConversionsMatch, ItemIdsOk, VendorsOk, OrdersPersist, VendorOrdersPersist;
    assert forall c :: 0 <= c < |t.carts| ==> ItemsOk(t.carts[c].items, |t.variants|);
    forall i | 0 <= i < |t.items| ensures GoesToItsVendor(products, variants, t.vendorOrders, t.items[i]) {
      assert GoesToItsVendor(t.products, t.variants, t.vendorOrders, t.items[i]);
    }
  }

  lemma StockFrame(t: Tables, inventories: map<nat, Inventory>, movements: seq<Movement>)
    requires TablesOk(t) && StockOk(inventories, movements, t.items) && inventories.Keys == t.inventories.Keys
    requires t.movements <= movements
    ensures TablesOk(t.(inventories := inventories, movements := movements))
    ensures Persists(t, t.(inventories := inventories, movements := movements))
  {
    hide StatusesOk, MoneyOk, StockOk, ConversionsMatch, CartsOk, ItemIdsOk, ItemsGoToTheirVendors, VendorsOk;
    assert forall v: nat :: v in inventories <==> v in t.inventories;
    PersistsReflexive(t);
  }

  lemma CartFrame(t: Tables, carts: seq<Cart>, next: nat)
    requires TablesOk(t) && CartsOk(carts, |t.variants|) && ConversionsMatch(carts, t.orders)
    requires CartsPersist(t.carts, carts) && ItemIdsOk(carts, next)
    ensures TablesOk(t.(carts := carts, nextCartItem := next)) && Persists(t, t.(carts := carts, nextCartItem := next))
  {
    hide StatusesOk, MoneyOk, StockOk, ConversionsMatch, CartsOk, ItemIdsOk, ItemsGoToTheirVendors, VendorsOk;
    PersistsReflexive(t);
  }

  lemma StatusFrame(t: Tables, orders: seq<MasterOrder>, vendorOrders: seq<VendorOrder>)
    requires TablesOk(t) && StatusesOk(orders, vendorOrders) && OrdersPersist(t.orders, orders)
    requires MoneyOk(orders, vendorOrders, t.items) && ConversionsMatch(t.carts, orders)
    requires |vendorOrders| == |t.vendorOrders| && VendorOrdersPersist(t.vendorOrders, vendorOrders)
    ensures TablesOk(t.(orders := orders, vendorOrders := vendorOrders))
    ensures Persists(t, t.(orders := orders, vendorOrders := vendorOrders))
  {
    hide StatusesOk, MoneyOk, StockOk, ConversionsMatch, CartsOk, ItemIdsOk, VendorsOk, Trading;
    forall i | 0 <= i < |t.items| ensures GoesToItsVendor(t.products, t.variants, vendorOrders, t.items[i]) {
      assert GoesToItsVendor(t.products, t.variants, t.vendorOrders, t.items[i]);
    }
    PersistsReflexive(t);
  }

  lemma VendorWriteKeeps(t: Tables, a: Write)
    requires TablesOk(t) && Admitted(a)
    requires a.CreateVendor? || a.WriteVerification? || a.WriteActivation?
    ensures TablesOk(Effect(t, a)) && Persists(t, Effect(t, a))
  {
    hide StatusesOk, MoneyOk, StockOk, ConversionsMatch, CartsOk, ItemIdsOk, ItemsGoToTheirVendors;
    var vendors := Effect(t, a).vendors;
    assert VendorsOk(vendors) && VendorsPersist(t.vendors, vendors) by {
      if a.WriteVerification? {
        VerificationCommitKeeps(t, a.vendor, a.was, a.target);
      } else if a.WriteActivation? {
        ActivationCommitKeeps(t, a.vendor);
      }
    }
    VendorFrame(t, vendors);
    assert Effect(t, a) == t.(vendors := vendors);
  }

  lemma ProductWriteKeeps(t: Tables, a: Write)
    requires TablesOk(t)
    requires a.CreateProduct? || a.WriteProductStatus?
    ensures TablesOk(Effect(t, a)) && Persists(t, Effect(t, a))
  {
    hide StatusesOk, MoneyOk, StockOk, ConversionsMatch, CartsOk, ItemIdsOk, ItemsGoToTheirVendors;
    var products := Effect(t, a).products;
    CatalogFrame(t, products, t.variants, t.inventories);
    assert Effect(t, a) == t.(products := products, variants := t.variants, inventories := t.inventories);
  }

  lemma {:induction false} CreateVariantKeeps(t: Tables, product: nat, price: int, currency: string, first: bool)
    requires TablesOk(t)
    ensures var u := CommitVariantSpec(t, product, price, currency, first).0; TablesOk(u) && Persists(t, u)
  {
    hide StockOk, MoneyOk, StatusesOk, ConversionsMatch, CartsOk, OrdersGoToTradingVendors;
    hide ItemIdsOk, ItemsGoToTheirVendors;
    var u := CommitVariantSpec(t, product, price, currency, first).0;
    NewVariantKeepsStock(t, product, price, currency, first);
    CatalogFrame(t, t.products, u.variants, u.inventories);
    assert u == t.(products := t.products, variants := u.variants, inventories := u.inventories);
  }

  lemma WriteVariantKeeps(t: Tables, a: Write)
    requires TablesOk(t) && a.WriteVariant?
    ensures TablesOk(Effect(t, a)) && Persists(t, Effect(t, a))
  {
    hide StatusesOk, MoneyOk, StockOk, ConversionsMatch, CartsOk, ItemIdsOk, ItemsGoToTheirVendors;
    var variants := Effect(t, a).variants;
    CatalogFrame(t, t.products, variants, t.inventories);
    assert Effect(t, a) == t.(products := t.products, variants := variants, inventories := t.inventories);
  }

  lemma StockWriteKeeps(t: Tables, a: Write)
    requires TablesOk(t) && Admitted(a)
    requires a.WriteRestock? || a.WriteAdjust?
    ensures TablesOk(Effect(t, a)) && Persists(t, Effect(t, a))
  {
    hide StatusesOk, MoneyOk, ConversionsMatch, StockOk, CartsOk, VendorsOk, CatalogOk, OrdersGoToTradingVendors;
    hide ItemIdsOk, ItemsGoToTheirVendors;
    var u := Effect(t, a);
    if a.WriteRestock? {
      RestockKeepsStock(t, a.variant, a.quantity);
    } else {
      AdjustKeepsStock(t, a.variant, a.delta);
    }
    StockFrame(t, u.inventories, u.movements);
    assert u == t.(inventories := u.inventories, movements := u.movements);
  }

  lemma CartWriteKeeps(t: Tables, a: Write)
    requires TablesOk(t) && Admitted(a)
    requires a.WriteAddItem? || a.WriteQuantity? || a.WriteRemove? || a.WriteClear?
    ensures TablesOk(Effect(t, a)) && Persists(t, Effect(t, a))
  {
    hide StatusesOk, MoneyOk, ConversionsMatch, StockOk, CartsOk, VendorsOk, CatalogOk, OrdersGoToTradingVendors;
    hide ItemIdsOk, ItemsGoToTheirVendors;
    var u := Effect(t, a);
    match a {
      case WriteAddItem(user, v, price, currency, q) =>
        AddKeepsCarts(t, user, v, price, currency, q);
        AddKeepsItemIds(t, user, v, price, currency, q);
      case WriteQuantity(i, q) => QuantityKeepsCarts(t, i, q); RowWritesKeepItemIds(t, i, q, 0);
      case WriteRemove(i) => RemoveKeepsCarts(t, i); RowWritesKeepItemIds(t, i, 0, 0);
      case WriteClear(c) => ClearKeepsCarts(t, c); RowWritesKeepItemIds(t, 0, 0, c);
    }
    CartFrame(t, u.carts, u.nextCartItem);
    assert u == t.(carts := u.carts, nextCartItem := u.nextCartItem);
  }

  lemma StatusWriteKeeps(t: Tables, a: Write)
    requires TablesOk(t) && Admitted(a) && a.WriteStatus?
    ensures TablesOk(Effect(t, a)) && Persists(t, Effect(t, a))
  {
    hide StatusesOk, MoneyOk, ConversionsMatch, OrdersPersist, StockOk, CartsOk, VendorsOk, CatalogOk;
    var u := Effect(t, a);
    StatusCommitKeeps(t, a.vendorOrder, a.from, a.to, a.actor);
    StatusCommitPersists(t, a.vendorOrder, a.from, a.to, a.actor);
    StatusCommitKeepsMoney(t, a.vendorOrder, a.from, a.to, a.actor);
    StatusCommitKeepsConversions(t, a.vendorOrder, a.from, a.to, a.actor);
    StatusFrame(t, u.orders, u.vendorOrders);
    assert u == t.(orders := u.orders, vendorOrders := u.vendorOrders);
  }

  lemma WriteKeeps(t: Tables, a: Write)
    requires TablesOk(t) && Admitted(a)
    ensures TablesOk(Effect(t, a)) && Persists(t, Effect(t, a))
  {
    match a
    case CreateVendor(_) => VendorWriteKeeps(t, a);
    case WriteVerification(_, _, _) => VendorWriteKeeps(t, a);
    case WriteActivation(_) => VendorWriteKeeps(t, a);
    case CreateProduct(_) => ProductWriteKeeps(t, a);
    case WriteProductStatus(_, _) => ProductWriteKeeps(t, a);
    case CreateVariant(p, price, currency, first) => CreateVariantKeeps(t, p, price, currency, first);
    case WriteVariant(_, _, _, _) => WriteVariantKeeps(t, a);
    case WriteRestock(_, _) => StockWriteKeeps(t, a);
    case WriteAdjust(_, _) => StockWriteKeeps(t, a);
    case WriteAddItem(_, _, _, _, _) => CartWriteKeeps(t, a);
    case WriteQuantity(_, _) => CartWriteKeeps(t, a);
    case WriteRemove(_) => CartWriteKeeps(t, a);
    case WriteClear(_) => CartWriteKeeps(t, a);
    case WriteStatus(_, _, _, _) => StatusWriteKeeps(t, a);
  }

  lemma LoadedLineOk(t: Tables, item: CartItem, currency: string)
    requires TablesOk(t) && item.quantity >= 1 && LoadLine(t, item, currency).Ok?
    ensures var l := LoadLine(t, item, currency).value;
            LineOk(t, l) && l.currency == currency && l.variant == item.variant && l.quantity == item.quantity
  {
  }

  lemma {:induction false} LoadedLinesOk(t: Tables, items: seq<CartItem>, currency: string)
    requires TablesOk(t) && LoadLines(t, items, currency).Ok?
    requires forall i :: 0 <= i < |items| ==> items[i].quantity >= 1
    ensures var lines := LoadLines(t, items, currency).value;
            && |lines| == |items|
            && (forall i :: 0 <= i < |lines| ==>
                  && LineOk(t, lines[i]) && lines[i].currency == currency
                  && lines[i].variant == items[i].variant && lines[i].quantity == items[i].quantity)
  {
    hide TablesOk, LoadLine, LineOk;
    if items != [] {
      LoadedLinesOk(t, items[..|items| - 1], currency);
      LoadedLineOk(t, items[|items| - 1], currency);
    }
  }

  lemma LoadedRequestOk(t: Tables, user: nat)
    requires TablesOk(t) && LoadSpec(t, user).Ok?
    ensures RequestOk(t, LoadSpec(t, user).value)
  {
    var c := FindActive(t.carts, user).value;
    assert ItemsOk(t.carts[c].items, |t.variants|);
    LoadedLinesOk(t, t.carts[c].items, t.carts[c].currency);
  }

  lemma PlacedOrdersTrade(vendors: seq<Vendor>, lines: seq<Line>, master: nat, user: nat)
    requires forall i :: 0 <= i < |lines| ==> Trading(vendors, lines[i].vendor)
    ensures forall k :: 0 <= k < |PlacedOrders(Groups(lines), master, user)| ==>
              Trading(vendors, PlacedOrders(Groups(lines), master, user)[k].vendor)
  {
    hide Groups, Trading;
    GroupsComeFromLines(lines);
  }

  lemma CommitTradesWithActiveVendors(t: Tables, r: Request, collision: Option<nat>)
    requires OrdersGoToTradingVendors(t) && RequestOk(t, r)
    ensures OrdersGoToTradingVendors(CommitSpec(t, r, collision).0)
  {
    hide Groups, PlacedItems, PlacedOrders, ReservationRows, Reserve, Trading;
    assert forall i :: 0 <= i < |r.lines| ==> LineOk(t, r.lines[i]);
    PlacedOrdersTrade(t.vendors, r.lines, |t.orders|, r.user);
  }

  lemma CommitKeepsItemIds(t: Tables, r: Request, collision: Option<nat>)
    requires ItemIdsOk(t.carts, t.nextCartItem)
    ensures ItemIdsOk(CommitSpec(t, r, collision).0.carts, t.nextCartItem)
  {
    hide Groups, PlacedItems, PlacedOrders, ReservationRows, Reserve;
  }

  lemma PlacedItemsGoToTheirVendors(t: Tables, r: Request)
    requires RequestOk(t, r)
    ensures var vendorOrders := t.vendorOrders + PlacedOrders(Groups(r.lines), |t.orders|, r.user);
            forall i :: 0 <= i < |PlacedItems(Groups(r.lines), |t.vendorOrders|)| ==>
              GoesToItsVendor(t.products, t.variants, vendorOrders,
                              PlacedItems(Groups(r.lines), |t.vendorOrders|)[i])
  {
    hide Groups, PlacedItems, PlacedOrders, Trading, IsPlaced, IsPlacedIn, DistinctVariants;
    var groups, first := Groups(r.lines), |t.vendorOrders|;
    var placed, vendorOrders := PlacedItems(groups, first), t.vendorOrders + PlacedOrders(groups, |t.orders|, r.user);
    PlacedItemsRows(groups, first);
    GroupsComeFromLines(r.lines);
    forall i | 0 <= i < |placed| ensures GoesToItsVendor(t.products, t.variants, vendorOrders, placed[i]) {
      var k, l := PlacedFrom(placed[i], groups, first);
      var j :| 0 <= j < |r.lines| && r.lines[j] == l;
      assert LineOk(t, r.lines[j]);
      PlacedOrderOfGroup(t.vendorOrders, groups, |t.orders|, r.user, k);
    }
  }

  lemma PlacedOrderOfGroup(before: seq<VendorOrder>, groups: seq<VendorGroup>, master: nat, user: nat, k: nat)
    requires k < |groups|
    ensures |before + PlacedOrders(groups, master, user)| == |before| + |groups|
    ensures (before + PlacedOrders(groups, master, user))[|before| + k].vendor == groups[k].vendor
  {
  }

  /** The group and the line that a placed item comes from. */
  lemma PlacedFrom(item: OrderItem, groups: seq<VendorGroup>, first: nat) returns (k: nat, l: Line)
    requires IsPlaced(item, groups, first)
    ensures k < |groups| && l in groups[k].lines && item == PlacedItem(l, first + k)
  {
    k :| 0 <= k < |groups| && IsPlacedIn(item, groups[k], first + k);
    l :| l in groups[k].lines && item == PlacedItem(l, first + k);
  }

  lemma CommitGivesVendorsTheirItems(t: Tables, r: Request, collision: Option<nat>)
    requires ItemsGoToTheirVendors(t.products, t.variants, t.vendorOrders, t.items) && RequestOk(t, r)
    ensures var u := CommitSpec(t, r, collision).0;
            ItemsGoToTheirVendors(t.products, t.variants, u.vendorOrders, u.items)
  {
    hide Groups, PlacedItems, PlacedOrders, ReservationRows, Reserve;
    var u := CommitSpec(t, r, collision).0;
    if CommitSpec(t, r, collision).1 == Done {
      var placed := PlacedItems(Groups(r.lines), |t.vendorOrders|);
      PlacedItemsGoToTheirVendors(t, r);
      forall i | 0 <= i < |u.items| ensures GoesToItsVendor(t.products, t.variants, u.vendorOrders, u.items[i]) {
        if i < |t.items| {
          assert GoesToItsVendor(t.products, t.variants, t.vendorOrders, t.items[i]);
        } else {
          assert u.items[i] == placed[i - |t.items|];
        }
      }
    }
  }

  lemma CheckoutFrame(t: Tables, u: Tables)
    requires TablesOk(t)
    requires u == t.(carts := u.carts, inventories := u.inventories, orders := u.orders,
                     vendorOrders := u.vendorOrders, items := u.items, movements := u.movements)
    requires StockOk(u.inventories, u.movements, u.items) && u.inventories.Keys == t.inventories.Keys
    requires StatusesOk(u.orders, u.vendorOrders) && MoneyOk(u.orders, u.vendorOrders, u.items)
    requires CartsOk(u.carts, |t.variants|) && ConversionsMatch(u.carts, u.orders) && OrdersGoToTradingVendors(u)
    requires ItemsGoToTheirVendors(t.products, t.variants, u.vendorOrders, u.items)
    requires ItemIdsOk(u.carts, t.nextCartItem)
    ensures TablesOk(u)
  {
    hide StatusesOk, MoneyOk, StockOk, ConversionsMatch, CartsOk, ItemIdsOk, ItemsGoToTheirVendors, VendorsOk;
    assert forall v: nat :: v in u.inventories <==> v in t.inventories;
  }

  lemma RequestedQuantitiesPositive(t: Tables, r: Request)
    requires RequestOk(t, r)
    ensures PositiveQuantities(r.lines)
  {
    forall i | 0 <= i < |r.lines| ensures r.lines[i].quantity >= 1 {
      assert LineOk(t, r.lines[i]);
    }
  }

  lemma CommitKeeps(t: Tables, r: Request, collision: Option<nat>)
    requires TablesOk(t) && RequestOk(t, r)
    ensures TablesOk(CommitSpec(t, r, collision).0) && Persists(t, CommitSpec(t, r, collision).0)
  {
    var u := CommitSpec(t, r, collision).0;
    assert u == t.(carts := u.carts, inventories := u.inventories, orders := u.orders,
                   vendorOrders := u.vendorOrders, items := u.items, movements := u.movements);
    RequestedQuantitiesPositive(t, r);
    CommitKeepsStock(t, r, collision);
    CommitKeepsStatuses(t, r, collision);
    CommitKeepsMoney(t, r, collision);
    CommitKeepsCarts(t, r, collision);
    CommitTradesWithActiveVendors(t, r, collision);
    CommitGivesVendorsTheirItems(t, r, collision);
    CommitKeepsItemIds(t, r, collision);
    CheckoutFrame(t, u);
    CommitPersists(t, r, collision);
  }

  lemma CommitPersists(t: Tables, r: Request, collision: Option<nat>)
    ensures Persists(t, CommitSpec(t, r, collision).0)
  {
  }

  lemma StepKeepsTables(w: World, s: Step)
    requires Inv(w) && Allowed(w, s)
    ensures TablesOk(Next(w, s).t) && Persists(w.t, Next(w, s).t)
  {
    match s
    case Do(a) => WriteKeeps(w.t, a);
    case BeginCheckout(u) =>
    case CommitCheckout(r, collision) => CommitKeeps(w.t, r, collision);
  }

  lemma StepKeepsInv(w: World, s: Step)
    requires Inv(w) && Allowed(w, s)
    ensures Inv(Next(w, s)) && Persists(w.t, Next(w, s).t)
  {
    StepKeepsTables(w, s);
    forall r | r in Next(w, s).inflight ensures RequestOk(Next(w, s).t, r) {
      if r in w.inflight {
        RequestsSurvive(w.t, Next(w, s).t, r);
      } else {
        LoadedRequestOk(w.t, s.user);
      }
    }
  }

  // ------------------------------------------------------------------------------------------
  // Every run

  /** Main theorem: the whole invariant holds after every run, and what was committed stays. */
  lemma {:induction false} RunKeepsInv(w: World, steps: seq<Step>)
    requires Inv(w) && AllowedRun(w, steps)
    ensures Inv(Run(w, steps)) && Persists(w.t, Run(w, steps).t)
    decreases |steps|
  {
    if steps != [] {
      StepKeepsInv(w, steps[0]);
      RunKeepsInv(Next(w, steps[0]), steps[1..]);
      PersistsTransitive(w.t, Next(w, steps[0]).t, Run(w, steps).t);
    }
  }

  lemma InitialInv()
    ensures Inv(INITIAL)
  {
    hide StatusesOk, MoneyOk, StockOk, ConversionsMatch, CartsOk, OrdersGoToTradingVendors;
    EmptyStockOk();
    EmptyOrdersOk();
    EmptyMoneyOk();
    EmptyCartsOk();
  }

  lemma EmptyStockOk()
    ensures StockOk(map[], [], [])
  {
  }

  lemma EmptyOrdersOk()
    ensures StatusesOk([], []) && OrdersGoToTradingVendors(EMPTY)
  {
  }

  lemma EmptyMoneyOk()
    ensures MoneyOk([], [], [])
  {
  }

  lemma EmptyCartsOk()
    ensures CartsOk([], 0) && ConversionsMatch([], [])
  {
  }

  // ------------------------------------------------------------------------------------------
  // What the invariant means for a reader

  /** The master status is the function of its children, with short linked histories. */
  ghost predicate StatusesAreDerived(t: Tables) {
    forall m :: 0 <= m < |t.orders| ==>
      && t.orders[m].status == DeriveMasterOrderStatus(ChildStatuses(t.vendorOrders, m))
      && MasterHistoryOk(t.orders[m]) && |t.orders[m].history| <= 5
  }

  /** The inventory rows are the totals of the ledger and of all order items, within bounds. */
  ghost predicate StockReconciles(t: Tables) {
    && (forall v: nat :: v < |t.variants| ==>
          && v in t.inventories
          && t.inventories[v].onHand == Sum(t.movements, StockOf(v))
          && t.inventories[v].reserved == Sum(t.movements, ReservedOf(v)) == Sum(t.items, OrderedOf(v))
          && 0 <= t.inventories[v].reserved <= t.inventories[v].onHand)
    && ReservationsNameItems(t.movements, t.items)
  }

  /** One active cart per user, one row per variant, unique item ids, and one order per converted cart. */
  ghost predicate CartsAreInOrder(t: Tables) {
    && OneActivePerUser(t.carts)
    && (forall c :: 0 <= c < |t.carts| ==> ItemsOk(t.carts[c].items, |t.variants|))
    && ItemIdsOk(t.carts, t.nextCartItem)
    && (forall u: nat :: Sum(t.carts, ConvertedOf(u)) == Sum(t.orders, PlacedBy(u)))
  }

  lemma StatusesSpelledOut(t: Tables)
    requires StatusesOk(t.orders, t.vendorOrders)
    ensures StatusesAreDerived(t)
  {
    hide DeriveMasterOrderStatus, ChildStatuses;
    forall m | 0 <= m < |t.orders| ensures |t.orders[m].history| <= 5 {
      MasterHistoryStages(t.orders[m], |t.orders[m].history| - 1);
    }
  }

  lemma StockSpelledOut(t: Tables)
    requires StockOk(t.inventories, t.movements, t.items) && CatalogOk(t)
    ensures StockReconciles(t)
  {
    hide ReservationsNameItems;
  }

  /**
   * In every state a run from the empty shop can reach, the tables agree with each other; vendor orders belong to
   * vendors that are ACTIVE and VERIFIED and sell the items below; and money adds up.
   */
  lemma EveryReachableState(steps: seq<Step>)
    requires AllowedRun(INITIAL, steps)
    ensures var t := Run(INITIAL, steps).t;
            && StatusesAreDerived(t) && StockReconciles(t) && CartsAreInOrder(t)
            && OrdersGoToTradingVendors(t)
            && ItemsGoToTheirVendors(t.products, t.variants, t.vendorOrders, t.items)
            && MoneyOk(t.orders, t.vendorOrders, t.items)
  {
    InitialInv();
    RunKeepsInv(INITIAL, steps);
    hide StatusesOk, StockOk, MoneyOk, ItemIdsOk, ItemsGoToTheirVendors, OrdersGoToTradingVendors, CatalogOk;
    hide StatusesAreDerived, StockReconciles, VendorsOk, ItemsOk, OneActivePerUser, RequestOk;
    StatusesSpelledOut(Run(INITIAL, steps).t);
    StockSpelledOut(Run(INITIAL, steps).t);
  }

  lemma MoneyAddsUp(w: World)
    requires Inv(w)
    ensures MoneyOk(w.t.orders, w.t.vendorOrders, w.t.items)
  {
    hide StatusesOk, StockOk, CartsOk, ConversionsMatch, VendorsOk, CatalogOk, RequestOk, ItemIdsOk, MoneyOk;
  }

  /** Between two points of a history chain the status has not moved, or has moved up. */
  lemma {:induction false} ChainMovesUp(o: MasterOrder, i: nat, j: nat)
    requires MasterHistoryOk(o) && i <= j < |o.history|
    ensures i == j || MovesUp(o.history[i].to, o.history[j].to)
  {
    if i < j {
      ChainMovesUp(o, i, j - 1);
    }
  }

  lemma LongerHistoryIsHigher(before: MasterOrder, after: MasterOrder)
    requires MasterHistoryOk(before) && MasterHistoryOk(after) && before.history <= after.history
    ensures before.status == after.status || MovesUp(before.status, after.status)
  {
    ChainMovesUp(after, |before.history| - 1, |after.history| - 1);
  }

  /** Along every run each master order's status only moves up. */
  lemma MasterStatusOnlyMovesUp(w: World, steps: seq<Step>, m: nat)
    requires Inv(w) && AllowedRun(w, steps) && m < |w.t.orders|
    ensures m < |Run(w, steps).t.orders|
    ensures var a, b := w.t.orders[m].status, Run(w, steps).t.orders[m].status; a == b || MovesUp(a, b)
  {
    RunKeepsInv(w, steps);
    LongerHistoryIsHigher(w.t.orders[m], Run(w, steps).t.orders[m]);
  }

  /** A vendor that received an order keeps being ACTIVE and VERIFIED. */
  lemma VendorsOfOrdersStayTrading(w: World, steps: seq<Step>, vendor: nat)
    requires Inv(w) && AllowedRun(w, steps) && Trading(w.t.vendors, vendor)
    ensures Trading(Run(w, steps).t.vendors, vendor)
  {
    RunKeepsInv(w, steps);
  }

  /** Two checkouts of one cart: once either commits, no later commit for that cart does, after any run. */
  lemma OneCheckoutPerCart(w: World, r: Request, c: Option<nat>, steps: seq<Step>, r': Request, c': Option<nat>)
    requires Inv(w) && Allowed(w, CommitCheckout(r, c)) && CommitSpec(w.t, r, c).1 == Done
    requires AllowedRun(Next(w, CommitCheckout(r, c)), steps)
    requires r'.cart == r.cart
    ensures var later := Run(Next(w, CommitCheckout(r, c)), steps);
            CommitSpec(later.t, r', c') == (later.t, Failed(CartNoLongerActive))
  {
    var after := Next(w, CommitCheckout(r, c));
    StepKeepsInv(w, CommitCheckout(r, c));
    RunKeepsInv(after, steps);
    assert after.t.carts[r.cart].status == CartConverted;
  }

  /** A checkout that fails for any reason, after whatever partial writes, leaves no trace; one that succeeds fits. */
  lemma CheckoutAllOrNothing(t: Tables, r: Request, collision: Option<nat>)
    requires PositiveQuantities(r.lines)
    ensures CommitSpec(t, r, collision).1 != Done ==> CommitSpec(t, r, collision).0 == t
    ensures CommitSpec(t, r, collision).1 == Done <==>
              && r.cart < |t.carts| && t.carts[r.cart].status == CartActive
              && Fits(t.inventories, r.lines)
              && !(collision.Some? && collision.value <= |Groups(r.lines)|)
    ensures CommitSpec(t, r, collision).1 == Failed(CartNoLongerActive) <==>
              r.cart >= |t.carts| || t.carts[r.cart].status != CartActive
    ensures CommitSpec(t, r, collision).1 == Failed(InsufficientStock) <==>
              r.cart < |t.carts| && t.carts[r.cart].status == CartActive && !Fits(t.inventories, r.lines)
    ensures CommitSpec(t, r, collision).1 in
              {Done, Failed(CartNoLongerActive), Failed(InsufficientStock), Failed(OrderNumberCollision)}
    ensures CommitSpec(t, r, collision).1 == Done ==>
              CommitSpec(t, r, collision).0.inventories == WithRequested(t.inventories, r.lines)
  {
    ReserveIffFits(t.inventories, r.lines);
  }

  /** With nothing in between its reads and its transaction, a validated checkout always finds its stock. */
  lemma {:induction false} UndisturbedCheckoutSucceeds(t: Tables, user: nat)
    requires TablesOk(t) && LoadSpec(t, user).Ok?
    ensures CheckoutSpec(t, user, None).1 == Done
  {
    var r := LoadSpec(t, user).value;
    var items := t.carts[r.cart].items;
    assert ItemsOk(items, |t.variants|);
    LoadSucceedsIff(t, items, t.carts[r.cart].currency);
    LoadedRequestOk(t, user);
    RequestedQuantitiesPositive(t, r);
    forall i | 0 <= i < |r.lines|
      ensures r.lines[i].variant in t.inventories &&
              Sum(r.lines, RequestedOf(r.lines[i].variant)) <=
              t.inventories[r.lines[i].variant].onHand - t.inventories[r.lines[i].variant].reserved
    {
      assert Loadable(t, items[i], t.carts[r.cart].currency);
      DistinctVariantsRequestTheirOwn(r.lines, i);
    }
    ReserveIffFits(t.inventories, r.lines);
  }

  // ------------------------------------------------------------------------------------------
  // The order holds what the cart held

  /** How many units of a variant the order items appended to a table hold. */
  function OrderedSince(before: seq<OrderItem>, after: seq<OrderItem>, v: nat): int
    requires |before| <= |after|
  {
    Sum(after[|before|..], OrderedOf(v))
  }

  lemma CommitOrdersTheLines(t: Tables, r: Request, collision: Option<nat>, v: nat)
    requires CommitSpec(t, r, collision).1 == Done
    ensures |t.items| <= |CommitSpec(t, r, collision).0.items|
    ensures OrderedSince(t.items, CommitSpec(t, r, collision).0.items, v) == Sum(r.lines, RequestedOf(v))
  {
    hide Groups, PlacedItems, PlacedOrders, Reserve;
    var placed := PlacedItems(Groups(r.lines), |t.vendorOrders|);
    assert (t.items + placed)[|t.items|..] == placed;
    OrderedIsRequested(r.lines, |t.vendorOrders|, v);
  }

  /** Every cart row has a line for its variant with its quantity, and the other way round. */
  ghost predicate RowsAgree(items: seq<CartItem>, lines: seq<Line>) {
    && (forall i :: 0 <= i < |items| ==> HasLine(lines, items[i].variant, items[i].quantity))
    && (forall j :: 0 <= j < |lines| ==> HasRow(items, lines[j].variant, lines[j].quantity))
  }

  ghost predicate HasLine(lines: seq<Line>, variant: nat, quantity: int) {
    exists j :: 0 <= j < |lines| && lines[j].variant == variant && lines[j].quantity == quantity
  }

  ghost predicate HasRow(items: seq<CartItem>, variant: nat, quantity: int) {
    exists i :: 0 <= i < |items| && items[i].variant == variant && items[i].quantity == quantity
  }

  /** With one row and one line per variant, a variant's total is a positive q exactly when some row says so. */
  lemma UnitsSayRows(items: seq<CartItem>, variantCount: nat, v: nat, q: int)
    requires ItemsOk(items, variantCount) && q >= 1
    ensures Sum(items, UnitsOf(v)) == q <==> HasRow(items, v, q)
    ensures Sum(items, UnitsOf(v)) >= 0
  {
    if i :| 0 <= i < |items| && items[i].variant == v {
      UnitsAreTheRow(items, variantCount, i);
    } else {
      SumZero(items, UnitsOf(v));
    }
  }

  lemma RequestsSayLines(lines: seq<Line>, v: nat, q: int)
    requires DistinctVariants(lines) && PositiveQuantities(lines) && q >= 1
    ensures Sum(lines, RequestedOf(v)) == q <==> HasLine(lines, v, q)
    ensures Sum(lines, RequestedOf(v)) >= 0
  {
    if j :| 0 <= j < |lines| && lines[j].variant == v {
      DistinctVariantsRequestTheirOwn(lines, j);
    } else {
      SumZero(lines, RequestedOf(v));
    }
  }

  ghost predicate TotalsAgree(items: seq<CartItem>, lines: seq<Line>) {
    forall v: nat :: Sum(items, UnitsOf(v)) == Sum(lines, RequestedOf(v))
  }

  lemma TotalsAgreeIff(items: seq<CartItem>, variantCount: nat, lines: seq<Line>)
    requires ItemsOk(items, variantCount) && DistinctVariants(lines) && PositiveQuantities(lines)
    ensures TotalsAgree(items, lines) <==> RowsAgree(items, lines)
  {
    hide Sum, RequestedOf, UnitsOf, DistinctVariants, HasRow, HasLine;
    if TotalsAgree(items, lines) {
      forall i | 0 <= i < |items| ensures HasLine(lines, items[i].variant, items[i].quantity) {
        RowIsARow(items, i);
        UnitsSayRows(items, variantCount, items[i].variant, items[i].quantity);
        RequestsSayLines(lines, items[i].variant, items[i].quantity);
      }
      forall j | 0 <= j < |lines| ensures HasRow(items, lines[j].variant, lines[j].quantity) {
        LineIsALine(lines, j);
        UnitsSayRows(items, variantCount, lines[j].variant, lines[j].quantity);
        RequestsSayLines(lines, lines[j].variant, lines[j].quantity);
      }
    }
    if RowsAgree(items, lines) {
      forall v: nat ensures Sum(items, UnitsOf(v)) == Sum(lines, RequestedOf(v)) {
        RowsAgreeOn(items, variantCount, lines, v);
      }
    }
  }

  lemma RowIsARow(items: seq<CartItem>, i: nat)
    requires i < |items|
    ensures HasRow(items, items[i].variant, items[i].quantity)
  {
  }

  lemma LineIsALine(lines: seq<Line>, j: nat)
    requires j < |lines|
    ensures HasLine(lines, lines[j].variant, lines[j].quantity)
  {
  }

  lemma RowsAgreeOn(items: seq<CartItem>, variantCount: nat, lines: seq<Line>, v: nat)
    requires ItemsOk(items, variantCount) && DistinctVariants(lines) && PositiveQuantities(lines)
    requires RowsAgree(items, lines)
    ensures Sum(items, UnitsOf(v)) == Sum(lines, RequestedOf(v))
  {
    hide Sum, RequestedOf, UnitsOf, DistinctVariants, ItemsOk, PositiveQuantities;
    var a, b := Sum(items, UnitsOf(v)), Sum(lines, RequestedOf(v));
    var q := if a >= 1 then a else if b >= 1 then b else 1;
    UnitsSayRows(items, variantCount, v, q);
    RequestsSayLines(lines, v, q);
  }

  /**
   * A committed checkout orders what the cart holds at that moment, variant by variant, exactly when the cart's rows
   * still agree with the lines that the checkout read.
   */
  lemma CheckoutOrdersTheCartIff(t: Tables, r: Request, collision: Option<nat>)
    requires TablesOk(t) && RequestOk(t, r) && CommitSpec(t, r, collision).1 == Done
    ensures |t.items| <= |CommitSpec(t, r, collision).0.items|
    ensures (forall v: nat ::
               OrderedSince(t.items, CommitSpec(t, r, collision).0.items, v) == Sum(t.carts[r.cart].items, UnitsOf(v)))
            <==> RowsAgree(t.carts[r.cart].items, r.lines)
  {
    var items := t.carts[r.cart].items;
    assert ItemsOk(items, |t.variants|);
    RequestedQuantitiesPositive(t, r);
    TotalsAgreeIff(items, |t.variants|, r.lines);
    hide TablesOk, RequestOk, CommitSpec, OrderedSince, Sum, RowsAgree;
    forall v: nat
      ensures |t.items| <= |CommitSpec(t, r, collision).0.items|
      ensures OrderedSince(t.items, CommitSpec(t, r, collision).0.items, v) == Sum(r.lines, RequestedOf(v))
    {
      CommitOrdersTheLines(t, r, collision, v);
    }
    CommitOrdersTheLines(t, r, collision, 0);
  }

  /** With nothing in between its reads and its transaction, a checkout orders exactly the cart. */
  lemma UndisturbedCheckoutOrdersTheCart(t: Tables, user: nat, v: nat)
    requires TablesOk(t) && LoadSpec(t, user).Ok?
    ensures var u := CheckoutSpec(t, user, None).0;
            var cart := LoadSpec(t, user).value.cart;
            && |t.items| <= |u.items| && cart < |t.carts|
            && OrderedSince(t.items, u.items, v) == Sum(t.carts[cart].items, UnitsOf(v))
            && u.carts[cart] == t.carts[cart].(status := CartConverted)
  {
    var r := LoadSpec(t, user).value;
    UndisturbedCheckoutSucceeds(t, user);
    LoadedRowsAgree(t, user);
    LoadedRequestOk(t, user);
    CheckoutOrdersTheCartIff(t, r, None);
    hide TablesOk, RequestOk, OrderedSince, Sum, RowsAgree, LoadSpec;
  }

  lemma LoadedRowsAgree(t: Tables, user: nat)
    requires TablesOk(t) && LoadSpec(t, user).Ok?
    ensures var r := LoadSpec(t, user).value;
            r.cart < |t.carts| && RowsAgree(t.carts[r.cart].items, r.lines)
  {
    var r := LoadSpec(t, user).value;
    var items := t.carts[r.cart].items;
    assert ItemsOk(items, |t.variants|);
    LoadedLinesOk(t, items, t.carts[r.cart].currency);
    assert |r.lines| == |items|;
    forall i | 0 <= i < |items|
      ensures HasLine(r.lines, items[i].variant, items[i].quantity)
      ensures HasRow(items, r.lines[i].variant, r.lines[i].quantity)
    {
      assert r.lines[i].variant == items[i].variant && r.lines[i].quantity == items[i].quantity;
    }
  }
}
