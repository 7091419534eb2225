/** Shopping carts: one active cart per user, one row per variant. */
module CartService {
  import opened Common
  import opened Store

  // ------------------------------------------------------------------------------------------
  // Queries

  /** `findFirst({ userId, status: ACTIVE })`. */
  function FindActive(carts: seq<Cart>, user: nat): (r: Option<nat>)
    ensures r.Some? ==> r.value < |carts| && carts[r.value].user == user && carts[r.value].status == CartActive
    ensures r.None? ==> forall c :: 0 <= c < |carts| ==> !(carts[c].user == user && carts[c].status == CartActive)
  {
    FindFirst(carts, (c: Cart) => c.user == user && c.status == CartActive)
  }

  /** The row of a variant in a cart, or the number of rows if there is none. */
  function RowOfVariant(items: seq<CartItem>, variant: nat): (r: nat)
    ensures r <= |items|
    ensures r < |items| ==> items[r].variant == variant
    ensures r == |items| ==> forall i :: 0 <= i < |items| ==> items[i].variant != variant
  {
    FirstIndex(items, (i: CartItem) => i.variant == variant)
  }

  function RowOfItem(items: seq<CartItem>, id: nat): (r: nat)
    ensures r <= |items|
    ensures r < |items| ==> items[r].id == id
  {
    FirstIndex(items, (i: CartItem) => i.id == id)
  }

  /** The cart that holds the item `id`, or the number of carts if there is none. */
  function CartOfItem(carts: seq<Cart>, id: nat): (r: nat)
    ensures r <= |carts|
    ensures r < |carts| ==> RowOfItem(carts[r].items, id) < |carts[r].items|
  {
    FirstIndex(carts, (c: Cart) => RowOfItem(c.items, id) < |c.items|)
  }

  predicate Purchasable(t: Tables, variant: nat) {
    && variant < |t.variants| && t.variants[variant].status == Listed
    && var product := t.variants[variant].product;
    && product < |t.products| && t.products[product].status == Listed
    && var vendor := t.products[product].vendor;
    && vendor < |t.vendors| && t.vendors[vendor].status == AccountActive
  }

  // ------------------------------------------------------------------------------------------
  // Writes, each one transaction

  /** `getOrCreateActiveCart`: the active cart's row, after creating one if there was none. */
  function WithActiveCart(carts: seq<Cart>, user: nat, currency: string): (r: (seq<Cart>, nat))
    ensures r.1 < |r.0| && r.0[r.1].user == user && r.0[r.1].status == CartActive
  {
    match FindActive(carts, user)
    case Some(i) => (carts, i)
    case None => (carts + [Cart(user, CartActive, currency, [])], |carts|)
  }

  /** The upsert on (cart, variant). */
  function Upsert(items: seq<CartItem>, id: nat, variant: nat, quantity: int, price: int, currency: string)
    : seq<CartItem>
  {
    var row := RowOfVariant(items, variant);
    if row < |items|
    then items[row := items[row].(quantity := items[row].quantity + quantity, price := price, currency := currency)]
    else items + [CartItem(id, variant, quantity, price, currency)]
  }

  /** The add transaction, given the variant's price and currency as an earlier read returned them. */
  function CommitAddSpec(t: Tables, user: nat, variant: nat, price: int, currency: string, quantity: int)
    : (Tables, Outcome)
  {
    if variant >= |t.variants| then (t, Failed(BadRequest))
    else
      var (carts, c) := WithActiveCart(t.carts, user, currency);
      var items := Upsert(carts[c].items, t.nextCartItem, variant, quantity, price, currency);
      (t.(carts := carts[c := carts[c].(items := items)], nextCartItem := t.nextCartItem + 1), Done)
  }

  function AddItemSpec(t: Tables, user: nat, variant: nat, quantity: int): (Tables, Outcome) {
    if !Purchasable(t, variant) then (t, Failed(BadRequest))
    else
      var v := t.variants[variant];
      match FindActive(t.carts, user)
      case Some(c) =>
        if t.carts[c].currency != v.currency then (t, Failed(Conflict))
        else CommitAddSpec(t, user, variant, v.price, v.currency, quantity)
      case None => CommitAddSpec(t, user, variant, v.price, v.currency, quantity)
  }

  /** `update` of one cart-item row by id; the row may belong to any cart by the time it is written. */
  function CommitQuantitySpec(t: Tables, item: nat, quantity: int): (Tables, Outcome) {
    var c := CartOfItem(t.carts, item);
    if c == |t.carts| then (t, Failed(NotFound))
    else
      var items := t.carts[c].items;
      var row := RowOfItem(items, item);
      (t.(carts := t.carts[c := t.carts[c].(items := items[row := items[row].(quantity := quantity)])]), Done)
  }

  function CommitRemoveSpec(t: Tables, item: nat): (Tables, Outcome) {
    var c := CartOfItem(t.carts, item);
    if c == |t.carts| then (t, Failed(NotFound))
    else
      var items := t.carts[c].items;
      var row := RowOfItem(items, item);
      (t.(carts := t.carts[c := t.carts[c].(items := items[..row] + items[row + 1..])]), Done)
  }

  function CommitClearSpec(t: Tables, cart: nat): (Tables, Outcome) {
    if cart >= |t.carts| then (t, Done)
    else (t.(carts := t.carts[cart := t.carts[cart].(items := [])]), Done)
  }

  /** `findOwnedActiveItem`: the caller may touch only items of their own active cart. */
  predicate OwnsActiveItem(t: Tables, user: nat, item: nat) {
    var c := CartOfItem(t.carts, item);
    c < |t.carts| && t.carts[c].user == user && t.carts[c].status == CartActive
  }

  function UpdateQuantitySpec(t: Tables, user: nat, item: nat, quantity: int): (Tables, Outcome) {
    if OwnsActiveItem(t, user, item) then CommitQuantitySpec(t, item, quantity) else (t, Failed(Forbidden))
  }

  function RemoveItemSpec(t: Tables, user: nat, item: nat): (Tables, Outcome) {
    if OwnsActiveItem(t, user, item) then CommitRemoveSpec(t, item) else (t, Failed(Forbidden))
  }

  function ClearCartSpec(t: Tables, user: nat): (Tables, Outcome) {
    match FindActive(t.carts, user)
    case Some(c) => CommitClearSpec(t, c)
    case None => (t, Done)
  }

  method AddItem(db: Database, user: nat, variant: nat, quantity: int) returns (r: Outcome)
    modifies db
    ensures (db.Now(), r) == AddItemSpec(old(db.Now()), user, variant, quantity)
  {
    if !Purchasable(db.Now(), variant) {
      return Failed(BadRequest);
    }
    var v := db.variants[variant];
    var existing := FindActive(db.carts, user);
    if existing.Some? && db.carts[existing.value].currency != v.currency {
      return Failed(Conflict);
    }
    var c := GetOrCreateActiveCart(db, user, v.currency);
    var items := db.carts[c].items;
    var row := RowOfVariant(items, variant);
    if row < |items| {
      items := items[row := items[row].(quantity := items[row].quantity + quantity,
                                        price := v.price, currency := v.currency)];
    } else {
      items := items + [CartItem(db.nextCartItem, variant, quantity, v.price, v.currency)];
    }
    db.carts := db.carts[c := db.carts[c].(items := items)];
    db.nextCartItem := db.nextCartItem + 1;
    r := Done;
  }

  method GetOrCreateActiveCart(db: Database, user: nat, currency: string) returns (c: nat)
    modifies db`carts
    ensures (db.carts, c) == WithActiveCart(old(db.carts), user, currency)
  {
    var existing := FindActive(db.carts, user);
    if existing.Some? {
      return existing.value;
    }
    c := |db.carts|;
    db.carts := db.carts + [Cart(user, CartActive, currency, [])];
  }

  method UpdateItemQuantity(db: Database, user: nat, item: nat, quantity: int) returns (r: Outcome)
    modifies db
    ensures (db.Now(), r) == UpdateQuantitySpec(old(db.Now()), user, item, quantity)
  {
    if !OwnsActiveItem(db.Now(), user, item) {
      return Failed(Forbidden);
    }
    var c := CartOfItem(db.carts, item);
    var items := db.carts[c].items;
    var row := RowOfItem(items, item);
    db.carts := db.carts[c := db.carts[c].(items := items[row := items[row].(quantity := quantity)])];
    r := Done;
  }

  method RemoveItem(db: Database, user: nat, item: nat) returns (r: Outcome)
    modifies db
    ensures (db.Now(), r) == RemoveItemSpec(old(db.Now()), user, item)
  {
    if !OwnsActiveItem(db.Now(), user, item) {
      return Failed(Forbidden);
    }
    var c := CartOfItem(db.carts, item);
    var items := db.carts[c].items;
    var row := RowOfItem(items, item);
    db.carts := db.carts[c := db.carts[c].(items := items[..row] + items[row + 1..])];
    r := Done;
  }

  method ClearCart(db: Database, user: nat) returns (r: Outcome)
    modifies db
    ensures (db.Now(), r) == ClearCartSpec(old(db.Now()), user)
  {
    var active := FindActive(db.carts, user);
    if active.Some? {
      db.carts := db.carts[active.value := db.carts[active.value].(items := [])];
    }
    r := Done;
  }

  // ------------------------------------------------------------------------------------------
  // What carts keep

  ghost predicate ItemsOk(items: seq<CartItem>, variantCount: nat) {
    && (forall i, j :: 0 <= i < j < |items| ==> items[i].variant != items[j].variant)
    && (forall i :: 0 <= i < |items| ==> items[i].quantity >= 1 && items[i].variant < variantCount)
  }

  ghost predicate OneActivePerUser(carts: seq<Cart>) {
    forall i, j :: 0 <= i < j < |carts| && carts[i].user == carts[j].user ==>
      carts[i].status != CartActive || carts[j].status != CartActive
  }

  ghost predicate CartsOk(carts: seq<Cart>, variantCount: nat) {
    && OneActivePerUser(carts)
    && (forall i :: 0 <= i < |carts| ==> ItemsOk(carts[i].items, variantCount))
  }

  predicate HasId(items: seq<CartItem>, id: nat) {
    exists i :: 0 <= i < |items| && items[i].id == id
  }

  ghost predicate RowIdsOk(items: seq<CartItem>, next: nat) {
    && (forall i :: 0 <= i < |items| ==> items[i].id < next)
    && (forall i, j :: 0 <= i < j < |items| ==> items[i].id != items[j].id)
  }

  ghost predicate NoSharedId(a: seq<CartItem>, b: seq<CartItem>) {
    forall id: nat :: !(HasId(a, id) && HasId(b, id))
  }

  /** Item ids have been issued, and no two rows of any carts share one. */
  ghost predicate ItemIdsOk(carts: seq<Cart>, next: nat) {
    && (forall c :: 0 <= c < |carts| ==> RowIdsOk(carts[c].items, next))
    && (forall c, d :: 0 <= c < d < |carts| ==> NoSharedId(carts[c].items, carts[d].items))
  }

  /** Replacing the rows of one cart by rows with its own ids, or with one not issued before, keeps ids unique. */
  lemma ReplaceItemsKeepsIds(carts: seq<Cart>, c: nat, items: seq<CartItem>, next: nat, after: nat)
    requires ItemIdsOk(carts, next) && c < |carts| && next <= after && RowIdsOk(items, after)
    requires forall id: nat :: HasId(items, id) ==> HasId(carts[c].items, id) || id >= next
    ensures ItemIdsOk(carts[c := carts[c].(items := items)], after)
  {
    var u := carts[c := carts[c].(items := items)];
    forall d | 0 <= d < |u| ensures RowIdsOk(u[d].items, after) {
      assert RowIdsOk(carts[d].items, next);
    }
    forall d, e | 0 <= d < e < |u| ensures NoSharedId(u[d].items, u[e].items) {
      IssuedIds(carts[d].items, next);
      IssuedIds(carts[e].items, next);
      assert NoSharedId(carts[d].items, carts[e].items);
      hide HasId, RowIdsOk;
    }
  }

  lemma IssuedIds(items: seq<CartItem>, next: nat)
    requires RowIdsOk(items, next)
    ensures forall id: nat :: HasId(items, id) ==> id < next
  {
  }

  lemma UpsertIds(items: seq<CartItem>, next: nat, variant: nat, quantity: int, price: int, currency: string)
    requires RowIdsOk(items, next)
    ensures var after := Upsert(items, next, variant, quantity, price, currency);
            RowIdsOk(after, next + 1) && forall id: nat :: HasId(after, id) ==> HasId(items, id) || id >= next
  {
  }

  lemma AddKeepsItemIds(t: Tables, user: nat, variant: nat, price: int, currency: string, quantity: int)
    requires ItemIdsOk(t.carts, t.nextCartItem)
    ensures var u := CommitAddSpec(t, user, variant, price, currency, quantity).0; ItemIdsOk(u.carts, u.nextCartItem)
  {
    if variant < |t.variants| {
      var (carts, c) := WithActiveCart(t.carts, user, currency);
      assert ItemIdsOk(carts, t.nextCartItem);
      assert RowIdsOk(carts[c].items, t.nextCartItem);
      hide WithActiveCart, Upsert, HasId, RowIdsOk, NoSharedId;
      UpsertIds(carts[c].items, t.nextCartItem, variant, quantity, price, currency);
      ReplaceItemsKeepsIds(carts, c, Upsert(carts[c].items, t.nextCartItem, variant, quantity, price, currency),
                           t.nextCartItem, t.nextCartItem + 1);
    }
  }

  lemma CartRowIds(carts: seq<Cart>, c: nat, next: nat)
    requires ItemIdsOk(carts, next) && c < |carts|
    ensures RowIdsOk(carts[c].items, next)
  {
  }

  lemma FewerRowIds(items: seq<CartItem>, row: nat, next: nat, quantity: int)
    requires RowIdsOk(items, next) && row < |items|
    ensures var updated, removed := items[row := items[row].(quantity := quantity)], items[..row] + items[row + 1..];
            && RowIdsOk(updated, next) && RowIdsOk(removed, next)
            && (forall id: nat :: HasId(updated, id) ==> HasId(items, id))
            && (forall id: nat :: HasId(removed, id) ==> HasId(items, id))
  {
    var updated, removed := items[row := items[row].(quantity := quantity)], items[..row] + items[row + 1..];
    forall id: nat | HasId(updated, id) ensures HasId(items, id) {
      var i :| 0 <= i < |updated| && updated[i].id == id;
      assert items[i].id == id;
    }
    forall id: nat | HasId(removed, id) ensures HasId(items, id) {
      var i :| 0 <= i < |removed| && removed[i].id == id;
      assert items[if i < row then i else i + 1].id == id;
    }
  }

  lemma RowWritesKeepItemIds(t: Tables, item: nat, quantity: int, cart: nat)
    requires ItemIdsOk(t.carts, t.nextCartItem)
    ensures ItemIdsOk(CommitQuantitySpec(t, item, quantity).0.carts, t.nextCartItem)
    ensures ItemIdsOk(CommitRemoveSpec(t, item).0.carts, t.nextCartItem)
    ensures ItemIdsOk(CommitClearSpec(t, cart).0.carts, t.nextCartItem)
  {
    var c := CartOfItem(t.carts, item);
    assert RowIdsOk([], t.nextCartItem) && forall id: nat :: !HasId([], id);
    hide HasId, RowIdsOk, NoSharedId, ItemIdsOk;
    if c < |t.carts| {
      var items := t.carts[c].items;
      var row := RowOfItem(items, item);
      CartRowIds(t.carts, c, t.nextCartItem);
      FewerRowIds(items, row, t.nextCartItem, quantity);
      ReplaceItemsKeepsIds(t.carts, c, items[row := items[row].(quantity := quantity)], t.nextCartItem, t.nextCartItem);
      ReplaceItemsKeepsIds(t.carts, c, items[..row] + items[row + 1..], t.nextCartItem, t.nextCartItem);
    }
    if cart < |t.carts| {
      ReplaceItemsKeepsIds(t.carts, cart, [], t.nextCartItem, t.nextCartItem);
    }
  }

  function ConvertedOf(user: nat): Cart -> int {
    (c: Cart) => if c.user == user && c.status == CartConverted then 1 else 0
  }

  function PlacedBy(user: nat): MasterOrder -> int {
    (o: MasterOrder) => if o.user == user then 1 else 0
  }

  /** Every converted cart became exactly one order of its user. */
  ghost predicate ConversionsMatch(carts: seq<Cart>, orders: seq<MasterOrder>) {
    forall u: nat :: Sum(carts, ConvertedOf(u)) == Sum(orders, PlacedBy(u))
  }

  /** Carts keep their owner; a converted cart stays converted. */
  ghost predicate CartsPersist(before: seq<Cart>, after: seq<Cart>) {
    && |before| <= |after|
    && (forall i :: 0 <= i < |before| ==>
          && before[i].user == after[i].user && before[i].currency == after[i].currency
          && (before[i].status == CartConverted ==> after[i].status == CartConverted))
  }

  /** Replacing the items of one cart, by any rows that are themselves fine, keeps every cart property. */
  lemma ReplaceItemsKeeps(carts: seq<Cart>, orders: seq<MasterOrder>, c: nat, items: seq<CartItem>, variantCount: nat)
    requires CartsOk(carts, variantCount) && ConversionsMatch(carts, orders)
    requires c < |carts| && ItemsOk(items, variantCount)
    ensures var after := carts[c := carts[c].(items := items)];
            CartsOk(after, variantCount) && ConversionsMatch(after, orders) && CartsPersist(carts, after)
  {
    forall u: nat
      ensures Sum(carts[c := carts[c].(items := items)], ConvertedOf(u)) == Sum(carts, ConvertedOf(u))
    {
      SumUpdate(carts, c, carts[c].(items := items), ConvertedOf(u));
    }
  }

  lemma WithActiveCartKeeps(carts: seq<Cart>, orders: seq<MasterOrder>, user: nat, currency: string,
                            variantCount: nat)
    requires CartsOk(carts, variantCount) && ConversionsMatch(carts, orders)
    ensures var after := WithActiveCart(carts, user, currency).0;
            CartsOk(after, variantCount) && ConversionsMatch(after, orders) && CartsPersist(carts, after)
  {
    if FindActive(carts, user).None? {
      var created := Cart(user, CartActive, currency, []);
      forall u: nat ensures Sum(carts + [created], ConvertedOf(u)) == Sum(carts, ConvertedOf(u)) {
        SumSnoc(carts, created, ConvertedOf(u));
      }
    }
  }

  lemma UpsertKeepsItems(items: seq<CartItem>, id: nat, variant: nat, quantity: int, price: int, currency: string,
                         variantCount: nat)
    requires ItemsOk(items, variantCount) && variant < variantCount && quantity >= 1
    ensures ItemsOk(Upsert(items, id, variant, quantity, price, currency), variantCount)
  {
  }

  lemma AddKeepsCarts(t: Tables, user: nat, variant: nat, price: int, currency: string, quantity: int)
    requires CartsOk(t.carts, |t.variants|) && ConversionsMatch(t.carts, t.orders) && quantity >= 1
    ensures var u := CommitAddSpec(t, user, variant, price, currency, quantity).0;
            CartsOk(u.carts, |t.variants|) && ConversionsMatch(u.carts, t.orders) && CartsPersist(t.carts, u.carts)
  {
    hide ConversionsMatch, OneActivePerUser, ItemsOk, WithActiveCart, Upsert;
    if variant < |t.variants| {
      var (carts, c) := WithActiveCart(t.carts, user, currency);
      WithActiveCartKeeps(t.carts, t.orders, user, currency, |t.variants|);
      assert ItemsOk(carts[c].items, |t.variants|);
      UpsertKeepsItems(carts[c].items, t.nextCartItem, variant, quantity, price, currency, |t.variants|);
      ReplaceItemsKeeps(carts, t.orders, c, Upsert(carts[c].items, t.nextCartItem, variant, quantity, price, currency),
                        |t.variants|);
    }
  }

  lemma QuantityKeepsCarts(t: Tables, item: nat, quantity: int)
    requires CartsOk(t.carts, |t.variants|) && ConversionsMatch(t.carts, t.orders) && quantity >= 1
    ensures var u := CommitQuantitySpec(t, item, quantity).0;
            CartsOk(u.carts, |t.variants|) && ConversionsMatch(u.carts, t.orders) && CartsPersist(t.carts, u.carts)
  {
    var c := CartOfItem(t.carts, item);
    if c < |t.carts| {
      var items := t.carts[c].items;
      var row := RowOfItem(items, item);
      ReplaceItemsKeeps(t.carts, t.orders, c, items[row := items[row].(quantity := quantity)], |t.variants|);
    }
  }

  lemma RemoveKeepsCarts(t: Tables, item: nat)
    requires CartsOk(t.carts, |t.variants|) && ConversionsMatch(t.carts, t.orders)
    ensures var u := CommitRemoveSpec(t, item).0;
            CartsOk(u.carts, |t.variants|) && ConversionsMatch(u.carts, t.orders) && CartsPersist(t.carts, u.carts)
  {
    var c := CartOfItem(t.carts, item);
    if c < |t.carts| {
      var items := t.carts[c].items;
      var row := RowOfItem(items, item);
      ReplaceItemsKeeps(t.carts, t.orders, c, items[..row] + items[row + 1..], |t.variants|);
    }
  }

  lemma ClearKeepsCarts(t: Tables, cart: nat)
    requires CartsOk(t.carts, |t.variants|) && ConversionsMatch(t.carts, t.orders)
    ensures var u := CommitClearSpec(t, cart).0;
            CartsOk(u.carts, |t.variants|) && ConversionsMatch(u.carts, t.orders) && CartsPersist(t.carts, u.carts)
  {
    if cart < |t.carts| {
      ReplaceItemsKeeps(t.carts, t.orders, cart, [], |t.variants|);
    }
  }

  // ------------------------------------------------------------------------------------------
  // When the calls accept, and what they leave

  /** Variant and product are listed, and the product's vendor is ACTIVE. */
  predicate OnSale(t: Tables, variant: nat) {
    && variant < |t.variants| && t.variants[variant].product < |t.products|
    && t.products[t.variants[variant].product].vendor < |t.vendors|
    && t.variants[variant].status == Listed && t.products[t.variants[variant].product].status == Listed
    && t.vendors[t.products[t.variants[variant].product].vendor].status == AccountActive
  }

  /** An item can be added exactly when it is on sale and the user's active cart, if any, is in its currency. */
  lemma AddItemIff(t: Tables, user: nat, variant: nat, quantity: int)
    ensures var (u, outcome) := AddItemSpec(t, user, variant, quantity);
            && (outcome == Done <==>
                  && OnSale(t, variant)
                  && forall c :: 0 <= c < |t.carts| && IsFirstActive(t.carts, c, user) ==>
                       t.carts[c].currency == t.variants[variant].currency)
            && (outcome == Failed(BadRequest) <==> !OnSale(t, variant))
            && (outcome != Done ==> u == t && outcome in {Failed(BadRequest), Failed(Conflict)})
  {
  }

  predicate IsFirstActive(carts: seq<Cart>, c: nat, user: nat) {
    FindActive(carts, user) == Some(c)
  }

  /** The user's active cart after an add, which is a new last one if there was none. */
  function CartAfterAdd(t: Tables, user: nat): nat {
    match FindActive(t.carts, user)
    case Some(c) => c
    case None => |t.carts|
  }

  /** An added item is in the user's active cart at the variant's current price; no other cart and table changes. */
  lemma AddItemEffect(t: Tables, user: nat, variant: nat, quantity: int)
    requires AddItemSpec(t, user, variant, quantity).1 == Done
    ensures var u, c := AddItemSpec(t, user, variant, quantity).0, CartAfterAdd(t, user);
            && variant < |t.variants| && c < |u.carts|
            && u == t.(carts := u.carts, nextCartItem := t.nextCartItem + 1)
            && |u.carts| == (if c < |t.carts| then |t.carts| else |t.carts| + 1)
            && (forall k :: 0 <= k < |t.carts| && k != c ==> u.carts[k] == t.carts[k])
            && u.carts[c].user == user && u.carts[c].status == CartActive
            && u.carts[c].currency == (if c < |t.carts| then t.carts[c].currency else t.variants[variant].currency)
            && (var before := if c < |t.carts| then t.carts[c].items else [];
                forall other: nat :: Sum(u.carts[c].items, UnitsOf(other)) ==
                                     Sum(before, UnitsOf(other)) + if other == variant then quantity else 0)
            && (exists i :: 0 <= i < |u.carts[c].items| && u.carts[c].items[i].variant == variant
                            && u.carts[c].items[i].price == t.variants[variant].price
                            && u.carts[c].items[i].currency == t.variants[variant].currency)
  {
    var v := t.variants[variant];
    var (carts, c) := WithActiveCart(t.carts, user, v.currency);
    forall other: nat {
      AddMerges(carts[c].items, t.nextCartItem, variant, quantity, v.price, v.currency, other);
    }
    var row := RowOfVariant(carts[c].items, variant);
    var items := Upsert(carts[c].items, t.nextCartItem, variant, quantity, v.price, v.currency);
    assert items[row].variant == variant && items[row].price == v.price && items[row].currency == v.currency;
  }

  /** The item is a row of an active cart of the user. */
  ghost predicate OwnsRow(carts: seq<Cart>, user: nat, item: nat) {
    exists c :: 0 <= c < |carts| && carts[c].user == user && carts[c].status == CartActive
                && HasId(carts[c].items, item)
  }

  /** With unique ids, there is one cart in which an item can be found. */
  lemma CartOfItemIsUnique(carts: seq<Cart>, next: nat, c: nat, item: nat)
    requires ItemIdsOk(carts, next) && c < |carts| && HasId(carts[c].items, item)
    ensures CartOfItem(carts, item) == c && RowOfItem(carts[c].items, item) < |carts[c].items|
  {
    var i :| 0 <= i < |carts[c].items| && carts[c].items[i].id == item;
    FoundByRow(carts[c].items, i);
    var d := CartOfItem(carts, item);
    hide ItemIdsOk, RowIdsOk, NoSharedId;
    FoundByCart(carts, c, item);
    assert carts[d].items[RowOfItem(carts[d].items, item)].id == item;
    if d != c {
      OneCartPerId(carts, next, if d < c then d else c, if d < c then c else d, item);
    }
  }

  lemma FoundByRow(items: seq<CartItem>, i: nat)
    requires i < |items|
    ensures RowOfItem(items, items[i].id) <= i
  {
  }

  lemma FoundByCart(carts: seq<Cart>, c: nat, item: nat)
    requires c < |carts| && RowOfItem(carts[c].items, item) < |carts[c].items|
    ensures CartOfItem(carts, item) <= c
  {
  }

  lemma OneCartPerId(carts: seq<Cart>, next: nat, c: nat, d: nat, item: nat)
    requires ItemIdsOk(carts, next) && c < d < |carts|
    ensures !(HasId(carts[c].items, item) && HasId(carts[d].items, item))
  {
    assert NoSharedId(carts[c].items, carts[d].items);
  }

  /** Changing or removing an item is accepted exactly for a row of the caller's own active cart. */
  lemma ItemCallsIff(t: Tables, user: nat, item: nat, quantity: int)
    requires ItemIdsOk(t.carts, t.nextCartItem)
    ensures var (u, outcome) := UpdateQuantitySpec(t, user, item, quantity);
            && (outcome == Done <==> OwnsRow(t.carts, user, item))
            && (outcome != Done ==> u == t && outcome == Failed(Forbidden))
            && (outcome == Done ==> u == CommitQuantitySpec(t, item, quantity).0)
    ensures var (u, outcome) := RemoveItemSpec(t, user, item);
            && (outcome == Done <==> OwnsRow(t.carts, user, item))
            && (outcome != Done ==> u == t && outcome == Failed(Forbidden))
            && (outcome == Done ==> u == CommitRemoveSpec(t, item).0)
  {
    hide ItemIdsOk, HasId;
    if OwnsRow(t.carts, user, item) {
      var c :| 0 <= c < |t.carts| && t.carts[c].user == user && t.carts[c].status == CartActive
               && HasId(t.carts[c].items, item);
      CartOfItemIsUnique(t.carts, t.nextCartItem, c, item);
    }
    if OwnsActiveItem(t, user, item) {
      RowHasId(t.carts[CartOfItem(t.carts, item)].items, item);
    }
  }

  lemma RowHasId(items: seq<CartItem>, item: nat)
    requires RowOfItem(items, item) < |items|
    ensures HasId(items, item)
  {
  }

  /** Clearing always succeeds: it empties the user's active cart, if there is one, and changes nothing else. */
  lemma ClearCartEffect(t: Tables, user: nat)
    ensures var (u, outcome) := ClearCartSpec(t, user);
            && outcome == Done && u == t.(carts := u.carts) && |u.carts| == |t.carts|
            && (forall c :: 0 <= c < |t.carts| ==>
                  u.carts[c] == if IsFirstActive(t.carts, c, user) then t.carts[c].(items := []) else t.carts[c])
  {
  }

  // ------------------------------------------------------------------------------------------
  // What the operations do to a cart's contents

  /** How many units of a variant a cart row holds. */
  function UnitsOf(variant: nat): CartItem -> int {
    (i: CartItem) => if i.variant == variant then i.quantity else 0
  }

  /** Adding merges: the cart's total of the variant grows by the quantity added, in its one row, and no other does. */
  lemma AddMerges(items: seq<CartItem>, id: nat, variant: nat, quantity: int, price: int, currency: string, other: nat)
    ensures Sum(Upsert(items, id, variant, quantity, price, currency), UnitsOf(other)) ==
            Sum(items, UnitsOf(other)) + if other == variant then quantity else 0
    ensures |Upsert(items, id, variant, quantity, price, currency)| ==
            |items| + if RowOfVariant(items, variant) < |items| then 0 else 1
  {
    var row := RowOfVariant(items, variant);
    if row < |items| {
      SumUpdate(items, row,
                items[row].(quantity := items[row].quantity + quantity, price := price, currency := currency),
                UnitsOf(other));
    } else {
      SumSnoc(items, CartItem(id, variant, quantity, price, currency), UnitsOf(other));
    }
  }

  /** A cart holds of each variant exactly what its row says. */
  lemma {:induction false} UnitsAreTheRow(items: seq<CartItem>, variantCount: nat, row: nat)
    requires ItemsOk(items, variantCount) && row < |items|
    ensures Sum(items, UnitsOf(items[row].variant)) == items[row].quantity
  {
    assert items == items[..row] + [items[row]] + items[row + 1..];
    SumAppend(items[..row] + [items[row]], items[row + 1..], UnitsOf(items[row].variant));
    SumSnoc(items[..row], items[row], UnitsOf(items[row].variant));
    SumZero(items[..row], UnitsOf(items[row].variant));
    SumZero(items[row + 1..], UnitsOf(items[row].variant));
  }

  lemma {:induction false} UnitsAfterSetting(items: seq<CartItem>, variantCount: nat, row: nat, quantity: int,
                                              other: nat)
    requires ItemsOk(items, variantCount) && row < |items|
    ensures Sum(items[row := items[row].(quantity := quantity)], UnitsOf(other)) ==
            if other == items[row].variant then quantity else Sum(items, UnitsOf(other))
  {
    UnitsAreTheRow(items, variantCount, row);
    SumUpdate(items, row, items[row].(quantity := quantity), UnitsOf(other));
  }

  lemma {:induction false} UnitsAfterRemoving(items: seq<CartItem>, variantCount: nat, row: nat, other: nat)
    requires ItemsOk(items, variantCount) && row < |items|
    ensures Sum(items[..row] + items[row + 1..], UnitsOf(other)) ==
            if other == items[row].variant then 0 else Sum(items, UnitsOf(other))
  {
    UnitsAreTheRow(items, variantCount, row);
    assert items == items[..row] + [items[row]] + items[row + 1..];
    SumAppend(items[..row] + [items[row]], items[row + 1..], UnitsOf(other));
    SumSnoc(items[..row], items[row], UnitsOf(other));
    SumAppend(items[..row], items[row + 1..], UnitsOf(other));
  }

  /** Setting a quantity fixes what the cart holds of that row's variant, and touches no other variant or cart. */
  lemma QuantityIsLocal(t: Tables, item: nat, quantity: int, other: nat)
    requires CartsOk(t.carts, |t.variants|) && CartOfItem(t.carts, item) < |t.carts|
    ensures var c := CartOfItem(t.carts, item);
            var items := t.carts[c].items;
            var after := CommitQuantitySpec(t, item, quantity).0.carts;
            && Sum(after[c].items, UnitsOf(other)) ==
               (if other == items[RowOfItem(items, item)].variant then quantity else Sum(items, UnitsOf(other)))
            && (forall k :: 0 <= k < |t.carts| && k != c ==> after[k] == t.carts[k])
  {
    hide Sum, UnitsOf, OneActivePerUser, ItemsOk;
    var items := t.carts[CartOfItem(t.carts, item)].items;
    UnitsAfterSetting(items, |t.variants|, RowOfItem(items, item), quantity, other);
  }

  /** Removing an item leaves none of its variant in the cart, and touches no other variant or cart. */
  lemma RemovalIsLocal(t: Tables, item: nat, other: nat)
    requires CartsOk(t.carts, |t.variants|) && CartOfItem(t.carts, item) < |t.carts|
    ensures var c := CartOfItem(t.carts, item);
            var items := t.carts[c].items;
            var after := CommitRemoveSpec(t, item).0.carts;
            && Sum(after[c].items, UnitsOf(other)) ==
               (if other == items[RowOfItem(items, item)].variant then 0 else Sum(items, UnitsOf(other)))
            && (forall k :: 0 <= k < |t.carts| && k != c ==> after[k] == t.carts[k])
  {
    hide Sum, UnitsOf, OneActivePerUser, ItemsOk;
    var items := t.carts[CartOfItem(t.carts, item)].items;
    UnitsAfterRemoving(items, |t.variants|, RowOfItem(items, item), other);
  }

  // ------------------------------------------------------------------------------------------
  // One currency per cart: the check is outside the transaction

  ghost predicate OneCurrency(c: Cart) {
    forall i :: 0 <= i < |c.items| ==> c.items[i].currency == c.currency
  }

  ghost predicate CurrenciesOk(carts: seq<Cart>) {
    forall c :: 0 <= c < |carts| ==> OneCurrency(carts[c])
  }

  /** The add transaction keeps carts to one currency exactly when the cart it finds has the variant's currency. */
  lemma CurrencyNeedsFreshCheck(t: Tables, user: nat, variant: nat, price: int, currency: string, quantity: int)
    requires CurrenciesOk(t.carts) && variant < |t.variants|
    ensures CurrenciesOk(CommitAddSpec(t, user, variant, price, currency, quantity).0.carts) <==>
              (FindActive(t.carts, user).Some? ==> t.carts[FindActive(t.carts, user).value].currency == currency)
  {
    var (carts, c) := WithActiveCart(t.carts, user, currency);
    assert OneCurrency(carts[c]);
    var items := Upsert(carts[c].items, t.nextCartItem, variant, quantity, price, currency);
    var row := RowOfVariant(carts[c].items, variant);
    var after := carts[c := carts[c].(items := items)];
    assert items[row].currency == currency;
    if carts[c].currency == currency {
      assert OneCurrency(after[c]);
    } else {
      assert !OneCurrency(after[c]);
    }
  }

  /** With nothing in between its check and its transaction, `addItem` keeps every cart to one currency. */
  lemma AddItemKeepsCurrency(t: Tables, user: nat, variant: nat, quantity: int)
    requires CurrenciesOk(t.carts)
    ensures CurrenciesOk(AddItemSpec(t, user, variant, quantity).0.carts)
  {
    if Purchasable(t, variant) {
      CurrencyNeedsFreshCheck(t, user, variant, t.variants[variant].price, t.variants[variant].currency, quantity);
    }
  }
}
