/** Variants with their inventory rows, restocking, adjustment, and the stock ledger. */
module InventoryService {
  import opened Common
  import opened Store

  // ------------------------------------------------------------------------------------------
  // Variants

  predicate HasVariants(variants: seq<Variant>, product: nat) {
    exists i :: 0 <= i < |variants| && variants[i].product == product
  }

  /** The creation transaction, given the `first` flag computed by an earlier count. */
  function CommitVariantSpec(t: Tables, product: nat, price: int, currency: string, first: bool): (Tables, Outcome) {
    if product >= |t.products| then (t, Failed(NotFound))
    else
      (t.(variants := t.variants + [Variant(product, price, currency, Listed, first)],
          inventories := t.inventories[|t.variants| := Inventory(0, 0)]),
       Done)
  }

  function CreateForProductSpec(t: Tables, product: nat, price: int, currency: string): (Tables, Outcome) {
    CommitVariantSpec(t, product, price, currency, !HasVariants(t.variants, product))
  }

  method CreateForProduct(db: Database, product: nat, price: int, currency: string) returns (r: Outcome)
    modifies db
    ensures (db.Now(), r) == CreateForProductSpec(old(db.Now()), product, price, currency)
  {
    if product >= |db.products| {
      return Failed(NotFound);
    }
    var isFirstVariant := !HasVariants(db.variants, product);
    var id := |db.variants|;
    db.variants := db.variants + [Variant(product, price, currency, Listed, isFirstVariant)];
    db.inventories := db.inventories[id := Inventory(0, 0)];
    r := Done;
  }

  /** A product's variants include exactly one default: its earliest. */
  ghost predicate SingleDefault(variants: seq<Variant>) {
    forall i :: 0 <= i < |variants| ==>
      (variants[i].isDefault <==> !HasVariants(variants[..i], variants[i].product))
  }

  /** The check is outside the transaction: the commit keeps the single default exactly when the count is not stale. */
  lemma SingleDefaultNeedsFreshCount(t: Tables, product: nat, price: int, currency: string, first: bool)
    requires SingleDefault(t.variants) && product < |t.products|
    ensures SingleDefault(CommitVariantSpec(t, product, price, currency, first).0.variants)
            <==> (first <==> !HasVariants(t.variants, product))
  {
    var after := CommitVariantSpec(t, product, price, currency, first).0.variants;
    assert after[..|t.variants|] == t.variants;
    assert forall i :: 0 <= i < |t.variants| ==> after[..i] == t.variants[..i];
    assert after[|t.variants|].product == product;
  }

  // ------------------------------------------------------------------------------------------
  // Restock and adjust

  predicate HasInventory(t: Tables, product: nat, variant: nat) {
    variant < |t.variants| && t.variants[variant].product == product && variant in t.inventories
  }

  function CommitRestockSpec(t: Tables, variant: nat, quantity: int): (Tables, Outcome) {
    if variant !in t.inventories then (t, Failed(NotFound))
    else
      var row := t.inventories[variant];
      (t.(inventories := t.inventories[variant := row.(onHand := row.onHand + quantity)],
          movements := t.movements + [Movement(variant, Restock, quantity, None)]),
       Done)
  }

  function RestockSpec(t: Tables, product: nat, variant: nat, quantity: int): (Tables, Outcome) {
    if !HasInventory(t, product, variant) then (t, Failed(NotFound)) else CommitRestockSpec(t, variant, quantity)
  }

  /** The conditional update: it applies exactly when the new level is non-negative and covers the reservations. */
  predicate CanAdjust(t: Tables, variant: nat, delta: int) {
    && variant in t.inventories
    && t.inventories[variant].onHand + delta >= 0
    && t.inventories[variant].onHand + delta >= t.inventories[variant].reserved
  }

  function CommitAdjustSpec(t: Tables, variant: nat, delta: int): (Tables, Outcome) {
    if !CanAdjust(t, variant, delta) then (t, Failed(Conflict))
    else
      var row := t.inventories[variant];
      (t.(inventories := t.inventories[variant := row.(onHand := row.onHand + delta)],
          movements := t.movements + [Movement(variant, Adjustment, delta, None)]),
       Done)
  }

  function AdjustSpec(t: Tables, product: nat, variant: nat, delta: int): (Tables, Outcome) {
    if delta == 0 then (t, Failed(BadRequest))
    else if !HasInventory(t, product, variant) then (t, Failed(NotFound))
    else CommitAdjustSpec(t, variant, delta)
  }

  method RestockVariant(db: Database, product: nat, variant: nat, quantity: int) returns (r: Outcome)
    modifies db
    ensures (db.Now(), r) == RestockSpec(old(db.Now()), product, variant, quantity)
  {
    if !HasInventory(db.Now(), product, variant) {
      return Failed(NotFound);
    }
    var row := db.inventories[variant];
    db.inventories := db.inventories[variant := row.(onHand := row.onHand + quantity)];
    db.movements := db.movements + [Movement(variant, Restock, quantity, None)];
    r := Done;
  }

  method AdjustVariant(db: Database, product: nat, variant: nat, delta: int) returns (r: Outcome)
    modifies db
    ensures (db.Now(), r) == AdjustSpec(old(db.Now()), product, variant, delta)
  {
    if delta == 0 {
      return Failed(BadRequest);
    }
    if !HasInventory(db.Now(), product, variant) {
      return Failed(NotFound);
    }
    var row := db.inventories[variant];
    if row.onHand + delta < 0 || row.onHand + delta < row.reserved {
      return Failed(Conflict);
    }
    db.inventories := db.inventories[variant := row.(onHand := row.onHand + delta)];
    db.movements := db.movements + [Movement(variant, Adjustment, delta, None)];
    r := Done;
  }

  // ------------------------------------------------------------------------------------------
  // The ledger reconciles

  /** What a movement adds to a variant's physical stock. */
  function StockOf(v: nat): Movement -> int {
    (m: Movement) => if m.variant == v && m.kind != Reservation then m.quantity else 0
  }

  /** What a movement adds to a variant's reservations. */
  function ReservedOf(v: nat): Movement -> int {
    (m: Movement) => if m.variant == v && m.kind == Reservation then m.quantity else 0
  }

  /** How many units of a variant an order item holds, whatever the status of its order. */
  function OrderedOf(v: nat): OrderItem -> int {
    (i: OrderItem) => if i.variant == v then i.quantity else 0
  }

  /** Exactly one RESERVATION row names each order item, with its variant and quantity; no other row names one. */
  ghost predicate ReservationsNameItems(movements: seq<Movement>, items: seq<OrderItem>) {
    && (forall i :: 0 <= i < |movements| ==> (movements[i].kind == Reservation <==> movements[i].orderItem.Some?))
    && (forall i :: 0 <= i < |movements| && movements[i].orderItem.Some? ==>
          && movements[i].orderItem.value < |items|
          && movements[i].variant == items[movements[i].orderItem.value].variant
          && movements[i].quantity == items[movements[i].orderItem.value].quantity)
    && (forall i, j :: 0 <= i < j < |movements| && movements[i].orderItem.Some? ==>
          movements[i].orderItem != movements[j].orderItem)
    && (forall k: nat :: k < |items| ==> IsNamed(movements, k))
  }

  ghost predicate IsNamed(movements: seq<Movement>, item: nat) {
    exists i :: 0 <= i < |movements| && movements[i].orderItem == Some(item)
  }

  lemma StockMovementNamesNone(movements: seq<Movement>, items: seq<OrderItem>, m: Movement)
    requires ReservationsNameItems(movements, items) && m.kind != Reservation && m.orderItem.None?
    ensures ReservationsNameItems(movements + [m], items)
  {
    forall k: nat | k < |items| ensures IsNamed(movements + [m], k) {
      assert IsNamed(movements, k);
      var i :| 0 <= i < |movements| && movements[i].orderItem == Some(k);
      assert (movements + [m])[i].orderItem == Some(k);
    }
  }

  /** The inventory rows are the totals of the ledger and of the order items, and stay within bounds. */
  ghost predicate StockOk(inventories: map<nat, Inventory>, movements: seq<Movement>, items: seq<OrderItem>) {
    && ReservationsNameItems(movements, items)
    && (forall i :: 0 <= i < |movements| ==> movements[i].variant in inventories)
    && (forall i :: 0 <= i < |items| ==> items[i].variant in inventories)
    && (forall v :: v in inventories ==>
          && inventories[v].onHand == Sum(movements, StockOf(v))
          && inventories[v].reserved == Sum(movements, ReservedOf(v))
          && inventories[v].reserved == Sum(items, OrderedOf(v))
          && 0 <= inventories[v].reserved <= inventories[v].onHand)
  }

  /** One new ledger row that moves physical stock, applied to the row it names. */
  lemma StockMovementKeeps(t: Tables, m: Movement)
    requires StockOk(t.inventories, t.movements, t.items)
    requires m.variant in t.inventories && m.kind != Reservation && m.orderItem.None?
    requires t.inventories[m.variant].reserved <= t.inventories[m.variant].onHand + m.quantity
    ensures var row := t.inventories[m.variant];
            StockOk(t.inventories[m.variant := row.(onHand := row.onHand + m.quantity)], t.movements + [m], t.items)
  {
    StockMovementNamesNone(t.movements, t.items, m);
    hide ReservationsNameItems;
    forall v | v in t.inventories
      ensures Sum(t.movements + [m], StockOf(v)) == Sum(t.movements, StockOf(v)) + StockOf(v)(m)
      ensures Sum(t.movements + [m], ReservedOf(v)) == Sum(t.movements, ReservedOf(v))
    {
      SumSnoc(t.movements, m, StockOf(v));
      SumSnoc(t.movements, m, ReservedOf(v));
    }
  }

  lemma RestockKeepsStock(t: Tables, variant: nat, quantity: int)
    requires StockOk(t.inventories, t.movements, t.items) && quantity >= 1
    ensures var u := CommitRestockSpec(t, variant, quantity).0; StockOk(u.inventories, u.movements, u.items)
  {
    if variant in t.inventories {
      StockMovementKeeps(t, Movement(variant, Restock, quantity, None));
    }
  }

  lemma AdjustKeepsStock(t: Tables, variant: nat, delta: int)
    requires StockOk(t.inventories, t.movements, t.items)
    ensures var u := CommitAdjustSpec(t, variant, delta).0; StockOk(u.inventories, u.movements, u.items)
  {
    if CanAdjust(t, variant, delta) {
      StockMovementKeeps(t, Movement(variant, Adjustment, delta, None));
    }
  }

  /** Nothing is known of a variant that does not exist yet, so its first row starts at zero. */
  lemma NewVariantKeepsStock(t: Tables, product: nat, price: int, currency: string, first: bool)
    requires StockOk(t.inventories, t.movements, t.items)
    requires |t.variants| !in t.inventories
    ensures var u := CommitVariantSpec(t, product, price, currency, first).0;
            StockOk(u.inventories, u.movements, u.items)
  {
    var v := |t.variants|;
    SumZero(t.movements, StockOf(v));
    SumZero(t.movements, ReservedOf(v));
    SumZero(t.items, OrderedOf(v));
  }

  /** The guard of an adjustment is exact: applying the change keeps the stock consistent if and only if it passes. */
  lemma AdjustGuardIsExact(t: Tables, variant: nat, delta: int)
    requires StockOk(t.inventories, t.movements, t.items) && variant in t.inventories
    ensures var row := t.inventories[variant];
            StockOk(t.inventories[variant := row.(onHand := row.onHand + delta)],
                    t.movements + [Movement(variant, Adjustment, delta, None)], t.items)
            <==> CommitAdjustSpec(t, variant, delta).1 == Done
  {
    hide ReservationsNameItems, Sum, StockOf, ReservedOf, OrderedOf;
    if CanAdjust(t, variant, delta) {
      StockMovementKeeps(t, Movement(variant, Adjustment, delta, None));
    }
  }

  /** An adjustment by the same amount always takes a restock back. */
  lemma {:induction false} AdjustUndoesRestock(t: Tables, product: nat, variant: nat, quantity: int)
    requires StockOk(t.inventories, t.movements, t.items) && quantity >= 1 && HasInventory(t, product, variant)
    ensures var restocked := RestockSpec(t, product, variant, quantity).0;
            var (u, outcome) := AdjustSpec(restocked, product, variant, -quantity);
            && outcome == Done && u.inventories == t.inventories
            && StockOk(u.inventories, u.movements, u.items)
  {
    hide Sum, StockOf, ReservedOf, OrderedOf;
    var restocked := RestockSpec(t, product, variant, quantity).0;
    RestockKeepsStock(t, variant, quantity);
    AdjustKeepsStock(restocked, variant, -quantity);
  }

  // ------------------------------------------------------------------------------------------
  // When the calls accept, and what they leave

  /** The product that a variant with an inventory row belongs to. */
  function StockOwner(t: Tables, variant: nat): Option<nat> {
    if variant in t.inventories && variant < |t.variants| then Some(t.variants[variant].product) else None
  }

  /** One variant's physical stock has moved by `delta`, with one ledger row to show for it; nothing else changed. */
  predicate StockMoved(t: Tables, u: Tables, variant: nat, kind: MovementKind, delta: int)
    requires variant in t.inventories
  {
    && u == t.(inventories := u.inventories, movements := u.movements)
    && u.inventories.Keys == t.inventories.Keys
    && (forall v :: v in t.inventories && v != variant ==> u.inventories[v] == t.inventories[v])
    && u.inventories[variant].onHand == t.inventories[variant].onHand + delta
    && u.inventories[variant].reserved == t.inventories[variant].reserved
    && u.movements == t.movements + [Movement(variant, kind, delta, None)]
  }

  /** A restock is accepted for every variant of the product, and for no variant of another. */
  lemma RestockIff(t: Tables, product: nat, variant: nat, quantity: int)
    ensures var (u, outcome) := RestockSpec(t, product, variant, quantity);
            && (outcome == Done <==> StockOwner(t, variant) == Some(product))
            && (outcome != Done ==> u == t && outcome == Failed(NotFound))
            && (outcome == Done ==> StockMoved(t, u, variant, Restock, quantity))
  {
  }

  /** An adjustment is accepted if also it is not 0 and leaves at least what is reserved, and at least nothing. */
  lemma AdjustIff(t: Tables, product: nat, variant: nat, delta: int)
    ensures var (u, outcome) := AdjustSpec(t, product, variant, delta);
            && (outcome == Done <==>
                  && delta != 0 && StockOwner(t, variant) == Some(product)
                  && t.inventories[variant].onHand + delta >= 0
                  && t.inventories[variant].onHand + delta >= t.inventories[variant].reserved)
            && (outcome == Failed(BadRequest) <==> delta == 0)
            && (outcome == Failed(NotFound) <==> delta != 0 && StockOwner(t, variant) != Some(product))
            && (outcome != Done ==> u == t && outcome in {Failed(BadRequest), Failed(NotFound), Failed(Conflict)})
            && (outcome == Done ==> StockMoved(t, u, variant, Adjustment, delta))
  {
  }

  /** A new variant is the last row, listed, at the given price, default exactly if first, and without stock. */
  lemma CreateVariantEffect(t: Tables, product: nat, price: int, currency: string)
    ensures var (u, outcome) := CreateForProductSpec(t, product, price, currency);
            && (outcome == Done <==> product < |t.products|)
            && (outcome != Done ==> u == t && outcome == Failed(NotFound))
            && (outcome == Done ==>
                  && u == t.(variants := u.variants, inventories := u.inventories)
                  && |u.variants| == |t.variants| + 1 && u.variants[..|t.variants|] == t.variants
                  && var v := u.variants[|t.variants|];
                  && v.product == product && v.price == price && v.currency == currency && v.status == Listed
                  && (v.isDefault <==> forall i :: 0 <= i < |t.variants| ==> t.variants[i].product != product)
                  && u.inventories == t.inventories[|t.variants| := Inventory(0, 0)])
  {
  }
}
