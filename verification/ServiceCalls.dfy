/**
 * The service calls of the shop, each with nothing in between its reads and its write: all of them are runs of the
 * steps in `ShopRuns`, and what their checks outside the transaction protect holds along every run of such calls.
 */
module ServiceCalls {
  import opened Common
  import opened MasterOrderStatus
  import opened Store
  import opened Vendors
  import opened InventoryService
  import opened CartService
  import opened VendorOrders
  import opened Checkout
  import opened ShopRuns

  datatype Call =
    | CallCreateVendor(user: nat)
    | CallVerify(vendor: nat, target: Verification)
    | CallActivate(vendor: nat)
    | CallCreateProduct(vendor: nat)
    | CallSetProductStatus(product: nat, listing: ListingStatus)
    | CallCreateVariant(product: nat, price: int, currency: string)
    | CallUpdateVariant(variant: nat, price: int, currency: string, listing: ListingStatus)
    | CallRestock(product: nat, variant: nat, quantity: int)
    | CallAdjust(product: nat, variant: nat, delta: int)
    | CallAddItem(user: nat, variant: nat, quantity: int)
    | CallUpdateQuantity(user: nat, item: nat, quantity: int)
    | CallRemoveItem(user: nat, item: nat)
    | CallClearCart(user: nat)
    | CallCheckout(user: nat, collision: Option<nat>)
    | CallUpdateStatus(vendorOrder: nat, to: VendorStatus, actor: nat)

  /** What request validation guarantees. */
  predicate Validated(c: Call) {
    match c
    case CallRestock(_, _, q) => q >= 1
    case CallAddItem(_, _, q) => q >= 1
    case CallUpdateQuantity(_, _, q) => q >= 1
    case _ => true
  }

  function After(t: Tables, c: Call): Tables {
    match c
    case CallCreateVendor(u) => CreateForUserSpec(t, u).0
    case CallVerify(v, target) => VerifySpec(t, v, target).0
    case CallActivate(v) => ActivateSpec(t, v).0
    case CallCreateProduct(v) => Effect(t, CreateProduct(v))
    case CallSetProductStatus(p, s) => Effect(t, WriteProductStatus(p, s))
    case CallCreateVariant(p, price, currency) => CreateForProductSpec(t, p, price, currency).0
    case CallUpdateVariant(v, price, currency, s) => Effect(t, WriteVariant(v, price, currency, s))
    case CallRestock(p, v, q) => RestockSpec(t, p, v, q).0
    case CallAdjust(p, v, delta) => AdjustSpec(t, p, v, delta).0
    case CallAddItem(u, v, q) => AddItemSpec(t, u, v, q).0
    case CallUpdateQuantity(u, i, q) => UpdateQuantitySpec(t, u, i, q).0
    case CallRemoveItem(u, i) => RemoveItemSpec(t, u, i).0
    case CallClearCart(u) => ClearCartSpec(t, u).0
    case CallCheckout(u, collision) => CheckoutSpec(t, u, collision).0
    case CallUpdateStatus(w, to, actor) => UpdateStatusSpec(t, w, to, actor).0
  }

  // ------------------------------------------------------------------------------------------
  // Every call is a run

  /** The write that a call performs when its checks pass; a checkout is two steps and has none. */
  function WriteOf(t: Tables, c: Call): Write
    requires !c.CallCheckout?
  {
    match c
    case CallCreateVendor(u) => CreateVendor(u)
    case CallVerify(v, target) =>
      WriteVerification(v, if v < |t.vendors| then t.vendors[v].verification else target, target)
    case CallActivate(v) => WriteActivation(v)
    case CallCreateProduct(v) => CreateProduct(v)
    case CallSetProductStatus(p, s) => WriteProductStatus(p, s)
    case CallCreateVariant(p, price, currency) => CreateVariant(p, price, currency, !HasVariants(t.variants, p))
    case CallUpdateVariant(v, price, currency, s) => WriteVariant(v, price, currency, s)
    case CallRestock(_, v, q) => WriteRestock(v, q)
    case CallAdjust(_, v, delta) => WriteAdjust(v, delta)
    case CallAddItem(u, v, q) =>
      if v < |t.variants| then WriteAddItem(u, v, t.variants[v].price, t.variants[v].currency, q)
      else WriteAddItem(u, v, 0, "", q)
    case CallUpdateQuantity(_, i, q) => WriteQuantity(i, q)
    case CallRemoveItem(_, i) => WriteRemove(i)
    case CallClearCart(u) => WriteClear(match FindActive(t.carts, u) case Some(c) => c case None => 0)
    case CallUpdateStatus(w, to, actor) =>
      WriteStatus(w, if w < |t.vendorOrders| then t.vendorOrders[w].status else to, to, actor)
  }

  /** Every call but a checkout changes nothing, or performs its one write, which is then admitted. */
  lemma CallIsAWrite(t: Tables, c: Call)
    requires Validated(c) && !c.CallCheckout?
    ensures After(t, c) == t || (Admitted(WriteOf(t, c)) && After(t, c) == Effect(t, WriteOf(t, c)))
  {
    hide CommitAddSpec, CommitQuantitySpec, CommitRemoveSpec, CommitStatusSpec;
  }

  ghost predicate IsReached(w: World, u: Tables) {
    exists steps :: AllowedRun(w, steps) && Run(w, steps).t == u
  }

  lemma ReachedByOne(w: World, s: Step)
    requires Allowed(w, s)
    ensures IsReached(w, Next(w, s).t)
  {
    hide Allowed, Next;
    assert [s][1..] == [] && AllowedRun(Next(w, s), []);
    assert AllowedRun(w, [s]) && Run(w, [s]) == Next(w, s);
  }

  lemma ReachedByTwo(w: World, r: Step, s: Step)
    requires Allowed(w, r) && Allowed(Next(w, r), s)
    ensures IsReached(w, Next(Next(w, r), s).t)
  {
    hide Allowed, Next;
    assert [r, s][1..] == [s] && [s][1..] == [] && AllowedRun(Next(Next(w, r), s), []);
    assert AllowedRun(Next(w, r), [s]) && Run(Next(w, r), [s]) == Next(Next(w, r), s);
    assert AllowedRun(w, [r, s]) && Run(w, [r, s]) == Next(Next(w, r), s);
  }

  /** A checkout call is its read followed at once by its commit. */
  lemma CheckoutCallIsTwoSteps(w: World, user: nat, collision: Option<nat>)
    ensures var begun := Next(w, BeginCheckout(user));
            if LoadSpec(w.t, user).Err? then CheckoutSpec(w.t, user, collision).0 == w.t
            else var commit := CommitCheckout(LoadSpec(w.t, user).value, collision);
                 Allowed(begun, commit) && Next(begun, commit).t == CheckoutSpec(w.t, user, collision).0
  {
  }

  /** Every service call is a run, so everything proved of runs holds of the calls. */
  lemma CallIsARun(w: World, c: Call)
    requires Validated(c)
    ensures IsReached(w, After(w.t, c))
  {
    hide IsReached, Effect, LoadSpec, CheckoutSpec, CommitSpec;
    NothingIsReached(w);
    match c
    case CallCheckout(user, collision) =>
      CheckoutCallIsTwoSteps(w, user, collision);
      if LoadSpec(w.t, user).Ok? {
        ReachedByTwo(w, BeginCheckout(user), CommitCheckout(LoadSpec(w.t, user).value, collision));
      }
    case _ =>
      CallIsAWrite(w.t, c);
      if After(w.t, c) != w.t {
        ReachedByOne(w, Do(WriteOf(w.t, c)));
      }
  }

  lemma NothingIsReached(w: World)
    ensures IsReached(w, w.t)
  {
    assert AllowedRun(w, []) && Run(w, []) == w;
  }

  lemma CallKeepsTables(t: Tables, c: Call)
    requires TablesOk(t) && Validated(c)
    ensures TablesOk(After(t, c)) && Persists(t, After(t, c))
  {
    var w := World(t, {});
    CallIsARun(w, c);
    hide TablesOk, Persists, After;
    var steps :| AllowedRun(w, steps) && Run(w, steps).t == After(t, c);
    RunKeepsInv(w, steps);
  }

  // ------------------------------------------------------------------------------------------
  // What holds along runs of undisturbed calls

  function RunCalls(t: Tables, calls: seq<Call>): Tables
    decreases |calls|
  {
    if calls == [] then t else RunCalls(After(t, calls[0]), calls[1..])
  }

  /** Rows only change their quantity, or go, or are added in their cart's currency. */
  lemma CallKeepsCurrencies(t: Tables, c: Call)
    requires CurrenciesOk(t.carts)
    ensures CurrenciesOk(After(t, c).carts)
  {
    hide CommitQuantitySpec, CommitRemoveSpec, AddItemSpec;
    match c
    case CallAddItem(u, v, q) => AddItemKeepsCurrency(t, u, v, q);
    case CallUpdateQuantity(_, i, q) => FewerRowsKeepCurrencies(t, i, q);
    case CallRemoveItem(_, i) => FewerRowsKeepCurrencies(t, i, 1);
    case CallClearCart(_) =>
    case CallCheckout(u, collision) => CheckoutKeepsCurrencies(t, u, collision);
    case _ => OtherCallsKeepCarts(t, c);
  }

  lemma CheckoutKeepsCurrencies(t: Tables, user: nat, collision: Option<nat>)
    requires CurrenciesOk(t.carts)
    ensures CurrenciesOk(CheckoutSpec(t, user, collision).0.carts)
  {
    hide Reserve, Groups, PlacedItems, PlacedOrders, LoadSpec, ReservationRows;
  }

  lemma OtherCallsKeepCarts(t: Tables, c: Call)
    requires !c.CallAddItem? && !c.CallUpdateQuantity? && !c.CallRemoveItem? && !c.CallClearCart? && !c.CallCheckout?
    ensures After(t, c).carts == t.carts
  {
    hide DeriveMasterOrderStatus;
  }

  lemma FewerRowsKeepCurrencies(t: Tables, item: nat, quantity: int)
    requires CurrenciesOk(t.carts)
    ensures CurrenciesOk(CommitQuantitySpec(t, item, quantity).0.carts)
    ensures CurrenciesOk(CommitRemoveSpec(t, item).0.carts)
  {
    var c := CartOfItem(t.carts, item);
    if c < |t.carts| {
      assert OneCurrency(t.carts[c]);
    }
  }

  /** Only the creation of a variant sets a default flag, and its count is fresh. */
  lemma CallKeepsSingleDefault(t: Tables, c: Call)
    requires SingleDefault(t.variants)
    ensures SingleDefault(After(t, c).variants)
  {
    hide SingleDefault;
    match c
    case CallCreateVariant(p, price, currency) =>
      if p < |t.products| {
        SingleDefaultNeedsFreshCount(t, p, price, currency, !HasVariants(t.variants, p));
      }
    case CallUpdateVariant(v, price, currency, s) => UpdatedVariantKeepsDefault(t, v, price, currency, s);
    case _ => OtherCallsKeepVariants(t, c);
  }

  lemma OtherCallsKeepVariants(t: Tables, c: Call)
    requires !c.CallCreateVariant? && !c.CallUpdateVariant?
    ensures After(t, c).variants == t.variants
  {
    hide DeriveMasterOrderStatus, Reserve, Groups, PlacedItems, PlacedOrders, LoadSpec, ReservationRows;
    hide Upsert, WithActiveCart, RowOfItem, CartOfItem;
  }

  lemma UpdatedVariantKeepsDefault(t: Tables, v: nat, price: int, currency: string, s: ListingStatus)
    requires SingleDefault(t.variants)
    ensures SingleDefault(Effect(t, WriteVariant(v, price, currency, s)).variants)
  {
    var after := Effect(t, WriteVariant(v, price, currency, s)).variants;
    forall i | 0 <= i < |after|
      ensures HasVariants(after[..i], after[i].product) == HasVariants(t.variants[..i], t.variants[i].product)
    {
      assert forall k :: 0 <= k < i ==> after[..i][k].product == t.variants[..i][k].product;
    }
  }

  /**
   * Along every run of undisturbed calls each cart holds one currency and each product with variants has exactly one
   * default, its first, besides everything that holds of any run.
   */
  lemma {:induction false} EveryRunOfCallsKeeps(t: Tables, calls: seq<Call>)
    requires TablesOk(t) && CurrenciesOk(t.carts) && SingleDefault(t.variants)
    requires forall i :: 0 <= i < |calls| ==> Validated(calls[i])
    ensures var u := RunCalls(t, calls);
            TablesOk(u) && CurrenciesOk(u.carts) && SingleDefault(u.variants) && Persists(t, u)
    decreases |calls|
  {
    hide TablesOk, CurrenciesOk, SingleDefault, Persists, After, Validated;
    if calls == [] {
      PersistsReflexive(t);
    } else {
      CallKeepsTables(t, calls[0]);
      CallKeepsCurrencies(t, calls[0]);
      CallKeepsSingleDefault(t, calls[0]);
      EveryRunOfCallsKeeps(After(t, calls[0]), calls[1..]);
      PersistsTransitive(t, After(t, calls[0]), RunCalls(t, calls));
    }
  }

  lemma EveryRunOfCallsFromEmpty(calls: seq<Call>)
    requires forall i :: 0 <= i < |calls| ==> Validated(calls[i])
    ensures var u := RunCalls(EMPTY, calls);
            TablesOk(u) && CurrenciesOk(u.carts) && SingleDefault(u.variants)
  {
    InitialInv();
    hide TablesOk, Validated;
    EveryRunOfCallsKeeps(EMPTY, calls);
  }
}
