/**
 * The shop and its payments together: every order that a checkout commits is an order that can be paid, and what is
 * collected for it is the price of the goods in it.
 */
module Marketplace {
  import opened Common
  import opened Store
  import opened CheckoutInvariants
  import opened Payments
  import opened Webhooks
  import Carts = CartService
  import Checkout
  import Shop = ShopRuns
  import Pay = PaymentRuns
  import StatusDerivation = MasterOrderStatus

  // A master order's row is split between the two halves: the shop keeps its fulfilment columns, the payment ledger
  // its `paymentStatus`. Both halves use the row's index as its id.

  datatype World = World(shop: Shop.World, pay: Pay.World)

  datatype Step = ShopStep(shop: Shop.Step) | PayStep(pay: Pay.Step)

  /** Orders come from checkouts only. */
  predicate Allowed(w: World, s: Step) {
    match s
    case ShopStep(a) => Shop.Allowed(w.shop, a)
    case PayStep(a) => !a.PlaceOrder? && Pay.Allowed(w.pay, a)
  }

  /** A step that inserts a master order inserts its payment side with it, PENDING by default. */
  function Next(w: World, s: Step): World
    requires Linked(w.pay.b.ledger) && Allowed(w, s)
  {
    match s
    case ShopStep(a) =>
      var shop := Shop.Next(w.shop, a);
      if |shop.t.orders| > |w.shop.t.orders| then
        var o := shop.t.orders[|w.shop.t.orders|];
        World(shop, Pay.Next(w.pay, Pay.PlaceOrder(o.user, o.total, o.currency)))
      else World(shop, w.pay)
    case PayStep(a) => World(w.shop, Pay.Next(w.pay, a))
  }

  /** `Linked` only makes the step well defined: every consistent ledger is linked, so it excludes no run. */
  predicate AllowedRun(w: World, steps: seq<Step>)
    decreases |steps|
  {
    steps == [] ||
    (Linked(w.pay.b.ledger) && Allowed(w, steps[0]) && AllowedRun(Next(w, steps[0]), steps[1..]))
  }

  function Run(w: World, steps: seq<Step>): World
    requires AllowedRun(w, steps)
    decreases |steps|
  {
    if steps == [] then w else Run(Next(w, steps[0]), steps[1..])
  }

  const INITIAL := World(Shop.INITIAL, Pay.INITIAL)

  // ------------------------------------------------------------------------------------------
  // The two halves stay in step

  /** Both halves hold the same orders, with the same owner, total and currency. */
  ghost predicate SameOrders(placed: seq<MasterOrder>, payable: seq<Order>) {
    && |placed| == |payable|
    && forall m :: 0 <= m < |placed| ==>
         && placed[m].user == payable[m].user && placed[m].total == payable[m].total
         && placed[m].currency == payable[m].currency
  }

  ghost predicate Inv(w: World) {
    Shop.Inv(w.shop) && Pay.Inv(w.pay) && SameOrders(w.shop.t.orders, w.pay.b.ledger.orders)
  }

  lemma WritesPlaceNoOrder(t: Tables, a: Shop.Write)
    ensures |Shop.Effect(t, a).orders| == |t.orders|
  {
    hide StatusDerivation.DeriveMasterOrderStatus;
    hide Carts.WithActiveCart, Carts.Upsert, Carts.CartOfItem, Carts.RowOfItem;
  }

  /** A step of the shop inserts at most one master order. */
  lemma AtMostOneNewOrder(w: Shop.World, s: Shop.Step)
    ensures |Shop.Next(w, s).t.orders| <= |w.t.orders| + 1
  {
    hide Shop.Effect, Checkout.Groups, Checkout.PlacedItems, Checkout.PlacedOrders, Checkout.Reserve, Checkout.LoadSpec;
    if s.Do? {
      WritesPlaceNoOrder(w.t, s.write);
    }
  }

  /** A payment step touches nothing of an order but its payment status. */
  lemma {:induction false} PaymentStepsKeepOrders(w: Pay.World, s: Pay.Step)
    requires Pay.Inv(w) && Linked(w.b.ledger) && Pay.Allowed(w, s) && !s.PlaceOrder?
    ensures var before, after := w.b.ledger.orders, Pay.Next(w, s).b.ledger.orders;
            && |after| == |before|
            && forall m :: 0 <= m < |before| ==>
                 && after[m].user == before[m].user && after[m].total == before[m].total
                 && after[m].currency == before[m].currency
  {
    hide Pay.Inv, HighestNumber, HasPayment, FindAttempt, FindRefund;
  }

  lemma StepKeepsInv(w: World, s: Step)
    requires Inv(w) && Linked(w.pay.b.ledger) && Allowed(w, s)
    ensures Inv(Next(w, s))
  {
    hide Shop.Next, Pay.Next, Shop.Inv, Pay.Inv, Shop.Allowed, Pay.Allowed;
    match s
    case PayStep(a) =>
      Pay.StepKeepsInv(w.pay, a);
      PaymentStepsKeepOrders(w.pay, a);
    case ShopStep(a) =>
      Shop.StepKeepsInv(w.shop, a);
      AtMostOneNewOrder(w.shop, a);
      var t, u := w.shop.t, Shop.Next(w.shop, a).t;
      if |u.orders| > |t.orders| {
        var o := u.orders[|t.orders|];
        PlacingKeepsPay(w.pay, o.user, o.total, o.currency);
      }
  }

  lemma PlacingKeepsPay(w: Pay.World, user: nat, total: int, currency: string)
    requires Pay.Inv(w) && Linked(w.b.ledger)
    ensures Pay.Allowed(w, Pay.PlaceOrder(user, total, currency))
    ensures var after := Pay.Next(w, Pay.PlaceOrder(user, total, currency));
            && Pay.Inv(after)
            && after.b.ledger.orders == w.b.ledger.orders + [Order(user, total, currency, PaymentPending)]
  {
    Pay.StepKeepsInv(w, Pay.PlaceOrder(user, total, currency));
  }

  lemma {:induction false} RunKeepsInv(w: World, steps: seq<Step>)
    requires Inv(w) && AllowedRun(w, steps)
    ensures Inv(Run(w, steps))
    decreases |steps|
  {
    hide Inv, Linked;
    if steps != [] {
      StepKeepsInv(w, steps[0]);
      RunKeepsInv(Next(w, steps[0]), steps[1..]);
    }
  }

  /** The place of `Linked` in `AllowedRun` rules out no step of any run. */
  lemma {:induction false} RunsExtend(w: World, steps: seq<Step>, s: Step)
    requires Inv(w) && AllowedRun(w, steps)
    ensures AllowedRun(w, steps + [s]) <==> Allowed(Run(w, steps), s)
    decreases |steps|
  {
    hide Linked, Next, Allowed;
    ConsistentIsLinked(w.pay.b.ledger);
    if steps == [] {
      assert ([] + [s])[0] == s && ([] + [s])[1..] == [];
    } else {
      StepKeepsInv(w, steps[0]);
      assert (steps + [s])[1..] == steps[1..] + [s];
      RunsExtend(Next(w, steps[0]), steps[1..], s);
    }
  }

  // ------------------------------------------------------------------------------------------
  // What an order costs, from its items alone

  predicate IsUnder(i: OrderItem, vendorOrders: seq<VendorOrder>, m: nat) {
    i.vendorOrder < |vendorOrders| && vendorOrders[i.vendorOrder].master == m
  }

  /** Price times quantity of an item, if its vendor order belongs to this master order. */
  function GoodsOf(vendorOrders: seq<VendorOrder>, m: nat): OrderItem -> int {
    (i: OrderItem) => if IsUnder(i, vendorOrders, m) then i.unitPrice * i.quantity else 0
  }

  lemma {:induction false} SumPlus<T>(rows: seq<T>, f: T -> int, g: T -> int, h: T -> int)
    requires forall i :: 0 <= i < |rows| ==> h(rows[i]) == f(rows[i]) + g(rows[i])
    ensures Sum(rows, h) == Sum(rows, f) + Sum(rows, g)
  {
    if rows != [] {
      SumPlus(rows[..|rows| - 1], f, g, h);
    }
  }

  /** Adding up the vendor orders of a master order adds up the items below them. */
  lemma {:induction false} VendorTotalsAreGoods(vendorOrders: seq<VendorOrder>, items: seq<OrderItem>, m: nat)
    requires forall i :: 0 <= i < |items| ==> items[i].total == items[i].unitPrice * items[i].quantity
    requires forall w :: 0 <= w < |vendorOrders| ==> vendorOrders[w].subtotal == Sum(items, ItemMoneyOf(w))
    ensures Sum(vendorOrders, VendorMoneyOf(m)) == Sum(items, GoodsOf(vendorOrders, m))
  {
    if vendorOrders == [] {
      SumZero(items, GoodsOf(vendorOrders, m));
    } else {
      var last := |vendorOrders| - 1;
      VendorTotalsAreGoods(vendorOrders[..last], items, m);
      if vendorOrders[last].master == m {
        SumPlus(items, GoodsOf(vendorOrders[..last], m), ItemMoneyOf(last), GoodsOf(vendorOrders, m));
      } else {
        SumAlike(items, GoodsOf(vendorOrders[..last], m), items, GoodsOf(vendorOrders, m));
      }
    }
  }

  lemma OrderTotalIsGoods(t: Tables, m: nat)
    requires MoneyOk(t.orders, t.vendorOrders, t.items) && m < |t.orders|
    ensures t.orders[m].total == Sum(t.items, GoodsOf(t.vendorOrders, m))
  {
    VendorTotalsAreGoods(t.vendorOrders, t.items, m);
  }

  /** The items of a master order are priced in its currency. */
  lemma GoodsShareCurrency(t: Tables, m: nat)
    requires MoneyOk(t.orders, t.vendorOrders, t.items) && m < |t.orders|
    ensures forall i :: 0 <= i < |t.items| && IsUnder(t.items[i], t.vendorOrders, m) ==>
              t.items[i].currency == t.orders[m].currency
  {
  }

  /** The payment's order, owner, amount, currency and collected money are those of the goods ordered. */
  ghost predicate IsForTheGoods(t: Tables, l: Ledger, p: nat)
    requires p < |l.payments|
  {
    var m := l.payments[p].order;
    && m < |t.orders| == |l.orders| && l.orders[m].user == t.orders[m].user
    && var price := Sum(t.items, GoodsOf(t.vendorOrders, m));
    && l.payments[p].amount == price
    && (forall i :: 0 <= i < |t.items| && IsUnder(t.items[i], t.vendorOrders, m) ==>
          t.items[i].currency == l.payments[p].currency)
    && (l.payments[p].paid == 0 || l.payments[p].paid == price)
    && (forall q :: 0 <= q < |l.payments| && q != p ==> l.payments[q].order != m)
  }

  lemma NothingToCompare()
    ensures SameOrders([], [])
  {
  }

  lemma ConsistentIsForTheGoods(t: Tables, l: Ledger, p: nat)
    requires MoneyOk(t.orders, t.vendorOrders, t.items) && LedgerOk(l) && SameOrders(t.orders, l.orders)
    requires p < |l.payments|
    ensures IsForTheGoods(t, l, p)
  {
    hide MoneyOk, IsUnder, GoodsOf, Sum, SettledOf, DerivedStatus;
    assert PaymentOk(l, p);
    OrderTotalIsGoods(t, l.payments[p].order);
    GoodsShareCurrency(t, l.payments[p].order);
  }

  /**
   * Money is conserved from the cart to the ledger. In every reachable state each payment belongs to a placed order,
   * asks for exactly the price of that order's goods, in the currency of each of them, and has collected either nothing
   * or exactly that. No two payments share an order.
   */
  lemma PaymentsAreForTheGoods(steps: seq<Step>, p: nat)
    requires AllowedRun(INITIAL, steps) && p < |Run(INITIAL, steps).pay.b.ledger.payments|
    ensures IsForTheGoods(Run(INITIAL, steps).shop.t, Run(INITIAL, steps).pay.b.ledger, p)
  {
    hide IsForTheGoods, LedgerOk, MoneyOk, SameOrders, Shop.Inv, Pay.Inv, Run;
    Shop.InitialInv();
    Pay.InitialInv();
    assert SameOrders(INITIAL.shop.t.orders, INITIAL.pay.b.ledger.orders) by { NothingToCompare(); }
    RunKeepsInv(INITIAL, steps);
    Shop.MoneyAddsUp(Run(INITIAL, steps).shop);
    Pay.InvIsLedgerOk(Run(INITIAL, steps).pay);
    ConsistentIsForTheGoods(Run(INITIAL, steps).shop.t, Run(INITIAL, steps).pay.b.ledger, p);
  }
}
