/** The tables of the shop database that checkout, inventory, carts and fulfilment share. */
module Store {
  import opened Common
  import opened MasterOrderStatus

  // A row's id is its index in its table, so ids are fresh by construction and rows are never renumbered.

  datatype AccountStatus = AccountPending | AccountActive | AccountSuspended | AccountFrozen | AccountRejected
  datatype Verification = Unverified | UnderReview | Verified | VerificationRejected
  datatype Vendor = Vendor(user: nat, status: AccountStatus, verification: Verification)

  datatype ListingStatus = Draft | Listed | Unlisted | Archived
  datatype Product = Product(vendor: nat, status: ListingStatus)
  datatype Variant = Variant(product: nat, price: int, currency: string, status: ListingStatus, isDefault: bool)

  datatype Inventory = Inventory(onHand: int, reserved: int)
  datatype MovementKind = Restock | Adjustment | Reservation
  datatype Movement = Movement(variant: nat, kind: MovementKind, quantity: int, orderItem: Option<nat>)

  datatype CartStatus = CartActive | CartConverted | CartAbandoned | CartExpired
  datatype CartItem = CartItem(id: nat, variant: nat, quantity: int, price: int, currency: string)
  datatype Cart = Cart(user: nat, status: CartStatus, currency: string, items: seq<CartItem>)

  /** A status-history row. */
  datatype Change<S> = Change(from: Option<S>, to: S, actor: nat)

  datatype MasterOrder = MasterOrder(user: nat, status: OrderStatus, currency: string, subtotal: int, total: int,
                                     history: seq<Change<OrderStatus>>)
  datatype VendorOrder = VendorOrder(master: nat, vendor: nat, status: VendorStatus, subtotal: int, total: int,
                                     history: seq<Change<VendorStatus>>)
  datatype OrderItem = OrderItem(vendorOrder: nat, product: nat, variant: nat, unitPrice: int, quantity: int,
                                 total: int, currency: string)

  datatype Tables = Tables(
    vendors: seq<Vendor>,
    products: seq<Product>,
    variants: seq<Variant>,
    inventories: map<nat, Inventory>,  // keyed by the (unique) variant id
    movements: seq<Movement>,
    carts: seq<Cart>,
    nextCartItem: nat,
    orders: seq<MasterOrder>,
    vendorOrders: seq<VendorOrder>,
    items: seq<OrderItem>)

  const EMPTY := Tables([], [], [], map[], [], [], 0, [], [], [])

  datatype Error =
    | NotFound | Forbidden | BadRequest | Conflict
    | EmptyCart | InvalidItem | CurrencyMismatch | InsufficientStock | CartNoLongerActive | OrderNumberCollision

  datatype Outcome = Done | Failed(error: Error)

  /** The mutable database the services write to. */
  class Database {
    var vendors: seq<Vendor>
    var products: seq<Product>
    var variants: seq<Variant>
    var inventories: map<nat, Inventory>
    var movements: seq<Movement>
    var carts: seq<Cart>
    var nextCartItem: nat
    var orders: seq<MasterOrder>
    var vendorOrders: seq<VendorOrder>
    var items: seq<OrderItem>

    constructor ()
      ensures Now() == EMPTY
    {
      vendors, products, variants := [], [], [];
      inventories, movements := map[], [];
      carts, nextCartItem := [], 0;
      orders, vendorOrders, items := [], [], [];
    }

    function Now(): Tables
      reads this
    {
      Tables(vendors, products, variants, inventories, movements, carts, nextCartItem, orders, vendorOrders, items)
    }

    /** A throw inside a transaction restores the state the transaction started from. */
    method Rollback(start: Tables)
      modifies this
      ensures Now() == start
    {
      vendors, products, variants := start.vendors, start.products, start.variants;
      inventories, movements := start.inventories, start.movements;
      carts, nextCartItem := start.carts, start.nextCartItem;
      orders, vendorOrders, items := start.orders, start.vendorOrders, start.items;
    }
  }
}
