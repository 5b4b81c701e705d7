/**
 * The records of the shop's relational store and the constraints their columns declare.
 * Prices and totals are whole numbers of cents, so sums are exact.
 */
module Models {

  type Id = nat

  datatype Product = Product(id: Id, name: string, price: int, stock: int)

  /** A cart line; `cartId` is the foreign key to the cart that holds it. */
  datatype CartItem = CartItem(id: Id, cartId: Id, productId: Id, quantity: int)

  /** A cart owns its lines: they live and die with it. */
  datatype Cart = Cart(id: Id, userId: Id, isOpen: bool, items: seq<CartItem>)

  /** A line of an order: its own copy of quantity and unit price, not a link to the product. */
  datatype OrderItem = OrderItem(productId: Id, quantity: int, price: int)

  datatype Order = Order(id: Id, userId: Id, totalAmount: int, items: seq<OrderItem>)

  /** The amount an order's lines add up to: unit price times quantity, summed. */
  function OrderTotal(items: seq<OrderItem>): int
  {
    if items == [] then 0
    else OrderTotal(items[..|items| - 1]) + items[|items| - 1].price * items[|items| - 1].quantity
  }

  lemma OrderTotalAppend(items: seq<OrderItem>, item: OrderItem)
    ensures OrderTotal(items + [item]) == OrderTotal(items) + item.price * item.quantity
  {
    assert (items + [item])[..|items|] == items;
  }

  /** Every product is stored under its own id. */
  predicate CatalogKeyed(products: map<Id, Product>)
  {
    forall id :: id in products ==> products[id].id == id
  }

  predicate StockNonNegative(products: map<Id, Product>)
  {
    forall id :: id in products ==> products[id].stock >= 0
  }

  /** Foreign key: every line names a product that exists. */
  predicate References(products: map<Id, Product>, items: seq<CartItem>)
  {
    forall k :: 0 <= k < |items| ==> items[k].productId in products
  }

  /** Merge-on-add: no two lines of one cart name the same product. */
  predicate OneLinePerProduct(items: seq<CartItem>)
  {
    forall i, j :: 0 <= i < j < |items| ==> items[i].productId != items[j].productId
  }

  predicate OwnsOpen(cart: Cart, user: Id)
  {
    cart.userId == user && cart.isOpen
  }

  /** The unique constraint on `Cart.user_id`, as declared: one cart row per user, open or closed. */
  predicate UniqueCartOwners(carts: seq<Cart>)
  {
    forall i, j :: 0 <= i < |carts| && 0 <= j < |carts| && carts[i].userId == carts[j].userId ==> i == j
  }

  /** The rule the column's comment states: at most one OPEN cart per user. */
  predicate OneOpenCartPerUser(carts: seq<Cart>)
  {
    forall i, j :: 0 <= i < |carts| && 0 <= j < |carts| && carts[i].isOpen && carts[j].isOpen && carts[i].userId == carts[j].userId ==> i == j
  }

  /** Cart ids are handed out in insertion order, starting at 1. */
  predicate DenseCartIds(carts: seq<Cart>)
  {
    forall i :: 0 <= i < |carts| ==> carts[i].id == i + 1
  }

  /** A cart's lines belong to it, name existing products, carry a positive quantity,
      have ids below the next free line id, and are merged per product. */
  predicate CartWellFormed(cart: Cart, products: map<Id, Product>, nextItemId: Id)
  {
    && References(products, cart.items)
    && OneLinePerProduct(cart.items)
    && forall k :: 0 <= k < |cart.items| ==>
         cart.items[k].cartId == cart.id && cart.items[k].quantity > 0 && cart.items[k].id < nextItemId
  }

  /** Orders are numbered in insertion order and each total is the sum of its own lines. */
  predicate OrdersConsistent(orders: seq<Order>)
  {
    forall i :: 0 <= i < |orders| ==> orders[i].id == i + 1 && orders[i].totalAmount == OrderTotal(orders[i].items)
  }
}
