/**
 * The shop's store and its three cart and order handlers: add an item to the user's cart,
 * view the cart priced at current prices, and turn the cart into an order.
 *
 * Each handler works on the store's tables in place. A handler that fails before its commit
 * leaves every table as it was; the checkout works on an uncommitted copy of the catalog and
 * writes it back at its single commit.
 */
module Shop {
  import opened Outcomes
  import opened Models
  import opened CartOps
  import opened OrderCheckout

  /** One line of the cart view. */
  datatype LineView = LineView(itemId: Id, productId: Id, productName: string, quantity: int,
                               pricePerUnit: int, itemTotal: int)

  /** The cart view: id 0, no lines and total 0 stand for "no open cart". */
  datatype CartView = CartView(id: Id, lines: seq<LineView>, totalPrice: int)

  /** A cart line priced at the product's current price: unit price times quantity. */
  function PriceLine(p: Product, item: CartItem): LineView
  {
    LineView(item.id, p.id, p.name, item.quantity, p.price, p.price * item.quantity)
  }

  function SumItemTotals(lines: seq<LineView>): int
  {
    if lines == [] then 0 else SumItemTotals(lines[..|lines| - 1]) + lines[|lines| - 1].itemTotal
  }

  lemma SumItemTotalsAppend(lines: seq<LineView>, line: LineView)
    ensures SumItemTotals(lines + [line]) == SumItemTotals(lines) + line.itemTotal
  {
    assert (lines + [line])[..|lines|] == lines;
  }

  /** Closing one cart, with the catalog replaced by one over the same product ids, keeps the
      carts' ids, their well-formedness and at most one open cart per user. */
  lemma CloseCartKeepsCarts(carts: seq<Cart>, c: nat, products: map<Id, Product>, after: map<Id, Product>, nextItemId: Id)
    requires c < |carts| && after.Keys == products.Keys
    requires DenseCartIds(carts) && OneOpenCartPerUser(carts)
    requires forall i :: 0 <= i < |carts| ==> CartWellFormed(carts[i], products, nextItemId)
    ensures var closed := carts[c := carts[c].(isOpen := false)];
      && DenseCartIds(closed) && OneOpenCartPerUser(closed)
      && forall i :: 0 <= i < |closed| ==> CartWellFormed(closed[i], after, nextItemId)
  {
    var closed := carts[c := carts[c].(isOpen := false)];
    forall i | 0 <= i < |closed| ensures CartWellFormed(closed[i], after, nextItemId) {
      assert CartWellFormed(carts[i], products, nextItemId);
      assert closed[i].items == carts[i].items && closed[i].id == carts[i].id;
    }
    forall i, j | 0 <= i < |closed| && 0 <= j < |closed| && closed[i].isOpen && closed[j].isOpen && closed[i].userId == closed[j].userId
      ensures i == j
    {
      assert carts[i].isOpen && carts[j].isOpen && carts[i].userId == carts[j].userId;
    }
  }

  /** Appending an order whose total is the sum of its lines, under the next id, keeps the orders consistent. */
  lemma OrderTotalAppendKeepsOrders(orders: seq<Order>, order: Order)
    requires OrdersConsistent(orders)
    requires order.id == |orders| + 1 && order.totalAmount == OrderTotal(order.items)
    ensures OrdersConsistent(orders + [order])
  {
  }

  class Store {
    var products: map<Id, Product>
    var carts: seq<Cart>
    var orders: seq<Order>
    var nextItemId: Id

    /** The constraints the tables keep between requests. */
    ghost predicate Valid()
      reads this
    {
      && CatalogKeyed(products)
      && DenseCartIds(carts)
      && OneOpenCartPerUser(carts)
      && (forall i :: 0 <= i < |carts| ==> CartWellFormed(carts[i], products, nextItemId))
      && OrdersConsistent(orders)
    }

    /** A store over a catalog, with no carts and no orders yet. */
    constructor (catalog: map<Id, Product>)
      requires CatalogKeyed(catalog)
      ensures Valid()
      ensures products == catalog && carts == [] && orders == [] && nextItemId == 1
    {
      products := catalog;
      carts := [];
      orders := [];
      nextItemId := 1;
    }

    /**
     * Adds `quantity` units of a product to the user's open cart, creating the cart when the
     * user has none, and returns the line that now holds the product.
     */
    method AddToCart(userId: Id, productId: Id, quantity: int) returns (r: Result<CartItem>)
      requires Valid()
      modifies this
      ensures Valid()
      ensures quantity <= 0 ==> r == Err(InvalidQuantity) && unchanged(this)
      ensures quantity > 0 && productId !in old(products) ==> r == Err(ProductNotFound) && unchanged(this)
      ensures quantity > 0 && productId in old(products) ==>
        var (cs, k) := OpenOrCreateCart(old(carts), userId);
        var (items, line) := AddLine(cs[k].items, cs[k].id, productId, quantity, old(nextItemId));
        && r == Ok(line)
        && carts == cs[k := cs[k].(items := items)]
        && nextItemId == old(nextItemId) + |items| - |cs[k].items|
        && products == old(products) && orders == old(orders)
    {
      if quantity <= 0 {
        return Err(InvalidQuantity);
      }
      if productId !in products {
        return Err(ProductNotFound);
      }
      var (cs, k) := OpenOrCreateCart(carts, userId);
      var cart := cs[k];
      var (items, line) := AddLine(cart.items, cart.id, productId, quantity, nextItemId);
      AddLineKeepsCartWellFormed(cart, products, nextItemId, productId, quantity);
      carts := cs[k := cart.(items := items)];
      nextItemId := nextItemId + |items| - |cart.items|;
      r := Ok(line);
    }

    /**
     * The user's open cart priced at current catalog prices; a user without an open cart gets
     * the empty view with id 0. Reads the store and changes nothing.
     */
    method ViewCart(userId: Id) returns (v: CartView)
      requires Valid()
      ensures OpenCart(carts, userId).None? ==> v == CartView(0, [], 0)
      ensures OpenCart(carts, userId).Some? ==>
        var cart := carts[OpenCart(carts, userId).value];
        && v.id == cart.id
        && |v.lines| == |cart.items|
        && (forall j :: 0 <= j < |cart.items| ==> v.lines[j] == PriceLine(products[cart.items[j].productId], cart.items[j]))
        && v.totalPrice == QuoteTotal(products, cart.items)
      ensures v.totalPrice == SumItemTotals(v.lines)
    {
      var found := OpenCart(carts, userId);
      if found.None? {
        return CartView(0, [], 0);
      }
      var cart := carts[found.value];
      var items := cart.items;
      assert References(products, items) by {
        assert CartWellFormed(cart, products, nextItemId);
      }
      var lines: seq<LineView> := [];
      var total := 0;
      for j := 0 to |items|
        invariant |lines| == j
        invariant forall i :: 0 <= i < j ==> lines[i] == PriceLine(products[items[i].productId], items[i])
        invariant total == QuoteTotal(products, items[..j])
        invariant total == SumItemTotals(lines)
      {
        var item := items[j];
        var line := PriceLine(products[item.productId], item);
        QuoteTotalStep(products, items, j);
        SumItemTotalsAppend(lines, line);
        total := total + line.itemTotal;
        lines := lines + [line];
      }
      assert items[..|items|] == items;
      v := CartView(cart.id, lines, total);
    }

    /**
     * Checks out the user's open cart: every line is checked against stock and the stock
     * lowered, each line is snapshotted with the current price, and the order is stored with
     * the cart closed, all at one commit. An empty or missing cart, or a line short of stock,
     * leaves the store exactly as it was.
     */
    method CreateOrder(userId: Id) returns (r: Result<Order>)
      requires Valid()
      modifies this
      ensures Valid()
      ensures var found := OpenCart(old(carts), userId);
        if found.None? || old(carts)[found.value].items == [] then
          r == Err(CartEmpty) && unchanged(this)
        else
          var cart := old(carts)[found.value];
          match Checkout(old(products), cart.items)
          case Err(e) => r == Err(e) && unchanged(this)
          case Ok(pr) =>
            && r == Ok(Order(|old(orders)| + 1, userId, OrderTotal(pr.items), pr.items))
            && r.value.totalAmount == QuoteTotal(old(products), cart.items)
            && products == pr.products
            && orders == old(orders) + [r.value]
            && carts == old(carts)[found.value := cart.(isOpen := false)]
            && nextItemId == old(nextItemId)
      ensures forall id :: id in old(products) && old(products)[id].stock >= 0 ==> products[id].stock >= 0
    {
      var found := OpenCart(carts, userId);
      if found.None? || carts[found.value].items == [] {
        return Err(CartEmpty);
      }
      var c := found.value;
      var lines := carts[c].items;
      assert CartWellFormed(carts[c], products, nextItemId);
      var outcome, total := CheckoutLines(products, lines);
      if outcome.Err? {
        return Err(outcome.error);
      }
      var pr := outcome.value;
      CheckoutEffect(products, lines);
      CheckoutKeepsStockNonNegative(products, lines);
      CheckoutTotalMatchesQuote(products, lines);
      CloseCartKeepsCarts(carts, c, products, pr.products, nextItemId);
      OrderTotalAppendKeepsOrders(orders, Order(|orders| + 1, userId, total, pr.items));
      var order := Order(|orders| + 1, userId, total, pr.items);
      products := pr.products;
      orders := orders + [order];
      carts := carts[c := carts[c].(isOpen := false)];
      r := Ok(order);
    }
  }
}
