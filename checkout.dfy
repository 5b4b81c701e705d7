/**
 * The checkout loop of the order handler as a specification: the cart's lines are taken in
 * order; each is checked against the product's current stock (which earlier lines of the
 * same checkout may already have lowered), the stock is lowered, and a snapshot order line is
 * recorded. The first line that asks for more than the stock holds stops the whole checkout.
 */
module OrderCheckout {
  import opened Outcomes
  import opened Models
  import opened CartOps

  /** The uncommitted catalog and the order lines built so far. */
  datatype Progress = Progress(products: map<Id, Product>, items: seq<OrderItem>)

  /** One pass of the loop body: the stock check, the decrement and the snapshot. */
  function Step(pr: Progress, line: CartItem): (r: Result<Progress>)
    requires line.productId in pr.products
  {
    var p := pr.products[line.productId];
    if p.stock < line.quantity then Err(NotEnoughStock(p.name))
    else Ok(Progress(pr.products[line.productId := p.(stock := p.stock - line.quantity)],
                     pr.items + [OrderItem(line.productId, line.quantity, p.price)]))
  }

  /** The outcome of running the loop over all of `lines`, starting from `products`. */
  function Checkout(products: map<Id, Product>, lines: seq<CartItem>): (r: Result<Progress>)
    requires References(products, lines)
    ensures r.Ok? ==> r.value.products.Keys == products.Keys && |r.value.items| == |lines|
    ensures r.Err? ==> r.error.NotEnoughStock?
    decreases |lines|
  {
    if lines == [] then Ok(Progress(products, []))
    else
      match Checkout(products, lines[..|lines| - 1])
      case Err(e) => Err(e)
      case Ok(pr) => Step(pr, lines[|lines| - 1])
  }

  /**
   * The loop itself: each line in turn is checked against the uncommitted stock, the stock is
   * lowered and the line snapshotted, while the order total is accumulated. The catalog passed
   * in is not touched; the caller commits the result.
   */
  method CheckoutLines(products: map<Id, Product>, lines: seq<CartItem>) returns (r: Result<Progress>, total: int)
    requires References(products, lines)
    ensures r == Checkout(products, lines)
    ensures r.Ok? ==> total == OrderTotal(r.value.items)
  {
    var stock: map<Id, Product> := products;
    var items: seq<OrderItem> := [];
    total := 0;
    for i := 0 to |lines|
      invariant Checkout(products, lines[..i]) == Ok(Progress(stock, items))
      invariant total == OrderTotal(items)
    {
      var line := lines[i];
      var p := stock[line.productId];
      CheckoutExtends(products, lines, i);
      if p.stock < line.quantity {
        CheckoutStopsAtShortfall(products, lines, i + 1);
        return Err(NotEnoughStock(p.name)), total;
      }
      var snapshot := OrderItem(line.productId, line.quantity, p.price);
      OrderTotalAppend(items, snapshot);
      stock := stock[line.productId := p.(stock := p.stock - line.quantity)];
      total := total + p.price * line.quantity;
      items := items + [snapshot];
    }
    assert lines[..|lines|] == lines;
    r := Ok(Progress(stock, items));
  }

  /** Running one more line is one more step. */
  lemma CheckoutExtends(products: map<Id, Product>, lines: seq<CartItem>, i: nat)
    requires References(products, lines) && i < |lines|
    requires Checkout(products, lines[..i]).Ok?
    ensures lines[i].productId in Checkout(products, lines[..i]).value.products
    ensures Checkout(products, lines[..i + 1]) == Step(Checkout(products, lines[..i]).value, lines[i])
  {
    assert lines[..i + 1][..i] == lines[..i];
  }

  /** The stock a line is checked against: the product's stock less what earlier lines took. */
  function StockBefore(products: map<Id, Product>, lines: seq<CartItem>, k: nat): int
    requires References(products, lines) && k < |lines|
  {
    products[lines[k].productId].stock - QtyOf(lines[..k], lines[k].productId)
  }

  predicate Shortfall(products: map<Id, Product>, lines: seq<CartItem>, k: nat)
    requires References(products, lines) && k < |lines|
  {
    StockBefore(products, lines, k) < lines[k].quantity
  }

  /** A successful checkout lowers each product's stock by exactly the units its lines take,
      changes nothing else about any product, and snapshots every line with the price the
      product had when the checkout began. */
  lemma {:induction false} CheckoutEffect(products: map<Id, Product>, lines: seq<CartItem>)
    requires References(products, lines) && Checkout(products, lines).Ok?
    ensures var pr := Checkout(products, lines).value;
      && (forall id :: id in products ==> pr.products[id] == products[id].(stock := products[id].stock - QtyOf(lines, id)))
      && |pr.items| == |lines|
      && (forall k :: 0 <= k < |lines| ==>
            pr.items[k] == OrderItem(lines[k].productId, lines[k].quantity, products[lines[k].productId].price))
    decreases |lines|
  {
    if lines != [] {
      var n := |lines| - 1;
      var prefix := lines[..n];
      CheckoutEffect(products, prefix);
      var pr0 := Checkout(products, prefix).value;
      var pr := Checkout(products, lines).value;
      assert pr == Step(pr0, lines[n]).value;
      forall id | id in products
        ensures pr.products[id] == products[id].(stock := products[id].stock - QtyOf(lines, id))
      {
        assert QtyOf(lines, id) == QtyOf(prefix, id) + (if lines[n].productId == id then lines[n].quantity else 0);
      }
      forall k | 0 <= k < |lines|
        ensures pr.items[k] == OrderItem(lines[k].productId, lines[k].quantity, products[lines[k].productId].price)
      {
        if k < n {
          assert pr.items[k] == pr0.items[k] && lines[k] == prefix[k];
        }
      }
    }
  }

  /** The checkout succeeds exactly when no line asks for more than is left of its product once
      the earlier lines have been served. */
  lemma {:induction false} CheckoutSucceedsIff(products: map<Id, Product>, lines: seq<CartItem>)
    requires References(products, lines)
    ensures Checkout(products, lines).Ok? <==> forall k :: 0 <= k < |lines| ==> !Shortfall(products, lines, k)
    decreases |lines|
  {
    if lines != [] {
      var n := |lines| - 1;
      var prefix := lines[..n];
      CheckoutSucceedsIff(products, prefix);
      forall k | 0 <= k < n ensures Shortfall(products, lines, k) == Shortfall(products, prefix, k) {
        assert lines[..k] == prefix[..k];
      }
      if Checkout(products, prefix).Ok? {
        CheckoutEffect(products, prefix);
        assert Checkout(products, prefix).value.products[lines[n].productId].stock == StockBefore(products, lines, n);
        assert Checkout(products, lines).Ok? <==> !Shortfall(products, lines, n);
      }
    }
  }

  /** A checkout whose first short line is line k fails with an error naming that line's product. */
  lemma {:induction false} CheckoutErrorNamesFirstShortfall(products: map<Id, Product>, lines: seq<CartItem>, k: nat)
    requires References(products, lines) && k < |lines|
    requires Shortfall(products, lines, k)
    requires forall j :: 0 <= j < k ==> !Shortfall(products, lines, j)
    ensures Checkout(products, lines) == Err(NotEnoughStock(products[lines[k].productId].name))
  {
    var prefix := lines[..k];
    forall j | 0 <= j < k ensures !Shortfall(products, prefix, j) {
      assert prefix[..j] == lines[..j];
      assert !Shortfall(products, lines, j);
    }
    CheckoutSucceedsIff(products, prefix);
    CheckoutEffect(products, prefix);
    var pr0 := Checkout(products, prefix).value;
    assert lines[..k + 1][..k] == prefix;
    assert pr0.products[lines[k].productId].stock == StockBefore(products, lines, k);
    assert Checkout(products, lines[..k + 1]) == Step(pr0, lines[k]);
    CheckoutStopsAtShortfall(products, lines, k + 1);
  }

  /** Once a prefix of the lines fails, the whole checkout fails with the same error: nothing
      after the first shortfall is looked at. */
  lemma {:induction false} CheckoutStopsAtShortfall(products: map<Id, Product>, lines: seq<CartItem>, i: nat)
    requires References(products, lines) && i <= |lines|
    requires Checkout(products, lines[..i]).Err?
    ensures Checkout(products, lines) == Checkout(products, lines[..i])
    decreases |lines|
  {
    if i == |lines| {
      assert lines[..i] == lines;
    } else {
      var n := |lines| - 1;
      assert lines[..n][..i] == lines[..i];
      CheckoutStopsAtShortfall(products, lines[..n], i);
    }
  }

  /** The order total, summed over the snapshot lines, is the live quote of the cart at the
      moment of checkout. */
  lemma {:induction false} CheckoutTotalMatchesQuote(products: map<Id, Product>, lines: seq<CartItem>)
    requires References(products, lines) && Checkout(products, lines).Ok?
    ensures OrderTotal(Checkout(products, lines).value.items) == QuoteTotal(products, lines)
    decreases |lines|
  {
    if lines != [] {
      var n := |lines| - 1;
      var prefix := lines[..n];
      CheckoutTotalMatchesQuote(products, prefix);
      CheckoutEffect(products, prefix);
      var pr0 := Checkout(products, prefix).value;
      var items := Checkout(products, lines).value.items;
      assert items[..n] == pr0.items;
    }
  }

  /** Stock never goes negative: every product a successful checkout touched is left with a
      non-negative stock, and a catalog without negative stock keeps none. */
  lemma {:induction false} CheckoutKeepsStockNonNegative(products: map<Id, Product>, lines: seq<CartItem>)
    requires References(products, lines) && Checkout(products, lines).Ok?
    ensures forall k :: 0 <= k < |lines| ==> Checkout(products, lines).value.products[lines[k].productId].stock >= 0
    ensures forall id :: id in products && products[id].stock >= 0 ==> Checkout(products, lines).value.products[id].stock >= 0
    ensures StockNonNegative(products) ==> StockNonNegative(Checkout(products, lines).value.products)
    decreases |lines|
  {
    if lines != [] {
      var n := |lines| - 1;
      var prefix := lines[..n];
      CheckoutKeepsStockNonNegative(products, prefix);
      var pr0 := Checkout(products, prefix).value;
      var pr := Checkout(products, lines).value;
      forall k | 0 <= k < |lines| ensures pr.products[lines[k].productId].stock >= 0 {
        if k < n && lines[k].productId != lines[n].productId {
          assert prefix[k] == lines[k];
        }
      }
      forall id | id in products && products[id].stock >= 0 ensures pr.products[id].stock >= 0 {
        if id != lines[n].productId {
          assert pr.products[id] == pr0.products[id];
        }
      }
    }
  }

  /** For a merged cart (one line per product), a line is checked against its product's full
      stock, and the line's quantity is all its product loses. */
  lemma {:induction false} MergedCartQuantities(lines: seq<CartItem>)
    requires OneLinePerProduct(lines)
    ensures forall k :: 0 <= k < |lines| ==>
      QtyOf(lines[..k], lines[k].productId) == 0 && QtyOf(lines, lines[k].productId) == lines[k].quantity
  {
    forall k | 0 <= k < |lines|
      ensures QtyOf(lines[..k], lines[k].productId) == 0 && QtyOf(lines, lines[k].productId) == lines[k].quantity
    {
      QtyOfSingleLine(lines, k);
    }
  }

  /** For a merged cart, the checkout succeeds exactly when every line's quantity is within its
      product's stock. */
  lemma {:induction false} CheckoutMergedCartSucceedsIff(products: map<Id, Product>, lines: seq<CartItem>)
    requires References(products, lines) && OneLinePerProduct(lines)
    ensures Checkout(products, lines).Ok? <==>
      forall k :: 0 <= k < |lines| ==> lines[k].quantity <= products[lines[k].productId].stock
  {
    CheckoutSucceedsIff(products, lines);
    forall k | 0 <= k < |lines|
      ensures Shortfall(products, lines, k) <==> lines[k].quantity > products[lines[k].productId].stock
    {
      QtyOfSingleLine(lines, k);
    }
  }

  /** For a merged cart, a successful checkout lowers each product in the cart by exactly its
      line's quantity and leaves every other product as it was. */
  lemma {:induction false} CheckoutMergedCartEffect(products: map<Id, Product>, lines: seq<CartItem>)
    requires References(products, lines) && OneLinePerProduct(lines) && Checkout(products, lines).Ok?
    ensures var after := Checkout(products, lines).value.products;
      && (forall k :: 0 <= k < |lines| ==>
            after[lines[k].productId].stock == products[lines[k].productId].stock - lines[k].quantity)
      && (forall id :: id in products && id !in ProductsOf(lines) ==> after[id] == products[id])
  {
    CheckoutEffect(products, lines);
    MergedCartQuantities(lines);
    forall id | id in products && id !in ProductsOf(lines) ensures QtyOf(lines, id) == 0 {
      QtyOfAbsent(lines, id);
    }
  }

  /** With positive quantities (which the store's add-to-cart guarantees), a checkout can only
      lower stock, and lowers it for every product in the cart. */
  lemma {:induction false} CheckoutOnlyLowersStock(products: map<Id, Product>, lines: seq<CartItem>)
    requires References(products, lines) && Checkout(products, lines).Ok?
    requires forall k :: 0 <= k < |lines| ==> lines[k].quantity > 0
    ensures var after := Checkout(products, lines).value.products;
      forall id :: id in products ==>
        after[id].stock <= products[id].stock && (id in ProductsOf(lines) ==> after[id].stock < products[id].stock)
  {
    CheckoutEffect(products, lines);
    forall id | id in products ensures QtyOf(lines, id) >= 0 && (id in ProductsOf(lines) ==> QtyOf(lines, id) > 0) {
      QtyOfPositive(lines, id);
    }
  }

  /** As written, a line with a negative quantity reaches checkout and is "sold" by raising the
      product's stock, for a negative order total. */
  lemma NegativeQuantityRestocks()
    ensures AddLine([], 1, 7, -3, 1).0 == [CartItem(1, 1, 7, -3)]
    ensures Checkout(map[7 := Product(7, "lamp", 1000, 0)], [CartItem(1, 1, 7, -3)])
            == Ok(Progress(map[7 := Product(7, "lamp", 1000, 3)], [OrderItem(7, -3, 1000)]))
    ensures OrderTotal([OrderItem(7, -3, 1000)]) == -3000
  {
    var lines := [CartItem(1, 1, 7, -3)];
    var products := map[7 := Product(7, "lamp", 1000, 0)];
    assert AddLine([], 1, 7, -3, 1).0 == lines;
    assert lines[..0] == [];
    assert Checkout(products, []) == Ok(Progress(products, []));
    assert Checkout(products, lines) == Step(Progress(products, []), lines[0]);
    assert products[7 := Product(7, "lamp", 1000, 3)] == map[7 := Product(7, "lamp", 1000, 3)];
    assert [] + [OrderItem(7, -3, 1000)] == [OrderItem(7, -3, 1000)];
    assert products[7].(stock := 0 - -3) == Product(7, "lamp", 1000, 3);
    assert [OrderItem(7, -3, 1000)][..0] == [];
  }
}
