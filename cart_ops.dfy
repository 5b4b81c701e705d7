/**
 * The cart-side logic of the add-to-cart and view-cart handlers: finding the user's open
 * cart, creating one when there is none, merging a requested quantity into the cart's lines,
 * and pricing the lines at the catalog's current prices.
 */
module CartOps {
  import opened Outcomes
  import opened Models

  /** The query for the user's open cart: the first cart row owned by `user` that is open. */
  function OpenCart(carts: seq<Cart>, user: Id): (r: Option<nat>)
    ensures r.Some? ==> r.value < |carts| && OwnsOpen(carts[r.value], user)
    ensures r.Some? ==> forall i :: 0 <= i < r.value ==> !OwnsOpen(carts[i], user)
    ensures r.None? ==> forall i :: 0 <= i < |carts| ==> !OwnsOpen(carts[i], user)
    decreases |carts|
  {
    if carts == [] then None
    else
      match OpenCart(carts[..|carts| - 1], user)
      case Some(k) => Some(k)
      case None => if OwnsOpen(carts[|carts| - 1], user) then Some(|carts| - 1) else None
  }

  /** The query for the cart line that holds `productId`: the first such line. */
  function FindLine(items: seq<CartItem>, productId: Id): (r: Option<nat>)
    ensures r.Some? ==> r.value < |items| && items[r.value].productId == productId
    ensures r.Some? ==> forall i :: 0 <= i < r.value ==> items[i].productId != productId
    ensures r.None? ==> forall i :: 0 <= i < |items| ==> items[i].productId != productId
    decreases |items|
  {
    if items == [] then None
    else
      match FindLine(items[..|items| - 1], productId)
      case Some(k) => Some(k)
      case None => if items[|items| - 1].productId == productId then Some(|items| - 1) else None
  }

  /** How many units of `productId` the lines hold in all. */
  function QtyOf(items: seq<CartItem>, productId: Id): int
  {
    if items == [] then 0
    else QtyOf(items[..|items| - 1], productId)
         + (if items[|items| - 1].productId == productId then items[|items| - 1].quantity else 0)
  }

  /** The set of products the lines name. */
  function ProductsOf(items: seq<CartItem>): set<Id>
  {
    set k | 0 <= k < |items| :: items[k].productId
  }

  /** The live quote: every line priced at the product's current price, summed. */
  function QuoteTotal(products: map<Id, Product>, items: seq<CartItem>): int
    requires References(products, items)
  {
    if items == [] then 0
    else
      var last := items[|items| - 1];
      QuoteTotal(products, items[..|items| - 1]) + products[last.productId].price * last.quantity
  }

  /** The quote of one more line of the cart is the quote so far plus that line's price. */
  lemma QuoteTotalStep(products: map<Id, Product>, items: seq<CartItem>, j: nat)
    requires References(products, items) && j < |items|
    ensures References(products, items[..j]) && References(products, items[..j + 1])
    ensures QuoteTotal(products, items[..j + 1])
      == QuoteTotal(products, items[..j]) + products[items[j].productId].price * items[j].quantity
  {
    assert items[..j + 1][..j] == items[..j];
  }

  lemma {:induction false} QtyOfAppend(items: seq<CartItem>, line: CartItem, productId: Id)
    ensures QtyOf(items + [line], productId)
            == QtyOf(items, productId) + (if line.productId == productId then line.quantity else 0)
  {
    assert (items + [line])[..|items|] == items;
  }

  lemma {:induction false} QtyOfUpdate(items: seq<CartItem>, k: nat, line: CartItem, productId: Id)
    requires k < |items|
    ensures QtyOf(items[k := line], productId)
            == QtyOf(items, productId)
               - (if items[k].productId == productId then items[k].quantity else 0)
               + (if line.productId == productId then line.quantity else 0)
    decreases |items|
  {
    var n := |items| - 1;
    var updated := items[k := line];
    if k == n {
      assert updated[..n] == items[..n];
    } else {
      assert updated[..n] == items[..n][k := line];
      QtyOfUpdate(items[..n], k, line, productId);
    }
  }

  /** A product that no line names contributes nothing. */
  lemma {:induction false} QtyOfAbsent(items: seq<CartItem>, productId: Id)
    requires productId !in ProductsOf(items)
    ensures QtyOf(items, productId) == 0
    decreases |items|
  {
    if items != [] {
      var n := |items| - 1;
      assert items[n].productId in ProductsOf(items);
      assert ProductsOf(items[..n]) <= ProductsOf(items) by {
        forall p | p in ProductsOf(items[..n]) ensures p in ProductsOf(items) {
          var k :| 0 <= k < n && items[..n][k].productId == p;
          assert items[k].productId == p;
        }
      }
      QtyOfAbsent(items[..n], productId);
    }
  }

  /** With one line per product, a product's total is the quantity on its one line. */
  lemma {:induction false} QtyOfSingleLine(items: seq<CartItem>, k: nat)
    requires OneLinePerProduct(items) && k < |items|
    ensures QtyOf(items, items[k].productId) == items[k].quantity
    ensures QtyOf(items[..k], items[k].productId) == 0
  {
    var p := items[k].productId;
    assert p !in ProductsOf(items[..k]) by {
      assert forall j :: 0 <= j < k ==> items[..k][j].productId != p;
    }
    QtyOfAbsent(items[..k], p);
    var rest := items[k + 1..];
    assert p !in ProductsOf(rest) by {
      forall j | 0 <= j < |rest| ensures rest[j].productId != p {
        assert rest[j] == items[k + 1 + j];
      }
    }
    QtyOfAbsent(rest, p);
    QtyOfSplit(items, k + 1, p);
    assert items[..k + 1] == items[..k] + [items[k]];
    QtyOfAppend(items[..k], items[k], p);
  }

  lemma {:induction false} QtyOfSplit(items: seq<CartItem>, m: nat, productId: Id)
    requires m <= |items|
    ensures QtyOf(items, productId) == QtyOf(items[..m], productId) + QtyOf(items[m..], productId)
    decreases |items|
  {
    if m == |items| {
      assert items[..m] == items;
      assert items[m..] == [];
    } else {
      var n := |items| - 1;
      assert items[..n][..m] == items[..m];
      QtyOfSplit(items[..n], m, productId);
      assert items[m..] == items[..n][m..] + [items[n]];
      QtyOfAppend(items[..n][m..], items[n], productId);
      assert items == items[..n] + [items[n]];
    }
  }

  /** With positive quantities, every product the lines name has a positive total and the rest zero. */
  lemma {:induction false} QtyOfPositive(items: seq<CartItem>, productId: Id)
    requires forall k :: 0 <= k < |items| ==> items[k].quantity > 0
    ensures QtyOf(items, productId) >= 0
    ensures productId in ProductsOf(items) ==> QtyOf(items, productId) > 0
    decreases |items|
  {
    if items != [] {
      var n := |items| - 1;
      QtyOfPositive(items[..n], productId);
      if productId in ProductsOf(items) && items[n].productId != productId {
        var k :| 0 <= k < |items| && items[k].productId == productId;
        assert items[..n][k].productId == productId;
      }
    }
  }

  /**
   * The lines after adding `quantity` of `productId`, and the line that received it: an existing
   * line for the product has its quantity raised, otherwise a new line with id `freshId` is appended.
   * Any quantity is accepted, as in the handler.
   */
  function AddLine(items: seq<CartItem>, cartId: Id, productId: Id, quantity: int, freshId: Id): (seq<CartItem>, CartItem)
  {
    match FindLine(items, productId)
    case Some(k) =>
      var line := items[k].(quantity := items[k].quantity + quantity);
      (items[k := line], line)
    case None =>
      var line := CartItem(freshId, cartId, productId, quantity);
      (items + [line], line)
  }

  /** Adding a product the cart already holds inserts no line and keeps every line's id and
      product, touching only lines of that product; adding a product the cart does not hold
      appends exactly one new line with the fresh id and the requested quantity. */
  lemma AddLineShape(items: seq<CartItem>, cartId: Id, productId: Id, quantity: int, freshId: Id)
    ensures var (r, line) := AddLine(items, cartId, productId, quantity, freshId);
      && (productId in ProductsOf(items) ==>
            && |r| == |items| && ProductsOf(r) == ProductsOf(items)
            && forall j :: 0 <= j < |items| ==>
                 && r[j].id == items[j].id && r[j].cartId == items[j].cartId
                 && r[j].productId == items[j].productId
                 && (items[j].productId != productId ==> r[j] == items[j]))
      && (productId !in ProductsOf(items) ==>
            r == items + [CartItem(freshId, cartId, productId, quantity)])
  {
    if FindLine(items, productId).Some? {
      AddLineMerges(items, cartId, productId, quantity, freshId);
    }
  }

  /** Merging adds exactly the requested quantity to the product's total, leaves every other
      product's total alone, and keeps the cart at one line per product. */
  lemma {:induction false} AddLineMerges(items: seq<CartItem>, cartId: Id, productId: Id, quantity: int, freshId: Id)
    ensures var (r, line) := AddLine(items, cartId, productId, quantity, freshId);
      && line.productId == productId
      && FindLine(r, productId).Some?
      && (forall p :: QtyOf(r, p) == QtyOf(items, p) + (if p == productId then quantity else 0))
      && ProductsOf(r) == ProductsOf(items) + {productId}
      && (OneLinePerProduct(items) ==> OneLinePerProduct(r) && line.quantity == QtyOf(r, productId))
  {
    var (r, line) := AddLine(items, cartId, productId, quantity, freshId);
    match FindLine(items, productId)
    case Some(k) =>
      forall p ensures QtyOf(r, p) == QtyOf(items, p) + (if p == productId then quantity else 0) {
        QtyOfUpdate(items, k, line, p);
      }
      assert ProductsOf(r) == ProductsOf(items) + {productId} by {
        forall p | p in ProductsOf(items) ensures p in ProductsOf(r) {
          var j :| 0 <= j < |items| && items[j].productId == p;
          assert r[j].productId == p;
        }
        assert r[k].productId == productId;
      }
      if OneLinePerProduct(items) {
        assert OneLinePerProduct(r);
        QtyOfSingleLine(r, k);
      }
    case None =>
      forall p ensures QtyOf(r, p) == QtyOf(items, p) + (if p == productId then quantity else 0) {
        QtyOfAppend(items, line, p);
      }
      assert r[|items|] == line;
      assert ProductsOf(r) == ProductsOf(items) + {productId} by {
        forall p | p in ProductsOf(items) ensures p in ProductsOf(r) {
          var j :| 0 <= j < |items| && items[j].productId == p;
          assert r[j].productId == p;
        }
        forall p | p in ProductsOf(r) ensures p in ProductsOf(items) + {productId} {
          var j :| 0 <= j < |r| && r[j].productId == p;
          if j < |items| { assert items[j].productId == p; }
        }
      }
      if OneLinePerProduct(items) {
        assert OneLinePerProduct(r);
        QtyOfSingleLine(r, |items|);
      }
  }

  /** Merging a positive quantity into a well-formed cart keeps it well-formed, with the next
      free line id moved past the new line when one is inserted. */
  lemma {:induction false} AddLineKeepsCartWellFormed(cart: Cart, products: map<Id, Product>, nextItemId: Id, productId: Id, quantity: int)
    requires CartWellFormed(cart, products, nextItemId)
    requires productId in products && quantity > 0
    ensures var (r, _) := AddLine(cart.items, cart.id, productId, quantity, nextItemId);
      CartWellFormed(cart.(items := r), products, nextItemId + |r| - |cart.items|)
  {
    var items := cart.items;
    var (r, line) := AddLine(items, cart.id, productId, quantity, nextItemId);
    var next := nextItemId + |r| - |items|;
    AddLineMerges(items, cart.id, productId, quantity, nextItemId);
    assert OneLinePerProduct(r);
    match FindLine(items, productId)
    case Some(k) =>
      forall j | 0 <= j < |r|
        ensures r[j].productId in products && r[j].cartId == cart.id && r[j].quantity > 0 && r[j].id < next
      {
        if j != k { assert r[j] == items[j]; }
      }
    case None =>
      forall j | 0 <= j < |r|
        ensures r[j].productId in products && r[j].cartId == cart.id && r[j].quantity > 0 && r[j].id < next
      {
        if j < |items| { assert r[j] == items[j]; }
      }
  }

  /** A run of add requests for one product against one cart. */
  function AddEach(items: seq<CartItem>, cartId: Id, productId: Id, quantities: seq<int>, freshId: Id): seq<CartItem>
    decreases |quantities|
  {
    if quantities == [] then items
    else
      var (r, _) := AddLine(items, cartId, productId, quantities[0], freshId);
      AddEach(r, cartId, productId, quantities[1..], freshId + 1)
  }

  function Sum(quantities: seq<int>): int
  {
    if quantities == [] then 0 else quantities[0] + Sum(quantities[1..])
  }

  /** Repeated adds of one product accumulate: its total is the sum of the requested quantities
      on top of what was there, and the cart still holds at most one line per product. */
  lemma {:induction false} RepeatedAddsAccumulate(items: seq<CartItem>, cartId: Id, productId: Id, quantities: seq<int>, freshId: Id)
    requires OneLinePerProduct(items)
    ensures var r := AddEach(items, cartId, productId, quantities, freshId);
      && QtyOf(r, productId) == QtyOf(items, productId) + Sum(quantities)
      && OneLinePerProduct(r)
      && (quantities != [] ==> FindLine(r, productId).Some?)
    decreases |quantities|
  {
    if quantities != [] {
      var (r, _) := AddLine(items, cartId, productId, quantities[0], freshId);
      AddLineMerges(items, cartId, productId, quantities[0], freshId);
      RepeatedAddsAccumulate(r, cartId, productId, quantities[1..], freshId + 1);
      if quantities[1..] == [] {
        assert AddEach(r, cartId, productId, quantities[1..], freshId + 1) == r;
      }
    }
  }

  /**
   * The user's open cart, created when there is none, with the carts afterwards. This is the
   * rule the code evidently intends: at most one open cart per user, and a fresh open cart once
   * the last one has been checked out.
   */
  function OpenOrCreateCart(carts: seq<Cart>, user: Id): (r: (seq<Cart>, nat))
    ensures r.1 < |r.0| && OwnsOpen(r.0[r.1], user)
    ensures |carts| <= |r.0| <= |carts| + 1 && r.0[..|carts|] == carts
    ensures |r.0| == |carts| + 1 ==> r.1 == |carts| && r.0[r.1] == Cart(|carts| + 1, user, true, [])
    ensures OneOpenCartPerUser(carts) ==> OneOpenCartPerUser(r.0) && OpenCart(r.0, user) == Some(r.1)
    ensures DenseCartIds(carts) ==> DenseCartIds(r.0)
  {
    match OpenCart(carts, user)
    case Some(k) => (carts, k)
    case None =>
      var cs := carts + [Cart(|carts| + 1, user, true, [])];
      assert cs[..|carts|] == carts;
      assert OpenCart(cs, user) == Some(|carts|) by { assert cs[..|cs| - 1] == carts; }
      (cs, |carts|)
  }

  /**
   * The same step with the unique constraint on the cart's user column enforced by the store:
   * inserting a second cart row for a user fails at the commit.
   */
  function OpenOrCreateCartAsWritten(carts: seq<Cart>, user: Id): (r: Result<(seq<Cart>, nat)>)
    ensures r.Ok? ==> r.value.1 < |r.value.0| && OwnsOpen(r.value.0[r.value.1], user)
    ensures r.Ok? && UniqueCartOwners(carts) ==> UniqueCartOwners(r.value.0)
    ensures r.Err? <==> OpenCart(carts, user).None? && exists i :: 0 <= i < |carts| && carts[i].userId == user
    ensures r.Err? ==> r.error == IntegrityError
    ensures r.Ok? ==> |carts| <= |r.value.0| <= |carts| + 1 && r.value.0[..|carts|] == carts
    ensures OpenCart(carts, user).Some? ==> r == Ok((carts, OpenCart(carts, user).value))
  {
    match OpenCart(carts, user)
    case Some(k) => Ok((carts, k))
    case None =>
      if exists i :: 0 <= i < |carts| && carts[i].userId == user then Err(IntegrityError)
      else Ok((carts + [Cart(|carts| + 1, user, true, [])], |carts|))
  }

  /** As written, once a user's only open cart is closed by checkout, every later attempt to get
      a cart for that user fails: the user can never add to a cart again. */
  lemma CheckoutLocksOutAsWritten(carts: seq<Cart>, k: nat)
    requires k < |carts| && carts[k].isOpen && OneOpenCartPerUser(carts)
    ensures OpenOrCreateCartAsWritten(carts[k := carts[k].(isOpen := false)], carts[k].userId) == Err(IntegrityError)
  {
    var closed := carts[k := carts[k].(isOpen := false)];
    var user := carts[k].userId;
    forall i | 0 <= i < |closed| ensures !OwnsOpen(closed[i], user) {
      if i != k {
        assert closed[i] == carts[i];
      }
    }
    assert closed[k].userId == user;
  }

  /** With the intended rule, the same situation yields a fresh, empty, open cart for the user,
      while the closed cart stays: the user then owns two cart rows, which the declared unique
      constraint forbids. */
  lemma CheckoutThenAddOpensSecondCart(carts: seq<Cart>, k: nat)
    requires k < |carts| && carts[k].isOpen && OneOpenCartPerUser(carts)
    ensures var closed := carts[k := carts[k].(isOpen := false)];
      var (r, j) := OpenOrCreateCart(closed, carts[k].userId);
      && j == |carts| && r == closed + [Cart(|carts| + 1, carts[k].userId, true, [])]
      && OneOpenCartPerUser(r) && !UniqueCartOwners(r)
  {
    var closed := carts[k := carts[k].(isOpen := false)];
    var user := carts[k].userId;
    forall i | 0 <= i < |closed| ensures !OwnsOpen(closed[i], user) {
      if i != k {
        assert closed[i] == carts[i];
      }
    }
    assert OneOpenCartPerUser(closed) by {
      forall i, j | 0 <= i < |closed| && 0 <= j < |closed| && closed[i].isOpen && closed[j].isOpen && closed[i].userId == closed[j].userId
        ensures i == j
      {
        assert carts[i].isOpen && carts[j].isOpen;
      }
    }
    var (r, j) := OpenOrCreateCart(closed, user);
    assert r[k].userId == r[|carts|].userId;
  }
}
