/**
 * Shopping carts as values: the ShoppingCart and ProductInShoppingCart rows,
 * the lookups CartService makes, the item-table edits it performs, and what
 * those edits do to a cart's contents (product -> quantity).
 */
module CartRows {
  import opened Domain
  import opened Queries
  import opened StockLedger
  import opened OrderBook

  datatype ShoppingCart = ShoppingCart(id: Guid, userId: string)

  /** A ProductInShoppingCart row. */
  datatype CartItem = CartItem(id: Guid, cartId: Guid, productId: ProductId, quantity: int)

  /** Get(c => c.UserId == userId) on the ShoppingCart table. */
  function CartIndex(carts: seq<ShoppingCart>, userId: string): (r: Option<nat>)
    ensures r.Some? ==> r.value < |carts| && carts[r.value].userId == userId
    ensures r.Some? ==> forall j :: 0 <= j < r.value ==> carts[j].userId != userId
    ensures r.None? <==> forall j :: 0 <= j < |carts| ==> carts[j].userId != userId
  {
    FirstIndex(carts, (c: ShoppingCart) => c.userId == userId)
  }

  /** Get(i => i.ShoppingCartId == cartId && i.ProductId == p) on the item table. */
  function ItemIndex(items: seq<CartItem>, cartId: Guid, p: ProductId): (r: Option<nat>)
    ensures r.Some? ==> r.value < |items| && items[r.value].cartId == cartId && items[r.value].productId == p
    ensures r.Some? ==> forall j :: 0 <= j < r.value ==> !(items[j].cartId == cartId && items[j].productId == p)
    ensures r.None? <==> forall j :: 0 <= j < |items| ==> !(items[j].cartId == cartId && items[j].productId == p)
  {
    FirstIndex(items, (i: CartItem) => i.cartId == cartId && i.productId == p)
  }

  /** The cart's Items, in table order. */
  function CartItems(items: seq<CartItem>, cartId: Guid): seq<CartItem>
  {
    Filter(items, (i: CartItem) => i.cartId == cartId)
  }

  /** The order lines a checkout makes from the cart's items, one per item. */
  function Lines(items: seq<CartItem>): (r: seq<OrderLine>)
    ensures |r| == |items|
    ensures forall i :: 0 <= i < |items| ==> r[i] == OrderLine(items[i].productId, items[i].quantity)
  {
    seq(|items|, i requires 0 <= i < |items| => OrderLine(items[i].productId, items[i].quantity))
  }

  /** The item table after deleting the rows whose ids are in `ids`. */
  function Without(items: seq<CartItem>, ids: set<Guid>): seq<CartItem>
  {
    Filter(items, (x: CartItem) => x.id !in ids)
  }

  /** Deleting rows keeps the item table valid. */
  lemma WithoutKeepsValid(items: seq<CartItem>, ids: set<Guid>)
    requires ValidItems(items)
    ensures ValidItems(Without(items, ids))
  {
    FilterKeepsValid(items, (x: CartItem) => x.id !in ids);
  }

  /** Deleting ids the table does not hold changes nothing. */
  lemma WithoutAbsent(items: seq<CartItem>, ids: set<Guid>)
    requires forall k :: 0 <= k < |items| ==> items[k].id !in ids
    ensures Without(items, ids) == items
  {
    FilterAll(items, (x: CartItem) => x.id !in ids);
  }

  /** Two rounds of deletes are one round with both sets of ids. */
  lemma {:induction false} WithoutTwice(items: seq<CartItem>, a: set<Guid>, b: set<Guid>)
    ensures Without(Without(items, a), b) == Without(items, a + b)
    decreases |items|
  {
    if items != [] {
      var n := |items| - 1;
      var last := items[n];
      WithoutTwice(items[..n], a, b);
      WithoutSnoc(items, a);
      WithoutSnoc(items, a + b);
      var w := Without(items[..n], a);
      if last.id !in a {
        WithoutSnoc(w + [last], b);
        assert (w + [last])[..|w|] == w;
      }
    }
  }

  /** Without on a table with one more row at the end. */
  lemma WithoutSnoc(items: seq<CartItem>, ids: set<Guid>)
    requires items != []
    ensures var n := |items| - 1;
      Without(items, ids) == if items[n].id in ids then Without(items[..n], ids) else Without(items[..n], ids) + [items[n]]
  {
  }

  function IdsOf(items: seq<CartItem>): set<Guid>
  {
    set i | 0 <= i < |items| :: items[i].id
  }

  /** Deleting the ids of one more row of `rows`, after those of the first `k`. */
  lemma WithoutOneMore(items: seq<CartItem>, rows: seq<CartItem>, k: nat)
    requires k < |rows|
    ensures Without(Without(items, IdsOf(rows[..k])), {rows[k].id}) == Without(items, IdsOf(rows[..k + 1]))
  {
    assert IdsOf(rows[..k + 1]) == IdsOf(rows[..k]) + {rows[k].id} by {
      assert forall j :: 0 <= j < k ==> rows[..k + 1][j] == rows[..k][j];
      assert rows[..k + 1][k] == rows[k];
    }
    WithoutTwice(items, IdsOf(rows[..k]), {rows[k].id});
  }

  // ---------------------------------------------------------------------
  // Table invariants
  // ---------------------------------------------------------------------

  /** GetOrCreateCart keeps at most one cart per user. */
  ghost predicate OnePerUser(carts: seq<ShoppingCart>)
  {
    forall i, j :: 0 <= i < j < |carts| ==> carts[i].userId != carts[j].userId
  }

  ghost predicate UniqueCartIds(carts: seq<ShoppingCart>)
  {
    forall i, j :: 0 <= i < j < |carts| ==> carts[i].id != carts[j].id
  }

  ghost predicate UniqueItemIds(items: seq<CartItem>)
  {
    forall i, j :: 0 <= i < j < |items| ==> items[i].id != items[j].id
  }

  /** At most one item per product in each cart. */
  ghost predicate OnePerProduct(items: seq<CartItem>)
  {
    forall i, j :: 0 <= i < j < |items| ==>
      !(items[i].cartId == items[j].cartId && items[i].productId == items[j].productId)
  }

  ghost predicate PositiveItems(items: seq<CartItem>)
  {
    forall i :: 0 <= i < |items| ==> items[i].quantity > 0
  }

  ghost predicate ValidItems(items: seq<CartItem>)
  {
    UniqueItemIds(items) && OnePerProduct(items) && PositiveItems(items)
  }

  ghost predicate FreshItemId(items: seq<CartItem>, id: Guid)
  {
    forall j :: 0 <= j < |items| ==> items[j].id != id
  }

  ghost predicate FreshCartId(carts: seq<ShoppingCart>, id: Guid)
  {
    forall j :: 0 <= j < |carts| ==> carts[j].id != id
  }

  /** One more row that clashes with no earlier one keeps the table valid. */
  lemma SnocKeepsValid(items: seq<CartItem>, x: CartItem)
    requires ValidItems(items) && x.quantity > 0
    requires forall i :: 0 <= i < |items| ==>
      items[i].id != x.id && !(items[i].cartId == x.cartId && items[i].productId == x.productId)
    ensures ValidItems(items + [x])
  {
    var r := items + [x];
    assert forall i :: 0 <= i < |items| ==> r[i] == items[i];
  }

  /** Deleting rows keeps the item table valid. */
  lemma {:induction false} FilterKeepsValid(items: seq<CartItem>, f: CartItem -> bool)
    requires ValidItems(items)
    ensures ValidItems(Filter(items, f))
    decreases |items|
  {
    if items != [] {
      var n := |items| - 1;
      var init := items[..n];
      var last := items[n];
      PrefixKeepsUnique(items, n);
      assert PositiveItems(init) by {
        forall i | 0 <= i < n ensures init[i] == items[i] { }
      }
      FilterKeepsValid(init, f);
      var fi := Filter(init, f);
      if f(last) {
        forall i | 0 <= i < |fi|
          ensures fi[i].id != last.id && !(fi[i].cartId == last.cartId && fi[i].productId == last.productId)
        {
          assert fi[i] in init;
          var k :| 0 <= k < n && init[k] == fi[i];
          assert items[k] == fi[i];
        }
        SnocKeepsValid(fi, last);
      }
    }
  }

  // ---------------------------------------------------------------------
  // GetOrCreateCart
  // ---------------------------------------------------------------------

  /** A fresh Guid may be given to a new cart only if it is really new. */
  ghost predicate CanCreate(carts: seq<ShoppingCart>, userId: string, freshId: Guid)
  {
    CartIndex(carts, userId).None? ==> FreshCartId(carts, freshId)
  }

  /** The cart GetOrCreateCart returns: the user's cart, or a new one. */
  function CartFor(carts: seq<ShoppingCart>, userId: string, freshId: Guid): (r: ShoppingCart)
    ensures r.userId == userId
  {
    match CartIndex(carts, userId)
    case Some(i) => carts[i]
    case None => ShoppingCart(freshId, userId)
  }

  /** The cart table after GetOrCreateCart. */
  function CartsAfter(carts: seq<ShoppingCart>, userId: string, freshId: Guid): (r: seq<ShoppingCart>)
    requires OnePerUser(carts) && UniqueCartIds(carts) && CanCreate(carts, userId, freshId)
    ensures OnePerUser(r) && UniqueCartIds(r)
    ensures CartIndex(r, userId).Some? && r[CartIndex(r, userId).value] == CartFor(carts, userId, freshId)
    ensures |carts| <= |r| <= |carts| + 1 && r[..|carts|] == carts
  {
    if CartIndex(carts, userId).Some? then carts
    else
      var r := carts + [ShoppingCart(freshId, userId)];
      assert forall j :: 0 <= j < |carts| ==> r[j] == carts[j];
      assert r[|carts|].userId == userId;
      assert CartIndex(r, userId).Some?;
      assert CartIndex(r, userId) == Some(|carts|);
      r
  }

  /** A second GetOrCreateCart for the same user finds the first one's cart
      and inserts nothing. */
  lemma GetOrCreateCartTwice(carts: seq<ShoppingCart>, userId: string, id1: Guid, id2: Guid)
    requires OnePerUser(carts) && UniqueCartIds(carts) && CanCreate(carts, userId, id1)
    ensures var once := CartsAfter(carts, userId, id1);
      && CanCreate(once, userId, id2)
      && CartsAfter(once, userId, id2) == once
      && CartFor(once, userId, id2) == CartFor(carts, userId, id1)
  {
  }

  // ---------------------------------------------------------------------
  // A cart's contents
  // ---------------------------------------------------------------------

  /** The cart's contents: product -> quantity. */
  function Contents(items: seq<CartItem>, cartId: Guid): map<ProductId, int>
    decreases |items|
  {
    if items == [] then map[]
    else
      var m := Contents(items[..|items| - 1], cartId);
      var it := items[|items| - 1];
      if it.cartId == cartId then m[it.productId := it.quantity] else m
  }

  /** The quantity of `p` in a cart's contents, 0 when absent. */
  function QtyOf(m: map<ProductId, int>, p: ProductId): int
  {
    if p in m then m[p] else 0
  }

  lemma ContentsAppend(items: seq<CartItem>, it: CartItem, cartId: Guid)
    ensures Contents(items + [it], cartId)
         == if it.cartId == cartId then Contents(items, cartId)[it.productId := it.quantity] else Contents(items, cartId)
  {
    assert (items + [it])[..|items|] == items;
  }

  /** With one item per product, a product is in the cart exactly when the
      item lookup finds it, and its quantity is that item's. */
  lemma {:induction false} ContentsAt(items: seq<CartItem>, cartId: Guid, p: ProductId)
    requires OnePerProduct(items)
    ensures p in Contents(items, cartId) <==> ItemIndex(items, cartId, p).Some?
    ensures ItemIndex(items, cartId, p).Some? ==>
      Contents(items, cartId)[p] == items[ItemIndex(items, cartId, p).value].quantity
    decreases |items|
  {
    if items != [] {
      var n := |items| - 1;
      var init := items[..n];
      var last := items[n];
      assert forall j :: 0 <= j < n ==> init[j] == items[j];
      ContentsAt(init, cartId, p);
      if last.cartId == cartId && last.productId == p {
        assert ItemIndex(init, cartId, p).None?;
        assert ItemIndex(items, cartId, p) == Some(n);
      } else if ItemIndex(init, cartId, p).Some? {
        assert ItemIndex(items, cartId, p) == ItemIndex(init, cartId, p);
      } else {
        assert ItemIndex(items, cartId, p).None?;
      }
    }
  }

  /** Setting one item's quantity sets that product's quantity in its cart
      and changes no other cart. */
  lemma {:induction false} ContentsSetQuantity(items: seq<CartItem>, i: nat, q: int, cartId: Guid)
    requires OnePerProduct(items)
    requires i < |items|
    ensures Contents(items[i := items[i].(quantity := q)], cartId)
         == if items[i].cartId == cartId then Contents(items, cartId)[items[i].productId := q]
            else Contents(items, cartId)
    decreases |items|
  {
    var n := |items| - 1;
    var items' := items[i := items[i].(quantity := q)];
    if i == n {
      assert items'[..n] == items[..n];
    } else {
      var init := items[..n];
      assert items'[..n] == init[i := init[i].(quantity := q)];
      assert OnePerProduct(init) by {
        forall k | 0 <= k < n ensures init[k] == items[k] { }
      }
      ContentsSetQuantity(init, i, q, cartId);
    }
  }

  /** The invariants hold of every prefix of the table. */
  lemma PrefixKeepsUnique(items: seq<CartItem>, n: nat)
    requires n <= |items|
    ensures UniqueItemIds(items) ==> UniqueItemIds(items[..n])
    ensures OnePerProduct(items) ==> OnePerProduct(items[..n])
  {
    assert forall k :: 0 <= k < n ==> items[..n][k] == items[k];
  }

  /** Deleting the last row of the table. */
  lemma ContentsWithoutLast(items: seq<CartItem>, cartId: Guid)
    requires UniqueItemIds(items) && OnePerProduct(items)
    requires items != []
    ensures var gone := items[|items| - 1];
      Contents(Without(items, {gone.id}), cartId)
        == if gone.cartId == cartId then Contents(items, cartId) - {gone.productId} else Contents(items, cartId)
  {
    var n := |items| - 1;
    var init := items[..n];
    var gone := items[n];
    assert Without(items, {gone.id}) == init by {
      PrefixKeepsUnique(items, n);
      WithoutSnoc(items, {gone.id});
      assert forall k :: 0 <= k < n ==> init[k] == items[k];
      WithoutAbsent(init, {gone.id});
    }
    var m := Contents(init, cartId);
    if gone.cartId == cartId {
      assert Contents(items, cartId) == m[gone.productId := gone.quantity] by {
        assert items == init + [gone];
        ContentsAppend(init, gone, cartId);
      }
      assert gone.productId !in m by {
        PrefixKeepsUnique(items, n);
        ContentsAt(init, cartId, gone.productId);
      }
      assert m[gone.productId := gone.quantity] - {gone.productId} == m;
    } else {
      assert Contents(items, cartId) == m by {
        assert items == init + [gone];
        ContentsAppend(init, gone, cartId);
      }
    }
  }

  /** The step of ContentsWithout for an item before the last row: deleting
      it from the prefix, then putting the last row back. */
  lemma ContentsWithoutStep(items: seq<CartItem>, i: nat, cartId: Guid)
    requires i < |items| - 1
    requires var last := items[|items| - 1];
      && last.id != items[i].id
      && (last.cartId == items[i].cartId ==> last.productId != items[i].productId)
    requires var init := items[..|items| - 1];
      Contents(Without(init, {items[i].id}), cartId)
        == if items[i].cartId == cartId then Contents(init, cartId) - {items[i].productId}
           else Contents(init, cartId)
    ensures Contents(Without(items, {items[i].id}), cartId)
         == if items[i].cartId == cartId then Contents(items, cartId) - {items[i].productId}
            else Contents(items, cartId)
  {
    var n := |items| - 1;
    var init := items[..n];
    var last := items[n];
    var gone := items[i];
    var w := Without(init, {gone.id});
    var m := Contents(init, cartId);
    assert Without(items, {gone.id}) == w + [last] by {
      WithoutSnoc(items, {gone.id});
    }
    var mw := Contents(w, cartId);
    assert Contents(items, cartId) == if last.cartId == cartId then m[last.productId := last.quantity] else m by {
      assert items == init + [last];
      ContentsAppend(init, last, cartId);
    }
    assert Contents(w + [last], cartId) == if last.cartId == cartId then mw[last.productId := last.quantity] else mw by {
      ContentsAppend(w, last, cartId);
    }
    if last.cartId == cartId && gone.cartId == cartId {
      RemoveThenSet(m, gone.productId, last.productId, last.quantity);
    }
  }

  lemma RemoveThenSet(m: map<ProductId, int>, gone: ProductId, k: ProductId, v: int)
    requires gone != k
    ensures (m - {gone})[k := v] == m[k := v] - {gone}
  {
  }

  /** Deleting one item removes its product from its cart and changes no
      other cart. */
  lemma {:induction false} ContentsWithout(items: seq<CartItem>, i: nat, cartId: Guid)
    requires UniqueItemIds(items) && OnePerProduct(items)
    requires i < |items|
    ensures Contents(Without(items, {items[i].id}), cartId)
         == if items[i].cartId == cartId then Contents(items, cartId) - {items[i].productId}
            else Contents(items, cartId)
    decreases |items|
  {
    var n := |items| - 1;
    if i == n {
      ContentsWithoutLast(items, cartId);
    } else {
      PrefixKeepsUnique(items, n);
      assert items[..n][i] == items[i];
      ContentsWithout(items[..n], i, cartId);
      ContentsWithoutStep(items, i, cartId);
    }
  }

  /** Deleting every item of cart `c` empties it and changes no other cart. */
  lemma {:induction false} ContentsOtherCarts(items: seq<CartItem>, c: Guid, cartId: Guid)
    ensures Contents(Filter(items, (x: CartItem) => x.cartId != c), cartId)
         == if cartId == c then map[] else Contents(items, cartId)
    decreases |items|
  {
    if items != [] {
      var n := |items| - 1;
      ContentsOtherCarts(items[..n], c, cartId);
      var fi := Filter(items[..n], (x: CartItem) => x.cartId != c);
      if items[n].cartId != c {
        ContentsAppend(fi, items[n], cartId);
      }
    }
  }

  /** A cart's items with one more row at the end of the table. */
  lemma CartItemsSnoc(items: seq<CartItem>, cartId: Guid)
    requires items != []
    ensures var n := |items| - 1;
      CartItems(items, cartId)
        == if items[n].cartId == cartId then CartItems(items[..n], cartId) + [items[n]] else CartItems(items[..n], cartId)
  {
  }

  lemma SumForLinesSnoc(items: seq<CartItem>, x: CartItem, p: ProductId)
    ensures SumFor(Lines(items + [x]), p) == SumFor(Lines(items), p) + LineQty(OrderLine(x.productId, x.quantity), p)
  {
    assert Lines(items + [x])[..|items|] == Lines(items);
  }

  /** Checkout's lines carry exactly the cart's contents: for each product,
      the lines' total is the quantity in the cart. */
  lemma {:induction false} LinesMatchContents(items: seq<CartItem>, cartId: Guid, p: ProductId)
    requires OnePerProduct(items)
    ensures SumFor(Lines(CartItems(items, cartId)), p) == QtyOf(Contents(items, cartId), p)
    decreases |items|
  {
    if items != [] {
      var n := |items| - 1;
      var init := items[..n];
      var last := items[n];
      PrefixKeepsUnique(items, n);
      LinesMatchContents(init, cartId, p);
      CartItemsSnoc(items, cartId);
      if last.cartId == cartId {
        SumForLinesSnoc(CartItems(init, cartId), last, p);
        if last.productId == p {
          assert forall k :: 0 <= k < n ==> init[k] == items[k];
          ContentsAt(init, cartId, p);
        }
      }
    }
  }

  /** Every line a checkout makes from a valid cart is positive. */
  lemma CartLinesPositive(items: seq<CartItem>, cartId: Guid)
    requires PositiveItems(items)
    ensures PositiveLines(Lines(CartItems(items, cartId)))
  {
    var ci := CartItems(items, cartId);
    forall i | 0 <= i < |ci| ensures ci[i].quantity > 0 {
      assert ci[i] in items;
    }
  }

  // ---------------------------------------------------------------------
  // The item-table edits CartService makes
  // ---------------------------------------------------------------------

  /** AddToCart on a known product: raise the existing item by `q`, or insert
      a new item with exactly `q`. */
  function AddItem(items: seq<CartItem>, cartId: Guid, p: ProductId, q: int, id: Guid): (r: seq<CartItem>)
    requires ValidItems(items) && FreshItemId(items, id) && q > 0
    ensures ValidItems(r)
    ensures |r| == |items| || |r| == |items| + 1
  {
    match ItemIndex(items, cartId, p)
    case None => items + [CartItem(id, cartId, p, q)]
    case Some(i) => items[i := items[i].(quantity := items[i].quantity + q)]
  }

  /** AddToCart adds `q` to the product's quantity in this cart, starting from
      0 when it is not there, and changes no other cart. */
  lemma AddItemContents(items: seq<CartItem>, cartId: Guid, p: ProductId, q: int, id: Guid, other: Guid)
    requires ValidItems(items) && FreshItemId(items, id) && q > 0
    ensures Contents(AddItem(items, cartId, p, q, id), cartId)
         == Contents(items, cartId)[p := QtyOf(Contents(items, cartId), p) + q]
    ensures other != cartId ==> Contents(AddItem(items, cartId, p, q, id), other) == Contents(items, other)
  {
    var m := Contents(items, cartId);
    var r := AddItem(items, cartId, p, q, id);
    match ItemIndex(items, cartId, p)
    case None =>
      var it := CartItem(id, cartId, p, q);
      assert r == items + [it];
      assert Contents(r, cartId) == m[p := QtyOf(m, p) + q] by {
        ContentsAt(items, cartId, p);
        ContentsAppend(items, it, cartId);
      }
      assert other != cartId ==> Contents(r, other) == Contents(items, other) by {
        ContentsAppend(items, it, other);
      }
    case Some(i) =>
      var q' := items[i].quantity + q;
      assert r == items[i := items[i].(quantity := q')];
      assert Contents(r, cartId) == m[p := QtyOf(m, p) + q] by {
        ContentsAt(items, cartId, p);
        ContentsSetQuantity(items, i, q', cartId);
      }
      assert other != cartId ==> Contents(r, other) == Contents(items, other) by {
        ContentsSetQuantity(items, i, q', other);
      }
  }

  /** UpdateItemQuantity with a positive quantity: set the item's quantity. */
  function SetItem(items: seq<CartItem>, i: nat, q: int): (r: seq<CartItem>)
    requires ValidItems(items) && i < |items| && q > 0
    ensures ValidItems(r)
    ensures Contents(r, items[i].cartId) == Contents(items, items[i].cartId)[items[i].productId := q]
  {
    ContentsSetQuantity(items, i, q, items[i].cartId);
    items[i := items[i].(quantity := q)]
  }

  /** Delete of one item row. */
  function DeleteItem(items: seq<CartItem>, i: nat): (r: seq<CartItem>)
    requires ValidItems(items) && i < |items|
    ensures ValidItems(r)
    ensures Contents(r, items[i].cartId) == Contents(items, items[i].cartId) - {items[i].productId}
  {
    WithoutKeepsValid(items, {items[i].id});
    ContentsWithout(items, i, items[i].cartId);
    Without(items, {items[i].id})
  }

  /** ClearCart's result: every item of cart `c` deleted, the rest kept in order. */
  function ClearItems(items: seq<CartItem>, c: Guid): (r: seq<CartItem>)
    requires ValidItems(items)
    ensures ValidItems(r)
    ensures Contents(r, c) == map[]
  {
    FilterKeepsValid(items, (x: CartItem) => x.cartId != c);
    ContentsOtherCarts(items, c, c);
    Filter(items, (x: CartItem) => x.cartId != c)
  }

  /** Deleting, one by one, the ids of cart `c`'s items is ClearItems. */
  lemma DeleteCartIds(items: seq<CartItem>, c: Guid)
    requires ValidItems(items)
    ensures Without(items, IdsOf(CartItems(items, c))) == ClearItems(items, c)
  {
    var ids := IdsOf(CartItems(items, c));
    var ci := CartItems(items, c);
    forall i | 0 <= i < |items| ensures (items[i].id !in ids) == (items[i].cartId != c) {
      if items[i].cartId == c {
        assert items[i] in ci;
        var k :| 0 <= k < |ci| && ci[k] == items[i];
        assert items[i].id == ci[k].id;
      } else {
        forall k | 0 <= k < |ci| ensures ci[k].id != items[i].id {
          assert ci[k].cartId == c;
          assert ci[k] in items;
          var j :| 0 <= j < |items| && items[j] == ci[k];
          assert j != i;
        }
      }
    }
    FilterSame(items, (x: CartItem) => x.id !in ids, (x: CartItem) => x.cartId != c);
  }

  // ---------------------------------------------------------------------
  // Checkout
  // ---------------------------------------------------------------------

  /** What Checkout returned (or threw), and the three tables after it. */
  datatype CheckoutStep = CheckoutStep(result: Result<CustomerOrder>, items: seq<CartItem>,
                                       orders: seq<CustomerOrder>, stock: Stock)

  /** Checkout: find the customer's cart, refuse an empty one, reserve each
      item in table order (no rollback: a failure leaves the earlier
      reservations and inserts no order), then insert one Ordered order whose
      lines are the items and clear the cart. */
  function Checkout(carts: seq<ShoppingCart>, items: seq<CartItem>, orders: seq<CustomerOrder>, s: Stock,
                    userId: string, orderId: Guid, now: Timestamp): (r: CheckoutStep)
    requires ValidItems(items)
    ensures CartIndex(carts, userId).None? ==> r == CheckoutStep(Err(CartNotFound), items, orders, s)
    ensures CartIndex(carts, userId).Some? && CartItems(items, carts[CartIndex(carts, userId).value].id) == [] ==>
      r == CheckoutStep(Err(CartEmpty), items, orders, s)
    ensures r.result.Err? ==> r.items == items && r.orders == orders
    ensures ValidItems(r.items)
    ensures r.result.Ok? ==>
      && CartIndex(carts, userId).Some?
      && var cartId := carts[CartIndex(carts, userId).value].id;
      && r.result.value.lines != []
      && r.result.value == CustomerOrder(orderId, userId, Lines(CartItems(items, cartId)), now, Ordered)
      && r.orders == orders + [r.result.value]
      && r.items == ClearItems(items, cartId)
      && Contents(r.items, cartId) == map[]
  {
    match CartIndex(carts, userId)
    case None => CheckoutStep(Err(CartNotFound), items, orders, s)
    case Some(i) =>
      var cartId := carts[i].id;
      var lines := Lines(CartItems(items, cartId));
      if lines == [] then CheckoutStep(Err(CartEmpty), items, orders, s)
      else
        var m := ApplyLines(s, Reserve, lines);
        if m.outcome.Fail? then CheckoutStep(Err(m.outcome.error), items, orders, m.stock)
        else
          var o := CustomerOrder(orderId, userId, lines, now, Ordered);
          CheckoutStep(Ok(o), ClearItems(items, cartId), orders + [o], m.stock)
  }
}
