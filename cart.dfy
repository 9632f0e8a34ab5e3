/**
 * CartService: one cart per customer, at most one item per product in it, and
 * checkout, which reserves stock for every item, inserts one Ordered order
 * whose lines are the items, and empties the cart. Each method changes the
 * cart tables exactly as the matching CartRows function says.
 */
module Carts {
  import opened Domain
  import opened StockLedger
  import opened Inventory
  import opened OrderBook
  import opened CustomerOrders
  import opened CartRows

  class CartService {
    /** The ShoppingCart table. */
    var carts: seq<ShoppingCart>
    /** The ProductInShoppingCart table. */
    var items: seq<CartItem>
    /** The ids in the Product table. */
    const products: set<ProductId>
    const inventory: InventoryService
    const orders: CustomerOrderTable

    ghost predicate Valid()
      reads this
    {
      OnePerUser(carts) && UniqueCartIds(carts) && ValidItems(items)
    }

    constructor (carts: seq<ShoppingCart>, items: seq<CartItem>, products: set<ProductId>,
                 inventory: InventoryService, orders: CustomerOrderTable)
      requires OnePerUser(carts) && UniqueCartIds(carts) && ValidItems(items)
      ensures Valid()
      ensures this.carts == carts && this.items == items && this.products == products
      ensures this.inventory == inventory && this.orders == orders
    {
      this.carts := carts;
      this.items := items;
      this.products := products;
      this.inventory := inventory;
      this.orders := orders;
    }

    /** The customer's cart, inserting an empty one with id `freshId` if the
        customer has none. */
    method GetOrCreateCart(userId: string, freshId: Guid) returns (cart: ShoppingCart)
      requires Valid() && CanCreate(carts, userId, freshId)
      modifies this
      ensures Valid()
      ensures carts == CartsAfter(old(carts), userId, freshId)
      ensures cart == CartFor(old(carts), userId, freshId)
      ensures items == old(items)
    {
      var found := CartIndex(carts, userId);
      if found.Some? {
        return carts[found.value];
      }
      cart := ShoppingCart(freshId, userId);
      carts := carts + [cart];
    }

    /** The customer's cart, or "Cart not found." */
    method GetCart(userId: string) returns (r: Result<ShoppingCart>)
      ensures r.Err? <==> CartIndex(carts, userId).None?
      ensures r.Err? ==> r.error == CartNotFound
      ensures r.Ok? ==> r.value == carts[CartIndex(carts, userId).value] && r.value.userId == userId
    {
      var found := CartIndex(carts, userId);
      if found.None? {
        return Err(CartNotFound);
      }
      return Ok(carts[found.value]);
    }

    /** Rejects a non-positive quantity before touching anything; the cart is
        created before the product check, so an unknown product can still
        leave a new empty cart behind. */
    method AddToCart(userId: string, p: ProductId, q: int, freshCartId: Guid, freshItemId: Guid)
      returns (r: Outcome)
      requires Valid() && CanCreate(carts, userId, freshCartId) && FreshItemId(items, freshItemId)
      modifies this
      ensures Valid()
      ensures q <= 0 ==> r == Fail(QuantityMustBePositive) && carts == old(carts) && items == old(items)
      ensures q > 0 ==> carts == CartsAfter(old(carts), userId, freshCartId)
      ensures q > 0 && p !in products ==> r == Fail(ProductNotFound) && items == old(items)
      ensures q > 0 && p in products ==>
        r == Pass && items == AddItem(old(items), CartFor(old(carts), userId, freshCartId).id, p, q, freshItemId)
    {
      if q <= 0 {
        return Fail(QuantityMustBePositive);
      }
      var cart := GetOrCreateCart(userId, freshCartId);
      if p !in products {
        return Fail(ProductNotFound);
      }
      ghost var before := items;
      var existing := ItemIndex(items, cart.id, p);
      if existing.None? {
        items := items + [CartItem(freshItemId, cart.id, p, q)];
      } else {
        var i := existing.value;
        items := items[i := items[i].(quantity := items[i].quantity + q)];
      }
      assert items == AddItem(before, cart.id, p, q, freshItemId);
      return Pass;
    }

    /** Sets the item's quantity, or deletes the item when `q` <= 0. */
    method UpdateItemQuantity(userId: string, p: ProductId, q: int, freshCartId: Guid) returns (r: Outcome)
      requires Valid() && CanCreate(carts, userId, freshCartId)
      modifies this
      ensures Valid()
      ensures carts == CartsAfter(old(carts), userId, freshCartId)
      ensures var found := ItemIndex(old(items), CartFor(old(carts), userId, freshCartId).id, p);
        && (found.None? ==> r == Fail(CartItemNotFound) && items == old(items))
        && (found.Some? && q <= 0 ==> r == Pass && items == DeleteItem(old(items), found.value))
        && (found.Some? && q > 0 ==> r == Pass && items == SetItem(old(items), found.value, q))
    {
      var cart := GetOrCreateCart(userId, freshCartId);
      var found := ItemIndex(items, cart.id, p);
      if found.None? {
        return Fail(CartItemNotFound);
      }
      var i := found.value;
      if q <= 0 {
        items := DeleteItem(items, i);
        return Pass;
      }
      items := items[i := items[i].(quantity := q)];
      return Pass;
    }

    /** Deletes the product's item if there is one; otherwise does nothing. */
    method RemoveFromCart(userId: string, p: ProductId, freshCartId: Guid)
      requires Valid() && CanCreate(carts, userId, freshCartId)
      modifies this
      ensures Valid()
      ensures carts == CartsAfter(old(carts), userId, freshCartId)
      ensures var found := ItemIndex(old(items), CartFor(old(carts), userId, freshCartId).id, p);
        && (found.None? ==> items == old(items))
        && (found.Some? ==> items == DeleteItem(old(items), found.value))
    {
      var cart := GetOrCreateCart(userId, freshCartId);
      var found := ItemIndex(items, cart.id, p);
      if found.Some? {
        items := DeleteItem(items, found.value);
      }
    }

    /** Deletes the cart's items one at a time. */
    method ClearCart(userId: string, freshCartId: Guid)
      requires Valid() && CanCreate(carts, userId, freshCartId)
      modifies this
      ensures Valid()
      ensures carts == CartsAfter(old(carts), userId, freshCartId)
      ensures items == ClearItems(old(items), CartFor(old(carts), userId, freshCartId).id)
    {
      var cart := GetOrCreateCart(userId, freshCartId);
      var toDelete := CartItems(items, cart.id);
      ghost var before := items;
      WithoutAbsent(before, {});
      assert IdsOf(toDelete[..0]) == {};
      var k := 0;
      while k < |toDelete|
        invariant 0 <= k <= |toDelete|
        invariant carts == CartsAfter(old(carts), userId, freshCartId)
        invariant items == Without(before, IdsOf(toDelete[..k]))
      {
        WithoutOneMore(before, toDelete, k);
        items := Without(items, {toDelete[k].id});
        k := k + 1;
      }
      assert toDelete[..k] == toDelete;
      DeleteCartIds(before, cart.id);
    }

    /** Reserves stock for each item in turn (no rollback: a failure leaves
        the earlier reservations in place and inserts no order), then inserts
        one Ordered order with a line per item and clears the cart. */
    method Checkout(userId: string, orderId: Guid, now: Timestamp) returns (r: Result<CustomerOrder>)
      requires Valid()
      modifies this, inventory, orders
      ensures Valid()
      ensures carts == old(carts)
      ensures CheckoutStep(r, items, orders.rows, inventory.stock)
           == CartRows.Checkout(old(carts), old(items), old(orders.rows), old(inventory.stock), userId, orderId, now)
    {
      var found := GetCart(userId);
      if found.Err? {
        return Err(found.error);
      }
      var cart := found.value;
      var cartItems := CartItems(items, cart.id);
      var lines := Lines(cartItems);
      if cartItems == [] {
        assert lines == [];
        return Err(CartEmpty);
      }
      var k := 0;
      var outcome := Pass;
      while k < |cartItems| && outcome.Pass?
        invariant 0 <= k <= |cartItems|
        invariant carts == old(carts) && items == old(items) && orders.rows == old(orders.rows)
        invariant Movement(inventory.stock, outcome) == ApplyLines(old(inventory.stock), Reserve, lines[..k])
      {
        var item := cartItems[k];
        ApplyLinesNext(old(inventory.stock), Reserve, lines, k);
        assert lines[k] == OrderLine(item.productId, item.quantity);
        outcome := inventory.MoveToShipping(item.productId, item.quantity);
        k := k + 1;
      }
      if outcome.Fail? {
        ApplyLinesFailureSticks(old(inventory.stock), Reserve, lines, k);
        return Err(outcome.error);
      }
      assert lines[..k] == lines;
      var order := CustomerOrder(orderId, userId, lines, now, Ordered);
      orders.rows := orders.rows + [order];
      ghost var before := items;
      ClearCart(userId, cart.id);
      assert items == ClearItems(before, cart.id);
      return Ok(order);
    }
  }

  /** What a checkout means for the stock and for the orders: the new order's
      lines are the cart's contents, Shipping gains exactly those quantities
      out of Shelves + Freezer, and no product's total changes. Whatever the
      outcome, every order line stays positive and the reserved stock stays
      covered. */
  lemma CheckoutEffect(carts: seq<ShoppingCart>, items: seq<CartItem>, rows: seq<CustomerOrder>, s: Stock,
                       userId: string, orderId: Guid, now: Timestamp)
    requires ValidItems(items)
    requires WellFormed(rows) && Covered(rows, s)
    ensures var r := CartRows.Checkout(carts, items, rows, s, userId, orderId, now);
      && WellFormed(r.orders) && Covered(r.orders, r.stock)
      && (forall p :: Total(r.stock, p) == Total(s, p))
      && (r.result.Ok? ==>
            && CartIndex(carts, userId).Some?
            && var cartId := carts[CartIndex(carts, userId).value].id;
            forall p ::
              && SumFor(r.result.value.lines, p) == QtyOf(Contents(items, cartId), p)
              && Qty(r.stock, p, Shipping) == Qty(s, p, Shipping) + QtyOf(Contents(items, cartId), p)
              && Storage(r.stock, p) == Storage(s, p) - QtyOf(Contents(items, cartId), p))
  {
    var r := CartRows.Checkout(carts, items, rows, s, userId, orderId, now);
    if CartIndex(carts, userId).Some? {
      var cartId := carts[CartIndex(carts, userId).value].id;
      var o := CustomerOrder(orderId, userId, Lines(CartItems(items, cartId)), now, Ordered);
      var m := ApplyLines(s, Reserve, o.lines);
      if o.lines != [] {
        assert r.stock == m.stock;
        forall p
          ensures SumFor(o.lines, p) == QtyOf(Contents(items, cartId), p)
          ensures Total(m.stock, p) == Total(s, p)
          ensures m.outcome.Pass? ==>
            && Qty(m.stock, p, Shipping) == Qty(s, p, Shipping) + SumFor(o.lines, p)
            && Storage(m.stock, p) == Storage(s, p) - SumFor(o.lines, p)
        {
          LinesMatchContents(items, cartId, p);
          ReserveLinesEffect(s, o.lines, p);
        }
        ReserveKeepsCover(rows, s, o);
        if m.outcome.Pass? {
          assert r.result == Ok(o) && r.orders == rows + [o];
          CartLinesPositive(items, cartId);
          assert WellFormed(rows + [o]) by {
            forall i | 0 <= i < |rows| + 1 ensures PositiveLines((rows + [o])[i].lines) {
              if i < |rows| {
                assert (rows + [o])[i] == rows[i];
              }
            }
          }
        }
      }
    }
  }
}
