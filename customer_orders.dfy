/**
 * CustomerOrderService: creates orders (reserving stock), ships them
 * (consuming it from Shipping) and cancels them (returning it to Shelves).
 * The CustomerOrder table is an object of its own because the cart's checkout
 * inserts into it too. Each method is proved to do exactly what the matching
 * OrderBook function says.
 */
module CustomerOrders {
  import opened Domain
  import opened StockLedger
  import opened Inventory
  import opened OrderBook

  /** The CustomerOrder table, in insertion order. */
  class CustomerOrderTable {
    var rows: seq<CustomerOrder>

    constructor (initial: seq<CustomerOrder>)
      ensures rows == initial
    {
      rows := initial;
    }
  }

  class CustomerOrderService {
    const orders: CustomerOrderTable
    const inventory: InventoryService
    /** The ids in the Product table. */
    const products: set<ProductId>

    constructor (orders: CustomerOrderTable, inventory: InventoryService, products: set<ProductId>)
      ensures this.orders == orders && this.inventory == inventory && this.products == products
    {
      this.orders := orders;
      this.inventory := inventory;
      this.products := products;
    }

    /** `id` is a fresh Guid and `now` the current time. */
    method CreateOrder(customerId: string, productId: ProductId, quantity: int, id: Guid, now: Timestamp)
      returns (r: Result<CustomerOrder>)
      modifies orders, inventory
      ensures Step(r, orders.rows, inventory.stock)
           == OrderBook.CreateOrder(old(orders.rows), old(inventory.stock), products, customerId, productId, quantity, id, now)
    {
      if IsBlank(customerId) {
        return Err(CustomerIdRequired);
      }
      if quantity <= 0 {
        return Err(QuantityMustBePositive);
      }
      if productId !in products {
        return Err(ProductNotFound);
      }
      var moved := inventory.MoveToShipping(productId, quantity);
      if moved.Fail? {
        return Err(moved.error);
      }
      var order := CustomerOrder(id, customerId, [OrderLine(productId, quantity)], now, Ordered);
      orders.rows := orders.rows + [order];
      return Ok(order);
    }

    method ShipOrder(orderId: Guid, performedBy: string) returns (r: Result<CustomerOrder>)
      modifies orders, inventory
      ensures Step(r, orders.rows, inventory.stock)
           == OrderBook.ShipOrder(old(orders.rows), old(inventory.stock), orderId, performedBy)
    {
      if IsBlank(performedBy) {
        return Err(PerformedByRequired);
      }
      var found := OrderIndex(orders.rows, orderId);
      if found.None? {
        return Err(OrderNotFound);
      }
      var i := found.value;
      var order := orders.rows[i];
      if order.status != Ordered {
        return Err(OnlyOrderedCanBeShipped);
      }
      var k := 0;
      var outcome := Pass;
      while k < |order.lines| && outcome.Pass?
        invariant 0 <= k <= |order.lines|
        invariant orders.rows == old(orders.rows)
        invariant Movement(inventory.stock, outcome) == ApplyLines(old(inventory.stock), Consume, order.lines[..k])
      {
        ApplyLinesNext(old(inventory.stock), Consume, order.lines, k);
        var line := order.lines[k];
        outcome := inventory.ConsumeFromShipping(line.productId, line.quantity);
        k := k + 1;
      }
      if outcome.Fail? {
        ApplyLinesFailureSticks(old(inventory.stock), Consume, order.lines, k);
        return Err(outcome.error);
      }
      assert order.lines[..k] == order.lines;
      order := order.(status := Shipped);
      orders.rows := orders.rows[i := order];
      return Ok(order);
    }

    method CancelOrder(orderId: Guid, performedBy: string) returns (r: Result<CustomerOrder>)
      modifies orders, inventory
      ensures Step(r, orders.rows, inventory.stock)
           == OrderBook.CancelOrder(old(orders.rows), old(inventory.stock), orderId, performedBy)
    {
      if IsBlank(performedBy) {
        return Err(PerformedByRequired);
      }
      var found := OrderIndex(orders.rows, orderId);
      if found.None? {
        return Err(OrderNotFound);
      }
      var i := found.value;
      var order := orders.rows[i];
      if order.status != Ordered {
        return Err(OnlyOrderedCanBeCancelled);
      }
      var k := 0;
      var outcome := Pass;
      while k < |order.lines| && outcome.Pass?
        invariant 0 <= k <= |order.lines|
        invariant orders.rows == old(orders.rows)
        invariant Movement(inventory.stock, outcome) == ApplyLines(old(inventory.stock), Restore, order.lines[..k])
      {
        ApplyLinesNext(old(inventory.stock), Restore, order.lines, k);
        var line := order.lines[k];
        outcome := inventory.MoveFromShippingToStorage(line.productId, line.quantity);
        k := k + 1;
      }
      if outcome.Fail? {
        ApplyLinesFailureSticks(old(inventory.stock), Restore, order.lines, k);
        return Err(outcome.error);
      }
      assert order.lines[..k] == order.lines;
      order := order.(status := Cancelled);
      orders.rows := orders.rows[i := order];
      return Ok(order);
    }
  }
}
