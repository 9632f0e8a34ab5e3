/**
 * PurchaseOrderService: employees create purchase orders and receive them
 * into stock; suppliers see their incoming orders, accept and ship them.
 * Each method is proved to do exactly what the matching PurchaseBook
 * function says.
 */
module PurchaseOrders {
  import opened Domain
  import opened StockLedger
  import opened Inventory
  import opened PurchaseBook

  class PurchaseOrderService {
    /** The PurchaseOrder table, in insertion order. */
    var rows: seq<PurchaseOrder>
    /** The ids in the Product table. */
    const products: set<ProductId>
    const inventory: InventoryService

    constructor (rows: seq<PurchaseOrder>, products: set<ProductId>, inventory: InventoryService)
      ensures this.rows == rows && this.products == products && this.inventory == inventory
    {
      this.rows := rows;
      this.products := products;
      this.inventory := inventory;
    }

    /** `id` is a fresh Guid and `now` the current time. */
    method CreatePurchaseOrder(employeeId: string, supplierId: string, p: ProductId, q: int, id: Guid, now: Timestamp)
      returns (r: Result<PurchaseOrder>)
      modifies this
      ensures Update(r, rows) == PurchaseBook.CreatePurchaseOrder(old(rows), products, employeeId, supplierId, p, q, id, now)
    {
      if IsBlank(employeeId) {
        return Err(EmployeeIdRequired);
      }
      if IsBlank(supplierId) {
        return Err(SupplierIdRequired);
      }
      if q <= 0 {
        return Err(QuantityMustBePositive);
      }
      if p !in products {
        return Err(ProductNotFound);
      }
      var po := PurchaseOrder(id, employeeId, supplierId, [OrderLine(p, q)], now, Ordered);
      rows := rows + [po];
      return Ok(po);
    }

    /** Receive's foreach: AddToReceiving then PutAway for each line in turn,
        stopping at the first call that throws. */
    method ReceiveLines(lines: seq<OrderLine>, target: LocationType) returns (outcome: Outcome)
      modifies inventory
      ensures Movement(inventory.stock, outcome) == ApplyLines(old(inventory.stock), ReceiveInto(target), lines)
    {
      var k := 0;
      outcome := Pass;
      while k < |lines| && outcome.Pass?
        invariant 0 <= k <= |lines|
        invariant Movement(inventory.stock, outcome) == ApplyLines(old(inventory.stock), ReceiveInto(target), lines[..k])
      {
        ApplyLinesNext(old(inventory.stock), ReceiveInto(target), lines, k);
        var line := lines[k];
        ghost var before := inventory.stock;
        outcome := inventory.AddToReceiving(line.productId, line.quantity);
        if outcome.Pass? {
          outcome := inventory.PutAway(line.productId, line.quantity, target);
        }
        assert Movement(inventory.stock, outcome) == ApplyLine(before, ReceiveInto(target), line);
        k := k + 1;
      }
      if outcome.Fail? {
        ApplyLinesFailureSticks(old(inventory.stock), ReceiveInto(target), lines, k);
      } else {
        assert lines[..k] == lines;
      }
    }

    method Receive(orderId: Guid, employeeId: string, target: LocationType) returns (r: Result<PurchaseOrder>)
      modifies this, inventory
      ensures Step(r, rows, inventory.stock) == PurchaseBook.Receive(old(rows), old(inventory.stock), orderId, employeeId, target)
    {
      if IsBlank(employeeId) {
        return Err(EmployeeIdRequired);
      }
      if target != Shelves && target != Freezer {
        return Err(InvalidPutAwayLocation);
      }
      var found := PurchaseIndex(rows, orderId);
      if found.None? {
        return Err(PurchaseOrderNotFound);
      }
      var i := found.value;
      var po := rows[i];
      if po.status != Shipped {
        return Err(OnlyShippedCanBeReceived);
      }
      var outcome := ReceiveLines(po.lines, target);
      if outcome.Fail? {
        return Err(outcome.error);
      }
      po := po.(status := Received);
      rows := rows[i := po];
      return Ok(po);
    }

    method Accept(orderId: Guid, supplierId: string) returns (r: Result<PurchaseOrder>)
      modifies this
      ensures Update(r, rows) == PurchaseBook.Accept(old(rows), orderId, supplierId)
    {
      var found := SupplierIndex(rows, orderId, supplierId);
      if found.None? {
        return Err(PurchaseOrderNotFound);
      }
      var i := found.value;
      if rows[i].status != Ordered {
        return Err(OnlyOrderedCanBeAccepted);
      }
      var po := rows[i].(status := Approved);
      rows := rows[i := po];
      return Ok(po);
    }

    method Ship(orderId: Guid, supplierId: string) returns (r: Result<PurchaseOrder>)
      modifies this
      ensures Update(r, rows) == PurchaseBook.Ship(old(rows), orderId, supplierId)
    {
      var found := SupplierIndex(rows, orderId, supplierId);
      if found.None? {
        return Err(PurchaseOrderNotFound);
      }
      var i := found.value;
      if rows[i].status != Ordered && rows[i].status != Approved {
        return Err(OnlyOrderedOrApprovedCanBeShipped);
      }
      var po := rows[i].(status := Shipped);
      rows := rows[i := po];
      return Ok(po);
    }
  }
}
