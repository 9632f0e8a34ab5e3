/**
 * InventoryService: the movement engine over the StockBalance table. Each
 * method works as the service does: it fetches rows (creating missing ones at
 * 0), adjusts the fetched quantities step by step, and writes the rows back.
 * Every repository call commits on its own, so rows created by GetOrCreate
 * stay even when the movement then throws. Each method is proved to leave the
 * table exactly as the matching StockLedger function says.
 */
module Inventory {
  import opened Domain
  import opened StockLedger

  class InventoryService {
    /** The StockBalance table, keyed by (product, location). */
    var stock: Stock

    constructor (initial: Stock)
      ensures stock == initial
    {
      stock := initial;
    }

    /** Returns the row's quantity, inserting the row at 0 if it is missing. */
    method GetOrCreate(p: ProductId, l: LocationType) returns (quantity: int)
      modifies this
      ensures stock == Touch(old(stock), p, l)
      ensures quantity == Qty(old(stock), p, l)
    {
      var key := StockKey(p, l);
      if key in stock {
        return stock[key];
      }
      stock := stock[key := 0];
      return 0;
    }

    method SetInitialStock(p: ProductId, quantity: int, l: LocationType) returns (r: Outcome)
      modifies this
      ensures Movement(stock, r) == StockLedger.SetInitialStock(old(stock), p, quantity, l)
    {
      if quantity < 0 {
        return Fail(QuantityCannotBeNegative);
      }
      var key := StockKey(p, l);
      if key !in stock {
        stock := stock[key := quantity];
      } else {
        stock := stock[key := stock[key] + quantity];
      }
      return Pass;
    }

    method MoveToShipping(p: ProductId, quantity: int) returns (r: Outcome)
      modifies this
      ensures Movement(stock, r) == StockLedger.MoveToShipping(old(stock), p, quantity)
    {
      if quantity <= 0 {
        return Fail(QuantityMustBePositive);
      }
      ghost var s0 := old(stock);
      var shelves := GetOrCreate(p, Shelves);
      var freezer := GetOrCreate(p, Freezer);
      var shipping := GetOrCreate(p, Shipping);
      ghost var t := stock;
      assert t == Touch(Touch(Touch(s0, p, Shelves), p, Freezer), p, Shipping);
      assert shelves == Qty(s0, p, Shelves) && freezer == Qty(s0, p, Freezer) && shipping == Qty(s0, p, Shipping) by {
        assert StockKey(p, Freezer) != StockKey(p, Shelves);
        assert StockKey(p, Shipping) != StockKey(p, Shelves) && StockKey(p, Shipping) != StockKey(p, Freezer);
      }

      var available := shelves + freezer;
      if available < quantity {
        assert Movement(t, Fail(NotEnoughInStorage)) == StockLedger.MoveToShipping(s0, p, quantity);
        return Fail(NotEnoughInStorage);
      }

      var need := quantity;

      // Shelves first
      var takeShelves := Min(shelves, need);
      shelves := shelves - takeShelves;
      shipping := shipping + takeShelves;
      need := need - takeShelves;

      // then Freezer
      if need > 0 {
        var takeFreezer := Min(freezer, need);
        freezer := freezer - takeFreezer;
        shipping := shipping + takeFreezer;
        need := need - takeFreezer;
      }

      assert shelves == Qty(s0, p, Shelves) - Min(Qty(s0, p, Shelves), quantity);
      assert freezer == Qty(s0, p, Freezer) - (quantity - Min(Qty(s0, p, Shelves), quantity));
      assert shipping == Qty(s0, p, Shipping) + quantity;
      stock := stock[StockKey(p, Shelves) := shelves];
      stock := stock[StockKey(p, Freezer) := freezer];
      stock := stock[StockKey(p, Shipping) := shipping];
      assert Movement(stock, Pass) == StockLedger.MoveToShipping(s0, p, quantity);
      return Pass;
    }

    method MoveFromShippingToStorage(p: ProductId, quantity: int) returns (r: Outcome)
      modifies this
      ensures Movement(stock, r) == StockLedger.MoveFromShippingToStorage(old(stock), p, quantity)
    {
      if quantity <= 0 {
        return Fail(QuantityMustBePositive);
      }
      var shipping := GetOrCreate(p, Shipping);
      if shipping < quantity {
        return Fail(NotEnoughInShipping);
      }
      var shelves := GetOrCreate(p, Shelves);

      shipping := shipping - quantity;
      shelves := shelves + quantity;

      stock := stock[StockKey(p, Shipping) := shipping];
      stock := stock[StockKey(p, Shelves) := shelves];
      return Pass;
    }

    method AddToReceiving(p: ProductId, quantity: int) returns (r: Outcome)
      modifies this
      ensures Movement(stock, r) == StockLedger.AddToReceiving(old(stock), p, quantity)
    {
      if quantity <= 0 {
        return Fail(QuantityMustBePositive);
      }
      var receiving := GetOrCreate(p, Receiving);
      receiving := receiving + quantity;
      stock := stock[StockKey(p, Receiving) := receiving];
      return Pass;
    }

    method PutAway(p: ProductId, quantity: int, target: LocationType) returns (r: Outcome)
      modifies this
      ensures Movement(stock, r) == StockLedger.PutAway(old(stock), p, quantity, target)
    {
      if quantity <= 0 {
        return Fail(QuantityMustBePositive);
      }
      if target != Shelves && target != Freezer {
        return Fail(InvalidPutAwayTarget);
      }
      var receiving := GetOrCreate(p, Receiving);
      if receiving < quantity {
        return Fail(NotEnoughInReceiving);
      }
      var dest := GetOrCreate(p, target);

      receiving := receiving - quantity;
      dest := dest + quantity;

      stock := stock[StockKey(p, Receiving) := receiving];
      stock := stock[StockKey(p, target) := dest];
      return Pass;
    }

    method ConsumeFromShipping(p: ProductId, quantity: int) returns (r: Outcome)
      modifies this
      ensures Movement(stock, r) == StockLedger.ConsumeFromShipping(old(stock), p, quantity)
    {
      if quantity <= 0 {
        return Fail(QuantityMustBePositive);
      }
      var key := StockKey(p, Shipping);
      if key !in stock {
        return Fail(NoShippingStock);
      }
      var shipping := stock[key];
      if shipping < quantity {
        return Fail(ShippingShortfall(shipping));
      }
      shipping := shipping - quantity;
      if shipping == 0 {
        stock := stock - {key};
      } else {
        stock := stock[key := shipping];
      }
      return Pass;
    }
  }
}
