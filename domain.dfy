/**
 * Shared vocabulary of the warehouse core: identifiers, the location and
 * order-status enumerations, the failures the services raise, and the
 * (product, quantity) lines that customer and purchase orders carry.
 */
module Domain {

  /** A Guid primary key; fresh ones are supplied by the caller. */
  type Guid = nat
  type ProductId = Guid
  /** DateTime.UtcNow, as a tick count supplied by the caller. */
  type Timestamp = int

  /** The four places a product's stock can be. */
  datatype LocationType = Receiving | Shelves | Freezer | Shipping

  /** One status enumeration shared by customer and purchase orders. */
  datatype OrderStatus = Ordered | Approved | Shipped | Received | Cancelled

  /** One constructor per distinct exception message of the services. */
  datatype Error =
    | QuantityCannotBeNegative          // "Quantity cannot be negative."
    | QuantityMustBePositive            // "Quantity must be > 0."
    | NotEnoughInStorage                // "Not enough stock in Shelves + Freezer."
    | NotEnoughInShipping               // "Not enough stock in Shipping."
    | InvalidPutAwayTarget              // "PutAway target must be Shelves or Freezer."
    | NotEnoughInReceiving              // "Not enough stock in Receiving."
    | NoShippingStock                   // "No stock in Shipping for this product."
    | ShippingShortfall(available: int) // "Not enough quantity in Shipping. Available: {n}"
    | CartNotFound                      // "Cart not found."
    | CartItemNotFound                  // "Cart item not found."
    | CartEmpty                         // "Cart is empty."
    | ProductNotFound                   // "Product not found."
    | CustomerIdRequired                // "CustomerId is required."
    | PerformedByRequired               // "PerformedBy is required."
    | OrderNotFound                     // "Order not found."
    | OnlyOrderedCanBeShipped           // "Only Ordered orders can be shipped."
    | OnlyOrderedCanBeCancelled         // "Only Ordered orders can be cancelled."
    | EmployeeIdRequired                // "EmployeeId is required."
    | SupplierIdRequired                // "SupplierId is required."
    | InvalidPutAwayLocation            // "Invalid put-away location."
    | PurchaseOrderNotFound             // "Purchase order not found."
    | OnlyShippedCanBeReceived          // "Only Shipped PO can be received."
    | OnlyOrderedCanBeAccepted          // "Only Ordered purchase orders can be accepted."
    | OnlyOrderedOrApprovedCanBeShipped // "Only Ordered/Approved purchase orders can be shipped."

  /** The result of a void operation: it returned, or it threw. */
  datatype Outcome = Pass | Fail(error: Error)

  /** The result of an operation that returns a value, or threw. */
  datatype Result<T> = Ok(value: T) | Err(error: Error)

  datatype Option<T> = None | Some(value: T)

  /** A line of a customer order (ProductInOrder) or of a purchase order
      (PurchaseProductInOrder): both have exactly this shape. */
  datatype OrderLine = OrderLine(productId: ProductId, quantity: int)

  /** What a line contributes to product `p`. */
  function LineQty(line: OrderLine, p: ProductId): int
  {
    if line.productId == p then line.quantity else 0
  }

  /** Sum of the quantities of the lines for product `p`; recursion on the last
      line, matching the order in which the services walk the lines. */
  function SumFor(lines: seq<OrderLine>, p: ProductId): int
    decreases |lines|
  {
    if lines == [] then 0
    else SumFor(lines[..|lines| - 1], p) + LineQty(lines[|lines| - 1], p)
  }

  ghost predicate PositiveLines(lines: seq<OrderLine>)
  {
    forall i :: 0 <= i < |lines| ==> lines[i].quantity > 0
  }

  /** Lines with positive quantities contribute a non-negative amount of every
      product, and at least each line's own quantity of its product. */
  lemma {:induction false} SumForBounds(lines: seq<OrderLine>, p: ProductId)
    requires PositiveLines(lines)
    ensures SumFor(lines, p) >= 0
    ensures forall i :: 0 <= i < |lines| && lines[i].productId == p ==> SumFor(lines, p) >= lines[i].quantity
    decreases |lines|
  {
    if lines != [] {
      var init := lines[..|lines| - 1];
      assert PositiveLines(init) by {
        forall i | 0 <= i < |init| ensures init[i].quantity > 0 {
          assert init[i] == lines[i];
        }
      }
      SumForBounds(init, p);
      forall i | 0 <= i < |lines| && lines[i].productId == p
        ensures SumFor(lines, p) >= lines[i].quantity
      {
        if i < |lines| - 1 {
          assert init[i] == lines[i];
        }
      }
    }
  }

  /** char.IsWhiteSpace: the Unicode space separators plus the control
      characters U+0009..U+000D, U+0085 and the line/paragraph separators. */
  predicate IsWhiteSpace(c: char)
  {
    c == ' ' || ('\t' <= c <= '\r') || c == '\U{85}' || c == '\U{A0}' || c == '\U{1680}'
    || ('\U{2000}' <= c <= '\U{200A}') || c == '\U{2028}' || c == '\U{2029}'
    || c == '\U{202F}' || c == '\U{205F}' || c == '\U{3000}'
  }

  /** string.IsNullOrWhiteSpace for a non-null string. */
  predicate IsBlank(s: string)
  {
    forall i :: 0 <= i < |s| ==> IsWhiteSpace(s[i])
  }
}
