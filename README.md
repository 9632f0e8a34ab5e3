# Warehouse core in Dafny

This project models the business core of the Warehouse application. That core is four C# services:

- **InventoryService** keeps the stock ledger, a balance per (product, location) over Receiving, Shelves, Freezer and Shipping. It performs six movements on it.
- **CartService** keeps one shopping cart per customer, with at most one item per product, and turns the cart into a customer order at checkout.
- **CustomerOrderService** creates customer orders, which reserves stock into Shipping. It ships them, which consumes that stock, and cancels them, which returns the stock to Shelves.
- **PurchaseOrderService** runs purchase orders through Ordered → Approved → Shipped → Received. Approved may be skipped. Receiving an order books its lines into Receiving and puts them away on Shelves or in the Freezer.

Each service is a Dafny `class` whose fields are the tables it changes. Each method is written the way the C# method works and is proved against a pure specification function:

- the ledger's movements: module `StockLedger`;
- customer orders: `OrderBook`;
- cart tables: `CartRows`;
- purchase orders: `PurchaseBook`.

The properties the services promise are lemmas about those functions, among them:

- the exact arithmetic of every movement and what it leaves alone;
- what a multi-line loop does when one line fails;
- the cart's contents after each edit;
- the lifecycle of a purchase order;
- the reservation invariant that ties customer orders to the ledger.

Modules and files:

| file | module | contents |
|---|---|---|
| domain.dfy | Domain | ids, locations, statuses, one `Error` per distinct exception message, order lines, blank strings |
| ledger.dfy | StockLedger | the ledger as a partial map and the six movements as functions, walks over order lines, their lemmas |
| inventory.dfy | Inventory | `InventoryService`, imperative |
| queries.dfy | Queries | the repository's `Get` (first match), `Where` and `OrderByDescending` |
| order_book.dfy | OrderBook | customer orders as values, the service's operations as functions, the reservation invariant |
| customer_orders.dfy | CustomerOrders | `CustomerOrderTable` (shared with the cart) and `CustomerOrderService`, imperative |
| cart_rows.dfy | CartRows | cart and item tables as values, cart contents, the item-table edits |
| cart.dfy | Carts | `CartService`, imperative, and the checkout lemma |
| purchase_book.dfy | PurchaseBook | purchase orders as values, the service's operations as functions, the lifecycle |
| purchase_orders.dfy | PurchaseOrders | `PurchaseOrderService`, imperative |

Modelling decisions:

- **The ledger is partial.** A `map<StockKey, int>` keeps an absent row apart from a row holding 0. `GetOrCreate` inserts zero rows, even when the movement that called it then throws. `ConsumeFromShipping` tells "no row" from "too little", and deletes a row that reaches 0.
- **Every repository call commits on its own.** Nothing is rolled back. A loop over an order's lines that throws on line k leaves lines 0..k-1 applied (`StockLedger.ApplyLines`, `StockLedger.ApplyLinesStopsAtFailure`).
- **Exceptions are results.** A thrown exception is an `Err` result, or a `Fail` outcome for a `void` method, carrying the error for that message. `Guid.NewGuid()` and `DateTime.UtcNow` are parameters.
- **Order lines are stored in their order row.** An order is inserted together with its line rows, with no failure point in between, so the line table is folded into the order.

Three points about the code that the model keeps as they are:

- **Nothing is transactional.** `Checkout`, `ShipOrder`, `CancelOrder` and `Receive` leave the lines processed before a failing line applied. The model and its lemmas state exactly that.
- **A supplier mismatch is "not found".** Accept and Ship look a purchase order up by id and supplier together. Another supplier's order gets "Purchase order not found." (`PurchaseBook.SupplierIndex`, `PurchaseBook.Advance`).
- **`OrderStatus` is shared.** Customer and purchase orders use one status type. Customer orders only use Ordered, Shipped and Cancelled; Approved and Received belong to purchase orders.

## Model

| member | source | states |
|---|---|---|
| StockLedger.SetInitialStock | Warehouse.Service/Implementation/InventoryService.cs:40-63 | A negative quantity is refused and nothing changes. Otherwise the (product, location) row exists afterwards and holds its old balance (0 if absent) plus q. |
| StockLedger.MoveToShipping | Warehouse.Service/Implementation/InventoryService.cs:66-97 | q <= 0 is refused untouched. The move succeeds exactly when Shelves + Freezer >= q. The three rows are created even on a refusal. On success, Shelves loses min(Shelves, q), Freezer the rest, Shipping gains q, the total is kept, and Freezer is drawn on only once Shelves is empty. |
| StockLedger.MoveFromShippingToStorage | Warehouse.Service/Implementation/InventoryService.cs:99-113 | q <= 0 is refused. The move succeeds exactly when Shipping >= q. The Shipping row is created before the check. On success, Shipping -= q and Shelves += q. |
| StockLedger.AddToReceiving | Warehouse.Service/Implementation/InventoryService.cs:115-123 | Succeeds exactly when q > 0, and then Receiving += q. |
| StockLedger.PutAway | Warehouse.Service/Implementation/InventoryService.cs:125-141 | Refuses q <= 0 and any target other than Shelves or Freezer, with those errors in that order. It then refuses a short Receiving after creating its row. On success, Receiving -= q and target += q. |
| StockLedger.ConsumeFromShipping | Warehouse.Service/Implementation/InventoryService.cs:143-161 | q <= 0, an absent Shipping row ("no stock") and a short row ("available: n") are three distinct failures, and none changes the ledger. On success Shipping -= q, and a row brought to 0 is deleted. |
| StockLedger.SetInitialStockFrame | Warehouse.Service/Implementation/InventoryService.cs:40-63 | Only the named row changes, and no balance goes negative. |
| StockLedger.MoveToShippingFrame | Warehouse.Service/Implementation/InventoryService.cs:66-97 | Only the product's Shelves, Freezer and Shipping rows change. A refusal changes no balance, only adds zero rows. Balances stay non-negative. |
| StockLedger.MoveFromShippingToStorageFrame | Warehouse.Service/Implementation/InventoryService.cs:99-113 | Only the product's Shipping and Shelves rows change. Freezer is never credited. A refusal changes no balance. Balances stay non-negative. |
| StockLedger.AddToReceivingFrame | Warehouse.Service/Implementation/InventoryService.cs:115-123 | Only the product's Receiving row changes, and balances stay non-negative. |
| StockLedger.PutAwayFrame | Warehouse.Service/Implementation/InventoryService.cs:125-141 | Only the product's Receiving and target rows change. A refusal changes no balance. Balances stay non-negative. |
| StockLedger.ConsumeFromShippingFrame | Warehouse.Service/Implementation/InventoryService.cs:143-161 | Only the product's Shipping row changes, and balances stay non-negative. |
| StockLedger.MoveFromShippingToStorageTotal | Warehouse.Service/Implementation/InventoryService.cs:108-109 | A successful return to Shelves keeps the product's total over the four locations. |
| StockLedger.PutAwayTotal | Warehouse.Service/Implementation/InventoryService.cs:136-137 | A successful put-away keeps the product's total. |
| StockLedger.AddToReceivingTotal | Warehouse.Service/Implementation/InventoryService.cs:119-120 | A successful arrival raises the product's total by q. |
| StockLedger.ConsumeFromShippingTotal | Warehouse.Service/Implementation/InventoryService.cs:155-160 | A successful consumption lowers the product's total by q. |
| StockLedger.SetInitialStockTotal | Warehouse.Service/Implementation/InventoryService.cs:40-63 | Setting initial stock raises the product's total by q. |
| StockLedger.ApplyLineFrame | Warehouse.Service/Implementation/CustomerOrderService.cs:106-109 | One line's movement, or the pair AddToReceiving then PutAway for a purchase order, touches only that product's rows and keeps balances non-negative. |
| StockLedger.ApplyLinesNonNegative | Warehouse.Service/Implementation/PurchaseOrderService.cs:105-109 | However far a walk over an order's lines gets, no balance becomes negative. |
| StockLedger.ApplyLinesFailureSticks | Warehouse.Service/Implementation/CustomerOrderService.cs:106-109 | Once a prefix of the lines has thrown, the remaining lines change nothing. The walk is the prefix's walk. |
| StockLedger.ApplyLinesStopsAtFailure | Warehouse.Service/Implementation/CartService.cs:155-158 | No rollback. A failed walk is line k's failure applied to the ledger that lines 0..k-1 had already changed. |
| StockLedger.ApplyLinesOtherProducts | Warehouse.Service/Implementation/CustomerOrderService.cs:132-133 | Rows of a product that no line names are left exactly as they were. |
| StockLedger.ReserveLineEffect | Warehouse.Service/Implementation/InventoryService.cs:66-97 | Seen from any product p, one reservation keeps p's total and Receiving and never lowers its Shipping. On success, Shipping gains and Shelves + Freezer lose exactly the line's quantity of p. |
| StockLedger.ReserveLinesEffect | Warehouse.Service/Implementation/CartService.cs:155-158 | Reserving a list of lines keeps every product's total, whatever the outcome. On success, Shipping gains and Shelves + Freezer lose each product's summed quantity. |
| StockLedger.ConsumeLinesEffect | Warehouse.Service/Implementation/CustomerOrderService.cs:106-109 | With positive lines and enough in Shipping for every product, consuming never fails. Shipping and the total fall by exactly the summed quantities. Storage and Receiving are untouched. |
| StockLedger.RestoreLinesEffect | Warehouse.Service/Implementation/CustomerOrderService.cs:132-133 | Under the same condition, restoring never fails. Shipping falls and Shelves rises by the summed quantities. Freezer and Receiving are untouched. |
| StockLedger.ConsumeLineEffect | Warehouse.Service/Implementation/InventoryService.cs:143-161 | With a positive quantity and enough in Shipping, one consumption succeeds. Seen from any product p, Shipping falls by the line's quantity of p, and storage and Receiving are untouched. |
| StockLedger.RestoreLineEffect | Warehouse.Service/Implementation/InventoryService.cs:99-113 | With a positive quantity and enough in Shipping, one return succeeds. Seen from any product p, Shipping falls and Shelves rises by the line's quantity of p, and Freezer and Receiving are untouched. |
| StockLedger.ReceiveLineEffect | Warehouse.Service/Implementation/PurchaseOrderService.cs:105-109 | AddToReceiving then PutAway of one positive line never fails when Receiving is non-negative. Only the target row of the line's product gains, by the quantity, and every other balance reads the same. |
| StockLedger.ReceiveLinesEffect | Warehouse.Service/Implementation/PurchaseOrderService.cs:105-109 | On a non-negative ledger, receiving positive lines into Shelves or Freezer never fails. Receiving is net unchanged, the target gains each product's quantity, and nothing else changes. |
| StockLedger.ReserveThenRestore | Warehouse.Service/Implementation/InventoryService.cs:79-109 | Reserving q and returning q restores the product's Shipping, Shelves + Freezer and total. Shelves itself is restored exactly when Shelves alone covered q. |
| Inventory.InventoryService.GetOrCreate | Warehouse.Service/Implementation/InventoryService.cs:22-38 | Returns the row's balance, inserting a zero row if it is absent. |
| Inventory.InventoryService.SetInitialStock | Warehouse.Service/Implementation/InventoryService.cs:40-63 | Leaves the ledger and the outcome exactly as StockLedger.SetInitialStock says. |
| Inventory.InventoryService.MoveToShipping | Warehouse.Service/Implementation/InventoryService.cs:66-97 | Fetches or creates the three rows, takes from Shelves first, then Freezer, and writes back. The result is exactly StockLedger.MoveToShipping. |
| Inventory.InventoryService.MoveFromShippingToStorage | Warehouse.Service/Implementation/InventoryService.cs:99-113 | Exactly StockLedger.MoveFromShippingToStorage. |
| Inventory.InventoryService.AddToReceiving | Warehouse.Service/Implementation/InventoryService.cs:115-123 | Exactly StockLedger.AddToReceiving. |
| Inventory.InventoryService.PutAway | Warehouse.Service/Implementation/InventoryService.cs:125-141 | Exactly StockLedger.PutAway. |
| Inventory.InventoryService.ConsumeFromShipping | Warehouse.Service/Implementation/InventoryService.cs:143-161 | Exactly StockLedger.ConsumeFromShipping, including deleting the row at 0. |
| Queries.FirstIndex | Warehouse.Repository/Implementation/Repository.cs:65-80 | `Get` returns the first matching row, and no row at all exactly when none matches. |
| Queries.Filter | Warehouse.Repository/Implementation/Repository.cs:82-98 | `Where` keeps exactly the rows that satisfy the predicate. |
| Queries.FilterCount | Warehouse.Repository/Implementation/Repository.cs:82-98 | `Where` keeps each matching row as many times as the table holds it, and no other row. |
| Queries.FilterTwice | Warehouse.Repository/Implementation/Repository.cs:82-98 | Two `Where` clauses in a row equal one `Where` on their conjunction. |
| Queries.SortDesc | Warehouse.Repository/Implementation/Repository.cs:94 | `OrderByDescending` returns a permutation of its input, sorted on the key, newest first. |
| Queries.SortedQuery | Warehouse.Repository/Implementation/Repository.cs:82-98 | A filtered, date-descending query returns exactly the matching rows, with their multiplicities, sorted. |
| OrderBook.GetById | Warehouse.Service/Implementation/CustomerOrderService.cs:40-47 | Finds an order with that id exactly when the table holds one. |
| OrderBook.GetAll | Warehouse.Service/Implementation/CustomerOrderService.cs:31-38 | Every order, as a permutation of the table, newest first. |
| OrderBook.GetOrdersForCustomer | Warehouse.Service/Implementation/CustomerOrderService.cs:49-56 | That customer's orders and no others, each as often as the table holds it, newest first. |
| OrderBook.CreateOrder | Warehouse.Service/Implementation/CustomerOrderService.cs:58-90 | A blank customer, q <= 0 and an unknown product are refused, in that order, before any movement. It succeeds exactly when Shelves + Freezer >= q. On success, one Ordered order with the single line (p, q) is appended and q moves to Shipping. A failed reservation inserts no order. |
| OrderBook.CloseOrder | Warehouse.Service/Implementation/CustomerOrderService.cs:92-139 | Ship and Cancel check a blank caller, then a missing order, then a status other than Ordered. On success, the order's lines are walked and only that order's status changes. No other row changes, and only an Ordered row ever changes. |
| OrderBook.ReservedSetStatus | Warehouse.Service/Implementation/CustomerOrderService.cs:111-136 | Changing one order's status changes the reserved stock by exactly that order's contribution before and after. |
| OrderBook.ReservedBounds | Warehouse.Service/Implementation/CustomerOrderService.cs:58-90 | With positive lines, the reservation is non-negative and covers each open order's own lines. |
| OrderBook.ReserveKeepsCover | Warehouse.Service/Implementation/CartService.cs:155-169 | Reserving an Ordered order's lines keeps the reserved stock in Shipping, whether the walk completes and the order is added, or stops part-way and it is not. |
| OrderBook.ClosedOrdersStayClosed | Warehouse.Service/Implementation/CustomerOrderService.cs:102-103 | Shipped and Cancelled are terminal. Neither ship nor cancel accepts or changes such an order. |
| OrderBook.CreateOrderKeepsCover | Warehouse.Service/Implementation/CustomerOrderService.cs:58-90 | CreateOrder keeps every line positive and the open orders' stock in Shipping. |
| OrderBook.ShipOrderUnderCover | Warehouse.Service/Implementation/CustomerOrderService.cs:92-115 | Under that invariant, ShipOrder succeeds exactly when its up-front checks pass. A failure changes no stock. On success, Shipping falls by exactly the order's lines, storage and Receiving are untouched, and the invariant still holds. |
| OrderBook.CancelOrderUnderCover | Warehouse.Service/Implementation/CustomerOrderService.cs:119-139 | Under that invariant, CancelOrder succeeds exactly when its up-front checks pass. On success, the lines go from Shipping back to Shelves, Freezer and Receiving are untouched, and the invariant still holds. |
| OrderBook.CreateThenCancel | Warehouse.Service/Implementation/CustomerOrderService.cs:58-139 | Creating an order and then cancelling it succeeds and restores the product's Shipping balance, Shelves + Freezer and total. |
| CustomerOrders.CustomerOrderService.CreateOrder | Warehouse.Service/Implementation/CustomerOrderService.cs:58-90 | Leaves the order table, the ledger and the result exactly as OrderBook.CreateOrder says. |
| CustomerOrders.CustomerOrderService.ShipOrder | Warehouse.Service/Implementation/CustomerOrderService.cs:92-115 | Loops ConsumeFromShipping over the lines, then sets Shipped. The result is exactly OrderBook.ShipOrder, with a failing line leaving the earlier ones applied. |
| CustomerOrders.CustomerOrderService.CancelOrder | Warehouse.Service/Implementation/CustomerOrderService.cs:119-139 | Loops MoveFromShippingToStorage over the lines, then sets Cancelled. The result is exactly OrderBook.CancelOrder. |
| CartRows.CartIndex | Warehouse.Service/Implementation/CartService.cs:63-70 | Finds the customer's first cart, and none exactly when the customer has none. |
| CartRows.ItemIndex | Warehouse.Service/Implementation/CartService.cs:81-84 | Finds the item of this product in this cart, if there is one. |
| CartRows.CartsAfter | Warehouse.Service/Implementation/CartService.cs:38-61 | GetOrCreateCart keeps one cart per customer and unique cart ids. Afterwards the customer's cart is found. The old carts are an unchanged prefix, and at most one cart is added. |
| CartRows.GetOrCreateCartTwice | Warehouse.Service/Implementation/CartService.cs:38-61 | A second GetOrCreateCart inserts nothing and returns the same cart. |
| CartRows.WithoutTwice | Warehouse.Service/Implementation/CartService.cs:143-144 | Two rounds of deletes equal one round with both sets of ids. |
| CartRows.FilterKeepsValid | Warehouse.Service/Implementation/CartService.cs:134-145 | Deleting item rows keeps unique item ids, one item per product per cart, and positive quantities. |
| CartRows.ContentsAt | Warehouse.Service/Implementation/CartService.cs:81-84 | A product is in the cart's contents exactly when the item lookup finds it, and with that item's quantity. |
| CartRows.ContentsSetQuantity | Warehouse.Service/Implementation/CartService.cs:117-119 | Setting one item's quantity sets that product's quantity in its own cart and changes no other cart. |
| CartRows.ContentsWithout | Warehouse.Service/Implementation/CartService.cs:112-116 | Deleting one item removes exactly that product from its cart's contents, and nothing from other carts. |
| CartRows.ContentsOtherCarts | Warehouse.Service/Implementation/CartService.cs:134-145 | Clearing one cart leaves every other cart's contents unchanged and empties that cart. |
| CartRows.LinesMatchContents | Warehouse.Service/Implementation/CartService.cs:172-181 | The order lines built from a cart's items sum, per product, to the cart's contents. |
| CartRows.CartLinesPositive | Warehouse.Service/Implementation/CartService.cs:172-181 | A cart whose items are positive yields positive order lines. |
| CartRows.AddItem | Warehouse.Service/Implementation/CartService.cs:81-100 | Adding keeps the item table valid, with one item per product. It either updates the existing item or appends one. |
| CartRows.AddItemContents | Warehouse.Service/Implementation/CartService.cs:81-100 | AddToCart adds q to the product's quantity in the cart, starting from 0, and leaves every other cart as it was. |
| CartRows.SetItem | Warehouse.Service/Implementation/CartService.cs:117-119 | Setting a positive quantity keeps the table valid and makes the product's quantity in the cart exactly q. |
| CartRows.DeleteItem | Warehouse.Service/Implementation/CartService.cs:112-116 | Deleting an item keeps the table valid and removes exactly that product from the cart. |
| CartRows.ClearItems | Warehouse.Service/Implementation/CartService.cs:134-145 | Clearing keeps the table valid and leaves the cart with no contents. |
| CartRows.Checkout | Warehouse.Service/Implementation/CartService.cs:147-187 | A customer without a cart gets "Cart not found.", and an empty cart gets "Cart is empty.". In both cases the items, orders and stock stay unchanged. Any failure adds no order and keeps the items. On success the customer has a cart, and the appended order is Ordered, with the given id, customer and date and one line per cart item. The item table becomes ClearItems of that cart: the cart is empty and other carts keep their items (CartRows.ContentsOtherCarts). The item table stays valid throughout. |
| CartRows.DeleteCartIds | Warehouse.Service/Implementation/CartService.cs:138-144 | Deleting, one by one, the items the query returned is the same as deleting every item of that cart. |
| Carts.CartService.GetOrCreateCart | Warehouse.Service/Implementation/CartService.cs:38-61 | Returns the customer's cart, inserting one only when there is none, as CartRows.CartsAfter says. Items are untouched. |
| Carts.CartService.GetCart | Warehouse.Service/Implementation/CartService.cs:63-70 | Returns the customer's cart, or "Cart not found." exactly when the customer has none. |
| Carts.CartService.AddToCart | Warehouse.Service/Implementation/CartService.cs:72-101 | q <= 0 throws before any change. Otherwise the cart is created first. An unknown product throws with the items unchanged. Else the items become CartRows.AddItem. |
| Carts.CartService.UpdateItemQuantity | Warehouse.Service/Implementation/CartService.cs:103-120 | A missing item throws "Cart item not found." with nothing deleted. q <= 0 deletes the item, otherwise its quantity becomes exactly q. |
| Carts.CartService.RemoveFromCart | Warehouse.Service/Implementation/CartService.cs:122-132 | A missing item is a no-op. Otherwise only that item is deleted. |
| Carts.CartService.ClearCart | Warehouse.Service/Implementation/CartService.cs:134-145 | Deletes the cart's items one by one. The table ends as CartRows.ClearItems, so the cart is empty and other carts are untouched. |
| Carts.CartService.Checkout | Warehouse.Service/Implementation/CartService.cs:147-187 | Looks up the cart, refuses an empty one, calls MoveToShipping per item in table order, then inserts the order and clears the cart. Cart, item, order and ledger tables and the result end exactly as CartRows.Checkout says. |
| Carts.CheckoutEffect | Warehouse.Service/Implementation/CartService.cs:147-187 | Whatever the outcome, every order line stays positive, the open orders' stock stays in Shipping, and no product's total changes. On success, the new order's lines sum per product to the cart's contents, and Shipping gains while Shelves + Freezer lose exactly those quantities. |
| PurchaseBook.SupplierIndex | Warehouse.Service/Implementation/PurchaseOrderService.cs:134-138 | Finds an order only when both the id and the supplier match. |
| PurchaseBook.GetById | Warehouse.Service/Implementation/PurchaseOrderService.cs:45-53 | Finds a purchase order with that id exactly when the table holds one. |
| PurchaseBook.GetAll | Warehouse.Service/Implementation/PurchaseOrderService.cs:34-43 | Every purchase order, as a permutation of the table, newest first. |
| PurchaseBook.GetIncomingForSupplier | Warehouse.Service/Implementation/PurchaseOrderService.cs:121-130 | That supplier's Ordered and Approved orders and no others, each as often as the table holds it, newest first. |
| PurchaseBook.CreatePurchaseOrder | Warehouse.Service/Implementation/PurchaseOrderService.cs:55-86 | A blank employee, a blank supplier, q <= 0 and an unknown product are refused, in that order. Otherwise one Ordered order with the single line (p, q) is appended, and the ledger is not an input. |
| PurchaseBook.Advance | Warehouse.Service/Implementation/PurchaseOrderService.cs:132-165 | Accept and Ship report "Purchase order not found." unless id and supplier both match. They refuse a status outside the allowed ones: Ordered for Accept; Ordered or Approved for Ship. Otherwise only that order's status changes, to Approved or to Shipped. |
| PurchaseBook.Receive | Warehouse.Service/Implementation/PurchaseOrderService.cs:88-115 | Checks a blank employee, then a target other than Shelves or Freezer, then a missing order, then a status other than Shipped. On success, the lines are walked into the target and the order becomes Received. |
| PurchaseBook.ReceiveEffect | Warehouse.Service/Implementation/PurchaseOrderService.cs:105-112 | On positive lines and a non-negative ledger, Receive succeeds exactly when its checks pass. A failure changes no stock. On success, the target gains exactly the order's lines, Receiving is net unchanged, and balances stay non-negative. |
| PurchaseBook.SetStatusLater | Warehouse.Service/Implementation/PurchaseOrderService.cs:143-161 | A status change that ranks forwards keeps every line and is a forward step of the table. |
| PurchaseBook.CreateLater | Warehouse.Service/Implementation/PurchaseOrderService.cs:55-86 | Creating only appends, and keeps every line positive. |
| PurchaseBook.ReceiveLater | Warehouse.Service/Implementation/PurchaseOrderService.cs:88-115 | Receiving only moves one Shipped order to Received, and never lowers a balance. |
| PurchaseBook.AdvanceLater | Warehouse.Service/Implementation/PurchaseOrderService.cs:132-165 | Accept and Ship keep every line positive and only move one row forward in the lifecycle. |
| PurchaseBook.ApplyLater | Warehouse.Service/Implementation/PurchaseOrderService.cs:55-165 | Every write operation moves the tables forward. |
| PurchaseBook.RunLater | Warehouse.Service/Implementation/PurchaseOrderService.cs:55-165 | Over any sequence of creates, accepts, ships and receives: rows are only appended, and an order changes only its status, only forwards. A Received order never changes again, and no stock balance ever decreases. |
| PurchaseOrders.PurchaseOrderService.CreatePurchaseOrder | Warehouse.Service/Implementation/PurchaseOrderService.cs:55-86 | Exactly PurchaseBook.CreatePurchaseOrder. |
| PurchaseOrders.PurchaseOrderService.Receive | Warehouse.Service/Implementation/PurchaseOrderService.cs:88-115 | Runs the checks, walks the lines with ReceiveLines, then sets Received. The result is exactly PurchaseBook.Receive, with a failing line leaving the earlier ones applied. |
| PurchaseOrders.PurchaseOrderService.ReceiveLines | Warehouse.Service/Implementation/PurchaseOrderService.cs:105-109 | The foreach over the lines, AddToReceiving then PutAway per line, leaves the ledger and outcome exactly as StockLedger.ApplyLines says, stopping at the first call that throws. |
| PurchaseOrders.PurchaseOrderService.Accept | Warehouse.Service/Implementation/PurchaseOrderService.cs:132-147 | Exactly PurchaseBook.Accept (Ordered -> Approved). |
| PurchaseOrders.PurchaseOrderService.Ship | Warehouse.Service/Implementation/PurchaseOrderService.cs:149-165 | Exactly PurchaseBook.Ship (Ordered or Approved -> Shipped). |

## Left out

- Persistence: Entity Framework, `SaveChanges`, the `Include` navigation loading and the Identity user tables. The tables are sequences held by the service objects, and a lookup returns rows in table order.
- The MVC controllers, the role checks and the external catalog client are outside this core.
- The Product table is a set of product ids, since only its existence checks matter here.
- `Guid.NewGuid()` and `DateTime.UtcNow` are parameters. Fresh ids are assumed distinct where a requires says so (`FreshCartId`, `FreshItemId`).
- Concurrency and transaction isolation: the code has neither, and each call is modelled as running alone.
- Quantity: does not model 32-bit `int` overflow on `Quantity`, because quantities are unbounded integers.
- Domain.IsBlank: does not model `string.IsNullOrWhiteSpace`'s null case, because strings are never null here. Its whitespace set is `char.IsWhiteSpace`'s list written out by code point.
- Queries.SortDesc: does not state the stability of `OrderByDescending` among rows with equal dates. It proves sortedness and permutation only.
- CustomerOrders.CustomerOrderService.CreateOrder: does not model the final `GetById` re-read. It returns the inserted row, which is what the re-read finds when the fresh id is unique. The same holds for ShipOrder, CancelOrder, Accept, Ship, Receive and CreatePurchaseOrder.
- Carts.CartService.Checkout: returns the order together with its lines, where the C# returns the order entity without reloading its lines.
- Carts.CartService.GetOrCreateCart: the cart's items are not loaded into the returned value. They are read from the item table by cart id wherever the code reads `cart.Items`.
- The line tables (`ProductInOrder`, `PurchaseProductInOrder`) are folded into their order rows, because each order is inserted together with its lines with no failure point in between.
