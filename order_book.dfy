/**
 * Customer orders as values: the CustomerOrder row, the queries over the
 * table, CustomerOrderService's operations as functions of the table and the
 * stock ledger, and the invariant that ties the two together: the stock
 * reserved by open (Ordered) orders is always sitting in Shipping.
 */
module OrderBook {
  import opened Domain
  import opened StockLedger
  import opened Queries

  /** A CustomerOrder row with its ProductInOrder lines. */
  datatype CustomerOrder = CustomerOrder(
    id: Guid,
    customerId: string,
    lines: seq<OrderLine>,
    dateCreated: Timestamp,
    status: OrderStatus)

  /** Get(o => o.Id == id). */
  function OrderIndex(rows: seq<CustomerOrder>, id: Guid): (r: Option<nat>)
    ensures r.Some? ==> r.value < |rows| && rows[r.value].id == id
    ensures r.Some? ==> forall j :: 0 <= j < r.value ==> rows[j].id != id
    ensures r.None? <==> forall j :: 0 <= j < |rows| ==> rows[j].id != id
  {
    FirstIndex(rows, (o: CustomerOrder) => o.id == id)
  }

  /** GetById. */
  function GetById(rows: seq<CustomerOrder>, id: Guid): (r: Option<CustomerOrder>)
    ensures r.Some? <==> exists j :: 0 <= j < |rows| && rows[j].id == id
    ensures r.Some? ==> r.value in rows && r.value.id == id
  {
    match OrderIndex(rows, id)
    case None => None
    case Some(i) => Some(rows[i])
  }

  /** GetAll: every order, newest first. */
  function GetAll(rows: seq<CustomerOrder>): (r: seq<CustomerOrder>)
    ensures SortedDesc(r, (o: CustomerOrder) => o.dateCreated)
    ensures multiset(r) == multiset(rows)
  {
    SortDesc(rows, (o: CustomerOrder) => o.dateCreated)
  }

  /** GetOrdersForCustomer: that customer's orders and no others, newest first. */
  function GetOrdersForCustomer(rows: seq<CustomerOrder>, customerId: string): (r: seq<CustomerOrder>)
    ensures SortedDesc(r, (o: CustomerOrder) => o.dateCreated)
    ensures forall o :: o in r <==> o in rows && o.customerId == customerId
    ensures forall o :: multiset(r)[o] == if o.customerId == customerId then multiset(rows)[o] else 0
  {
    SortedQuery(rows, (o: CustomerOrder) => o.customerId == customerId, (o: CustomerOrder) => o.dateCreated);
    SortDesc(Filter(rows, (o: CustomerOrder) => o.customerId == customerId), (o: CustomerOrder) => o.dateCreated)
  }

  // ---------------------------------------------------------------------
  // Reservations
  // ---------------------------------------------------------------------

  /** What an order holds in Shipping for product `p`: its lines while it is
      Ordered, nothing once it is shipped or cancelled. */
  function Contribution(o: CustomerOrder, p: ProductId): int
  {
    if o.status == Ordered then SumFor(o.lines, p) else 0
  }

  /** Stock of `p` reserved by the open orders. */
  function Reserved(rows: seq<CustomerOrder>, p: ProductId): int
    decreases |rows|
  {
    if rows == [] then 0
    else Reserved(rows[..|rows| - 1], p) + Contribution(rows[|rows| - 1], p)
  }

  /** Every order line has a positive quantity. */
  ghost predicate WellFormed(rows: seq<CustomerOrder>)
  {
    forall i :: 0 <= i < |rows| ==> PositiveLines(rows[i].lines)
  }

  /** The reserved stock of every product is in Shipping. */
  ghost predicate Covered(rows: seq<CustomerOrder>, s: Stock)
  {
    forall p :: Reserved(rows, p) <= Qty(s, p, Shipping)
  }

  lemma ReservedAppend(rows: seq<CustomerOrder>, o: CustomerOrder, p: ProductId)
    ensures Reserved(rows + [o], p) == Reserved(rows, p) + Contribution(o, p)
  {
    assert (rows + [o])[..|rows|] == rows;
  }

  /** Changing one order's status changes the reservation by exactly what
      that order contributes before and after. */
  lemma {:induction false} ReservedSetStatus(rows: seq<CustomerOrder>, i: nat, st: OrderStatus, p: ProductId)
    requires i < |rows|
    ensures Reserved(rows[i := rows[i].(status := st)], p)
         == Reserved(rows, p) - Contribution(rows[i], p) + Contribution(rows[i].(status := st), p)
    decreases |rows|
  {
    var n := |rows| - 1;
    var rows' := rows[i := rows[i].(status := st)];
    if i == n {
      assert rows'[..n] == rows[..n];
    } else {
      assert rows'[..n] == rows[..n][i := rows[i].(status := st)];
      ReservedSetStatus(rows[..n], i, st, p);
    }
  }

  /** The reservation is the sum of non-negative contributions, so it covers
      each open order's own lines. */
  lemma {:induction false} ReservedBounds(rows: seq<CustomerOrder>, p: ProductId)
    requires WellFormed(rows)
    ensures Reserved(rows, p) >= 0
    ensures forall i :: 0 <= i < |rows| ==> Reserved(rows, p) >= Contribution(rows[i], p)
    decreases |rows|
  {
    if rows != [] {
      var n := |rows| - 1;
      var init := rows[..n];
      assert WellFormed(init) by {
        forall i | 0 <= i < |init| ensures PositiveLines(init[i].lines) {
          assert init[i] == rows[i];
        }
      }
      ReservedBounds(init, p);
      forall i | 0 <= i < |rows| ensures Contribution(rows[i], p) >= 0 {
        SumForBounds(rows[i].lines, p);
      }
      forall i | 0 <= i < |rows| ensures Reserved(rows, p) >= Contribution(rows[i], p) {
        if i < n {
          assert init[i] == rows[i];
        }
      }
    }
  }

  /** Reserving an open order's lines keeps the reservation covered, whether
      the walk completes (and the order is added) or stops part-way (and it
      is not). */
  lemma ReserveKeepsCover(rows: seq<CustomerOrder>, s: Stock, o: CustomerOrder)
    requires Covered(rows, s)
    requires o.status == Ordered
    ensures var m := ApplyLines(s, Reserve, o.lines);
      && (m.outcome.Pass? ==> Covered(rows + [o], m.stock))
      && (m.outcome.Fail? ==> Covered(rows, m.stock))
  {
    var m := ApplyLines(s, Reserve, o.lines);
    forall p
      ensures m.outcome.Pass? ==> Reserved(rows + [o], p) <= Qty(m.stock, p, Shipping)
      ensures m.outcome.Fail? ==> Reserved(rows, p) <= Qty(m.stock, p, Shipping)
    {
      ReserveLinesEffect(s, o.lines, p);
      ReservedAppend(rows, o, p);
    }
  }

  // ---------------------------------------------------------------------
  // CustomerOrderService, as functions of the order table and the ledger
  // ---------------------------------------------------------------------

  /** What an operation returned (or threw), and the two tables after it. */
  datatype Step = Step(result: Result<CustomerOrder>, rows: seq<CustomerOrder>, stock: Stock)

  /** CreateOrder: validate, reserve the quantity, then insert an Ordered
      order with its one line. A failed reservation inserts no order but can
      leave the zero rows MoveToShipping created. */
  function CreateOrder(rows: seq<CustomerOrder>, s: Stock, products: set<ProductId>, customerId: string,
                       p: ProductId, q: int, id: Guid, now: Timestamp): (r: Step)
    ensures IsBlank(customerId) ==> r == Step(Err(CustomerIdRequired), rows, s)
    ensures !IsBlank(customerId) && q <= 0 ==> r == Step(Err(QuantityMustBePositive), rows, s)
    ensures !IsBlank(customerId) && q > 0 && p !in products ==> r == Step(Err(ProductNotFound), rows, s)
    ensures r.result.Ok? <==> !IsBlank(customerId) && q > 0 && p in products && Storage(s, p) >= q
    ensures r.result.Err? ==> r.rows == rows
    ensures r.result.Ok? ==>
      && r.result.value == CustomerOrder(id, customerId, [OrderLine(p, q)], now, Ordered)
      && r.rows == rows + [r.result.value]
      && Qty(r.stock, p, Shipping) == Qty(s, p, Shipping) + q
      && Storage(r.stock, p) == Storage(s, p) - q
  {
    if IsBlank(customerId) then Step(Err(CustomerIdRequired), rows, s)
    else if q <= 0 then Step(Err(QuantityMustBePositive), rows, s)
    else if p !in products then Step(Err(ProductNotFound), rows, s)
    else
      var m := MoveToShipping(s, p, q);
      if m.outcome.Fail? then Step(Err(m.outcome.error), rows, m.stock)
      else
        var o := CustomerOrder(id, customerId, [OrderLine(p, q)], now, Ordered);
        Step(Ok(o), rows + [o], m.stock)
  }

  /** ShipOrder and CancelOrder share one shape: check the caller, find the
      order, demand Ordered, walk its lines with `a`, then set status `to`. */
  function CloseOrder(rows: seq<CustomerOrder>, s: Stock, orderId: Guid, performedBy: string,
                      a: LineAction, to: OrderStatus, notOrdered: Error): (r: Step)
    ensures IsBlank(performedBy) ==> r == Step(Err(PerformedByRequired), rows, s)
    ensures !IsBlank(performedBy) && OrderIndex(rows, orderId).None? ==> r == Step(Err(OrderNotFound), rows, s)
    ensures !IsBlank(performedBy) && OrderIndex(rows, orderId).Some? && rows[OrderIndex(rows, orderId).value].status != Ordered
      ==> r == Step(Err(notOrdered), rows, s)
    ensures r.result.Err? ==> r.rows == rows
    ensures r.result.Ok? ==>
      && OrderIndex(rows, orderId).Some?
      && var i := OrderIndex(rows, orderId).value;
      && rows[i].status == Ordered
      && r.result.value == rows[i].(status := to)
      && r.rows == rows[i := r.result.value]
      && r.stock == ApplyLines(s, a, rows[i].lines).stock
    // only an Ordered order ever changes, and only its status, to `to`
    ensures |r.rows| == |rows|
    ensures forall j :: 0 <= j < |rows| ==>
      r.rows[j] == rows[j] || (rows[j].status == Ordered && r.rows[j] == rows[j].(status := to))
  {
    if IsBlank(performedBy) then Step(Err(PerformedByRequired), rows, s)
    else match OrderIndex(rows, orderId)
      case None => Step(Err(OrderNotFound), rows, s)
      case Some(i) =>
        if rows[i].status != Ordered then Step(Err(notOrdered), rows, s)
        else
          var m := ApplyLines(s, a, rows[i].lines);
          if m.outcome.Fail? then Step(Err(m.outcome.error), rows, m.stock)
          else
            var o := rows[i].(status := to);
            Step(Ok(o), rows[i := o], m.stock)
  }

  /** ShipOrder: consume the lines from Shipping, then Ordered -> Shipped. */
  function ShipOrder(rows: seq<CustomerOrder>, s: Stock, orderId: Guid, performedBy: string): Step
  {
    CloseOrder(rows, s, orderId, performedBy, Consume, Shipped, OnlyOrderedCanBeShipped)
  }

  /** CancelOrder: return the lines from Shipping to Shelves, then Ordered -> Cancelled. */
  function CancelOrder(rows: seq<CustomerOrder>, s: Stock, orderId: Guid, performedBy: string): Step
  {
    CloseOrder(rows, s, orderId, performedBy, Restore, Cancelled, OnlyOrderedCanBeCancelled)
  }

  /** Shipped and Cancelled are terminal: neither operation accepts them. */
  lemma ClosedOrdersStayClosed(rows: seq<CustomerOrder>, s: Stock, orderId: Guid, performedBy: string, i: nat)
    requires i < |rows| && rows[i].status in {Shipped, Cancelled}
    ensures ShipOrder(rows, s, orderId, performedBy).rows[i] == rows[i]
    ensures CancelOrder(rows, s, orderId, performedBy).rows[i] == rows[i]
    ensures OrderIndex(rows, orderId) == Some(i) ==>
      && ShipOrder(rows, s, orderId, performedBy).result.Err?
      && CancelOrder(rows, s, orderId, performedBy).result.Err?
  {
  }

  // ---------------------------------------------------------------------
  // The reservation invariant across the service
  // ---------------------------------------------------------------------

  /** CreateOrder keeps every line positive and the reservation covered. */
  lemma CreateOrderKeepsCover(rows: seq<CustomerOrder>, s: Stock, products: set<ProductId>, customerId: string,
                              p: ProductId, q: int, id: Guid, now: Timestamp)
    requires WellFormed(rows) && Covered(rows, s)
    ensures var r := CreateOrder(rows, s, products, customerId, p, q, id, now);
      WellFormed(r.rows) && Covered(r.rows, r.stock)
  {
    var r := CreateOrder(rows, s, products, customerId, p, q, id, now);
    if !IsBlank(customerId) && q > 0 && p in products {
      var o := CustomerOrder(id, customerId, [OrderLine(p, q)], now, Ordered);
      var m := MoveToShipping(s, p, q);
      assert ApplyLines(s, Reserve, o.lines) == m by {
        assert o.lines[..0] == [];
      }
      ReserveKeepsCover(rows, s, o);
      if m.outcome.Pass? {
        assert r.rows == rows + [o] && r.stock == m.stock;
        assert WellFormed(rows + [o]) by {
          forall i | 0 <= i < |rows| + 1 ensures PositiveLines((rows + [o])[i].lines) {
            if i < |rows| {
              assert (rows + [o])[i] == rows[i];
            }
          }
        }
      } else {
        assert r.rows == rows && r.stock == m.stock;
      }
    }
  }

  /** Under the invariant, ShipOrder fails only on its up-front checks, and
      then changes nothing; when it succeeds, Shipping loses exactly the
      order's lines, Shelves, Freezer and Receiving are untouched, and the
      invariant still holds. */
  lemma {:induction false} ShipOrderUnderCover(rows: seq<CustomerOrder>, s: Stock, orderId: Guid, performedBy: string)
    requires WellFormed(rows) && Covered(rows, s)
    ensures var r := ShipOrder(rows, s, orderId, performedBy);
      && (r.result.Ok? <==>
            !IsBlank(performedBy) && OrderIndex(rows, orderId).Some?
            && rows[OrderIndex(rows, orderId).value].status == Ordered)
      && (r.result.Err? ==> r.stock == s)
      && (r.result.Ok? ==> forall p ::
            && Qty(r.stock, p, Shipping) == Qty(s, p, Shipping) - SumFor(r.result.value.lines, p)
            && Storage(r.stock, p) == Storage(s, p)
            && Qty(r.stock, p, Receiving) == Qty(s, p, Receiving))
      && WellFormed(r.rows) && Covered(r.rows, r.stock)
  {
    if !IsBlank(performedBy) && OrderIndex(rows, orderId).Some? {
      var i := OrderIndex(rows, orderId).value;
      var o := rows[i];
      if o.status == Ordered {
        forall p ensures SumFor(o.lines, p) <= Qty(s, p, Shipping) {
          ReservedBounds(rows, p);
        }
        ConsumeLinesEffect(s, o.lines);
        var m := ApplyLines(s, Consume, o.lines);
        var rows' := rows[i := o.(status := Shipped)];
        forall p ensures Reserved(rows', p) <= Qty(m.stock, p, Shipping) {
          ReservedSetStatus(rows, i, Shipped, p);
        }
        assert WellFormed(rows') by {
          forall j | 0 <= j < |rows'| ensures PositiveLines(rows'[j].lines) {
            assert rows'[j].lines == rows[j].lines;
          }
        }
      }
    }
  }

  /** Under the invariant, CancelOrder fails only on its up-front checks, and
      then changes nothing; when it succeeds, the order's lines go from
      Shipping back to Shelves, Freezer and Receiving are untouched, and the
      invariant still holds. */
  lemma {:induction false} CancelOrderUnderCover(rows: seq<CustomerOrder>, s: Stock, orderId: Guid, performedBy: string)
    requires WellFormed(rows) && Covered(rows, s)
    ensures var r := CancelOrder(rows, s, orderId, performedBy);
      && (r.result.Ok? <==>
            !IsBlank(performedBy) && OrderIndex(rows, orderId).Some?
            && rows[OrderIndex(rows, orderId).value].status == Ordered)
      && (r.result.Err? ==> r.stock == s)
      && (r.result.Ok? ==> forall p ::
            && Qty(r.stock, p, Shipping) == Qty(s, p, Shipping) - SumFor(r.result.value.lines, p)
            && Qty(r.stock, p, Shelves) == Qty(s, p, Shelves) + SumFor(r.result.value.lines, p)
            && Qty(r.stock, p, Freezer) == Qty(s, p, Freezer)
            && Qty(r.stock, p, Receiving) == Qty(s, p, Receiving))
      && WellFormed(r.rows) && Covered(r.rows, r.stock)
  {
    if !IsBlank(performedBy) && OrderIndex(rows, orderId).Some? {
      var i := OrderIndex(rows, orderId).value;
      var o := rows[i];
      if o.status == Ordered {
        forall p ensures SumFor(o.lines, p) <= Qty(s, p, Shipping) {
          ReservedBounds(rows, p);
        }
        RestoreLinesEffect(s, o.lines);
        var m := ApplyLines(s, Restore, o.lines);
        var rows' := rows[i := o.(status := Cancelled)];
        forall p ensures Reserved(rows', p) <= Qty(m.stock, p, Shipping) {
          ReservedSetStatus(rows, i, Cancelled, p);
        }
        assert WellFormed(rows') by {
          forall j | 0 <= j < |rows'| ensures PositiveLines(rows'[j].lines) {
            assert rows'[j].lines == rows[j].lines;
          }
        }
      }
    }
  }

  /** Creating an order and cancelling it gives back the product's Shipping
      balance and its Shelves + Freezer stock (the returned units all land on
      Shelves). */
  lemma CreateThenCancel(rows: seq<CustomerOrder>, s: Stock, products: set<ProductId>, customerId: string,
                         p: ProductId, q: int, id: Guid, now: Timestamp, performedBy: string)
    requires NonNegative(s)
    requires OrderIndex(rows, id).None?
    requires !IsBlank(performedBy)
    requires CreateOrder(rows, s, products, customerId, p, q, id, now).result.Ok?
    ensures var c := CreateOrder(rows, s, products, customerId, p, q, id, now);
      var r := CancelOrder(c.rows, c.stock, id, performedBy);
      && r.result.Ok?
      && r.result.value == c.result.value.(status := Cancelled)
      && Qty(r.stock, p, Shipping) == Qty(s, p, Shipping)
      && Storage(r.stock, p) == Storage(s, p)
      && Total(r.stock, p) == Total(s, p)
  {
    var c := CreateOrder(rows, s, products, customerId, p, q, id, now);
    var o := c.result.value;
    assert c.rows[|rows|] == o;
    assert OrderIndex(c.rows, id) == Some(|rows|);
    assert ApplyLines(c.stock, Restore, o.lines) == MoveFromShippingToStorage(c.stock, p, q) by {
      assert o.lines[..0] == [];
    }
    ReserveThenRestore(s, p, q);
  }
}
