/**
 * Purchase orders as values: the PurchaseOrder row, the queries over the
 * table, PurchaseOrderService's operations as functions of the table (and,
 * for Receive, of the stock ledger), and the lifecycle they implement:
 * Ordered -> Approved -> Shipped -> Received, with Approved optional, where
 * no operation ever moves an order backwards or touches a Received one, and
 * receiving never removes stock.
 */
module PurchaseBook {
  import opened Domain
  import opened StockLedger
  import opened Queries

  /** A PurchaseOrder row with its PurchaseProductInOrder lines. */
  datatype PurchaseOrder = PurchaseOrder(
    id: Guid,
    employeeId: string,
    supplierId: string,
    lines: seq<OrderLine>,
    dateCreated: Timestamp,
    status: OrderStatus)

  /** Get(o => o.Id == id). */
  function PurchaseIndex(rows: seq<PurchaseOrder>, id: Guid): (r: Option<nat>)
    ensures r.Some? ==> r.value < |rows| && rows[r.value].id == id
    ensures r.Some? ==> forall j :: 0 <= j < r.value ==> rows[j].id != id
    ensures r.None? <==> forall j :: 0 <= j < |rows| ==> rows[j].id != id
  {
    FirstIndex(rows, (o: PurchaseOrder) => o.id == id)
  }

  /** Get(x => x.Id == id && x.SupplierId == supplierId): a supplier sees
      only its own orders. */
  function SupplierIndex(rows: seq<PurchaseOrder>, id: Guid, supplierId: string): (r: Option<nat>)
    ensures r.Some? ==> r.value < |rows| && rows[r.value].id == id && rows[r.value].supplierId == supplierId
    ensures r.Some? ==> forall j :: 0 <= j < r.value ==> !(rows[j].id == id && rows[j].supplierId == supplierId)
    ensures r.None? <==> forall j :: 0 <= j < |rows| ==> !(rows[j].id == id && rows[j].supplierId == supplierId)
  {
    FirstIndex(rows, (o: PurchaseOrder) => o.id == id && o.supplierId == supplierId)
  }

  /** GetById. */
  function GetById(rows: seq<PurchaseOrder>, id: Guid): (r: Option<PurchaseOrder>)
    ensures r.Some? <==> exists j :: 0 <= j < |rows| && rows[j].id == id
    ensures r.Some? ==> r.value in rows && r.value.id == id
  {
    match PurchaseIndex(rows, id)
    case None => None
    case Some(i) => Some(rows[i])
  }

  /** GetAll: every purchase order, newest first. */
  function GetAll(rows: seq<PurchaseOrder>): (r: seq<PurchaseOrder>)
    ensures SortedDesc(r, (o: PurchaseOrder) => o.dateCreated)
    ensures multiset(r) == multiset(rows)
  {
    SortDesc(rows, (o: PurchaseOrder) => o.dateCreated)
  }

  /** The orders a supplier still has to act on. */
  predicate Incoming(o: PurchaseOrder, supplierId: string)
  {
    o.supplierId == supplierId && (o.status == Ordered || o.status == Approved)
  }

  /** GetIncomingForSupplier: the supplier's Ordered and Approved orders and
      no others, newest first. */
  function GetIncomingForSupplier(rows: seq<PurchaseOrder>, supplierId: string): (r: seq<PurchaseOrder>)
    ensures SortedDesc(r, (o: PurchaseOrder) => o.dateCreated)
    ensures forall o :: o in r <==> o in rows && Incoming(o, supplierId)
    ensures forall o :: multiset(r)[o] == if Incoming(o, supplierId) then multiset(rows)[o] else 0
  {
    SortedQuery(rows, (o: PurchaseOrder) => Incoming(o, supplierId), (o: PurchaseOrder) => o.dateCreated);
    SortDesc(Filter(rows, (o: PurchaseOrder) => Incoming(o, supplierId)), (o: PurchaseOrder) => o.dateCreated)
  }

  // ---------------------------------------------------------------------
  // PurchaseOrderService, as functions of the table and the ledger
  // ---------------------------------------------------------------------

  /** What an operation on the table alone returned (or threw), and the table after it. */
  datatype Update = Update(result: Result<PurchaseOrder>, rows: seq<PurchaseOrder>)

  /** What Receive returned (or threw), and the table and the ledger after it. */
  datatype Step = Step(result: Result<PurchaseOrder>, rows: seq<PurchaseOrder>, stock: Stock)

  /** CreatePurchaseOrder: validate, then insert an Ordered order with its one line. */
  function CreatePurchaseOrder(rows: seq<PurchaseOrder>, products: set<ProductId>, employeeId: string,
                               supplierId: string, p: ProductId, q: int, id: Guid, now: Timestamp): (r: Update)
    ensures IsBlank(employeeId) ==> r == Update(Err(EmployeeIdRequired), rows)
    ensures !IsBlank(employeeId) && IsBlank(supplierId) ==> r == Update(Err(SupplierIdRequired), rows)
    ensures !IsBlank(employeeId) && !IsBlank(supplierId) && q <= 0 ==> r == Update(Err(QuantityMustBePositive), rows)
    ensures !IsBlank(employeeId) && !IsBlank(supplierId) && q > 0 && p !in products
      ==> r == Update(Err(ProductNotFound), rows)
    ensures r.result.Ok? <==> !IsBlank(employeeId) && !IsBlank(supplierId) && q > 0 && p in products
    ensures r.result.Ok? ==>
      && r.result.value == PurchaseOrder(id, employeeId, supplierId, [OrderLine(p, q)], now, Ordered)
      && r.rows == rows + [r.result.value]
  {
    if IsBlank(employeeId) then Update(Err(EmployeeIdRequired), rows)
    else if IsBlank(supplierId) then Update(Err(SupplierIdRequired), rows)
    else if q <= 0 then Update(Err(QuantityMustBePositive), rows)
    else if p !in products then Update(Err(ProductNotFound), rows)
    else
      var o := PurchaseOrder(id, employeeId, supplierId, [OrderLine(p, q)], now, Ordered);
      Update(Ok(o), rows + [o])
  }

  /** Accept and Ship share one shape: find the supplier's order, demand one
      of the `from` statuses, set status `to`. */
  function Advance(rows: seq<PurchaseOrder>, orderId: Guid, supplierId: string,
                   from: set<OrderStatus>, to: OrderStatus, refused: Error): (r: Update)
    ensures SupplierIndex(rows, orderId, supplierId).None? ==> r == Update(Err(PurchaseOrderNotFound), rows)
    ensures SupplierIndex(rows, orderId, supplierId).Some?
         && rows[SupplierIndex(rows, orderId, supplierId).value].status !in from
      ==> r == Update(Err(refused), rows)
    ensures r.result.Ok? <==>
      SupplierIndex(rows, orderId, supplierId).Some? && rows[SupplierIndex(rows, orderId, supplierId).value].status in from
    ensures r.result.Ok? ==>
      var i := SupplierIndex(rows, orderId, supplierId).value;
      && r.result.value == rows[i].(status := to)
      && r.rows == rows[i := r.result.value]
  {
    match SupplierIndex(rows, orderId, supplierId)
    case None => Update(Err(PurchaseOrderNotFound), rows)
    case Some(i) =>
      if rows[i].status !in from then Update(Err(refused), rows)
      else
        var o := rows[i].(status := to);
        Update(Ok(o), rows[i := o])
  }

  /** Accept (supplier): Ordered -> Approved. */
  function Accept(rows: seq<PurchaseOrder>, orderId: Guid, supplierId: string): Update
  {
    Advance(rows, orderId, supplierId, {Ordered}, Approved, OnlyOrderedCanBeAccepted)
  }

  /** Ship (supplier): Ordered or Approved -> Shipped. */
  function Ship(rows: seq<PurchaseOrder>, orderId: Guid, supplierId: string): Update
  {
    Advance(rows, orderId, supplierId, {Ordered, Approved}, Shipped, OnlyOrderedOrApprovedCanBeShipped)
  }

  /** Receive (employee): check the employee and the target, find the order,
      demand Shipped, book every line into Receiving and put it away at the
      target, then Shipped -> Received. The walk has no rollback: a line
      that throws leaves the earlier lines booked and the order Shipped. */
  function Receive(rows: seq<PurchaseOrder>, s: Stock, orderId: Guid, employeeId: string,
                   target: LocationType): (r: Step)
    ensures IsBlank(employeeId) ==> r == Step(Err(EmployeeIdRequired), rows, s)
    ensures !IsBlank(employeeId) && target != Shelves && target != Freezer
      ==> r == Step(Err(InvalidPutAwayLocation), rows, s)
    ensures !IsBlank(employeeId) && (target == Shelves || target == Freezer) && PurchaseIndex(rows, orderId).None?
      ==> r == Step(Err(PurchaseOrderNotFound), rows, s)
    ensures !IsBlank(employeeId) && (target == Shelves || target == Freezer) && PurchaseIndex(rows, orderId).Some?
         && rows[PurchaseIndex(rows, orderId).value].status != Shipped
      ==> r == Step(Err(OnlyShippedCanBeReceived), rows, s)
    ensures r.result.Err? ==> r.rows == rows
    ensures r.result.Ok? ==>
      && PurchaseIndex(rows, orderId).Some?
      && var i := PurchaseIndex(rows, orderId).value;
      && rows[i].status == Shipped
      && r.result.value == rows[i].(status := Received)
      && r.rows == rows[i := r.result.value]
      && r.stock == ApplyLines(s, ReceiveInto(target), rows[i].lines).stock
  {
    if IsBlank(employeeId) then Step(Err(EmployeeIdRequired), rows, s)
    else if target != Shelves && target != Freezer then Step(Err(InvalidPutAwayLocation), rows, s)
    else match PurchaseIndex(rows, orderId)
      case None => Step(Err(PurchaseOrderNotFound), rows, s)
      case Some(i) =>
        if rows[i].status != Shipped then Step(Err(OnlyShippedCanBeReceived), rows, s)
        else
          var m := ApplyLines(s, ReceiveInto(target), rows[i].lines);
          if m.outcome.Fail? then Step(Err(m.outcome.error), rows, m.stock)
          else
            var o := rows[i].(status := Received);
            Step(Ok(o), rows[i := o], m.stock)
  }

  // ---------------------------------------------------------------------
  // Receiving
  // ---------------------------------------------------------------------

  /** Every purchase order line has a positive quantity. */
  ghost predicate WellFormed(rows: seq<PurchaseOrder>)
  {
    forall i :: 0 <= i < |rows| ==> PositiveLines(rows[i].lines)
  }

  /** On well-formed orders and a non-negative ledger, Receive fails only on
      its up-front checks, and then changes nothing; when it succeeds, the
      target location gains exactly the order's lines and every other
      balance (Receiving included) is where it was. */
  lemma ReceiveEffect(rows: seq<PurchaseOrder>, s: Stock, orderId: Guid, employeeId: string, target: LocationType)
    requires WellFormed(rows) && NonNegative(s)
    ensures var r := Receive(rows, s, orderId, employeeId, target);
      && (r.result.Ok? <==>
            && !IsBlank(employeeId) && (target == Shelves || target == Freezer)
            && PurchaseIndex(rows, orderId).Some? && rows[PurchaseIndex(rows, orderId).value].status == Shipped)
      && (r.result.Err? ==> r.stock == s)
      && (r.result.Ok? ==> forall p, l ::
            Qty(r.stock, p, l) == Qty(s, p, l) + (if l == target then SumFor(r.result.value.lines, p) else 0))
      && NonNegative(r.stock)
  {
    if !IsBlank(employeeId) && (target == Shelves || target == Freezer) && PurchaseIndex(rows, orderId).Some? {
      var i := PurchaseIndex(rows, orderId).value;
      if rows[i].status == Shipped {
        ReceiveLinesEffect(s, rows[i].lines, target);
        ApplyLinesNonNegative(s, ReceiveInto(target), rows[i].lines);
      }
    }
  }

  // ---------------------------------------------------------------------
  // The lifecycle across any sequence of operations
  // ---------------------------------------------------------------------

  /** One call into PurchaseOrderService that can change the tables. */
  datatype Command =
    | DoCreate(employeeId: string, supplierId: string, p: ProductId, q: int, id: Guid, now: Timestamp)
    | DoAccept(orderId: Guid, supplierId: string)
    | DoShip(orderId: Guid, supplierId: string)
    | DoReceive(orderId: Guid, employeeId: string, target: LocationType)

  datatype State = State(rows: seq<PurchaseOrder>, stock: Stock)

  function Apply(st: State, products: set<ProductId>, c: Command): State
  {
    match c
    case DoCreate(e, sup, p, q, id, now) => State(CreatePurchaseOrder(st.rows, products, e, sup, p, q, id, now).rows, st.stock)
    case DoAccept(id, sup) => State(Accept(st.rows, id, sup).rows, st.stock)
    case DoShip(id, sup) => State(Ship(st.rows, id, sup).rows, st.stock)
    case DoReceive(id, e, t) =>
      var r := Receive(st.rows, st.stock, id, e, t);
      State(r.rows, r.stock)
  }

  /** The tables after the commands, in order. */
  function Run(st: State, products: set<ProductId>, cs: seq<Command>): State
    decreases |cs|
  {
    if cs == [] then st
    else Apply(Run(st, products, cs[..|cs| - 1]), products, cs[|cs| - 1])
  }

  /** The lifecycle's order of statuses; Cancelled is not reachable for a
      purchase order. */
  function Rank(st: OrderStatus): nat
  {
    match st
    case Ordered => 0
    case Approved => 1
    case Shipped => 2
    case Received => 3
    case Cancelled => 4
  }

  /** `b` is a later version of the table `a`: rows are only appended, an
      existing row changes only its status and only forwards, and a Received
      or Cancelled row never changes. */
  ghost predicate LaterRows(a: seq<PurchaseOrder>, b: seq<PurchaseOrder>)
  {
    && |a| <= |b|
    && (forall j :: 0 <= j < |a| ==>
          && b[j] == a[j].(status := b[j].status)
          && Rank(a[j].status) <= Rank(b[j].status)
          && (a[j].status in {Received, Cancelled} ==> b[j] == a[j]))
  }

  /** `b` is a later state of `a`: a later table, and no balance went down. */
  ghost predicate Later(a: State, b: State)
  {
    LaterRows(a.rows, b.rows) && forall p, l :: Qty(a.stock, p, l) <= Qty(b.stock, p, l)
  }

  /** Changing row `i`'s status to `to` keeps every line, and is a step forward
      when `to` ranks above the row's status. */
  lemma SetStatusLater(rows: seq<PurchaseOrder>, i: nat, to: OrderStatus)
    requires i < |rows| && Rank(rows[i].status) < Rank(to) && to != Cancelled
    ensures LaterRows(rows, rows[i := rows[i].(status := to)])
    ensures WellFormed(rows) ==> WellFormed(rows[i := rows[i].(status := to)])
  {
    var t := rows[i := rows[i].(status := to)];
    forall j | 0 <= j < |rows| ensures t[j].lines == rows[j].lines { }
  }

  lemma CreateLater(rows: seq<PurchaseOrder>, products: set<ProductId>, employeeId: string,
                    supplierId: string, p: ProductId, q: int, id: Guid, now: Timestamp)
    requires WellFormed(rows)
    ensures var t := CreatePurchaseOrder(rows, products, employeeId, supplierId, p, q, id, now).rows;
      WellFormed(t) && LaterRows(rows, t)
  {
    var t := CreatePurchaseOrder(rows, products, employeeId, supplierId, p, q, id, now).rows;
    forall i | 0 <= i < |rows| ensures t[i] == rows[i] { }
    assert WellFormed(t) by {
      forall i | 0 <= i < |t| ensures PositiveLines(t[i].lines) {
        if i < |rows| {
          assert t[i] == rows[i];
        }
      }
    }
  }

  lemma ReceiveLater(rows: seq<PurchaseOrder>, s: Stock, orderId: Guid, employeeId: string, target: LocationType)
    requires WellFormed(rows) && NonNegative(s)
    ensures var r := Receive(rows, s, orderId, employeeId, target);
      && WellFormed(r.rows) && NonNegative(r.stock) && LaterRows(rows, r.rows)
      && forall p, l :: Qty(s, p, l) <= Qty(r.stock, p, l)
  {
    ReceiveEffect(rows, s, orderId, employeeId, target);
    var r := Receive(rows, s, orderId, employeeId, target);
    if r.result.Ok? {
      var i := PurchaseIndex(rows, orderId).value;
      SetStatusLater(rows, i, Received);
      forall p, l ensures Qty(s, p, l) <= Qty(r.stock, p, l) {
        SumForBounds(rows[i].lines, p);
      }
    }
  }

  /** A supplier's status change (Accept, Ship) only moves one row forward. */
  lemma AdvanceLater(rows: seq<PurchaseOrder>, orderId: Guid, supplierId: string,
                     from: set<OrderStatus>, to: OrderStatus, refused: Error)
    requires WellFormed(rows) && to != Cancelled
    requires forall f :: f in from ==> Rank(f) < Rank(to)
    ensures var t := Advance(rows, orderId, supplierId, from, to, refused).rows;
      WellFormed(t) && LaterRows(rows, t)
  {
    var i := SupplierIndex(rows, orderId, supplierId);
    if i.Some? && rows[i.value].status in from {
      SetStatusLater(rows, i.value, to);
    }
  }

  /** One command keeps the lines positive and the ledger non-negative, and
      moves the tables to a later state. */
  lemma ApplyLater(st: State, products: set<ProductId>, c: Command)
    requires WellFormed(st.rows) && NonNegative(st.stock)
    ensures var t := Apply(st, products, c);
      WellFormed(t.rows) && NonNegative(t.stock) && Later(st, t)
  {
    var t := Apply(st, products, c);
    match c
    case DoCreate(e, sup, p, q, id, now) =>
      assert t.stock == st.stock;
      CreateLater(st.rows, products, e, sup, p, q, id, now);
    case DoAccept(id, sup) =>
      assert t == State(Advance(st.rows, id, sup, {Ordered}, Approved, OnlyOrderedCanBeAccepted).rows, st.stock);
      AdvanceLater(st.rows, id, sup, {Ordered}, Approved, OnlyOrderedCanBeAccepted);
    case DoShip(id, sup) =>
      assert t == State(Advance(st.rows, id, sup, {Ordered, Approved}, Shipped, OnlyOrderedOrApprovedCanBeShipped).rows, st.stock);
      AdvanceLater(st.rows, id, sup, {Ordered, Approved}, Shipped, OnlyOrderedOrApprovedCanBeShipped);
    case DoReceive(id, e, target) =>
      ReceiveLater(st.rows, st.stock, id, e, target);
  }

  lemma LaterTransitive(a: State, b: State, c: State)
    requires Later(a, b) && Later(b, c)
    ensures Later(a, c)
  {
    forall j | 0 <= j < |a.rows|
      ensures c.rows[j] == a.rows[j].(status := c.rows[j].status)
    {
      assert b.rows[j] == a.rows[j].(status := b.rows[j].status);
    }
  }

  /** Whatever sequence of calls is made, purchase orders only move forwards
      through Ordered -> Approved -> Shipped -> Received, a Received order
      is final, nothing but the status of an order ever changes, and no
      stock balance ever decreases. */
  lemma {:induction false} RunLater(st: State, products: set<ProductId>, cs: seq<Command>)
    requires WellFormed(st.rows) && NonNegative(st.stock)
    ensures var t := Run(st, products, cs);
      WellFormed(t.rows) && NonNegative(t.stock) && Later(st, t)
    decreases |cs|
  {
    if cs != [] {
      var mid := Run(st, products, cs[..|cs| - 1]);
      RunLater(st, products, cs[..|cs| - 1]);
      ApplyLater(mid, products, cs[|cs| - 1]);
      LaterTransitive(st, mid, Apply(mid, products, cs[|cs| - 1]));
    } else {
      assert forall j :: 0 <= j < |st.rows| ==> st.rows[j] == st.rows[j].(status := st.rows[j].status);
    }
  }
}
