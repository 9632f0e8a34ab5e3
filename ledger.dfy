/**
 * The stock ledger as values: a partial map from (product, location) to a
 * quantity, and the effect of each of InventoryService's six movements on it.
 * An absent row and a row holding 0 are different states: GetOrCreate inserts
 * zero rows (even when the movement then fails) and ConsumeFromShipping
 * deletes the Shipping row when it reaches 0.
 */
module StockLedger {
  import opened Domain

  datatype StockKey = StockKey(product: ProductId, location: LocationType)
  type Stock = map<StockKey, int>

  /** The ledger after a movement, and whether the movement threw. */
  datatype Movement = Movement(stock: Stock, outcome: Outcome)

  /** The balance of `p` at `l`; an absent row reads as 0. */
  function Qty(s: Stock, p: ProductId, l: LocationType): int
  {
    if StockKey(p, l) in s then s[StockKey(p, l)] else 0
  }

  /** Shelves + Freezer: what a reservation can draw from. */
  function Storage(s: Stock, p: ProductId): int
  {
    Qty(s, p, Shelves) + Qty(s, p, Freezer)
  }

  /** The product's stock over all four locations. */
  function Total(s: Stock, p: ProductId): int
  {
    Qty(s, p, Receiving) + Storage(s, p) + Qty(s, p, Shipping)
  }

  ghost predicate NonNegative(s: Stock)
  {
    forall k :: k in s ==> s[k] >= 0
  }

  /** Every balance reads the same (rows may have been added at 0). */
  ghost predicate SameQuantities(s: Stock, t: Stock)
  {
    forall p, l :: Qty(s, p, l) == Qty(t, p, l)
  }

  /** No row outside `keys` was inserted, deleted or changed. */
  ghost predicate SameRowsExcept(s: Stock, t: Stock, keys: set<StockKey>)
  {
    forall k :: k !in keys ==> (k in s <==> k in t) && (k in s && k in t ==> s[k] == t[k])
  }

  /** The rows of product `p`. */
  function KeysOf(p: ProductId): set<StockKey>
  {
    {StockKey(p, Receiving), StockKey(p, Shelves), StockKey(p, Freezer), StockKey(p, Shipping)}
  }

  /** A balance outside the changed rows reads the same. */
  lemma UnchangedQty(s: Stock, t: Stock, keys: set<StockKey>, p: ProductId, l: LocationType)
    requires SameRowsExcept(s, t, keys)
    requires StockKey(p, l) !in keys
    ensures Qty(t, p, l) == Qty(s, p, l)
  {
    assert StockKey(p, l) in s <==> StockKey(p, l) in t;
  }

  function Min(a: int, b: int): int
  {
    if a <= b then a else b
  }

  /** GetOrCreate: make sure the row exists, inserting it at 0 if absent. */
  function Touch(s: Stock, p: ProductId, l: LocationType): Stock
  {
    if StockKey(p, l) in s then s else s[StockKey(p, l) := 0]
  }

  /** SetInitialStock: add `q` to the (possibly new) row; negative `q` is refused. */
  function SetInitialStock(s: Stock, p: ProductId, q: int, l: LocationType): (r: Movement)
    ensures r.outcome.Pass? <==> q >= 0
    ensures r.outcome.Fail? ==> r == Movement(s, Fail(QuantityCannotBeNegative))
    ensures r.outcome.Pass? ==>
      && r.stock.Keys == s.Keys + {StockKey(p, l)}
      && Qty(r.stock, p, l) == Qty(s, p, l) + q
  {
    if q < 0 then Movement(s, Fail(QuantityCannotBeNegative))
    else Movement(s[StockKey(p, l) := Qty(s, p, l) + q], Pass)
  }

  /** MoveToShipping, in closed form: take min(Shelves, q) from Shelves, the
      rest from Freezer, and put all of q into Shipping. The three rows are
      created before the stock check, so a refusal for lack of stock can still
      add zero rows. */
  function MoveToShipping(s: Stock, p: ProductId, q: int): (r: Movement)
    ensures r.outcome.Pass? <==> q > 0 && Storage(s, p) >= q
    ensures q <= 0 ==> r == Movement(s, Fail(QuantityMustBePositive))
    ensures q > 0 && Storage(s, p) < q ==> r.outcome == Fail(NotEnoughInStorage)
    ensures q > 0 ==> r.stock.Keys == s.Keys + {StockKey(p, Shelves), StockKey(p, Freezer), StockKey(p, Shipping)}
    ensures r.outcome.Pass? ==>
      && Qty(r.stock, p, Shelves) == Qty(s, p, Shelves) - Min(Qty(s, p, Shelves), q)
      && Qty(r.stock, p, Freezer) == Qty(s, p, Freezer) - (q - Min(Qty(s, p, Shelves), q))
      && Qty(r.stock, p, Shipping) == Qty(s, p, Shipping) + q
      && Storage(r.stock, p) == Storage(s, p) - q
      && Total(r.stock, p) == Total(s, p)
    // Shelves first: Freezer is drawn on only once Shelves is empty
    ensures r.outcome.Pass? && Qty(r.stock, p, Freezer) < Qty(s, p, Freezer) ==> Qty(r.stock, p, Shelves) == 0
  {
    if q <= 0 then Movement(s, Fail(QuantityMustBePositive))
    else
      var t := Touch(Touch(Touch(s, p, Shelves), p, Freezer), p, Shipping);
      var shelves, freezer := Qty(s, p, Shelves), Qty(s, p, Freezer);
      if shelves + freezer < q then Movement(t, Fail(NotEnoughInStorage))
      else
        var fromShelves := Min(shelves, q);
        Movement(t[StockKey(p, Shelves) := shelves - fromShelves]
                  [StockKey(p, Freezer) := freezer - (q - fromShelves)]
                  [StockKey(p, Shipping) := Qty(s, p, Shipping) + q], Pass)
  }

  /** MoveFromShippingToStorage: Shipping -= q, Shelves += q. Freezer is never
      credited. The Shipping row is created before the check, the Shelves row
      only after it. */
  function MoveFromShippingToStorage(s: Stock, p: ProductId, q: int): (r: Movement)
    ensures r.outcome.Pass? <==> q > 0 && Qty(s, p, Shipping) >= q
    ensures q <= 0 ==> r == Movement(s, Fail(QuantityMustBePositive))
    ensures q > 0 && Qty(s, p, Shipping) < q ==>
      r.outcome == Fail(NotEnoughInShipping) && r.stock.Keys == s.Keys + {StockKey(p, Shipping)}
    ensures r.outcome.Pass? ==>
      && r.stock.Keys == s.Keys + {StockKey(p, Shipping), StockKey(p, Shelves)}
      && Qty(r.stock, p, Shipping) == Qty(s, p, Shipping) - q
      && Qty(r.stock, p, Shelves) == Qty(s, p, Shelves) + q
  {
    if q <= 0 then Movement(s, Fail(QuantityMustBePositive))
    else
      var t := Touch(s, p, Shipping);
      if Qty(s, p, Shipping) < q then Movement(t, Fail(NotEnoughInShipping))
      else
        var u := Touch(t, p, Shelves);
        Movement(u[StockKey(p, Shipping) := Qty(s, p, Shipping) - q]
                  [StockKey(p, Shelves) := Qty(s, p, Shelves) + q], Pass)
  }

  /** AddToReceiving: goods arrive at the dock. */
  function AddToReceiving(s: Stock, p: ProductId, q: int): (r: Movement)
    ensures r.outcome.Pass? <==> q > 0
    ensures r.outcome.Fail? ==> r == Movement(s, Fail(QuantityMustBePositive))
    ensures r.outcome.Pass? ==>
      && r.stock.Keys == s.Keys + {StockKey(p, Receiving)}
      && Qty(r.stock, p, Receiving) == Qty(s, p, Receiving) + q
  {
    if q <= 0 then Movement(s, Fail(QuantityMustBePositive))
    else Movement(s[StockKey(p, Receiving) := Qty(s, p, Receiving) + q], Pass)
  }

  /** PutAway: Receiving -= q, target += q, for a target of Shelves or Freezer. */
  function PutAway(s: Stock, p: ProductId, q: int, target: LocationType): (r: Movement)
    ensures r.outcome.Pass? <==> q > 0 && target in {Shelves, Freezer} && Qty(s, p, Receiving) >= q
    ensures q <= 0 ==> r == Movement(s, Fail(QuantityMustBePositive))
    ensures q > 0 && target !in {Shelves, Freezer} ==> r == Movement(s, Fail(InvalidPutAwayTarget))
    ensures q > 0 && target in {Shelves, Freezer} && Qty(s, p, Receiving) < q ==>
      r.outcome == Fail(NotEnoughInReceiving) && r.stock.Keys == s.Keys + {StockKey(p, Receiving)}
    ensures r.outcome.Pass? ==>
      && r.stock.Keys == s.Keys + {StockKey(p, Receiving), StockKey(p, target)}
      && Qty(r.stock, p, Receiving) == Qty(s, p, Receiving) - q
      && Qty(r.stock, p, target) == Qty(s, p, target) + q
  {
    if q <= 0 then Movement(s, Fail(QuantityMustBePositive))
    else if target != Shelves && target != Freezer then Movement(s, Fail(InvalidPutAwayTarget))
    else
      var t := Touch(s, p, Receiving);
      if Qty(s, p, Receiving) < q then Movement(t, Fail(NotEnoughInReceiving))
      else
        var u := Touch(t, p, target);
        Movement(u[StockKey(p, Receiving) := Qty(s, p, Receiving) - q]
                  [StockKey(p, target) := Qty(s, p, target) + q], Pass)
  }

  /** ConsumeFromShipping: goods leave the warehouse. An absent Shipping row is
      "no stock", a short one reports what it holds; a row brought to 0 is
      deleted, a positive one is kept. */
  function ConsumeFromShipping(s: Stock, p: ProductId, q: int): (r: Movement)
    ensures r.outcome.Pass? <==> q > 0 && StockKey(p, Shipping) in s && s[StockKey(p, Shipping)] >= q
    ensures r.outcome.Fail? ==> r.stock == s
    ensures q <= 0 ==> r.outcome == Fail(QuantityMustBePositive)
    ensures q > 0 && StockKey(p, Shipping) !in s ==> r.outcome == Fail(NoShippingStock)
    ensures q > 0 && StockKey(p, Shipping) in s && s[StockKey(p, Shipping)] < q ==>
      r.outcome == Fail(ShippingShortfall(s[StockKey(p, Shipping)]))
    ensures r.outcome.Pass? ==>
      && Qty(r.stock, p, Shipping) == Qty(s, p, Shipping) - q
      && r.stock.Keys == if Qty(s, p, Shipping) > q then s.Keys else s.Keys - {StockKey(p, Shipping)}
  {
    var key := StockKey(p, Shipping);
    if q <= 0 then Movement(s, Fail(QuantityMustBePositive))
    else if key !in s then Movement(s, Fail(NoShippingStock))
    else if s[key] < q then Movement(s, Fail(ShippingShortfall(s[key])))
    else if s[key] - q == 0 then Movement(s - {key}, Pass)
    else Movement(s[key := s[key] - q], Pass)
  }

  // ---------------------------------------------------------------------
  // What every movement leaves alone. Kept out of the functions' contracts
  // (they quantify over all rows) and invoked where a proof needs them.
  // ---------------------------------------------------------------------

  lemma SetInitialStockFrame(s: Stock, p: ProductId, q: int, l: LocationType)
    ensures var r := SetInitialStock(s, p, q, l);
      && SameRowsExcept(s, r.stock, {StockKey(p, l)})
      && (NonNegative(s) ==> NonNegative(r.stock))
  {
  }

  lemma MoveToShippingFrame(s: Stock, p: ProductId, q: int)
    ensures var r := MoveToShipping(s, p, q);
      && SameRowsExcept(s, r.stock, {StockKey(p, Shelves), StockKey(p, Freezer), StockKey(p, Shipping)})
      && (r.outcome.Fail? ==> SameQuantities(s, r.stock))
      && (NonNegative(s) ==> NonNegative(r.stock))
  {
  }

  lemma MoveFromShippingToStorageFrame(s: Stock, p: ProductId, q: int)
    ensures var r := MoveFromShippingToStorage(s, p, q);
      && SameRowsExcept(s, r.stock, {StockKey(p, Shipping), StockKey(p, Shelves)})
      && (r.outcome.Fail? ==> SameQuantities(s, r.stock))
      && (NonNegative(s) ==> NonNegative(r.stock))
  {
  }

  lemma AddToReceivingFrame(s: Stock, p: ProductId, q: int)
    ensures var r := AddToReceiving(s, p, q);
      && SameRowsExcept(s, r.stock, {StockKey(p, Receiving)})
      && (NonNegative(s) ==> NonNegative(r.stock))
  {
  }

  lemma PutAwayFrame(s: Stock, p: ProductId, q: int, target: LocationType)
    ensures var r := PutAway(s, p, q, target);
      && SameRowsExcept(s, r.stock, {StockKey(p, Receiving), StockKey(p, target)})
      && (r.outcome.Fail? ==> SameQuantities(s, r.stock))
      && (NonNegative(s) ==> NonNegative(r.stock))
  {
  }

  lemma ConsumeFromShippingFrame(s: Stock, p: ProductId, q: int)
    ensures var r := ConsumeFromShipping(s, p, q);
      && SameRowsExcept(s, r.stock, {StockKey(p, Shipping)})
      && (NonNegative(s) ==> NonNegative(r.stock))
  {
  }

  // What each successful movement does to its product's total over the four
  // locations: moves inside the warehouse keep it, arrivals raise it and
  // departures lower it by `q`.

  lemma MoveFromShippingToStorageTotal(s: Stock, p: ProductId, q: int)
    ensures var r := MoveFromShippingToStorage(s, p, q);
      r.outcome.Pass? ==> Total(r.stock, p) == Total(s, p)
  {
    MoveFromShippingToStorageFrame(s, p, q);
    var r := MoveFromShippingToStorage(s, p, q);
    UnchangedQty(s, r.stock, {StockKey(p, Shipping), StockKey(p, Shelves)}, p, Receiving);
    UnchangedQty(s, r.stock, {StockKey(p, Shipping), StockKey(p, Shelves)}, p, Freezer);
  }

  lemma PutAwayTotal(s: Stock, p: ProductId, q: int, target: LocationType)
    ensures var r := PutAway(s, p, q, target);
      r.outcome.Pass? ==> Total(r.stock, p) == Total(s, p)
  {
    PutAwayFrame(s, p, q, target);
    var r := PutAway(s, p, q, target);
    if r.outcome.Pass? {
      var keys := {StockKey(p, Receiving), StockKey(p, target)};
      UnchangedQty(s, r.stock, keys, p, Shipping);
      if target == Shelves {
        UnchangedQty(s, r.stock, keys, p, Freezer);
      } else {
        UnchangedQty(s, r.stock, keys, p, Shelves);
      }
    }
  }

  lemma AddToReceivingTotal(s: Stock, p: ProductId, q: int)
    ensures var r := AddToReceiving(s, p, q);
      r.outcome.Pass? ==> Total(r.stock, p) == Total(s, p) + q
  {
    AddToReceivingFrame(s, p, q);
    var r := AddToReceiving(s, p, q);
    var keys := {StockKey(p, Receiving)};
    UnchangedQty(s, r.stock, keys, p, Shelves);
    UnchangedQty(s, r.stock, keys, p, Freezer);
    UnchangedQty(s, r.stock, keys, p, Shipping);
  }

  lemma ConsumeFromShippingTotal(s: Stock, p: ProductId, q: int)
    ensures var r := ConsumeFromShipping(s, p, q);
      r.outcome.Pass? ==> Total(r.stock, p) == Total(s, p) - q
  {
    ConsumeFromShippingFrame(s, p, q);
    var r := ConsumeFromShipping(s, p, q);
    var keys := {StockKey(p, Shipping)};
    UnchangedQty(s, r.stock, keys, p, Receiving);
    UnchangedQty(s, r.stock, keys, p, Shelves);
    UnchangedQty(s, r.stock, keys, p, Freezer);
  }

  lemma SetInitialStockTotal(s: Stock, p: ProductId, q: int, l: LocationType)
    ensures var r := SetInitialStock(s, p, q, l);
      r.outcome.Pass? ==> Total(r.stock, p) == Total(s, p) + q
  {
    SetInitialStockFrame(s, p, q, l);
    var r := SetInitialStock(s, p, q, l);
    var keys := {StockKey(p, l)};
    forall m: LocationType | m != l ensures Qty(r.stock, p, m) == Qty(s, p, m) {
      UnchangedQty(s, r.stock, keys, p, m);
    }
  }

  // ---------------------------------------------------------------------
  // The order services walk an order's lines and call one movement (or, for
  // a purchase order, two) per line, with no transaction around the loop.
  // ---------------------------------------------------------------------

  /** What a service does to the ledger for each line of an order. */
  datatype LineAction =
    | Reserve                           // Checkout / CreateOrder: MoveToShipping
    | Consume                           // ShipOrder: ConsumeFromShipping
    | Restore                           // CancelOrder: MoveFromShippingToStorage
    | ReceiveInto(target: LocationType) // Receive: AddToReceiving then PutAway

  function ApplyLine(s: Stock, a: LineAction, line: OrderLine): Movement
  {
    match a
    case Reserve => MoveToShipping(s, line.productId, line.quantity)
    case Consume => ConsumeFromShipping(s, line.productId, line.quantity)
    case Restore => MoveFromShippingToStorage(s, line.productId, line.quantity)
    case ReceiveInto(t) =>
      var m := AddToReceiving(s, line.productId, line.quantity);
      if m.outcome.Fail? then m else PutAway(m.stock, line.productId, line.quantity, t)
  }

  /** A line touches only its own product's rows and keeps balances non-negative. */
  lemma ApplyLineFrame(s: Stock, a: LineAction, line: OrderLine)
    ensures var r := ApplyLine(s, a, line);
      && SameRowsExcept(s, r.stock, KeysOf(line.productId))
      && (NonNegative(s) ==> NonNegative(r.stock))
  {
    var p, q := line.productId, line.quantity;
    match a
    case Reserve => MoveToShippingFrame(s, p, q);
    case Consume => ConsumeFromShippingFrame(s, p, q);
    case Restore => MoveFromShippingToStorageFrame(s, p, q);
    case ReceiveInto(t) =>
      AddToReceivingFrame(s, p, q);
      var m := AddToReceiving(s, p, q);
      PutAwayFrame(m.stock, p, q, t);
  }

  /** The ledger after running `a` over `lines` in order, stopping at the first
      line that throws; the lines before it stay applied. */
  function ApplyLines(s: Stock, a: LineAction, lines: seq<OrderLine>): Movement
    decreases |lines|
  {
    if lines == [] then Movement(s, Pass)
    else
      var m := ApplyLines(s, a, lines[..|lines| - 1]);
      if m.outcome.Fail? then m else ApplyLine(m.stock, a, lines[|lines| - 1])
  }

  /** However far a walk gets, no balance goes negative. */
  lemma {:induction false} ApplyLinesNonNegative(s: Stock, a: LineAction, lines: seq<OrderLine>)
    requires NonNegative(s)
    ensures NonNegative(ApplyLines(s, a, lines).stock)
    decreases |lines|
  {
    if lines != [] {
      var init := lines[..|lines| - 1];
      ApplyLinesNonNegative(s, a, init);
      var m := ApplyLines(s, a, init);
      if m.outcome.Pass? {
        ApplyLineFrame(m.stock, a, lines[|lines| - 1]);
      }
    }
  }

  /** The walk stops at the first failure: once a prefix of the lines has
      thrown, the lines after it change nothing more. */
  lemma {:induction false} ApplyLinesFailureSticks(s: Stock, a: LineAction, lines: seq<OrderLine>, k: nat)
    requires k <= |lines|
    requires ApplyLines(s, a, lines[..k]).outcome.Fail?
    ensures ApplyLines(s, a, lines) == ApplyLines(s, a, lines[..k])
    decreases |lines|
  {
    if k < |lines| {
      var init := lines[..|lines| - 1];
      assert init[..k] == lines[..k];
      ApplyLinesFailureSticks(s, a, init, k);
    } else {
      assert lines[..k] == lines;
    }
  }

  /** The walk over lines 0..k is the walk over lines 0..k-1 followed, when
      that passed, by line k. */
  lemma ApplyLinesNext(s: Stock, a: LineAction, lines: seq<OrderLine>, k: nat)
    requires k < |lines|
    ensures var m := ApplyLines(s, a, lines[..k]);
      ApplyLines(s, a, lines[..k + 1]) == if m.outcome.Fail? then m else ApplyLine(m.stock, a, lines[k])
  {
    assert lines[..k + 1][..k] == lines[..k];
  }

  /** Lines 0..k-1 went through and line k threw, leaving the ledger as the
      whole walk leaves it. */
  ghost predicate FailsAt(s: Stock, a: LineAction, lines: seq<OrderLine>, k: nat)
    requires k < |lines|
  {
    var before := ApplyLines(s, a, lines[..k]);
    before.outcome.Pass? && ApplyLine(before.stock, a, lines[k]) == ApplyLines(s, a, lines)
  }

  /** A failure among the first lines is still the failure of the whole walk. */
  lemma FailsAtExtend(s: Stock, a: LineAction, lines: seq<OrderLine>, k: nat)
    requires k < |lines| - 1
    requires ApplyLines(s, a, lines[..|lines| - 1]).outcome.Fail?
    requires FailsAt(s, a, lines[..|lines| - 1], k)
    ensures FailsAt(s, a, lines, k)
  {
    var init := lines[..|lines| - 1];
    assert init[..k] == lines[..k];
    assert init[k] == lines[k];
  }

  /** No rollback: a failed walk is the failure of one line k, applied to the
      ledger that lines 0..k-1 had already changed. */
  lemma {:induction false} ApplyLinesStopsAtFailure(s: Stock, a: LineAction, lines: seq<OrderLine>)
    requires ApplyLines(s, a, lines).outcome.Fail?
    ensures exists k :: 0 <= k < |lines| && FailsAt(s, a, lines, k)
    decreases |lines|
  {
    var n := |lines| - 1;
    var init := lines[..n];
    if ApplyLines(s, a, init).outcome.Fail? {
      ApplyLinesStopsAtFailure(s, a, init);
      var k :| 0 <= k < |init| && FailsAt(s, a, init, k);
      FailsAtExtend(s, a, lines, k);
    } else {
      assert FailsAt(s, a, lines, n) by {
        assert lines[..n] == init;
      }
    }
  }

  /** Rows of products that no line names are left exactly as they were. */
  lemma {:induction false} ApplyLinesOtherProducts(s: Stock, a: LineAction, lines: seq<OrderLine>, p: ProductId)
    requires forall i :: 0 <= i < |lines| ==> lines[i].productId != p
    ensures forall l :: var k := StockKey(p, l);
      (k in s <==> k in ApplyLines(s, a, lines).stock) &&
      (k in s ==> ApplyLines(s, a, lines).stock[k] == s[k])
    decreases |lines|
  {
    if lines != [] {
      var init := lines[..|lines| - 1];
      ApplyLinesOtherProducts(s, a, init, p);
      var m := ApplyLines(s, a, init);
      if m.outcome.Pass? {
        ApplyLineFrame(m.stock, a, lines[|lines| - 1]);
      }
    }
  }

  /** One reservation seen from product `p`, whichever product it names. */
  lemma ReserveLineEffect(t: Stock, line: OrderLine, p: ProductId)
    ensures var r := MoveToShipping(t, line.productId, line.quantity);
      && Total(r.stock, p) == Total(t, p)
      && Qty(r.stock, p, Receiving) == Qty(t, p, Receiving)
      && Qty(r.stock, p, Shipping) >= Qty(t, p, Shipping)
      && (r.outcome.Pass? ==>
            && Qty(r.stock, p, Shipping) == Qty(t, p, Shipping) + LineQty(line, p)
            && Storage(r.stock, p) == Storage(t, p) - LineQty(line, p)
            && line.quantity > 0)
  {
    var r := MoveToShipping(t, line.productId, line.quantity);
    var keys := {StockKey(line.productId, Shelves), StockKey(line.productId, Freezer), StockKey(line.productId, Shipping)};
    MoveToShippingFrame(t, line.productId, line.quantity);
    UnchangedQty(t, r.stock, keys, p, Receiving);
    if line.productId != p {
      UnchangedQty(t, r.stock, keys, p, Shelves);
      UnchangedQty(t, r.stock, keys, p, Freezer);
      UnchangedQty(t, r.stock, keys, p, Shipping);
    }
  }

  /** Reserving lines (Checkout): the product's total never changes, and
      Shipping never falls, whatever the outcome; on success Shipping gains
      the product's ordered quantity and Shelves + Freezer lose it. */
  lemma {:induction false} ReserveLinesEffect(s: Stock, lines: seq<OrderLine>, p: ProductId)
    ensures var r := ApplyLines(s, Reserve, lines);
      && Total(r.stock, p) == Total(s, p)
      && Qty(r.stock, p, Receiving) == Qty(s, p, Receiving)
      && Qty(r.stock, p, Shipping) >= Qty(s, p, Shipping)
      && (r.outcome.Pass? ==>
            && Qty(r.stock, p, Shipping) == Qty(s, p, Shipping) + SumFor(lines, p)
            && Storage(r.stock, p) == Storage(s, p) - SumFor(lines, p))
    decreases |lines|
  {
    if lines != [] {
      var init := lines[..|lines| - 1];
      var last := lines[|lines| - 1];
      ReserveLinesEffect(s, init, p);
      var m := ApplyLines(s, Reserve, init);
      if m.outcome.Pass? {
        ReserveLineEffect(m.stock, last, p);
        assert ApplyLines(s, Reserve, lines) == MoveToShipping(m.stock, last.productId, last.quantity);
      }
    }
  }

  /** One consumption seen from product `p`: with enough in Shipping it
      succeeds, and only the line's product loses Shipping stock. */
  lemma ConsumeLineEffect(t: Stock, line: OrderLine, p: ProductId)
    requires line.quantity > 0 && Qty(t, line.productId, Shipping) >= line.quantity
    ensures var r := ConsumeFromShipping(t, line.productId, line.quantity);
      && r.outcome.Pass?
      && Qty(r.stock, p, Shipping) == Qty(t, p, Shipping) - LineQty(line, p)
      && Storage(r.stock, p) == Storage(t, p)
      && Qty(r.stock, p, Receiving) == Qty(t, p, Receiving)
  {
    var r := ConsumeFromShipping(t, line.productId, line.quantity);
    var keys := {StockKey(line.productId, Shipping)};
    ConsumeFromShippingFrame(t, line.productId, line.quantity);
    UnchangedQty(t, r.stock, keys, p, Shelves);
    UnchangedQty(t, r.stock, keys, p, Freezer);
    UnchangedQty(t, r.stock, keys, p, Receiving);
    if line.productId != p {
      UnchangedQty(t, r.stock, keys, p, Shipping);
    }
  }

  /** One restoration seen from product `p`: with enough in Shipping it
      succeeds, and only the line's product moves from Shipping to Shelves. */
  lemma RestoreLineEffect(t: Stock, line: OrderLine, p: ProductId)
    requires line.quantity > 0 && Qty(t, line.productId, Shipping) >= line.quantity
    ensures var r := MoveFromShippingToStorage(t, line.productId, line.quantity);
      && r.outcome.Pass?
      && Qty(r.stock, p, Shipping) == Qty(t, p, Shipping) - LineQty(line, p)
      && Qty(r.stock, p, Shelves) == Qty(t, p, Shelves) + LineQty(line, p)
      && Qty(r.stock, p, Freezer) == Qty(t, p, Freezer)
      && Qty(r.stock, p, Receiving) == Qty(t, p, Receiving)
  {
    var r := MoveFromShippingToStorage(t, line.productId, line.quantity);
    var keys := {StockKey(line.productId, Shipping), StockKey(line.productId, Shelves)};
    MoveFromShippingToStorageFrame(t, line.productId, line.quantity);
    UnchangedQty(t, r.stock, keys, p, Freezer);
    UnchangedQty(t, r.stock, keys, p, Receiving);
    if line.productId != p {
      UnchangedQty(t, r.stock, keys, p, Shipping);
      UnchangedQty(t, r.stock, keys, p, Shelves);
    }
  }

  /** One received line seen from row (p, l): on a non-negative Receiving it
      succeeds, and only the line's product gains, in the target. */
  lemma ReceiveLineEffect(t: Stock, line: OrderLine, target: LocationType, p: ProductId, l: LocationType)
    requires target == Shelves || target == Freezer
    requires line.quantity > 0 && Qty(t, line.productId, Receiving) >= 0
    ensures var r := ApplyLine(t, ReceiveInto(target), line);
      && r.outcome.Pass?
      && Qty(r.stock, p, l) == Qty(t, p, l) + (if l == target then LineQty(line, p) else 0)
  {
    var lp, q := line.productId, line.quantity;
    var a := AddToReceiving(t, lp, q);
    var b := PutAway(a.stock, lp, q, target);
    AddToReceivingFrame(t, lp, q);
    PutAwayFrame(a.stock, lp, q, target);
    if p != lp || (l != Receiving && l != target) {
      UnchangedQty(t, a.stock, {StockKey(lp, Receiving)}, p, l);
      UnchangedQty(a.stock, b.stock, {StockKey(lp, Receiving), StockKey(lp, target)}, p, l);
    }
  }

  /** Consuming lines (ShipOrder) succeeds when every line is positive and
      Shipping holds at least each product's ordered quantity; then Shipping,
      and the product's total, fall by exactly that quantity. */
  lemma {:induction false} ConsumeLinesEffect(s: Stock, lines: seq<OrderLine>)
    requires PositiveLines(lines)
    requires forall p :: SumFor(lines, p) <= Qty(s, p, Shipping)
    ensures var r := ApplyLines(s, Consume, lines);
      && r.outcome.Pass?
      && forall p ::
           && Qty(r.stock, p, Shipping) == Qty(s, p, Shipping) - SumFor(lines, p)
           && Storage(r.stock, p) == Storage(s, p)
           && Qty(r.stock, p, Receiving) == Qty(s, p, Receiving)
           && Total(r.stock, p) == Total(s, p) - SumFor(lines, p)
    decreases |lines|
  {
    if lines != [] {
      var init := lines[..|lines| - 1];
      var last := lines[|lines| - 1];
      assert PositiveLines(init) by {
        forall i | 0 <= i < |init| ensures init[i].quantity > 0 { assert init[i] == lines[i]; }
      }
      forall p ensures SumFor(init, p) <= Qty(s, p, Shipping) {
        SumForBounds(lines, p);
        assert SumFor(lines, p) == SumFor(init, p) + LineQty(last, p);
      }
      ConsumeLinesEffect(s, init);
      var m := ApplyLines(s, Consume, init);
      var lp := last.productId;
      SumForBounds(lines, lp);
      assert ApplyLines(s, Consume, lines) == ConsumeFromShipping(m.stock, lp, last.quantity);
      forall p
        ensures var r := ConsumeFromShipping(m.stock, lp, last.quantity);
          && r.outcome.Pass?
          && Qty(r.stock, p, Shipping) == Qty(s, p, Shipping) - SumFor(lines, p)
          && Storage(r.stock, p) == Storage(s, p)
          && Qty(r.stock, p, Receiving) == Qty(s, p, Receiving)
      {
        ConsumeLineEffect(m.stock, last, p);
      }
    }
  }

  /** Restoring lines (CancelOrder) succeeds under the same condition; Shipping
      falls and Shelves rises by each product's ordered quantity, Freezer and
      Receiving are untouched, and the total is unchanged. */
  lemma {:induction false} RestoreLinesEffect(s: Stock, lines: seq<OrderLine>)
    requires PositiveLines(lines)
    requires forall p :: SumFor(lines, p) <= Qty(s, p, Shipping)
    ensures var r := ApplyLines(s, Restore, lines);
      && r.outcome.Pass?
      && forall p ::
           && Qty(r.stock, p, Shipping) == Qty(s, p, Shipping) - SumFor(lines, p)
           && Qty(r.stock, p, Shelves) == Qty(s, p, Shelves) + SumFor(lines, p)
           && Qty(r.stock, p, Freezer) == Qty(s, p, Freezer)
           && Qty(r.stock, p, Receiving) == Qty(s, p, Receiving)
    decreases |lines|
  {
    if lines != [] {
      var init := lines[..|lines| - 1];
      var last := lines[|lines| - 1];
      assert PositiveLines(init) by {
        forall i | 0 <= i < |init| ensures init[i].quantity > 0 { assert init[i] == lines[i]; }
      }
      forall p ensures SumFor(init, p) <= Qty(s, p, Shipping) {
        SumForBounds(lines, p);
        assert SumFor(lines, p) == SumFor(init, p) + LineQty(last, p);
      }
      RestoreLinesEffect(s, init);
      var m := ApplyLines(s, Restore, init);
      var lp := last.productId;
      SumForBounds(lines, lp);
      assert ApplyLines(s, Restore, lines) == MoveFromShippingToStorage(m.stock, lp, last.quantity);
      forall p
        ensures var r := MoveFromShippingToStorage(m.stock, lp, last.quantity);
          && r.outcome.Pass?
          && Qty(r.stock, p, Shipping) == Qty(s, p, Shipping) - SumFor(lines, p)
          && Qty(r.stock, p, Shelves) == Qty(s, p, Shelves) + SumFor(lines, p)
          && Qty(r.stock, p, Freezer) == Qty(s, p, Freezer)
          && Qty(r.stock, p, Receiving) == Qty(s, p, Receiving)
      {
        RestoreLineEffect(m.stock, last, p);
      }
    }
  }

  /** Receiving a purchase order's lines into Shelves or Freezer never fails on
      a non-negative ledger: Receiving is net unchanged, the target gains each
      product's quantity, and the other locations are untouched. */
  lemma {:induction false} ReceiveLinesEffect(s: Stock, lines: seq<OrderLine>, target: LocationType)
    requires target == Shelves || target == Freezer
    requires PositiveLines(lines)
    requires NonNegative(s)
    ensures var r := ApplyLines(s, ReceiveInto(target), lines);
      && r.outcome.Pass?
      && forall p, l :: Qty(r.stock, p, l) == Qty(s, p, l) + (if l == target then SumFor(lines, p) else 0)
    decreases |lines|
  {
    if lines != [] {
      var init := lines[..|lines| - 1];
      var last := lines[|lines| - 1];
      assert PositiveLines(init) by {
        forall i | 0 <= i < |init| ensures init[i].quantity > 0 { assert init[i] == lines[i]; }
      }
      ReceiveLinesEffect(s, init, target);
      ApplyLinesNonNegative(s, ReceiveInto(target), init);
      var m := ApplyLines(s, ReceiveInto(target), init);
      assert Qty(m.stock, last.productId, Receiving) >= 0;
      forall p, l
        ensures var r := ApplyLine(m.stock, ReceiveInto(target), last);
          && r.outcome.Pass?
          && Qty(r.stock, p, l) == Qty(s, p, l) + (if l == target then SumFor(lines, p) else 0)
      {
        ReceiveLineEffect(m.stock, last, target, p, l);
      }
    }
  }

  /** Reserving q and then returning q (CreateOrder then CancelOrder) always
      succeeds and restores Shipping and Shelves + Freezer; Shelves itself
      comes back exactly when the reservation did not reach into Freezer. */
  lemma ReserveThenRestore(s: Stock, p: ProductId, q: int)
    requires NonNegative(s)
    requires MoveToShipping(s, p, q).outcome.Pass?
    ensures var m := MoveToShipping(s, p, q);
      var r := MoveFromShippingToStorage(m.stock, p, q);
      && r.outcome.Pass?
      && Qty(r.stock, p, Shipping) == Qty(s, p, Shipping)
      && Storage(r.stock, p) == Storage(s, p)
      && Total(r.stock, p) == Total(s, p)
      && (q <= Qty(s, p, Shelves) <==> Qty(r.stock, p, Shelves) == Qty(s, p, Shelves))
  {
    var m := MoveToShipping(s, p, q);
    var r := MoveFromShippingToStorage(m.stock, p, q);
    MoveFromShippingToStorageFrame(m.stock, p, q);
    UnchangedQty(m.stock, r.stock, {StockKey(p, Shipping), StockKey(p, Shelves)}, p, Freezer);
  }
}
