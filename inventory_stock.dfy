// Warehouse stock: reserving and releasing quantities against a stock
// record, and the low-stock listing of a tenant.

module InventoryStocks {
  import opened Common
  import opened StableSort
  import opened Paging

  type Id = nat

  /** Quantities are decimals; `updatedAt` is a clock reading. */
  datatype InventoryStock = InventoryStock(
    tenantId: Id, zoneId: Id, productId: Id, quantity: real, quantityReserved: real,
    createdAt: int, updatedAt: Option<int>)

  /** Stock that is neither reserved nor spoken for. */
  function QuantityAvailable(s: InventoryStock): real
  {
    s.quantity - s.quantityReserved
  }

  /** A failure carries its message and, where the source appends one, the
      figure it reports. */
  datatype StockOutcome =
    | Ok(stock: InventoryStock, message: string, amount: real)
    | Failed(message: string, figure: Option<real>)

  const StockNotFound := "Stock no encontrado"
  const InsufficientAvailable := "Cantidad insuficiente. Disponible: "
  const InsufficientReserved := "Cantidad reservada insuficiente: "

  /** The record after reserving q at time now, or None when fewer than q
      units are available. */
  function Reserved(s: InventoryStock, q: real, now: int): Option<InventoryStock>
  {
    if QuantityAvailable(s) < q then None
    else Some(s.(quantityReserved := s.quantityReserved + q, updatedAt := Some(now)))
  }

  /** The record after releasing q, or None when fewer than q are reserved. */
  function Released(s: InventoryStock, q: real, now: int): Option<InventoryStock>
  {
    if s.quantityReserved < q then None
    else Some(s.(quantityReserved := s.quantityReserved - q, updatedAt := Some(now)))
  }

  /** A reservation succeeds exactly when enough is available; it moves q
      from available to reserved and leaves the quantity on hand alone. */
  lemma ReserveFacts(s: InventoryStock, q: real, now: int)
    ensures Reserved(s, q, now).Some? <==> q <= QuantityAvailable(s)
    ensures Reserved(s, q, now).Some? ==>
      var t := Reserved(s, q, now).value;
      t.quantity == s.quantity && t.quantityReserved == s.quantityReserved + q
      && QuantityAvailable(t) == QuantityAvailable(s) - q
  {
  }

  lemma ReleaseFacts(s: InventoryStock, q: real, now: int)
    ensures Released(s, q, now).Some? <==> q <= s.quantityReserved
    ensures Released(s, q, now).Some? ==>
      var t := Released(s, q, now).value;
      t.quantity == s.quantity && t.quantityReserved == s.quantityReserved - q
      && QuantityAvailable(t) == QuantityAvailable(s) + q
  {
  }

  /** The balance the operations are meant to keep. */
  predicate Balanced(s: InventoryStock)
  {
    0.0 <= s.quantityReserved <= s.quantity
  }

  /** With non-negative quantities both operations keep the balance. */
  lemma OperationsKeepBalance(s: InventoryStock, q: real, now: int)
    requires Balanced(s) && q >= 0.0
    ensures Reserved(s, q, now).Some? ==> Balanced(Reserved(s, q, now).value)
    ensures Released(s, q, now).Some? ==> Balanced(Released(s, q, now).value)
  {
  }

  /** Negative quantities are not rejected: releasing -5 from a fully
      reserved stock reserves more than is on hand. */
  lemma NegativeReleaseBreaksBalance()
    ensures var s := InventoryStock(1, 1, 1, 10.0, 10.0, 0, None);
      Balanced(s) && Released(s, -5.0, 1).Some? && !Balanced(Released(s, -5.0, 1).value)
  {
  }

  /** Releasing what was just reserved restores the reservation. */
  lemma ReserveThenRelease(s: InventoryStock, q: real, t1: int, t2: int)
    requires s.quantityReserved >= 0.0 && Reserved(s, q, t1).Some?
    ensures Released(Reserved(s, q, t1).value, q, t2).Some?
    ensures Released(Reserved(s, q, t1).value, q, t2).value == s.(updatedAt := Some(t2))
  {
  }

  lemma ReserveExample()
    ensures var s := InventoryStock(1, 1, 1, 200.0, 0.0, 0, None);
      Reserved(s, 75.0, 1).Some? && QuantityAvailable(Reserved(s, 75.0, 1).value) == 125.0
      && QuantityAvailable(Released(Reserved(s, 75.0, 1).value, 25.0, 2).value) == 150.0
    ensures Reserved(InventoryStock(1, 1, 1, 100.0, 10.0, 0, None), 95.0, 1) == None
  {
  }

  // ---------------------------------------------------------------------
  // Low-stock listing

  predicate IsLow(s: InventoryStock, tenantId: Id, threshold: real)
  {
    s.tenantId == tenantId && QuantityAvailable(s) <= threshold
  }

  function LowOf(stocks: seq<InventoryStock>, tenantId: Id, threshold: real): (r: seq<InventoryStock>)
    ensures |r| <= |stocks|
  {
    if stocks == [] then []
    else LowOf(stocks[..|stocks| - 1], tenantId, threshold)
         + (if IsLow(stocks[|stocks| - 1], tenantId, threshold) then [stocks[|stocks| - 1]] else [])
  }

  /** The filter keeps exactly the tenant's stocks at or below the
      threshold. */
  lemma {:induction false} LowOfExactly(stocks: seq<InventoryStock>, tenantId: Id, threshold: real, x: InventoryStock)
    ensures x in LowOf(stocks, tenantId, threshold) <==> x in stocks && IsLow(x, tenantId, threshold)
  {
    if stocks == [] {
      assert LowOf(stocks, tenantId, threshold) == [];
    } else {
      var front := stocks[..|stocks| - 1];
      LowOfExactly(front, tenantId, threshold, x);
      assert stocks == front + [stocks[|stocks| - 1]];
    }
  }

  /** Ascending by available quantity: the descending sort on its negation. */
  function AvailableDescKey(s: InventoryStock): real
  {
    -QuantityAvailable(s)
  }

  /** The low stocks in ascending order of availability, ties in storage
      order, one page of them, with the count before paging. The offset is
      the request's `Skip`, wrapped to 32 bits; when it wraps negative the
      outcome is the database provider's, and the model gives no page. */
  function LowStockPage(stocks: seq<InventoryStock>, tenantId: Id, threshold: real, page: Int32, pageSize: Int32):
    Option<(seq<InventoryStock>, nat)>
    requires page >= 1 && pageSize >= 1
  {
    var low := LowOf(stocks, tenantId, threshold);
    var skip := SkipAsWritten(page, pageSize);
    if skip < 0 then None
    else Some((PyTake(PyDrop(SortDesc(low, AvailableDescKey), skip), pageSize), |low|))
  }

  /** A page exists whenever the offset fits in 32 bits; it holds at most
      pageSize of the tenant's low stocks and reports how many low stocks
      there are. */
  lemma LowStockPageMembers(stocks: seq<InventoryStock>, tenantId: Id, threshold: real, page: Int32, pageSize: Int32)
    requires page >= 1 && pageSize >= 1
    ensures SkipOf(page, pageSize) <= MaxInt32 ==> LowStockPage(stocks, tenantId, threshold, page, pageSize).Some?
    ensures LowStockPage(stocks, tenantId, threshold, page, pageSize).Some? ==>
      var (items, total) := LowStockPage(stocks, tenantId, threshold, page, pageSize).value;
      total == |LowOf(stocks, tenantId, threshold)| && |items| <= pageSize
      && forall x :: x in items ==> x in stocks && IsLow(x, tenantId, threshold)
  {
    if SkipOf(page, pageSize) <= MaxInt32 {
      SkipAgreesWhenItFits(page, pageSize);
    }
    if LowStockPage(stocks, tenantId, threshold, page, pageSize).None? {
      return;
    }
    var low := LowOf(stocks, tenantId, threshold);
    var ordered := SortDesc(low, AvailableDescKey);
    SortDescIsSortedPermutation(low, AvailableDescKey);
    var skip := SkipAsWritten(page, pageSize);
    var items := LowStockPage(stocks, tenantId, threshold, page, pageSize).value.0;
    assert items == PyTake(PyDrop(ordered, skip), pageSize);
    forall x | x in items ensures x in stocks && IsLow(x, tenantId, threshold) {
      var i :| 0 <= i < |items| && items[i] == x;
      assert x == ordered[skip + i];
      assert x in multiset(low);
      LowOfExactly(stocks, tenantId, threshold, x);
    }
  }

  /** A page lists its stocks in ascending order of availability. */
  lemma LowStockPageOrdered(stocks: seq<InventoryStock>, tenantId: Id, threshold: real, page: Int32, pageSize: Int32)
    requires page >= 1 && pageSize >= 1
    ensures LowStockPage(stocks, tenantId, threshold, page, pageSize).Some? ==>
      var items := LowStockPage(stocks, tenantId, threshold, page, pageSize).value.0;
      forall i, j :: 0 <= i < j < |items| ==> QuantityAvailable(items[i]) <= QuantityAvailable(items[j])
  {
    if LowStockPage(stocks, tenantId, threshold, page, pageSize).None? {
      return;
    }
    var low := LowOf(stocks, tenantId, threshold);
    var ordered := SortDesc(low, AvailableDescKey);
    SortDescIsSortedPermutation(low, AvailableDescKey);
    var skip := SkipAsWritten(page, pageSize);
    var items := LowStockPage(stocks, tenantId, threshold, page, pageSize).value.0;
    assert items == PyTake(PyDrop(ordered, skip), pageSize);
    forall i, j | 0 <= i < j < |items| ensures QuantityAvailable(items[i]) <= QuantityAvailable(items[j]) {
      assert items[i] == ordered[skip + i] && items[j] == ordered[skip + j];
      assert AvailableDescKey(ordered[skip + i]) >= AvailableDescKey(ordered[skip + j]);
    }
  }

  class InventoryStockService {
    var stocks: map<Id, InventoryStock>
    /** Number of completed saves. */
    var saves: nat

    constructor (stocks0: map<Id, InventoryStock>)
      ensures stocks == stocks0 && saves == 0
    {
      stocks := stocks0;
      saves := 0;
    }

    method ReserveQuantity(stockId: Id, quantity: real, now: int) returns (r: StockOutcome)
      modifies this
      ensures stockId !in old(stocks) ==> r == Failed(StockNotFound, None)
      ensures stockId in old(stocks) && Reserved(old(stocks)[stockId], quantity, now).None? ==>
        r == Failed(InsufficientAvailable, Some(QuantityAvailable(old(stocks)[stockId])))
      ensures r.Failed? ==> stocks == old(stocks) && saves == old(saves)
      ensures r.Ok? <==> stockId in old(stocks) && Reserved(old(stocks)[stockId], quantity, now).Some?
      ensures r.Ok? ==>
        var t := Reserved(old(stocks)[stockId], quantity, now).value;
        stocks == old(stocks)[stockId := t] && saves == old(saves) + 1 && r == Ok(t, "Reservados", quantity)
    {
      if stockId !in stocks {
        return Failed(StockNotFound, None);
      }
      var entity := stocks[stockId];
      if QuantityAvailable(entity) < quantity {
        return Failed(InsufficientAvailable, Some(QuantityAvailable(entity)));
      }
      entity := entity.(quantityReserved := entity.quantityReserved + quantity);
      entity := entity.(updatedAt := Some(now));
      stocks := stocks[stockId := entity];
      saves := saves + 1;
      r := Ok(entity, "Reservados", quantity);
    }

    method ReleaseReserved(stockId: Id, quantity: real, now: int) returns (r: StockOutcome)
      modifies this
      ensures stockId !in old(stocks) ==> r == Failed(StockNotFound, None)
      ensures stockId in old(stocks) && Released(old(stocks)[stockId], quantity, now).None? ==>
        r == Failed(InsufficientReserved, Some(old(stocks)[stockId].quantityReserved))
      ensures r.Failed? ==> stocks == old(stocks) && saves == old(saves)
      ensures r.Ok? <==> stockId in old(stocks) && Released(old(stocks)[stockId], quantity, now).Some?
      ensures r.Ok? ==>
        var t := Released(old(stocks)[stockId], quantity, now).value;
        stocks == old(stocks)[stockId := t] && saves == old(saves) + 1 && r == Ok(t, "Liberadas", quantity)
    {
      if stockId !in stocks {
        return Failed(StockNotFound, None);
      }
      var entity := stocks[stockId];
      if entity.quantityReserved < quantity {
        return Failed(InsufficientReserved, Some(entity.quantityReserved));
      }
      entity := entity.(quantityReserved := entity.quantityReserved - quantity);
      entity := entity.(updatedAt := Some(now));
      stocks := stocks[stockId := entity];
      saves := saves + 1;
      r := Ok(entity, "Liberadas", quantity);
    }
  }
}
