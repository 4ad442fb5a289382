/**
 * The New-Order transaction (clause 2.4.2 of the TPC-C benchmark) as the
 * handler implements it over the keyed store: allocate the district's next
 * order id with a read / conditional-write retry loop, parse the detail lines,
 * insert the order header, then for every line update the stock row with a
 * second retry loop guarded by S_ORDER_CNT and insert the order line, and
 * finally price the order.
 *
 * Other clients writing the same rows are an environment step between a read
 * and its conditional write: attempt k of a retry loop meets the k-th entry of
 * a finite interference schedule (a foreign write of the whole row, or none).
 */
module NewOrder {
  import opened Wrappers
  import opened JavaLang
  import opened DataStore

  const NULL_CARRIER_ID: int := -1
  const LOW_STOCK_THRESHOLD: int := 10
  const REPLENISH_QUANTITY: int := 100

  /** One detail line "item,supplier warehouse,quantity". */
  datatype NewOrderLine = NewOrderLine(itemId: Int32, supplierWarehouseId: Int32, quantity: Int32)

  /** parameters[1..4] of an `N` record. */
  datatype Header = Header(customerId: Int32, warehouseId: Int32, districtId: Int32, noOfItems: Int32)

  datatype DistrictInfo = DistrictInfo(nextOid: Int32, tax: real)

  datatype UpdateStockResult = UpdateStockResult(originalQuantity: int, isSuccessful: bool)

  datatype ItemResultInfo = ItemResultInfo(
    itemId: int, itemName: string, supplierWarehouseId: int, orderQuantity: int,
    amount: real, originalStockQuantity: int)

  datatype CustomerInfo = CustomerInfo(lastName: string, credit: string, discount: real)

  datatype NewOrderSummary = NewOrderSummary(
    customerInfo: CustomerInfo, warehouseTax: real, districtTax: real, entryD: int,
    oid: Int32, totalAmount: real, itemResults: seq<ItemResultInfo>)

  /**
   * Why `execute` throws: a missing or non-numeric parameter, a null row read
   * for the district, a stock row, an item, the warehouse or the customer, or
   * a malformed detail line. Line numbers are 1-based, as OL_NUMBER.
   */
  datatype NewOrderError =
    | BadParameters
    | MissingDistrict
    | BadDetailLine
    | MissingStock(lineNumber: int)
    | MissingItem(lineNumber: int)
    | MissingWarehouse
    | MissingCustomer

  /** Foreign writes met by the district loop, and by the stock loop of each line. */
  datatype Interference = Interference(district: seq<Option<DistrictRow>>, stock: seq<seq<Option<StockRow>>>)

  // ---------------------------------------------------------------------
  // Parsing

  function ParseHeader(parameters: seq<string>): Option<Header>
  {
    if |parameters| < 5 then None
    else
      match (ParseInt(parameters[1]), ParseInt(parameters[2]), ParseInt(parameters[3]), ParseInt(parameters[4]))
      case (Some(c), Some(w), Some(d), Some(n)) => Some(Header(c, w, d, n))
      case _ => None
  }

  /** `new NewOrderLine(parseInt(t[0]), parseInt(t[1]), parseInt(t[2]))` over `s.split(",")`. */
  function ParseNewOrderLine(s: string): (r: Option<NewOrderLine>)
    ensures r.Some? ==> |Split(s)| >= 3
  {
    var tokens := Split(s);
    if |tokens| < 3 then None
    else
      match (ParseInt(tokens[0]), ParseInt(tokens[1]), ParseInt(tokens[2]))
      case (Some(i), Some(w), Some(q)) => Some(NewOrderLine(i, w, q))
      case _ => None
  }

  /**
   * A detail line parses exactly when its first three fields parse as `int`,
   * and then they are the item, the supplier warehouse and the quantity, in
   * that order; any further fields are ignored.
   */
  lemma ParseNewOrderLineFields(s: string)
    ensures var fields := Split(s);
      ParseNewOrderLine(s).Some? <==>
        |fields| >= 3 && ParseInt(fields[0]).Some? && ParseInt(fields[1]).Some? && ParseInt(fields[2]).Some?
    ensures var fields := Split(s);
      ParseNewOrderLine(s).Some? ==>
        && Some(ParseNewOrderLine(s).value.itemId) == ParseInt(fields[0])
        && Some(ParseNewOrderLine(s).value.supplierWarehouseId) == ParseInt(fields[1])
        && Some(ParseNewOrderLine(s).value.quantity) == ParseInt(fields[2])
  {
  }

  /** The stream over the detail lines: every line parsed, in order; one bad line throws. */
  function ParseNewOrderLines(dataLines: seq<string>): (r: Option<seq<NewOrderLine>>)
    ensures r.Some? ==> |r.value| == |dataLines|
  {
    if dataLines == [] then Some([])
    else
      match (ParseNewOrderLine(dataLines[0]), ParseNewOrderLines(dataLines[1..]))
      case (Some(l), Some(ls)) => Some([l] + ls)
      case (_, _) => None
  }

  /** When the lines parse, line k of the result is detail line k parsed. */
  lemma {:induction false} ParsedLineInOrder(dataLines: seq<string>, k: nat)
    requires ParseNewOrderLines(dataLines).Some? && k < |dataLines|
    ensures |ParseNewOrderLines(dataLines).value| == |dataLines|
    ensures ParseNewOrderLine(dataLines[k]) == Some(ParseNewOrderLines(dataLines).value[k])
  {
    if k > 0 {
      ParsedLineInOrder(dataLines[1..], k - 1);
      assert dataLines[1..][k - 1] == dataLines[k];
    } else if |dataLines| > 1 {
      ParsedLineInOrder(dataLines[1..], 0);
    }
  }

  /** One bad detail line makes the whole stream throw. */
  lemma {:induction false} BadLineFailsAll(dataLines: seq<string>, k: nat)
    requires k < |dataLines| && ParseNewOrderLine(dataLines[k]).None?
    ensures ParseNewOrderLines(dataLines).None?
  {
    if k > 0 {
      assert dataLines[1..][k - 1] == dataLines[k];
      BadLineFailsAll(dataLines[1..], k - 1);
    }
  }

  /** When every detail line parses, so does the stream. */
  lemma {:induction false} GoodLinesParse(dataLines: seq<string>)
    requires forall k | 0 <= k < |dataLines| :: ParseNewOrderLine(dataLines[k]).Some?
    ensures ParseNewOrderLines(dataLines).Some?
  {
    if dataLines != [] {
      assert forall k | 0 <= k < |dataLines| - 1 :: dataLines[1..][k] == dataLines[k + 1];
      GoodLinesParse(dataLines[1..]);
    }
  }

  /** A detail line as the script writes it. */
  function FormatNewOrderLine(l: NewOrderLine): string
  {
    Join([FormatInt(l.itemId), FormatInt(l.supplierWarehouseId), FormatInt(l.quantity)])
  }

  lemma ParseFormatNewOrderLine(l: NewOrderLine)
    ensures ParseNewOrderLine(FormatNewOrderLine(l)) == Some(l)
  {
    var ts := [FormatInt(l.itemId), FormatInt(l.supplierWarehouseId), FormatInt(l.quantity)];
    SplitJoin(ts);
    ParseFormat(l.itemId);
    ParseFormat(l.supplierWarehouseId);
    ParseFormat(l.quantity);
  }

  // ---------------------------------------------------------------------
  // Order header

  /** `allMatch(ol -> ol.supplierWarehouseId == warehouseId)`. */
  function IsAllItemsLocal(lines: seq<NewOrderLine>, homeWarehouseId: int): (r: bool)
    ensures lines == [] ==> r
    ensures r && lines != [] ==> lines[|lines| - 1].supplierWarehouseId == homeWarehouseId
  {
    lines == [] || (lines[0].supplierWarehouseId == homeWarehouseId && IsAllItemsLocal(lines[1..], homeWarehouseId))
  }

  /** The order is all-local exactly when every line is supplied by the home warehouse; so an order without lines is. */
  lemma {:induction false} IsAllItemsLocalIff(lines: seq<NewOrderLine>, homeWarehouseId: int)
    ensures IsAllItemsLocal(lines, homeWarehouseId) <==>
      forall k | 0 <= k < |lines| :: lines[k].supplierWarehouseId == homeWarehouseId
  {
    if lines != [] {
      IsAllItemsLocalIff(lines[1..], homeWarehouseId);
      assert forall k | 1 <= k < |lines| :: lines[1..][k - 1] == lines[k];
    }
  }

  /** O_ALL_LOCAL is stored as the decimal 1 or 0. */
  function AllLocalFlag(allLocal: bool): (r: int)
    ensures r == 1 || r == 0
    ensures r == 1 <==> allLocal
  {
    if allLocal then 1 else 0
  }

  function OrderHeader(h: Header, now: int, lines: seq<NewOrderLine>): OrderRow
  {
    OrderRow(h.customerId, now, NULL_CARRIER_ID, h.noOfItems, AllLocalFlag(IsAllItemsLocal(lines, h.warehouseId)))
  }

  /**
   * The ORDERS row of an order: no carrier yet (−1), O_OL_CNT is the count
   * given in parameters[4] whatever the number of lines, and O_ALL_LOCAL is
   * 1 exactly when every line is supplied by the home warehouse, else 0.
   */
  lemma OrderHeaderColumns(h: Header, now: int, lines: seq<NewOrderLine>)
    ensures var row := OrderHeader(h, now, lines);
      && row.customerId == h.customerId && row.entryD == now
      && row.carrierId == -1
      && row.olCnt == h.noOfItems
      && (row.allLocal == 1 || row.allLocal == 0)
      && (row.allLocal == 1 <==> forall k | 0 <= k < |lines| :: lines[k].supplierWarehouseId == h.warehouseId)
  {
    IsAllItemsLocalIff(lines, h.warehouseId);
  }

  // ---------------------------------------------------------------------
  // Stock update

  function StockKeyOf(line: NewOrderLine): StockKey
  {
    (line.supplierWarehouseId, line.itemId)
  }

  /**
   * The columns `updateStock` writes, computed from the row it read. The
   * replenishment `adjustedQty.add(100)` builds a new value that is never
   * used, so the written quantity is always original minus requested.
   */
  function StockAfterOrder(read: StockRow, line: NewOrderLine, homeWarehouseId: int): (r: StockRow)
    ensures r.quantity == read.quantity - line.quantity
    ensures r.ytd - read.ytd == line.quantity
    ensures r.orderCnt != read.orderCnt
    ensures r.orderCnt == if read.orderCnt == INT_MAX then INT_MIN else read.orderCnt + 1
    ensures r.remoteCnt != read.remoteCnt <==> line.supplierWarehouseId != homeWarehouseId
    ensures r.remoteCnt == if line.supplierWarehouseId == homeWarehouseId then read.remoteCnt
                           else if read.remoteCnt == INT_MAX then INT_MIN else read.remoteCnt + 1
  {
    IncrementChanges(read.orderCnt);
    IncrementChanges(read.remoteCnt);
    StockRow(
      read.quantity - line.quantity,
      read.ytd + line.quantity,
      Wrap32(read.orderCnt + 1),
      if line.supplierWarehouseId != homeWarehouseId then Wrap32(read.remoteCnt + 1) else read.remoteCnt)
  }

  /** The replenishment rule the code computes before discarding it. */
  function ReplenishedQuantity(original: int, requested: int): int
  {
    var adjusted := original - requested;
    if adjusted < LOW_STOCK_THRESHOLD then adjusted + REPLENISH_QUANTITY else adjusted
  }

  /** The written quantity agrees with the replenishment rule exactly when no replenishment was due. */
  lemma ReplenishmentDiscarded(read: StockRow, line: NewOrderLine, homeWarehouseId: int)
    ensures StockAfterOrder(read, line, homeWarehouseId).quantity == ReplenishedQuantity(read.quantity, line.quantity)
        <==> read.quantity - line.quantity >= LOW_STOCK_THRESHOLD
  {
  }

  /**
   * Two order placements that read the same stock row cannot both apply:
   * once the first conditional write has applied, S_ORDER_CNT no longer holds
   * the value both read, so the second write, which expects that value, is
   * rejected and changes nothing.
   */
  lemma SecondStockWriteRejected(
    stocks: map<StockKey, StockRow>, key: StockKey, read: StockRow, first: NewOrderLine, homeWarehouseId: int, second: StockRow)
    requires StockWriteIf(stocks, key, StockAfterOrder(read, first, homeWarehouseId), read.orderCnt).1
    ensures var after := StockWriteIf(stocks, key, StockAfterOrder(read, first, homeWarehouseId), read.orderCnt).0;
      StockWriteIf(after, key, second, read.orderCnt) == (after, false)
  {
  }

  /**
   * Two clients that read the same D_NEXT_O_ID cannot both claim it: once the
   * first has moved the counter to that value + 1, the second conditional
   * write, which expects the value both read, is rejected and changes nothing.
   */
  lemma SecondAllocationRejected(districts: map<DistrictKey, DistrictRow>, key: DistrictKey, read: DistrictRow)
    requires DistrictWriteIf(districts, key, Wrap32(read.nextOid as int + 1), read.nextOid).1
    ensures var after := DistrictWriteIf(districts, key, Wrap32(read.nextOid as int + 1), read.nextOid).0;
      DistrictWriteIf(after, key, Wrap32(read.nextOid as int + 1), read.nextOid) == (after, false)
  {
    IncrementChanges(read.nextOid);
  }

  // ---------------------------------------------------------------------
  // Retry loops under interference
  //
  // Each attempt of a retry loop reads the row, meets the foreign write its
  // schedule entry holds (if any), and issues its conditional write. A
  // rejected attempt leaves the foreign row in the store, and the next
  // attempt reads that row.

  /** The foreign write attempt j meets: entry j of the schedule, none once it is used up. */
  function ForeignAt<R>(schedule: seq<Option<R>>, j: nat): Option<R>
  {
    if j < |schedule| then schedule[j] else None
  }

  /** The row a conditional write finds: the foreign row written since the read, if any, else the row read. */
  function Met<R>(read: R, foreign: Option<R>): R
  {
    if foreign.Some? then foreign.value else read
  }

  /** The row attempt j reads when every earlier attempt was rejected. */
  function ReadAt<R>(row0: R, schedule: seq<Option<R>>, j: nat): R
  {
    if j == 0 then row0 else Met(ReadAt(row0, schedule, j - 1), ForeignAt(schedule, j - 1))
  }

  /** Attempt j is rejected: the foreign write it met moved the guard column away from the value it read. */
  predicate Rejected<R>(row0: R, schedule: seq<Option<R>>, guard: R -> int, j: nat)
  {
    guard(Met(ReadAt(row0, schedule, j), ForeignAt(schedule, j))) != guard(ReadAt(row0, schedule, j))
  }

  /**
   * The first attempt from `from` on whose conditional write applies. Only a
   * foreign write rejects an attempt, so it is found within the schedule.
   */
  function FirstApplying<R>(row0: R, schedule: seq<Option<R>>, guard: R -> int, from: nat): (k: nat)
    ensures from <= k && (k <= |schedule| || k == from)
    ensures !Rejected(row0, schedule, guard, k)
    ensures forall j | from <= j < k :: Rejected(row0, schedule, guard, j)
    decreases |schedule| - from
  {
    if Rejected(row0, schedule, guard, from) then FirstApplying(row0, schedule, guard, from + 1) else from
  }

  /** The row read by the attempt whose conditional write applies. */
  function AppliedRead<R>(row0: R, schedule: seq<Option<R>>, guard: R -> int): R
  {
    ReadAt(row0, schedule, FirstApplying(row0, schedule, guard, 0))
  }

  /** The row that attempt's conditional write found in the store. */
  function AppliedClaim<R>(row0: R, schedule: seq<Option<R>>, guard: R -> int): R
  {
    var k := FirstApplying(row0, schedule, guard, 0);
    Met(ReadAt(row0, schedule, k), ForeignAt(schedule, k))
  }

  /**
   * The attempt at which a write applies is determined: when every attempt
   * before k was rejected and attempt k was not, k is the applying attempt,
   * it lies within the schedule, and its write found the guard still holding
   * the value it read.
   */
  lemma AppliedAttempt<R>(row0: R, schedule: seq<Option<R>>, guard: R -> int, k: nat)
    requires forall j | 0 <= j < k :: Rejected(row0, schedule, guard, j)
    requires !Rejected(row0, schedule, guard, k)
    ensures k == FirstApplying(row0, schedule, guard, 0) && k <= |schedule|
    ensures AppliedRead(row0, schedule, guard) == ReadAt(row0, schedule, k)
    ensures AppliedClaim(row0, schedule, guard) == Met(ReadAt(row0, schedule, k), ForeignAt(schedule, k))
    ensures guard(AppliedClaim(row0, schedule, guard)) == guard(AppliedRead(row0, schedule, guard))
  {
  }

  /** Every rejected attempt met a foreign write. */
  lemma RejectedByForeignWrite<R>(row0: R, schedule: seq<Option<R>>, guard: R -> int, j: nat)
    requires Rejected(row0, schedule, guard, j)
    ensures j < |schedule| && schedule[j].Some?
  {
  }

  /** Without interference the first attempt applies, and its write finds the row it read. */
  lemma UncontendedAttempt<R>(row0: R, guard: R -> int)
    ensures AppliedRead(row0, [], guard) == row0 && AppliedClaim(row0, [], guard) == row0
  {
    assert !Rejected(row0, [], guard, 0);
  }

  /** The guard of the district's conditional write. */
  function DistrictGuard(row: DistrictRow): int
  {
    row.nextOid
  }

  /** The guard of the stock row's conditional write. */
  function StockGuard(row: StockRow): int
  {
    row.orderCnt
  }

  /**
   * The district row once an order id is allocated: the row the applying
   * write found, with its counter moved one past the value read.
   */
  function Allocated(row0: DistrictRow, schedule: seq<Option<DistrictRow>>): DistrictRow
  {
    AppliedClaim(row0, schedule, DistrictGuard).(nextOid := Wrap32(AppliedRead(row0, schedule, DistrictGuard).nextOid as int + 1))
  }

  /**
   * No increment is lost: the counter moves from the value it held when the
   * applying write found it to that value + 1 (wrapped), the allocated id
   * is that value, and without interference the id is the counter as it was
   * and only the counter changes.
   */
  lemma AllocationIncrements(row0: DistrictRow, schedule: seq<Option<DistrictRow>>)
    ensures var claim := AppliedClaim(row0, schedule, DistrictGuard);
      && AppliedRead(row0, schedule, DistrictGuard).nextOid == claim.nextOid
      && Allocated(row0, schedule) == claim.(nextOid := Wrap32(claim.nextOid as int + 1))
      && Allocated(row0, schedule) != claim
    ensures schedule == [] ==>
      AppliedRead(row0, schedule, DistrictGuard) == row0 && Allocated(row0, schedule) == row0.(nextOid := Wrap32(row0.nextOid as int + 1))
  {
    var k := FirstApplying(row0, schedule, DistrictGuard, 0);
    AppliedAttempt(row0, schedule, DistrictGuard, k);
    IncrementChanges(AppliedClaim(row0, schedule, DistrictGuard).nextOid);
    UncontendedAttempt(row0, DistrictGuard);
  }

  // ---------------------------------------------------------------------
  // Order lines and the total

  function LineAmount(quantity: int, price: real): real
  {
    quantity as real * price
  }

  function DistInfo(districtId: int): string
  {
    "S_DIST_" + FormatInt(districtId)
  }

  predicate ItemsPresent(lines: seq<NewOrderLine>, items: map<int, ItemRow>)
  {
    forall k | 0 <= k < |lines| :: lines[k].itemId in items
  }

  /** What `createNewOrderLine` returns for a line whose stock quantity was `original` when read. */
  function ExpectedResult(line: NewOrderLine, items: map<int, ItemRow>, original: int): ItemResultInfo
    requires line.itemId in items
  {
    var item := items[line.itemId];
    ItemResultInfo(line.itemId, item.name, line.supplierWarehouseId, line.quantity,
                   LineAmount(line.quantity, item.price), original)
  }

  function OrderLineRowFor(line: NewOrderLine, amount: real, districtId: int): OrderLineRow
  {
    OrderLineRow(line.itemId, line.supplierWarehouseId, line.quantity, amount, None, DistInfo(districtId))
  }

  function Sum(xs: seq<real>): real
  {
    if xs == [] then 0.0 else xs[0] + Sum(xs[1..])
  }

  function LineAmounts(results: seq<ItemResultInfo>): seq<real>
  {
    seq(|results|, k requires 0 <= k < |results| => results[k].amount)
  }

  /** Σ amounts × (1 + district tax + warehouse tax) × (1 − discount). */
  function TotalAmount(amounts: seq<real>, districtTax: real, warehouseTax: real, discount: real): (r: real)
    ensures amounts == [] ==> r == 0.0
  {
    Sum(amounts) * (1.0 + districtTax + warehouseTax) * (1.0 - discount)
  }

  lemma {:induction false} SumRemove(xs: seq<real>, k: nat)
    requires k < |xs|
    ensures Sum(xs) == xs[k] + Sum(xs[..k] + xs[k + 1..])
  {
    if k > 0 {
      SumRemove(xs[1..], k - 1);
      assert xs[1..][..k - 1] + xs[1..][k..] == (xs[..k] + xs[k + 1..])[1..];
    } else {
      assert xs[..0] + xs[1..] == xs[1..];
    }
  }

  lemma {:induction false} SumPermutation(xs: seq<real>, ys: seq<real>)
    requires multiset(xs) == multiset(ys)
    ensures Sum(xs) == Sum(ys)
    decreases |xs|
  {
    if xs == [] {
      assert |ys| == |multiset(ys)| == 0;
    } else {
      var x := xs[0];
      assert x in multiset(ys);
      var k :| 0 <= k < |ys| && ys[k] == x;
      var rest := ys[..k] + ys[k + 1..];
      assert ys == ys[..k] + [ys[k]] + ys[k + 1..];
      assert xs == [x] + xs[1..];
      assert multiset(ys) == multiset(ys[..k]) + multiset([x]) + multiset(ys[k + 1..]);
      assert multiset(xs) == multiset([x]) + multiset(xs[1..]);
      assert multiset(rest) == multiset(ys[..k]) + multiset(ys[k + 1..]);
      assert multiset(xs[1..]) == multiset(xs) - multiset{x};
      assert multiset(rest) == multiset(ys) - multiset{x};
      SumPermutation(xs[1..], rest);
      SumRemove(ys, k);
    }
  }

  /** The total does not depend on the order of the lines. */
  lemma TotalAmountPermutation(xs: seq<real>, ys: seq<real>, districtTax: real, warehouseTax: real, discount: real)
    requires multiset(xs) == multiset(ys)
    ensures TotalAmount(xs, districtTax, warehouseTax, discount) == TotalAmount(ys, districtTax, warehouseTax, discount)
  {
    SumPermutation(xs, ys);
  }

  // ---------------------------------------------------------------------
  // The effect of processing the lines, as folds over the lines in order

  /** The results of `lines` in order, line k's stock quantity being the one read as `seen[k]`. */
  function ExpectedResults(lines: seq<NewOrderLine>, items: map<int, ItemRow>, seen: seq<StockRow>): (rs: seq<ItemResultInfo>)
    requires ItemsPresent(lines, items) && |seen| == |lines|
    ensures |rs| == |lines|
  {
    if lines == [] then []
    else
      var n := |lines|;
      var prefix := lines[..n - 1];
      assert forall k | 0 <= k < n - 1 :: prefix[k] == lines[k];
      ExpectedResults(prefix, items, seen[..n - 1]) + [ExpectedResult(lines[n - 1], items, seen[n - 1].quantity)]
  }

  /** Result k is line k's result, computed from the stock quantity read for it. */
  lemma {:induction false} ExpectedResultsInOrder(lines: seq<NewOrderLine>, items: map<int, ItemRow>, seen: seq<StockRow>)
    requires ItemsPresent(lines, items) && |seen| == |lines|
    ensures forall k | 0 <= k < |lines| ::
      ExpectedResults(lines, items, seen)[k] == ExpectedResult(lines[k], items, seen[k].quantity)
  {
    if lines != [] {
      var n := |lines|;
      var prefix := lines[..n - 1];
      assert forall k | 0 <= k < n - 1 :: prefix[k] == lines[k];
      ExpectedResultsInOrder(prefix, items, seen[..n - 1]);
    }
  }

  /** The ORDER_LINE key of the line at index k of an order: line number k + 1. */
  function LineKey(w: int, d: int, oid: int, k: int): OrderLineKey
  {
    (w, d, oid, k + 1)
  }

  /** ORDER_LINE after inserting the rows of `lines`, line k under line number k + 1. */
  function InsertOrderLines(
    orderLines: map<OrderLineKey, OrderLineRow>, w: int, d: int, oid: int,
    lines: seq<NewOrderLine>, items: map<int, ItemRow>): map<OrderLineKey, OrderLineRow>
    requires ItemsPresent(lines, items)
  {
    if lines == [] then orderLines
    else
      var n := |lines|;
      var last := lines[n - 1];
      InsertOrderLines(orderLines, w, d, oid, lines[..n - 1], items)
        [LineKey(w, d, oid, n - 1) := OrderLineRowFor(last, LineAmount(last.quantity, items[last.itemId].price), d)]
  }

  /** Line k's row is under line number k + 1, priced at its item's price. */
  lemma {:induction false} OrderLineInserted(
    orderLines: map<OrderLineKey, OrderLineRow>, w: int, d: int, oid: int,
    lines: seq<NewOrderLine>, items: map<int, ItemRow>, k: nat)
    requires ItemsPresent(lines, items) && k < |lines|
    ensures var after := InsertOrderLines(orderLines, w, d, oid, lines, items);
      LineKey(w, d, oid, k) in after &&
      after[LineKey(w, d, oid, k)] == OrderLineRowFor(lines[k], LineAmount(lines[k].quantity, items[lines[k].itemId].price), d)
  {
    var n := |lines|;
    if k < n - 1 {
      var prefix := lines[..n - 1];
      assert ItemsPresent(prefix, items) by {
        assert forall j | 0 <= j < n - 1 :: prefix[j] == lines[j];
      }
      assert prefix[k] == lines[k];
      OrderLineInserted(orderLines, w, d, oid, prefix, items, k);
      assert LineKey(w, d, oid, n - 1) != LineKey(w, d, oid, k);
    }
  }

  /** A row that is not one of this order's line numbers 1..|lines| was there before, unchanged. */
  lemma {:induction false} OtherOrderLinesUnchanged(
    orderLines: map<OrderLineKey, OrderLineRow>, w: int, d: int, oid: int,
    lines: seq<NewOrderLine>, items: map<int, ItemRow>, key: OrderLineKey)
    requires ItemsPresent(lines, items)
    requires !(key.0 == w && key.1 == d && key.2 == oid && 1 <= key.3 <= |lines|)
    ensures var after := InsertOrderLines(orderLines, w, d, oid, lines, items);
      (key in after <==> key in orderLines) && (key in after ==> after[key] == orderLines[key])
  {
    if lines != [] {
      var n := |lines|;
      var prefix := lines[..n - 1];
      assert ItemsPresent(prefix, items) by {
        assert forall j | 0 <= j < n - 1 :: prefix[j] == lines[j];
      }
      OtherOrderLinesUnchanged(orderLines, w, d, oid, prefix, items, key);
    }
  }

  /** Inserting the lines removes no row. */
  lemma {:induction false} OrderLinesKept(
    orderLines: map<OrderLineKey, OrderLineRow>, w: int, d: int, oid: int,
    lines: seq<NewOrderLine>, items: map<int, ItemRow>)
    requires ItemsPresent(lines, items)
    ensures orderLines.Keys <= InsertOrderLines(orderLines, w, d, oid, lines, items).Keys
  {
    if lines != [] {
      var n := |lines|;
      var prefix := lines[..n - 1];
      assert ItemsPresent(prefix, items) by {
        assert forall j | 0 <= j < n - 1 :: prefix[j] == lines[j];
      }
      OrderLinesKept(orderLines, w, d, oid, prefix, items);
    }
  }

  /**
   * STOCK after the lines' updates applied in order, line k's write being
   * computed from the row its applying attempt read (`seen[k]`).
   */
  function ApplyStockUpdates(
    stocks: map<StockKey, StockRow>, lines: seq<NewOrderLine>, seen: seq<StockRow>, homeWarehouseId: int): map<StockKey, StockRow>
    requires |seen| == |lines|
  {
    if lines == [] then stocks
    else
      var n := |lines|;
      ApplyStockUpdates(stocks, lines[..n - 1], seen[..n - 1], homeWarehouseId)
        [StockKeyOf(lines[n - 1]) := StockAfterOrder(seen[n - 1], lines[n - 1], homeWarehouseId)]
  }

  /** The stock updates of an order add no row when every line names an existing one. */
  lemma {:induction false} StockUpdatesKeys(
    stocks: map<StockKey, StockRow>, lines: seq<NewOrderLine>, seen: seq<StockRow>, homeWarehouseId: int)
    requires |seen| == |lines|
    requires forall k | 0 <= k < |lines| :: StockKeyOf(lines[k]) in stocks
    ensures ApplyStockUpdates(stocks, lines, seen, homeWarehouseId).Keys == stocks.Keys
  {
    if lines != [] {
      var n := |lines|;
      var prefix := lines[..n - 1];
      assert forall k | 0 <= k < n - 1 :: prefix[k] == lines[k];
      StockUpdatesKeys(stocks, prefix, seen[..n - 1], homeWarehouseId);
    }
  }

  /** A stock row no line names is left as it was. */
  lemma {:induction false} UnnamedStockUnchanged(
    stocks: map<StockKey, StockRow>, lines: seq<NewOrderLine>, seen: seq<StockRow>, homeWarehouseId: int, key: StockKey)
    requires |seen| == |lines| && key in stocks
    requires forall k | 0 <= k < |lines| :: StockKeyOf(lines[k]) != key
    ensures var after := ApplyStockUpdates(stocks, lines, seen, homeWarehouseId);
      key in after && after[key] == stocks[key]
  {
    if lines != [] {
      var n := |lines|;
      var prefix := lines[..n - 1];
      assert forall k | 0 <= k < n - 1 :: prefix[k] == lines[k];
      UnnamedStockUnchanged(stocks, prefix, seen[..n - 1], homeWarehouseId, key);
    }
  }

  /** The row named by line k and by no later line holds what line k wrote: the last writer wins. */
  lemma {:induction false} LastStockWriteWins(
    stocks: map<StockKey, StockRow>, lines: seq<NewOrderLine>, seen: seq<StockRow>, homeWarehouseId: int, k: nat)
    requires |seen| == |lines| && k < |lines|
    requires forall m | k < m < |lines| :: StockKeyOf(lines[m]) != StockKeyOf(lines[k])
    ensures var after := ApplyStockUpdates(stocks, lines, seen, homeWarehouseId);
      StockKeyOf(lines[k]) in after && after[StockKeyOf(lines[k])] == StockAfterOrder(seen[k], lines[k], homeWarehouseId)
  {
    var n := |lines|;
    if k < n - 1 {
      var prefix := lines[..n - 1];
      assert forall m | 0 <= m < n - 1 :: prefix[m] == lines[m];
      assert seen[..n - 1][k] == seen[k];
      LastStockWriteWins(stocks, prefix, seen[..n - 1], homeWarehouseId, k);
    }
  }

  /**
   * STOCK after the lines' updates when no other client writes in between:
   * each line reads the row as the previous lines left it.
   */
  function UncontendedStockUpdates(stocks: map<StockKey, StockRow>, lines: seq<NewOrderLine>, homeWarehouseId: int): (after: map<StockKey, StockRow>)
    ensures after.Keys == stocks.Keys
  {
    if lines == [] then stocks
    else
      var n := |lines|;
      var before := UncontendedStockUpdates(stocks, lines[..n - 1], homeWarehouseId);
      var key := StockKeyOf(lines[n - 1]);
      if key in before then before[key := StockAfterOrder(before[key], lines[n - 1], homeWarehouseId)] else before
  }

  /** The foreign stock writes the loop of line i meets; none for lines past the end of the schedules. */
  function ScheduleAt(schedules: seq<seq<Option<StockRow>>>, i: nat): seq<Option<StockRow>>
  {
    if i < |schedules| then schedules[i] else []
  }

  /**
   * The stock row the applying attempt of each line's loop read, the lines
   * running in order and each loop starting from STOCK as the earlier lines
   * left it. A line whose stock row is missing throws before any attempt;
   * its entry is never used.
   */
  ghost function StockReads(
    stocks: map<StockKey, StockRow>, lines: seq<NewOrderLine>, schedules: seq<seq<Option<StockRow>>>, homeWarehouseId: int): (seen: seq<StockRow>)
    ensures |seen| == |lines|
  {
    if lines == [] then []
    else
      var n := |lines|;
      var prior := StockReads(stocks, lines[..n - 1], schedules, homeWarehouseId);
      var before := ApplyStockUpdates(stocks, lines[..n - 1], prior, homeWarehouseId);
      var key := StockKeyOf(lines[n - 1]);
      prior + [if key in before then AppliedRead(before[key], ScheduleAt(schedules, n - 1), StockGuard) else StockRow(0, 0, 0, 0)]
  }

  /** Extending the lines by one extends the results by that line's result. */
  lemma ExpectedResultsStep(lines: seq<NewOrderLine>, i: nat, items: map<int, ItemRow>, seen: seq<StockRow>, read: StockRow)
    requires i < |lines| && |seen| == i && ItemsPresent(lines[..i], items) && lines[i].itemId in items
    ensures ItemsPresent(lines[..i + 1], items)
    ensures ExpectedResults(lines[..i + 1], items, seen + [read]) ==
      ExpectedResults(lines[..i], items, seen) + [ExpectedResult(lines[i], items, read.quantity)]
  {
    var prefix := lines[..i + 1];
    assert prefix[..i] == lines[..i] && prefix[i] == lines[i];
    assert (seen + [read])[..i] == seen;
  }

  /** Extending the lines by one inserts that line's row under line number i + 1. */
  lemma InsertOrderLinesStep(
    orderLines: map<OrderLineKey, OrderLineRow>, w: int, d: int, oid: int,
    lines: seq<NewOrderLine>, i: nat, items: map<int, ItemRow>)
    requires i < |lines| && ItemsPresent(lines[..i + 1], items)
    ensures ItemsPresent(lines[..i], items)
    ensures InsertOrderLines(orderLines, w, d, oid, lines[..i + 1], items) ==
      InsertOrderLines(orderLines, w, d, oid, lines[..i], items)
        [LineKey(w, d, oid, i) := OrderLineRowFor(lines[i], LineAmount(lines[i].quantity, items[lines[i].itemId].price), d)]
  {
    var prefix := lines[..i + 1];
    assert prefix[..i] == lines[..i] && prefix[i] == lines[i];
  }

  /** Extending the lines by one writes that line's row last. */
  lemma ApplyStockUpdatesStep(
    stocks: map<StockKey, StockRow>, lines: seq<NewOrderLine>, i: nat, seen: seq<StockRow>, read: StockRow, homeWarehouseId: int)
    requires i < |lines| && |seen| == i
    ensures ApplyStockUpdates(stocks, lines[..i + 1], seen + [read], homeWarehouseId) ==
      ApplyStockUpdates(stocks, lines[..i], seen, homeWarehouseId)
        [StockKeyOf(lines[i]) := StockAfterOrder(read, lines[i], homeWarehouseId)]
  {
    var prefix := lines[..i + 1];
    assert prefix[..i] == lines[..i] && prefix[i] == lines[i];
    assert (seen + [read])[..i] == seen;
  }

  /** Extending the lines by one extends the rows read by the row line i's loop reads on its applying attempt. */
  lemma StockReadsStep(
    stocks0: map<StockKey, StockRow>, lines: seq<NewOrderLine>, i: nat, schedules: seq<seq<Option<StockRow>>>, homeWarehouseId: int,
    stocks: map<StockKey, StockRow>, read: StockRow)
    requires i < |lines|
    requires stocks == ApplyStockUpdates(stocks0, lines[..i], StockReads(stocks0, lines[..i], schedules, homeWarehouseId), homeWarehouseId)
    requires StockKeyOf(lines[i]) in stocks
    requires read == AppliedRead(stocks[StockKeyOf(lines[i])], ScheduleAt(schedules, i), StockGuard)
    ensures StockReads(stocks0, lines[..i + 1], schedules, homeWarehouseId) ==
      StockReads(stocks0, lines[..i], schedules, homeWarehouseId) + [read]
  {
    var prefix := lines[..i + 1];
    assert prefix[..i] == lines[..i] && prefix[i] == lines[i];
  }

  /** Extending the lines by one applies that line to the row as the earlier lines left it. */
  lemma UncontendedStep(stocks: map<StockKey, StockRow>, lines: seq<NewOrderLine>, i: nat, homeWarehouseId: int)
    requires i < |lines|
    ensures var before := UncontendedStockUpdates(stocks, lines[..i], homeWarehouseId);
      var key := StockKeyOf(lines[i]);
      UncontendedStockUpdates(stocks, lines[..i + 1], homeWarehouseId) ==
        if key in before then before[key := StockAfterOrder(before[key], lines[i], homeWarehouseId)] else before
  {
    var prefix := lines[..i + 1];
    assert prefix[..i] == lines[..i] && prefix[i] == lines[i];
  }

  /**
   * The state once `lines` have been processed in order: the rows read are
   * those the applying attempts read under `schedules`; the results,
   * ORDER_LINE and STOCK are the folds over the lines; STOCK keeps its keys;
   * and without interference STOCK is the uncontended fold.
   */
  ghost predicate LinesProcessed(
    lines: seq<NewOrderLine>, items: map<int, ItemRow>, w: int, d: int, oid: int, schedules: seq<seq<Option<StockRow>>>,
    seen: seq<StockRow>, results: seq<ItemResultInfo>,
    stocks0: map<StockKey, StockRow>, orderLines0: map<OrderLineKey, OrderLineRow>,
    stocks: map<StockKey, StockRow>, orderLines: map<OrderLineKey, OrderLineRow>)
  {
    && seen == StockReads(stocks0, lines, schedules, w)
    && stocks.Keys == stocks0.Keys
    && ItemsPresent(lines, items)
    && results == ExpectedResults(lines, items, seen)
    && orderLines == InsertOrderLines(orderLines0, w, d, oid, lines, items)
    && stocks == ApplyStockUpdates(stocks0, lines, seen, w)
    && (schedules == [] ==> stocks == UncontendedStockUpdates(stocks0, lines, w))
  }

  /** Processing line i as `processNewOrderLine` does takes the state from i lines to i + 1. */
  lemma LinesProcessedStep(
    lines: seq<NewOrderLine>, i: nat, items: map<int, ItemRow>, w: int, d: int, oid: int, schedules: seq<seq<Option<StockRow>>>,
    seen: seq<StockRow>, results: seq<ItemResultInfo>,
    stocks0: map<StockKey, StockRow>, orderLines0: map<OrderLineKey, OrderLineRow>,
    stocks: map<StockKey, StockRow>, orderLines: map<OrderLineKey, OrderLineRow>,
    read: StockRow, result: ItemResultInfo,
    stocks': map<StockKey, StockRow>, orderLines': map<OrderLineKey, OrderLineRow>)
    requires i < |lines|
    requires LinesProcessed(lines[..i], items, w, d, oid, schedules, seen, results, stocks0, orderLines0, stocks, orderLines)
    requires StockKeyOf(lines[i]) in stocks && lines[i].itemId in items
    requires read == AppliedRead(stocks[StockKeyOf(lines[i])], ScheduleAt(schedules, i), StockGuard)
    requires stocks' == stocks[StockKeyOf(lines[i]) := StockAfterOrder(read, lines[i], w)]
    requires result == ExpectedResult(lines[i], items, read.quantity)
    requires orderLines' == orderLines[(w, d, oid, i + 1) := OrderLineRowFor(lines[i], result.amount, d)]
    ensures LinesProcessed(lines[..i + 1], items, w, d, oid, schedules, seen + [read], results + [result],
                           stocks0, orderLines0, stocks', orderLines')
  {
    StockReadsStep(stocks0, lines, i, schedules, w, stocks, read);
    ExpectedResultsStep(lines, i, items, seen, read);
    InsertOrderLinesStep(orderLines0, w, d, oid, lines, i, items);
    ApplyStockUpdatesStep(stocks0, lines, i, seen, read, w);
    UncontendedStep(stocks0, lines, i, w);
    UncontendedAttempt(stocks[StockKeyOf(lines[i])], StockGuard);
  }

  /**
   * Two lines of 5 units from 50 and 3 units from 8: the quantities written
   * are 45 and 5. The replenishment rule would have written 105 for the
   * second, since 8 − 3 falls under the threshold of 10.
   */
  lemma UncontendedExample()
    ensures var stocks := map[(1, 10) := StockRow(50, 0, 0, 0), (1, 20) := StockRow(8, 0, 0, 0)];
      var lines := [NewOrderLine(10, 1, 5), NewOrderLine(20, 1, 3)];
      var after := UncontendedStockUpdates(stocks, lines, 1);
      after[(1, 10)].quantity == 45 && after[(1, 20)].quantity == 5 && ReplenishedQuantity(8, 3) == 105
  {
    var stocks := map[(1, 10) := StockRow(50, 0, 0, 0), (1, 20) := StockRow(8, 0, 0, 0)];
    var lines := [NewOrderLine(10, 1, 5), NewOrderLine(20, 1, 3)];
    var one := [lines[0]];
    assert one[..0] == [] && lines[..1] == one;
    assert UncontendedStockUpdates(stocks, [], 1) == stocks;
    var first := UncontendedStockUpdates(stocks, one, 1);
    assert first == stocks[(1, 10) := StockAfterOrder(stocks[(1, 10)], lines[0], 1)];
    assert UncontendedStockUpdates(stocks, lines, 1) == first[(1, 20) := StockAfterOrder(first[(1, 20)], lines[1], 1)];
  }

  // ---------------------------------------------------------------------
  // Failure conditions, in the order `execute` meets them

  /** The first line, from index `from` on, whose stock row or item row is missing. */
  function FirstLineFailure(lines: seq<NewOrderLine>, from: nat, stocks: map<StockKey, StockRow>, items: map<int, ItemRow>): (f: Option<NewOrderError>)
    ensures f.Some? ==> f.value.MissingStock? || f.value.MissingItem?
    decreases |lines| - from
  {
    if from >= |lines| then None
    else if StockKeyOf(lines[from]) !in stocks then Some(MissingStock(from + 1))
    else if lines[from].itemId !in items then Some(MissingItem(from + 1))
    else FirstLineFailure(lines, from + 1, stocks, items)
  }

  /** No line fails from `from` on exactly when every such line names an existing stock row and item. */
  lemma {:induction false} FirstLineFailureNone(
    lines: seq<NewOrderLine>, from: nat, stocks: map<StockKey, StockRow>, items: map<int, ItemRow>)
    ensures FirstLineFailure(lines, from, stocks, items).None? <==>
      forall k | from <= k < |lines| :: StockKeyOf(lines[k]) in stocks && lines[k].itemId in items
    decreases |lines| - from
  {
    if from < |lines| {
      FirstLineFailureNone(lines, from + 1, stocks, items);
    }
  }

  /** Why `execute` throws once the lines are parsed: a missing stock or item row, warehouse or customer. */
  function FailureAfterLines(
    h: Header, lines: seq<NewOrderLine>, stocks: map<StockKey, StockRow>, items: map<int, ItemRow>,
    warehouses: map<int, real>, customers: map<CustomerKey, CustomerRow>): (f: Option<NewOrderError>)
    ensures f.None? ==> h.warehouseId in warehouses && (h.warehouseId, h.districtId, h.customerId) in customers
    ensures f.Some? ==> f.value.MissingStock? || f.value.MissingItem? || f.value == MissingWarehouse || f.value == MissingCustomer
  {
    var lineFailure := FirstLineFailure(lines, 0, stocks, items);
    if lineFailure.Some? then lineFailure
    else if h.warehouseId !in warehouses then Some(MissingWarehouse)
    else if (h.warehouseId, h.districtId, h.customerId) !in customers then Some(MissingCustomer)
    else None
  }

  /** Why `execute` throws once the parameters are parsed. */
  function FailureAfterHeader(
    h: Header, dataLines: seq<string>,
    districts: map<DistrictKey, DistrictRow>, stocks: map<StockKey, StockRow>, items: map<int, ItemRow>,
    warehouses: map<int, real>, customers: map<CustomerKey, CustomerRow>): (f: Option<NewOrderError>)
    ensures f.None? ==> ParseNewOrderLines(dataLines).Some?
    ensures f.None? ==> FailureAfterLines(h, ParseNewOrderLines(dataLines).value, stocks, items, warehouses, customers).None?
    ensures f != Some(BadParameters)
  {
    if (h.warehouseId, h.districtId) !in districts then Some(MissingDistrict)
    else
      match ParseNewOrderLines(dataLines)
      case None => Some(BadDetailLine)
      case Some(lines) => FailureAfterLines(h, lines, stocks, items, warehouses, customers)
  }

  /** Why `execute` throws for these inputs and this initial store, or None when it returns. */
  function FailureOf(
    parameters: seq<string>, dataLines: seq<string>,
    districts: map<DistrictKey, DistrictRow>, stocks: map<StockKey, StockRow>, items: map<int, ItemRow>,
    warehouses: map<int, real>, customers: map<CustomerKey, CustomerRow>): (f: Option<NewOrderError>)
    ensures f.None? ==> ParseHeader(parameters).Some? && ParseNewOrderLines(dataLines).Some?
    ensures f == Some(BadParameters) <==> ParseHeader(parameters).None?
  {
    match ParseHeader(parameters)
    case None => Some(BadParameters)
    case Some(h) => FailureAfterHeader(h, dataLines, districts, stocks, items, warehouses, customers)
  }

  /**
   * What a returning `execute` leaves behind besides the district counter:
   * the ORDERS row, one ORDER_LINE row per line, every stock row written as
   * `ApplyStockUpdates` says from the rows the applying attempts read (as
   * `UncontendedStockUpdates` says when no other client wrote a stock row),
   * and a summary listing the lines in input order, with the warehouse tax,
   * the customer's columns and the total.
   */
  ghost predicate Completed(
    h: Header, lines: seq<NewOrderLine>, now: int, schedules: seq<seq<Option<StockRow>>>, s: NewOrderSummary, seen: seq<StockRow>,
    ordersBefore: map<OrderKey, OrderRow>, ordersAfter: map<OrderKey, OrderRow>,
    orderLinesBefore: map<OrderLineKey, OrderLineRow>, orderLinesAfter: map<OrderLineKey, OrderLineRow>,
    stocksBefore: map<StockKey, StockRow>, stocksAfter: map<StockKey, StockRow>,
    items: map<int, ItemRow>, warehouses: map<int, real>, customers: map<CustomerKey, CustomerRow>)
  {
    var w, d := h.warehouseId, h.districtId;
    && ordersAfter == ordersBefore[(w, d, s.oid) := OrderHeader(h, now, lines)]
    && LinesProcessed(lines, items, w, d, s.oid, schedules, seen, s.itemResults,
                      stocksBefore, orderLinesBefore, stocksAfter, orderLinesAfter)
    && s.entryD == now
    && w in warehouses && s.warehouseTax == warehouses[w]
    && (w, d, h.customerId) in customers
    && s.customerInfo == CustomerInfo(customers[(w, d, h.customerId)].last, customers[(w, d, h.customerId)].credit,
                                      customers[(w, d, h.customerId)].discount)
    && s.totalAmount == TotalAmount(LineAmounts(s.itemResults), s.districtTax, s.warehouseTax, s.customerInfo.discount)
  }

  // ---------------------------------------------------------------------
  // The handler

  class NewOrderTransaction {
    const store: Store
    var customerId: Int32
    var warehouseId: Int32
    var districtId: Int32
    var noOfItems: Int32

    constructor(store: Store)
      ensures this.store == store
    {
      this.store := store;
      customerId, warehouseId, districtId, noOfItems := 0, 0, 0, 0;
    }

    /**
     * Reads D_NEXT_O_ID and D_TAX, then tries to move the counter from the
     * value read to that value + 1, until a conditional write applies. The
     * result is the row read on the applying attempt, and the district row is
     * then `Allocated`: the row that write found, with the counter moved on.
     */
    method GetAndUpdateDistrictNextOid(schedule: seq<Option<DistrictRow>>) returns (r: Option<DistrictInfo>)
      modifies store`districts
      ensures r.None? <==> (warehouseId, districtId) !in old(store.districts)
      ensures r.None? ==> store.districts == old(store.districts)
      ensures r.Some? ==>
        var row0 := old(store.districts)[(warehouseId, districtId)];
        var read := AppliedRead(row0, schedule, DistrictGuard);
        r.value == DistrictInfo(read.nextOid, read.tax) &&
        store.districts == old(store.districts)[(warehouseId, districtId) := Allocated(row0, schedule)]
    {
      var key := (warehouseId, districtId);
      ghost var row0 := if key in store.districts then store.districts[key] else DistrictRow(0.0, 0);
      var isIncrementSuccessful := false;
      var dNextOid: Int32 := -1;
      var dTax: real := -1.0;
      var attempt := 0;
      while !isIncrementSuccessful
        invariant attempt <= |schedule| + 1
        invariant !isIncrementSuccessful ==> attempt <= |schedule|
        invariant attempt == 0 ==> !isIncrementSuccessful && store.districts == old(store.districts)
        invariant attempt > 0 ==> key in old(store.districts) && row0 == old(store.districts)[key]
        invariant forall j | 0 <= j < (if isIncrementSuccessful then attempt - 1 else attempt) ::
          Rejected(row0, schedule, DistrictGuard, j)
        invariant !isIncrementSuccessful && attempt > 0 ==>
          store.districts == old(store.districts)[key := ReadAt(row0, schedule, attempt)]
        invariant isIncrementSuccessful ==>
          var k := attempt - 1;
          && !Rejected(row0, schedule, DistrictGuard, k)
          && dNextOid == ReadAt(row0, schedule, k).nextOid && dTax == ReadAt(row0, schedule, k).tax
          && store.districts == old(store.districts)[key :=
               Met(ReadAt(row0, schedule, k), ForeignAt(schedule, k)).(nextOid := Wrap32(dNextOid + 1))]
        decreases |schedule| + 1 - attempt
      {
        var row := store.ReadDistrict(key);
        if row.None? {
          return None;
        }
        dTax := row.value.tax;
        dNextOid := row.value.nextOid;
        var foreign := ForeignAt(schedule, attempt);
        if foreign.Some? {
          store.ForeignDistrictWrite(key, foreign.value);
        }
        isIncrementSuccessful := store.UpdateDistrictNextOidIf(key, Wrap32(dNextOid + 1), dNextOid);
        if !isIncrementSuccessful {
          RejectedByForeignWrite(row0, schedule, DistrictGuard, attempt);
        }
        attempt := attempt + 1;
      }
      AppliedAttempt(row0, schedule, DistrictGuard, attempt - 1);
      r := Some(DistrictInfo(dNextOid, dTax));
    }

    /** Inserts the ORDERS row: carrier id −1, O_OL_CNT = parameters[4], the all-local flag as 1 or 0. */
    method CreateNewOrder(oid: Int32, newOrderLines: seq<NewOrderLine>, now: int)
      modifies store`orders
      ensures store.orders == old(store.orders)[(warehouseId, districtId, oid) :=
        OrderHeader(Header(customerId, warehouseId, districtId, noOfItems), now, newOrderLines)]
    {
      var isAllItemsLocal := IsAllItemsLocal(newOrderLines, warehouseId);
      store.InsertOrder((warehouseId, districtId, oid),
        OrderRow(customerId, now, NULL_CARRIER_ID, noOfItems, AllLocalFlag(isAllItemsLocal)));
    }

    /**
     * One attempt: read the stock row, let `interference` happen, then write
     * the updated columns if S_ORDER_CNT still holds the value read.
     */
    method UpdateStock(line: NewOrderLine, interference: Option<StockRow>) returns (r: Option<UpdateStockResult>)
      modifies store`stocks
      ensures r.None? <==> StockKeyOf(line) !in old(store.stocks)
      ensures r.None? ==> store.stocks == old(store.stocks)
      ensures r.Some? ==>
        var read := old(store.stocks)[StockKeyOf(line)];
        var met := Met(read, interference);
        && r.value.originalQuantity == read.quantity
        && (r.value.isSuccessful <==> met.orderCnt == read.orderCnt)
        && store.stocks == old(store.stocks)[StockKeyOf(line) :=
             if r.value.isSuccessful then StockAfterOrder(read, line, warehouseId) else met]
    {
      var key := StockKeyOf(line);
      var currentStockInfo := store.ReadStock(key);
      if currentStockInfo.None? {
        return None;
      }
      var stock := currentStockInfo.value;
      var adjusted := StockAfterOrder(stock, line, warehouseId);
      if interference.Some? {
        store.ForeignStockWrite(key, interference.value);
      }
      var isSuccessful := store.UpdateStockIf(key, adjusted, stock.orderCnt);
      r := Some(UpdateStockResult(stock.quantity, isSuccessful));
    }

    /** Reads the item, prices the line and inserts its ORDER_LINE row. */
    method CreateNewOrderLine(line: NewOrderLine, orderId: Int32, orderLineNumber: int, originalStockQuantity: int)
      returns (r: Option<ItemResultInfo>)
      modifies store`orderLines
      ensures r.None? <==> line.itemId !in store.items
      ensures r.None? ==> store.orderLines == old(store.orderLines)
      ensures r.Some? ==> r.value == ExpectedResult(line, store.items, originalStockQuantity)
      ensures r.Some? ==> store.orderLines == old(store.orderLines)[(warehouseId, districtId, orderId, orderLineNumber) :=
        OrderLineRowFor(line, r.value.amount, districtId)]
    {
      var item := store.ReadItem(line.itemId);
      if item.None? {
        return None;
      }
      var itemAmount := LineAmount(line.quantity, item.value.price);
      store.InsertOrderLine((warehouseId, districtId, orderId, orderLineNumber),
        OrderLineRowFor(line, itemAmount, districtId));
      r := Some(ItemResultInfo(line.itemId, item.value.name, line.supplierWarehouseId, line.quantity,
                               itemAmount, originalStockQuantity));
    }

    /**
     * Retries `UpdateStock` until its write applies, then creates the order
     * line with the quantity read on the applying attempt. The stock row is
     * then written from the row that attempt read.
     */
    method ProcessNewOrderLine(line: NewOrderLine, orderId: Int32, orderLineNumber: int, schedule: seq<Option<StockRow>>)
      returns (r: Result<ItemResultInfo, NewOrderError>)
      modifies store`stocks, store`orderLines
      ensures r.Failure? ==> r.error == MissingStock(orderLineNumber) || r.error == MissingItem(orderLineNumber)
      ensures r.Failure? && r.error == MissingStock(orderLineNumber) <==> StockKeyOf(line) !in old(store.stocks)
      ensures r.Failure? && r.error == MissingItem(orderLineNumber) <==>
        StockKeyOf(line) in old(store.stocks) && line.itemId !in store.items
      ensures StockKeyOf(line) !in old(store.stocks) ==> store.stocks == old(store.stocks)
      ensures StockKeyOf(line) in old(store.stocks) ==>
        var read := AppliedRead(old(store.stocks)[StockKeyOf(line)], schedule, StockGuard);
        && store.stocks == old(store.stocks)[StockKeyOf(line) := StockAfterOrder(read, line, warehouseId)]
        && (r.Success? ==> r.value == ExpectedResult(line, store.items, read.quantity))
      ensures r.Success? ==> store.orderLines == old(store.orderLines)[(warehouseId, districtId, orderId, orderLineNumber) :=
        OrderLineRowFor(line, r.value.amount, districtId)]
      ensures r.Failure? ==> store.orderLines == old(store.orderLines)
    {
      var key := StockKeyOf(line);
      ghost var row0 := if key in store.stocks then store.stocks[key] else StockRow(0, 0, 0, 0);
      var updateStockResult := UpdateStockResult(0, false);
      var attempt := 0;
      while !updateStockResult.isSuccessful
        invariant attempt <= |schedule| + 1
        invariant !updateStockResult.isSuccessful ==> attempt <= |schedule|
        invariant attempt == 0 ==> !updateStockResult.isSuccessful && store.stocks == old(store.stocks)
        invariant attempt > 0 ==> key in old(store.stocks) && row0 == old(store.stocks)[key]
        invariant forall j | 0 <= j < (if updateStockResult.isSuccessful then attempt - 1 else attempt) ::
          Rejected(row0, schedule, StockGuard, j)
        invariant !updateStockResult.isSuccessful && attempt > 0 ==>
          store.stocks == old(store.stocks)[key := ReadAt(row0, schedule, attempt)]
        invariant updateStockResult.isSuccessful ==>
          var k := attempt - 1;
          && !Rejected(row0, schedule, StockGuard, k)
          && updateStockResult.originalQuantity == ReadAt(row0, schedule, k).quantity
          && store.stocks == old(store.stocks)[key := StockAfterOrder(ReadAt(row0, schedule, k), line, warehouseId)]
        invariant store.orderLines == old(store.orderLines)
        decreases |schedule| + 1 - attempt
      {
        ghost var read := ReadAt(row0, schedule, attempt);
        assert attempt > 0 ==> store.stocks[key] == read;
        var attemptResult := UpdateStock(line, ForeignAt(schedule, attempt));
        if attemptResult.None? {
          return Failure(MissingStock(orderLineNumber));
        }
        updateStockResult := attemptResult.value;
        if !updateStockResult.isSuccessful {
          RejectedByForeignWrite(row0, schedule, StockGuard, attempt);
        }
        attempt := attempt + 1;
      }
      AppliedAttempt(row0, schedule, StockGuard, attempt - 1);
      var info := CreateNewOrderLine(line, orderId, orderLineNumber, updateStockResult.originalQuantity);
      if info.None? {
        return Failure(MissingItem(orderLineNumber));
      }
      r := Success(info.value);
    }

    /**
     * `execute(dataLines, parameters)`: fails, and with which reason, exactly
     * as `FailureOf` says of the initial store. A failure at the parameters or
     * the district changes nothing; a bad detail line leaves only the district
     * row allocated. On success the order id and D_TAX are those read on the
     * applying attempt of the allocation, the district row is `Allocated`, and
     * `Completed` describes the rest.
     */
    method Execute(dataLines: seq<string>, parameters: seq<string>, now: int, env: Interference)
      returns (r: Result<NewOrderSummary, NewOrderError>, ghost seen: seq<StockRow>)
      modifies this, store`districts, store`stocks, store`orders, store`orderLines
      ensures FailureOf(parameters, dataLines, old(store.districts), old(store.stocks), store.items,
                        store.warehouses, store.customers) == (if r.Failure? then Some(r.error) else None)
      ensures r.Failure? && (r.error == BadParameters || r.error == MissingDistrict) ==>
        store.districts == old(store.districts) && store.stocks == old(store.stocks) &&
        store.orders == old(store.orders) && store.orderLines == old(store.orderLines)
      ensures (r.Failure? && r.error == BadDetailLine) || r.Success? ==>
        var h := ParseHeader(parameters).value;
        && Header(customerId, warehouseId, districtId, noOfItems) == h
        && (h.warehouseId, h.districtId) in old(store.districts)
        && store.districts == old(store.districts)[(h.warehouseId, h.districtId) :=
             Allocated(old(store.districts)[(h.warehouseId, h.districtId)], env.district)]
      ensures r.Failure? && r.error == BadDetailLine ==>
        store.stocks == old(store.stocks) && store.orders == old(store.orders) && store.orderLines == old(store.orderLines)
      ensures r.Success? ==>
        var h := ParseHeader(parameters).value;
        var read := AppliedRead(old(store.districts)[(h.warehouseId, h.districtId)], env.district, DistrictGuard);
        && r.value.oid == read.nextOid && r.value.districtTax == read.tax
        && Completed(h, ParseNewOrderLines(dataLines).value, now, env.stock, r.value, seen,
                     old(store.orders), store.orders, old(store.orderLines), store.orderLines,
                     old(store.stocks), store.stocks, store.items, store.warehouses, store.customers)
    {
      seen := [];
      var parametersOk := ParseParameters(parameters);
      if !parametersOk {
        return Failure(BadParameters), seen;
      }
      r, seen := PlaceOrder(dataLines, now, env);
    }

    /** `execute` after the parameters are parsed: allocate the order id, parse the lines, complete the order. */
    method PlaceOrder(dataLines: seq<string>, now: int, env: Interference)
      returns (r: Result<NewOrderSummary, NewOrderError>, ghost seen: seq<StockRow>)
      modifies store`districts, store`stocks, store`orders, store`orderLines
      ensures var h := Header(customerId, warehouseId, districtId, noOfItems);
        FailureAfterHeader(h, dataLines, old(store.districts), old(store.stocks), store.items,
                           store.warehouses, store.customers) == (if r.Failure? then Some(r.error) else None)
      ensures r.Failure? && r.error == MissingDistrict ==>
        store.districts == old(store.districts) && store.stocks == old(store.stocks) &&
        store.orders == old(store.orders) && store.orderLines == old(store.orderLines)
      ensures (r.Failure? && r.error == BadDetailLine) || r.Success? ==>
        (warehouseId, districtId) in old(store.districts) &&
        store.districts == old(store.districts)[(warehouseId, districtId) :=
          Allocated(old(store.districts)[(warehouseId, districtId)], env.district)]
      ensures r.Failure? && r.error == BadDetailLine ==>
        store.stocks == old(store.stocks) && store.orders == old(store.orders) && store.orderLines == old(store.orderLines)
      ensures r.Success? ==>
        var read := AppliedRead(old(store.districts)[(warehouseId, districtId)], env.district, DistrictGuard);
        && r.value.oid == read.nextOid && r.value.districtTax == read.tax
        && Completed(Header(customerId, warehouseId, districtId, noOfItems), ParseNewOrderLines(dataLines).value, now,
                     env.stock, r.value, seen,
                     old(store.orders), store.orders, old(store.orderLines), store.orderLines,
                     old(store.stocks), store.stocks, store.items, store.warehouses, store.customers)
    {
      seen := [];
      var nextOidResult := GetAndUpdateDistrictNextOid(env.district);
      if nextOidResult.None? {
        return Failure(MissingDistrict), seen;
      }
      var orderId := nextOidResult.value.nextOid;
      var parsed := ParseNewOrderLines(dataLines);
      if parsed.None? {
        return Failure(BadDetailLine), seen;
      }
      r, seen := CompleteOrder(orderId, nextOidResult.value.tax, parsed.value, now, env.stock);
    }

    /**
     * `execute` after the order id is allocated: insert the order header,
     * process the lines, read the warehouse tax and the customer, total.
     */
    method CompleteOrder(orderId: Int32, districtTax: real, newOrderLines: seq<NewOrderLine>, now: int,
                         schedules: seq<seq<Option<StockRow>>>)
      returns (r: Result<NewOrderSummary, NewOrderError>, ghost seen: seq<StockRow>)
      modifies store`stocks, store`orders, store`orderLines
      ensures FailureAfterLines(Header(customerId, warehouseId, districtId, noOfItems), newOrderLines, old(store.stocks),
                                store.items, store.warehouses, store.customers) == (if r.Failure? then Some(r.error) else None)
      ensures r.Success? ==>
        && r.value.oid == orderId && r.value.districtTax == districtTax
        && Completed(Header(customerId, warehouseId, districtId, noOfItems), newOrderLines, now, schedules, r.value, seen,
                     old(store.orders), store.orders, old(store.orderLines), store.orderLines,
                     old(store.stocks), store.stocks, store.items, store.warehouses, store.customers)
    {
      CreateNewOrder(orderId, newOrderLines, now);
      var linesResult;
      linesResult, seen := ProcessNewOrderLines(newOrderLines, orderId, schedules);
      if linesResult.Failure? {
        return Failure(linesResult.error), seen;
      }
      var orderLinesResult := linesResult.value;
      var warehouseTax := GetWarehouseTax();
      if warehouseTax.None? {
        return Failure(MissingWarehouse), seen;
      }
      var customerInfo := GetCustomerInfo();
      if customerInfo.None? {
        return Failure(MissingCustomer), seen;
      }
      var totalAmount := TotalAmount(LineAmounts(orderLinesResult), districtTax, warehouseTax.value,
                                     customerInfo.value.discount);
      r := Success(NewOrderSummary(customerInfo.value, warehouseTax.value, districtTax, now, orderId,
                                   totalAmount, orderLinesResult));
    }

    /** `parseInt` of parameters[1..4] into the customer, warehouse, district and item count fields. */
    method ParseParameters(parameters: seq<string>) returns (ok: bool)
      modifies this`customerId, this`warehouseId, this`districtId, this`noOfItems
      ensures ok <==> ParseHeader(parameters).Some?
      ensures ok ==> ParseHeader(parameters).value == Header(customerId, warehouseId, districtId, noOfItems)
    {
      if |parameters| < 5 {
        return false;
      }
      var c := ParseInt(parameters[1]);
      if c.None? {
        return false;
      }
      customerId := c.value;
      var w := ParseInt(parameters[2]);
      if w.None? {
        return false;
      }
      warehouseId := w.value;
      var d := ParseInt(parameters[3]);
      if d.None? {
        return false;
      }
      districtId := d.value;
      var n := ParseInt(parameters[4]);
      if n.None? {
        return false;
      }
      noOfItems := n.value;
      ok := true;
    }

    /**
     * The stream `range(0, n).mapToObj(i -> processNewOrderLine(lines[i], oid, i + 1))`
     * taken in index order: the results keep the input order, line k gets
     * line number k + 1, and the first line whose stock or item row is
     * missing stops the stream with that failure.
     */
    method ProcessNewOrderLines(newOrderLines: seq<NewOrderLine>, orderId: Int32, schedules: seq<seq<Option<StockRow>>>)
      returns (r: Result<seq<ItemResultInfo>, NewOrderError>, ghost seen: seq<StockRow>)
      modifies store`stocks, store`orderLines
      ensures FirstLineFailure(newOrderLines, 0, old(store.stocks), store.items) == (if r.Failure? then Some(r.error) else None)
      ensures r.Success? ==>
        LinesProcessed(newOrderLines, store.items, warehouseId, districtId, orderId, schedules,
                       seen, r.value, old(store.stocks), old(store.orderLines), store.stocks, store.orderLines)
    {
      var results: seq<ItemResultInfo> := [];
      seen := [];
      var i := 0;
      while i < |newOrderLines|
        invariant FirstLineFailure(newOrderLines, 0, old(store.stocks), store.items) ==
                  FirstLineFailure(newOrderLines, i, old(store.stocks), store.items)
        invariant i <= |newOrderLines|
        invariant LinesProcessed(newOrderLines[..i], store.items, warehouseId, districtId, orderId, schedules,
                                 seen, results, old(store.stocks), old(store.orderLines), store.stocks, store.orderLines)
      {
        var lineResult;
        ghost var lineRead;
        lineResult, lineRead := ProcessLineAt(newOrderLines, i, orderId, schedules,
                                              seen, results, old(store.stocks), old(store.orderLines));
        if lineResult.Failure? {
          return Failure(lineResult.error), seen;
        }
        results := results + [lineResult.value];
        seen := seen + [lineRead];
        i := i + 1;
      }
      assert newOrderLines[..i] == newOrderLines;
      r := Success(results);
    }

    /**
     * Line i of the stream, processed on top of the first i: it fails as
     * `FirstLineFailure` says at i, and otherwise extends the folds by one
     * line, `read` being the row its applying attempt read.
     */
    method ProcessLineAt(newOrderLines: seq<NewOrderLine>, i: nat, orderId: Int32, schedules: seq<seq<Option<StockRow>>>,
                         ghost seen: seq<StockRow>, results: seq<ItemResultInfo>,
                         ghost stocks0: map<StockKey, StockRow>, ghost orderLines0: map<OrderLineKey, OrderLineRow>)
      returns (r: Result<ItemResultInfo, NewOrderError>, ghost read: StockRow)
      requires i < |newOrderLines|
      requires LinesProcessed(newOrderLines[..i], store.items, warehouseId, districtId, orderId, schedules,
                              seen, results, stocks0, orderLines0, store.stocks, store.orderLines)
      modifies store`stocks, store`orderLines
      ensures r.Failure? ==> FirstLineFailure(newOrderLines, i, stocks0, store.items) == Some(r.error)
      ensures r.Success? ==>
        FirstLineFailure(newOrderLines, i, stocks0, store.items) == FirstLineFailure(newOrderLines, i + 1, stocks0, store.items)
      ensures r.Success? ==>
        LinesProcessed(newOrderLines[..i + 1], store.items, warehouseId, districtId, orderId, schedules,
                       seen + [read], results + [r.value], stocks0, orderLines0, store.stocks, store.orderLines)
    {
      ghost var stocks, orderLines := store.stocks, store.orderLines;
      read := StockRow(0, 0, 0, 0);
      r := ProcessNewOrderLine(newOrderLines[i], orderId, i + 1, ScheduleAt(schedules, i));
      if r.Success? {
        read := AppliedRead(stocks[StockKeyOf(newOrderLines[i])], ScheduleAt(schedules, i), StockGuard);
        LinesProcessedStep(newOrderLines, i, store.items, warehouseId, districtId, orderId, schedules,
                           seen, results, stocks0, orderLines0, stocks, orderLines,
                           read, r.value, store.stocks, store.orderLines);
      }
    }

    method GetWarehouseTax() returns (tax: Option<real>)
      ensures tax == Lookup(store.warehouses, warehouseId)
    {
      tax := store.ReadWarehouseTax(warehouseId);
    }

    method GetCustomerInfo() returns (info: Option<CustomerInfo>)
      ensures info.None? <==> (warehouseId, districtId, customerId) !in store.customers
      ensures info.Some? ==> var c := store.customers[(warehouseId, districtId, customerId)];
        info.value == CustomerInfo(c.last, c.credit, c.discount)
    {
      var row := store.ReadCustomer((warehouseId, districtId, customerId));
      if row.None? {
        return None;
      }
      info := Some(CustomerInfo(row.value.last, row.value.credit, row.value.discount));
    }
  }
}
