/**
 * The keyed row store the transactions run against. Each CQL table the
 * New-Order transaction touches is a map from its primary key to the columns
 * that transaction reads or writes. The store offers a plain read (a missing
 * row is `None`, where the driver returns a null row), an unconditional
 * insert (CQL `INSERT` overwrites), and the two lightweight-transaction
 * updates `UPDATE ... IF <guard> = <expected>`, which apply only while the
 * guard column still holds the value the caller read.
 */
module DataStore {
  import opened Wrappers
  import opened JavaLang

  /** DISTRICT keyed by (D_W_ID, D_ID): D_TAX and the order-id counter D_NEXT_O_ID. */
  datatype DistrictRow = DistrictRow(tax: real, nextOid: Int32)

  /** STOCK keyed by (S_W_ID, S_I_ID); S_ORDER_CNT is the guard of its conditional update. */
  datatype StockRow = StockRow(quantity: int, ytd: int, orderCnt: Int32, remoteCnt: Int32)

  /** ITEM keyed by I_ID. */
  datatype ItemRow = ItemRow(price: real, name: string)

  /** CUSTOMER keyed by (C_W_ID, C_D_ID, C_ID). */
  datatype CustomerRow = CustomerRow(last: string, credit: string, discount: real)

  /** ORDERS keyed by (O_W_ID, O_D_ID, O_ID); the entry date is an instant given as an integer. */
  datatype OrderRow = OrderRow(customerId: int, entryD: int, carrierId: int, olCnt: int, allLocal: int)

  /** ORDER_LINE keyed by (OL_W_ID, OL_D_ID, OL_O_ID, OL_NUMBER). */
  datatype OrderLineRow = OrderLineRow(
    itemId: int, supplyWarehouseId: int, quantity: int, amount: real,
    deliveryD: Option<int>, distInfo: string)

  type DistrictKey = (int, int)
  type StockKey = (int, int)
  type CustomerKey = (int, int, int)
  type OrderKey = (int, int, int)
  type OrderLineKey = (int, int, int, int)

  /** DISTRICT after `UPDATE ... SET D_NEXT_O_ID = newOid IF D_NEXT_O_ID = expected`, and whether it applied. */
  function DistrictWriteIf(
    districts: map<DistrictKey, DistrictRow>, key: DistrictKey, newOid: Int32, expected: Int32): (map<DistrictKey, DistrictRow>, bool)
  {
    if key in districts && districts[key].nextOid == expected then (districts[key := districts[key].(nextOid := newOid)], true)
    else (districts, false)
  }

  /** STOCK after `UPDATE ... SET <columns> = newRow IF S_ORDER_CNT = expected`, and whether it applied. */
  function StockWriteIf(
    stocks: map<StockKey, StockRow>, key: StockKey, newRow: StockRow, expected: Int32): (map<StockKey, StockRow>, bool)
  {
    if key in stocks && stocks[key].orderCnt == expected then (stocks[key := newRow], true) else (stocks, false)
  }

  class Store {
    var districts: map<DistrictKey, DistrictRow>
    var stocks: map<StockKey, StockRow>
    var items: map<int, ItemRow>
    /** WAREHOUSE keyed by W_ID: its W_TAX. */
    var warehouses: map<int, real>
    var customers: map<CustomerKey, CustomerRow>
    var orders: map<OrderKey, OrderRow>
    var orderLines: map<OrderLineKey, OrderLineRow>

    constructor(
      districts: map<DistrictKey, DistrictRow>, stocks: map<StockKey, StockRow>,
      items: map<int, ItemRow>, warehouses: map<int, real>,
      customers: map<CustomerKey, CustomerRow>)
      ensures this.districts == districts && this.stocks == stocks && this.items == items
      ensures this.warehouses == warehouses && this.customers == customers
      ensures orders == map[] && orderLines == map[]
    {
      this.districts := districts;
      this.stocks := stocks;
      this.items := items;
      this.warehouses := warehouses;
      this.customers := customers;
      orders := map[];
      orderLines := map[];
    }

    method ReadDistrict(key: DistrictKey) returns (row: Option<DistrictRow>)
      ensures row == Lookup(districts, key)
    {
      row := Lookup(districts, key);
    }

    /**
     * `UPDATE DISTRICT SET D_NEXT_O_ID = newOid WHERE ... IF D_NEXT_O_ID = expected`:
     * applied exactly when the row exists and its counter still equals
     * `expected`; only the counter changes; otherwise nothing changes.
     */
    method UpdateDistrictNextOidIf(key: DistrictKey, newOid: Int32, expected: Int32) returns (applied: bool)
      modifies this`districts
      ensures (districts, applied) == DistrictWriteIf(old(districts), key, newOid, expected)
      ensures applied <==> key in old(districts) && old(districts)[key].nextOid == expected
      ensures applied ==> districts == old(districts)[key := old(districts)[key].(nextOid := newOid)]
      ensures !applied ==> districts == old(districts)
    {
      applied := key in districts && districts[key].nextOid == expected;
      if applied {
        districts := districts[key := districts[key].(nextOid := newOid)];
      }
    }

    method ReadStock(key: StockKey) returns (row: Option<StockRow>)
      ensures row == Lookup(stocks, key)
    {
      row := Lookup(stocks, key);
    }

    /**
     * `UPDATE STOCK SET S_QUANTITY, S_YTD, S_ORDER_CNT, S_REMOTE_CNT = newRow
     * WHERE ... IF S_ORDER_CNT = expectedOrderCnt`: applied exactly when the
     * row exists and its order count still equals the expected one; otherwise
     * nothing changes.
     */
    method UpdateStockIf(key: StockKey, newRow: StockRow, expectedOrderCnt: Int32) returns (applied: bool)
      modifies this`stocks
      ensures (stocks, applied) == StockWriteIf(old(stocks), key, newRow, expectedOrderCnt)
      ensures applied <==> key in old(stocks) && old(stocks)[key].orderCnt == expectedOrderCnt
      ensures applied ==> stocks == old(stocks)[key := newRow]
      ensures !applied ==> stocks == old(stocks)
    {
      applied := key in stocks && stocks[key].orderCnt == expectedOrderCnt;
      if applied {
        stocks := stocks[key := newRow];
      }
    }

    /** A write by another client between this client's read and its conditional write. */
    method ForeignDistrictWrite(key: DistrictKey, row: DistrictRow)
      modifies this`districts
      ensures districts == old(districts)[key := row]
    {
      districts := districts[key := row];
    }

    /** A write by another client between this client's read and its conditional write. */
    method ForeignStockWrite(key: StockKey, row: StockRow)
      modifies this`stocks
      ensures stocks == old(stocks)[key := row]
    {
      stocks := stocks[key := row];
    }

    method ReadItem(itemId: int) returns (row: Option<ItemRow>)
      ensures row == Lookup(items, itemId)
    {
      row := Lookup(items, itemId);
    }

    method ReadWarehouseTax(warehouseId: int) returns (tax: Option<real>)
      ensures tax == Lookup(warehouses, warehouseId)
    {
      tax := Lookup(warehouses, warehouseId);
    }

    method ReadCustomer(key: CustomerKey) returns (row: Option<CustomerRow>)
      ensures row == Lookup(customers, key)
    {
      row := Lookup(customers, key);
    }

    method InsertOrder(key: OrderKey, row: OrderRow)
      modifies this`orders
      ensures orders == old(orders)[key := row]
    {
      orders := orders[key := row];
    }

    method InsertOrderLine(key: OrderLineKey, row: OrderLineRow)
      modifies this`orderLines
      ensures orderLines == old(orderLines)[key := row]
    {
      orderLines := orderLines[key := row];
    }
  }
}
