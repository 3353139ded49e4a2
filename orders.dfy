/** The orders table: append-only, keyed by a unique human-readable order
    code, each row holding a serialized copy of the purchased items. */
module Orders {
  import opened Text

  /** A cart item as a client sends it in a checkout body: every field may be
      missing. */
  datatype ClientItem = ClientItem(
    product_id: Option<int>,
    productId: Option<int>,
    quantity: Option<int>,
    qty: Option<int>,
    price: Option<real>)

  /** One entry of the item snapshot the checkout router builds from the
      catalog. */
  datatype ValidatedItem = ValidatedItem(productId: int, name: string, price: real, qty: int, lineTotal: real)

  /** The `items` column: the router stores its catalog snapshot, the legacy
      handler stores the client's items verbatim. */
  datatype OrderItems = Validated(validated: seq<ValidatedItem>) | ClientCopy(raw: seq<ClientItem>)

  /** One row of the orders table. `rowId` is the storage key, `orderId` the
      unique order code, `timestamp` the insertion time. */
  datatype Order = Order(
    rowId: int,
    orderId: string,
    customerName: string,
    customerEmail: string,
    customerPhone: string,
    shippingAddress: string,
    total: real,
    items: OrderItems,
    timestamp: int)

  /** `order_id TEXT UNIQUE`. */
  ghost predicate UniqueOrderIds(orders: seq<Order>) {
    forall i, j :: 0 <= i < j < |orders| ==> orders[i].orderId != orders[j].orderId
  }

  predicate HasOrderId(orders: seq<Order>, orderId: string) {
    exists o :: o in orders && o.orderId == orderId
  }

  /** The table after an INSERT: the new row at the end, or no change when
      the UNIQUE constraint on the order code rejects it. */
  function Inserted(orders: seq<Order>, o: Order): (r: Option<seq<Order>>)
    ensures r.None? <==> exists p :: p in orders && p.orderId == o.orderId
    ensures r.Some? ==> |r.value| == |orders| + 1 && r.value[..|orders|] == orders && r.value[|orders|] == o
  {
    if HasOrderId(orders, o.orderId) then None else Some(orders + [o])
  }

  /** An insert that succeeds keeps the order codes unique and adds exactly
      the new row; one that fails leaves nothing behind. */
  lemma {:induction false} InsertKeepsCodesUnique(orders: seq<Order>, o: Order)
    requires UniqueOrderIds(orders)
    ensures Inserted(orders, o).Some? ==> UniqueOrderIds(Inserted(orders, o).value)
    ensures Inserted(orders, o).None? <==> exists p :: p in orders && p.orderId == o.orderId
  {
    if !HasOrderId(orders, o.orderId) {
      var r := orders + [o];
      forall i, j | 0 <= i < j < |r| ensures r[i].orderId != r[j].orderId {
        if j == |orders| {
          assert r[i] in orders;
        }
      }
    }
  }

  class OrderLedger {
    var orders: seq<Order>
    var nextRowId: int

    ghost predicate Valid()
      reads this
    {
      UniqueOrderIds(orders) && forall o :: o in orders ==> o.rowId < nextRowId
    }

    constructor ()
      ensures Valid() && orders == []
    {
      orders := [];
      nextRowId := 1;
    }

    /** `INSERT INTO orders (...) VALUES (...)`; the storage key and the
        timestamp are assigned by the table. */
    method Insert(orderId: string, name: string, email: string, phone: string,
                  address: string, total: real, items: OrderItems, now: int) returns (ok: bool)
      requires Valid()
      modifies this
      ensures Valid()
      ensures var o := Order(old(nextRowId), orderId, name, email, phone, address, total, items, now);
        && ok == Inserted(old(orders), o).Some?
        && orders == Inserted(old(orders), o).GetOr(old(orders))
      ensures nextRowId == if ok then old(nextRowId) + 1 else old(nextRowId)
    {
      var o := Order(nextRowId, orderId, name, email, phone, address, total, items, now);
      InsertKeepsCodesUnique(orders, o);
      if HasOrderId(orders, orderId) {
        return false;
      }
      orders := orders + [o];
      nextRowId := nextRowId + 1;
      ok := true;
    }
  }
}
