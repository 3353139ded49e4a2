/** The checkout router: validates the body, re-prices every item from the
    catalog, applies tax and shipping, appends one order and answers with a
    receipt; any failure writes no order. */
module CheckoutRoute {
  import opened Text
  import opened Catalog
  import opened Orders
  import opened Pricing

  /** `cartItems` as it arrives in the body. */
  datatype ItemsField = Missing | NotAnArray | Items(items: seq<ClientItem>)

  /** `customerInfo`; the address parts are interpolated into one string. */
  datatype Customer = Customer(
    name: Option<string>,
    email: Option<string>,
    phone: Option<string>,
    address: Option<string>,
    city: Option<string>,
    state: Option<string>,
    pincode: Option<string>)

  datatype CheckoutRequest = CheckoutRequest(cartItems: ItemsField, customerInfo: Option<Customer>)

  datatype Receipt = Receipt(
    orderId: string,
    name: string,
    email: string,
    total: real,
    subtotal: real,
    tax: real,
    shipping: real,
    currency: string,
    items: seq<ValidatedItem>,
    timestamp: string,
    message: string)

  datatype CheckoutResponse = Placed(receipt: Receipt) | Failed(status: int, error: string)

  const OrderPrefix: string := "ORD-"
  const Currency: string := "INR"
  const PlacedMessage: string := "\U{2705} Order placed successfully!"

  // ---------------------------------------------------------------------
  // One item

  /** `item.product_id || item.productId`. */
  function ItemProductId(item: ClientItem): Option<int> {
    if TruthyInt(item.product_id) then item.product_id else item.productId
  }

  /** `Number(item.quantity || item.qty || 1)`: never 0, and 1 only when
      neither field is a non-zero number. */
  function ItemQuantity(item: ClientItem): (q: int)
    ensures q != 0
    ensures TruthyInt(item.quantity) ==> q == item.quantity.value
    ensures !TruthyInt(item.quantity) && TruthyInt(item.qty) ==> q == item.qty.value
    ensures !TruthyInt(item.quantity) && !TruthyInt(item.qty) ==> q == 1
  {
    if TruthyInt(item.quantity) then item.quantity.value
    else if TruthyInt(item.qty) then item.qty.value
    else 1
  }

  /** The catalog row an item names, if any. */
  function ItemProduct(catalog: seq<Product>, item: ClientItem): Option<Product> {
    match ItemProductId(item)
    case None => None
    case Some(id) => Find(catalog, id)
  }

  /** The snapshot entry for one item: catalog id, name and price, the
      coerced quantity, and catalog price times quantity. */
  function ResolveItem(catalog: seq<Product>, item: ClientItem): (r: Option<ValidatedItem>)
    ensures r.Some? <==> ItemProduct(catalog, item).Some?
    ensures r.Some? ==> r.value.lineTotal == r.value.price * r.value.qty as real && r.value.qty != 0
  {
    match ItemProduct(catalog, item)
    case None => None
    case Some(p) =>
      var q := ItemQuantity(item);
      Some(ValidatedItem(p.id, p.name, p.price, q, p.price * q as real))
  }

  lemma {:induction false} ResolveItemOf(catalog: seq<Product>, item: ClientItem, p: Product)
    requires ItemProduct(catalog, item) == Some(p)
    ensures ResolveItem(catalog, item).Some?
    ensures ResolveItem(catalog, item).value
         == ValidatedItem(p.id, p.name, p.price, ItemQuantity(item), p.price * ItemQuantity(item) as real)
  {
  }

  /** An item resolves by its product and its quantity alone. */
  lemma {:induction false} ResolveItemCongruence(catalog: seq<Product>, a: ClientItem, b: ClientItem)
    requires ItemProduct(catalog, a) == ItemProduct(catalog, b)
    requires ItemQuantity(a) == ItemQuantity(b)
    ensures ResolveItem(catalog, a) == ResolveItem(catalog, b)
  {
    match ItemProduct(catalog, a)
    case None =>
    case Some(p) =>
      ResolveItemOf(catalog, a, p);
      ResolveItemOf(catalog, b, p);
      var x, y := ResolveItem(catalog, a), ResolveItem(catalog, b);
      assert x.value == y.value;
      assert x == Some(x.value);
  }

  // ---------------------------------------------------------------------
  // The re-pricing loop

  /** All items resolved in order, or nothing when any one does not. */
  function Reprice(catalog: seq<Product>, items: seq<ClientItem>): (r: Option<seq<ValidatedItem>>)
    ensures r.Some? ==> |r.value| == |items|
  {
    if items == [] then Some([])
    else match Reprice(catalog, items[..|items| - 1])
      case None => None
      case Some(v) =>
        match ResolveItem(catalog, items[|items| - 1])
        case None => None
        case Some(x) => Some(v + [x])
  }

  lemma {:induction false} RepriceStep(catalog: seq<Product>, items: seq<ClientItem>)
    requires items != []
    ensures var init := Reprice(catalog, items[..|items| - 1]);
            var last := ResolveItem(catalog, items[|items| - 1]);
            Reprice(catalog, items) == if init.Some? && last.Some? then Some(init.value + [last.value]) else None
  {
    var r := Reprice(catalog, items);
    if r.Some? {
      assert r == Some(r.value);
    }
  }

  lemma {:induction false} RepriceExtend(catalog: seq<Product>, items: seq<ClientItem>, i: int, acc: seq<ValidatedItem>, entry: ValidatedItem)
    requires 0 <= i < |items|
    requires Reprice(catalog, items[..i]) == Some(acc)
    requires ResolveItem(catalog, items[i]).Some? && ResolveItem(catalog, items[i]).value == entry
    ensures Reprice(catalog, items[..i + 1]) == Some(acc + [entry])
  {
    assert items[..i + 1][..i] == items[..i];
    RepriceStep(catalog, items[..i + 1]);
    var init := Reprice(catalog, items[..i + 1][..i]);
    assert init.value == acc;
    var last := ResolveItem(catalog, items[..i + 1][i]);
    assert last.value == entry;
  }

  /** Sum of the line totals, accumulated front to back. */
  function Subtotal(v: seq<ValidatedItem>): real {
    if v == [] then 0.0 else Subtotal(v[..|v| - 1]) + v[|v| - 1].lineTotal
  }

  lemma {:induction false} SubtotalAppend(v: seq<ValidatedItem>, x: ValidatedItem)
    ensures Subtotal(v + [x]) == Subtotal(v) + x.lineTotal
  {
    assert (v + [x])[..|v|] == v;
  }

  /** Re-pricing succeeds exactly when every item resolves, and then gives
      one entry per item, in input order. */
  lemma {:induction false} RepriceAllOrNothing(catalog: seq<Product>, items: seq<ClientItem>)
    ensures Reprice(catalog, items).Some? <==>
      forall i :: 0 <= i < |items| ==> ResolveItem(catalog, items[i]).Some?
    ensures Reprice(catalog, items).Some? ==>
      && |Reprice(catalog, items).value| == |items|
      && forall i :: 0 <= i < |items| ==> Reprice(catalog, items).value[i] == ResolveItem(catalog, items[i]).value
  {
    if items != [] {
      var init := items[..|items| - 1];
      RepriceAllOrNothing(catalog, init);
      assert forall i :: 0 <= i < |init| ==> init[i] == items[i];
    }
  }

  /** Each snapshot entry is priced from the catalog, never from the client:
      catalog price, coerced quantity, and their product as the line total. */
  lemma {:induction false} RepriceUsesCatalogPrices(catalog: seq<Product>, items: seq<ClientItem>, i: int)
    requires Reprice(catalog, items).Some?
    requires 0 <= i < |items|
    ensures ItemProduct(catalog, items[i]).Some?
    ensures |Reprice(catalog, items).value| == |items|
    ensures var e := Reprice(catalog, items).value[i];
            var p := ItemProduct(catalog, items[i]).value;
            && p in catalog
            && e.productId == p.id && e.name == p.name && e.price == p.price
            && e.qty == ItemQuantity(items[i])
            && e.lineTotal == p.price * e.qty as real
  {
    RepriceAllOrNothing(catalog, items);
  }

  /** The price a client sends has no effect on re-pricing. */
  lemma {:induction false} RepriceIgnoresClientPrice(catalog: seq<Product>, items: seq<ClientItem>, items': seq<ClientItem>)
    requires |items| == |items'|
    requires forall i :: 0 <= i < |items| ==> items[i] == items'[i].(price := items[i].price)
    ensures Reprice(catalog, items) == Reprice(catalog, items')
  {
    if items != [] {
      var n := |items| - 1;
      RepriceIgnoresClientPrice(catalog, items[..n], items'[..n]);
      assert items[n] == items'[n].(price := items[n].price);
      assert ItemProductId(items[n]) == ItemProductId(items'[n]);
      ResolveItemCongruence(catalog, items[n], items'[n]);
      assert items[..|items| - 1] == items[..n] && items'[..|items'| - 1] == items'[..n];
      RepriceStep(catalog, items);
      RepriceStep(catalog, items');
    }
  }

  /** An item naming no catalog product makes the whole re-pricing fail. */
  lemma {:induction false} RepriceStopsAt(catalog: seq<Product>, items: seq<ClientItem>, i: int)
    requires 0 <= i < |items|
    requires ItemProduct(catalog, items[i]).None?
    ensures Reprice(catalog, items).None?
  {
    assert items[..i + 1][..i] == items[..i];
    RepriceStep(catalog, items[..i + 1]);
    assert items[..i + 1][i] == items[i];
    RepriceFailurePersists(catalog, items, i + 1);
  }

  lemma {:induction false} RepriceFailurePersists(catalog: seq<Product>, items: seq<ClientItem>, k: int)
    requires 0 <= k <= |items|
    requires Reprice(catalog, items[..k]).None?
    ensures Reprice(catalog, items).None?
    decreases |items| - k
  {
    if k < |items| {
      assert items[..k + 1][..k] == items[..k];
      RepriceFailurePersists(catalog, items, k + 1);
    } else {
      assert items[..k] == items;
    }
  }

  /** The `for (const item of cartItems)` loop: look each product up, coerce
      the quantity, accumulate the subtotal and push the snapshot entry; an
      unknown product throws before anything is written. */
  method PriceItems(catalog: seq<Product>, items: seq<ClientItem>) returns (validated: Option<seq<ValidatedItem>>, subtotal: real)
    ensures validated == Reprice(catalog, items)
    ensures validated.Some? ==> subtotal == Subtotal(validated.value)
  {
    var acc: seq<ValidatedItem> := [];
    subtotal := 0.0;
    var i := 0;
    while i < |items|
      invariant 0 <= i <= |items|
      invariant Reprice(catalog, items[..i]) == Some(acc)
      invariant subtotal == Subtotal(acc)
    {
      var item := items[i];
      var id := ItemProductId(item);
      var product := if id.Some? then Find(catalog, id.value) else None;
      assert product == ItemProduct(catalog, item);
      if product.None? {
        RepriceStopsAt(catalog, items, i);
        return None, subtotal;
      }
      var p := product.value;
      var qty := ItemQuantity(item);
      var lineTotal := p.price * qty as real;
      var entry := ValidatedItem(p.id, p.name, p.price, qty, lineTotal);
      ResolveItemOf(catalog, item, p);
      RepriceExtend(catalog, items, i, acc, entry);
      SubtotalAppend(acc, entry);
      subtotal := subtotal + lineTotal;
      acc := acc + [entry];
      i := i + 1;
    }
    assert items[..i] == items;
    validated := Some(acc);
  }

  // ---------------------------------------------------------------------
  // Order code and address

  /** `` `ORD-${uuidv4().substring(0, 8).toUpperCase()}` `` for a given uuid. */
  function OrderId(uuid: string): (code: string)
    ensures |code| == 4 + (if |uuid| <= 8 then |uuid| else 8)
    ensures code[..4] == OrderPrefix
  {
    OrderPrefix + Upper(if |uuid| <= 8 then uuid else uuid[..8])
  }

  /** A uuid of at least 8 characters gives a 12-character code: "ORD-" and
      the uuid's first 8 characters with no lower-case letter left. */
  lemma {:induction false} OrderIdShape(uuid: string)
    requires |uuid| >= 8
    ensures |OrderId(uuid)| == 12
    ensures OrderId(uuid)[..4] == "ORD-"
    ensures forall i :: 4 <= i < 12 ==> !('a' <= OrderId(uuid)[i] <= 'z')
    ensures forall i :: 4 <= i < 12 ==> OrderId(uuid)[i] == UpperChar(uuid[i - 4])
  {
  }

  /** `` `${value}` `` of an optional field: a missing one reads "undefined". */
  function Interpolate(field: Option<string>): string {
    match field
    case Some(s) => s
    case None => "undefined"
  }

  /** `` `${address}, ${city}, ${state} - ${pincode}` ``. */
  function ShippingAddress(c: Customer): (a: string)
    ensures |a| == |Interpolate(c.address)| + |Interpolate(c.city)| + |Interpolate(c.state)| + |Interpolate(c.pincode)| + 7
    ensures a[..|Interpolate(c.address)|] == Interpolate(c.address)
    ensures a[|a| - |Interpolate(c.pincode)|..] == Interpolate(c.pincode)
  {
    Interpolate(c.address) + ", " + Interpolate(c.city) + ", " + Interpolate(c.state) + " - " + Interpolate(c.pincode)
  }

  /** The address is the four parts joined by ", ", ", " and " - ", with
      "undefined" standing in for a missing part. */
  lemma {:induction false} ShippingAddressLayout(c: Customer, a: string, ci: string, st: string, pin: string)
    requires c.address == Some(a) && c.city == Some(ci) && c.state == Some(st) && c.pincode == Some(pin)
    ensures ShippingAddress(c) == a + ", " + ci + ", " + st + " - " + pin
    ensures ShippingAddress(c.(address := None))[..9] == "undefined"
  {
  }

  /** `customerInfo.phone || ""`. */
  function Phone(c: Customer): string {
    if TruthyString(c.phone) then c.phone.value else ""
  }

  // ---------------------------------------------------------------------
  // The whole request

  /** The body passes the router's two validation checks. */
  predicate ValidBody(req: CheckoutRequest) {
    && req.cartItems.Items? && req.cartItems.items != []
    && req.customerInfo.Some?
    && TruthyString(req.customerInfo.value.name)
    && TruthyString(req.customerInfo.value.email)
  }

  /** The response and the orders table after one POST `/`, given the table
      before, its next storage key, the uuid drawn, the insertion time and
      the receipt's clock reading. */
  function CheckoutOutcome(catalog: seq<Product>, orders: seq<Order>, rowId: int, req: CheckoutRequest,
                           uuid: string, now: int, stamp: string): (r: (CheckoutResponse, seq<Order>))
    ensures r.0.Failed? ==> r.1 == orders
    ensures r.0.Placed? ==> |r.1| == |orders| + 1 && r.1[..|orders|] == orders
  {
    if !req.cartItems.Items? || req.cartItems.items == [] then
      (Failed(400, "Cart is empty or invalid payload"), orders)
    else if req.customerInfo.None? || !TruthyString(req.customerInfo.value.name) || !TruthyString(req.customerInfo.value.email) then
      (Failed(400, "Missing customer details"), orders)
    else
      var c := req.customerInfo.value;
      match Reprice(catalog, req.cartItems.items)
      case None => (Failed(500, "Checkout failed"), orders)
      case Some(v) =>
        var q := PriceQuote(Subtotal(v));
        var o := Order(rowId, OrderId(uuid), c.name.value, c.email.value, Phone(c), ShippingAddress(c), q.total, Validated(v), now);
        match Inserted(orders, o)
        case None => (Failed(500, "Checkout failed"), orders)
        case Some(orders') =>
          (Placed(Receipt(o.orderId, c.name.value, c.email.value, q.total, q.subtotal, q.tax, q.shipping,
                          Currency, v, stamp, PlacedMessage)), orders')
  }

  /** All or nothing: a failed checkout leaves the table as it was; a placed
      one appends exactly one order whose code, total and items are the
      receipt's. */
  lemma {:induction false} CheckoutAllOrNothing(catalog: seq<Product>, orders: seq<Order>, rowId: int, req: CheckoutRequest,
                             uuid: string, now: int, stamp: string)
    ensures var (resp, orders') := CheckoutOutcome(catalog, orders, rowId, req, uuid, now, stamp);
      && (resp.Failed? ==> orders' == orders)
      && (resp.Placed? ==>
            && |orders'| == |orders| + 1
            && orders'[..|orders|] == orders
            && orders'[|orders|].orderId == resp.receipt.orderId
            && orders'[|orders|].total == resp.receipt.total
            && orders'[|orders|].items == Validated(resp.receipt.items)
            && !HasOrderId(orders, resp.receipt.orderId))
  {
  }

  /** A missing, non-array or empty item list, or a customer without name or
      email, is rejected with 400 and writes nothing. */
  lemma {:induction false} CheckoutRejectsInvalidBody(catalog: seq<Product>, orders: seq<Order>, rowId: int, req: CheckoutRequest,
                                   uuid: string, now: int, stamp: string)
    requires !ValidBody(req)
    ensures CheckoutOutcome(catalog, orders, rowId, req, uuid, now, stamp).0.Failed?
    ensures CheckoutOutcome(catalog, orders, rowId, req, uuid, now, stamp).0.status == 400
    ensures CheckoutOutcome(catalog, orders, rowId, req, uuid, now, stamp).1 == orders
  {
  }

  /** A valid body whose every item names a catalog product, under a fresh
      order code, places an order. */
  lemma {:induction false} CheckoutPlacedWhen(catalog: seq<Product>, orders: seq<Order>, rowId: int, req: CheckoutRequest,
                           uuid: string, now: int, stamp: string)
    requires ValidBody(req)
    requires forall i :: 0 <= i < |req.cartItems.items| ==> ItemProduct(catalog, req.cartItems.items[i]).Some?
    requires !HasOrderId(orders, OrderId(uuid))
    ensures CheckoutOutcome(catalog, orders, rowId, req, uuid, now, stamp).0.Placed?
  {
    RepriceAllOrNothing(catalog, req.cartItems.items);
  }

  /** One item naming a product the catalog lacks aborts the whole checkout
      with a server error and writes nothing. */
  lemma {:induction false} CheckoutUnknownProductAborts(catalog: seq<Product>, orders: seq<Order>, rowId: int, req: CheckoutRequest,
                                     uuid: string, now: int, stamp: string, i: int)
    requires ValidBody(req)
    requires 0 <= i < |req.cartItems.items|
    requires ItemProduct(catalog, req.cartItems.items[i]).None?
    ensures CheckoutOutcome(catalog, orders, rowId, req, uuid, now, stamp) == (Failed(500, "Checkout failed"), orders)
  {
    RepriceAllOrNothing(catalog, req.cartItems.items);
  }

  /** A placed order's receipt carries one snapshot entry per item, the
      subtotal of their catalog line totals, and the tax, shipping and grand
      total of that subtotal. */
  lemma {:induction false} CheckoutReceiptPricing(catalog: seq<Product>, orders: seq<Order>, rowId: int, req: CheckoutRequest,
                               uuid: string, now: int, stamp: string)
    requires CheckoutOutcome(catalog, orders, rowId, req, uuid, now, stamp).0.Placed?
    ensures var r := CheckoutOutcome(catalog, orders, rowId, req, uuid, now, stamp).0.receipt;
      && ValidBody(req)
      && |r.items| == |req.cartItems.items|
      && (forall i :: 0 <= i < |r.items| ==> ResolveItem(catalog, req.cartItems.items[i]) == Some(r.items[i]))
      && r.subtotal == Subtotal(r.items)
      && 100.0 * r.tax == 18.0 * r.subtotal
      && (r.shipping == if r.subtotal > 999.0 then 0.0 else 50.0)
      && r.total == r.subtotal + r.tax + r.shipping
      && r.currency == "INR"
  {
    RepriceAllOrNothing(catalog, req.cartItems.items);
  }

  /** A valid one-item checkout of a catalog product under a fresh code is
      placed, with subtotal price times quantity priced by the quote. */
  lemma {:induction false} SingleItemCheckout(catalog: seq<Product>, orders: seq<Order>, rowId: int, req: CheckoutRequest,
                                              uuid: string, now: int, stamp: string, p: Product)
    requires ValidBody(req) && |req.cartItems.items| == 1
    requires ItemProduct(catalog, req.cartItems.items[0]) == Some(p)
    requires !HasOrderId(orders, OrderId(uuid))
    ensures var r := CheckoutOutcome(catalog, orders, rowId, req, uuid, now, stamp).0;
            && r.Placed?
            && r.receipt.subtotal == p.price * ItemQuantity(req.cartItems.items[0]) as real
            && PriceQuote(r.receipt.subtotal) == Quote(r.receipt.subtotal, r.receipt.tax, r.receipt.shipping, r.receipt.total)
  {
    var items := req.cartItems.items;
    ResolveItemOf(catalog, items[0], p);
    SingleItemReprice(catalog, items);
    var x := ResolveItem(catalog, items[0]).value;
    assert x.lineTotal == p.price * ItemQuantity(items[0]) as real;
    assert Subtotal([x]) == x.lineTotal;
    CheckoutPlacedReceipt(catalog, orders, rowId, req, uuid, now, stamp, [x]);
  }

  /** Once re-pricing gives `v` and the code is fresh, the checkout is
      placed with `v` as its items and the quote of their subtotal. */
  lemma {:induction false} CheckoutPlacedReceipt(catalog: seq<Product>, orders: seq<Order>, rowId: int, req: CheckoutRequest,
                                                 uuid: string, now: int, stamp: string, v: seq<ValidatedItem>)
    requires ValidBody(req)
    requires Reprice(catalog, req.cartItems.items) == Some(v)
    requires !HasOrderId(orders, OrderId(uuid))
    ensures var r := CheckoutOutcome(catalog, orders, rowId, req, uuid, now, stamp).0;
            && r.Placed?
            && r.receipt.items == v
            && r.receipt.subtotal == Subtotal(v)
            && PriceQuote(Subtotal(v)) == Quote(r.receipt.subtotal, r.receipt.tax, r.receipt.shipping, r.receipt.total)
  {
    var c := req.customerInfo.value;
    var q := PriceQuote(Subtotal(v));
    var o := Order(rowId, OrderId(uuid), c.name.value, c.email.value, Phone(c), ShippingAddress(c), q.total, Validated(v), now);
    assert Inserted(orders, o) == Some(orders + [o]);
  }

  lemma {:induction false} SingleItemReprice(catalog: seq<Product>, items: seq<ClientItem>)
    requires |items| == 1 && ResolveItem(catalog, items[0]).Some?
    ensures Reprice(catalog, items) == Some([ResolveItem(catalog, items[0]).value])
    ensures Subtotal([ResolveItem(catalog, items[0]).value]) == ResolveItem(catalog, items[0]).value.lineTotal
  {
    var x := ResolveItem(catalog, items[0]).value;
    assert items[..0] == [];
    assert Reprice(catalog, items[..0]) == Some([]);
    RepriceStep(catalog, items);
    assert [] + [x] == [x];
    assert [x][..0] == [];
  }

  /** Worked example: two of a product priced 500 cost 1000, 180 tax, free
      shipping, 1180 in all. */
  lemma {:induction false} CheckoutFreeShippingExample(orders: seq<Order>, rowId: int, uuid: string, now: int, stamp: string, c: Customer)
    requires TruthyString(c.name) && TruthyString(c.email)
    requires !HasOrderId(orders, OrderId(uuid))
    ensures var catalog := [Product(3, "Tee", 500.0, "men", "tee.png", None, 100)];
            var req := CheckoutRequest(Items([ClientItem(Some(3), None, Some(2), None, None)]), Some(c));
            var resp := CheckoutOutcome(catalog, orders, rowId, req, uuid, now, stamp).0;
            resp.Placed? && resp.receipt.subtotal == 1000.0 && resp.receipt.tax == 180.0
            && resp.receipt.shipping == 0.0 && resp.receipt.total == 1180.0
  {
    var catalog := [Product(3, "Tee", 500.0, "men", "tee.png", None, 100)];
    var req := CheckoutRequest(Items([ClientItem(Some(3), None, Some(2), None, None)]), Some(c));
    assert Find(catalog, 3) == Some(catalog[0]);
    SingleItemCheckout(catalog, orders, rowId, req, uuid, now, stamp, catalog[0]);
  }

  /** Worked example: one product priced 400 costs 400, 72 tax, 50 shipping,
      522 in all. */
  lemma {:induction false} CheckoutFlatShippingExample(orders: seq<Order>, rowId: int, uuid: string, now: int, stamp: string, c: Customer)
    requires TruthyString(c.name) && TruthyString(c.email)
    requires !HasOrderId(orders, OrderId(uuid))
    ensures var catalog := [Product(5, "Cap", 400.0, "accessories", "cap.png", None, 100)];
            var req := CheckoutRequest(Items([ClientItem(None, Some(5), Some(1), None, None)]), Some(c));
            var resp := CheckoutOutcome(catalog, orders, rowId, req, uuid, now, stamp).0;
            resp.Placed? && resp.receipt.subtotal == 400.0 && resp.receipt.tax == 72.0
            && resp.receipt.shipping == 50.0 && resp.receipt.total == 522.0
  {
    var catalog := [Product(5, "Cap", 400.0, "accessories", "cap.png", None, 100)];
    var req := CheckoutRequest(Items([ClientItem(None, Some(5), Some(1), None, None)]), Some(c));
    assert Find(catalog, 5) == Some(catalog[0]);
    SingleItemCheckout(catalog, orders, rowId, req, uuid, now, stamp, catalog[0]);
  }

  /** POST `/`: the handler against the live orders table. */
  method Checkout(ledger: OrderLedger, catalog: seq<Product>, req: CheckoutRequest,
                  uuid: string, now: int, stamp: string) returns (resp: CheckoutResponse)
    requires ledger.Valid()
    modifies ledger
    ensures ledger.Valid()
    ensures (resp, ledger.orders) == CheckoutOutcome(catalog, old(ledger.orders), old(ledger.nextRowId), req, uuid, now, stamp)
  {
    if !req.cartItems.Items? || req.cartItems.items == [] {
      return Failed(400, "Cart is empty or invalid payload");
    }
    if req.customerInfo.None? || !TruthyString(req.customerInfo.value.name) || !TruthyString(req.customerInfo.value.email) {
      return Failed(400, "Missing customer details");
    }
    var c := req.customerInfo.value;
    var validated, subtotal := PriceItems(catalog, req.cartItems.items);
    if validated.None? {
      return Failed(500, "Checkout failed");
    }
    var q := PriceQuote(subtotal);
    var orderId := OrderId(uuid);
    var ok := ledger.Insert(orderId, c.name.value, c.email.value, Phone(c), ShippingAddress(c), q.total, Validated(validated.value), now);
    if !ok {
      return Failed(500, "Checkout failed");
    }
    resp := Placed(Receipt(orderId, c.name.value, c.email.value, q.total, q.subtotal, q.tax, q.shipping,
                           Currency, validated.value, stamp, PlacedMessage));
  }
}
