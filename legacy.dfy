/** The handlers written in-line in the server file: an older cart that
    overwrites quantities, an older checkout that trusts the client's
    prices, and the two order-ledger reads (list newest first, look up by
    code). They share the cart and orders tables with the routers. */
module LegacyServer {
  import opened Text
  import opened Catalog
  import opened Orders
  import opened Pricing
  import opened CartRoutes
  import opened CheckoutRoute

  /** The `{ message }` or `{ error }` bodies of the in-line cart handlers. */
  datatype LegacyReply = Message(message: string) | Error(status: int, error: string)

  // ---------------------------------------------------------------------
  // The overwriting cart

  /** `UPDATE cart SET quantity = ? WHERE product_id = ?`. */
  function Overwrite(lines: seq<CartLine>, pid: int, qty: int): (r: seq<CartLine>)
    ensures |r| == |lines|
    ensures forall i :: 0 <= i < |lines| ==>
      r[i] == if lines[i].productId == pid then lines[i].(quantity := qty) else lines[i]
  {
    seq(|lines|, i requires 0 <= i < |lines| =>
      if lines[i].productId == pid then lines[i].(quantity := qty) else lines[i])
  }

  /** The table after a successful in-line add: overwrite the existing
      line's quantity, or insert a new line. */
  function LegacyAddLine(lines: seq<CartLine>, nextId: int, pid: int, qty: int): (r: seq<CartLine>)
    ensures |r| == if HasProduct(lines, pid) then |lines| else |lines| + 1
    ensures forall i :: 0 <= i < |lines| ==> r[i].id == lines[i].id && r[i].productId == lines[i].productId
    ensures forall i :: 0 <= i < |r| && r[i].productId == pid ==> r[i].quantity == qty
  {
    if HasProduct(lines, pid) then Overwrite(lines, pid, qty)
    else lines + [CartLine(nextId, pid, qty)]
  }

  lemma {:induction false} OverwriteQuantity(lines: seq<CartLine>, pid: int, qty: int)
    requires HasProduct(lines, pid)
    ensures QuantityOf(Overwrite(lines, pid, qty), pid) == Some(qty)
  {
    if lines[0].productId != pid {
      assert Overwrite(lines, pid, qty)[1..] == Overwrite(lines[1..], pid, qty);
      var l :| l in lines && l.productId == pid;
      assert l in lines[1..];
      OverwriteQuantity(lines[1..], pid, qty);
    }
  }

  lemma {:induction false} WithoutOverwrite(lines: seq<CartLine>, pid: int, qty: int)
    ensures Without(Overwrite(lines, pid, qty), pid) == Without(lines, pid)
  {
    if lines != [] {
      assert Overwrite(lines, pid, qty)[1..] == Overwrite(lines[1..], pid, qty);
      WithoutOverwrite(lines[1..], pid, qty);
    }
  }

  /** The in-line add also keeps one line per product, sets the product's
      quantity to exactly the requested value, adds a line only for a new
      product, and leaves every other product's line as it was. */
  lemma {:induction false} LegacyAddSetsQuantity(lines: seq<CartLine>, nextId: int, pid: int, qty: int)
    requires OneLinePerProduct(lines)
    ensures OneLinePerProduct(LegacyAddLine(lines, nextId, pid, qty))
    ensures QuantityOf(LegacyAddLine(lines, nextId, pid, qty), pid) == Some(qty)
    ensures |LegacyAddLine(lines, nextId, pid, qty)| == if HasProduct(lines, pid) then |lines| else |lines| + 1
    ensures Without(LegacyAddLine(lines, nextId, pid, qty), pid) == Without(lines, pid)
  {
    if HasProduct(lines, pid) {
      assert LegacyAddLine(lines, nextId, pid, qty) == Overwrite(lines, pid, qty);
      OverwriteKeepsLines(lines, pid, qty, nextId);
      OverwriteQuantity(lines, pid, qty);
      WithoutOverwrite(lines, pid, qty);
    } else {
      var l := CartLine(nextId, pid, qty);
      assert LegacyAddLine(lines, nextId, pid, qty) == lines + [l] == AddLine(lines, nextId, pid, qty);
      AddKeepsOneLinePerProduct(lines, nextId, pid, qty);
      QuantityOfAppend(lines, l);
      WithoutAppend(lines, [l], pid);
    }
  }

  /** Overwriting a quantity changes no line's id or product. */
  lemma {:induction false} OverwriteKeepsLines(lines: seq<CartLine>, pid: int, qty: int, bound: int)
    ensures OneLinePerProduct(lines) ==> OneLinePerProduct(Overwrite(lines, pid, qty))
    ensures (forall l :: l in lines ==> l.id < bound) ==> forall l :: l in Overwrite(lines, pid, qty) ==> l.id < bound
  {
    var r := Overwrite(lines, pid, qty);
    assert forall i :: 0 <= i < |r| ==> r[i].id == lines[i].id && r[i].productId == lines[i].productId;
    if forall l :: l in lines ==> l.id < bound {
      forall l | l in r ensures l.id < bound {
        var i :| 0 <= i < |r| && r[i] == l;
        assert lines[i] in lines;
      }
    }
  }

  /** Repeating an in-line add changes nothing more: the second one finds
      the line the first one wrote and overwrites it with the same value. */
  lemma {:induction false} LegacyAddIdempotent(lines: seq<CartLine>, nextId: int, nextId': int, pid: int, qty: int)
    ensures LegacyAddLine(LegacyAddLine(lines, nextId, pid, qty), nextId', pid, qty)
         == LegacyAddLine(lines, nextId, pid, qty)
  {
    var once := LegacyAddLine(lines, nextId, pid, qty);
    assert HasProduct(once, pid) by {
      if !HasProduct(lines, pid) {
        assert once[|lines|] in once;
      } else {
        var l :| l in lines && l.productId == pid;
        var k :| 0 <= k < |lines| && lines[k] == l;
        assert once[k] in once;
      }
    }
  }

  /** The same request against the two cart implementations: for a product
      already holding `q`, the router leaves `q + qty` and the in-line
      handler leaves `qty`; they agree only when `q` is 0. */
  lemma {:induction false} AddDiverges(lines: seq<CartLine>, nextId: int, pid: int, q: int, qty: int)
    requires OneLinePerProduct(lines)
    requires QuantityOf(lines, pid) == Some(q)
    ensures QuantityOf(AddLine(lines, nextId, pid, qty), pid) == Some(q + qty)
    ensures QuantityOf(LegacyAddLine(lines, nextId, pid, qty), pid) == Some(qty)
    ensures AddLine(lines, nextId, pid, qty) == LegacyAddLine(lines, nextId, pid, qty) <==> q == 0
  {
    assert HasProduct(lines, pid);
    IncrementQuantity(lines, pid, qty);
    OverwriteQuantity(lines, pid, qty);
    var a, b := Increment(lines, pid, qty), Overwrite(lines, pid, qty);
    assert AddLine(lines, nextId, pid, qty) == a;
    assert LegacyAddLine(lines, nextId, pid, qty) == b;
    if q == 0 {
      IncrementFromZero(lines, pid, qty);
    }
  }

  lemma {:induction false} IncrementFromZero(lines: seq<CartLine>, pid: int, qty: int)
    requires OneLinePerProduct(lines)
    requires QuantityOf(lines, pid) == Some(0)
    ensures Increment(lines, pid, qty) == Overwrite(lines, pid, qty)
  {
    var a, b := Increment(lines, pid, qty), Overwrite(lines, pid, qty);
    forall i | 0 <= i < |lines| ensures a[i] == b[i] {
      if lines[i].productId == pid {
        QuantityOfLine(lines, pid, i);
      }
    }
  }

  /** With one line per product, the line of `pid` holds QuantityOf. */
  lemma {:induction false} QuantityOfLine(lines: seq<CartLine>, pid: int, i: int)
    requires OneLinePerProduct(lines)
    requires 0 <= i < |lines| && lines[i].productId == pid
    ensures QuantityOf(lines, pid) == Some(lines[i].quantity)
  {
    if i > 0 {
      assert lines[0].productId != pid;
      assert OneLinePerProduct(lines[1..]);
      assert lines[1..][i - 1] == lines[i];
      QuantityOfLine(lines[1..], pid, i - 1);
    }
  }

  /** POST `/api/cart` (in-line): both fields are required and the quantity
      is written as given. */
  method LegacyAddToCart(store: CartStore, productId: Option<int>, quantity: Option<int>) returns (reply: LegacyReply)
    requires store.Valid()
    modifies store
    ensures store.Valid()
    ensures !TruthyInt(productId) || !TruthyInt(quantity) ==>
      reply == Error(400, "Product ID and quantity are required") && unchanged(store)
    ensures TruthyInt(productId) && TruthyInt(quantity) && Find(store.catalog, productId.value).None? ==>
      reply == Error(404, "Product not found") && unchanged(store)
    ensures TruthyInt(productId) && TruthyInt(quantity) && Find(store.catalog, productId.value).Some? ==>
      && store.lines == LegacyAddLine(old(store.lines), old(store.nextLineId), productId.value, quantity.value)
      && store.nextLineId >= old(store.nextLineId)
      && reply == Message("Item added to cart successfully")
  {
    if !TruthyInt(productId) || !TruthyInt(quantity) {
      return Error(400, "Product ID and quantity are required");
    }
    var pid, qty := productId.value, quantity.value;
    if Find(store.catalog, pid).None? {
      return Error(404, "Product not found");
    }
    LegacyAddSetsQuantity(store.lines, store.nextLineId, pid, qty);
    if HasProduct(store.lines, pid) {
      OverwriteKeepsLines(store.lines, pid, qty, store.nextLineId);
      store.lines := Overwrite(store.lines, pid, qty);
    } else {
      store.lines := store.lines + [CartLine(store.nextLineId, pid, qty)];
      store.nextLineId := store.nextLineId + 1;
    }
    reply := Message("Item added to cart successfully");
  }

  /** DELETE `/api/cart/:productId` (in-line): `changes === 0` is a 404. */
  method LegacyRemoveFromCart(store: CartStore, pid: int) returns (reply: LegacyReply)
    requires store.Valid()
    modifies store
    ensures store.Valid()
    ensures !HasProduct(old(store.lines), pid) ==>
      reply == Error(404, "Item not found in cart") && unchanged(store)
    ensures HasProduct(old(store.lines), pid) ==>
      && store.lines == Without(old(store.lines), pid)
      && store.nextLineId == old(store.nextLineId)
      && reply == Message("Item removed from cart successfully")
  {
    if !HasProduct(store.lines, pid) {
      return Error(404, "Item not found in cart");
    }
    RemoveDeletesLines(store.lines, pid);
    store.lines := Without(store.lines, pid);
    reply := Message("Item removed from cart successfully");
  }

  /** The two removes leave the same table; only the status of removing an
      absent product differs. */
  lemma {:induction false} RemoveSameTable(lines: seq<CartLine>, pid: int)
    ensures (if HasProduct(lines, pid) then Without(lines, pid) else lines) == Without(lines, pid)
  {
    if !HasProduct(lines, pid) {
      RemoveAbsentIsNoOp(lines, pid);
    }
  }

  // ---------------------------------------------------------------------
  // The client-priced checkout

  datatype LegacyReceipt = LegacyReceipt(
    orderId: string,
    total: real,
    subtotal: real,
    tax: real,
    shipping: real,
    items: seq<ClientItem>,
    customer: Customer,
    timestamp: string)

  datatype LegacyCheckoutResponse = LegacyPlaced(receipt: LegacyReceipt) | LegacyFailed(status: int, error: string)

  /** `item.price * item.quantity`; a missing factor makes it NaN, modelled
      as None. */
  function ClientLineValue(item: ClientItem): Option<real> {
    if item.price.Some? && item.quantity.Some? then Some(item.price.value * item.quantity.value as real) else None
  }

  /** `cartItems.reduce((sum, item) => sum + item.price * item.quantity, 0)`;
      NaN absorbs every later addition. */
  function ClientSubtotal(items: seq<ClientItem>): (r: Option<real>)
    ensures r.None? ==> exists i :: 0 <= i < |items| && ClientLineValue(items[i]).None?
  {
    if items == [] then Some(0.0)
    else
      var init := ClientSubtotal(items[..|items| - 1]);
      var last := ClientLineValue(items[|items| - 1]);
      assert init.None? ==> exists i :: 0 <= i < |items| && ClientLineValue(items[i]).None? by {
        if init.None? {
          var i :| 0 <= i < |items| - 1 && ClientLineValue(items[..|items| - 1][i]).None?;
          assert items[..|items| - 1][i] == items[i];
        }
      }
      if init.Some? && last.Some? then Some(init.value + last.value) else None
  }

  /** The client subtotal is a number exactly when every item carries both a
      price and a quantity. */
  lemma {:induction false} ClientSubtotalDefined(items: seq<ClientItem>)
    ensures ClientSubtotal(items).Some? <==>
      forall i :: 0 <= i < |items| ==> items[i].price.Some? && items[i].quantity.Some?
  {
    if items != [] {
      var init := items[..|items| - 1];
      ClientSubtotalDefined(init);
      assert forall i :: 0 <= i < |init| ==> init[i] == items[i];
    }
  }

  /** The response and the orders table after one in-line POST
      `/api/checkout`. A body whose items are present but not an array fails
      in the reduce; a NaN total is refused by the NOT NULL column. */
  function LegacyCheckoutOutcome(orders: seq<Order>, rowId: int, req: CheckoutRequest,
                                 uuid: string, now: int, stamp: string): (r: (LegacyCheckoutResponse, seq<Order>))
    ensures r.0.LegacyFailed? ==> r.1 == orders
    ensures r.0.LegacyPlaced? ==> |r.1| == |orders| + 1 && r.1[..|orders|] == orders
  {
    if req.cartItems.Missing? || (req.cartItems.Items? && req.cartItems.items == []) then
      (LegacyFailed(400, "Cart is empty"), orders)
    else if req.customerInfo.None? || !TruthyString(req.customerInfo.value.name) || !TruthyString(req.customerInfo.value.email) then
      (LegacyFailed(400, "Customer information is required"), orders)
    else if req.cartItems.NotAnArray? then
      (LegacyFailed(500, "Failed to process checkout"), orders)
    else
      var c := req.customerInfo.value;
      var items := req.cartItems.items;
      match ClientSubtotal(items)
      case None => (LegacyFailed(500, "Failed to process checkout"), orders)
      case Some(subtotal) =>
        var q := PriceQuote(subtotal);
        var o := Order(rowId, OrderId(uuid), c.name.value, c.email.value, Phone(c), ShippingAddress(c), q.total, ClientCopy(items), now);
        match Inserted(orders, o)
        case None => (LegacyFailed(500, "Failed to process checkout"), orders)
        case Some(orders') =>
          (LegacyPlaced(LegacyReceipt(o.orderId, q.total, subtotal, q.tax, q.shipping, items, c, stamp)), orders')
  }

  /** POST `/api/checkout` (in-line) against the orders table. */
  method LegacyCheckout(ledger: OrderLedger, req: CheckoutRequest, uuid: string, now: int, stamp: string)
    returns (resp: LegacyCheckoutResponse)
    requires ledger.Valid()
    modifies ledger
    ensures ledger.Valid()
    ensures (resp, ledger.orders) == LegacyCheckoutOutcome(old(ledger.orders), old(ledger.nextRowId), req, uuid, now, stamp)
  {
    if req.cartItems.Missing? || (req.cartItems.Items? && req.cartItems.items == []) {
      return LegacyFailed(400, "Cart is empty");
    }
    if req.customerInfo.None? || !TruthyString(req.customerInfo.value.name) || !TruthyString(req.customerInfo.value.email) {
      return LegacyFailed(400, "Customer information is required");
    }
    if req.cartItems.NotAnArray? {
      return LegacyFailed(500, "Failed to process checkout");
    }
    var c := req.customerInfo.value;
    var items := req.cartItems.items;
    var subtotal := ClientSubtotal(items);
    if subtotal.None? {
      return LegacyFailed(500, "Failed to process checkout");
    }
    var q := PriceQuote(subtotal.value);
    var orderId := OrderId(uuid);
    var ok := ledger.Insert(orderId, c.name.value, c.email.value, Phone(c), ShippingAddress(c), q.total, ClientCopy(items), now);
    if !ok {
      return LegacyFailed(500, "Failed to process checkout");
    }
    resp := LegacyPlaced(LegacyReceipt(orderId, q.total, subtotal.value, q.tax, q.shipping, items, c, stamp));
  }

  /** An empty or missing cart, or a customer without name or email, is a
      400 and writes nothing. */
  lemma {:induction false} LegacyCheckoutRejects(orders: seq<Order>, rowId: int, req: CheckoutRequest, uuid: string, now: int, stamp: string)
    requires || req.cartItems.Missing?
             || (req.cartItems.Items? && req.cartItems.items == [])
             || req.customerInfo.None?
             || !TruthyString(req.customerInfo.value.name)
             || !TruthyString(req.customerInfo.value.email)
    ensures LegacyCheckoutOutcome(orders, rowId, req, uuid, now, stamp).0.LegacyFailed?
    ensures LegacyCheckoutOutcome(orders, rowId, req, uuid, now, stamp).0.status == 400
    ensures LegacyCheckoutOutcome(orders, rowId, req, uuid, now, stamp).1 == orders
  {
  }

  /** A non-empty item array whose every item carries a price and a
      quantity, a customer with name and email, and a fresh order code place
      an in-line order. */
  lemma {:induction false} LegacyPlacedWhen(orders: seq<Order>, rowId: int, req: CheckoutRequest, uuid: string, now: int, stamp: string)
    requires req.cartItems.Items? && req.cartItems.items != []
    requires req.customerInfo.Some? && TruthyString(req.customerInfo.value.name) && TruthyString(req.customerInfo.value.email)
    requires forall i :: 0 <= i < |req.cartItems.items| ==>
      req.cartItems.items[i].price.Some? && req.cartItems.items[i].quantity.Some?
    requires !HasOrderId(orders, OrderId(uuid))
    ensures LegacyCheckoutOutcome(orders, rowId, req, uuid, now, stamp).0.LegacyPlaced?
  {
    ClientSubtotalDefined(req.cartItems.items);
  }

  /** A placed in-line order is priced from the client's own prices with the
      same tax and shipping rule as the router, and stores the client's
      items verbatim; a failed one writes nothing. */
  lemma {:induction false} LegacyTrustsClientPrice(orders: seq<Order>, rowId: int, req: CheckoutRequest, uuid: string, now: int, stamp: string)
    ensures var (resp, orders') := LegacyCheckoutOutcome(orders, rowId, req, uuid, now, stamp);
      && (resp.LegacyFailed? ==> orders' == orders)
      && (resp.LegacyPlaced? ==>
            var r := resp.receipt;
            && req.cartItems.Items?
            && ClientSubtotal(req.cartItems.items) == Some(r.subtotal)
            && PriceQuote(r.subtotal) == Quote(r.subtotal, r.tax, r.shipping, r.total)
            && r.items == req.cartItems.items
            && orders' == orders + [orders'[|orders|]]
            && orders'[|orders|].orderId == r.orderId
            && orders'[|orders|].total == r.total
            && orders'[|orders|].items == ClientCopy(r.items))
  {
  }

  /** The in-line half of the example below: the client's claimed price is
      what the order is charged. */
  lemma {:induction false} LegacyChargesClaimedPrice(orders: seq<Order>, rowId: int, uuid: string, now: int, stamp: string, c: Customer)
    requires TruthyString(c.name) && TruthyString(c.email)
    requires !HasOrderId(orders, OrderId(uuid))
    ensures var req := CheckoutRequest(Items([ClientItem(Some(3), None, Some(2), None, Some(1.0))]), Some(c));
            var legacy := LegacyCheckoutOutcome(orders, rowId, req, uuid, now, stamp).0;
            legacy.LegacyPlaced? && legacy.receipt.subtotal == 2.0 && legacy.receipt.total == 52.36
  {
    var items := [ClientItem(Some(3), None, Some(2), None, Some(1.0))];
    assert items[..0] == [];
    assert ClientSubtotal(items) == Some(2.0);
  }

  /** The router half of the example below: the catalog price is charged,
      whatever the client claims. */
  lemma {:induction false} RouterChargesCatalogPrice(orders: seq<Order>, rowId: int, uuid: string, now: int, stamp: string, c: Customer)
    requires TruthyString(c.name) && TruthyString(c.email)
    requires !HasOrderId(orders, OrderId(uuid))
    ensures var catalog := [Product(3, "Tee", 500.0, "men", "tee.png", None, 100)];
            var req := CheckoutRequest(Items([ClientItem(Some(3), None, Some(2), None, Some(1.0))]), Some(c));
            var router := CheckoutOutcome(catalog, orders, rowId, req, uuid, now, stamp).0;
            router.Placed? && router.receipt.subtotal == 1000.0 && router.receipt.total == 1180.0
  {
    var catalog := [Product(3, "Tee", 500.0, "men", "tee.png", None, 100)];
    var req := CheckoutRequest(Items([ClientItem(Some(3), None, Some(2), None, Some(1.0))]), Some(c));
    assert Find(catalog, 3) == Some(catalog[0]);
    SingleItemCheckout(catalog, orders, rowId, req, uuid, now, stamp, catalog[0]);
  }

  /** Worked example of the divergence: a client claiming a price of 1 for
      two of a product the catalog prices at 500 pays 52.36 at the in-line
      handler, while the router charges 1180. */
  lemma {:induction false} ClientPriceDivergence(orders: seq<Order>, rowId: int, uuid: string, now: int, stamp: string, c: Customer)
    requires TruthyString(c.name) && TruthyString(c.email)
    requires !HasOrderId(orders, OrderId(uuid))
    ensures var catalog := [Product(3, "Tee", 500.0, "men", "tee.png", None, 100)];
            var req := CheckoutRequest(Items([ClientItem(Some(3), None, Some(2), None, Some(1.0))]), Some(c));
            var legacy := LegacyCheckoutOutcome(orders, rowId, req, uuid, now, stamp).0;
            var router := CheckoutOutcome(catalog, orders, rowId, req, uuid, now, stamp).0;
            && legacy.LegacyPlaced? && legacy.receipt.total == 52.36
            && router.Placed? && router.receipt.total == 1180.0
            && legacy.receipt.total < router.receipt.total
  {
    LegacyChargesClaimedPrice(orders, rowId, uuid, now, stamp, c);
    RouterChargesCatalogPrice(orders, rowId, uuid, now, stamp, c);
  }

  // ---------------------------------------------------------------------
  // Reading the ledger

  /** Most recent first. */
  predicate NewestFirstOrder(s: seq<Order>) {
    forall i, j :: 0 <= i < j < |s| ==> s[i].timestamp >= s[j].timestamp
  }

  /** A permutation of `t` plus `o` has no order more recent than `bound`
      when neither `t` nor `o` has. */
  lemma {:induction false} PermutationBelow(r: seq<Order>, t: seq<Order>, o: Order, bound: int)
    requires multiset(r) == multiset(t) + multiset{o}
    requires forall k :: 0 <= k < |t| ==> t[k].timestamp <= bound
    requires o.timestamp <= bound
    ensures forall i :: 0 <= i < |r| ==> r[i].timestamp <= bound
  {
    forall i | 0 <= i < |r| ensures r[i].timestamp <= bound {
      assert r[i] in multiset(r);
      if r[i] != o {
        assert r[i] in multiset(t);
        var k :| 0 <= k < |t| && t[k] == r[i];
      }
    }
  }

  /** Putting an order in front of a newest-first list whose orders are no
      more recent keeps it newest first. */
  lemma {:induction false} ConsNewestFirst(h: Order, r: seq<Order>)
    requires NewestFirstOrder(r)
    requires forall i :: 0 <= i < |r| ==> r[i].timestamp <= h.timestamp
    ensures NewestFirstOrder([h] + r)
  {
    var c := [h] + r;
    forall i, j | 0 <= i < j < |c| ensures c[i].timestamp >= c[j].timestamp {
      assert c[j] == r[j - 1];
      if i > 0 {
        assert c[i] == r[i - 1];
      }
    }
  }

  /** Place `o` in front of the first order that is not more recent. */
  function InsertByTime(o: Order, s: seq<Order>): (r: seq<Order>)
    requires NewestFirstOrder(s)
    ensures NewestFirstOrder(r)
    ensures multiset(r) == multiset(s) + multiset{o}
  {
    if s == [] || s[0].timestamp <= o.timestamp then
      ConsNewestFirst(o, s);
      [o] + s
    else
      var rest := InsertByTime(o, s[1..]);
      assert s == [s[0]] + s[1..];
      PermutationBelow(rest, s[1..], o, s[0].timestamp);
      ConsNewestFirst(s[0], rest);
      [s[0]] + rest
  }

  /** `SELECT * FROM orders ORDER BY timestamp DESC`. */
  function NewestFirst(orders: seq<Order>): (r: seq<Order>)
    ensures NewestFirstOrder(r)
    ensures multiset(r) == multiset(orders)
  {
    if orders == [] then []
    else
      assert orders == [orders[0]] + orders[1..];
      InsertByTime(orders[0], NewestFirst(orders[1..]))
  }

  /** The listing holds every order once and starts with a most recent one. */
  lemma {:induction false} NewestFirstHead(orders: seq<Order>)
    requires orders != []
    ensures |NewestFirst(orders)| == |orders|
    ensures NewestFirst(orders)[0] in orders
    ensures forall o :: o in orders ==> NewestFirst(orders)[0].timestamp >= o.timestamp
  {
    var r := NewestFirst(orders);
    assert |multiset(r)| == |multiset(orders)|;
    assert r[0] in multiset(r);
    forall o | o in orders ensures r[0].timestamp >= o.timestamp {
      assert o in multiset(r);
      var k :| 0 <= k < |r| && r[k] == o;
    }
  }

  /** `SELECT * FROM orders WHERE order_id = ?`. */
  function FindOrder(orders: seq<Order>, orderId: string): (r: Option<Order>)
    ensures r.Some? ==> r.value in orders && r.value.orderId == orderId
    ensures r.None? <==> !HasOrderId(orders, orderId)
  {
    if orders == [] then None
    else if orders[0].orderId == orderId then Some(orders[0])
    else
      assert forall o :: o in orders[1..] ==> o in orders;
      FindOrder(orders[1..], orderId)
  }

  datatype OrderLookup = Found(order: Order) | NotFound(status: int, error: string)

  /** GET `/api/orders/:orderId`. */
  function GetOrder(orders: seq<Order>, orderId: string): (r: OrderLookup)
    ensures r.NotFound? <==> !HasOrderId(orders, orderId)
    ensures r.NotFound? ==> r == NotFound(404, "Order not found")
    ensures r.Found? ==> r.order in orders && r.order.orderId == orderId
  {
    match FindOrder(orders, orderId)
    case None => NotFound(404, "Order not found")
    case Some(o) => Found(o)
  }

  /** With unique codes the lookup returns the one order with that code. */
  lemma {:induction false} FindOrderUnique(orders: seq<Order>, o: Order)
    requires UniqueOrderIds(orders)
    requires o in orders
    ensures FindOrder(orders, o.orderId) == Some(o)
  {
    if orders[0] != o {
      assert UniqueOrderIds(orders[1..]);
      assert o in orders[1..];
      FindOrderUnique(orders[1..], o);
      assert orders[0].orderId != o.orderId by {
        var j :| 0 <= j < |orders| && orders[j] == o;
      }
    }
  }

  /** An order the router has just placed can be fetched by its code, with
      the receipt's total and item snapshot. */
  lemma {:induction false} PlacedOrderIsRetrievable(catalog: seq<Product>, orders: seq<Order>, rowId: int, req: CheckoutRequest,
                                 uuid: string, now: int, stamp: string)
    requires UniqueOrderIds(orders)
    requires CheckoutOutcome(catalog, orders, rowId, req, uuid, now, stamp).0.Placed?
    ensures var (resp, orders') := CheckoutOutcome(catalog, orders, rowId, req, uuid, now, stamp);
      var found := GetOrder(orders', resp.receipt.orderId);
      && found.Found?
      && found.order.total == resp.receipt.total
      && found.order.items == Validated(resp.receipt.items)
  {
    var (resp, orders') := CheckoutOutcome(catalog, orders, rowId, req, uuid, now, stamp);
    CheckoutAllOrNothing(catalog, orders, rowId, req, uuid, now, stamp);
    var o := orders'[|orders|];
    assert orders' == orders + [o];
    InsertKeepsCodesUnique(orders, o);
    FindOrderUnique(orders', o);
  }
}
